/** Statements as tokens. */
module StmtRendering {
  import opened Options
  import opened Tokens
  import opened ExprSyntax
  import opened Visibility
  import opened Rendering

  function RenderStmt(t: StmtTree): (ts: seq<Token>)
    decreases t, 0
  {
    match t
    case VarTree(isMut, name, typ, init) => MutTokens(isMut) + ([Token(Identifier, name)] + (RenderVarRest(typ, init) + [Tok(Semicolon)]))
    case IfTree(cond, yes, no) =>
      [Tok(KwIf), Tok(LParen)] + (Render(cond) + ([Tok(RParen)] + (RenderBlock(yes) + RenderElse(no))))
    case WhileTree(cond, body) => [Tok(KwWhile), Tok(LParen)] + (Render(cond) + ([Tok(RParen)] + RenderBlock(body)))
    case ForTree(start, test, iter, body) =>
      [Tok(KwFor), Tok(LParen)] + ((if start.Some? then RenderStmt(start.value) else [Tok(Semicolon)]) +
        (RenderOpt(test) + ([Tok(Semicolon)] + (RenderOpt(iter) + ([Tok(RParen)] + RenderBlock(body))))))
    case SwitchTree(subject, cases) =>
      [Tok(KwSwitch), Tok(LParen)] + (Render(subject) + ([Tok(RParen), Tok(LBrace)] + (RenderCases(cases) + [Tok(RBrace)])))
    case ReadTree(e) => [Tok(KwRead)] + (Render(e) + [Tok(Semicolon)])
    case FreeTree(e) => [Tok(KwFree)] + (Render(e) + [Tok(Semicolon)])
    case PrintTree(es) => [Tok(KwPrint)] + (RenderArgs(es) + [Tok(Semicolon)])
    case ErrorTree(es) => [Tok(KwError)] + (RenderArgs(es) + [Tok(Semicolon)])
    case BlockTree(body) => RenderBlock(body)
    case ReturnTree(e) => [Tok(KwReturn)] + (RenderOpt(e) + [Tok(Semicolon)])
    case ExitTree(e) => [Tok(KwExit)] + (RenderOpt(e) + [Tok(Semicolon)])
    case BreakTree => [Tok(KwBreak), Tok(Semicolon)]
    case ContinueTree => [Tok(KwContinue), Tok(Semicolon)]
    case AsmTree(code) => [Tok(KwAsm), Tok(LBrace)] + (code + [Tok(RBrace), Tok(Semicolon)])
    case ExprTree(e) => Render(e) + [Tok(Semicolon)]
    case Poison => []
  }

  /** `: Type`, `: Type = Expr` or `:= Expr` */
  function RenderVarRest(typ: Option<TypeTree>, init: Option<Tree>): seq<Token> {
    match (typ, init)
    case (Some(t), Some(e)) => [Tok(Colon)] + (RenderType(t) + ([Tok(Equal)] + Render(e)))
    case (Some(t), None) => [Tok(Colon)] + RenderType(t)
    case (None, Some(e)) => [Tok(Walrus)] + Render(e)
    case (None, None) => []
  }

  /** Another `if` follows `else` without braces. */
  predicate IsElseIf(no: seq<StmtTree>) {
    |no| == 1 && no[0].IfTree?
  }

  function RenderElse(no: ElseTree): seq<Token>
    decreases no, 0
  {
    match no
    case NoElse => []
    case Else(b) => [Tok(KwElse)] + if IsElseIf(b) then RenderStmt(b[0]) else RenderBlock(b)
  }

  function RenderBlock(b: seq<StmtTree>): seq<Token>
    decreases b, 1
  {
    [Tok(LBrace)] + (RenderStmts(b) + [Tok(RBrace)])
  }

  function RenderStmts(b: seq<StmtTree>): seq<Token>
    decreases b, 0
  {
    if b == [] then [] else RenderStmt(b[0]) + RenderStmts(b[1..])
  }

  function RenderCases(cs: seq<CaseTree>): seq<Token>
    decreases cs, 0
  {
    if cs == [] then [] else RenderCase(cs[0]) + RenderCases(cs[1..])
  }

  function RenderCase(c: CaseTree): seq<Token>
    decreases c, 0
  {
    match c
    case ValueCase(e, body) => [Tok(KwCase)] + (Render(e) + ([Tok(Colon)] + RenderBlock(body)))
    case EnumCase(n, v, payload, body) =>
      [Tok(KwCase), Token(Identifier, n)] + ([Tok(ColonColon), Token(Identifier, v)] + (RenderPayload(payload) + ([Tok(Colon)] + RenderBlock(body))))
    case DefaultCase(body) => [Tok(KwDefault), Tok(Colon)] + RenderBlock(body)
  }

  function RenderPayload(p: Option<string>): seq<Token> {
    match p case None => [] case Some(n) => [Tok(LParen), Token(Identifier, n)] + [Tok(RParen)]
  }

  // Statements shaped by the grammar

  /** The variables a statement leaves behind in its scope. */
  function Declares(t: StmtTree): set<string> {
    if t.VarTree? then {t.name} else {}
  }

  function DeclaresAll(b: seq<StmtTree>): set<string> {
    if b == [] then {} else Declares(b[0]) + DeclaresAll(b[1..])
  }

  function Inner(e: Names): Names {
    e.(bound := {})
  }

  predicate ShapedOpt(e: Option<Tree>, env: Names) {
    e.Some? ==> Shaped(e.value, env)
  }

  predicate ShapedStmt(t: StmtTree, env: Names)
    decreases t, 0
  {
    match t
    case VarTree(_, name, typ, init) =>
      Fresh(env, {name}) && (typ.Some? || init.Some?) && (typ.Some? ==> TypeShaped(typ.value, env)) && ShapedOpt(init, env)
    case IfTree(cond, yes, no) => Shaped(cond, env) && ShapedStmts(yes, Inner(env)) && ShapedElse(no, env)
    case WhileTree(cond, body) => Shaped(cond, env) && ShapedStmts(body, Inner(env))
    case ForTree(start, test, iter, body) =>
      && (start.Some? ==> (start.value.VarTree? || start.value.ExprTree?) && ShapedStmt(start.value, Inner(env)))
      && var e := Declared(Inner(env), if start.Some? then Declares(start.value) else {});
        ShapedOpt(test, e) && ShapedOpt(iter, e) && ShapedStmts(body, Inner(e))
    case SwitchTree(subject, cases) => Shaped(subject, env) && ShapedCases(cases, env)
    case ReadTree(e) => Shaped(e, env)
    case FreeTree(e) => Shaped(e, env)
    case PrintTree(es) => es.ConsTree? && ShapedAll(es, env)
    case ErrorTree(es) => es.ConsTree? && ShapedAll(es, env)
    case BlockTree(body) => ShapedStmts(body, Inner(env))
    case ReturnTree(e) => ShapedOpt(e, env)
    case ExitTree(e) => ShapedOpt(e, env)
    case BreakTree => true
    case ContinueTree => true
    case AsmTree(code) => Balanced(code, 1)
    case ExprTree(e) => Shaped(e, env)
    case Poison => false
  }

  predicate ShapedElse(no: ElseTree, env: Names)
    decreases no, 0
  {
    match no
    case NoElse => true
    case Else(b) => if IsElseIf(b) then ShapedStmt(b[0], env) else ShapedStmts(b, Inner(env))
  }

  predicate ShapedStmts(b: seq<StmtTree>, env: Names)
    decreases b, 0
  {
    b != [] ==> ShapedStmt(b[0], env) && ShapedStmts(b[1..], Declared(env, Declares(b[0])))
  }

  predicate ShapedCases(cs: seq<CaseTree>, env: Names)
    decreases cs, 0
  {
    cs != [] ==> ShapedCase(cs[0], env) && ShapedCases(cs[1..], env)
  }

  /** A value that starts with `Name ::` would be a pattern. */
  predicate ShapedCase(c: CaseTree, env: Names)
    decreases c, 0
  {
    match c
    case ValueCase(e, body) => Shaped(e, env) && !LooksLikePattern(Render(e)) && ShapedStmts(body, Inner(env))
    case EnumCase(_, _, _, body) => ShapedStmts(body, Inner(env))
    case DefaultCase(body) => ShapedStmts(body, Inner(env))
  }

  predicate LooksLikePattern(ts: seq<Token>) {
    |ts| > 1 && ts[0].kind == Identifier && ts[1].kind == ColonColon
  }

  /** Tokens of an assembly block at a depth of braces: every brace that opens closes, and none closes the block. */
  predicate Balanced(code: seq<Token>, braces: nat) {
    if code == [] then braces == 1
    else
      && code[0].kind != EofTok && (code[0].kind == RBrace ==> braces > 1)
      && Balanced(code[1..], if code[0].kind == LBrace then braces + 1 else if code[0].kind == RBrace then braces - 1 else braces)
  }
}
