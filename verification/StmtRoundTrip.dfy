/** Statements parse back from their tokens, in any block. */
module StmtRoundTrip {
  import opened Options
  import opened Tokens
  import opened Scopes
  import opened ExprSyntax
  import opened ParserState
  import opened Grammar
  import opened Visibility
  import opened Rendering
  import opened TypeRoundTrip
  import opened ExprRoundTrip
  import opened StmtRendering

  /** From `s` to `u` over `n` tokens, with variables `xs` declared in the current scope. */
  ghost predicate Ran(s: State, u: State, n: nat, xs: set<string>) {
    u == State(s.tokens, s.pos + n, u.scopes, s.current) && Became(s.scopes, u.scopes, s.current, xs)
  }

  lemma RanThen(s: State, u: State, v: State, n: nat, m: nat, xs: set<string>, ys: set<string>)
    requires Ran(s, u, n, xs) && Ran(u, v, m, ys)
    ensures Ran(s, v, n + m, xs + ys)
  {
    hide Became;
    BecameTrans(s.scopes, u.scopes, v.scopes, s.current, xs, ys);
  }

  lemma WentIsRun(s: State, u: State, n: nat)
    ensures Went(s, u, n) <==> Ran(s, u, n, {})
  {
    hide Became;
  }

  /** First a run that declares, then one that does not, or the other way round. */
  lemma RanWent(s: State, u: State, v: State, n: nat, m: nat, xs: set<string>)
    requires (Ran(s, u, n, xs) && Went(u, v, m)) || (Went(s, u, n) && Ran(u, v, m, xs))
    ensures Ran(s, v, n + m, xs)
  {
    hide Became, Ran, Went;
    WentIsRun(s, u, n);
    WentIsRun(u, v, m);
    if Ran(s, u, n, xs) && Went(u, v, m) {
      RanThen(s, u, v, n, m, xs, {});
      assert xs + {} == xs;
    } else {
      RanThen(s, u, v, n, m, {}, xs);
      assert {} + xs == xs;
    }
  }

  lemma RanParts(s: State, u: State, n: nat, xs: set<string>)
    requires Ran(s, u, n, xs)
    ensures u == State(s.tokens, s.pos + n, u.scopes, s.current)
  {
    hide Became;
  }

  lemma RanSees(s: State, u: State, n: nat, xs: set<string>, e: Names)
    requires Ran(s, u, n, xs) && Sees(s.scopes, s.current, e) && Fresh(e, xs)
    ensures Sees(u.scopes, u.current, Declared(e, xs))
  {
    hide Became, Sees, Fresh;
    SeesAfter(s.scopes, u.scopes, s.current, xs, e);
  }

  lemma RanPast(s: State, u: State, n: nat, m: nat, xs: set<string>)
    requires Ran(s, u, n, xs)
    ensures Ran(s, u.(pos := u.pos + m), n + m, xs)
  {
    hide Became;
  }

  // Expressions with what follows them

  lemma {:induction false} ExprThenParses(e: Tree, s: State, k: Kind, env: Names) returns (u: State)
    requires Sees(s.scopes, s.current, env) && Shaped(e, env) && At(s.tokens, s.pos, Render(e)) && After(s, |Render(e)|) == k
    requires Stops(0, k) && k != EofTok
    ensures ExprThen(s, k) == Done(e, u) && Went(s, u, |Render(e)| + 1)
  {
    hide Sees, Shaped, At, Render, Went, ExprAt, Onward, Stops;
    var v := AssignParses(e, s, env);
    WentParts(s, v, |Render(e)|);
    PassMore(s, v, |Render(e)|, 1);
    u := Past(v);
  }

  lemma {:induction false} ExprsThenParses(es: Trees, s: State, k: Kind, env: Names) returns (u: State)
    requires es.ConsTree? && Sees(s.scopes, s.current, env) && ShapedAll(es, env) && At(s.tokens, s.pos, RenderArgs(es))
    requires After(s, |RenderArgs(es)|) == k && Stops(0, k) && k != Comma && k != EofTok
    ensures ExprsThen(s, k) == Done(es, u) && Went(s, u, |RenderArgs(es)| + 1)
  {
    hide Sees, ShapedAll, At, RenderArgs, Went, ExprsAt, Onward, Stops;
    var v := ListParses(es, s, env);
    WentParts(s, v, |RenderArgs(es)|);
    PassMore(s, v, |RenderArgs(es)|, 1);
    u := Past(v);
  }

  lemma {:induction false} MaybeThenParses(e: Option<Tree>, s: State, k: Kind, env: Names) returns (u: State)
    requires Sees(s.scopes, s.current, env) && ShapedOpt(e, env) && At(s.tokens, s.pos, RenderOpt(e)) && After(s, |RenderOpt(e)|) == k
    requires Stops(0, k) && !ExprStart(k) && k != EofTok
    ensures MaybeThen(s, k) == Done(e, u) && Went(s, u, |RenderOpt(e)| + 1)
  {
    hide Sees, Shaped, At, Render, Went, ExprThen, Onward, Stops, ExprStart;
    if e.Some? {
      StartsAt(e.value, s, env);
      u := ExprThenParses(e.value, s, k, env);
    } else {
      PassWent(s, 1, env);
      u := Past(s);
    }
  }

  /** `( Expr )` after a keyword, before `rest`. */
  lemma {:induction false} ConditionParses(e: Tree, s: State, k: Kind, rest: seq<Token>, env: Names) returns (u: State)
    requires Sees(s.scopes, s.current, env) && Shaped(e, env) && k != EofTok
    requires At(s.tokens, s.pos, [Tok(k), Tok(LParen)] + (Render(e) + ([Tok(RParen)] + rest)))
    ensures ConditionAt(s, k) == Done(e, u) && Went(s, u, |Render(e)| + 3) && At(s.tokens, s.pos + (|Render(e)| + 3), rest)
    ensures KindAt(s) == k
  {
    hide Sees, Shaped, At, Render, Went, ExprThen, Onward;
    AtTwo(s.tokens, s.pos, Tok(k), Tok(LParen), Render(e) + ([Tok(RParen)] + rest));
    AtMiddle(s.tokens, s.pos + 2, Render(e), Tok(RParen), rest);
    PassWent(s, 2, env);
    var s2 := Past(Past(s));
    u := ExprThenParses(e, s2, RParen, env);
    WentThen(s, s2, u, 2, |Render(e)| + 1);
    ConditionStep(s, k, e, u);
  }

  lemma ConditionStep(s: State, k: Kind, e: Tree, u: State)
    requires k != EofTok && KindAt(s) == k && KindAt(Past(s)) == LParen && ExprThen(Past(Past(s)), RParen) == Done(e, u)
    ensures ConditionAt(s, k) == Done(e, u)
  {
    hide ExprThen, Onward;
  }

  // How statements start

  lemma {:induction false} SecondToken(e: Tree, env: Names)
    requires Shaped(e, env) && |Render(e)| > 1 && Render(e)[0].kind == Identifier
    ensures Render(e)[1].kind != Colon && Render(e)[1].kind != Walrus
  {
    hide FitsNew, TypeShaped, RenderType, OpLevel, RenderInits, RenderArgs;
    match e
    case Index(b, _) =>
      if |Render(b)| > 1 {
        SecondToken(b, env);
      }
    case Invoke(b, _) =>
      if |Render(b)| > 1 {
        SecondToken(b, env);
      }
    case FieldOf(b, _) =>
      if |Render(b)| > 1 {
        SecondToken(b, env);
      }
    case Binary(_, l, _) =>
      if |Render(l)| > 1 {
        SecondToken(l, env);
      }
    case AssignTo(t, _) =>
      if |Render(t)| > 1 {
        SecondToken(t, env);
      }
    case _ =>
  }

  /** An expression before a semicolon is not taken for a declaration. */
  lemma {:induction false} NotVar(e: Tree, s: State, env: Names)
    requires Shaped(e, env) && At(s.tokens, s.pos, Render(e)) && After(s, |Render(e)|) == Semicolon
    ensures !StartsVar(s) && ExprStart(KindAt(s))
  {
    hide Shaped, At, Render;
    StartsAt(e, s, env);
    AtFirst(s.tokens, s.pos, Render(e));
    if KindAt(s) == Identifier && |Render(e)| > 1 {
      SecondToken(e, env);
      AtSecond(s.tokens, s.pos, Render(e));
    }
  }

  lemma AtSecond(ts: seq<Token>, p: nat, r: seq<Token>)
    requires At(ts, p, r) && |r| > 1
    ensures p + 1 < |ts| && ts[p + 1] == r[1]
  {
    assert ts[p..p + |r|][1] == ts[p + 1];
  }

  lemma {:induction false} StmtStarts(t: StmtTree, env: Names)
    requires ShapedStmt(t, env)
    ensures |RenderStmt(t)| > 0
    ensures var k := RenderStmt(t)[0].kind; k != KwElse && k != RBrace && k != EofTok
  {
    hide Shaped, Render, RenderStmts, RenderElse, RenderCases, Balanced, ShapedStmts, ShapedCases;
    if t.ExprTree? {
      Starts(t.expr, env);
    }
  }

  // Statements

  /** Every statement, wherever its tokens stand, unless an `else` follows. */
  lemma {:induction false} StmtParses(t: StmtTree, s: State, env: Names) returns (u: State)
    requires Sees(s.scopes, s.current, env) && ShapedStmt(t, env) && At(s.tokens, s.pos, RenderStmt(t)) && After(s, |RenderStmt(t)|) != KwElse
    ensures BodyAt(s) == Done(t, u) && StmtAt(s) == (t, u) && Ran(s, u, |RenderStmt(t)|, Declares(t))
    decreases t, 2
  {
    hide Sees, ShapedStmt, At, RenderStmt, Ran, Went, BodyAt, StmtAt, Onward;
    match t {
      case VarTree(_, _, _, _) =>
        u := VarParses(t, s, env);
        VarBody(t, s, u, env);
      case IfTree(_, _, _) => u := IfParses(t, s, env); IfBody(t, s, u);
      case WhileTree(_, _) => u := WhileParses(t, s, env);
      case ForTree(_, _, _, _) => u := ForParses(t, s, env);
      case SwitchTree(_, _) => u := SwitchParses(t, s, env);
      case BlockTree(_) => u := BlockStmtParses(t, s, env);
      case AsmTree(_) => u := AsmParses(t, s, env);
      case Poison => NoPoison(env);
      case _ => u := SimpleParses(t, s, env);
    }
    if !t.VarTree? {
      WentIsRun(s, u, |RenderStmt(t)|);
    }
    StmtStep(s, t, u);
  }

  lemma {:induction false} NoPoison(env: Names)
    ensures !ShapedStmt(Poison, env)
  {
  }

  lemma {:induction false} StmtStep(s: State, t: StmtTree, u: State)
    requires BodyAt(s) == Done(t, u)
    ensures StmtAt(s) == (t, u)
  {
    hide BodyAt, Onward, Recover;
  }

  // Variables

  lemma {:induction false} VarTokens(t: StmtTree, s: State, env: Names)
    requires t.VarTree? && ShapedStmt(t, env) && At(s.tokens, s.pos, RenderStmt(t))
    ensures var m, r := |MutTokens(t.isMut)|, |RenderVarRest(t.typ, t.init)|;
      && |RenderStmt(t)| == m + 1 + r + 1 && Prefix(s) == (t.isMut, s.(pos := s.pos + m))
      && After(s, m) == Identifier && TextAt(s.(pos := s.pos + m)) == t.name
      && At(s.tokens, s.pos + m + 1, RenderVarRest(t.typ, t.init)) && After(s, m + 1 + r) == Semicolon
    ensures t.isMut ==> KindAt(s) == KwMut
  {
    hide At, Prefix, Onward, MutTokens, RenderVarRest, Shaped, TypeShaped;
    var m, r := MutTokens(t.isMut), RenderVarRest(t.typ, t.init);
    var rest := [Token(Identifier, t.name)] + (r + [Tok(Semicolon)]);
    assert RenderStmt(t) == m + rest;
    PrefixAt(s, t.isMut, rest);
    AtCons(s.tokens, s.pos + |m|, Token(Identifier, t.name), r + [Tok(Semicolon)]);
    AtLast(s.tokens, s.pos + |m| + 1, r, Tok(Semicolon));
    if t.isMut {
      MutFirst(s, rest);
    }
  }

  lemma MutFirst(s: State, rest: seq<Token>)
    requires At(s.tokens, s.pos, MutTokens(true) + rest)
    ensures KindAt(s) == KwMut
  {
    hide At;
    AtFirst(s.tokens, s.pos, MutTokens(true) + rest);
  }

  lemma {:induction false} VarParses(t: StmtTree, s: State, env: Names) returns (u: State)
    requires t.VarTree? && Sees(s.scopes, s.current, env) && ShapedStmt(t, env) && At(s.tokens, s.pos, RenderStmt(t))
    ensures VarAt(s) == Done(t, u) && Ran(s, u, |RenderStmt(t)|, {t.name})
  {
    hide Sees, At, RenderStmt, RenderVarRest, Ran, Went, VarAt, VarRest, Onward, Prefix, Shaped, TypeShaped, Fresh, MutTokens;
    VarTokens(t, s, env);
    var m, r := |MutTokens(t.isMut)|, |RenderVarRest(t.typ, t.init)|;
    var s1 := s.(pos := s.pos + m);
    PassWent(s, m + 1, env);
    var s2 := VarRestParses(t.typ, t.init, Past(s1), env);
    WentParts(Past(s1), s2, r);
    WentThen(s, Past(s1), s2, m + 1, r);
    PassMore(s, s2, m + 1 + r, 1);
    var s3 := Past(s2);
    u := DeclareParses(s, s3, m + 1 + r + 1, t.name, PrintedOpt(t.typ), env);
    VarStep(t, s, s1, s2);
  }

  /** Declaring a fresh name at the end of a run. */
  lemma DeclareParses(s: State, t: State, n: nat, name: string, typ: Option<string>, env: Names) returns (u: State)
    requires Sees(s.scopes, s.current, env) && Went(s, t, n) && Fresh(env, {name})
    ensures Free(t, t.current, name) && u == Bind(t, t.current, name, VarSym(typ)) && Ran(s, u, n, {name})
  {
    hide Sees, Went, Ran, Became, Bind;
    WentSees(s, t, n, env);
    assert name in {name};
    FreeSeen(t, name, env);
    u := Bind(t, t.current, name, VarSym(typ));
    BindRan(t, name, typ);
    RanWent(s, t, u, n, 0, {name});
  }

  lemma FreeSeen(s: State, name: string, env: Names)
    requires Sees(s.scopes, s.current, env) && Visible(name) && name !in env.bound
    ensures Free(s, s.current, name) && Nested(s.scopes)
  {
    hide Meant, Chain, HasStruct, HasEnum;
  }

  lemma BindRan(s: State, name: string, typ: Option<string>)
    requires Nested(s.scopes) && Free(s, s.current, name) && Visible(name)
    ensures Ran(s, Bind(s, s.current, name, VarSym(typ)), 0, {name})
  {
    hide Became;
    BindBecame(s, name, typ);
  }

  lemma VarStep(t: StmtTree, s: State, s1: State, s2: State)
    requires t.VarTree? && Prefix(s) == (t.isMut, s1) && KindAt(s1) == Identifier && TextAt(s1) == t.name
    requires VarRest(Past(s1)) == Done((t.typ, t.init), s2) && KindAt(s2) == Semicolon && Free(Past(s2), s2.current, t.name)
    ensures VarAt(s) == Done(t, Bind(Past(s2), s2.current, t.name, VarSym(PrintedOpt(t.typ))))
  {
    hide Prefix, VarRest, Onward, Bind, PrintedOpt;
  }

  lemma {:induction false} VarRestParses(typ: Option<TypeTree>, init: Option<Tree>, s: State, env: Names) returns (u: State)
    requires Sees(s.scopes, s.current, env) && (typ.Some? || init.Some?) && (typ.Some? ==> TypeShaped(typ.value, env)) && ShapedOpt(init, env)
    requires At(s.tokens, s.pos, RenderVarRest(typ, init)) && After(s, |RenderVarRest(typ, init)|) == Semicolon
    ensures VarRest(s) == Done((typ, init), u) && Went(s, u, |RenderVarRest(typ, init)|)
    ensures KindAt(s) == Colon || KindAt(s) == Walrus
  {
    hide Sees, At, Went, VarRest, Onward, Shaped, TypeShaped, TypeAt, ExprAt, RenderType, Render;
    PassWent(s, 1, env);
    if typ.None? {
      AtCons(s.tokens, s.pos, Tok(Walrus), Render(init.value));
      u := AssignParses(init.value, Past(s), env);
      WentThen(s, Past(s), u, 1, |Render(init.value)|);
      InferStep(s, init.value, u);
    } else if init.None? {
      var t := RenderType(typ.value);
      AtCons(s.tokens, s.pos, Tok(Colon), t);
      u := TypeParses(typ.value, Past(s), env);
      WentParts(Past(s), u, |t|);
      WentThen(s, Past(s), u, 1, |t|);
      TypedStep(s, typ.value, u);
    } else {
      var t, e := RenderType(typ.value), Render(init.value);
      AtCons(s.tokens, s.pos, Tok(Colon), t + ([Tok(Equal)] + e));
      AtMiddle(s.tokens, s.pos + 1, t, Tok(Equal), e);
      var v := TypeParses(typ.value, Past(s), env);
      WentParts(Past(s), v, |t|);
      WentThen(s, Past(s), v, 1, |t|);
      PassMore(s, v, 1 + |t|, 1);
      WentSees(s, Past(v), 1 + |t| + 1, env);
      u := AssignParses(init.value, Past(v), env);
      WentThen(s, Past(v), u, 1 + |t| + 1, |e|);
      BothStep(s, typ.value, v, init.value, u);
    }
  }

  lemma InferStep(s: State, e: Tree, u: State)
    requires KindAt(s) == Walrus && ExprAt(Past(s)) == Done(e, u)
    ensures VarRest(s) == Done((None, Some(e)), u)
  {
    hide ExprAt, TypeAt, Onward;
  }

  lemma TypedStep(s: State, t: TypeTree, u: State)
    requires KindAt(s) == Colon && TypeAt(Past(s)) == Done(t, u) && KindAt(u) != Equal
    ensures VarRest(s) == Done((Some(t), None), u)
  {
    hide ExprAt, TypeAt, Onward;
  }

  lemma BothStep(s: State, t: TypeTree, v: State, e: Tree, u: State)
    requires KindAt(s) == Colon && TypeAt(Past(s)) == Done(t, v) && KindAt(v) == Equal && ExprAt(Past(v)) == Done(e, u)
    ensures VarRest(s) == Done((Some(t), Some(e)), u)
  {
    hide ExprAt, TypeAt, Onward;
  }

  lemma {:induction false} VarStarts(t: StmtTree, s: State, env: Names)
    requires t.VarTree? && ShapedStmt(t, env) && At(s.tokens, s.pos, RenderStmt(t))
    ensures StartsVar(s) && KindAt(s) != Semicolon
  {
    hide At, Prefix, Onward, Shaped, TypeShaped, RenderType, Render, RenderStmt;
    VarTokens(t, s, env);
    AtFirst(s.tokens, s.pos + |MutTokens(t.isMut)| + 1, RenderVarRest(t.typ, t.init));
  }

  lemma {:induction false} VarBody(t: StmtTree, s: State, u: State, env: Names)
    requires t.VarTree? && ShapedStmt(t, env) && At(s.tokens, s.pos, RenderStmt(t)) && VarAt(s) == Done(t, u)
    ensures BodyAt(s) == Done(t, u)
  {
    hide At, VarAt, IfAt, ForAt, WhileAt, SwitchAt, BlockAt, AsmAt, SimpleAt, Onward, StartsVar, ShapedStmt, RenderStmt;
    VarStarts(t, s, env);
  }

  // Statements without statements inside

  lemma {:induction false} SimpleParses(t: StmtTree, s: State, env: Names) returns (u: State)
    requires t.ReadTree? || t.FreeTree? || t.PrintTree? || t.ErrorTree? || t.ReturnTree? || t.ExitTree? || t.BreakTree? || t.ContinueTree? || t.ExprTree?
    requires Sees(s.scopes, s.current, env) && ShapedStmt(t, env) && At(s.tokens, s.pos, RenderStmt(t))
    ensures BodyAt(s) == Done(t, u) && Went(s, u, |RenderStmt(t)|)
  {
    hide Sees, At, Went, BodyAt, SimpleAt, Onward, Shaped, ShapedAll, Render, RenderArgs, RenderOpt, ShapedOpt, StartsVar, ExprThen, ExprsThen, MaybeThen, Stops, ExprStart;
    SemicolonStops();
    var s1, semi := Past(s), Tok(Semicolon);
    PassWent(s, 1, env);
    match t
    case ReadTree(e) =>
      AtKeyword(s, KwRead, Render(e));
      u := ExprThenParses(e, s1, Semicolon, env);
      WentThen(s, s1, u, 1, |Render(e)| + 1);
      ReadStep(s, e, u);
    case FreeTree(e) =>
      AtKeyword(s, KwFree, Render(e));
      u := ExprThenParses(e, s1, Semicolon, env);
      WentThen(s, s1, u, 1, |Render(e)| + 1);
      FreeStep(s, e, u);
    case PrintTree(es) =>
      AtKeyword(s, KwPrint, RenderArgs(es));
      u := ExprsThenParses(es, s1, Semicolon, env);
      WentThen(s, s1, u, 1, |RenderArgs(es)| + 1);
      PrintStep(s, es, u);
    case ErrorTree(es) =>
      AtKeyword(s, KwError, RenderArgs(es));
      u := ExprsThenParses(es, s1, Semicolon, env);
      WentThen(s, s1, u, 1, |RenderArgs(es)| + 1);
      ErrorStep(s, es, u);
    case ReturnTree(e) =>
      AtKeyword(s, KwReturn, RenderOpt(e));
      u := MaybeThenParses(e, s1, Semicolon, env);
      WentThen(s, s1, u, 1, |RenderOpt(e)| + 1);
      ReturnStep(s, e, u);
    case ExitTree(e) =>
      AtKeyword(s, KwExit, RenderOpt(e));
      u := MaybeThenParses(e, s1, Semicolon, env);
      WentThen(s, s1, u, 1, |RenderOpt(e)| + 1);
      ExitStep(s, e, u);
    case ExprTree(e) =>
      AtLast(s.tokens, s.pos, Render(e), semi);
      NotVar(e, s, env);
      u := ExprThenParses(e, s, Semicolon, env);
      ExprStep(s, e, u);
    case _ => u := JumpParses(t, s, env);
  }

  lemma {:induction false} JumpParses(t: StmtTree, s: State, env: Names) returns (u: State)
    requires (t.BreakTree? || t.ContinueTree?) && Sees(s.scopes, s.current, env) && At(s.tokens, s.pos, RenderStmt(t))
    ensures BodyAt(s) == Done(t, u) && Went(s, u, |RenderStmt(t)|)
  {
    hide Sees, At, Went, BodyAt, Onward;
    if t.BreakTree? {
      u := WordParses(s, KwBreak, env);
      BreakStep(s);
    } else {
      u := WordParses(s, KwContinue, env);
      ContinueStep(s);
    }
  }

  lemma SemicolonStops()
    ensures Stops(0, Semicolon) && !ExprStart(Semicolon)
  {
  }

  /** A keyword, something, and a semicolon. */
  lemma AtKeyword(s: State, k: Kind, r: seq<Token>)
    requires At(s.tokens, s.pos, [Tok(k)] + (r + [Tok(Semicolon)]))
    ensures KindAt(s) == k && At(s.tokens, s.pos + 1, r) && After(s, 1 + |r|) == Semicolon && After(Past(s), |r|) == Semicolon
  {
    hide At;
    AtCons(s.tokens, s.pos, Tok(k), r + [Tok(Semicolon)]);
    AtLast(s.tokens, s.pos + 1, r, Tok(Semicolon));
  }

  lemma WordParses(s: State, k: Kind, env: Names) returns (u: State)
    requires Sees(s.scopes, s.current, env) && At(s.tokens, s.pos, [Tok(k), Tok(Semicolon)])
    ensures KindAt(s) == k && KindAt(Past(s)) == Semicolon && u == Past(Past(s)) && Went(s, u, 2)
  {
    hide At, Sees, Went;
    assert [Tok(k), Tok(Semicolon)] == [Tok(k), Tok(Semicolon)] + [];
    AtTwo(s.tokens, s.pos, Tok(k), Tok(Semicolon), []);
    PassWent(s, 2, env);
    u := Past(Past(s));
  }

  /** Dispatch to the statements without statements inside. */
  lemma {:induction false} SimpleStep(s: State)
    requires !StartsVar(s)
    requires var k := KindAt(s); k != KwIf && k != KwFor && k != KwWhile && k != KwSwitch && k != LBrace && k != KwAsm
    ensures BodyAt(s) == SimpleAt(s)
  {
    hide VarAt, IfAt, ForAt, WhileAt, SwitchAt, BlockAt, AsmAt, SimpleAt, Onward, StartsVar;
  }

  lemma {:induction false} ReadStep(s: State, e: Tree, u: State)
    requires KindAt(s) == KwRead && ExprThen(Past(s), Semicolon) == Done(e, u)
    ensures BodyAt(s) == Done(ReadTree(e), u)
  {
    hide BodyAt, ExprThen, ExprsThen, MaybeThen, Onward;
    SimpleStep(s);
  }

  lemma {:induction false} FreeStep(s: State, e: Tree, u: State)
    requires KindAt(s) == KwFree && ExprThen(Past(s), Semicolon) == Done(e, u)
    ensures BodyAt(s) == Done(FreeTree(e), u)
  {
    hide BodyAt, ExprThen, ExprsThen, MaybeThen, Onward;
    SimpleStep(s);
  }

  lemma {:induction false} PrintStep(s: State, es: Trees, u: State)
    requires KindAt(s) == KwPrint && ExprsThen(Past(s), Semicolon) == Done(es, u)
    ensures BodyAt(s) == Done(PrintTree(es), u)
  {
    hide BodyAt, ExprThen, ExprsThen, MaybeThen, Onward;
    SimpleStep(s);
  }

  lemma {:induction false} ErrorStep(s: State, es: Trees, u: State)
    requires KindAt(s) == KwError && ExprsThen(Past(s), Semicolon) == Done(es, u)
    ensures BodyAt(s) == Done(ErrorTree(es), u)
  {
    hide BodyAt, ExprThen, ExprsThen, MaybeThen, Onward;
    SimpleStep(s);
  }

  lemma {:induction false} ReturnStep(s: State, e: Option<Tree>, u: State)
    requires KindAt(s) == KwReturn && MaybeThen(Past(s), Semicolon) == Done(e, u)
    ensures BodyAt(s) == Done(ReturnTree(e), u)
  {
    hide BodyAt, ExprThen, ExprsThen, MaybeThen, Onward;
    SimpleStep(s);
  }

  lemma {:induction false} ExitStep(s: State, e: Option<Tree>, u: State)
    requires KindAt(s) == KwExit && MaybeThen(Past(s), Semicolon) == Done(e, u)
    ensures BodyAt(s) == Done(ExitTree(e), u)
  {
    hide BodyAt, ExprThen, ExprsThen, MaybeThen, Onward;
    SimpleStep(s);
  }

  lemma {:induction false} BreakStep(s: State)
    requires KindAt(s) == KwBreak && KindAt(Past(s)) == Semicolon
    ensures BodyAt(s) == Done(BreakTree, Past(Past(s)))
  {
    hide BodyAt, ExprThen, ExprsThen, MaybeThen, Onward;
    SimpleStep(s);
  }

  lemma {:induction false} ContinueStep(s: State)
    requires KindAt(s) == KwContinue && KindAt(Past(s)) == Semicolon
    ensures BodyAt(s) == Done(ContinueTree, Past(Past(s)))
  {
    hide BodyAt, ExprThen, ExprsThen, MaybeThen, Onward;
    SimpleStep(s);
  }

  lemma {:induction false} ExprStep(s: State, e: Tree, u: State)
    requires !StartsVar(s) && ExprStart(KindAt(s)) && ExprThen(s, Semicolon) == Done(e, u)
    ensures BodyAt(s) == Done(ExprTree(e), u)
  {
    hide BodyAt, ExprThen, ExprsThen, MaybeThen, Onward, StartsVar;
    SimpleStep(s);
  }

  // Blocks

  lemma {:induction false} BlockTokens(b: seq<StmtTree>, s: State)
    requires At(s.tokens, s.pos, RenderBlock(b))
    ensures var n := |RenderStmts(b)|;
      |RenderBlock(b)| == 1 + n + 1 && KindAt(s) == LBrace && At(s.tokens, s.pos + 1, RenderStmts(b)) && After(s, 1 + n) == RBrace
  {
    hide At;
    AtCons(s.tokens, s.pos, Tok(LBrace), RenderStmts(b) + [Tok(RBrace)]);
    AtLast(s.tokens, s.pos + 1, RenderStmts(b), Tok(RBrace));
  }

  /** The braces with what is between them, in the scope the caller has prepared. */
  lemma {:induction false} InsideParses(b: seq<StmtTree>, s: State, env: Names) returns (u: State)
    requires Sees(s.scopes, s.current, env) && ShapedStmts(b, env) && At(s.tokens, s.pos, RenderBlock(b))
    ensures InsideAt(s) == Part(true, b, u) && Ran(s, u, |RenderBlock(b)|, DeclaresAll(b))
    decreases b, 2
  {
    hide Sees, ShapedStmts, At, RenderBlock, RenderStmts, Ran, Went, InsideAt, StmtsAt, DeclaresAll, Onward;
    BlockTokens(b, s);
    var n := |RenderStmts(b)|;
    PassWent(s, 1, env);
    var v := StmtsParse(b, Past(s), env);
    RanParts(Past(s), v, n, DeclaresAll(b));
    RanWent(s, Past(s), v, 1, n, DeclaresAll(b));
    RanPast(s, v, 1 + n, 1, DeclaresAll(b));
    u := Past(v);
    InsideStep(s, b, v);
  }

  lemma {:induction false} InsideStep(s: State, b: seq<StmtTree>, v: State)
    requires KindAt(s) == LBrace && StmtsAt(Past(s)) == (b, v) && KindAt(v) == RBrace
    ensures InsideAt(s) == Part(true, b, Past(v))
  {
    hide StmtsAt, Onward;
  }

  lemma {:induction false} StmtsParse(b: seq<StmtTree>, s: State, env: Names) returns (u: State)
    requires Sees(s.scopes, s.current, env) && ShapedStmts(b, env) && At(s.tokens, s.pos, RenderStmts(b)) && After(s, |RenderStmts(b)|) == RBrace
    ensures StmtsAt(s) == (b, u) && Ran(s, u, |RenderStmts(b)|, DeclaresAll(b))
    decreases b, 1
  {
    hide Sees, At, Ran, Went, StmtsAt, StmtAt, BodyAt, Onward, RenderStmt, RenderStmts, ShapedStmt, ShapedStmts, Declares, Declared, Fresh;
    if b == [] {
      NoStmtTokens();
      PassWent(s, 0, env);
      WentIsRun(s, s, 0);
      u := s;
      StmtsEnd(s);
    } else {
      var t, n, m := b[0], |RenderStmt(b[0])|, |RenderStmts(b[1..])|;
      StmtsTokens(b, s, env);
      var v := StmtParses(t, s, env);
      RanParts(s, v, n, Declares(t));
      RanSees(s, v, n, Declares(t), env);
      u := StmtsParse(b[1..], v, Declared(env, Declares(t)));
      RanThen(s, v, u, n, m, Declares(t), DeclaresAll(b[1..]));
      StmtsStep(s, b, v, u);
    }
  }

  lemma NoStmtTokens()
    ensures RenderStmts([]) == []
  {
  }

  lemma {:induction false} StmtsTokens(b: seq<StmtTree>, s: State, env: Names)
    requires b != [] && ShapedStmts(b, env) && At(s.tokens, s.pos, RenderStmts(b)) && After(s, |RenderStmts(b)|) == RBrace
    ensures var n, m := |RenderStmt(b[0])|, |RenderStmts(b[1..])|;
      && |RenderStmts(b)| == n + m && At(s.tokens, s.pos, RenderStmt(b[0])) && At(s.tokens, s.pos + n, RenderStmts(b[1..]))
      && After(s, n) != KwElse && KindAt(s) != EofTok && KindAt(s) != RBrace
    ensures ShapedStmt(b[0], env) && Fresh(env, Declares(b[0])) && ShapedStmts(b[1..], Declared(env, Declares(b[0])))
    ensures DeclaresAll(b) == Declares(b[0]) + DeclaresAll(b[1..])
  {
    hide At, RenderStmt, ShapedStmt, Declares, Declared, Fresh;
    AtSplit(s.tokens, s.pos, RenderStmt(b[0]), RenderStmts(b[1..]));
    StmtStarts(b[0], env);
    AtFirst(s.tokens, s.pos, RenderStmt(b[0]));
    NextStmt(b[1..], s, |RenderStmt(b[0])|, Declared(env, Declares(b[0])));
    FreshStmt(b[0], env);
  }

  lemma {:induction false} FreshStmt(t: StmtTree, env: Names)
    requires ShapedStmt(t, env)
    ensures Fresh(env, Declares(t))
  {
    hide Shaped, ShapedStmts;
  }

  /** What follows a statement in a block is no `else`. */
  lemma {:induction false} NextStmt(b: seq<StmtTree>, s: State, n: nat, env: Names)
    requires ShapedStmts(b, env) && At(s.tokens, s.pos + n, RenderStmts(b)) && After(s, n + |RenderStmts(b)|) == RBrace
    ensures After(s, n) != KwElse
  {
    hide At, RenderStmt, ShapedStmt;
    if b != [] {
      StmtStarts(b[0], env);
      AtFirst(s.tokens, s.pos + n, RenderStmts(b));
    }
  }

  lemma {:induction false} StmtsEnd(s: State)
    requires KindAt(s) == RBrace
    ensures StmtsAt(s) == ([], s)
  {
    hide StmtAt, Onward;
  }

  lemma {:induction false} StmtsStep(s: State, b: seq<StmtTree>, v: State, u: State)
    requires b != [] && KindAt(s) != EofTok && KindAt(s) != RBrace && StmtAt(s) == (b[0], v) && StmtsAt(v) == (b[1..], u)
    ensures StmtsAt(s) == (b, u)
  {
    hide StmtAt, Onward;
    assert b == [b[0]] + b[1..];
  }

  /** A block in a scope of its own. */
  lemma {:induction false} BlockParses(b: seq<StmtTree>, s: State, env: Names) returns (u: State)
    requires Sees(s.scopes, s.current, env) && ShapedStmts(b, Inner(env)) && At(s.tokens, s.pos, RenderBlock(b))
    ensures BlockAt(true, s) == (b, u) && Went(s, u, |RenderBlock(b)|)
    decreases b, 3
  {
    hide Sees, ShapedStmts, At, RenderBlock, Ran, Went, InsideAt, DeclaresAll, Onward, Exited, BlockAt;
    EnterSees(s, env);
    var v := InsideParses(b, Entered(s), Inner(env));
    LeaveWent(s, v, |RenderBlock(b)|, DeclaresAll(b), env);
    u := Exited(v);
    BlockStep(s, b, v);
  }

  lemma LeaveWent(s: State, v: State, n: nat, xs: set<string>, env: Names)
    requires Sees(s.scopes, s.current, env) && Ran(Entered(s), v, n, xs)
    ensures Went(s, Exited(v), n)
  {
    hide Became, Meant, HasStruct, HasEnum;
    ExitBecame(s, v, xs);
  }

  lemma {:induction false} BlockStep(s: State, b: seq<StmtTree>, v: State)
    requires InsideAt(Entered(s)) == Part(true, b, v)
    ensures BlockAt(true, s) == (b, Exited(v))
  {
    hide InsideAt, Onward, Exited, Entered, Recover;
  }

  lemma {:induction false} BlockStmtParses(t: StmtTree, s: State, env: Names) returns (u: State)
    requires t.BlockTree? && Sees(s.scopes, s.current, env) && ShapedStmt(t, env) && At(s.tokens, s.pos, RenderStmt(t))
    ensures BodyAt(s) == Done(t, u) && Went(s, u, |RenderStmt(t)|)
    decreases t, 0
  {
    hide Sees, ShapedStmts, At, RenderBlock, Went, BlockAt, Onward, BodyAt;
    BlockTokens(t.body, s);
    u := BlockParses(t.body, s, env);
    BlockBody(s, t.body, u);
  }

  lemma {:induction false} BlockBody(s: State, b: seq<StmtTree>, u: State)
    requires KindAt(s) == LBrace && BlockAt(true, s) == (b, u)
    ensures BodyAt(s) == Done(BlockTree(b), u)
  {
    hide VarAt, IfAt, ForAt, WhileAt, SwitchAt, BlockAt, AsmAt, SimpleAt, Onward;
  }

  // if

  lemma {:induction false} IfParses(t: StmtTree, s: State, env: Names) returns (u: State)
    requires t.IfTree? && Sees(s.scopes, s.current, env) && ShapedStmt(t, env) && At(s.tokens, s.pos, RenderStmt(t))
    requires After(s, |RenderStmt(t)|) != KwElse
    ensures KindAt(s) == KwIf && IfAt(s) == Done(t, u) && Went(s, u, |RenderStmt(t)|)
    decreases t, 0
  {
    hide Sees, Shaped, ShapedStmts, ShapedElse, At, Render, RenderBlock, RenderElse, Went, IfAt, BlockAt, ConditionAt, Onward;
    var c, y, n := |Render(t.cond)| + 3, RenderBlock(t.yes), RenderElse(t.no);
    var s1 := ConditionParses(t.cond, s, KwIf, y + n, env);
    WentParts(s, s1, c);
    AtSplit(s.tokens, s.pos + c, y, n);
    WentSees(s, s1, c, env);
    var s2 := BlockParses(t.yes, s1, env);
    WentParts(s1, s2, |y|);
    WentThen(s, s1, s2, c, |y|);
    WentSees(s, s2, c + |y|, env);
    u := ElseParses(t.no, s2, env);
    WentThen(s, s2, u, c + |y|, |n|);
    IfStep(t, s, s1, s2, u);
  }

  /** How the rest of an `if` is read. */
  ghost predicate ElseRead(no: ElseTree, s: State, u: State) {
    match no
    case NoElse => KindAt(s) != KwElse && u == s
    case Else(b) =>
      KindAt(s) == KwElse && if IsElseIf(b) then KindAt(Past(s)) == KwIf && IfAt(Past(s)) == Done(b[0], u)
      else KindAt(Past(s)) != KwIf && BlockAt(true, Past(s)) == (b, u)
  }

  lemma {:induction false} ElseParses(no: ElseTree, s: State, env: Names) returns (u: State)
    requires Sees(s.scopes, s.current, env) && ShapedElse(no, env) && At(s.tokens, s.pos, RenderElse(no)) && After(s, |RenderElse(no)|) != KwElse
    ensures ElseRead(no, s, u) && Went(s, u, |RenderElse(no)|)
    decreases no, 0
  {
    hide Sees, ShapedStmt, ShapedStmts, At, RenderStmt, RenderBlock, Went, IfAt, BlockAt, Onward;
    if no.NoElse? {
      PassWent(s, 0, env);
      u := s;
    } else {
      PassWent(s, 1, env);
      if IsElseIf(no.body) {
        var t := no.body[0];
        AtCons(s.tokens, s.pos, Tok(KwElse), RenderStmt(t));
        u := IfParses(t, Past(s), env);
        WentThen(s, Past(s), u, 1, |RenderStmt(t)|);
      } else {
        AtCons(s.tokens, s.pos, Tok(KwElse), RenderBlock(no.body));
        BlockTokens(no.body, Past(s));
        u := BlockParses(no.body, Past(s), env);
        WentThen(s, Past(s), u, 1, |RenderBlock(no.body)|);
      }
    }
  }

  lemma {:induction false} IfStep(t: StmtTree, s: State, s1: State, s2: State, u: State)
    requires t.IfTree? && ConditionAt(s, KwIf) == Done(t.cond, s1) && BlockAt(true, s1) == (t.yes, s2) && ElseRead(t.no, s2, u)
    ensures IfAt(s) == Done(t, u)
  {
    hide ConditionAt, BlockAt, Onward;
    if t.no.Else? && IsElseIf(t.no.body) {
      assert t.no.body == [t.no.body[0]];
    }
  }

  lemma {:induction false} IfBody(t: StmtTree, s: State, u: State)
    requires KindAt(s) == KwIf && IfAt(s) == Done(t, u)
    ensures BodyAt(s) == Done(t, u)
  {
    hide VarAt, IfAt, ForAt, WhileAt, SwitchAt, BlockAt, AsmAt, SimpleAt, Onward;
  }

  // while

  lemma {:induction false} WhileParses(t: StmtTree, s: State, env: Names) returns (u: State)
    requires t.WhileTree? && Sees(s.scopes, s.current, env) && ShapedStmt(t, env) && At(s.tokens, s.pos, RenderStmt(t))
    ensures BodyAt(s) == Done(t, u) && Went(s, u, |RenderStmt(t)|)
    decreases t, 0
  {
    hide Sees, Shaped, ShapedStmts, At, Render, RenderBlock, Went, BodyAt, BlockAt, ConditionAt, Onward;
    var c, b := |Render(t.cond)| + 3, RenderBlock(t.body);
    var s1 := ConditionParses(t.cond, s, KwWhile, b, env);
    WentParts(s, s1, c);
    WentSees(s, s1, c, env);
    u := BlockParses(t.body, s1, env);
    WentThen(s, s1, u, c, |b|);
    WhileStep(t, s, s1, u);
  }

  lemma {:induction false} WhileStep(t: StmtTree, s: State, s1: State, u: State)
    requires t.WhileTree? && KindAt(s) == KwWhile && ConditionAt(s, KwWhile) == Done(t.cond, s1) && BlockAt(true, s1) == (t.body, u)
    ensures BodyAt(s) == Done(t, u)
  {
    hide VarAt, IfAt, ForAt, SwitchAt, BlockAt, AsmAt, SimpleAt, ConditionAt, Onward;
  }

  // for

  function RenderStart(start: Option<StmtTree>): seq<Token> {
    if start.Some? then RenderStmt(start.value) else [Tok(Semicolon)]
  }

  function StartDeclares(start: Option<StmtTree>): set<string> {
    if start.Some? then Declares(start.value) else {}
  }

  predicate ShapedStart(start: Option<StmtTree>, env: Names) {
    start.Some? ==> (start.value.VarTree? || start.value.ExprTree?) && ShapedStmt(start.value, env)
  }

  lemma {:induction false} StartParses(start: Option<StmtTree>, s: State, env: Names) returns (u: State)
    requires Sees(s.scopes, s.current, env) && ShapedStart(start, env) && At(s.tokens, s.pos, RenderStart(start))
    ensures ForStart(s) == Done(start, u) && Ran(s, u, |RenderStart(start)|, StartDeclares(start))
  {
    hide Sees, ShapedStmt, At, RenderStmt, Ran, Went, ForStart, VarAt, ExprThen, StartsVar, Onward;
    if start.None? {
      AtFirst(s.tokens, s.pos, [Tok(Semicolon)]);
      PassWent(s, 1, env);
      u := Past(s);
      WentIsRun(s, u, 1);
      NoStartStep(s);
    } else if start.value.VarTree? {
      u := VarParses(start.value, s, env);
      VarStarts(start.value, s, env);
      VarStartStep(s, start.value, u);
    } else {
      u := ExprStartParses(start.value, s, env);
    }
  }

  lemma {:induction false} ExprStartParses(t: StmtTree, s: State, env: Names) returns (u: State)
    requires t.ExprTree? && Sees(s.scopes, s.current, env) && ShapedStmt(t, env) && At(s.tokens, s.pos, RenderStmt(t))
    ensures ForStart(s) == Done(Some(t), u) && Ran(s, u, |RenderStmt(t)|, {})
  {
    hide Sees, Shaped, At, Render, Ran, Went, ForStart, ExprThen, StartsVar, Onward;
    AtLast(s.tokens, s.pos, Render(t.expr), Tok(Semicolon));
    NotVar(t.expr, s, env);
    u := ExprThenParses(t.expr, s, Semicolon, env);
    WentIsRun(s, u, |Render(t.expr)| + 1);
    ExprStartStep(s, t.expr, u);
  }

  lemma NoStartStep(s: State)
    requires KindAt(s) == Semicolon
    ensures ForStart(s) == Done(None, Past(s))
  {
    hide VarAt, ExprThen, StartsVar, Onward;
  }

  lemma VarStartStep(s: State, v: StmtTree, u: State)
    requires StartsVar(s) && KindAt(s) != Semicolon && VarAt(s) == Done(v, u)
    ensures ForStart(s) == Done(Some(v), u)
  {
    hide VarAt, ExprThen, StartsVar, Onward;
  }

  lemma ExprStartStep(s: State, e: Tree, u: State)
    requires !StartsVar(s) && KindAt(s) != Semicolon && ExprThen(s, Semicolon) == Done(e, u)
    ensures ForStart(s) == Done(Some(ExprTree(e)), u)
  {
    hide VarAt, ExprThen, StartsVar, Onward;
  }

  lemma {:induction false} ForRendered(t: StmtTree)
    requires t.ForTree?
    ensures RenderStmt(t) == [Tok(KwFor), Tok(LParen)] + (RenderStart(t.start) +
      (RenderOpt(t.test) + ([Tok(Semicolon)] + (RenderOpt(t.iter) + ([Tok(RParen)] + RenderBlock(t.body))))))
  {
    hide RenderOpt, RenderBlock;
  }

  lemma {:induction false} ForTokens(t: StmtTree, s: State)
    requires t.ForTree? && At(s.tokens, s.pos, RenderStmt(t))
    ensures KindAt(s) == KwFor && After(s, 1) == LParen
    ensures var a, b, c, d := |RenderStart(t.start)|, |RenderOpt(t.test)|, |RenderOpt(t.iter)|, |RenderBlock(t.body)|;
      && |RenderStmt(t)| == 2 + a + b + 1 + c + 1 + d && At(s.tokens, s.pos + 2, RenderStart(t.start))
      && At(s.tokens, s.pos + 2 + a, RenderOpt(t.test)) && After(s, 2 + a + b) == Semicolon
      && At(s.tokens, s.pos + 2 + a + b + 1, RenderOpt(t.iter)) && After(s, 2 + a + b + 1 + c) == RParen
      && At(s.tokens, s.pos + 2 + a + b + 1 + c + 1, RenderBlock(t.body))
  {
    hide At, RenderOpt, RenderBlock, RenderStart, RenderStmt;
    var a, b, c, d := RenderStart(t.start), RenderOpt(t.test), RenderOpt(t.iter), RenderBlock(t.body);
    var tail := c + ([Tok(RParen)] + d);
    ForRendered(t);
    AtTwo(s.tokens, s.pos, Tok(KwFor), Tok(LParen), a + (b + ([Tok(Semicolon)] + tail)));
    AtSplit(s.tokens, s.pos + 2, a, b + ([Tok(Semicolon)] + tail));
    AtMiddle(s.tokens, s.pos + 2 + |a|, b, Tok(Semicolon), tail);
    AtMiddle(s.tokens, s.pos + 2 + |a| + |b| + 1, c, Tok(RParen), d);
  }

  lemma {:induction false} ForParses(t: StmtTree, s: State, env: Names) returns (u: State)
    requires t.ForTree? && Sees(s.scopes, s.current, env) && ShapedStmt(t, env) && At(s.tokens, s.pos, RenderStmt(t))
    ensures BodyAt(s) == Done(t, u) && Went(s, u, |RenderStmt(t)|)
    decreases t, 1
  {
    hide Sees, At, RenderStmt, RenderOpt, RenderBlock, RenderStart, Ran, Went, BodyAt, ForInside, Onward, Exited, Entered, ShapedStmt, StartDeclares;
    ForTokens(t, s);
    PassWent(s, 1, env);
    WentSees(s, Past(s), 1, env);
    var n := |RenderStmt(t)|;
    var v := ForInsideParses(t, s, env);
    LeaveWent(Past(s), v, n - 1, StartDeclares(t.start), env);
    u := Exited(v);
    WentThen(s, Past(s), u, 1, n - 1);
    ForStep(t, s, v);
  }

  lemma {:induction false} ForStep(t: StmtTree, s: State, v: State)
    requires KindAt(s) == KwFor && ForInside(Entered(Past(s))) == Done(t, v)
    ensures BodyAt(s) == Done(t, Exited(v))
  {
    hide VarAt, IfAt, WhileAt, SwitchAt, BlockAt, AsmAt, SimpleAt, Onward, ForInside, Exited, Entered;
  }

  /** The header and the block, in the scope of the loop. */
  lemma {:induction false} ForInsideParses(t: StmtTree, s: State, env: Names) returns (u: State)
    requires t.ForTree? && Sees(s.scopes, s.current, env) && ShapedStmt(t, env) && At(s.tokens, s.pos, RenderStmt(t))
    ensures ForInside(Entered(Past(s))) == Done(t, u) && |RenderStmt(t)| > 0
    ensures Ran(Entered(Past(s)), u, |RenderStmt(t)| - 1, StartDeclares(t.start))
    decreases t, 0
  {
    hide Sees, At, RenderStmt, RenderOpt, RenderBlock, RenderStart, Ran, Went, ForInside, ForStart, MaybeThen, BlockAt, Onward, StartDeclares, Shaped, ShapedStmts, Declared, Fresh;
    ForTokens(t, s);
    var a, b, c, d := |RenderStart(t.start)|, |RenderOpt(t.test)|, |RenderOpt(t.iter)|, |RenderBlock(t.body)|;
    var xs := StartDeclares(t.start);
    PassWent(s, 1, env);
    WentSees(s, Past(s), 1, env);
    EnterSees(Past(s), env);
    var s0 := Entered(Past(s));
    PassWent(s0, 1, Inner(env));
    WentSees(s0, Past(s0), 1, Inner(env));
    ForShaped(t, env);
    var e := Declared(Inner(env), xs);
    var s1 := StartParses(t.start, Past(s0), Inner(env));
    RanParts(Past(s0), s1, a, xs);
    RanSees(Past(s0), s1, a, xs, Inner(env));
    RanWent(s0, Past(s0), s1, 1, a, xs);
    var s2 := MaybeThenParses(t.test, s1, Semicolon, e);
    WentParts(s1, s2, b + 1);
    WentSees(s1, s2, b + 1, e);
    var s3 := MaybeThenParses(t.iter, s2, RParen, e);
    WentParts(s2, s3, c + 1);
    WentSees(s2, s3, c + 1, e);
    u := BlockParses(t.body, s3, e);
    WentThen(s1, s2, s3, b + 1, c + 1);
    WentThen(s1, s3, u, b + 1 + (c + 1), d);
    RanWent(s0, s1, u, 1 + a, b + 1 + (c + 1) + d, xs);
    ForInsideStep(t, s0, s1, s2, s3, u);
  }

  lemma {:induction false} ForShaped(t: StmtTree, env: Names)
    requires t.ForTree? && ShapedStmt(t, env)
    ensures var xs := StartDeclares(t.start); var e := Declared(Inner(env), xs);
      && ShapedStart(t.start, Inner(env)) && Fresh(Inner(env), xs) && ShapedOpt(t.test, e) && ShapedOpt(t.iter, e)
      && ShapedStmts(t.body, Inner(e))
  {
    hide Shaped, ShapedStmts, Fresh, Declared;
    if t.start.Some? {
      FreshStmt(t.start.value, Inner(env));
    } else {
      FreshNone(Inner(env));
    }
  }

  lemma FreshNone(env: Names)
    ensures Fresh(env, {})
  {
  }

  lemma {:induction false} ForInsideStep(t: StmtTree, s: State, s1: State, s2: State, s3: State, u: State)
    requires t.ForTree? && KindAt(s) == LParen && ForStart(Past(s)) == Done(t.start, s1) && MaybeThen(s1, Semicolon) == Done(t.test, s2)
    requires MaybeThen(s2, RParen) == Done(t.iter, s3) && BlockAt(true, s3) == (t.body, u)
    ensures ForInside(s) == Done(t, u)
  {
    hide ForStart, MaybeThen, BlockAt, Onward;
  }

  // switch

  lemma {:induction false} SwitchParses(t: StmtTree, s: State, env: Names) returns (u: State)
    requires t.SwitchTree? && Sees(s.scopes, s.current, env) && ShapedStmt(t, env) && At(s.tokens, s.pos, RenderStmt(t))
    ensures BodyAt(s) == Done(t, u) && Went(s, u, |RenderStmt(t)|)
    decreases t, 0
  {
    hide Sees, Shaped, ShapedCases, At, Render, RenderCases, Went, BodyAt, CasesAt, ConditionAt, Onward;
    var c, b := |Render(t.subject)| + 3, RenderCases(t.cases);
    var x := Render(t.subject);
    assert RenderStmt(t) == [Tok(KwSwitch), Tok(LParen)] + (x + ([Tok(RParen)] + ([Tok(LBrace)] + (b + [Tok(RBrace)])))) by {
      SplitTwo(x, Tok(RParen), Tok(LBrace), b + [Tok(RBrace)]);
    }
    var s1 := ConditionParses(t.subject, s, KwSwitch, [Tok(LBrace)] + (b + [Tok(RBrace)]), env);
    WentParts(s, s1, c);
    AtCons(s.tokens, s.pos + c, Tok(LBrace), b + [Tok(RBrace)]);
    AtLast(s.tokens, s.pos + c + 1, b, Tok(RBrace));
    PassMore(s, s1, c, 1);
    var s2 := Past(s1);
    WentSees(s, s2, c + 1, env);
    var s3 := CasesParse(t.cases, s2, env);
    WentParts(s2, s3, |b|);
    WentThen(s, s2, s3, c + 1, |b|);
    PassMore(s, s3, c + 1 + |b|, 1);
    u := Past(s3);
    SwitchStep(t, s, s1, s3);
  }

  lemma SplitTwo(x: seq<Token>, a: Token, b: Token, y: seq<Token>)
    ensures x + ([a, b] + y) == x + ([a] + ([b] + y))
  {
    assert [a, b] + y == [a] + ([b] + y);
  }

  lemma {:induction false} SwitchStep(t: StmtTree, s: State, s1: State, s3: State)
    requires t.SwitchTree? && KindAt(s) == KwSwitch && ConditionAt(s, KwSwitch) == Done(t.subject, s1)
    requires KindAt(s1) == LBrace && CasesAt(Past(s1)) == Done(t.cases, s3) && KindAt(s3) == RBrace
    ensures BodyAt(s) == Done(t, Past(s3))
  {
    hide VarAt, IfAt, ForAt, WhileAt, BlockAt, AsmAt, SimpleAt, ConditionAt, CasesAt, Onward;
  }

  lemma {:induction false} CasesParse(cs: seq<CaseTree>, s: State, env: Names) returns (u: State)
    requires Sees(s.scopes, s.current, env) && ShapedCases(cs, env) && At(s.tokens, s.pos, RenderCases(cs)) && After(s, |RenderCases(cs)|) == RBrace
    ensures CasesAt(s) == Done(cs, u) && Went(s, u, |RenderCases(cs)|)
    decreases cs, 1
  {
    hide Sees, ShapedCase, At, RenderCase, Went, CasesAt, CaseAt, Onward;
    if cs == [] {
      PassWent(s, 0, env);
      u := s;
      CasesEnd(s);
    } else {
      var n, m := |RenderCase(cs[0])|, |RenderCases(cs[1..])|;
      AtSplit(s.tokens, s.pos, RenderCase(cs[0]), RenderCases(cs[1..]));
      var v := CaseParses(cs[0], s, env);
      WentParts(s, v, n);
      WentSees(s, v, n, env);
      u := CasesParse(cs[1..], v, env);
      WentThen(s, v, u, n, m);
      CasesStep(s, cs, v, u);
    }
  }

  lemma {:induction false} CasesEnd(s: State)
    requires KindAt(s) == RBrace
    ensures CasesAt(s) == Done([], s)
  {
    hide CaseAt, Onward;
  }

  lemma {:induction false} CasesStep(s: State, cs: seq<CaseTree>, v: State, u: State)
    requires cs != [] && KindAt(s) != RBrace && CaseAt(s) == Done(cs[0], v) && CasesAt(v) == Done(cs[1..], u)
    ensures CasesAt(s) == Done(cs, u)
  {
    hide CaseAt, Onward;
    assert cs == [cs[0]] + cs[1..];
  }

  lemma {:induction false} CaseParses(c: CaseTree, s: State, env: Names) returns (u: State)
    requires Sees(s.scopes, s.current, env) && ShapedCase(c, env) && At(s.tokens, s.pos, RenderCase(c))
    ensures KindAt(s) != RBrace && CaseAt(s) == Done(c, u) && Went(s, u, |RenderCase(c)|)
    decreases c, 1
  {
    hide Sees, ShapedCase, At, RenderCase, Went, CaseAt, Onward;
    match c
    case ValueCase(_, _) => u := ValueCaseParses(c, s, env);
    case EnumCase(_, _, _, _) => u := EnumCaseParses(c, s, env);
    case DefaultCase(_) => u := DefaultCaseParses(c, s, env);
  }

  lemma {:induction false} ValueCaseParses(c: CaseTree, s: State, env: Names) returns (u: State)
    requires c.ValueCase? && Sees(s.scopes, s.current, env) && ShapedCase(c, env) && At(s.tokens, s.pos, RenderCase(c))
    ensures KindAt(s) == KwCase && CaseAt(s) == Done(c, u) && Went(s, u, |RenderCase(c)|)
    decreases c, 0
  {
    hide Sees, Shaped, ShapedStmts, At, Render, RenderBlock, Went, CaseAt, ExprThen, BlockAt, Onward, LooksLikePattern;
    var e, b := Render(c.value), RenderBlock(c.body);
    AtCons(s.tokens, s.pos, Tok(KwCase), e + ([Tok(Colon)] + b));
    AtMiddle(s.tokens, s.pos + 1, e, Tok(Colon), b);
    NoPattern(c.value, Past(s));
    PassWent(s, 1, env);
    var s1 := ExprThenParses(c.value, Past(s), Colon, env);
    WentParts(Past(s), s1, |e| + 1);
    WentThen(s, Past(s), s1, 1, |e| + 1);
    WentSees(s, s1, 1 + (|e| + 1), env);
    u := BlockParses(c.body, s1, env);
    WentThen(s, s1, u, 1 + (|e| + 1), |b|);
    ValueCaseStep(c, s, s1, u);
  }

  lemma {:induction false} NoPattern(e: Tree, s: State)
    requires At(s.tokens, s.pos, Render(e)) && After(s, |Render(e)|) == Colon && !LooksLikePattern(Render(e))
    ensures !(KindAt(s) == Identifier && NextIs(s, ColonColon))
  {
    hide At, Render;
    AtFirst(s.tokens, s.pos, Render(e));
    if |Render(e)| > 1 {
      AtSecond(s.tokens, s.pos, Render(e));
    }
  }

  lemma {:induction false} ValueCaseStep(c: CaseTree, s: State, s1: State, u: State)
    requires c.ValueCase? && KindAt(s) == KwCase && !(KindAt(Past(s)) == Identifier && NextIs(Past(s), ColonColon))
    requires ExprThen(Past(s), Colon) == Done(c.value, s1) && BlockAt(true, s1) == (c.body, u)
    ensures CaseAt(s) == Done(c, u)
  {
    hide ExprThen, PatternAt, BlockAt, Onward;
  }

  lemma {:induction false} PatternTokens(c: CaseTree, s: State)
    requires c.EnumCase? && At(s.tokens, s.pos, RenderCase(c))
    ensures KindAt(s) == KwCase && After(s, 1) == Identifier && TextAt(s.(pos := s.pos + 1)) == c.enum
    ensures After(s, 2) == ColonColon && After(s, 3) == Identifier && TextAt(s.(pos := s.pos + 3)) == c.variant
    ensures var p, b := |RenderPayload(c.payload)|, |RenderBlock(c.body)|;
      && |RenderCase(c)| == 4 + p + 1 + b && At(s.tokens, s.pos + 4, RenderPayload(c.payload)) && After(s, 4 + p) == Colon
      && At(s.tokens, s.pos + 4 + p + 1, RenderBlock(c.body))
  {
    hide At, RenderPayload, RenderBlock;
    var p, b := RenderPayload(c.payload), RenderBlock(c.body);
    var n, v := Token(Identifier, c.enum), Token(Identifier, c.variant);
    AtTwo(s.tokens, s.pos, Tok(KwCase), n, [Tok(ColonColon), v] + (p + ([Tok(Colon)] + b)));
    AtTwo(s.tokens, s.pos + 2, Tok(ColonColon), v, p + ([Tok(Colon)] + b));
    AtMiddle(s.tokens, s.pos + 4, p, Tok(Colon), b);
  }

  lemma PayloadTokens(p: Option<string>, s: State)
    requires At(s.tokens, s.pos, RenderPayload(p)) && After(s, |RenderPayload(p)|) == Colon
    ensures if p.None? then |RenderPayload(p)| == 0 && KindAt(s) == Colon
            else && |RenderPayload(p)| == 3 && KindAt(s) == LParen && After(s, 1) == Identifier && TextAt(s.(pos := s.pos + 1)) == p.value
                 && After(s, 2) == RParen
  {
    hide At;
    if p.Some? {
      AtTwo(s.tokens, s.pos, Tok(LParen), Token(Identifier, p.value), [Tok(RParen)]);
      AtFirst(s.tokens, s.pos + 2, [Tok(RParen)]);
    }
  }

  lemma {:induction false} EnumCaseParses(c: CaseTree, s: State, env: Names) returns (u: State)
    requires c.EnumCase? && Sees(s.scopes, s.current, env) && ShapedCase(c, env) && At(s.tokens, s.pos, RenderCase(c))
    ensures KindAt(s) == KwCase && CaseAt(s) == Done(c, u) && Went(s, u, |RenderCase(c)|)
    decreases c, 0
  {
    hide Sees, ShapedStmts, At, RenderCase, RenderPayload, RenderBlock, Went, CaseAt, BlockAt, Onward, PatternAt;
    PatternTokens(c, s);
    var p, b := |RenderPayload(c.payload)|, |RenderBlock(c.body)|;
    PayloadTokens(c.payload, s.(pos := s.pos + 4));
    var s1 := s.(pos := s.pos + (4 + p + 1));
    PatternStep(c, Past(s), p);
    PassWent(s, 4 + p + 1, env);
    WentSees(s, s1, 4 + p + 1, env);
    u := BlockParses(c.body, s1, env);
    WentThen(s, s1, u, 4 + p + 1, b);
    EnumCaseStep(c, s, s1, u);
  }

  lemma PatternStep(c: CaseTree, s: State, p: nat)
    requires c.EnumCase? && KindAt(s) == Identifier && After(s, 1) == ColonColon
    requires After(s, 2) == Identifier && TextAt(s.(pos := s.pos + 2)) == c.variant && After(s, 3 + p) == Colon
    requires if c.payload.None? then p == 0
             else && p == 3 && After(s, 3) == LParen && After(s, 4) == Identifier && TextAt(s.(pos := s.pos + 4)) == c.payload.value
                  && After(s, 5) == RParen
    ensures NextIs(s, ColonColon) && PatternAt(s) == Done((c.variant, c.payload), s.(pos := s.pos + 3 + p + 1))
  {
    hide Onward, Reaches, Good, Left, PayloadName;
    if c.payload.Some? {
      PayloadStep(c.payload.value, s.(pos := s.pos + 4));
    }
  }

  lemma PayloadStep(p: string, s: State)
    requires KindAt(s) == Identifier && TextAt(s) == p && After(s, 1) == RParen
    ensures PayloadName(s) == Done(Some(p), s.(pos := s.pos + 2))
  {
    hide Onward, Reaches, Good, Left;
  }

  lemma {:induction false} EnumCaseStep(c: CaseTree, s: State, s1: State, u: State)
    requires c.EnumCase? && KindAt(s) == KwCase && KindAt(Past(s)) == Identifier && NextIs(Past(s), ColonColon) && TextAt(Past(s)) == c.enum
    requires PatternAt(Past(s)) == Done((c.variant, c.payload), s1) && BlockAt(true, s1) == (c.body, u)
    ensures CaseAt(s) == Done(c, u)
  {
    hide ExprThen, PatternAt, BlockAt, Onward;
  }

  lemma {:induction false} DefaultCaseParses(c: CaseTree, s: State, env: Names) returns (u: State)
    requires c.DefaultCase? && Sees(s.scopes, s.current, env) && ShapedCase(c, env) && At(s.tokens, s.pos, RenderCase(c))
    ensures KindAt(s) == KwDefault && CaseAt(s) == Done(c, u) && Went(s, u, |RenderCase(c)|)
    decreases c, 0
  {
    hide Sees, ShapedStmts, At, RenderBlock, Went, CaseAt, BlockAt, Onward;
    var b := RenderBlock(c.body);
    AtTwo(s.tokens, s.pos, Tok(KwDefault), Tok(Colon), b);
    PassWent(s, 2, env);
    var s2 := Past(Past(s));
    u := BlockParses(c.body, s2, env);
    WentThen(s, s2, u, 2, |b|);
    DefaultCaseStep(c, s, u);
  }

  lemma {:induction false} DefaultCaseStep(c: CaseTree, s: State, u: State)
    requires c.DefaultCase? && KindAt(s) == KwDefault && KindAt(Past(s)) == Colon && BlockAt(true, Past(Past(s))) == (c.body, u)
    ensures CaseAt(s) == Done(c, u)
  {
    hide ExprThen, PatternAt, BlockAt, Onward;
  }

  // asm

  lemma {:induction false} AsmTokensRead(code: seq<Token>, s: State, braces: nat)
    requires braces > 0 && Balanced(code, braces) && At(s.tokens, s.pos, code) && After(s, |code|) == RBrace
    ensures AsmTokens(s, braces) == (code, s.(pos := s.pos + |code|))
    decreases code
  {
    hide At, Onward;
    if code != [] {
      var k := code[0].kind;
      assert code == [code[0]] + code[1..];
      AtCons(s.tokens, s.pos, code[0], code[1..]);
      AsmTokensRead(code[1..], Past(s), if k == LBrace then braces + 1 else if k == RBrace then braces - 1 else braces);
    }
  }

  lemma {:induction false} AsmParses(t: StmtTree, s: State, env: Names) returns (u: State)
    requires t.AsmTree? && Sees(s.scopes, s.current, env) && ShapedStmt(t, env) && At(s.tokens, s.pos, RenderStmt(t))
    ensures BodyAt(s) == Done(t, u) && Went(s, u, |RenderStmt(t)|)
  {
    hide Sees, At, Went, BodyAt, AsmTokens, Balanced, Onward;
    var c := t.code;
    AtTwo(s.tokens, s.pos, Tok(KwAsm), Tok(LBrace), c + [Tok(RBrace), Tok(Semicolon)]);
    AtSplit(s.tokens, s.pos + 2, c, [Tok(RBrace), Tok(Semicolon)]);
    assert [Tok(RBrace), Tok(Semicolon)] == [Tok(RBrace), Tok(Semicolon)] + [];
    AtTwo(s.tokens, s.pos + 2 + |c|, Tok(RBrace), Tok(Semicolon), []);
    AsmTokensRead(c, Past(Past(s)), 1);
    PassWent(s, 2 + |c| + 2, env);
    u := s.(pos := s.pos + (2 + |c| + 2));
    AsmStep(c, s, s.(pos := s.pos + (2 + |c|)));
  }

  lemma {:induction false} AsmStep(c: seq<Token>, s: State, s1: State)
    requires KindAt(s) == KwAsm && KindAt(Past(s)) == LBrace && AsmTokens(Past(Past(s)), 1) == (c, s1)
    requires KindAt(s1) == RBrace && KindAt(Past(s1)) == Semicolon
    ensures BodyAt(s) == Done(AsmTree(c), Past(Past(s1)))
  {
    hide VarAt, IfAt, ForAt, WhileAt, SwitchAt, BlockAt, SimpleAt, AsmTokens, Onward;
  }
}
