/** Declarations and programs as tokens. */
module DeclRendering {
  import opened Options
  import opened Tokens
  import opened Scopes
  import opened ExprSyntax
  import opened ParserState
  import opened Grammar
  import opened Visibility
  import opened Rendering
  import opened StmtRendering

  function RenderField(f: FieldTree): (ts: seq<Token>)
    ensures |ts| > 0
  {
    [Token(Identifier, f.name), Tok(Colon)] + RenderType(f.typ)
  }

  function RenderFields(fs: seq<FieldTree>): seq<Token> {
    if fs == [] then [] else RenderField(fs[0]) + if |fs| == 1 then [] else [Tok(Comma)] + RenderFields(fs[1..])
  }

  function RenderFieldBlock(fs: seq<FieldTree>): (ts: seq<Token>)
    ensures |ts| > 0
  {
    [Tok(LBrace)] + (RenderFields(fs) + [Tok(RBrace)])
  }

  function RenderTag(tag: Option<string>): seq<Token> {
    match tag case None => [] case Some(n) => [Tok(Equal), Token(IntLiteral, n)] + []
  }

  function RenderVariant(v: VariantTree): (ts: seq<Token>)
    ensures |ts| > 0
  {
    [Token(Identifier, v.name)] + (RenderTag(v.tag) + if v.payload.Some? then RenderFieldBlock(v.payload.value) else [])
  }

  function RenderVariants(vs: seq<VariantTree>): seq<Token> {
    if vs == [] then [] else RenderVariant(vs[0]) + if |vs| == 1 then [] else [Tok(Comma)] + RenderVariants(vs[1..])
  }

  function AsField(p: ParamTree): FieldTree {
    FieldTree(p.name, p.typ)
  }

  function RenderParam(p: ParamTree): (ts: seq<Token>)
    ensures |ts| > 0
  {
    MutTokens(p.isMut) + RenderField(AsField(p))
  }

  function RenderParams(ps: seq<ParamTree>): seq<Token> {
    if ps == [] then [] else RenderParam(ps[0]) + if |ps| == 1 then [] else [Tok(Comma)] + RenderParams(ps[1..])
  }

  function RenderReturn(ret: Option<FieldTree>): seq<Token> {
    match ret
    case None => []
    case Some(f) => [Tok(KwReturns), Tok(LParen)] + (RenderField(f) + [Tok(RParen)])
  }

  function RenderSignature(sig: Signature): seq<Token> {
    [Tok(LParen)] + (RenderParams(sig.params) + ([Tok(RParen)] + RenderReturn(sig.ret)))
  }

  function RenderBody(body: Option<seq<StmtTree>>): seq<Token> {
    match body case None => [Tok(Semicolon)] case Some(b) => RenderBlock(b)
  }

  /** A struct without fields is written as one to be completed later. */
  function RenderDecl(d: DeclTree): seq<Token> {
    match d
    case StructTree(n, fields) => [Tok(KwStruct), Token(Identifier, n)] + if fields == [] then [Tok(Semicolon)] else RenderFieldBlock(fields)
    case EnumTree(n, vs) => [Tok(KwEnum), Token(Identifier, n)] + ([Tok(LBrace)] + (RenderVariants(vs) + [Tok(RBrace)]))
    case FuncTree(isExtern, n, sig, body) =>
      (if isExtern then [Tok(KwExtern)] else []) + ([Tok(KwFunc), Token(Identifier, n)] + (RenderSignature(sig) + RenderBody(body)))
    case StmtDecl(t) => RenderStmt(t)
  }

  function RenderProgram(ds: seq<DeclTree>): seq<Token> {
    if ds == [] then [] else RenderDecl(ds[0]) + RenderProgram(ds[1..])
  }

  // What declarations add to the global scope

  /** A struct type and its declaration; a name already bound keeps its meaning. */
  function WithStruct(e: Names, n: string, complete: bool): Names {
    e.(bound := e.bound + {n}, types := if n in e.bound then e.types else e.types[n := TypeSym(n, complete)], structs := e.structs + {n})
  }

  /** The struct is defined now, whether declared before or not. */
  function WithBody(e: Names, n: string): Names {
    if n in e.types && e.types[n].TypeSym? then e.(types := e.types[n := e.types[n].(complete := true)]) else WithStruct(e, n, true)
  }

  function WithEnum(e: Names, n: string): Names {
    e.(bound := e.bound + {n}, types := e.types[n := TypeSym("enum " + n, true)], enums := e.enums + {n})
  }

  /** The payload of a variant is a struct of its own. */
  function PayloadStruct(enum: string, v: VariantTree): string {
    enum + "::" + v.name
  }

  function WithVariant(e: Names, enum: string, v: VariantTree): Names {
    if v.payload.Some? then WithStruct(e, PayloadStruct(enum, v), true) else e
  }

  function WithVariants(e: Names, enum: string, vs: seq<VariantTree>): Names
    decreases |vs|
  {
    if vs == [] then e else WithVariants(WithVariant(e, enum, vs[0]), enum, vs[1..])
  }

  function WithSignature(e: Names, shown: string): Names {
    if shown in e.types then e else e.(bound := e.bound + {shown}, types := e.types[shown := TypeSym(shown, true)], sigs := e.sigs + {shown})
  }

  function WithFunc(e: Names, n: string, shown: string): Names {
    if n in e.funcs then e else e.(bound := e.bound + {n}, funcs := e.funcs[n := shown])
  }

  function AfterDecl(e: Names, d: DeclTree): Names {
    match d
    case StructTree(n, fields) => if fields != [] then WithBody(e, n) else if n in e.types then e else WithStruct(e, n, false)
    case EnumTree(n, vs) => WithVariants(WithEnum(e, n), n, vs)
    case FuncTree(_, n, sig, _) => WithFunc(WithSignature(e, ShowSignature(sig)), n, ShowSignature(sig))
    case StmtDecl(t) => Declared(e, Declares(t))
  }

  function AfterAll(e: Names, ds: seq<DeclTree>): Names
    decreases |ds|
  {
    if ds == [] then e else AfterAll(AfterDecl(e, ds[0]), ds[1..])
  }

  // Declarations shaped by the grammar

  function FieldNames(fs: seq<FieldTree>): set<string> {
    if fs == [] then {} else {fs[0].name} + FieldNames(fs[1..])
  }

  predicate ShapedField(f: FieldTree, env: Names) {
    Fresh(env, {f.name}) && TypeShaped(f.typ, env)
  }

  predicate ShapedFields(fs: seq<FieldTree>, env: Names) {
    fs != [] ==> ShapedField(fs[0], env) && ShapedFields(fs[1..], Declared(env, {fs[0].name}))
  }

  function ParamFields(ps: seq<ParamTree>): (fs: seq<FieldTree>)
    ensures |fs| == |ps|
  {
    seq(|ps|, i requires 0 <= i < |ps| => AsField(ps[i]))
  }

  function ReturnFields(ret: Option<FieldTree>): seq<FieldTree> {
    if ret.Some? then [ret.value] else []
  }

  /** The variables of a signature, in order. */
  function SignatureFields(sig: Signature): seq<FieldTree> {
    ParamFields(sig.params) + ReturnFields(sig.ret)
  }

  /** A name a program can write, and not bound yet or the one to be completed. */
  predicate CanDefine(n: string, env: Names) {
    Plain(n) && Visible(n) && (n !in env.bound || (n in env.types && n in env.structs && env.types[n].TypeSym? && !env.types[n].complete))
  }

  predicate ShapedVariants(enum: string, vs: seq<VariantTree>, env: Names) {
    vs != [] ==>
      && Plain(vs[0].name)
      && (vs[0].payload.Some? ==> ShapedFields(vs[0].payload.value, Inner(env)))
      && ShapedVariants(enum, vs[1..], WithVariant(env, enum, vs[0]))
  }

  predicate ShapedDecl(d: DeclTree, env: Names) {
    match d
    case StructTree(n, fields) =>
      if fields == [] then Plain(n) && Visible(n) && (n !in env.bound || n in env.types)
      else CanDefine(n, env) && ShapedFields(fields, Inner(WithBody(env, n)))
    case EnumTree(n, vs) => Fresh(env, {n}) && n !in env.enums && ShapedVariants(n, vs, WithEnum(env, n))
    case FuncTree(isExtern, n, sig, body) =>
      && Plain(n) && Visible(n) && (isExtern ==> body.None?)
      && ShapedFields(SignatureFields(sig), Inner(env))
      && (body.Some? ==> ShapedStmts(body.value, Declared(Inner(env), FieldNames(SignatureFields(sig)))))
      && (n !in env.bound || (n in env.funcs && env.funcs[n] == ShowSignature(sig)))
    case StmtDecl(t) => ShapedStmt(t, env)
  }

  predicate ShapedProgram(ds: seq<DeclTree>, env: Names) {
    ds != [] ==> ShapedDecl(ds[0], env) && ShapedProgram(ds[1..], AfterDecl(env, ds[0]))
  }
}
