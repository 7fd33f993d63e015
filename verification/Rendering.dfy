/** Programs as tokens. */
module Rendering {
  import opened Options
  import opened Tokens
  import opened ExprSyntax
  import opened Grammar
  import opened Visibility

  // Types

  function MutTokens(isMut: bool): seq<Token> {
    if isMut then [Tok(KwMut)] else []
  }

  function RenderType(t: TypeTree): (ts: seq<Token>)
    ensures |ts| > 0
  {
    match t
    case BasicType(k) => [Tok(k)]
    case NamedType(n, _) => [Token(Identifier, n)]
    case PointerType(isMut, to) => [Tok(KwPtr), Tok(LAngle)] + (MutTokens(isMut) + (RenderType(to) + [Tok(RAngle)]))
    case FunctionType(ps, ret) =>
      [Tok(KwFunc), Tok(LParen)] + (RenderTypeParams(ps) + ([Tok(RParen), Tok(Arrow)] + RenderType(ret)))
  }

  function RenderTypeParams(ps: TypeParams): seq<Token> {
    match ps
    case NoParams => []
    case ConsParam(isMut, t, rest) =>
      (if isMut then [Tok(KwMut), Tok(Colon)] else []) + (RenderType(t) + (if rest.NoParams? then [] else [Tok(Comma)] + RenderTypeParams(rest)))
  }

  /** Names mean types, and function types are known. */
  predicate TypeShaped(t: TypeTree, e: Names) {
    match t
    case BasicType(k) => IsBasicType(k)
    case NamedType(n, shown) => Visible(n) && n in e.types && e.types[n].TypeSym? && e.types[n].shown == shown
    case PointerType(_, to) => TypeShaped(to, e)
    case FunctionType(ps, ret) => TypeParamsShaped(ps, e) && TypeShaped(ret, e) && Printed(t) in e.sigs
  }

  predicate TypeParamsShaped(ps: TypeParams, e: Names) {
    match ps
    case NoParams => true
    case ConsParam(_, t, rest) => TypeShaped(t, e) && TypeParamsShaped(rest, e)
  }

  // Expressions

  function UnaryTokens(op: UnaryOp): (ts: seq<Token>)
    ensures 1 <= |ts| <= 2
  {
    match op
    case AddressOf => [Tok(Ampersand)]
    case AddressOfMut => [Tok(Ampersand), Tok(KwMut)]
    case Dereference => [Tok(Star)]
    case NotOp => [Tok(Bang)]
    case NegateOp => [Tok(Minus)]
  }

  function Render(e: Tree): (ts: seq<Token>)
    ensures |ts| > 0
  {
    match e
    case Literal(t) => [t]
    case Ident(n) => [Token(Identifier, n)]
    case Group(i) => [Tok(LParen)] + (Render(i) + [Tok(RParen)])
    case Unary(op, o) => UnaryTokens(op) + Render(o)
    case Index(b, i) => Render(b) + ([Tok(LBrack)] + (Render(i) + [Tok(RBrack)]))
    case Invoke(b, args) => Render(b) + ([Tok(LParen)] + (RenderArgs(args) + [Tok(RParen)]))
    case FieldOf(b, f) => Render(b) + ([Tok(Dot)] + [Token(Identifier, f)])
    case Binary(op, l, r) => Render(l) + ([Tok(OpKind(op))] + Render(r))
    case AssignTo(t, v) => Render(t) + ([Tok(Equal)] + Render(v))
    case StructLit(n, fields, values) => [Token(Identifier, n)] + RenderBraced(fields, values)
    case EnumLit(n, v, fields, values) =>
      [Token(Identifier, n), Tok(ColonColon), Token(Identifier, v)] + (if fields == [] then [] else RenderBraced(fields, values))
    case NewOf(isMut, isArray, t, init) =>
      [Tok(KwNew), Tok(LAngle)] + (MutTokens(isMut) + (RenderType(t) + ([Tok(RAngle)] + (
        if isArray then [Tok(LBrack)] + (RenderOpt(init) + [Tok(RBrack)]) else [Tok(LParen)] + (RenderOpt(init) + [Tok(RParen)])))))
    case CastTo(t, x) =>
      [Tok(KwCast), Tok(LAngle)] + (RenderType(t) + ([Tok(RAngle), Tok(LParen)] + (Render(x) + [Tok(RParen)])))
    case SizeOf(t) => [Tok(KwSizeof), Tok(LAngle)] + (RenderType(t) + [Tok(RAngle)])
  }

  function RenderOpt(e: Option<Tree>): seq<Token> {
    match e case Some(x) => Render(x) case None => []
  }

  function RenderArgs(args: Trees): seq<Token> {
    match args
    case NoTrees => []
    case ConsTree(e, rest) => Render(e) + (if rest.NoTrees? then [] else [Tok(Comma)] + RenderArgs(rest))
  }

  /** `{ Name = Expr, ... }` */
  function RenderBraced(names: seq<string>, values: Trees): seq<Token>
    decreases values, 1
  {
    [Tok(LBrace)] + (RenderInits(names, values) + [Tok(RBrace)])
  }

  function RenderInits(names: seq<string>, values: Trees): seq<Token>
    decreases values, 0
  {
    match values
    case NoTrees => []
    case ConsTree(e, rest) =>
      if names == [] then []
      else
        [Token(Identifier, names[0]), Tok(Equal)] +
        (Render(e) + (if rest.NoTrees? then [] else [Tok(Comma)] + RenderInits(names[1..], rest)))
  }

  function Length(es: Trees): nat {
    match es case NoTrees => 0 case ConsTree(_, rest) => 1 + Length(rest)
  }

  // Trees shaped by the grammar

  /** How tightly a tree binds: 0 assignment, 1-10 binary, 11 unary, 12 postfix and primary. */
  function Level(e: Tree): nat {
    match e
    case AssignTo(_, _) => 0
    case Binary(op, _, _) => OpLevel(op)
    case Unary(_, _) => 11
    case _ => 12
  }

  /** Left-associative binary levels, right-associative assignment, parentheses only where written. */
  predicate Shaped(e: Tree, env: Names) {
    match e
    case Literal(t) => IsLiteral(t.kind)
    case Ident(n) => n !in env.structs
    case Group(i) => Shaped(i, env)
    case Unary(_, o) => Shaped(o, env) && Level(o) >= 11
    case Index(b, i) => Shaped(b, env) && Level(b) >= 12 && Shaped(i, env)
    case Invoke(b, args) => Shaped(b, env) && Level(b) >= 12 && ShapedAll(args, env)
    case FieldOf(b, _) => Shaped(b, env) && Level(b) >= 12
    case Binary(op, l, r) =>
      Shaped(l, env) && Shaped(r, env) && Level(l) >= OpLevel(op) && Level(r) > OpLevel(op)
    case AssignTo(t, v) => Shaped(t, env) && Level(t) >= 1 && Shaped(v, env)
    case StructLit(n, fields, values) => n in env.structs && ShapedAll(values, env) && |fields| == Length(values)
    case EnumLit(n, _, fields, values) => n in env.enums && ShapedAll(values, env) && |fields| == Length(values)
    case NewOf(_, isArray, t, init) =>
      && TypeShaped(t, env) && (isArray ==> init.Some?)
      && (init.Some? ==> Shaped(init.value, env) && (isArray || FitsNew(init.value, env)))
    case CastTo(t, x) => TypeShaped(t, env) && Shaped(x, env)
    case SizeOf(t) => TypeShaped(t, env)
  }

  /** After `new<T>(` a token that spells a struct starts a literal of it. */
  predicate FitsNew(e: Tree, env: Names) {
    e.StructLit? || Render(e)[0].text !in env.structs
  }

  predicate ShapedAll(args: Trees, env: Names) {
    match args
    case NoTrees => true
    case ConsTree(e, rest) => Shaped(e, env) && ShapedAll(rest, env)
  }

  // Where tokens stand

  /** The tokens `r` stand at position `p`. */
  predicate At(ts: seq<Token>, p: nat, r: seq<Token>) {
    p + |r| <= |ts| && ts[p..p + |r|] == r
  }

  lemma AtSplit(ts: seq<Token>, p: nat, a: seq<Token>, b: seq<Token>)
    requires At(ts, p, a + b)
    ensures At(ts, p, a) && At(ts, p + |a|, b)
  {
    var r := ts[p..p + |a + b|];
    assert r[..|a|] == a && r[|a|..] == b;
    assert ts[p..p + |a|] == r[..|a|];
    assert ts[p + |a|..p + |a| + |b|] == r[|a|..];
  }

  lemma AtFirst(ts: seq<Token>, p: nat, r: seq<Token>)
    requires At(ts, p, r) && |r| > 0
    ensures p < |ts| && ts[p] == r[0]
  {
    assert ts[p..p + |r|][0] == ts[p];
  }

  lemma AtTwo(ts: seq<Token>, p: nat, a: Token, b: Token, rest: seq<Token>)
    requires At(ts, p, [a, b] + rest)
    ensures p + 1 < |ts| && ts[p] == a && ts[p + 1] == b && At(ts, p + 2, rest)
  {
    hide At;
    AtSplit(ts, p, [a, b], rest);
    assert [a, b] == [a] + [b];
    AtSplit(ts, p, [a], [b]);
    AtFirst(ts, p, [a]);
    AtFirst(ts, p + 1, [b]);
  }

  lemma AtCons(ts: seq<Token>, p: nat, a: Token, rest: seq<Token>)
    requires At(ts, p, [a] + rest)
    ensures p < |ts| && ts[p] == a && At(ts, p + 1, rest)
  {
    hide At;
    AtSplit(ts, p, [a], rest);
    AtFirst(ts, p, [a]);
  }

  lemma AtMiddle(ts: seq<Token>, p: nat, a: seq<Token>, k: Token, b: seq<Token>)
    requires At(ts, p, a + ([k] + b))
    ensures At(ts, p, a) && p + |a| < |ts| && ts[p + |a|] == k && At(ts, p + |a| + 1, b)
  {
    hide At;
    AtSplit(ts, p, a, [k] + b);
    AtCons(ts, p + |a|, k, b);
  }

  lemma AtLast(ts: seq<Token>, p: nat, a: seq<Token>, k: Token)
    requires At(ts, p, a + [k])
    ensures At(ts, p, a) && p + |a| < |ts| && ts[p + |a|] == k
  {
    hide At;
    AtSplit(ts, p, a, [k]);
    AtFirst(ts, p + |a|, [k]);
  }
}
