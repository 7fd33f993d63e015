/** Which operand an operator takes. */
module Precedence {
  import opened Options
  import opened Tokens
  import opened ExprSyntax
  import opened ParserState
  import opened Grammar
  import opened Visibility
  import opened Rendering
  import opened TypeRoundTrip
  import opened ExprRoundTrip

  /** The binary operators with their tokens, in ten groups, loosest first. */
  const GROUPS: seq<seq<(Kind, BinaryOp)>> := [
    [(KwOr, LogicalOr)],
    [(KwAnd, LogicalAnd)],
    [(Pipe, BitwiseOr)],
    [(Caret, BitwiseXor)],
    [(Ampersand, BitwiseAnd)],
    [(EqualEqual, IsEqual), (BangEqual, NotEqual)],
    [(LAngle, LessThan), (RAngle, GreaterThan), (LessEqual, AtMost), (GreaterEqual, AtLeast)],
    [(LessLess, ShiftLeft), (GreaterGreater, ShiftRight)],
    [(Plus, AddOp), (Minus, Subtract)],
    [(Star, Multiply), (Slash, Divide), (Modulo, Remainder)]]

  /** The operator stands in the group, for its token. */
  predicate InGroup(g: nat, op: BinaryOp)
    requires g < 10
  {
    (OpKind(op), op) in GROUPS[g]
  }

  lemma {:induction false} InTable(g: nat, i: nat)
    requires g < 10 && i < |GROUPS[g]|
    ensures var (k, op) := GROUPS[g][i]; OpKind(op) == k && OpLevel(op) == g + 1
  {
    var t := GROUPS[g];
    assert t == GROUPS[0] || t == GROUPS[1] || t == GROUPS[2] || t == GROUPS[3] || t == GROUPS[4]
        || t == GROUPS[5] || t == GROUPS[6] || t == GROUPS[7] || t == GROUPS[8] || t == GROUPS[9];
  }

  /** The level the parser gives an operator is its group. */
  lemma {:induction false} LevelIsGroup(g: nat, op: BinaryOp)
    requires g < 10
    ensures InGroup(g, op) <==> OpLevel(op) == g + 1
  {
    if InGroup(g, op) {
      var i :| 0 <= i < |GROUPS[g]| && GROUPS[g][i] == (OpKind(op), op);
      InTable(g, i);
    }
  }

  // The nonterminals of the grammar, written out

  /** Assignment associates to the right. */
  predicate Expression(e: Tree, env: Names)
    decreases e, 20
  {
    if e.AssignTo? then Operation(0, e.target, env) && Expression(e.value, env) else Operation(0, e, env)
  }

  /** An operand of group `g - 1`: a chain of operators of group `g`, to the left, or something tighter. */
  predicate Operation(g: nat, e: Tree, env: Names)
    requires g <= 10
    decreases e, 12 - g
  {
    if g == 10 then Prefixed(e, env)
    else
      || Operation(g + 1, e, env)
      || (e.Binary? && InGroup(g, e.op) && Operation(g, e.left, env) && Operation(g + 1, e.right, env))
  }

  predicate Prefixed(e: Tree, env: Names)
    decreases e, 1
  {
    Suffixed(e, env) || (e.Unary? && Prefixed(e.operand, env))
  }

  predicate Suffixed(e: Tree, env: Names)
    decreases e, 0
  {
    match e
    case Index(b, i) => Suffixed(b, env) && Expression(i, env)
    case Invoke(b, args) => Suffixed(b, env) && Expressions(args, env)
    case FieldOf(b, _) => Suffixed(b, env)
    case Literal(t) => IsLiteral(t.kind)
    case Ident(n) => n !in env.structs
    case Group(i) => Expression(i, env)
    case StructLit(n, fields, values) => n in env.structs && Expressions(values, env) && |fields| == Length(values)
    case EnumLit(n, _, fields, values) => n in env.enums && Expressions(values, env) && |fields| == Length(values)
    case NewOf(_, isArray, t, init) =>
      && TypeShaped(t, env) && (isArray ==> init.Some?)
      && (init.Some? ==> Expression(init.value, env) && (isArray || FitsNew(init.value, env)))
    case CastTo(t, x) => TypeShaped(t, env) && Expression(x, env)
    case SizeOf(t) => TypeShaped(t, env)
    case _ => false
  }

  predicate Expressions(es: Trees, env: Names)
    decreases es, 0
  {
    match es case NoTrees => true case ConsTree(e, rest) => Expression(e, env) && Expressions(rest, env)
  }

  // They derive exactly the shaped trees

  lemma {:induction false} ExpressionShaped(e: Tree, env: Names)
    ensures Expression(e, env) <==> Shaped(e, env)
    decreases e, 20
  {
    hide FitsNew, TypeShaped, Suffixed, Prefixed, OpLevel;
    if e.AssignTo? {
      OperationShaped(0, e.target, env);
      ExpressionShaped(e.value, env);
    } else {
      OperationShaped(0, e, env);
    }
  }

  lemma {:induction false} OperationShaped(g: nat, e: Tree, env: Names)
    requires g <= 10
    ensures Operation(g, e, env) <==> Shaped(e, env) && Level(e) >= g + 1
    decreases e, 12 - g
  {
    hide FitsNew, TypeShaped, Suffixed, Prefixed, InGroup, OpLevel;
    if g == 10 {
      PrefixedShaped(e, env);
    } else {
      OperationShaped(g + 1, e, env);
      if e.Binary? {
        LevelIsGroup(g, e.op);
        OperationShaped(g, e.left, env);
        OperationShaped(g + 1, e.right, env);
      }
    }
  }

  lemma {:induction false} PrefixedShaped(e: Tree, env: Names)
    ensures Prefixed(e, env) <==> Shaped(e, env) && Level(e) >= 11
    decreases e, 1
  {
    hide FitsNew, TypeShaped, Suffixed;
    SuffixedShaped(e, env);
    if e.Unary? {
      PrefixedShaped(e.operand, env);
    }
  }

  lemma {:induction false} SuffixedShaped(e: Tree, env: Names)
    ensures Suffixed(e, env) <==> Shaped(e, env) && Level(e) >= 12
    decreases e, 0
  {
    hide FitsNew, TypeShaped, Expression, Operation, Prefixed;
    match e
    case Index(b, i) => SuffixedShaped(b, env); ExpressionShaped(i, env);
    case Invoke(b, args) => SuffixedShaped(b, env); ExpressionsShaped(args, env);
    case FieldOf(b, _) => SuffixedShaped(b, env);
    case Group(i) => ExpressionShaped(i, env);
    case StructLit(_, _, values) => ExpressionsShaped(values, env);
    case EnumLit(_, _, _, values) => ExpressionsShaped(values, env);
    case NewOf(_, _, _, init) =>
      if init.Some? {
        ExpressionShaped(init.value, env);
      }
    case CastTo(_, x) => ExpressionShaped(x, env);
    case _ =>
  }

  lemma {:induction false} ExpressionsShaped(es: Trees, env: Names)
    ensures Expressions(es, env) <==> ShapedAll(es, env)
    decreases es, 0
  {
    hide Expression, Shaped;
    if es.ConsTree? {
      ExpressionShaped(es.head, env);
      ExpressionsShaped(es.tail, env);
    }
  }

  /** What the nonterminals derive parses back. */
  lemma {:induction false} DerivedParses(e: Tree, s: State, env: Names) returns (u: State)
    requires Sees(s.scopes, s.current, env) && Expression(e, env) && At(s.tokens, s.pos, Render(e))
    requires Stops(0, After(s, |Render(e)|))
    ensures ExprAt(s) == Done(e, u) && Went(s, u, |Render(e)|)
  {
    hide Sees, Went, Expression, Shaped, At, Render, ExprAt, Stops;
    ExpressionShaped(e, env);
    u := AssignParses(e, s, env);
  }

  // Two operators

  /** `x p y q z` */
  function Chained(x: Tree, p: Kind, y: Tree, q: Kind, z: Tree): seq<Token> {
    Render(x) + [Tok(p)] + Render(y) + [Tok(q)] + Render(z)
  }

  /**
    For any two operators of the table: the first takes the middle operand when the second stands in
    the same group or a looser one, and the second takes it when it stands in a tighter one.
   */
  lemma {:induction false} TwoOperators(x: Tree, g: nat, i: nat, y: Tree, h: nat, j: nat, z: Tree, s: State, env: Names) returns (u: State)
    requires g < 10 && h < 10 && i < |GROUPS[g]| && j < |GROUPS[h]|
    requires Sees(s.scopes, s.current, env) && Suffixed(x, env) && Suffixed(y, env) && Suffixed(z, env)
    requires var ts := Chained(x, GROUPS[g][i].0, y, GROUPS[h][j].0, z); At(s.tokens, s.pos, ts) && Stops(0, After(s, |ts|))
    ensures var (p, q) := (GROUPS[g][i], GROUPS[h][j]);
      && ExprAt(s) == Done(if h <= g then Binary(q.1, Binary(p.1, x, y), z) else Binary(p.1, x, Binary(q.1, y, z)), u)
      && Went(s, u, |Chained(x, p.0, y, q.0, z)|)
  {
    hide Sees, Went, Suffixed, At, ExprAt, Stops, OpKind, OpLevel;
    var (p, q) := (GROUPS[g][i], GROUPS[h][j]);
    InTable(g, i);
    InTable(h, j);
    SuffixedShaped(x, env);
    SuffixedShaped(y, env);
    SuffixedShaped(z, env);
    var e := if h <= g then Binary(q.1, Binary(p.1, x, y), z) else Binary(p.1, x, Binary(q.1, y, z));
    ChainedRenders(x, p.1, y, q.1, z);
    u := AssignParses(e, s, env);
  }

  lemma {:induction false} ChainedRenders(x: Tree, p: BinaryOp, y: Tree, q: BinaryOp, z: Tree)
    ensures Render(Binary(q, Binary(p, x, y), z)) == Chained(x, OpKind(p), y, OpKind(q), z)
    ensures Render(Binary(p, x, Binary(q, y, z))) == Chained(x, OpKind(p), y, OpKind(q), z)
  {
    hide OpKind;
    var a, b, c := Render(x), Render(y), Render(z);
    var l, r := [Tok(OpKind(p))], [Tok(OpKind(q))];
    assert Render(Binary(p, x, y)) == a + (l + b) && Render(Binary(q, y, z)) == b + (r + c);
    assert (a + (l + b)) + (r + c) == a + l + b + r + c == a + (l + (b + (r + c)));
  }
}
