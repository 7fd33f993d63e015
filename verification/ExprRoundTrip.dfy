/** Expressions parse back from their tokens, anywhere. */
module ExprRoundTrip {
  import opened Options
  import opened Tokens
  import opened Scopes
  import opened ExprSyntax
  import opened ParserState
  import opened Grammar
  import opened Visibility
  import opened Rendering
  import opened TypeRoundTrip

  /** The kind of the token `n` places on. */
  function After(s: State, n: nat): Kind {
    KindAt(s.(pos := s.pos + n))
  }

  /** A token that cannot continue an expression parsed at `level` (0 is assignment, 12 postfix). */
  predicate Stops(level: nat, k: Kind) {
    && k != LBrack && k != LParen && k != Dot && k != ColonColon && k != LBrace
    && (OpAt(k).Some? ==> OpLevel(OpAt(k).value) < level)
    && (level == 0 ==> k != Equal)
  }

  lemma OpStops(op: BinaryOp, level: nat)
    requires level > OpLevel(op)
    ensures Stops(level, OpKind(op))
  {
    OpAtKind(op);
  }

  predicate UnaryStart(k: Kind) {
    k == Ampersand || k == Star || k == Bang || k == Minus
  }

  predicate ExprStart(k: Kind) {
    IsLiteral(k) || k == Identifier || k == LParen || k == KwNew || k == KwCast || k == KwSizeof || UnaryStart(k)
  }

  lemma {:induction false} Starts(e: Tree, env: Names)
    requires Shaped(e, env)
    ensures ExprStart(Render(e)[0].kind) && (Level(e) >= 12 ==> !UnaryStart(Render(e)[0].kind))
  {
    match e
    case Index(b, _) => Starts(b, env);
    case Invoke(b, _) => Starts(b, env);
    case FieldOf(b, _) => Starts(b, env);
    case Binary(_, l, _) => Starts(l, env);
    case AssignTo(t, _) => Starts(t, env);
    case _ =>
  }

  /** What stands at `s` starts an expression. */
  lemma {:induction false} StartsAt(e: Tree, s: State, env: Names)
    requires Shaped(e, env) && At(s.tokens, s.pos, Render(e))
    ensures ExprStart(KindAt(s)) && (Level(e) >= 12 ==> !UnaryStart(KindAt(s)))
  {
    hide At, Shaped, Render;
    Starts(e, env);
    AtFirst(s.tokens, s.pos, Render(e));
  }

  // Assignment

  lemma {:induction false} AssignTokens(e: Tree, s: State)
    requires e.AssignTo? && At(s.tokens, s.pos, Render(e))
    ensures var t, v := |Render(e.target)|, |Render(e.value)|;
      && |Render(e)| == t + 1 + v && At(s.tokens, s.pos, Render(e.target)) && After(s, t) == Equal
      && At(s.tokens, s.pos + t + 1, Render(e.value))
  {
    hide At;
    AtMiddle(s.tokens, s.pos, Render(e.target), Tok(Equal), Render(e.value));
  }

  /** Every expression, wherever its tokens stand. */
  lemma {:induction false} AssignParses(e: Tree, s: State, env: Names) returns (u: State)
    requires Sees(s.scopes, s.current, env) && Shaped(e, env) && At(s.tokens, s.pos, Render(e)) && Stops(0, After(s, |Render(e)|))
    ensures ExprAt(s) == Done(e, u) && Went(s, u, |Render(e)|)
    decreases e, 20, 0
  {
    hide LevelAt, ExprAt, At, Onward, Sees, Went, Render, OpAt, OpLevel;
    if e.AssignTo? {
      AssignTokens(e, s);
      var t, v := |Render(e.target)|, |Render(e.value)|;
      var s1 := LevelParses(1, e.target, s, env);
      WentParts(s, s1, t);
      PassMore(s, s1, t, 1);
      WentSees(s, Past(s1), t + 1, env);
      u := AssignParses(e.value, Past(s1), env);
      WentThen(s, Past(s1), u, t + 1, v);
      AssignStep(s, e.target, s1, e.value, u);
    } else {
      u := LevelParses(1, e, s, env);
      WentParts(s, u, |Render(e)|);
      NoAssign(s, e, u);
    }
  }

  lemma {:induction false} AssignStep(s: State, t: Tree, s1: State, v: Tree, s2: State)
    requires LevelAt(1, s) == Done(t, s1) && KindAt(s1) == Equal && ExprAt(Past(s1)) == Done(v, s2)
    ensures ExprAt(s) == Done(AssignTo(t, v), s2)
  {
    hide LevelAt, Onward;
  }

  lemma {:induction false} NoAssign(s: State, e: Tree, s1: State)
    requires LevelAt(1, s) == Done(e, s1) && KindAt(s1) != Equal
    ensures ExprAt(s) == Done(e, s1)
  {
    hide LevelAt, Onward;
  }

  // Binary levels

  lemma {:induction false} LevelParses(m: nat, e: Tree, s: State, env: Names) returns (u: State)
    requires 1 <= m <= 11 && Sees(s.scopes, s.current, env) && Shaped(e, env) && Level(e) >= m
    requires At(s.tokens, s.pos, Render(e)) && Stops(m, After(s, |Render(e)|))
    ensures LevelAt(m, s) == Done(e, u) && Went(s, u, |Render(e)|)
    decreases e, 12 - m, 3
  {
    hide UnaryAt, At, Render, Shaped, RestAt, Onward, Sees, Went, Level, OpAt, OpLevel;
    if m == 11 {
      u := UnaryParses(e, s, env);
      UnaryLevel(s);
    } else {
      u := PrefixParses(m, e, s, env);
      WentParts(s, u, |Render(e)|);
      RestStops(m, e, u);
    }
  }

  lemma {:induction false} UnaryLevel(s: State)
    ensures LevelAt(11, s) == UnaryAt(s)
  {
    hide Onward, UnaryAt, RestAt;
  }

  lemma {:induction false} RestStops(m: nat, e: Tree, s: State)
    requires 1 <= m <= 10 && Stops(m, KindAt(s))
    ensures RestAt(m, e, s) == Done(e, s)
  {
    hide LevelAt, Onward;
  }

  /** Whatever follows at this level, the parser has built `e` when it gets there. */
  lemma {:induction false} PrefixParses(m: nat, e: Tree, s: State, env: Names) returns (u: State)
    requires 1 <= m <= 10 && Sees(s.scopes, s.current, env) && Shaped(e, env) && Level(e) >= m
    requires At(s.tokens, s.pos, Render(e)) && Stops(m + 1, After(s, |Render(e)|))
    ensures LevelAt(m, s) == RestAt(m, e, u) && Went(s, u, |Render(e)|)
    decreases e, 12 - m, 2
  {
    hide LevelAt, RestAt, At, Render, Shaped, Onward, Sees, Went, Level, Stops;
    if Level(e) > m {
      u := LevelParses(m + 1, e, s, env);
      LevelStep(m, s, e, u);
    } else {
      u := BinaryParses(m, e, s, env);
    }
  }

  lemma LevelStep(m: nat, s: State, e: Tree, u: State)
    requires 1 <= m <= 10 && LevelAt(m + 1, s) == Done(e, u)
    ensures LevelAt(m, s) == RestAt(m, e, u)
  {
    hide Onward, UnaryAt, RestAt;
  }

  lemma {:induction false} RestStep(m: nat, op: BinaryOp, l: Tree, s: State, r: Tree, s1: State)
    requires 1 <= m <= 10 && OpLevel(op) == m && KindAt(s) == OpKind(op) && LevelAt(m + 1, Past(s)) == Done(r, s1)
    ensures RestAt(m, l, s) == RestAt(m, Binary(op, l, r), s1)
  {
    hide LevelAt, Onward;
    OpAtKind(op);
  }

  lemma {:induction false} BinaryTokens(e: Tree, s: State)
    requires e.Binary? && At(s.tokens, s.pos, Render(e))
    ensures var l, r := |Render(e.left)|, |Render(e.right)|;
      && |Render(e)| == l + 1 + r && At(s.tokens, s.pos, Render(e.left)) && After(s, l) == OpKind(e.op)
      && At(s.tokens, s.pos + l + 1, Render(e.right))
  {
    hide At;
    AtMiddle(s.tokens, s.pos, Render(e.left), Tok(OpKind(e.op)), Render(e.right));
  }

  lemma {:induction false} BinaryParses(m: nat, e: Tree, s: State, env: Names) returns (u: State)
    requires 1 <= m <= 10 && Sees(s.scopes, s.current, env) && Shaped(e, env) && Level(e) == m
    requires At(s.tokens, s.pos, Render(e)) && Stops(m + 1, After(s, |Render(e)|))
    ensures LevelAt(m, s) == RestAt(m, e, u) && Went(s, u, |Render(e)|)
    decreases e, 12 - m, 1
  {
    hide LevelAt, RestAt, At, Render, Onward, Sees, Went, OpKind, OpAt, OpLevel, Stops;
    BinaryTokens(e, s);
    var l, r := |Render(e.left)|, |Render(e.right)|;
    OpStops(e.op, m + 1);
    var s1 := PrefixParses(m, e.left, s, env);
    WentParts(s, s1, l);
    PassMore(s, s1, l, 1);
    WentSees(s, Past(s1), l + 1, env);
    u := LevelParses(m + 1, e.right, Past(s1), env);
    WentThen(s, Past(s1), u, l + 1, r);
    RestStep(m, e.op, e.left, s1, e.right, u);
  }

  // Unary

  lemma {:induction false} UnaryTokensAt(e: Tree, s: State)
    requires e.Unary? && At(s.tokens, s.pos, Render(e))
    ensures var u, o := |UnaryTokens(e.uop)|, |Render(e.operand)|;
      && |Render(e)| == u + o && At(s.tokens, s.pos, UnaryTokens(e.uop)) && At(s.tokens, s.pos + u, Render(e.operand))
  {
    hide At;
    AtSplit(s.tokens, s.pos, UnaryTokens(e.uop), Render(e.operand));
  }

  lemma {:induction false} UnaryParses(e: Tree, s: State, env: Names) returns (u: State)
    requires Sees(s.scopes, s.current, env) && Shaped(e, env) && Level(e) >= 11
    requires At(s.tokens, s.pos, Render(e)) && Stops(11, After(s, |Render(e)|))
    ensures UnaryAt(s) == Done(e, u) && Went(s, u, |Render(e)|)
    decreases e, 0, 4
  {
    hide PostfixAt, UnaryAt, At, UnaryOpAt, Onward, Sees, Went, Render, UnaryTokens, OpAt, OpLevel;
    if e.Unary? {
      UnaryTokensAt(e, s);
      var n, o := |UnaryTokens(e.uop)|, |Render(e.operand)|;
      var s1 := s.(pos := s.pos + n);
      StartsAt(e.operand, s1, env);
      PassWent(s, n, env);
      u := UnaryParses(e.operand, s1, env);
      WentThen(s, s1, u, n, o);
      OpIsRead(e.uop, s);
      UnaryStep(e.uop, s, s1, e.operand, u);
    } else {
      OnlyUnary(e);
      StartsAt(e, s, env);
      u := PostfixParses(e, s, env);
      NoUnary(s);
    }
  }

  lemma OnlyUnary(e: Tree)
    requires Level(e) >= 11 && !e.Unary?
    ensures Level(e) == 12
  {
  }

  lemma OpIsRead(op: UnaryOp, s: State)
    requires At(s.tokens, s.pos, UnaryTokens(op)) && ExprStart(After(s, |UnaryTokens(op)|))
    ensures UnaryOpAt(s) == Some((op, s.(pos := s.pos + |UnaryTokens(op)|)))
  {
    hide At, Onward;
    AtFirst(s.tokens, s.pos, UnaryTokens(op));
    if op == AddressOfMut {
      assert UnaryTokens(op) == [Tok(Ampersand), Tok(KwMut)] + [];
      AtTwo(s.tokens, s.pos, Tok(Ampersand), Tok(KwMut), []);
    }
  }

  lemma {:induction false} UnaryStep(op: UnaryOp, s: State, s1: State, o: Tree, s2: State)
    requires UnaryOpAt(s) == Some((op, s1)) && UnaryAt(s1) == Done(o, s2)
    ensures UnaryAt(s) == Done(Unary(op, o), s2)
  {
    hide PostfixAt, Onward, UnaryOpAt;
  }

  lemma {:induction false} NoUnary(s: State)
    requires !UnaryStart(KindAt(s))
    ensures UnaryAt(s) == PostfixAt(s)
  {
    hide PostfixAt, Onward;
  }

  // Postfix

  lemma {:induction false} PostfixParses(e: Tree, s: State, env: Names) returns (u: State)
    requires Sees(s.scopes, s.current, env) && Shaped(e, env) && Level(e) >= 12
    requires At(s.tokens, s.pos, Render(e)) && Stops(11, After(s, |Render(e)|))
    ensures PostfixAt(s) == Done(e, u) && Went(s, u, |Render(e)|)
    decreases e, 0, 3
  {
    hide PostfixAt, At, Render, Shaped, SuffixesAt, Onward, Sees, Went, Level, OpAt, OpLevel;
    u := ChainParses(e, s, env);
    WentParts(s, u, |Render(e)|);
    SuffixesStop(e, u);
  }

  lemma {:induction false} SuffixesStop(e: Tree, s: State)
    requires Stops(11, KindAt(s))
    ensures SuffixesAt(e, s) == Done(e, s)
  {
    hide SuffixAt, Onward;
  }

  /** Whatever suffix follows, the parser has built `e` when it gets there. */
  lemma {:induction false} ChainParses(e: Tree, s: State, env: Names) returns (u: State)
    requires Sees(s.scopes, s.current, env) && Shaped(e, env) && Level(e) >= 12
    requires At(s.tokens, s.pos, Render(e)) && After(s, |Render(e)|) != ColonColon && After(s, |Render(e)|) != LBrace
    ensures PostfixAt(s) == SuffixesAt(e, u) && Went(s, u, |Render(e)|)
    decreases e, 0, 2
  {
    hide PostfixAt, SuffixesAt, At, Onward, Sees, Went, Render, Shaped, OpLevel;
    match e
    case Index(b, i) => u := IndexParses(e, s, env);
    case Invoke(b, args) => u := InvokeParses(e, s, env);
    case FieldOf(b, f) => u := FieldParses(e, s, env);
    case _ =>
      u := PrimaryParses(e, s, env);
      PostfixStep(s, e, u);
  }

  lemma {:induction false} PostfixStep(s: State, e: Tree, u: State)
    requires PrimaryAt(s) == Done(e, u)
    ensures PostfixAt(s) == SuffixesAt(e, u)
  {
    hide PrimaryAt, SuffixesAt, Onward;
  }

  predicate IsPrimary(e: Tree) {
    e.Literal? || e.Ident? || e.Group? || e.StructLit? || e.EnumLit? || e.NewOf? || e.CastTo? || e.SizeOf?
  }

  lemma {:induction false} PrimaryParses(e: Tree, s: State, env: Names) returns (u: State)
    requires Sees(s.scopes, s.current, env) && Shaped(e, env) && IsPrimary(e)
    requires At(s.tokens, s.pos, Render(e)) && After(s, |Render(e)|) != ColonColon && After(s, |Render(e)|) != LBrace
    ensures PrimaryAt(s) == Done(e, u) && Went(s, u, |Render(e)|)
    decreases e, 0, 1
  {
    hide PrimaryAt, At, Onward, Sees, Went, Render, Shaped;
    match e
    case Group(_) => u := GroupParses(e, s, env);
    case StructLit(_, _, _) => u := StructParses(e, s, env); StructIsPrimary(e, s, u, env);
    case EnumLit(_, _, _, _) => u := EnumParses(e, s, env);
    case NewOf(_, _, _, _) => u := NewParses(e, s, env);
    case CastTo(_, _) => u := CastParses(e, s, env);
    case SizeOf(_) => u := SizeofParses(e, s, env);
    case _ => u := AtomParses(e, s, env);
  }

  /** What the table answers about structs and enums. */
  lemma TagsSeen(s: State, env: Names, n: string)
    requires Sees(s.scopes, s.current, env)
    ensures StructKnown(s, n) <==> n in env.structs
    ensures EnumKnown(s, n) <==> n in env.enums
  {
    hide Meant, Chain;
  }

  lemma AtomParses(e: Tree, s: State, env: Names) returns (u: State)
    requires Sees(s.scopes, s.current, env) && (e.Literal? || e.Ident?) && Shaped(e, env)
    requires At(s.tokens, s.pos, Render(e)) && After(s, |Render(e)|) != ColonColon
    ensures PrimaryAt(s) == Done(e, u) && Went(s, u, |Render(e)|)
  {
    hide At, Sees, Went, ExprAt, NewAt, CastAt, SizeofAt, EnumLitAt, StructLitAt, Onward, StructKnown, EnumKnown;
    AtFirst(s.tokens, s.pos, Render(e));
    PassWent(s, 1, env);
    if e.Ident? {
      TagsSeen(s, env, e.name);
    }
    u := Past(s);
  }

  // Parentheses

  lemma {:induction false} GroupTokens(e: Tree, s: State)
    requires e.Group? && At(s.tokens, s.pos, Render(e))
    ensures var i := |Render(e.inner)|;
      |Render(e)| == i + 2 && KindAt(s) == LParen && At(s.tokens, s.pos + 1, Render(e.inner)) && After(s, 1 + i) == RParen
  {
    hide At;
    AtCons(s.tokens, s.pos, Tok(LParen), Render(e.inner) + [Tok(RParen)]);
    AtLast(s.tokens, s.pos + 1, Render(e.inner), Tok(RParen));
  }

  lemma {:induction false} GroupParses(e: Tree, s: State, env: Names) returns (u: State)
    requires e.Group? && Sees(s.scopes, s.current, env) && Shaped(e, env) && At(s.tokens, s.pos, Render(e))
    ensures PrimaryAt(s) == Done(e, u) && Went(s, u, |Render(e)|)
    decreases e, 0, 0
  {
    hide PrimaryAt, ExprAt, At, Onward, Sees, Went, Render;
    GroupTokens(e, s);
    PassWent(s, 1, env);
    var s1 := AssignParses(e.inner, Past(s), env);
    var i := |Render(e.inner)|;
    WentParts(Past(s), s1, i);
    WentThen(s, Past(s), s1, 1, i);
    PassMore(s, s1, 1 + i, 1);
    u := Past(s1);
    GroupStep(s, e.inner, s1);
  }

  lemma {:induction false} GroupStep(s: State, e: Tree, s1: State)
    requires KindAt(s) == LParen && ExprAt(Past(s)) == Done(e, s1) && KindAt(s1) == RParen
    ensures PrimaryAt(s) == Done(Group(e), Past(s1))
  {
    hide ExprAt, NameAt, NewAt, CastAt, SizeofAt, Onward;
  }

  // Suffixes

  lemma {:induction false} SuffixStep(b: Tree, s: State, e: Tree, s1: State)
    requires StartsSuffix(KindAt(s)) && SuffixAt(b, s) == Done(e, s1)
    ensures SuffixesAt(b, s) == SuffixesAt(e, s1)
  {
    hide SuffixAt, Onward;
  }

  lemma {:induction false} IndexStep(b: Tree, i: Tree, s: State, s1: State)
    requires KindAt(s) == LBrack && ExprAt(Past(s)) == Done(i, s1) && KindAt(s1) == RBrack
    ensures SuffixesAt(b, s) == SuffixesAt(Index(b, i), Past(s1))
  {
    hide ExprAt, ArgsAt, Onward, SuffixesAt;
    SuffixStep(b, s, Index(b, i), Past(s1));
  }

  lemma {:induction false} InvokeStep(b: Tree, args: Trees, s: State, s1: State)
    requires KindAt(s) == LParen && ArgsAt(Past(s)) == Done(args, s1) && KindAt(s1) == RParen
    ensures SuffixesAt(b, s) == SuffixesAt(Invoke(b, args), Past(s1))
  {
    hide ExprAt, ArgsAt, Onward, SuffixesAt;
    SuffixStep(b, s, Invoke(b, args), Past(s1));
  }

  lemma {:induction false} FieldStep(b: Tree, s: State)
    requires KindAt(s) == Dot && KindAt(Past(s)) == Identifier
    ensures SuffixesAt(b, s) == SuffixesAt(FieldOf(b, TextAt(Past(s))), Past(Past(s)))
  {
    hide ExprAt, ArgsAt, Onward, SuffixesAt;
    SuffixStep(b, s, FieldOf(b, TextAt(Past(s))), Past(Past(s)));
  }

  lemma {:induction false} IndexTokens(e: Tree, s: State)
    requires e.Index? && At(s.tokens, s.pos, Render(e))
    ensures var b, i := |Render(e.base)|, |Render(e.at)|;
      && |Render(e)| == b + 1 + i + 1 && At(s.tokens, s.pos, Render(e.base)) && After(s, b) == LBrack
      && At(s.tokens, s.pos + b + 1, Render(e.at)) && After(s, b + 1 + i) == RBrack
  {
    hide At;
    AtMiddle(s.tokens, s.pos, Render(e.base), Tok(LBrack), Render(e.at) + [Tok(RBrack)]);
    AtLast(s.tokens, s.pos + |Render(e.base)| + 1, Render(e.at), Tok(RBrack));
  }

  lemma {:induction false} IndexParses(e: Tree, s: State, env: Names) returns (u: State)
    requires Sees(s.scopes, s.current, env) && Shaped(e, env) && e.Index? && At(s.tokens, s.pos, Render(e))
    ensures PostfixAt(s) == SuffixesAt(e, u) && Went(s, u, |Render(e)|)
    decreases e, 0, 0
  {
    hide PostfixAt, ExprAt, SuffixesAt, At, Onward, Sees, Went, Render;
    IndexTokens(e, s);
    var b, i := |Render(e.base)|, |Render(e.at)|;
    var s1 := ChainParses(e.base, s, env);
    WentParts(s, s1, b);
    PassMore(s, s1, b, 1);
    WentSees(s, Past(s1), b + 1, env);
    var s2 := AssignParses(e.at, Past(s1), env);
    WentParts(Past(s1), s2, i);
    WentThen(s, Past(s1), s2, b + 1, i);
    PassMore(s, s2, b + 1 + i, 1);
    u := Past(s2);
    IndexStep(e.base, e.at, s1, s2);
  }

  lemma {:induction false} InvokeTokens(e: Tree, s: State)
    requires e.Invoke? && At(s.tokens, s.pos, Render(e))
    ensures var b, a := |Render(e.base)|, |RenderArgs(e.args)|;
      && |Render(e)| == b + 1 + a + 1 && At(s.tokens, s.pos, Render(e.base)) && After(s, b) == LParen
      && At(s.tokens, s.pos + b + 1, RenderArgs(e.args)) && After(s, b + 1 + a) == RParen
  {
    hide At;
    AtMiddle(s.tokens, s.pos, Render(e.base), Tok(LParen), RenderArgs(e.args) + [Tok(RParen)]);
    AtLast(s.tokens, s.pos + |Render(e.base)| + 1, RenderArgs(e.args), Tok(RParen));
  }

  lemma {:induction false} InvokeParses(e: Tree, s: State, env: Names) returns (u: State)
    requires Sees(s.scopes, s.current, env) && Shaped(e, env) && e.Invoke? && At(s.tokens, s.pos, Render(e))
    ensures PostfixAt(s) == SuffixesAt(e, u) && Went(s, u, |Render(e)|)
    decreases e, 0, 0
  {
    hide PostfixAt, ArgsAt, SuffixesAt, At, Onward, Sees, Went, Render, RenderArgs;
    InvokeTokens(e, s);
    var b, a := |Render(e.base)|, |RenderArgs(e.args)|;
    var s1 := ChainParses(e.base, s, env);
    WentParts(s, s1, b);
    PassMore(s, s1, b, 1);
    WentSees(s, Past(s1), b + 1, env);
    var s2 := ArgsParse(e.args, Past(s1), env);
    WentParts(Past(s1), s2, a);
    WentThen(s, Past(s1), s2, b + 1, a);
    PassMore(s, s2, b + 1 + a, 1);
    u := Past(s2);
    InvokeStep(e.base, e.args, s1, s2);
  }

  lemma {:induction false} FieldTokens(e: Tree, s: State)
    requires e.FieldOf? && At(s.tokens, s.pos, Render(e))
    ensures var b := |Render(e.base)|;
      && |Render(e)| == b + 2 && At(s.tokens, s.pos, Render(e.base)) && After(s, b) == Dot
      && After(s, b + 1) == Identifier && TextAt(s.(pos := s.pos + b + 1)) == e.field
  {
    hide At;
    AtMiddle(s.tokens, s.pos, Render(e.base), Tok(Dot), [Token(Identifier, e.field)]);
    AtFirst(s.tokens, s.pos + |Render(e.base)| + 1, [Token(Identifier, e.field)]);
  }

  lemma {:induction false} FieldParses(e: Tree, s: State, env: Names) returns (u: State)
    requires Sees(s.scopes, s.current, env) && Shaped(e, env) && e.FieldOf? && At(s.tokens, s.pos, Render(e))
    ensures PostfixAt(s) == SuffixesAt(e, u) && Went(s, u, |Render(e)|)
    decreases e, 0, 0
  {
    hide PostfixAt, SuffixesAt, At, Onward, Sees, Went, Render;
    FieldTokens(e, s);
    var b := |Render(e.base)|;
    var s1 := ChainParses(e.base, s, env);
    WentParts(s, s1, b);
    PassMore(s, s1, b, 2);
    u := Past(Past(s1));
    FieldStep(e.base, s1);
  }

  lemma {:induction false} ArgsParse(args: Trees, s: State, env: Names) returns (u: State)
    requires Sees(s.scopes, s.current, env) && ShapedAll(args, env) && At(s.tokens, s.pos, RenderArgs(args))
    requires After(s, |RenderArgs(args)|) == RParen
    ensures ArgsAt(s) == Done(args, u) && Went(s, u, |RenderArgs(args)|)
    decreases args, 1
  {
    hide ExprsAt, At, Onward, Sees, Went, Render;
    if args.ConsTree? {
      ArgsTokens(args, s);
      StartsAt(args.head, s, env);
      u := ListParses(args, s, env);
    } else {
      PassWent(s, 0, env);
      u := s;
    }
  }

  lemma {:induction false} ArgsRendered(args: Trees)
    requires args.ConsTree?
    ensures RenderArgs(args) == if args.tail.NoTrees? then Render(args.head) else Render(args.head) + ([Tok(Comma)] + RenderArgs(args.tail))
  {
    hide Render;
  }

  lemma {:induction false} ArgsTokens(args: Trees, s: State)
    requires args.ConsTree? && At(s.tokens, s.pos, RenderArgs(args))
    ensures var n := |Render(args.head)|;
      && At(s.tokens, s.pos, Render(args.head))
      && (if args.tail.NoTrees? then |RenderArgs(args)| == n
          else |RenderArgs(args)| == n + 1 + |RenderArgs(args.tail)| && After(s, n) == Comma && At(s.tokens, s.pos + n + 1, RenderArgs(args.tail)))
  {
    hide At, Render, RenderArgs;
    ArgsRendered(args);
    if args.tail.ConsTree? {
      AtMiddle(s.tokens, s.pos, Render(args.head), Tok(Comma), RenderArgs(args.tail));
    }
  }

  /** One or more expressions separated by commas. */
  lemma {:induction false} ListParses(args: Trees, s: State, env: Names) returns (u: State)
    requires args.ConsTree? && Sees(s.scopes, s.current, env) && ShapedAll(args, env) && At(s.tokens, s.pos, RenderArgs(args))
    requires Stops(0, After(s, |RenderArgs(args)|)) && After(s, |RenderArgs(args)|) != Comma
    ensures ExprsAt(s) == Done(args, u) && Went(s, u, |RenderArgs(args)|)
    decreases args, 0
  {
    hide ExprAt, ExprsAt, At, Onward, Sees, Went, Render, RenderArgs;
    ArgsTokens(args, s);
    var n := |Render(args.head)|;
    var s1 := AssignParses(args.head, s, env);
    WentParts(s, s1, n);
    if args.tail.ConsTree? {
      PassMore(s, s1, n, 1);
      WentSees(s, Past(s1), n + 1, env);
      u := ListParses(args.tail, Past(s1), env);
      WentThen(s, Past(s1), u, n + 1, |RenderArgs(args.tail)|);
    } else {
      u := s1;
    }
    ExprsStep(args, s, s1, u);
  }

  lemma {:induction false} ExprsStep(args: Trees, s: State, s1: State, u: State)
    requires args.ConsTree? && ExprAt(s) == Done(args.head, s1)
    requires if args.tail.NoTrees? then KindAt(s1) != Comma && u == s1 else KindAt(s1) == Comma && ExprsAt(Past(s1)) == Done(args.tail, u)
    ensures ExprsAt(s) == Done(args, u)
  {
    hide ExprAt, Onward;
  }

  // Struct and enum literals

  lemma {:induction false} BracedTokens(names: seq<string>, values: Trees, s: State)
    requires At(s.tokens, s.pos, RenderBraced(names, values))
    ensures var n := |RenderInits(names, values)|;
      && |RenderBraced(names, values)| == n + 2 && KindAt(s) == LBrace && At(s.tokens, s.pos + 1, RenderInits(names, values))
      && After(s, 1 + n) == RBrace
  {
    hide At;
    AtCons(s.tokens, s.pos, Tok(LBrace), RenderInits(names, values) + [Tok(RBrace)]);
    AtLast(s.tokens, s.pos + 1, RenderInits(names, values), Tok(RBrace));
  }

  /** `Name = Expr, ... }` after the opening brace. */
  lemma {:induction false} BracedParses(names: seq<string>, values: Trees, s: State, env: Names) returns (u: State)
    requires Sees(s.scopes, s.current, env) && ShapedAll(values, env) && |names| == Length(values)
    requires At(s.tokens, s.pos, RenderBraced(names, values))
    ensures KindAt(s) == LBrace && InitsAt(Past(s)) == Done(Inits(names, values), u) && Went(s, u, |RenderBraced(names, values)|)
    decreases values, 2
  {
    hide InitsAt, At, Onward, Sees, Went, ShapedAll, RenderBraced, RenderInits;
    BracedTokens(names, values, s);
    var n := |RenderInits(names, values)|;
    PassWent(s, 1, env);
    var s1 := Past(s);
    var v := s1;
    if values.ConsTree? {
      InitTokens(names, values, s1);
      v := InitsParse(names, values, s1, env);
    } else {
      NoInits(names);
      PassWent(s1, 0, env);
    }
    WentParts(s1, v, n);
    WentThen(s, s1, v, 1, n);
    PassMore(s, v, 1 + n, 1);
    u := Past(v);
    BracedStep(names, values, s1, v);
  }

  lemma {:induction false} NoInits(names: seq<string>)
    ensures RenderInits(names, NoTrees) == []
  {
  }

  lemma {:induction false} BracedStep(names: seq<string>, values: Trees, s: State, v: State)
    requires if values.NoTrees? then names == [] && v == s else KindAt(s) == Identifier && InitListAt(s) == Done(Inits(names, values), v)
    requires KindAt(v) == RBrace
    ensures InitsAt(s) == Done(Inits(names, values), Past(v))
  {
    hide InitListAt, Onward;
  }

  lemma {:induction false} InitTokens(names: seq<string>, values: Trees, s: State)
    requires values.ConsTree? && |names| > 0 && At(s.tokens, s.pos, RenderInits(names, values))
    ensures var n := |Render(values.head)|;
      && KindAt(s) == Identifier && TextAt(s) == names[0] && After(s, 1) == Equal && At(s.tokens, s.pos + 2, Render(values.head))
      && (if values.tail.NoTrees? then |RenderInits(names, values)| == 2 + n
          else && |RenderInits(names, values)| == 2 + n + 1 + |RenderInits(names[1..], values.tail)| && After(s, 2 + n) == Comma
               && At(s.tokens, s.pos + 2 + n + 1, RenderInits(names[1..], values.tail)))
  {
    hide At;
    var e := Render(values.head);
    if values.tail.NoTrees? {
      assert e + [] == e;
      AtTwo(s.tokens, s.pos, Token(Identifier, names[0]), Tok(Equal), e);
    } else {
      var rest := RenderInits(names[1..], values.tail);
      AtTwo(s.tokens, s.pos, Token(Identifier, names[0]), Tok(Equal), e + ([Tok(Comma)] + rest));
      AtMiddle(s.tokens, s.pos + 2, e, Tok(Comma), rest);
    }
  }

  lemma {:induction false} InitsParse(names: seq<string>, values: Trees, s: State, env: Names) returns (u: State)
    requires values.ConsTree? && Sees(s.scopes, s.current, env) && ShapedAll(values, env) && |names| == Length(values)
    requires At(s.tokens, s.pos, RenderInits(names, values)) && After(s, |RenderInits(names, values)|) == RBrace
    ensures InitListAt(s) == Done(Inits(names, values), u) && Went(s, u, |RenderInits(names, values)|)
    decreases values, 0
  {
    hide ExprAt, InitListAt, At, Onward, Sees, Went, Render, RenderInits;
    InitTokens(names, values, s);
    var n := |Render(values.head)|;
    PassWent(s, 2, env);
    var s1 := s.(pos := s.pos + 2);
    var s2 := AssignParses(values.head, s1, env);
    WentParts(s1, s2, n);
    WentThen(s, s1, s2, 2, n);
    u := s2;
    if values.tail.ConsTree? {
      PassMore(s, s2, 2 + n, 1);
      WentSees(s, Past(s2), 2 + n + 1, env);
      u := InitsParse(names[1..], values.tail, Past(s2), env);
      WentThen(s, Past(s2), u, 2 + n + 1, |RenderInits(names[1..], values.tail)|);
    }
    InitsStep(names, values, s, s2, u);
  }

  lemma {:induction false} InitsStep(names: seq<string>, values: Trees, s: State, s2: State, u: State)
    requires values.ConsTree? && |names| == Length(values)
    requires KindAt(s) == Identifier && TextAt(s) == names[0] && KindAt(Past(s)) == Equal && ExprAt(Past(Past(s))) == Done(values.head, s2)
    requires if values.tail.NoTrees? then KindAt(s2) != Comma && u == s2
             else KindAt(s2) == Comma && InitListAt(Past(s2)) == Done(Inits(names[1..], values.tail), u)
    ensures InitListAt(s) == Done(Inits(names, values), u)
  {
    hide ExprAt, Onward;
    if values.tail.NoTrees? {
      assert names == [names[0]];
    } else {
      assert names == [names[0]] + names[1..];
    }
  }

  lemma {:induction false} StructTokens(e: Tree, s: State)
    requires e.StructLit? && At(s.tokens, s.pos, Render(e))
    ensures KindAt(s) == Identifier && TextAt(s) == e.struct && At(s.tokens, s.pos + 1, RenderBraced(e.fields, e.values))
    ensures |Render(e)| == 1 + |RenderBraced(e.fields, e.values)|
  {
    hide At;
    AtCons(s.tokens, s.pos, Token(Identifier, e.struct), RenderBraced(e.fields, e.values));
  }

  lemma {:induction false} StructParses(e: Tree, s: State, env: Names) returns (u: State)
    requires e.StructLit? && Sees(s.scopes, s.current, env) && Shaped(e, env) && At(s.tokens, s.pos, Render(e))
    ensures StructLitAt(s) == Done(e, u) && Went(s, u, |Render(e)|)
    decreases e, 0, 0
  {
    hide At, Onward, Sees, Went, InitsAt, Render, RenderBraced, ShapedAll, StructLitAt;
    StructTokens(e, s);
    PassWent(s, 1, env);
    u := BracedParses(e.fields, e.values, Past(s), env);
    WentThen(s, Past(s), u, 1, |RenderBraced(e.fields, e.values)|);
    StructStep(e, s, u);
  }

  lemma {:induction false} StructStep(e: Tree, s: State, u: State)
    requires e.StructLit? && KindAt(s) == Identifier && TextAt(s) == e.struct && KindAt(Past(s)) == LBrace
    requires InitsAt(Past(Past(s))) == Done(Inits(e.fields, e.values), u)
    ensures StructLitAt(s) == Done(e, u)
  {
    hide InitsAt, Onward;
  }

  lemma {:induction false} StructIsPrimary(e: Tree, s: State, u: State, env: Names)
    requires e.StructLit? && Sees(s.scopes, s.current, env) && Shaped(e, env) && At(s.tokens, s.pos, Render(e)) && StructLitAt(s) == Done(e, u)
    ensures PrimaryAt(s) == Done(e, u)
  {
    hide At, Onward, Sees, ExprAt, NewAt, CastAt, SizeofAt, StructLitAt, EnumLitAt, StructKnown, EnumKnown, Render, RenderInits, ShapedAll;
    StructTokens(e, s);
    BracedTokens(e.fields, e.values, Past(s));
    TagsSeen(s, env, e.struct);
  }

  lemma {:induction false} EnumTokens(e: Tree, s: State)
    requires e.EnumLit? && At(s.tokens, s.pos, Render(e))
    ensures KindAt(s) == Identifier && TextAt(s) == e.enum && After(s, 1) == ColonColon
    ensures After(s, 2) == Identifier && TextAt(s.(pos := s.pos + 2)) == e.variant
    ensures if e.fields == [] then |Render(e)| == 3
            else |Render(e)| == 3 + |RenderBraced(e.fields, e.values)| && At(s.tokens, s.pos + 3, RenderBraced(e.fields, e.values))
  {
    hide At;
    var a, b, c := Token(Identifier, e.enum), Tok(ColonColon), Token(Identifier, e.variant);
    var rest := if e.fields == [] then [] else RenderBraced(e.fields, e.values);
    assert [a, b, c] + rest == [a, b] + ([c] + rest);
    AtTwo(s.tokens, s.pos, a, b, [c] + rest);
    AtCons(s.tokens, s.pos + 2, c, rest);
  }

  lemma {:induction false} EnumParses(e: Tree, s: State, env: Names) returns (u: State)
    requires e.EnumLit? && Sees(s.scopes, s.current, env) && Shaped(e, env) && At(s.tokens, s.pos, Render(e))
    requires After(s, |Render(e)|) != LBrace
    ensures PrimaryAt(s) == Done(e, u) && Went(s, u, |Render(e)|)
    decreases e, 0, 0
  {
    hide At, Onward, Sees, Went, InitsAt, Render, RenderBraced, ShapedAll, PrimaryAt, EnumKnown;
    EnumTokens(e, s);
    TagsSeen(s, env, e.enum);
    PassWent(s, 3, env);
    var s3 := s.(pos := s.pos + 3);
    u := s3;
    if e.fields != [] {
      u := BracedParses(e.fields, e.values, s3, env);
      WentThen(s, s3, u, 3, |RenderBraced(e.fields, e.values)|);
    }
    EnumStep(e, s, u);
  }

  lemma EnumStep(e: Tree, s: State, u: State)
    requires e.EnumLit? && |e.fields| == Length(e.values)
    requires KindAt(s) == Identifier && TextAt(s) == e.enum && EnumKnown(s, e.enum) && After(s, 1) == ColonColon
    requires After(s, 2) == Identifier && TextAt(s.(pos := s.pos + 2)) == e.variant
    requires var s3 := s.(pos := s.pos + 3);
      if e.fields == [] then KindAt(s3) != LBrace && u == s3 else KindAt(s3) == LBrace && InitsAt(Past(s3)) == Done(Inits(e.fields, e.values), u)
    ensures PrimaryAt(s) == Done(e, u)
  {
    hide Onward, ExprAt, NewAt, CastAt, SizeofAt, StructLitAt, InitsAt, EnumKnown, StructKnown;
    assert NextIs(s, ColonColon) && Past(Past(s)) == s.(pos := s.pos + 2) && Past(Past(Past(s))) == s.(pos := s.pos + 3);
    if e.fields == [] {
      assert e.values.NoTrees?;
    }
    assert EnumLitAt(s) == Done(e, u);
  }

  // new, cast, sizeof

  lemma {:induction false} NewTokens(e: Tree, s: State, env: Names)
    requires e.NewOf? && Shaped(e, env) && At(s.tokens, s.pos, Render(e))
    ensures KindAt(s) == KwNew && After(s, 1) == LAngle
    ensures var m, t, i := |MutTokens(e.isMut)|, |RenderType(e.typ)|, |RenderOpt(e.init)|;
      && |Render(e)| == 2 + m + t + 2 + i + 1
      && Prefix(s.(pos := s.pos + 2)) == (e.isMut, s.(pos := s.pos + 2 + m)) && At(s.tokens, s.pos + 2 + m, RenderType(e.typ))
      && After(s, 2 + m + t) == RAngle && After(s, 2 + m + t + 1) == (if e.isArray then LBrack else LParen)
      && At(s.tokens, s.pos + 2 + m + t + 2, RenderOpt(e.init))
      && After(s, 2 + m + t + 2 + i) == (if e.isArray then RBrack else RParen)
  {
    hide At, Prefix, Onward, RenderType, RenderOpt, MutTokens, TypeShaped, FitsNew;
    var m, t, i := MutTokens(e.isMut), RenderType(e.typ), RenderOpt(e.init);
    var open, close := if e.isArray then Tok(LBrack) else Tok(LParen), if e.isArray then Tok(RBrack) else Tok(RParen);
    assert Render(e) == [Tok(KwNew), Tok(LAngle)] + (m + (t + ([Tok(RAngle)] + ([open] + (i + [close])))));
    AtTwo(s.tokens, s.pos, Tok(KwNew), Tok(LAngle), m + (t + ([Tok(RAngle)] + ([open] + (i + [close])))));
    TypeStarts(e.typ, env);
    PrefixAt(s.(pos := s.pos + 2), e.isMut, t + ([Tok(RAngle)] + ([open] + (i + [close]))));
    AtMiddle(s.tokens, s.pos + 2 + |m|, t, Tok(RAngle), [open] + (i + [close]));
    AtCons(s.tokens, s.pos + 2 + |m| + |t| + 1, open, i + [close]);
    AtLast(s.tokens, s.pos + 2 + |m| + |t| + 2, i, close);
  }

  lemma {:induction false} NewParses(e: Tree, s: State, env: Names) returns (u: State)
    requires e.NewOf? && Sees(s.scopes, s.current, env) && Shaped(e, env) && At(s.tokens, s.pos, Render(e))
    ensures PrimaryAt(s) == Done(e, u) && Went(s, u, |Render(e)|)
    decreases e, 0, 0
  {
    hide At, Onward, Sees, Went, Render, RenderType, RenderOpt, MutTokens, PrimaryAt, TypeAt, NewRest, Prefix, TypeShaped, FitsNew;
    NewTokens(e, s, env);
    var m, t, i := |MutTokens(e.isMut)|, |RenderType(e.typ)|, |RenderOpt(e.init)|;
    var s2 := s.(pos := s.pos + 2 + m);
    PassWent(s, 2 + m, env);
    var s3 := TypeParses(e.typ, s2, env);
    WentParts(s2, s3, t);
    WentThen(s, s2, s3, 2 + m, t);
    PassMore(s, s3, 2 + m + t, 1);
    WentSees(s, Past(s3), 2 + m + t + 1, env);
    u := NewEnds(e, Past(s3), env);
    WentThen(s, Past(s3), u, 2 + m + t + 1, 1 + i + 1);
    NewStep(e, s, s2, s3, u);
  }

  /** What follows the type. */
  lemma {:induction false} NewEnds(e: Tree, s: State, env: Names) returns (u: State)
    requires e.NewOf? && Sees(s.scopes, s.current, env) && Shaped(e, env) && KindAt(s) == if e.isArray then LBrack else LParen
    requires At(s.tokens, s.pos + 1, RenderOpt(e.init)) && After(s, 1 + |RenderOpt(e.init)|) == if e.isArray then RBrack else RParen
    ensures NewRest(e.isMut, e.typ, s) == Done(e, u) && Went(s, u, 1 + |RenderOpt(e.init)| + 1)
    decreases e.init, 1
  {
    hide At, Onward, Sees, Went, Render, RenderOpt, ExprAt, StructLitAt, StructKnown, NewRest, TypeShaped, FitsNew;
    var i := |RenderOpt(e.init)|;
    var s1 := Past(s);
    PassWent(s, 1, env);
    var v := s1;
    if e.init.Some? {
      SomeTokens(e.init.value);
      v := InitialParses(e, s1, env);
    } else {
      NoTokens();
      PassWent(s1, 0, env);
    }
    WentParts(s1, v, i);
    WentThen(s, s1, v, 1, i);
    PassMore(s, v, 1 + i, 1);
    u := Past(v);
    NewRestStep(e, s, v);
  }

  lemma NoTokens()
    ensures RenderOpt(None) == []
  {
  }

  lemma {:induction false} SomeTokens(e: Tree)
    ensures RenderOpt(Some(e)) == Render(e)
  {
  }

  /** The number of elements or the initial value. */
  lemma {:induction false} InitialParses(e: Tree, s: State, env: Names) returns (u: State)
    requires e.NewOf? && e.init.Some? && Shaped(e, env) && Sees(s.scopes, s.current, env)
    requires At(s.tokens, s.pos, Render(e.init.value)) && After(s, |Render(e.init.value)|) == (if e.isArray then RBrack else RParen)
    ensures KindAt(s) != RParen && Went(s, u, |Render(e.init.value)|)
    ensures if !e.isArray && StructKnown(s, TextAt(s)) then StructLitAt(s) == Done(e.init.value, u) else ExprAt(s) == Done(e.init.value, u)
    decreases e.init, 0
  {
    hide At, Onward, Sees, Went, Render, ExprAt, StructLitAt, StructKnown, TypeShaped;
    var x := e.init.value;
    StartsAt(x, s, env);
    AtFirst(s.tokens, s.pos, Render(x));
    TagsSeen(s, env, TextAt(s));
    if !e.isArray && x.StructLit? {
      StructTokens(x, s);
      StructNamed(x, env);
      u := StructParses(x, s, env);
    } else {
      u := AssignParses(x, s, env);
    }
  }

  lemma {:induction false} StructNamed(e: Tree, env: Names)
    requires e.StructLit? && Shaped(e, env)
    ensures e.struct in env.structs
  {
  }

  lemma {:induction false} NewRestStep(e: Tree, s: State, v: State)
    requires e.NewOf? && (e.isArray ==> e.init.Some?) && KindAt(s) == if e.isArray then LBrack else LParen
    requires KindAt(v) == if e.isArray then RBrack else RParen
    requires if e.init.None? then v == Past(s)
             else if !e.isArray && StructKnown(Past(s), TextAt(Past(s))) then StructLitAt(Past(s)) == Done(e.init.value, v)
             else ExprAt(Past(s)) == Done(e.init.value, v)
    requires e.init.Some? ==> KindAt(Past(s)) != RParen
    ensures NewRest(e.isMut, e.typ, s) == Done(e, Past(v))
  {
    hide Onward, ExprAt, StructLitAt, StructKnown;
  }

  lemma {:induction false} NewStep(e: Tree, s: State, s2: State, s3: State, u: State)
    requires e.NewOf? && KindAt(s) == KwNew && After(s, 1) == LAngle && Prefix(s.(pos := s.pos + 2)) == (e.isMut, s2)
    requires TypeAt(s2) == Done(e.typ, s3) && KindAt(s3) == RAngle && NewRest(e.isMut, e.typ, Past(s3)) == Done(e, u)
    ensures PrimaryAt(s) == Done(e, u)
  {
    hide Onward, ExprAt, NameAt, CastAt, SizeofAt, NewRest, TypeAt, Prefix;
  }

  lemma {:induction false} CastTokens(e: Tree, s: State)
    requires e.CastTo? && At(s.tokens, s.pos, Render(e))
    ensures KindAt(s) == KwCast && After(s, 1) == LAngle && At(s.tokens, s.pos + 2, RenderType(e.typ))
    ensures var t, x := |RenderType(e.typ)|, |Render(e.expr)|;
      && |Render(e)| == 2 + t + 2 + x + 1 && After(s, 2 + t) == RAngle && After(s, 2 + t + 1) == LParen
      && At(s.tokens, s.pos + 2 + t + 2, Render(e.expr)) && After(s, 2 + t + 2 + x) == RParen
  {
    hide At, RenderType;
    var t, x := RenderType(e.typ), Render(e.expr);
    AtTwo(s.tokens, s.pos, Tok(KwCast), Tok(LAngle), t + ([Tok(RAngle), Tok(LParen)] + (x + [Tok(RParen)])));
    AtSplit(s.tokens, s.pos + 2, t, [Tok(RAngle), Tok(LParen)] + (x + [Tok(RParen)]));
    AtTwo(s.tokens, s.pos + 2 + |t|, Tok(RAngle), Tok(LParen), x + [Tok(RParen)]);
    AtLast(s.tokens, s.pos + 2 + |t| + 2, x, Tok(RParen));
  }

  lemma {:induction false} CastParses(e: Tree, s: State, env: Names) returns (u: State)
    requires e.CastTo? && Sees(s.scopes, s.current, env) && Shaped(e, env) && At(s.tokens, s.pos, Render(e))
    ensures PrimaryAt(s) == Done(e, u) && Went(s, u, |Render(e)|)
    decreases e, 0, 0
  {
    hide At, Onward, Sees, Went, Render, RenderType, PrimaryAt, TypeAt, ExprAt, TypeShaped;
    CastTokens(e, s);
    var t, x := |RenderType(e.typ)|, |Render(e.expr)|;
    var s2 := s.(pos := s.pos + 2);
    PassWent(s, 2, env);
    var s3 := TypeParses(e.typ, s2, env);
    WentParts(s2, s3, t);
    WentThen(s, s2, s3, 2, t);
    PassMore(s, s3, 2 + t, 2);
    var s5 := s3.(pos := s3.pos + 2);
    WentSees(s, s5, 2 + t + 2, env);
    var s6 := AssignParses(e.expr, s5, env);
    WentParts(s5, s6, x);
    WentThen(s, s5, s6, 2 + t + 2, x);
    PassMore(s, s6, 2 + t + 2 + x, 1);
    u := Past(s6);
    CastStep(e, s, s3, s6);
  }

  lemma AngledStep(s: State, t: TypeTree, s1: State)
    requires KindAt(s) == LAngle && TypeAt(Past(s)) == Done(t, s1) && KindAt(s1) == RAngle
    ensures AngledAt(s) == Done(t, Past(s1))
  {
    hide Onward, TypeAt;
  }

  lemma {:induction false} CastStep(e: Tree, s: State, s3: State, s6: State)
    requires e.CastTo? && KindAt(s) == KwCast && After(s, 1) == LAngle && TypeAt(s.(pos := s.pos + 2)) == Done(e.typ, s3)
    requires KindAt(s3) == RAngle && KindAt(Past(s3)) == LParen && ExprAt(Past(Past(s3))) == Done(e.expr, s6) && KindAt(s6) == RParen
    ensures PrimaryAt(s) == Done(e, Past(s6))
  {
    hide Onward, ExprAt, NameAt, NewAt, SizeofAt, AngledAt, TypeAt;
    AngledStep(Past(s), e.typ, s3);
  }

  lemma {:induction false} SizeofParses(e: Tree, s: State, env: Names) returns (u: State)
    requires e.SizeOf? && Sees(s.scopes, s.current, env) && Shaped(e, env) && At(s.tokens, s.pos, Render(e))
    ensures PrimaryAt(s) == Done(e, u) && Went(s, u, |Render(e)|)
    decreases e, 0, 0
  {
    hide At, Onward, Sees, Went, RenderType, PrimaryAt, TypeAt, TypeShaped;
    var t := RenderType(e.typ);
    AtTwo(s.tokens, s.pos, Tok(KwSizeof), Tok(LAngle), t + [Tok(RAngle)]);
    AtLast(s.tokens, s.pos + 2, t, Tok(RAngle));
    var s2 := s.(pos := s.pos + 2);
    PassWent(s, 2, env);
    var s3 := TypeParses(e.typ, s2, env);
    WentParts(s2, s3, |t|);
    WentThen(s, s2, s3, 2, |t|);
    PassMore(s, s3, 2 + |t|, 1);
    u := Past(s3);
    SizeofStep(e, s, s3);
  }

  lemma {:induction false} SizeofStep(e: Tree, s: State, s3: State)
    requires e.SizeOf? && KindAt(s) == KwSizeof && After(s, 1) == LAngle && TypeAt(s.(pos := s.pos + 2)) == Done(e.typ, s3) && KindAt(s3) == RAngle
    ensures PrimaryAt(s) == Done(e, Past(s3))
  {
    hide Onward, ExprAt, NameAt, NewAt, CastAt, AngledAt, TypeAt;
    AngledStep(Past(s), e.typ, s3);
  }

  // The round trip

  /** Anywhere in a token stream, before any token that does not continue an expression. */
  lemma {:induction false} RoundTrip(e: Tree, before: seq<Token>, after: seq<Token>, scopes: seq<Scope>, current: nat, env: Names) returns (u: State)
    requires Sees(scopes, current, env) && Shaped(e, env) && |after| > 0 && Stops(0, after[0].kind)
    ensures var s := State(before + Render(e) + after, |before|, scopes, current);
      ExprAt(s) == Done(e, u) && Went(s, u, |Render(e)|)
  {
    hide ExprAt, Shaped, Render, Sees, Went, Onward, OpAt, OpLevel;
    var s := State(before + Render(e) + after, |before|, scopes, current);
    assert s.tokens[|before|..|before| + |Render(e)|] == Render(e);
    assert After(s, |Render(e)|) == after[0].kind;
    u := AssignParses(e, s, env);
  }

  /** The grammar is unambiguous: different trees have different tokens. */
  lemma {:induction false} RenderInjective(d: Tree, e: Tree, scopes: seq<Scope>, current: nat, env: Names)
    requires Sees(scopes, current, env) && Shaped(d, env) && Shaped(e, env) && Render(d) == Render(e)
    ensures d == e
  {
    hide ExprAt, Shaped, Render, Sees, Went, Onward;
    var u := RoundTrip(d, [], [Tok(Semicolon)], scopes, current, env);
    var v := RoundTrip(e, [], [Tok(Semicolon)], scopes, current, env);
  }
}
