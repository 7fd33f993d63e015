/** Types parse back from their tokens, whatever follows. */
module TypeRoundTrip {
  import opened Options
  import opened Tokens
  import opened Scopes
  import opened ExprSyntax
  import opened ParserState
  import opened Grammar
  import opened Visibility
  import opened Rendering

  /** From `s` to `u` over `n` tokens; of the symbol table at most printed pointer types are new. */
  ghost predicate Went(s: State, u: State, n: nat) {
    u == State(s.tokens, s.pos + n, u.scopes, s.current) && Became(s.scopes, u.scopes, s.current, {})
  }

  lemma WentThen(s: State, u: State, v: State, n: nat, m: nat)
    requires Went(s, u, n) && Went(u, v, m)
    ensures Went(s, v, n + m)
  {
    hide Became;
    BecameTrans(s.scopes, u.scopes, v.scopes, s.current, {}, {});
    var none: set<string> := {};
    assert none + none == none;
  }

  lemma WentParts(s: State, u: State, n: nat)
    requires Went(s, u, n)
    ensures u == State(s.tokens, s.pos + n, u.scopes, s.current)
  {
    hide Became;
  }

  lemma WentSees(s: State, u: State, n: nat, e: Names)
    requires Went(s, u, n) && Sees(s.scopes, s.current, e)
    ensures Sees(u.scopes, u.current, e)
  {
    hide Became, Sees;
    SeesSame(s.scopes, u.scopes, s.current, e);
  }

  lemma PassWent(s: State, n: nat, e: Names)
    requires Sees(s.scopes, s.current, e)
    ensures Went(s, s.(pos := s.pos + n), n)
  {
    BecameSelf(s.scopes, s.current);
  }

  lemma PassMore(s: State, u: State, n: nat, m: nat)
    requires Went(s, u, n)
    ensures Went(s, u.(pos := u.pos + m), n + m)
  {
    hide Became;
  }

  lemma {:induction false} TypeStarts(t: TypeTree, e: Names)
    requires TypeShaped(t, e)
    ensures var k := RenderType(t)[0].kind; IsBasicType(k) || k == Identifier || k == KwPtr || k == KwFunc
  {
  }

  /** Every type, wherever its tokens stand. */
  lemma {:induction false} TypeParses(t: TypeTree, s: State, e: Names) returns (u: State)
    requires Sees(s.scopes, s.current, e) && TypeShaped(t, e) && At(s.tokens, s.pos, RenderType(t))
    ensures TypeAt(s) == Done(t, u) && Went(s, u, |RenderType(t)|)
    decreases t, 1
  {
    hide At, Sees, Went, TypeAt, Onward;
    AtFirst(s.tokens, s.pos, RenderType(t));
    PassWent(s, 1, e);
    match t
    case BasicType(k) => u := BasicParses(k, s, e);
    case NamedType(n, shown) =>
      NamedMeans(s, e, n);
      u := Past(s);
      NamedStep(s);
    case PointerType(isMut, to) => u := PointerParses(t, s, e);
    case FunctionType(ps, ret) => u := FunctionParses(t, s, e);
  }

  lemma BasicParses(k: Kind, s: State, e: Names) returns (u: State)
    requires Sees(s.scopes, s.current, e) && IsBasicType(k) && KindAt(s) == k
    ensures TypeAt(s) == Done(BasicType(k), u) && Went(s, u, 1)
  {
    hide Onward, Reaches, Good, Left, PointerAt, FunctionTypeAt, Known;
    PassWent(s, 1, e);
    u := Past(s);
    if k == TyString {
      StringIsPrinted();
      assert BasicName(k)[..4] == "ptr<";
      KnownBecame(Past(s), 0, BasicName(k));
      u := Known(Past(s), 0, BasicName(k));
    }
  }

  lemma NamedMeans(s: State, e: Names, n: string)
    requires Sees(s.scopes, s.current, e) && Visible(n) && n in e.types
    ensures TypeFrom(s, s.current, n) == Some(e.types[n])
  {
    hide Chain, HasStruct, HasEnum;
    assert Meant(s.scopes, s.current, n) == Some(e.types[n]);
  }

  lemma {:induction false} NamedStep(s: State)
    requires KindAt(s) == Identifier && TypeFrom(s, s.current, TextAt(s)).Some? && TypeFrom(s, s.current, TextAt(s)).value.TypeSym?
    ensures TypeAt(s) == Done(NamedType(TextAt(s), TypeFrom(s, s.current, TextAt(s)).value.shown), Past(s))
  {
    hide Onward, Reaches, Good, Left, PointerAt, FunctionTypeAt, Known, TypeFrom;
  }

  lemma PrefixReads(s: State, isMut: bool)
    requires if isMut then KindAt(s) == KwMut else KindAt(s) != KwMut && KindAt(s) != KwImm
    ensures Prefix(s) == (isMut, s.(pos := s.pos + |MutTokens(isMut)|))
  {
    hide Onward, Reaches, Good, Left;
  }

  /** `mut` before something that starts with neither `mut` nor `imm`. */
  lemma PrefixAt(s: State, isMut: bool, rest: seq<Token>)
    requires At(s.tokens, s.pos, MutTokens(isMut) + rest) && |rest| > 0 && rest[0].kind != KwMut && rest[0].kind != KwImm
    ensures var u := s.(pos := s.pos + |MutTokens(isMut)|);
      Prefix(s) == (isMut, u) && At(u.tokens, u.pos, rest) && KindAt(u) == rest[0].kind
  {
    hide At, Prefix;
    AtSplit(s.tokens, s.pos, MutTokens(isMut), rest);
    AtFirst(s.tokens, s.pos + |MutTokens(isMut)|, rest);
    if isMut {
      AtFirst(s.tokens, s.pos, MutTokens(isMut));
    }
    PrefixReads(s, isMut);
  }

  lemma {:induction false} PointerTokens(t: TypeTree, s: State, e: Names)
    requires t.PointerType? && TypeShaped(t, e) && At(s.tokens, s.pos, RenderType(t))
    ensures KindAt(s) == KwPtr && KindAt(Past(s)) == LAngle
    ensures var m, n := |MutTokens(t.isMut)|, |RenderType(t.to)|;
      && |RenderType(t)| == 2 + m + n + 1
      && Prefix(Past(Past(s))) == (t.isMut, s.(pos := s.pos + 2 + m)) && At(s.tokens, s.pos + 2 + m, RenderType(t.to))
      && KindAt(s.(pos := s.pos + 2 + m + n)) == RAngle
  {
    hide At, Prefix, Onward, MutTokens;
    var m, r := MutTokens(t.isMut), RenderType(t.to);
    AtTwo(s.tokens, s.pos, Tok(KwPtr), Tok(LAngle), m + (r + [Tok(RAngle)]));
    TypeStarts(t.to, e);
    PrefixAt(Past(Past(s)), t.isMut, r + [Tok(RAngle)]);
    AtSplit(s.tokens, s.pos + 2 + |m|, r, [Tok(RAngle)]);
    AtFirst(s.tokens, s.pos + 2 + |m| + |r|, [Tok(RAngle)]);
  }

  lemma {:induction false} PointerParses(t: TypeTree, s: State, e: Names) returns (u: State)
    requires t.PointerType? && Sees(s.scopes, s.current, e) && TypeShaped(t, e) && At(s.tokens, s.pos, RenderType(t))
    ensures TypeAt(s) == Done(t, u) && Went(s, u, |RenderType(t)|)
    decreases t, 0
  {
    hide At, Sees, Went, TypeAt, Onward, Prefix, Known, RenderType, MutTokens, PointerName;
    PointerTokens(t, s, e);
    var k, n := 2 + |MutTokens(t.isMut)|, |RenderType(t.to)|;
    PassWent(s, k, e);
    var s2 := s.(pos := s.pos + k);
    var v := TypeParses(t.to, s2, e);
    WentParts(s2, v, n);
    WentThen(s, s2, v, k, n);
    PassMore(s, v, k + n, 1);
    var w, name := Past(v), PointerName(t.isMut, Printed(t.to));
    WentSees(s, w, k + n + 1, e);
    PointerHidden(t.isMut, Printed(t.to));
    u := Known(w, w.current, name);
    KnownWent(w, name, e);
    WentThen(s, w, u, k + n + 1, 0);
    PointerStep(s, s2, t.isMut, t.to, v);
  }

  lemma PointerHidden(isMut: bool, to: string)
    ensures !Visible(PointerName(isMut, to))
  {
    assert PointerName(isMut, to)[..4] == "ptr<";
  }

  lemma KnownWent(s: State, name: string, e: Names)
    requires Sees(s.scopes, s.current, e) && !Plain(name) && !Visible(name)
    ensures Went(s, Known(s, s.current, name), 0)
  {
    hide Known, Became, Visible, Plain, Onward;
    KnownBecame(s, s.current, name);
  }

  lemma {:induction false} PointerStep(s: State, s2: State, isMut: bool, to: TypeTree, v: State)
    requires KindAt(s) == KwPtr && KindAt(Past(s)) == LAngle && Prefix(Past(Past(s))) == (isMut, s2)
    requires TypeAt(s2) == Done(to, v) && KindAt(v) == RAngle
    ensures TypeAt(s) == Done(PointerType(isMut, to), Known(Past(v), Past(v).current, PointerName(isMut, Printed(to))))
  {
    hide Onward, Reaches, Good, Left, FunctionTypeAt, Known, Prefix, Printed, PointerName;
  }

  lemma {:induction false} FunctionTokens(t: TypeTree, s: State, e: Names)
    requires t.FunctionType? && TypeShaped(t, e) && At(s.tokens, s.pos, RenderType(t))
    ensures KindAt(s) == KwFunc && KindAt(Past(s)) == LParen
    ensures var p, n := |RenderTypeParams(t.params)|, |RenderType(t.ret)|;
      && |RenderType(t)| == 2 + p + 2 + n && At(s.tokens, s.pos + 2, RenderTypeParams(t.params))
      && KindAt(s.(pos := s.pos + 2 + p)) == RParen && KindAt(s.(pos := s.pos + 2 + p + 1)) == Arrow
      && At(s.tokens, s.pos + 2 + p + 2, RenderType(t.ret))
    ensures t.params.ConsParam? ==> KindAt(Past(Past(s))) != RParen
  {
    hide At, Onward;
    var ps, r := RenderTypeParams(t.params), RenderType(t.ret);
    AtTwo(s.tokens, s.pos, Tok(KwFunc), Tok(LParen), ps + ([Tok(RParen), Tok(Arrow)] + r));
    AtSplit(s.tokens, s.pos + 2, ps, [Tok(RParen), Tok(Arrow)] + r);
    AtTwo(s.tokens, s.pos + 2 + |ps|, Tok(RParen), Tok(Arrow), r);
    if t.params.ConsParam? {
      ParamsStart(t.params, e);
      AtFirst(s.tokens, s.pos + 2, ps);
    }
  }

  lemma {:induction false} FunctionParses(t: TypeTree, s: State, e: Names) returns (u: State)
    requires t.FunctionType? && Sees(s.scopes, s.current, e) && TypeShaped(t, e) && At(s.tokens, s.pos, RenderType(t))
    ensures TypeAt(s) == Done(t, u) && Went(s, u, |RenderType(t)|)
    decreases t, 0
  {
    hide At, Sees, Went, TypeAt, TypeList, Onward, Printed, RenderType, RenderTypeParams;
    FunctionTokens(t, s, e);
    var p, n := |RenderTypeParams(t.params)|, |RenderType(t.ret)|;
    var s1 := s.(pos := s.pos + 2);
    PassWent(s, 2, e);
    var v := s1;
    if t.params.ConsParam? {
      v := ParamsParse(t.params, s1, e);
    } else {
      NoParamTokens();
      PassWent(s1, 0, e);
    }
    WentParts(s1, v, p);
    WentThen(s, s1, v, 2, p);
    PassMore(s, v, 2 + p, 2);
    var w := v.(pos := v.pos + 2);
    WentSees(s, w, 2 + p + 2, e);
    u := TypeParses(t.ret, w, e);
    WentParts(w, u, n);
    WentThen(s, w, u, 2 + p + 2, n);
    WentSees(s, u, 2 + p + 2 + n, e);
    SignatureKnown(u, e, Printed(t));
    PrintedSignature(t);
    FunctionStep(s, t, v, u);
  }

  lemma NoParamTokens()
    ensures |RenderTypeParams(NoParams)| == 0
  {
  }

  lemma {:induction false} ParamsStart(ps: TypeParams, e: Names)
    requires ps.ConsParam? && TypeParamsShaped(ps, e)
    ensures |RenderTypeParams(ps)| > 0 && RenderTypeParams(ps)[0].kind != RParen
  {
    TypeStarts(ps.typ, e);
  }

  lemma {:induction false} PrintedSignature(t: TypeTree)
    requires t.FunctionType?
    ensures SignatureName(Printed(t))
  {
    var n := Printed(t);
    assert n == "func(" + PrintedParams(t.params) + ")->" + Printed(t.ret);
    assert n[4] == '(' && n[0] == 'f';
    assert n[..4][0] != "ptr<"[0];
  }

  lemma SignatureKnown(s: State, e: Names, n: string)
    requires Sees(s.scopes, s.current, e) && n in e.sigs
    ensures SignatureName(n) ==> TypeFrom(s, 0, n).Some?
  {
    hide Chain, HasStruct, HasEnum;
    assert SignatureName(n) ==> Meant(s.scopes, 0, n).Some?;
  }

  lemma {:induction false} FunctionStep(s: State, t: TypeTree, v: State, u: State)
    requires t.FunctionType? && KindAt(s) == KwFunc && KindAt(Past(s)) == LParen
    requires if t.params.NoParams? then v == Past(Past(s)) else KindAt(Past(Past(s))) != RParen && TypeList(Past(Past(s))) == Done(t.params, v)
    requires KindAt(v) == RParen && KindAt(Past(v)) == Arrow && TypeAt(Past(Past(v))) == Done(t.ret, u) && TypeFrom(u, 0, Printed(t)).Some?
    ensures TypeAt(s) == Done(t, u)
  {
    hide Onward, Reaches, Good, Left, PointerAt, TypeList, TypeFrom, Printed;
  }

  lemma {:induction false} ParamsTokens(ps: TypeParams, s: State, e: Names)
    requires ps.ConsParam? && TypeParamsShaped(ps, e) && At(s.tokens, s.pos, RenderTypeParams(ps))
    ensures var m, n := if ps.isMut then 2 else 0, |RenderType(ps.typ)|;
      && At(s.tokens, s.pos + m, RenderType(ps.typ))
      && (if ps.isMut then KindAt(s) == KwMut && KindAt(Past(s)) == Colon else KindAt(s) != KwMut && KindAt(s) != KwImm)
      && (if ps.rest.NoParams? then |RenderTypeParams(ps)| == m + n
          else |RenderTypeParams(ps)| == m + n + 1 + |RenderTypeParams(ps.rest)| && KindAt(s.(pos := s.pos + m + n)) == Comma
               && At(s.tokens, s.pos + m + n + 1, RenderTypeParams(ps.rest)))
  {
    hide At, Onward, RenderType, TypeShaped;
    var m := if ps.isMut then [Tok(KwMut), Tok(Colon)] else [];
    var r := RenderType(ps.typ);
    var more := if ps.rest.NoParams? then [] else [Tok(Comma)] + RenderTypeParams(ps.rest);
    AtSplit(s.tokens, s.pos, m, r + more);
    AtSplit(s.tokens, s.pos + |m|, r, more);
    AtFirst(s.tokens, s.pos + |m|, r);
    TypeStarts(ps.typ, e);
    if ps.isMut {
      AtTwo(s.tokens, s.pos, Tok(KwMut), Tok(Colon), r + more);
    }
    if ps.rest.ConsParam? {
      AtCons(s.tokens, s.pos + |m| + |r|, Tok(Comma), RenderTypeParams(ps.rest));
    }
  }

  lemma {:induction false} ParamsParse(ps: TypeParams, s: State, e: Names) returns (u: State)
    requires ps.ConsParam? && Sees(s.scopes, s.current, e) && TypeParamsShaped(ps, e) && At(s.tokens, s.pos, RenderTypeParams(ps))
    requires KindAt(s.(pos := s.pos + |RenderTypeParams(ps)|)) == RParen
    ensures TypeList(s) == Done(ps, u) && Went(s, u, |RenderTypeParams(ps)|)
    decreases ps, 0
  {
    hide At, Sees, Went, TypeAt, TypeList, Onward, RenderType, RenderTypeParams;
    ParamsTokens(ps, s, e);
    var m, n := if ps.isMut then 2 else 0, |RenderType(ps.typ)|;
    PassWent(s, m, e);
    var s1 := s.(pos := s.pos + m);
    var v := TypeParses(ps.typ, s1, e);
    WentParts(s1, v, n);
    WentThen(s, s1, v, m, n);
    u := v;
    if ps.rest.ConsParam? {
      PassMore(s, v, m + n, 1);
      var w := Past(v);
      WentSees(s, w, m + n + 1, e);
      u := ParamsParse(ps.rest, w, e);
      WentThen(s, w, u, m + n + 1, |RenderTypeParams(ps.rest)|);
    }
    ListStep(s, ps, s1, v, u);
  }

  lemma {:induction false} ListStep(s: State, ps: TypeParams, s1: State, v: State, u: State)
    requires ps.ConsParam? && TypeAt(s1) == Done(ps.typ, v)
    requires if ps.isMut then KindAt(s) == KwMut && KindAt(Past(s)) == Colon && s1 == Past(Past(s)) else KindAt(s) != KwMut && KindAt(s) != KwImm && s1 == s
    requires if ps.rest.NoParams? then KindAt(v) != Comma && u == v else KindAt(v) == Comma && TypeList(Past(v)) == Done(ps.rest, u)
    ensures TypeList(s) == Done(ps, u)
  {
    hide Onward, Reaches, Good, Left, TypeAt;
  }

  // Two closing angles in one token

  /** `ptr<ptr<T>>` with `>>` as one token is read like `> >`; the token is left halved. */
  lemma {:induction false} MergedAngles(s: State, a: bool, s2: State, b: bool, s4: State, t: TypeTree, v: State)
    requires KindAt(s) == KwPtr && KindAt(Past(s)) == LAngle && Prefix(Past(Past(s))) == (a, s2)
    requires KindAt(s2) == KwPtr && KindAt(Past(s2)) == LAngle && Prefix(Past(Past(s2))) == (b, s4)
    requires TypeAt(s4) == Done(t, v) && KindAt(v) == GreaterGreater
    ensures var w := Known(Rewritten(v, Token(RAngle, ">")), v.current, PointerName(b, Printed(t)));
      var outer := PointerType(a, PointerType(b, t));
      TypeAt(s) == Done(outer, Known(Past(w), w.current, Printed(outer))) && w.pos == v.pos
  {
    hide Onward, Reaches, Good, Left, FunctionTypeAt, Known, Prefix, PointerName;
    var half := Rewritten(v, Token(RAngle, ">"));
    var inner := PointerType(b, t);
    var w := Known(half, half.current, PointerName(b, Printed(t)));
    assert TypeAt(s2) == Done(inner, w);
    KnownMoves(half, half.current, PointerName(b, Printed(t)));
    PointerStep(s, s2, a, inner, w);
  }

  lemma KnownMoves(s: State, scope: nat, name: string)
    requires !Plain(name)
    ensures Known(s, scope, name).pos == s.pos && Known(s, scope, name).tokens == s.tokens && Known(s, scope, name).current == s.current
  {
    hide Onward;
  }
}
