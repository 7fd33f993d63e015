/** When the parser dereferences null. */
module ParserCrashes {
  import opened Options
  import opened Tokens
  import opened Scopes
  import opened ExprSyntax
  import opened ParserState
  import opened Grammar

  // The two families

  /**
    A definition `struct N {` where `N` already means something else: a type that is no struct
    (an enum), or, in this very scope, a variable. The declaration then works on a null node.
   */
  predicate StructCrashes(s: State) {
    && KindAt(s) == KwStruct && KindAt(Past(s)) == Identifier && KindAt(Past(Past(s))) != Semicolon
    && var name := TextAt(Past(s));
       var t := TypeFrom(s, s.current, name);
       if t.None? then !Free(s, s.current, name) else !StructKnown(s, name)
  }

  /** The parameters and the return type can be read, and after `extern` a semicolon follows them. */
  predicate SignatureEnds(isExtern: bool, s: State) {
    var sig := SignatureAt(s);
    sig.Done? && (isExtern ==> KindAt(sig.s) == Semicolon)
  }

  /** `func f` with a signature that can be read, where `f` is a global variable of a type not yet inferred. */
  predicate FunctionCrashes(s: State) {
    && (KindAt(s) == KwFunc || KindAt(s) == KwExtern)
    && var h := FuncHeader(s);
       h.Done? && h.value.1 in Untyped(s.scopes) && SignatureEnds(h.value.0, Entered(h.s))
  }

  predicate Crashes(s: State) {
    StructCrashes(s) || FunctionCrashes(s)
  }

  lemma {:induction false} StructCrashExact(s: State)
    requires Good(s)
    ensures StructAt(s).Crash? <==> StructCrashes(s)
  {
    hide StructFields, BindStruct, Reaches, Onward, HasStruct, TypeNamed, Chain;
    if KindAt(s) == KwStruct && KindAt(Past(s)) == Identifier {
      var s1 := Past(Past(s));
      assert NamedAfter(s, KwStruct) == Done(TextAt(Past(s)), s1);
      assert StructAt(s) == StructBody(TextAt(Past(s)), s1);
      assert StructKnown(s1, TextAt(Past(s))) == StructKnown(s, TextAt(Past(s)));
    }
  }

  lemma {:induction false} FunctionCrashExact(s: State)
    requires Good(s) && (KindAt(s) == KwFunc || KindAt(s) == KwExtern)
    ensures FuncAt(s).Crash? <==> FunctionCrashes(s)
  {
    hide Reaches, Good, Left, FuncHeader, FuncInside, Entered, Exited, Untyped, FuncDeclared, SignatureAt, ShowSignature;
    var header := FuncHeader(s);
    if header.Done? {
      var h, s1 := header.value, header.s;
      HeaderScopes(s);
      EnterLeft(s1);
      var inside := FuncInside(h.0, Entered(s1));
      InsideEnds(h.0, Entered(s1));
      ExitOnward(s1, inside.s);
      if inside.Done? {
        HeaderNames(s, s1, h);
        DeclaredCrash(s, h, inside.value.0, inside.value.1, Exited(inside.s));
      }
    }
  }

  lemma HeaderScopes(s: State)
    ensures FuncHeader(s).s.scopes == s.scopes && FuncHeader(s).s.current == s.current
  {
    hide Onward;
  }

  lemma InsideEnds(isExtern: bool, s: State)
    ensures FuncInside(isExtern, s).Done? <==> SignatureEnds(isExtern, s)
  {
    hide Onward, SignatureAt, BlockAt;
  }

  lemma DeclaredCrash(s: State, h: (bool, string), sig: Signature, body: Option<seq<StmtTree>>, t: State)
    requires Onward(s, t) && Typed(s.tokens, h.1) && Good(t)
    ensures FuncDeclared(s, h, sig, body, t).Crash? <==> h.1 in Untyped(t.scopes)
  {
    hide Reaches, Known, ShowSignature, Onward, Typed;
    var t1 := Known(t, 0, ShowSignature(sig));
    assert Untyped(t1.scopes) == Untyped(t.scopes);
    assert GlobalVar(t1, h.1) && t1.scopes[0].symbols[h.1].typ.None? <==> h.1 in Untyped(t1.scopes);
  }

  /** A top-level declaration dereferences null exactly when its first state is in one of the families. */
  lemma {:induction false} TopCrashExact(s: State)
    requires Good(s) && KindAt(s) != EofTok
    ensures TopAt(s).Stopped? <==> Crashes(s)
  {
    hide Reaches, Good, StructAt, EnumAt, FuncAt, StmtAt, Onward, StructKnown, TypeFrom, Untyped, SignatureEnds, FuncHeader;
    if KindAt(s) == KwStruct {
      StructCrashExact(s);
    } else if KindAt(s) == KwFunc || KindAt(s) == KwExtern {
      FunctionCrashExact(s);
    }
  }

  // Whole programs

  /** The states in which the program loop looks at a top-level declaration, in order. */
  function TopStates(s: State): (r: seq<State>)
    ensures |r| > 0 && r[0] == s
    decreases Left(s)
  {
    hide Left, TopAt, Onward;
    if KindAt(s) == EofTok then [s]
    else
      var r := TopAt(s);
      if r.Stopped? then [s] else [s] + TopStates(r.s)
  }

  lemma {:induction false} TopKeeps(s: State)
    requires Good(s) && KindAt(s) != EofTok && TopAt(s).Next?
    ensures Good(TopAt(s).s) && Left(TopAt(s).s) < Left(s)
    ensures forall a :: Reaches(a, s) ==> Reaches(a, TopAt(s).s)
  {
    hide Reaches, Left, Good, TopAt;
  }

  /** Every state of a run continues its input: the rest of the stream is the input's, the scope is the first one. */
  lemma {:induction false} TopStatesReach(a: State, s: State, i: nat)
    requires Reaches(a, s) && i < |TopStates(s)|
    ensures Reaches(a, TopStates(s)[i]) && Good(TopStates(s)[i])
    decreases Left(s)
  {
    hide Reaches, Left, Good, TopAt, Onward;
    ReachesGood(a, s);
    if i > 0 {
      TopKeeps(s);
      TopStatesReach(a, TopAt(s).s, i - 1);
    }
  }

  /** A program dereferences null exactly when one of the states it passes through is in one of the families. */
  lemma {:induction false} CrashExact(s: State)
    requires Good(s)
    ensures ProgramAt(s).Crashed? <==> exists i :: 0 <= i < |TopStates(s)| && Crashes(TopStates(s)[i])
    ensures ProgramAt(s).Crashed? ==> Crashes(ProgramAt(s).at)
    ensures End(ProgramAt(s)) == TopStates(s)[|TopStates(s)| - 1]
    decreases Left(s)
  {
    hide Reaches, Left, Good, TopAt, Onward, StructCrashes, FunctionCrashes;
    var ts := TopStates(s);
    if KindAt(s) == EofTok {
      NoneAtEnd(s);
    } else {
      TopCrashExact(s);
      if TopAt(s).Stopped? {
        assert Crashes(ts[0]);
      } else {
        TopKeeps(s);
        var us := TopStates(TopAt(s).s);
        CrashExact(TopAt(s).s);
        assert ts == [s] + us;
        assert forall i :: 0 <= i < |us| ==> us[i] == ts[i + 1];
        assert forall i :: 1 <= i < |ts| ==> ts[i] == us[i - 1];
      }
    }
  }

  lemma NoneAtEnd(s: State)
    requires KindAt(s) == EofTok
    ensures !Crashes(s)
  {
  }

  /** Every program is parsed to its end or to the declaration that crashes, in the scope it started in. */
  lemma {:induction false} ProgramEnds(s: State)
    requires Good(s)
    ensures var r := ProgramAt(s);
      && Reaches(s, End(r)) && End(r).pos < |s.tokens|
      && (r.Finished? ==> KindAt(r.s) == EofTok)
  {
    hide Reaches, Left, ProgramAt;
    ReachesSelf(s);
    ReachesEnd(s, End(ProgramAt(s)));
  }

  lemma ReachesEnd(a: State, b: State)
    requires Reaches(a, b)
    ensures b.pos < |b.tokens| == |a.tokens|
  {
  }

  // Programs that do not crash

  /** A name that is bound to structs only, and that no token binds to anything else. */
  predicate OnlyStruct(s: State, n: string) {
    && Plain(n) && !Inferred(s.tokens, n) && !Typed(s.tokens, n) && !Enumerated(s.tokens, n)
    && forall i :: 0 <= i < |s.scopes| && n in s.scopes[i].symbols ==> s.scopes[i].symbols[n].TypeSym? && n in s.scopes[i].structs
  }

  /** A name that no global variable has, and that no token declares with `:=`. */
  predicate NeverInferred(s: State, n: string) {
    n !in Untyped(s.scopes) && !Inferred(s.tokens, n)
  }

  /** A name written after the keyword. */
  predicate NamedBy(ts: seq<Token>, j: nat, k: Kind) {
    j + 1 < |ts| && ts[j].kind == k && ts[j + 1].kind == Identifier
  }

  /** Struct names are used for structs only, and no function has the name of a variable declared with `:=`. */
  predicate Clean(s: State) {
    && (forall j: nat :: j < |s.tokens| && NamedBy(s.tokens, j, KwStruct) ==> OnlyStruct(s, s.tokens[j + 1].text))
    && (forall j: nat :: j < |s.tokens| && NamedBy(s.tokens, j, KwFunc) ==> NeverInferred(s, s.tokens[j + 1].text))
  }

  /** Tokens at or after the position, unless halved there, are the input's. */
  lemma SameToken(a: State, s: State, j: nat, k: Kind)
    requires Reaches(a, s) && s.pos <= j < |s.tokens| && s.tokens[j].kind == k && k != RAngle && k != Equal
    ensures j < |a.tokens| && a.tokens[j] == s.tokens[j]
  {
  }

  lemma StillOnlyStruct(a: State, s: State, n: string, i: nat)
    requires Reaches(a, s) && OnlyStruct(a, n) && i < |a.scopes| && i < |s.scopes| && n in s.scopes[i].symbols
    ensures s.scopes[i].symbols[n].TypeSym? && n in s.scopes[i].structs
  {
    hide Inferred, Typed, Enumerated, Plain, Kept, Good;
    assert NamesFrom(a.tokens, a.scopes[i], s.scopes[i]);
  }

  lemma {:induction false} StructOnStack(scopes: seq<Scope>, id: nat, n: string)
    requires Nested(scopes) && id < |scopes|
    requires forall i :: 0 <= i <= id && n in scopes[i].symbols ==> scopes[i].symbols[n].TypeSym? && n in scopes[i].structs
    ensures TypeNamed(Chain(scopes, id), n).Some? ==> HasStruct(Chain(scopes, id), n)
    ensures n in scopes[id].symbols ==> TypeNamed(Chain(scopes, id), n).Some?
    decreases id
  {
    var c := Chain(scopes, id);
    if n in scopes[id].symbols {
      assert n in c[0].structs;
    } else if id > 0 {
      StructOnStack(scopes, scopes[id].parent, n);
      SameAbove(scopes, id, n);
    } else {
      assert c == [scopes[0]] && Innermost(c[1..], n) == None;
    }
  }

  lemma {:induction false} SameAbove(scopes: seq<Scope>, id: nat, n: string)
    requires Nested(scopes) && 0 < id < |scopes| && n !in scopes[id].symbols
    ensures TypeNamed(Chain(scopes, id), n) == TypeNamed(Chain(scopes, scopes[id].parent), n)
    ensures HasStruct(Chain(scopes, scopes[id].parent), n) ==> HasStruct(Chain(scopes, id), n)
  {
    var c, d := Chain(scopes, id), Chain(scopes, scopes[id].parent);
    assert c == [scopes[id]] + d && c[1..] == d;
    assert forall i :: 0 <= i < |d| ==> d[i] == c[i + 1];
  }

  lemma {:induction false} CleanStruct(a: State, s: State)
    requires Reaches(a, s) && Good(a) && Clean(a)
    ensures !StructCrashes(s)
  {
    hide Kept, AllNamesFrom, Chain, HasStruct, TypeNamed, Primed, Untyped, OnlyStruct, NeverInferred;
    if StructCrashes(s) {
      var n := TextAt(Past(s));
      SameToken(a, s, s.pos, KwStruct);
      SameToken(a, s, s.pos + 1, Identifier);
      assert NamedBy(a.tokens, s.pos, KwStruct);
      forall i | 0 <= i <= s.current && n in s.scopes[i].symbols
        ensures s.scopes[i].symbols[n].TypeSym? && n in s.scopes[i].structs
      {
        StillOnlyStruct(a, s, n, i);
      }
      StructOnStack(s.scopes, s.current, n);
    }
  }

  lemma StillNotUntyped(a: State, s: State, n: string)
    requires Reaches(a, s) && Good(a) && NeverInferred(a, n)
    ensures n !in Untyped(s.scopes)
  {
    hide Inferred, Typed, Enumerated, Plain, Kept;
    assert NamesFrom(a.tokens, a.scopes[0], s.scopes[0]);
  }

  lemma {:induction false} CleanFunction(a: State, s: State)
    requires Reaches(a, s) && Good(a) && Clean(a)
    ensures !FunctionCrashes(s)
  {
    hide Kept, AllNamesFrom, Primed, Untyped, SignatureAt, Onward, OnlyStruct, NeverInferred, Reaches;
    if FunctionCrashes(s) {
      var j := if KindAt(s) == KwExtern then s.pos + 1 else s.pos;
      SameToken(a, s, j, KwFunc);
      SameToken(a, s, j + 1, Identifier);
      assert NamedBy(a.tokens, j, KwFunc);
      StillNotUntyped(a, s, a.tokens[j + 1].text);
    }
  }

  /** A condition on the input alone under which the whole program is parsed to its end of file. */
  lemma {:induction false} CleanFinishes(s: State)
    requires Good(s) && Clean(s)
    ensures ProgramAt(s).Finished? && KindAt(ProgramAt(s).s) == EofTok
  {
    hide Reaches, Left, Good, Clean, ProgramAt, StructCrashes, FunctionCrashes, TopStates;
    CrashExact(s);
    if ProgramAt(s).Crashed? {
      ReachesSelf(s);
      var i :| 0 <= i < |TopStates(s)| && Crashes(TopStates(s)[i]);
      TopStatesReach(s, s, i);
      CleanStruct(s, TopStates(s)[i]);
      CleanFunction(s, TopStates(s)[i]);
    }
  }

  // Programs that do

  /** `x := 1; func x();` */
  function VariableThenFunction(): seq<Token> {
    [Token(Identifier, "x"), Tok(Walrus), Token(IntLiteral, "1"), Tok(Semicolon),
     Tok(KwFunc), Token(Identifier, "x"), Tok(LParen), Tok(RParen), Tok(Semicolon), Tok(EofTok)]
  }

  /** A literal before a semicolon. */
  lemma {:induction false} LiteralReads(s: State)
    requires KindAt(s) == IntLiteral && KindAt(Past(s)) == Semicolon
    ensures ExprAt(s) == Done(Literal(s.tokens[s.pos]), Past(s))
  {
    hide Onward, LevelAt;
    LevelReads(s, 1);
  }

  lemma {:induction false} LevelReads(s: State, m: nat)
    requires KindAt(s) == IntLiteral && KindAt(Past(s)) == Semicolon && 1 <= m <= 11
    ensures LevelAt(m, s) == Done(Literal(s.tokens[s.pos]), Past(s))
    decreases 11 - m
  {
    hide Onward, NameAt, ExprAt, NewAt, CastAt, SizeofAt, SuffixAt;
    if m < 11 {
      LevelReads(s, m + 1);
    } else {
      assert PrimaryAt(s) == Done(Literal(s.tokens[s.pos]), Past(s));
      assert PostfixAt(s) == PrimaryAt(s);
      assert UnaryAt(s) == PostfixAt(s);
    }
  }

  /** The first declaration: the variable is bound without a type. */
  lemma {:induction false} DeclaresUntyped(s: State)
    requires Good(s) && s.tokens == VariableThenFunction() && s.pos == 0 && s.current == 0 && "x" !in s.scopes[0].symbols
    ensures TopAt(s).Next? && TopAt(s).s == Bind(s.(pos := 4), 0, "x", VarSym(None))
  {
    hide Onward, ExprAt, StackOf;
    var one := Literal(Token(IntLiteral, "1"));
    var s2 := s.(pos := 2);
    LiteralReads(s2);
    assert VarRest(s.(pos := 1)) == Done((None, Some(one)), s.(pos := 3));
    assert VarAt(s) == Done(VarTree(false, "x", None, Some(one)), Bind(s.(pos := 4), 0, "x", VarSym(None)));
    assert BodyAt(s) == VarAt(s);
  }

  /** A declared variable and then a function of its name: the program crashes at the function. */
  lemma {:induction false} VariableThenFunctionCrashes(s: State)
    requires Good(s) && s.tokens == VariableThenFunction() && s.pos == 0 && s.current == 0 && "x" !in s.scopes[0].symbols
    ensures ProgramAt(s).Crashed? && ProgramAt(s).at.pos == 4
  {
    hide Onward, TopAt, ProgramAt;
    DeclaresUntyped(s);
    TopKeeps(s);
    var s1 := TopAt(s).s;
    assert FuncHeader(s1) == Done((false, "x"), s1.(pos := 6));
    assert SignatureAt(Entered(s1.(pos := 6))).Done?;
    assert FunctionCrashes(s1);
    TopCrashExact(s1);
    ProgramStep(s);
    ProgramStep(s1);
  }

  lemma {:induction false} ProgramStep(s: State)
    requires KindAt(s) != EofTok
    ensures var r := TopAt(s); ProgramAt(s) == if r.Stopped? then Crashed([], s) else Preceded(r.tree, ProgramAt(r.s))
  {
    hide Onward, TopAt;
  }

  /** `struct x {}` where `x` is a variable of the scope. */
  lemma {:induction false} VariableThenStructCrashes(s: State)
    requires Good(s) && s.tokens == [Tok(KwStruct), Token(Identifier, "x"), Tok(LBrace), Tok(RBrace), Tok(EofTok)] && s.pos == 0
    requires "x" in s.scopes[s.current].symbols && s.scopes[s.current].symbols["x"].VarSym?
    ensures ProgramAt(s).Crashed? && ProgramAt(s).at == s
  {
    hide Onward, TopAt, ProgramAt;
    assert StackOf(s)[0] == s.scopes[s.current];
    TopCrashExact(s);
    ProgramStep(s);
  }

  /** `enum E {} struct E {}` */
  function EnumThenStruct(): seq<Token> {
    [Tok(KwEnum), Token(Identifier, "E"), Tok(LBrace), Tok(RBrace),
     Tok(KwStruct), Token(Identifier, "E"), Tok(LBrace), Tok(RBrace), Tok(EofTok)]
  }

  lemma {:induction false} DeclaresEnum(s: State)
    requires Good(s) && s.tokens == EnumThenStruct() && s.pos == 0 && s.current == 0 && |s.scopes| == 1
    requires "E" !in s.scopes[0].symbols && "E" !in s.scopes[0].enums
    ensures TopAt(s).Next? && TopAt(s).s.tokens == s.tokens && TopAt(s).s.pos == 4 && TopAt(s).s.current == 0
    ensures var scopes := TopAt(s).s.scopes;
      |scopes| == 2 && scopes[0] == s.scopes[0].(symbols := s.scopes[0].symbols["E" := TypeSym("enum E", true)], enums := s.scopes[0].enums + {"E"})
  {
    hide Onward;
    var s2 := s.(pos := 2);
    assert "enum " + "E" == "enum E";
    var s3 := AddEnum(Bind(s2, 0, "E", TypeSym("enum E", true)), 0, "E");
    assert VariantsAt("E", 0, Entered(s3)) == Done([], Entered(s3).(pos := 4));
    assert NamedAfter(s, KwEnum) == Done("E", s2);
    EnumStep(s, s2, "E", s3, [], Entered(s3).(pos := 4));
  }

  lemma EnumStep(s: State, s1: State, name: string, s3: State, variants: seq<VariantTree>, s4: State)
    requires NamedAfter(s, KwEnum) == Done(name, s1) && Free(s1, s1.current, name) && name !in s1.scopes[s1.current].enums
    requires s3 == AddEnum(Bind(s1, s1.current, name, TypeSym("enum " + name, true)), s1.current, name)
    requires VariantsAt(name, s1.current, Entered(s3)) == Done(variants, s4)
    ensures EnumAt(s) == Done(EnumTree(name, variants), Exited(s4))
  {
    hide Onward, NamedAfter, VariantsAt, Entered, Exited, Bind, AddEnum;
  }

  /** An enum is a type but no struct. */
  lemma {:induction false} EnumThenStructCrashes(s: State)
    requires Good(s) && s.tokens == EnumThenStruct() && s.pos == 0 && s.current == 0 && |s.scopes| == 1
    requires "E" !in s.scopes[0].symbols && "E" !in s.scopes[0].enums && "E" !in s.scopes[0].structs
    ensures ProgramAt(s).Crashed? && ProgramAt(s).at.pos == 4
  {
    hide Onward, TopAt, ProgramAt;
    DeclaresEnum(s);
    TopKeeps(s);
    var s1 := TopAt(s).s;
    assert StackOf(s1) == [s1.scopes[0]];
    TopCrashExact(s1);
    ProgramStep(s);
    ProgramStep(s1);
  }
}
