/** What every parse routine keeps. */
module ParserState {
  import opened Options
  import opened Tokens
  import opened Scopes

  datatype State = State(tokens: seq<Token>, pos: nat, scopes: seq<Scope>, current: nat)

  /** What a routine answers, a value or a panic, and the state it leaves. */
  datatype Res<+T> = Done(value: T, s: State) | Panic(s: State) {
    predicate IsFailure() {
      Panic?
    }

    function PropagateFailure<U>(): Res<U>
      requires Panic?
    {
      Panic(s)
    }

    function Extract(): (T, State)
      requires Done?
    {
      (value, s)
    }
  }

  /** Primitive types are bound in the global scope. */
  predicate Primed(scopes: seq<Scope>) {
    |scopes| > 0 && forall k :: k in PRIMITIVES ==> k in scopes[0].symbols && scopes[0].symbols[k].TypeSym?
  }

  /** The position is at a token, the last token is the end of the file, the scopes form a tree. */
  predicate Good(s: State) {
    && s.pos < |s.tokens| && s.tokens[|s.tokens| - 1].kind == EofTok
    && Nested(s.scopes) && s.current < |s.scopes| && Primed(s.scopes)
  }

  function KindAt(s: State): Kind {
    if s.pos < |s.tokens| then s.tokens[s.pos].kind else EofTok
  }

  function TextAt(s: State): string {
    if s.pos < |s.tokens| then s.tokens[s.pos].text else ""
  }

  predicate NextIs(s: State, k: Kind) {
    s.pos + 1 < |s.tokens| && s.tokens[s.pos + 1].kind == k
  }

  function Past(s: State): State {
    s.(pos := s.pos + 1)
  }

  /** What is left to consume. */
  function Left(s: State): nat {
    if s.pos <= |s.tokens| then Weigh(s.tokens, s.pos) else 0
  }

  /** The scopes seen from the current one, innermost first. */
  function StackOf(s: State): seq<Scope> {
    if Nested(s.scopes) && s.current < |s.scopes| then Chain(s.scopes, s.current) else []
  }

  // What a run keeps of the token stream

  /** What is left of a token after its first half: of `>>` the second `>`, of `>=` the `=`. */
  predicate Halved(t: Token, u: Token) {
    || (t.kind == GreaterGreater && u == Token(RAngle, ">"))
    || (t.kind == GreaterEqual && u == Token(Equal, "="))
  }

  /** Tokens are the same or halved, and those after `pos` are the same. */
  predicate Kept(a: seq<Token>, b: seq<Token>, pos: nat) {
    && |a| == |b|
    && (forall k {:trigger b[k]} :: 0 <= k < |b| ==> b[k] == a[k] || (k <= pos && Halved(a[k], b[k])))
  }

  // What a run keeps of the symbol table

  /** Names as programs can write them; printed types and payload names hold one of these characters. */
  predicate Plain(name: string) {
    '<' !in name && '(' !in name && ':' !in name
  }

  predicate NamedAt(ts: seq<Token>, j: int, name: string) {
    0 <= j < |ts| && ts[j].kind == Identifier && ts[j].text == name
  }

  predicate KindIs(ts: seq<Token>, j: int, k: Kind) {
    0 <= j < |ts| && ts[j].kind == k
  }

  /** `name :=` */
  predicate Inferred(ts: seq<Token>, name: string) {
    exists j :: 0 <= j < |ts| && NamedAt(ts, j, name) && KindIs(ts, j + 1, Walrus)
  }

  /** `name :` or `func name` */
  predicate Typed(ts: seq<Token>, name: string) {
    exists j :: 0 <= j < |ts| && NamedAt(ts, j, name) && (KindIs(ts, j + 1, Colon) || KindIs(ts, j - 1, KwFunc))
  }

  /** `enum name` */
  predicate Enumerated(ts: seq<Token>, name: string) {
    exists j :: 0 <= j < |ts| && NamedAt(ts, j, name) && KindIs(ts, j - 1, KwEnum)
  }

  /** The tokens give a reason for the binding. */
  predicate Introduced(ts: seq<Token>, name: string, sym: Sym, isStruct: bool) {
    match sym
    case VarSym(None) => Inferred(ts, name)
    case VarSym(Some(_)) => Typed(ts, name)
    case TypeSym(_, _) => isStruct || !Plain(name) || Enumerated(ts, name)
  }

  predicate SameKind(x: Sym, y: Sym) {
    x == y || (x.TypeSym? && y.TypeSym?)
  }

  /** Bindings stay, and a new one was introduced by the tokens. */
  predicate NamesFrom(ts: seq<Token>, a: Scope, b: Scope) {
    && a.structs <= b.structs
    && (forall n :: n in a.symbols ==> n in b.symbols && SameKind(a.symbols[n], b.symbols[n]))
    && (forall n :: n in b.symbols && n !in a.symbols ==> Introduced(ts, n, b.symbols[n], n in b.structs))
  }

  predicate AllNamesFrom(ts: seq<Token>, a: seq<Scope>, b: seq<Scope>) {
    |a| <= |b| && forall i {:trigger b[i]} :: 0 <= i < |a| ==> NamesFrom(ts, a[i], b[i])
  }

  /** Global variables declared with `:=`: their types are inferred only later. */
  function Untyped(scopes: seq<Scope>): set<string> {
    if scopes == [] then {} else set n | n in scopes[0].symbols && scopes[0].symbols[n] == VarSym(None)
  }

  /**
    From `a` a run got to `b`: not back, the rest of the stream untouched, in the same scope,
    and with every new name accounted for.
   */
  predicate Reaches(a: State, b: State) {
    && Good(b) && Kept(a.tokens, b.tokens, b.pos) && a.pos <= b.pos
    && Grown(a.scopes, b.scopes) && b.current == a.current && AllNamesFrom(a.tokens, a.scopes, b.scopes)
    && (a.current != 0 ==> Untyped(a.scopes) == Untyped(b.scopes))
  }

  /** A step of any run: nothing is added to what is left, and consuming nothing stays at the same token. */
  ghost predicate Onward(s: State, t: State) {
    && (Good(s) ==> Good(t))
    && Left(t) <= Left(s) && (Left(t) == Left(s) ==> KindAt(t) == KindAt(s))
    && forall a :: Reaches(a, s) ==> Reaches(a, t)
  }

  lemma ReachesSelf(s: State)
    requires Good(s)
    ensures Reaches(s, s)
  {
  }

  // One token

  lemma PastReaches(a: State, s: State)
    requires Reaches(a, s) && KindAt(s) != EofTok
    ensures Reaches(a, Past(s))
  {
    hide AllNamesFrom, Nested, Primed, Grown, Untyped, Halved;
  }

  lemma PastOnward(s: State)
    requires KindAt(s) != EofTok
    ensures Onward(s, Past(s)) && Left(Past(s)) < Left(s)
  {
    hide Reaches;
    forall a | Reaches(a, s)
      ensures Reaches(a, Past(s))
    {
      PastReaches(a, s);
    }
  }

  function Rewritten(s: State, t: Token): State
    requires s.pos < |s.tokens|
  {
    s.(tokens := s.tokens[s.pos := t])
  }

  lemma HalfReaches(a: State, s: State, t: Token)
    requires Reaches(a, s) && s.pos < |s.tokens| && Halved(s.tokens[s.pos], t)
    ensures Reaches(a, Rewritten(s, t))
  {
    hide AllNamesFrom, Nested, Primed, Grown, Untyped;
  }

  lemma HalfOnward(s: State, t: Token)
    requires s.pos < |s.tokens| && Halved(s.tokens[s.pos], t)
    ensures Onward(s, Rewritten(s, t)) && Left(Rewritten(s, t)) < Left(s)
  {
    hide Reaches;
    WeighHalf(s.tokens, s.pos, t);
    forall a | Reaches(a, s)
      ensures Reaches(a, Rewritten(s, t))
    {
      HalfReaches(a, s, t);
    }
  }

  // Scopes

  function Entered(s: State): State {
    s.(scopes := s.scopes + [Scope(s.current, map[], {}, {})], current := |s.scopes|)
  }

  function Exited(s: State): State {
    if 0 < s.current < |s.scopes| then s.(current := s.scopes[s.current].parent) else s
  }

  lemma EnterGood(s: State)
    requires Good(s)
    ensures Good(Entered(s)) && Reaches(Entered(s), Entered(s))
  {
  }

  /** A token that is no half stood there from the start. */
  lemma IntroducedEarlier(a: seq<Token>, b: seq<Token>, pos: nat, name: string, sym: Sym, isStruct: bool)
    requires Kept(a, b, pos) && Introduced(b, name, sym, isStruct)
    ensures Introduced(a, name, sym, isStruct)
  {
    match sym
    case VarSym(None) =>
      var j :| 0 <= j < |b| && NamedAt(b, j, name) && KindIs(b, j + 1, Walrus);
      assert b[j] == a[j] && b[j + 1] == a[j + 1];
      assert NamedAt(a, j, name) && KindIs(a, j + 1, Walrus);
    case VarSym(Some(_)) =>
      var j :| 0 <= j < |b| && NamedAt(b, j, name) && (KindIs(b, j + 1, Colon) || KindIs(b, j - 1, KwFunc));
      assert b[j] == a[j];
      if KindIs(b, j + 1, Colon) {
        assert b[j + 1] == a[j + 1];
      } else {
        assert b[j - 1] == a[j - 1];
      }
      assert NamedAt(a, j, name);
    case TypeSym(_, _) =>
      if !isStruct && Plain(name) {
        var j :| 0 <= j < |b| && NamedAt(b, j, name) && KindIs(b, j - 1, KwEnum);
        assert b[j] == a[j] && b[j - 1] == a[j - 1];
        assert NamedAt(a, j, name) && KindIs(a, j - 1, KwEnum);
      }
  }

  lemma NamesTrans(ts: seq<Token>, us: seq<Token>, pos: nat, a: Scope, b: Scope, c: Scope)
    requires Kept(ts, us, pos) && NamesFrom(ts, a, b) && NamesFrom(us, b, c)
    ensures NamesFrom(ts, a, c)
  {
    hide Introduced, Kept;
    forall n | n in c.symbols && n !in a.symbols
      ensures Introduced(ts, n, c.symbols[n], n in c.structs)
    {
      if n in b.symbols {
        SameReason(ts, n, b.symbols[n], n in b.structs, c.symbols[n], n in c.structs);
      } else {
        IntroducedEarlier(ts, us, pos, n, c.symbols[n], n in c.structs);
      }
    }
  }

  lemma SameReason(ts: seq<Token>, n: string, x: Sym, inX: bool, y: Sym, inY: bool)
    requires Introduced(ts, n, x, inX) && SameKind(x, y) && (inX ==> inY)
    ensures Introduced(ts, n, y, inY)
  {
  }

  lemma KeptTrans(a: seq<Token>, b: seq<Token>, c: seq<Token>, p: nat, q: nat)
    requires Kept(a, b, p) && Kept(b, c, q) && p <= q
    ensures Kept(a, c, q)
  {
    forall k | 0 <= k < |c|
      ensures c[k] == a[k] || (k <= q && Halved(a[k], c[k]))
    {
      assert b[k] == a[k] || (k <= p && Halved(a[k], b[k]));
    }
  }

  lemma ScopesTrans(ts: seq<Token>, us: seq<Token>, pos: nat, a: seq<Scope>, b: seq<Scope>, c: seq<Scope>)
    requires Kept(ts, us, pos) && AllNamesFrom(ts, a, b) && AllNamesFrom(us, b, c)
    ensures AllNamesFrom(ts, a, c)
  {
    hide Kept, NamesFrom;
    forall i | 0 <= i < |a|
      ensures NamesFrom(ts, a[i], c[i])
    {
      assert NamesFrom(ts, a[i], b[i]) && NamesFrom(us, b[i], c[i]);
      NamesTrans(ts, us, pos, a[i], b[i], c[i]);
    }
  }

  lemma ReachesTrans(a: State, b: State, c: State)
    requires Reaches(a, b) && Reaches(b, c)
    ensures Reaches(a, c)
  {
    hide Kept, AllNamesFrom, Untyped, Good;
    KeptTrans(a.tokens, b.tokens, c.tokens, b.pos, c.pos);
    ScopesTrans(a.tokens, b.tokens, b.pos, a.scopes, b.scopes, c.scopes);
  }

  lemma ExitReaches(a: State, s: State, t: State)
    requires Reaches(a, s) && Reaches(Entered(s), t)
    ensures Exited(t).current == s.current && Reaches(a, Exited(t)) && Untyped(t.scopes) == Untyped(s.scopes)
  {
    hide Kept, AllNamesFrom, Primed;
    KeptTrans(a.tokens, s.tokens, t.tokens, s.pos, t.pos);
    var e := Entered(s);
    assert t.scopes[t.current].parent == e.scopes[e.current].parent == s.current;
    NamesInside(s.tokens, s.scopes, e.scopes, t.scopes);
    ScopesTrans(a.tokens, s.tokens, s.pos, a.scopes, s.scopes, t.scopes);
    assert Untyped(e.scopes) == Untyped(s.scopes);
  }

  lemma NamesInside(ts: seq<Token>, a: seq<Scope>, b: seq<Scope>, c: seq<Scope>)
    requires AllNamesFrom(ts, b, c) && a <= b
    ensures AllNamesFrom(ts, a, c)
  {
    hide NamesFrom;
    forall i | 0 <= i < |a|
      ensures NamesFrom(ts, a[i], c[i])
    {
      assert b[i] == a[i];
    }
  }

  /** Whatever runs inside a scope that is entered and left again is a step outside it. */
  lemma ExitOnward(s: State, t: State)
    requires Onward(Entered(s), t)
    ensures Onward(s, Exited(t)) && Left(Exited(t)) == Left(t) && KindAt(Exited(t)) == KindAt(t)
    ensures Good(s) ==> Untyped(Exited(t).scopes) == Untyped(s.scopes) && Exited(t).current == s.current
  {
    hide Reaches, Untyped, Primed, Nested;
    if Good(s) {
      EnterGood(s);
      ReachesSelf(s);
      ExitReaches(s, s, t);
      ReachesGood(s, Exited(t));
    }
    forall a | Reaches(a, s)
      ensures Reaches(a, Exited(t))
    {
      ReachesGood(a, s);
      EnterGood(s);
      ExitReaches(a, s, t);
    }
  }

  lemma ReachesGood(a: State, b: State)
    requires Reaches(a, b)
    ensures Good(b)
  {
  }

  // Declarations

  /** Binds a name unless the scope already does. */
  function Bind(s: State, scope: nat, name: string, sym: Sym): State {
    if scope < |s.scopes| && name !in s.scopes[scope].symbols then
      s.(scopes := s.scopes[scope := s.scopes[scope].(symbols := s.scopes[scope].symbols[name := sym])])
    else s
  }

  predicate Free(s: State, scope: nat, name: string) {
    scope < |s.scopes| && name !in s.scopes[scope].symbols
  }

  function AddStruct(s: State, scope: nat, name: string): State {
    if scope < |s.scopes| then s.(scopes := s.scopes[scope := s.scopes[scope].(structs := s.scopes[scope].structs + {name})]) else s
  }

  function AddEnum(s: State, scope: nat, name: string): State {
    if scope < |s.scopes| then s.(scopes := s.scopes[scope := s.scopes[scope].(enums := s.scopes[scope].enums + {name})]) else s
  }

  /** Binds a struct type and its declaration. */
  function BindStruct(s: State, scope: nat, name: string, complete: bool): State {
    AddStruct(Bind(s, scope, name, TypeSym(name, complete)), scope, name)
  }

  /** One scope changes, and what is new in it has a reason. */
  predicate Changed(ts: seq<Token>, a: seq<Scope>, b: seq<Scope>, scope: nat) {
    && scope < |a| == |b| && b == a[scope := b[scope]] && b[scope].parent == a[scope].parent && NamesFrom(ts, a[scope], b[scope])
  }

  lemma NamesSelf(ts: seq<Token>, a: Scope)
    ensures NamesFrom(ts, a, a)
  {
  }

  lemma ChangedScopes(ts: seq<Token>, a: seq<Scope>, b: seq<Scope>, scope: nat)
    requires Changed(ts, a, b, scope)
    ensures AllNamesFrom(ts, a, b) && Grown(a, b)
  {
    hide NamesFrom;
    forall i | 0 <= i < |a|
      ensures NamesFrom(ts, a[i], b[i])
    {
      if i != scope {
        NamesSelf(ts, a[i]);
      }
    }
  }

  lemma ChangedGood(s: State, scopes: seq<Scope>, scope: nat)
    requires Good(s) && Changed(s.tokens, s.scopes, scopes, scope)
    ensures Good(s.(scopes := scopes))
  {
    hide Introduced;
    assert forall i :: 0 <= i < |scopes| ==> scopes[i].parent == s.scopes[i].parent;
  }

  /** A change to one scope, for a reason the tokens give, is a step. */
  lemma ChangeReaches(a: State, s: State, scopes: seq<Scope>, scope: nat)
    requires Reaches(a, s) && Changed(s.tokens, s.scopes, scopes, scope)
    requires s.current != 0 ==> Untyped(scopes) == Untyped(s.scopes)
    ensures Reaches(a, s.(scopes := scopes))
  {
    hide Kept, NamesFrom, Untyped, Good, AllNamesFrom;
    ChangedGood(s, scopes, scope);
    ChangedScopes(s.tokens, s.scopes, scopes, scope);
    ScopesTrans(a.tokens, s.tokens, s.pos, a.scopes, s.scopes, scopes);
  }

  lemma ChangeOnward(s: State, scopes: seq<Scope>, scope: nat)
    requires Changed(s.tokens, s.scopes, scopes, scope)
    requires s.current != 0 ==> Untyped(scopes) == Untyped(s.scopes)
    ensures Onward(s, s.(scopes := scopes)) && Left(s.(scopes := scopes)) == Left(s) && KindAt(s.(scopes := scopes)) == KindAt(s)
  {
    hide Reaches, Changed, Untyped, Good;
    if Good(s) {
      ChangedGood(s, scopes, scope);
    }
    forall a | Reaches(a, s)
      ensures Reaches(a, s.(scopes := scopes))
    {
      ChangeReaches(a, s, scopes, scope);
    }
  }

  lemma IntroducedLater(a: seq<Token>, b: seq<Token>, pos: nat, name: string, sym: Sym, isStruct: bool)
    requires Kept(a, b, pos) && Introduced(a, name, sym, isStruct)
    ensures Introduced(b, name, sym, isStruct)
  {
    match sym
    case VarSym(None) =>
      var j :| 0 <= j < |a| && NamedAt(a, j, name) && KindIs(a, j + 1, Walrus);
      assert b[j] == a[j] && b[j + 1] == a[j + 1];
      assert NamedAt(b, j, name) && KindIs(b, j + 1, Walrus);
    case VarSym(Some(_)) =>
      var j :| 0 <= j < |a| && NamedAt(a, j, name) && (KindIs(a, j + 1, Colon) || KindIs(a, j - 1, KwFunc));
      assert b[j] == a[j];
      if KindIs(a, j + 1, Colon) {
        assert b[j + 1] == a[j + 1];
      } else {
        assert b[j - 1] == a[j - 1];
      }
      assert NamedAt(b, j, name);
    case TypeSym(_, _) =>
      if !isStruct && Plain(name) {
        var j :| 0 <= j < |a| && NamedAt(a, j, name) && KindIs(a, j - 1, KwEnum);
        assert b[j] == a[j] && b[j - 1] == a[j - 1];
        assert NamedAt(b, j, name) && KindIs(b, j - 1, KwEnum);
      }
  }

  lemma BindChanges(s: State, scope: nat, name: string, sym: Sym)
    requires Free(s, scope, name) && Introduced(s.tokens, name, sym, false)
    ensures Changed(s.tokens, s.scopes, Bind(s, scope, name, sym).scopes, scope)
    ensures sym != VarSym(None) || scope != 0 ==> Untyped(Bind(s, scope, name, sym).scopes) == Untyped(s.scopes)
  {
    hide Inferred, Typed, Enumerated, Plain;
  }

  /** Binding a name that the tokens of an earlier state introduce. */
  lemma BindOnward(s: State, t: State, scope: nat, name: string, sym: Sym)
    requires Onward(s, t) && Introduced(s.tokens, name, sym, false) && (sym != VarSym(None) || scope == t.current)
    ensures Onward(s, Bind(t, scope, name, sym)) && Left(Bind(t, scope, name, sym)) == Left(t)
    ensures KindAt(Bind(t, scope, name, sym)) == KindAt(t)
    ensures Good(s) && (sym != VarSym(None) || scope != 0) ==> Untyped(Bind(t, scope, name, sym).scopes) == Untyped(t.scopes)
  {
    hide Reaches, Good, Introduced, Untyped, Changed;
    if Good(s) && Free(t, scope, name) {
      ReachesSelf(s);
      ReachesKept(s, t);
      IntroducedLater(s.tokens, t.tokens, t.pos, name, sym, false);
      BindChanges(t, scope, name, sym);
      ChangeOnward(t, Bind(t, scope, name, sym).scopes, scope);
    }
    forall a | Reaches(a, s)
      ensures Reaches(a, Bind(t, scope, name, sym))
    {
      ReachesGood(a, s);
    }
  }

  lemma ReachesKept(a: State, b: State)
    requires Reaches(a, b)
    ensures Kept(a.tokens, b.tokens, b.pos) && a.pos <= b.pos && a.current == b.current
  {
  }

  lemma StructChanges(s: State, scope: nat, name: string, complete: bool)
    requires scope < |s.scopes|
    ensures Changed(s.tokens, s.scopes, BindStruct(s, scope, name, complete).scopes, scope)
    ensures Untyped(BindStruct(s, scope, name, complete).scopes) == Untyped(s.scopes)
  {
    hide Inferred, Typed, Enumerated, Plain;
  }

  lemma BindStructOnward(s: State, scope: nat, name: string, complete: bool)
    ensures var t := BindStruct(s, scope, name, complete);
      Onward(s, t) && Left(t) == Left(s) && KindAt(t) == KindAt(s) && Untyped(t.scopes) == Untyped(s.scopes)
  {
    hide Reaches, Good, Untyped, Changed;
    if scope < |s.scopes| {
      StructChanges(s, scope, name, complete);
      ChangeOnward(s, BindStruct(s, scope, name, complete).scopes, scope);
    }
  }

  lemma AddEnumOnward(s: State, scope: nat, name: string)
    ensures var t := AddEnum(s, scope, name);
      Onward(s, t) && Left(t) == Left(s) && KindAt(t) == KindAt(s) && Untyped(t.scopes) == Untyped(s.scopes)
  {
    hide Reaches, Good;
    if scope < |s.scopes| {
      ChangeOnward(s, AddEnum(s, scope, name).scopes, scope);
    }
  }

  function Complete(s: State, name: string): State {
    if Nested(s.scopes) && s.current < |s.scopes| then s.(scopes := Completed(s.scopes, s.current, name)) else s
  }

  lemma {:induction false} CompletedChanges(ts: seq<Token>, scopes: seq<Scope>, id: nat, name: string) returns (scope: nat)
    requires Nested(scopes) && id < |scopes|
    ensures Changed(ts, scopes, Completed(scopes, id, name), scope) && Untyped(Completed(scopes, id, name)) == Untyped(scopes)
    decreases id
  {
    if name !in scopes[id].symbols && id > 0 {
      scope := CompletedChanges(ts, scopes, scopes[id].parent, name);
    } else {
      scope := id;
    }
  }

  lemma CompleteOnward(s: State, name: string)
    ensures var t := Complete(s, name);
      Onward(s, t) && Left(t) == Left(s) && KindAt(t) == KindAt(s) && Untyped(t.scopes) == Untyped(s.scopes)
  {
    hide Reaches, Good, Untyped, Changed, Completed;
    if Nested(s.scopes) && s.current < |s.scopes| {
      var scope := CompletedChanges(s.tokens, s.scopes, s.current, name);
      ChangeOnward(s, Completed(s.scopes, s.current, name), scope);
    }
  }

  // Reasons

  lemma ByColon(s: State)
    requires KindAt(s) == Identifier && KindAt(Past(s)) == Colon
    ensures Typed(s.tokens, TextAt(s))
  {
    assert NamedAt(s.tokens, s.pos, TextAt(s)) && KindIs(s.tokens, s.pos + 1, Colon);
  }

  lemma ByWalrus(s: State)
    requires KindAt(s) == Identifier && KindAt(Past(s)) == Walrus
    ensures Inferred(s.tokens, TextAt(s))
  {
    assert NamedAt(s.tokens, s.pos, TextAt(s)) && KindIs(s.tokens, s.pos + 1, Walrus);
  }

  lemma ByFunc(s: State)
    requires KindAt(s) == KwFunc && KindAt(Past(s)) == Identifier
    ensures Typed(s.tokens, TextAt(Past(s)))
  {
    assert NamedAt(s.tokens, s.pos + 1, TextAt(Past(s))) && KindIs(s.tokens, s.pos, KwFunc);
  }

  lemma ByEnum(s: State)
    requires KindAt(s) == KwEnum && KindAt(Past(s)) == Identifier
    ensures Enumerated(s.tokens, TextAt(Past(s)))
  {
    assert NamedAt(s.tokens, s.pos + 1, TextAt(Past(s))) && KindIs(s.tokens, s.pos, KwEnum);
  }
}
