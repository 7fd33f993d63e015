/** What a position in a program sees of the symbol table. */
module Visibility {
  import opened Options
  import opened Tokens
  import opened Scopes
  import opened ExprSyntax
  import opened ParserState
  import opened Grammar

  /** Printed pointer types are bound on the way, under names no program can write. */
  predicate Visible(n: string) {
    !(|n| >= 4 && n[..4] == "ptr<")
  }

  /**
    The names of the current scope, the names that mean a type, the structs and enums in reach, and of
    the global scope the function types known and functions with their printed types.
   */
  datatype Names = Names(
    bound: set<string>, types: map<string, Sym>, structs: set<string>, enums: set<string>, sigs: set<string>, funcs: map<string, string>)

  /** What a name means as a type. */
  function Meant(scopes: seq<Scope>, id: nat, n: string): Option<Sym>
    requires Nested(scopes) && id < |scopes|
  {
    TypeNamed(Chain(scopes, id), n)
  }

  predicate SignatureName(n: string) {
    '(' in n && Visible(n)
  }

  ghost predicate Sees(scopes: seq<Scope>, cur: nat, e: Names) {
    && Nested(scopes) && cur < |scopes|
    && (forall n :: Visible(n) ==> (n in e.bound <==> n in scopes[cur].symbols))
    && (forall n :: Visible(n) ==> Meant(scopes, cur, n) == if n in e.types then Some(e.types[n]) else None)
    && (forall n :: n in e.structs <==> HasStruct(Chain(scopes, cur), n))
    && (forall n :: n in e.enums <==> HasEnum(Chain(scopes, cur), n))
    && (forall n :: SignatureName(n) ==> (n in e.sigs <==> Meant(scopes, 0, n).Some?))
    && (forall n :: SignatureName(n) && n in scopes[0].symbols ==> scopes[0].symbols[n].TypeSym?)
    && (forall n :: n in e.funcs ==> Visible(n) && n in scopes[0].symbols && scopes[0].symbols[n] == VarSym(Some(e.funcs[n])))
  }

  /** One scope before and after: of the visible names only variables `xs` are new. */
  ghost predicate ScopeBecame(a: Scope, b: Scope, xs: set<string>) {
    && a.parent == b.parent && a.structs == b.structs && a.enums == b.enums
    && (forall n :: Visible(n) ==> (n in b.symbols <==> n in a.symbols || n in xs))
    && (forall n :: Visible(n) && n in a.symbols ==> n in b.symbols && b.symbols[n] == a.symbols[n])
    && (forall n :: Visible(n) && n in xs && n !in a.symbols ==> n in b.symbols && b.symbols[n].VarSym?)
  }

  /** The symbol table before and after a piece of program that declares `xs` in scope `cur`. */
  ghost predicate Became(a: seq<Scope>, b: seq<Scope>, cur: nat, xs: set<string>) {
    && Nested(a) && Nested(b) && cur < |a| <= |b|
    && forall i {:trigger b[i]} :: 0 <= i < |a| ==> ScopeBecame(a[i], b[i], if i == cur then xs else {})
  }

  lemma BecameSelf(a: seq<Scope>, cur: nat)
    requires Nested(a) && cur < |a|
    ensures Became(a, a, cur, {})
  {
  }

  lemma ScopeTrans(a: Scope, b: Scope, c: Scope, xs: set<string>, ys: set<string>)
    requires ScopeBecame(a, b, xs) && ScopeBecame(b, c, ys)
    ensures ScopeBecame(a, c, xs + ys)
  {
  }

  lemma BecameTrans(a: seq<Scope>, b: seq<Scope>, c: seq<Scope>, cur: nat, xs: set<string>, ys: set<string>)
    requires Became(a, b, cur, xs) && Became(b, c, cur, ys)
    ensures Became(a, c, cur, xs + ys)
  {
    hide ScopeBecame, Nested;
    forall i | 0 <= i < |a|
      ensures ScopeBecame(a[i], c[i], if i == cur then xs + ys else {})
    {
      assert ScopeBecame(a[i], b[i], if i == cur then xs else {}) && ScopeBecame(b[i], c[i], if i == cur then ys else {});
      var p: set<string>, q: set<string> := if i == cur then xs else {}, if i == cur then ys else {};
      ScopeTrans(a[i], b[i], c[i], p, q);
      assert p + q == if i == cur then xs + ys else {};
    }
  }

  // Lookup before and after

  lemma {:induction false} LookupKeeps(a: seq<Scope>, b: seq<Scope>, id: nat, n: string)
    requires Nested(a) && Nested(b) && id < |a| <= |b|
    requires forall i :: 0 <= i <= id ==> a[i].parent == b[i].parent && (n in b[i].symbols <==> n in a[i].symbols)
    requires forall i :: 0 <= i <= id && n in a[i].symbols ==> b[i].symbols[n] == a[i].symbols[n]
    ensures Innermost(Chain(a, id), n) == Innermost(Chain(b, id), n)
    decreases id
  {
    var c, d := Chain(a, id), Chain(b, id);
    if id > 0 {
      LookupKeeps(a, b, a[id].parent, n);
      assert c[1..] == Chain(a, a[id].parent) && d[1..] == Chain(b, b[id].parent);
    } else {
      assert c[1..] == [] && d[1..] == [];
    }
  }

  lemma {:induction false} TagsKeep(a: seq<Scope>, b: seq<Scope>, id: nat, n: string)
    requires Nested(a) && Nested(b) && id < |a| <= |b|
    requires forall i :: 0 <= i <= id ==> a[i].parent == b[i].parent && a[i].structs == b[i].structs && a[i].enums == b[i].enums
    ensures HasStruct(Chain(a, id), n) == HasStruct(Chain(b, id), n)
    ensures HasEnum(Chain(a, id), n) == HasEnum(Chain(b, id), n)
    decreases id
  {
    if id > 0 {
      TagsKeep(a, b, a[id].parent, n);
      TagsStep(a, id, n);
      TagsStep(b, id, n);
    } else {
      assert Chain(a, 0) == [a[0]] && Chain(b, 0) == [b[0]];
      TagsOne(a[0], n);
      TagsOne(b[0], n);
    }
  }

  lemma TagsOne(s: Scope, n: string)
    ensures HasStruct([s], n) <==> n in s.structs
    ensures HasEnum([s], n) <==> n in s.enums
  {
    assert [s][0] == s;
  }

  lemma {:induction false} TagsStep(a: seq<Scope>, id: nat, n: string)
    requires Nested(a) && 0 < id < |a|
    ensures HasStruct(Chain(a, id), n) <==> n in a[id].structs || HasStruct(Chain(a, a[id].parent), n)
    ensures HasEnum(Chain(a, id), n) <==> n in a[id].enums || HasEnum(Chain(a, a[id].parent), n)
  {
    var c, d := Chain(a, id), Chain(a, a[id].parent);
    assert c == [a[id]] + d && c[0] == a[id];
    assert forall i :: 0 <= i < |d| ==> d[i] == c[i + 1];
    assert forall i :: 1 <= i < |c| ==> c[i] == d[i - 1];
  }

  /** A visible name that is not declared means what it meant, from every scope. */
  lemma {:induction false} MeantKeeps(a: seq<Scope>, b: seq<Scope>, cur: nat, xs: set<string>, id: nat, n: string)
    requires Became(a, b, cur, xs) && id < |a| && Visible(n) && n !in xs
    ensures Meant(a, id, n) == Meant(b, id, n)
  {
    hide Chain, Innermost;
    forall i | 0 <= i <= id
      ensures a[i].parent == b[i].parent && (n in b[i].symbols <==> n in a[i].symbols)
      ensures n in a[i].symbols ==> b[i].symbols[n] == a[i].symbols[n]
    {
      assert ScopeBecame(a[i], b[i], if i == cur then xs else {});
    }
    LookupKeeps(a, b, id, n);
  }

  lemma {:induction false} VariableHides(b: seq<Scope>, cur: nat, n: string)
    requires Nested(b) && cur < |b| && n in b[cur].symbols && b[cur].symbols[n].VarSym?
    ensures Meant(b, cur, n) == None
  {
    assert Chain(b, cur)[0] == b[cur];
  }

  function Declared(e: Names, xs: set<string>): Names {
    e.(bound := e.bound + xs, types := e.types - xs)
  }

  /** New variables are names a program can write, and not yet bound in their scope. */
  predicate Fresh(e: Names, xs: set<string>) {
    forall x :: x in xs ==> Plain(x) && Visible(x) && x !in e.bound
  }

  lemma {:induction false} SeesAfter(a: seq<Scope>, b: seq<Scope>, cur: nat, xs: set<string>, e: Names)
    requires Sees(a, cur, e) && Became(a, b, cur, xs) && Fresh(e, xs)
    ensures Sees(b, cur, Declared(e, xs))
  {
    hide Chain, HasStruct, HasEnum, Meant, Nested;
    var f := Declared(e, xs);
    assert ScopeBecame(a[cur], b[cur], xs) && ScopeBecame(a[0], b[0], if 0 == cur then xs else {});
    forall n | Visible(n)
      ensures Meant(b, cur, n) == if n in f.types then Some(f.types[n]) else None
    {
      if n in xs {
        VariableHides(b, cur, n);
      } else {
        MeantKeeps(a, b, cur, xs, cur, n);
      }
    }
    forall n
      ensures HasStruct(Chain(a, cur), n) == HasStruct(Chain(b, cur), n) && HasEnum(Chain(a, cur), n) == HasEnum(Chain(b, cur), n)
    {
      assert forall i :: 0 <= i <= cur ==> ScopeBecame(a[i], b[i], if i == cur then xs else {});
      TagsKeep(a, b, cur, n);
    }
    forall n | SignatureName(n)
      ensures Meant(b, 0, n) == Meant(a, 0, n)
    {
      MeantKeeps(a, b, cur, xs, 0, n);
    }
  }

  lemma {:induction false} SeesSame(a: seq<Scope>, b: seq<Scope>, cur: nat, e: Names)
    requires Sees(a, cur, e) && Became(a, b, cur, {})
    ensures Sees(b, cur, e)
  {
    hide Sees, Became;
    SeesAfter(a, b, cur, {}, e);
    assert Declared(e, {}) == e;
  }

  // Steps

  lemma KnownBecame(s: State, scope: nat, name: string)
    requires Nested(s.scopes) && s.current < |s.scopes| && !Plain(name) && !Visible(name)
    ensures Became(s.scopes, Known(s, scope, name).scopes, s.current, {})
    ensures Known(s, scope, name) == s.(scopes := Known(s, scope, name).scopes)
  {
    hide Onward, Reaches, Good;
  }

  lemma BindBecame(s: State, x: string, typ: Option<string>)
    requires Nested(s.scopes) && s.current < |s.scopes| && Free(s, s.current, x) && Visible(x)
    ensures Became(s.scopes, Bind(s, s.current, x, VarSym(typ)).scopes, s.current, {x})
  {
  }

  lemma {:induction false} EnterSees(s: State, e: Names)
    requires Sees(s.scopes, s.current, e)
    ensures var t := Entered(s); Sees(t.scopes, t.current, e.(bound := {}))
  {
    hide HasStruct, HasEnum, Innermost;
    var t := Entered(s);
    EnterPushes(s.scopes, s.current);
    forall n
      ensures Meant(t.scopes, t.current, n) == Meant(s.scopes, s.current, n)
      ensures HasStruct(Chain(t.scopes, t.current), n) == HasStruct(Chain(s.scopes, s.current), n)
      ensures HasEnum(Chain(t.scopes, t.current), n) == HasEnum(Chain(s.scopes, s.current), n)
    {
      EmptyOnTop(Chain(s.scopes, s.current), Scope(s.current, map[], {}, {}), n);
    }
    forall n
      ensures Meant(t.scopes, 0, n) == Meant(s.scopes, 0, n)
    {
      assert Chain(t.scopes, 0) == [t.scopes[0]] == Chain(s.scopes, 0);
    }
  }

  lemma {:induction false} EmptyOnTop(c: seq<Scope>, s: Scope, n: string)
    requires n !in s.symbols && n !in s.structs && n !in s.enums
    ensures Innermost([s] + c, n) == Innermost(c, n)
    ensures HasStruct([s] + c, n) == HasStruct(c, n)
    ensures HasEnum([s] + c, n) == HasEnum(c, n)
  {
    var d := [s] + c;
    assert d[1..] == c;
    assert forall i :: 0 <= i < |c| ==> c[i] == d[i + 1];
    assert forall i :: 1 <= i < |d| ==> d[i] == c[i - 1];
  }

  /** Whatever a scope declares is gone when it is left. */
  lemma ExitBecame(s: State, t: State, xs: set<string>)
    requires Nested(s.scopes) && s.current < |s.scopes| && t.current == Entered(s).current
    requires Became(Entered(s).scopes, t.scopes, Entered(s).current, xs)
    ensures Became(s.scopes, Exited(t).scopes, s.current, {}) && Exited(t).current == s.current
  {
    hide ScopeBecame;
    var e := Entered(s);
    assert ScopeBecame(e.scopes[e.current], t.scopes[e.current], xs);
    SameParent(e.scopes[e.current], t.scopes[e.current], xs);
    forall i | 0 <= i < |s.scopes|
      ensures ScopeBecame(s.scopes[i], t.scopes[i], {})
    {
      assert ScopeBecame(e.scopes[i], t.scopes[i], {});
    }
  }

  lemma SameParent(a: Scope, b: Scope, xs: set<string>)
    requires ScopeBecame(a, b, xs)
    ensures a.parent == b.parent
  {
  }
}
