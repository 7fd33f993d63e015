/** The symbol table. */
module Scopes {
  import opened Options

  /** A variable with its declared type, if it has one, or a type with its printed form. */
  datatype Sym = VarSym(typ: Option<string>) | TypeSym(shown: string, complete: bool)

  datatype Scope = Scope(parent: nat, symbols: map<string, Sym>, structs: set<string>, enums: set<string>)

  /** Scope 0 is global; every other scope was made after its parent. */
  predicate Nested(scopes: seq<Scope>) {
    |scopes| > 0 && scopes[0].parent == 0 && forall i :: 0 < i < |scopes| ==> scopes[i].parent < i
  }

  /** The scopes seen from `id`, innermost first. */
  function Chain(scopes: seq<Scope>, id: nat): (c: seq<Scope>)
    requires Nested(scopes) && id < |scopes|
    decreases id
  {
    if id == 0 then [scopes[0]] else [scopes[id]] + Chain(scopes, scopes[id].parent)
  }

  // Lookup on a stack of scopes, innermost first

  function Innermost(stack: seq<Scope>, name: string): Option<Sym> {
    if stack == [] then None
    else if name in stack[0].symbols then Some(stack[0].symbols[name])
    else Innermost(stack[1..], name)
  }

  predicate HasStruct(stack: seq<Scope>, name: string) {
    exists i :: 0 <= i < |stack| && name in stack[i].structs
  }

  predicate HasEnum(stack: seq<Scope>, name: string) {
    exists i :: 0 <= i < |stack| && name in stack[i].enums
  }

  /** The innermost binding if it is a type; a variable of that name hides outer types. */
  function TypeNamed(stack: seq<Scope>, name: string): Option<Sym> {
    var s := Innermost(stack, name);
    if s.Some? && s.value.TypeSym? then s else None
  }

  // The tree behaves as a stack

  lemma {:induction false} ChainKeeps(a: seq<Scope>, b: seq<Scope>, id: nat)
    requires Nested(a) && Nested(b) && id < |a| <= |b| && forall i :: 0 <= i <= id ==> a[i] == b[i]
    ensures Chain(a, id) == Chain(b, id)
    decreases id
  {
    if id > 0 {
      ChainKeeps(a, b, a[id].parent);
    }
  }

  /** Entering pushes an empty scope. */
  lemma {:induction false} EnterPushes(scopes: seq<Scope>, current: nat)
    requires Nested(scopes) && current < |scopes|
    ensures var s := Scope(current, map[], {}, {});
      Nested(scopes + [s]) && Chain(scopes + [s], |scopes|) == [s] + Chain(scopes, current)
  {
    var more := scopes + [Scope(current, map[], {}, {})];
    ChainKeeps(scopes, more, current);
  }

  /** Leaving pops; the global scope stays. */
  lemma {:induction false} ExitPops(scopes: seq<Scope>, current: nat)
    requires Nested(scopes) && 0 < current < |scopes|
    ensures Chain(scopes, scopes[current].parent) == Chain(scopes, current)[1..]
  {
  }

  /** A change to the current scope is a change to the top of the stack. */
  lemma ChangeTop(scopes: seq<Scope>, current: nat, s: Scope)
    requires Nested(scopes) && current < |scopes| && s.parent == scopes[current].parent
    ensures Nested(scopes[current := s]) && Chain(scopes[current := s], current) == [s] + Chain(scopes, current)[1..]
  {
    var more := scopes[current := s];
    if current > 0 {
      ChainKeeps(scopes, more, scopes[current].parent);
    }
  }

  /** What is declared in the current scope is what lookup finds there, whatever outer scopes say. */
  lemma {:induction false} DeclaredIsFound(scopes: seq<Scope>, current: nat, name: string, sym: Sym)
    requires Nested(scopes) && current < |scopes| && name !in scopes[current].symbols
    ensures var s := scopes[current].(symbols := scopes[current].symbols[name := sym]);
      && Nested(scopes[current := s]) && Innermost(Chain(scopes[current := s], current), name) == Some(sym)
      && forall n :: n != name ==> Innermost(Chain(scopes[current := s], current), n) == Innermost(Chain(scopes, current), n)
  {
    var s := scopes[current].(symbols := scopes[current].symbols[name := sym]);
    ChangeTop(scopes, current, s);
    var c := Chain(scopes, current);
    assert c == [scopes[current]] + c[1..];
    assert ([s] + c[1..])[1..] == c[1..];
  }

  /** Marks the innermost binding of `name` as complete when it is a type. */
  function Completed(scopes: seq<Scope>, id: nat, name: string): (r: seq<Scope>)
    requires Nested(scopes) && id < |scopes|
    decreases id
  {
    if name in scopes[id].symbols then
      if scopes[id].symbols[name].TypeSym? then
        scopes[id := scopes[id].(symbols := scopes[id].symbols[name := scopes[id].symbols[name].(complete := true)])]
      else scopes
    else if id == 0 then scopes
    else Completed(scopes, scopes[id].parent, name)
  }

  /** Same parents, possibly more scopes. */
  predicate Grown(a: seq<Scope>, b: seq<Scope>) {
    |a| <= |b| && forall i :: 0 <= i < |a| ==> a[i].parent == b[i].parent
  }

  class SymTab {
    var scopes: seq<Scope>
    var current: nat

    ghost predicate Valid()
      reads this
    {
      Nested(scopes) && current < |scopes|
    }

    ghost function Stack(): seq<Scope>
      requires Valid()
      reads this
    {
      Chain(scopes, current)
    }

    constructor ()
      ensures Valid() && current == 0 && |scopes| == 1
      ensures forall k :: k in PRIMITIVES ==> TypeNamed(Stack(), k) == Some(TypeSym(k, true))
    {
      scopes := [Scope(0, map k | k in PRIMITIVES :: TypeSym(k, true), {}, {})];
      current := 0;
    }

    method EnterScope()
      requires Valid()
      modifies this
      ensures Valid() && Grown(old(scopes), scopes) && current == |old(scopes)|
      ensures scopes == old(scopes) + [Scope(old(current), map[], {}, {})]
      ensures Stack() == [Scope(old(current), map[], {}, {})] + old(Stack())
    {
      EnterPushes(scopes, current);
      scopes := scopes + [Scope(current, map[], {}, {})];
      current := |scopes| - 1;
    }

    method ExitScope()
      requires Valid()
      modifies this`current
      ensures Valid() && current == (if old(current) == 0 then 0 else scopes[old(current)].parent)
      ensures old(current) != 0 ==> Stack() == old(Stack())[1..]
    {
      if current != 0 {
        ExitPops(scopes, current);
        current := scopes[current].parent;
      }
    }

    /** Walks the parents; terminates because a parent's number is smaller. */
    method Lookup(name: string, start: nat) returns (s: Option<Sym>)
      requires Valid()
      ensures start >= |scopes| ==> s == None
      ensures start < |scopes| ==> s == Innermost(Chain(scopes, start), name)
    {
      if start >= |scopes| {
        return None;
      }
      var id: nat := start;
      while true
        invariant id < |scopes| && Innermost(Chain(scopes, start), name) == Innermost(Chain(scopes, id), name)
        decreases id
      {
        if name in scopes[id].symbols {
          return Some(scopes[id].symbols[name]);
        }
        if id == 0 {
          break;
        }
        assert Chain(scopes, id)[1..] == Chain(scopes, scopes[id].parent);
        id := scopes[id].parent;
      }
      return None;
    }

    method LookupStruct(name: string, start: nat) returns (found: bool)
      requires Valid()
      ensures start >= |scopes| ==> !found
      ensures start < |scopes| ==> found == HasStruct(Chain(scopes, start), name)
    {
      if start >= |scopes| {
        return false;
      }
      var id: nat := start;
      while true
        invariant id < |scopes| && HasStruct(Chain(scopes, start), name) == HasStruct(Chain(scopes, id), name)
        decreases id
      {
        if name in scopes[id].structs {
          assert name in Chain(scopes, id)[0].structs;
          return true;
        }
        if id == 0 {
          break;
        }
        StructAbove(scopes, id, name);
        id := scopes[id].parent;
      }
      return false;
    }

    method LookupEnum(name: string, start: nat) returns (found: bool)
      requires Valid()
      ensures start >= |scopes| ==> !found
      ensures start < |scopes| ==> found == HasEnum(Chain(scopes, start), name)
    {
      if start >= |scopes| {
        return false;
      }
      var id: nat := start;
      while true
        invariant id < |scopes| && HasEnum(Chain(scopes, start), name) == HasEnum(Chain(scopes, id), name)
        decreases id
      {
        if name in scopes[id].enums {
          assert name in Chain(scopes, id)[0].enums;
          return true;
        }
        if id == 0 {
          break;
        }
        EnumAbove(scopes, id, name);
        id := scopes[id].parent;
      }
      return false;
    }

    /** Fails, changing nothing, when the scope already binds the name. */
    method Declare(name: string, sym: Sym, scope: nat) returns (ok: bool)
      requires Valid() && scope < |scopes|
      modifies this`scopes
      ensures Valid() && Grown(old(scopes), scopes) && |scopes| == |old(scopes)|
      ensures ok <==> name !in old(scopes)[scope].symbols
      ensures !ok ==> scopes == old(scopes)
      ensures ok ==> scopes == old(scopes)[scope := old(scopes)[scope].(symbols := old(scopes)[scope].symbols[name := sym])]
    {
      ok := name !in scopes[scope].symbols;
      if ok {
        scopes := scopes[scope := scopes[scope].(symbols := scopes[scope].symbols[name := sym])];
      }
    }

    method DeclareStruct(name: string, scope: nat) returns (ok: bool)
      requires Valid() && scope < |scopes|
      modifies this`scopes
      ensures Valid() && Grown(old(scopes), scopes) && |scopes| == |old(scopes)|
      ensures ok <==> name !in old(scopes)[scope].structs
      ensures scopes == old(scopes)[scope := old(scopes)[scope].(structs := old(scopes)[scope].structs + {name})]
    {
      ok := name !in scopes[scope].structs;
      scopes := scopes[scope := scopes[scope].(structs := scopes[scope].structs + {name})];
    }

    method DeclareEnum(name: string, scope: nat) returns (ok: bool)
      requires Valid() && scope < |scopes|
      modifies this`scopes
      ensures Valid() && Grown(old(scopes), scopes) && |scopes| == |old(scopes)|
      ensures ok <==> name !in old(scopes)[scope].enums
      ensures scopes == old(scopes)[scope := old(scopes)[scope].(enums := old(scopes)[scope].enums + {name})]
    {
      ok := name !in scopes[scope].enums;
      scopes := scopes[scope := scopes[scope].(enums := scopes[scope].enums + {name})];
    }

    /** Marks what `name` means from the current scope as complete, when that is a type. */
    method Complete(name: string)
      requires Valid()
      modifies this`scopes
      ensures scopes == Completed(old(scopes), current, name)
    {
      var id: nat := current;
      while name !in scopes[id].symbols && id > 0
        invariant id < |scopes| && Completed(scopes, current, name) == Completed(scopes, id, name)
        decreases id
      {
        id := scopes[id].parent;
      }
      if name in scopes[id].symbols && scopes[id].symbols[name].TypeSym? {
        var s := scopes[id].symbols[name];
        scopes := scopes[id := scopes[id].(symbols := scopes[id].symbols[name := s.(complete := true)])];
      }
    }
  }

  const PRIMITIVES: set<string> := {"u0", "u8", "u16", "u32", "u64", "i8", "i16", "i32", "i64", "f64", "bool"}

  lemma {:induction false} StructAbove(scopes: seq<Scope>, id: nat, name: string)
    requires Nested(scopes) && 0 < id < |scopes| && name !in scopes[id].structs
    ensures HasStruct(Chain(scopes, id), name) == HasStruct(Chain(scopes, scopes[id].parent), name)
  {
    var c, d := Chain(scopes, id), Chain(scopes, scopes[id].parent);
    assert c == [scopes[id]] + d;
    assert forall i :: 0 <= i < |d| ==> d[i] == c[i + 1];
  }

  lemma {:induction false} EnumAbove(scopes: seq<Scope>, id: nat, name: string)
    requires Nested(scopes) && 0 < id < |scopes| && name !in scopes[id].enums
    ensures HasEnum(Chain(scopes, id), name) == HasEnum(Chain(scopes, scopes[id].parent), name)
  {
    var c, d := Chain(scopes, id), Chain(scopes, scopes[id].parent);
    assert c == [scopes[id]] + d;
    assert forall i :: 0 <= i < |d| ==> d[i] == c[i + 1];
  }
}
