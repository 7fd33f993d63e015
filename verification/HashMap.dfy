/** The growing hash map. */
module HashMap {
  import opened Options
  import opened Arith
  import opened HashTable

  method MapHash(key: Key) returns (h: nat)
    ensures h == Djb2(key, |key|)
  {
    h := 5381;
    var i := 0;
    while i < |key|
      invariant 0 <= i <= |key| && h == Djb2(key, i)
    {
      h := ((h * 32 % TWO64 + h) % TWO64 + key[i]) % TWO64;
      i := i + 1;
    }
  }

  lemma NextAt(from: nat, d: nat, cap: nat)
    requires from < cap && d + 1 < cap
    ensures (At(from, d, cap) + 1) % cap == At(from, d + 1, cap)
  {
    var i := At(from, d, cap);
    if i + 1 == cap {
      assert cap % cap == 0;
    }
  }

  /** Going round once comes back to the start. */
  lemma AllRound(from: nat, cap: nat)
    requires from < cap
    ensures (At(from, cap - 1, cap) + 1) % cap == from
  {
    if from == 0 {
      assert cap % cap == 0;
    }
  }

  lemma AtApart(from: nat, d: nat, e: nat, cap: nat)
    requires from < cap && d < e < cap
    ensures At(from, d, cap) != At(from, e, cap)
  {
  }

  lemma DistAt(from: nat, d: nat, cap: nat)
    requires from < cap && d < cap
    ensures Dist(from, At(from, d, cap), cap) == d
  {
  }

  /** Overwrites the value of `key`, or takes the first free slot of its probe. */
  method InsertInternal(entries: array<Entry>, key: Key, value: int)
    requires Ok(entries[..]) && |Contents(entries[..])| < entries.Length
    modifies entries
    ensures Ok(entries[..]) && Contents(entries[..]) == old(Contents(entries[..]))[key := value]
  {
    hide Ok, Contents, Djb2, Passed;
    var cap := entries.Length;
    var hash := MapHash(key);
    var index := hash % cap;
    ghost var es, home, d := entries[..], Home(key, cap), 0;
    NonePassed(es, key);
    while entries[index].occupied
      invariant d < cap && index == At(home, d, cap) && entries[..] == es && Passed(es, key, d)
      decreases cap - d
    {
      if entries[index].key == key {
        entries[index] := entries[index].(value := value);
        assert entries[..] == es[index := Entry(key, value, true)];
        WriteOk(es, key, value, index) by { MayOverwrite(es, key, index); }
        return;
      }
      PassedOne(es, key, d);
      NotAllPassed(es, key);
      NextAt(home, d, cap);
      index := (index + 1) % cap;
      d := d + 1;
    }
    entries[index] := Entry(key, value, true);
    assert entries[..] == es[index := Entry(key, value, true)];
    NotFound(es, key, d);
    DistAt(home, d, cap);
    MayTake(es, key, index);
    WriteOk(es, key, value, index);
  }

  lemma NonePassed(es: seq<Entry>, k: Key)
    requires |es| > 0
    ensures Passed(es, k, 0)
  {
  }

  lemma PassedOne(es: seq<Entry>, k: Key, d: nat)
    requires |es| > 0 && d < |es| && Passed(es, k, d)
    requires var e := es[At(Home(k, |es|), d, |es|)]; e.occupied && e.key != k
    ensures Passed(es, k, d + 1)
  {
  }

  lemma MayOverwrite(es: seq<Entry>, k: Key, i: nat)
    requires Ok(es) && i < |es| && es[i].occupied && es[i].key == k
    ensures MayWrite(es, k, i)
  {
  }

  lemma MayTake(es: seq<Entry>, k: Key, i: nat)
    requires Ok(es) && i < |es| && !es[i].occupied && k !in Contents(es) && Passed(es, k, Dist(Home(k, |es|), i, |es|))
    ensures MayWrite(es, k, i)
  {
  }

  /** Values are addresses; 0 is null. */
  const NULL: int := 0

  class Map {
    var entries: array<Entry>
    var len: nat
    var cap: nat

    /** `len` counts overwrites too, so it only bounds the number of keys. */
    ghost predicate Valid()
      reads this, entries
    {
      && entries.Length == cap && Ok(entries[..])
      && |Contents(entries[..])| <= len <= cap
    }

    ghost function View(): map<Key, int>
      reads this, entries
    {
      Contents(entries[..])
    }

    constructor (initialCapacity: int)
      ensures Valid() && View() == map[] && len == 0 && cap == (if initialCapacity <= 0 then 16 else initialCapacity)
      ensures fresh(entries)
    {
      var n := if initialCapacity <= 0 then 16 else initialCapacity;
      entries := new Entry[n];
      len := 0;
      cap := n;
      new;
      ClearAll(entries);
    }

    /** Puts a value; doubles the table first when half of it is used. */
    method Put(key: Option<Key>, value: int)
      requires Valid()
      modifies this, entries
      ensures Valid() && (entries == old(entries) || fresh(entries))
      ensures key.None? ==> View() == old(View()) && len == old(len) && cap == old(cap)
      ensures key.Some? ==> View() == old(View())[key.value := value] && len == old(len) + 1
      ensures key.Some? ==> cap == if old(len) * 2 >= old(cap) then old(cap) * 2 else old(cap)
    {
      hide Ok, Contents;
      if key.None? {
        return;
      }
      OkNonEmpty(entries[..]);
      if len * 2 >= cap {
        Grow();
      }
      ghost var m := View();
      AddedSize(m, key.value, value);
      InsertInternal(entries, key.value, value);
      len := len + 1;
    }

    method Grow()
      requires Valid()
      modifies this
      ensures Valid() && fresh(entries) && View() == old(View()) && len == old(len) && cap == 2 * old(cap)
    {
      hide Ok, Contents, Prefix;
      var newCap := cap * 2;
      OkNonEmpty(entries[..]);
      var newEntries := new Entry[newCap];
      ClearAll(newEntries);
      ghost var es := entries[..];
      PrefixStart(es);
      for i := 0 to cap
        invariant entries == old(entries) && entries[..] == es && cap == old(cap) && len == old(len) && |es| == cap
        invariant Ok(newEntries[..]) && Contents(newEntries[..]) == Prefix(es, i)
      {
        PrefixNext(es, i);
        if entries[i].occupied {
          InsertInternal(newEntries, entries[i].key, entries[i].value);
        }
      }
      WholePrefix(es);
      entries := newEntries;
      cap := newCap;
    }

    /** The value of a key, null for a key never put. */
    method Get(key: Option<Key>) returns (item: int)
      requires Valid()
      ensures item == if key.Some? && key.value in View() then View()[key.value] else NULL
    {
      hide Ok, Contents, Djb2, Passed;
      if key.None? || len == 0 {
        NoKeys(View());
        return NULL;
      }
      OkNonEmpty(entries[..]);
      var k := key.value;
      var hash := MapHash(k);
      var index := hash % cap;
      var startIndex := index;
      ghost var es, d := entries[..], 0;
      NonePassed(es, k);
      while entries[index].occupied
        invariant d < cap && index == At(startIndex, d, cap) && Passed(es, k, d)
        decreases cap - d
      {
        if entries[index].key == k {
          Found(es, k, index);
          return entries[index].value;
        }
        PassedOne(es, k, d);
        if d + 1 < cap {
          NextAt(startIndex, d, cap);
          AtApart(startIndex, 0, d + 1, cap);
        } else {
          AllRound(startIndex, cap);
        }
        index := (index + 1) % cap;
        d := d + 1;
        if index == startIndex {
          break;
        }
      }
      NotFound(es, k, d);
      return NULL;
    }

    /** Each key once, in an array with room for `len` of them. */
    method Keys() returns (keys: array?<Key>, count: nat)
      requires Valid()
      ensures len == 0 ==> keys == null && count == 0
      ensures len > 0 ==> keys != null && fresh(keys) && keys.Length == len && count <= len
      ensures count == |View()|
      ensures keys != null ==> forall k :: k in keys[..count] <==> k in View()
      ensures keys != null ==> forall i, j :: 0 <= i < j < count ==> keys[i] != keys[j]
    {
      hide Ok, Contents, Prefix, Distinct, Lists;
      if len == 0 {
        return null, 0;
      }
      ghost var es := entries[..];
      OkDistinct(es);
      WholePrefix(es);
      var keyArray := new Key[len];
      count := 0;
      PrefixStart(es);
      ListsNone(keyArray[..0]);
      for i := 0 to cap
        invariant entries[..] == es && count == |Prefix(es, i)| <= len && Lists(keyArray[..count], Prefix(es, i))
      {
        PrefixNext(es, i);
        PrefixSmaller(es, i + 1, cap);
        if entries[i].occupied {
          NewKey(es, i);
          AddedSize(Prefix(es, i), es[i].key, es[i].value);
          ghost var was := keyArray[..count];
          ListsMore(was, Prefix(es, i), es[i].key, es[i].value);
          keyArray[count] := entries[i].key;
          count := count + 1;
          assert keyArray[..count] == was + [es[i].key];
        }
      }
      ListsMean(keyArray[..count], View());
      assert forall i :: 0 <= i < count ==> keyArray[..count][i] == keyArray[i];
      keys := keyArray;
    }
  }

  /** The keys of `m`, each once. */
  ghost predicate Lists(ks: seq<Key>, m: map<Key, int>) {
    && (forall k :: k in ks <==> k in m)
    && forall i, j :: 0 <= i < j < |ks| ==> ks[i] != ks[j]
  }

  lemma ListsNone(ks: seq<Key>)
    requires |ks| == 0
    ensures Lists(ks, map[])
  {
  }

  lemma ListsMore(ks: seq<Key>, m: map<Key, int>, k: Key, v: int)
    requires Lists(ks, m) && k !in m
    ensures Lists(ks + [k], m[k := v])
  {
    assert forall i :: 0 <= i < |ks| ==> ks[i] in ks;
  }

  lemma ListsMean(ks: seq<Key>, m: map<Key, int>)
    requires Lists(ks, m)
    ensures forall k :: k in ks <==> k in m
    ensures forall i, j :: 0 <= i < j < |ks| ==> ks[i] != ks[j]
  {
  }

  method ClearAll(a: array<Entry>)
    requires a.Length > 0
    modifies a
    ensures Ok(a[..]) && Contents(a[..]) == map[]
  {
    for i := 0 to a.Length
      invariant forall j :: 0 <= j < i ==> !a[j].occupied
    {
      a[i] := a[i].(occupied := false);
    }
    EmptyOk(a[..]);
  }

  lemma OkNonEmpty(es: seq<Entry>)
    requires Ok(es)
    ensures |es| > 0
  {
  }

  lemma OkDistinct(es: seq<Entry>)
    requires Ok(es)
    ensures Distinct(es)
  {
  }

  lemma {:induction false} PrefixStart(es: seq<Entry>)
    ensures Prefix(es, 0) == map[]
  {
  }

  lemma PrefixNext(es: seq<Entry>, i: nat)
    requires i < |es|
    ensures Prefix(es, i + 1) == if es[i].occupied then Prefix(es, i)[es[i].key := es[i].value] else Prefix(es, i)
  {
  }

  lemma {:induction false} WholePrefix(es: seq<Entry>)
    ensures Contents(es) == Prefix(es, |es|)
  {
  }

  lemma {:induction false} PrefixSmaller(es: seq<Entry>, i: nat, n: nat)
    requires i <= n <= |es|
    ensures |Prefix(es, i)| <= |Prefix(es, n)|
    decreases n - i
  {
    if i < n {
      if es[n - 1].occupied {
        AddedSize(Prefix(es, n - 1), es[n - 1].key, es[n - 1].value);
      }
      PrefixSmaller(es, i, n - 1);
    }
  }

  lemma {:induction false} NewKey(es: seq<Entry>, i: nat)
    requires i < |es| && Distinct(es) && es[i].occupied
    ensures es[i].key !in Prefix(es, i)
  {
    PrefixHas(es, i, es[i].key);
  }

  lemma NoKeys(m: map<Key, int>)
    ensures |m| == 0 ==> m == map[]
  {
  }

  // Histories

  datatype PutOp = PutOp(key: Option<Key>, value: int)

  /** The value of the last put of `key`, looking back from the end. */
  function LastPut(ops: seq<PutOp>, key: Key): int {
    if ops == [] then NULL
    else
      var op := ops[|ops| - 1];
      if op.key == Some(key) then op.value else LastPut(ops[..|ops| - 1], key)
  }

  /** Whatever is put into a new map, `Get` answers the last value put for the key, null if there was none. */
  method Replay(initialCapacity: int, ops: seq<PutOp>, key: Key) returns (item: int)
    ensures item == LastPut(ops, key)
  {
    var m := new Map(initialCapacity);
    var i := 0;
    assert ops[..0] == [];
    while i < |ops|
      invariant 0 <= i <= |ops| && m.Valid() && fresh(m) && fresh(m.entries)
      invariant LastPut(ops[..i], key) == if key in m.View() then m.View()[key] else NULL
    {
      assert ops[..i + 1][..i] == ops[..i];
      m.Put(ops[i].key, ops[i].value);
      i := i + 1;
    }
    assert ops[..|ops|] == ops;
    item := m.Get(Some(key));
  }
}
