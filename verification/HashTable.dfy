/** Open addressing. */
module HashTable {
  import opened Options
  import opened Arith

  type Byte = b: int | 0 <= b < 256
  type Key = seq<Byte>

  /** A slot; an unoccupied one holds whatever the allocator left there. */
  datatype Entry = Entry(key: Key, value: int, occupied: bool)

  /** The hash of the first `n` bytes, in wrapping 64-bit arithmetic. */
  function Djb2(key: Key, n: nat): (h: nat)
    requires n <= |key|
    ensures h < TWO64
  {
    if n == 0 then 5381 else ((Djb2(key, n - 1) * 32 % TWO64 + Djb2(key, n - 1)) % TWO64 + key[n - 1]) % TWO64
  }

  /** Where the probe for a key starts. */
  function Home(key: Key, cap: nat): (i: nat)
    requires cap > 0
    ensures i < cap
  {
    Djb2(key, |key|) % cap
  }

  /** `d` probe steps on from slot `from`. */
  function At(from: nat, d: nat, cap: nat): (i: nat)
    requires from < cap && d < cap
    ensures i < cap
  {
    if from + d < cap then from + d else from + d - cap
  }

  function Dist(from: nat, i: nat, cap: nat): (d: nat)
    requires from < cap && i < cap
    ensures d < cap && At(from, d, cap) == i
  {
    if i >= from then i - from else i - from + cap
  }

  /** No gap between a key's home slot and the slot that holds it. */
  predicate Chained(es: seq<Entry>, i: nat)
    requires i < |es|
  {
    var h := Home(es[i].key, |es|);
    forall d :: 0 <= d < Dist(h, i, |es|) ==> es[At(h, d, |es|)].occupied
  }

  predicate Distinct(es: seq<Entry>) {
    forall i, j :: 0 <= i < j < |es| && es[i].occupied && es[j].occupied ==> es[i].key != es[j].key
  }

  predicate Ok(es: seq<Entry>) {
    |es| > 0 && Distinct(es) && forall i :: 0 <= i < |es| && es[i].occupied ==> Chained(es, i)
  }

  // The map a table stands for

  function Prefix(es: seq<Entry>, n: nat): (m: map<Key, int>)
    requires n <= |es|
    ensures |m| <= n
  {
    if n == 0 then map[]
    else
      var m := Prefix(es, n - 1);
      if es[n - 1].occupied then AddedSize(m, es[n - 1].key, es[n - 1].value); m[es[n - 1].key := es[n - 1].value] else m
  }

  function Contents(es: seq<Entry>): map<Key, int> {
    Prefix(es, |es|)
  }

  lemma AddedSize(m: map<Key, int>, k: Key, v: int)
    ensures |m[k := v]| == if k in m then |m| else |m| + 1
  {
    var n := m[k := v];
    if k in m {
      assert n.Keys == m.Keys;
    } else {
      assert n.Keys == m.Keys + {k};
    }
    assert |n.Keys| == |n| && |m.Keys| == |m|;
  }

  /** A key is in the map exactly when an occupied slot holds it, and then with that slot's value. */
  lemma {:induction false} PrefixHas(es: seq<Entry>, n: nat, k: Key)
    requires n <= |es| && Distinct(es)
    ensures k in Prefix(es, n) ==> exists i :: 0 <= i < n && es[i].occupied && es[i].key == k && es[i].value == Prefix(es, n)[k]
    ensures forall i :: 0 <= i < n && es[i].occupied && es[i].key == k ==> k in Prefix(es, n) && Prefix(es, n)[k] == es[i].value
  {
    if n > 0 {
      PrefixHas(es, n - 1, k);
    }
  }

  /** A table with every slot taken has as many keys as slots. */
  lemma {:induction false} PrefixFull(es: seq<Entry>, n: nat)
    requires n <= |es| && Distinct(es) && forall i :: 0 <= i < n ==> es[i].occupied
    ensures |Prefix(es, n)| == n
  {
    if n > 0 {
      PrefixFull(es, n - 1);
      PrefixHas(es, n - 1, es[n - 1].key);
      AddedSize(Prefix(es, n - 1), es[n - 1].key, es[n - 1].value);
    }
  }

  lemma FreeSlot(es: seq<Entry>) returns (i: nat)
    requires Ok(es) && |Contents(es)| < |es|
    ensures i < |es| && !es[i].occupied
  {
    if forall j :: 0 <= j < |es| ==> es[j].occupied {
      PrefixFull(es, |es|);
      assert false;
    }
    i :| 0 <= i < |es| && !es[i].occupied;
  }

  // Probing

  /** The first `d` slots from the home of `k` are taken by other keys. */
  predicate Passed(es: seq<Entry>, k: Key, d: nat)
    requires |es| > 0 && d <= |es|
  {
    forall e :: 0 <= e < d ==> es[At(Home(k, |es|), e, |es|)].occupied && es[At(Home(k, |es|), e, |es|)].key != k
  }

  /** A probe cannot pass every slot of a table that has a free one. */
  lemma {:induction false} NotAllPassed(es: seq<Entry>, k: Key)
    requires Ok(es) && |Contents(es)| < |es|
    ensures !Passed(es, k, |es|)
  {
    var i := FreeSlot(es);
    var d := Dist(Home(k, |es|), i, |es|);
    assert !es[At(Home(k, |es|), d, |es|)].occupied;
  }

  /** An absent key: the probe stopped at a free slot, or went all round. */
  lemma {:induction false} NotFound(es: seq<Entry>, k: Key, d: nat)
    requires Ok(es) && d <= |es| && Passed(es, k, d)
    requires d == |es| || !es[At(Home(k, |es|), d, |es|)].occupied
    ensures k !in Contents(es)
  {
    var h := Home(k, |es|);
    forall i | 0 <= i < |es| && es[i].occupied
      ensures es[i].key != k
    {
      var e := Dist(h, i, |es|);
      assert es[At(h, e, |es|)] == es[i];
      if e >= d {
        assert Chained(es, i) && At(h, d, |es|) != i;
      }
    }
    PrefixHas(es, |es|, k);
  }

  lemma Found(es: seq<Entry>, k: Key, i: nat)
    requires Ok(es) && i < |es| && es[i].occupied && es[i].key == k
    ensures k in Contents(es) && Contents(es)[k] == es[i].value
  {
    PrefixHas(es, |es|, k);
  }

  // Writing a slot

  /** Setting slot `i` for `k`: an overwrite, or the free slot the probe stopped at. */
  predicate MayWrite(es: seq<Entry>, k: Key, i: nat) {
    && Ok(es) && i < |es|
    && (es[i].occupied ==> es[i].key == k)
    && (!es[i].occupied ==> k !in Contents(es) && Passed(es, k, Dist(Home(k, |es|), i, |es|)))
  }

  lemma WriteDistinct(es: seq<Entry>, k: Key, v: int, i: nat)
    requires MayWrite(es, k, i)
    ensures Distinct(es[i := Entry(k, v, true)])
  {
    PrefixHas(es, |es|, k);
  }

  lemma WriteChained(es: seq<Entry>, k: Key, v: int, i: nat, j: nat)
    requires MayWrite(es, k, i) && j < |es| && es[i := Entry(k, v, true)][j].occupied
    ensures Chained(es[i := Entry(k, v, true)], j)
  {
    var fs := es[i := Entry(k, v, true)];
    var h := Home(fs[j].key, |fs|);
    forall d | 0 <= d < Dist(h, j, |fs|)
      ensures fs[At(h, d, |fs|)].occupied
    {
      if j == i && !es[i].occupied {
        assert es[At(h, d, |es|)].occupied;
      } else {
        assert Chained(es, j);
        assert es[At(h, d, |es|)].occupied;
      }
    }
  }

  lemma {:induction false} WritePrefix(es: seq<Entry>, k: Key, v: int, i: nat, n: nat)
    requires MayWrite(es, k, i) && n <= |es|
    ensures Prefix(es[i := Entry(k, v, true)], n) == if i < n then Prefix(es, n)[k := v] else Prefix(es, n)
  {
    if n > 0 {
      WritePrefix(es, k, v, i, n - 1);
      var fs := es[i := Entry(k, v, true)];
      if i == n - 1 {
        assert Prefix(fs, n) == Prefix(es, n - 1)[k := v];
        if es[i].occupied {
          assert Prefix(es, n - 1)[k := es[i].value][k := v] == Prefix(es, n - 1)[k := v];
        }
      } else if i < n - 1 && es[n - 1].occupied {
        assert es[n - 1].key != k by { OtherKey(es, k, i, n - 1); }
        SwapUpdates(Prefix(es, n - 1), k, v, es[n - 1].key, es[n - 1].value);
      }
    }
  }

  lemma SwapUpdates(m: map<Key, int>, a: Key, x: int, b: Key, y: int)
    requires a != b
    ensures m[a := x][b := y] == m[b := y][a := x]
  {
  }

  lemma OtherKey(es: seq<Entry>, k: Key, i: nat, j: nat)
    requires MayWrite(es, k, i) && j < |es| && j != i && es[j].occupied
    ensures es[j].key != k
  {
    if es[j].key == k {
      Found(es, k, j);
    }
  }

  /** The table after the write is in order and stands for the updated map. */
  lemma {:induction false} WriteOk(es: seq<Entry>, k: Key, v: int, i: nat)
    requires MayWrite(es, k, i)
    ensures Ok(es[i := Entry(k, v, true)]) && Contents(es[i := Entry(k, v, true)]) == Contents(es)[k := v]
  {
    var fs := es[i := Entry(k, v, true)];
    WriteDistinct(es, k, v, i);
    forall j | 0 <= j < |fs| && fs[j].occupied
      ensures Chained(fs, j)
    {
      WriteChained(es, k, v, i, j);
    }
    WritePrefix(es, k, v, i, |es|);
  }

  lemma {:induction false} EmptyPrefix(es: seq<Entry>, n: nat)
    requires n <= |es| && forall i :: 0 <= i < |es| ==> !es[i].occupied
    ensures Prefix(es, n) == map[]
  {
    if n > 0 {
      EmptyPrefix(es, n - 1);
    }
  }

  lemma EmptyOk(es: seq<Entry>)
    requires |es| > 0 && forall i :: 0 <= i < |es| ==> !es[i].occupied
    ensures Ok(es) && Contents(es) == map[]
  {
    EmptyPrefix(es, |es|);
  }

  function Pow33(n: nat): nat {
    if n == 0 then 1 else 33 * Pow33(n - 1)
  }

  /** The first `n` bytes as the digits of a number in base 33. */
  function Base33(key: Key, n: nat): nat
    requires n <= |key|
  {
    if n == 0 then 0 else 33 * Base33(key, n - 1) + key[n - 1]
  }

  /** The hash in closed form. */
  lemma {:induction false} Djb2Closed(key: Key, n: nat)
    requires n <= |key|
    ensures Djb2(key, n) == (5381 * Pow33(n) + Base33(key, n)) % TWO64
  {
    if n > 0 {
      Djb2Closed(key, n - 1);
      var x := 5381 * Pow33(n - 1) + Base33(key, n - 1);
      HashStep(Djb2(key, n - 1), x, key[n - 1]);
    }
  }

  lemma HashStep(h: nat, x: nat, c: nat)
    requires h == x % TWO64
    ensures ((h * 32 % TWO64 + h) % TWO64 + c) % TWO64 == (33 * x + c) % TWO64
  {
    var q := x / TWO64;
    assert x == q * TWO64 + h;
    assert (33 * x + c) == (33 * q) * TWO64 + (33 * h + c);
    ModDrop(33 * q, 33 * h + c);
    ModDrop((h * 32) / TWO64, (h * 32) % TWO64 + h + c);
    var y := h * 32 % TWO64 + h;
    ModDrop(y / TWO64, y % TWO64 + c);
  }

  lemma ModDrop(q: nat, r: nat)
    ensures (q * TWO64 + r) % TWO64 == r % TWO64
  {
    DivUnique(q * TWO64 + r, TWO64, q + r / TWO64, r % TWO64);
  }
}
