/** Getting registers, spilling and loading operands change nothing the unlimited machine can see. */
module BackendAlloc {
  import opened Options
  import opened Ir
  import opened A64
  import opened Backend
  import opened BackendSpec
  import opened Arith

  // The round robin

  /** How many turns after `c` the round robin reaches temporary `r`. */
  function Turns(c: Turn, r: int): int {
    if r - 9 >= c then r - 9 - c else r - 2 - c
  }

  function Later(c: Turn, n: nat): (d: int) {
    if c + n >= 7 then c + n - 7 else c + n
  }

  /** `r` is one of the next `n` temporaries. */
  predicate Soon(c: Turn, n: nat, r: int) {
    9 <= r <= 15 && Turns(c, r) < n
  }

  /** Between `m` and `m'` only x16, `dst` and the next `n` temporaries changed, and memory only inside the frame. */
  ghost predicate Quiet(l: Layout, c: Turn, n: nat, dst: int, m: Cpu, m': Cpu) {
    && m'.fp == m.fp && m'.sp == m.sp && m'.calls == m.calls
    && (forall r :: 0 <= r < 31 && r != 16 && r != dst && !Soon(c, n, r) ==> m'.x[r] == m.x[r])
    && (forall y :: y < l.fp - l.used || y >= l.fp ==> m'.mem(y) == m.mem(y))
  }

  /** Temporaries outside the next `n` hold what they held. */
  predicate Kept(c: Ctx, n: nat, d: Ctx) {
    && d.count == Later(c.count, n)
    && forall r: XReg :: 9 <= r <= 15 && !Soon(c.count, n, r) ==>
         (r in d.holds <==> r in c.holds) && (r in c.holds ==> d.holds[r] == c.holds[r])
  }

  /** From `c`, `m` to `d`, `m'` in `n` turns, writing besides those only `dst`. */
  ghost predicate Passes(l: Layout, c: Ctx, n: nat, dst: int, m: Cpu, d: Ctx, m': Cpu) {
    Quiet(l, c.count, n, dst, m, m') && Kept(c, n, d)
  }

  lemma PassesThen(l: Layout, c: Ctx, n: nat, dst: int, m: Cpu, d: Ctx, m1: Cpu, k: nat, e: Ctx, m2: Cpu)
    requires Passes(l, c, n, dst, m, d, m1) && Passes(l, d, k, dst, m1, e, m2) && n + k <= 6
    ensures Passes(l, c, n + k, dst, m, e, m2)
  {
    assert forall r :: !Soon(c.count, n + k, r) ==> !Soon(c.count, n, r) && !Soon(d.count, k, r);
  }

  /** A temporary taken `n` turns ago is untouched for `k` more turns while `n + k` stays within seven. */
  lemma {:induction false} Survives(c: Turn, n: nat, k: nat)
    requires 1 <= n && n + k <= 7 && n <= 6
    ensures Later(c, n) < 7 && !Soon(Later(c, n), k, 9 + c)
  {
  }

  lemma WrapSmall(v: int)
    requires 0 <= v < TWO64
    ensures Wrap(v) == v
  {
  }

  lemma WithinEarlier(c: Ctx, d: Ctx, l: Layout)
    requires Extends(c, d) && Within(d, l)
    ensures Within(c, l)
  {
  }

  // Changes the relation does not see

  /** `r` carries nothing the unlimited machine knows. */
  predicate Unused(c: Ctx, a: Abs, r: XReg) {
    r in c.holds ==> c.holds[r] !in a.regs
  }

  lemma SetFree(l: Layout, h: Host, c: Ctx, m: Cpu, a: Abs, r: XReg, v: Word)
    requires Rel(l, h, c, m, a) && Unused(c, a, r)
    ensures Rel(l, h, c, Set(m, r, v), a)
  {
    hide Sound, Within, A64.Load;
  }

  /** Writing the register of `id` defines `id`. */
  lemma SetHome(l: Layout, h: Host, c: Ctx, m: Cpu, a: Abs, id: int, v: Word)
    requires Rel(l, h, c, m, a) && id in c.home
    ensures Rel(l, h, c, Set(m, c.home[id], v), a.(regs := a.regs[id := v]))
  {
    hide Sound, Within, A64.Load;
  }

  lemma Announce(l: Layout, h: Host, c: Ctx, m: Cpu, a: Abs, id: int)
    requires Rel(l, h, c, m, a)
    ensures Rel(l, h, c, m, a.(seen := a.seen + {id}))
    ensures id !in a.seen ==> id !in c.home && id !in c.spilled && id !in a.regs
  {
    hide Sound, Within, A64.Load;
  }

  lemma Drop(l: Layout, h: Host, c: Ctx, m: Cpu, a: Abs, ids: set<int>)
    requires Rel(l, h, c, m, a)
    ensures Rel(l, h, c, m, a.(regs := a.regs - ids))
  {
    hide Sound, Within, A64.Load;
  }

  lemma TickRel(l: Layout, h: Host, c: Ctx, m: Cpu, a: Abs)
    requires Rel(l, h, c, m, a)
    ensures Rel(l, h, Tick(c), m, a)
  {
    hide Sound, A64.Load;
  }

  lemma FlagsRel(l: Layout, h: Host, c: Ctx, m: Cpu, a: Abs, f: (nat, Word, Word), sp: int)
    requires Rel(l, h, c, m, a)
    ensures Rel(l, h, c, m.(flags := f), a) && Rel(l, h, c, m.(sp := sp), a)
  {
    hide Sound, Within, Steady, A64.Load;
  }

  /** The relation after a change of memory that leaves the spilled values alone. */
  lemma MemRel(l: Layout, h: Host, c: Ctx, m: Cpu, a: Abs, mem: Mem, amem: Mem)
    requires Rel(l, h, c, m, a)
    requires forall i :: i in c.spilled ==> A64.Load(mem, l.fp - c.spilled[i], 8) == A64.Load(m.mem, l.fp - c.spilled[i], 8)
    requires forall y :: y in h.public ==> mem(y) == amem(y)
    ensures Rel(l, h, c, m.(mem := mem), a.(mem := amem))
  {
    hide Sound, Within, Steady, A64.Load;
  }

  lemma Parts(l: Layout, h: Host, c: Ctx, m: Cpu, a: Abs)
    requires Rel(l, h, c, m, a)
    ensures Steady(c) && Within(c, l) && Sound(l, h) && m.fp == l.fp && forall y :: y in h.public ==> m.mem(y) == a.mem(y)
  {
    hide A64.Load;
  }

  /** A store to public memory is the same store on both machines. */
  lemma StorePublic(l: Layout, h: Host, c: Ctx, m: Cpu, a: Abs, p: int, size: nat, v: Word)
    requires Rel(l, h, c, m, a) && AllPublic(h, p, size)
    ensures Rel(l, h, c, m.(mem := A64.Write(m.mem, p, size, v)), a.(mem := A64.Write(a.mem, p, size, v)))
  {
    hide Rel, Sound, Within, Steady, Read, ByteOf;
    Parts(l, h, c, m, a);
    var mem := A64.Write(m.mem, p, size, v);
    forall i | i in c.spilled
      ensures A64.Load(mem, l.fp - c.spilled[i], 8) == A64.Load(m.mem, l.fp - c.spilled[i], 8)
    {
      SpillIsPrivate(l, h, c, i);
      forall y | l.fp - c.spilled[i] <= y < l.fp - c.spilled[i] + 8
        ensures m.mem(y) == mem(y)
      {
        assert y !in h.public;
      }
      ReadSame(m.mem, mem, l.fp - c.spilled[i], 8);
    }
    MemRel(l, h, c, m, a, mem, A64.Write(a.mem, p, size, v));
  }

  lemma SpillIsPrivate(l: Layout, h: Host, c: Ctx, i: int)
    requires Steady(c) && Within(c, l) && Sound(l, h) && i in c.spilled
    ensures forall y :: l.fp - c.spilled[i] <= y < l.fp - c.spilled[i] + 8 ==> y !in h.public
  {
    var s := FrameSlot(c.spilled[i], 8, true);
    assert s in l.slots;
    forall y | l.fp - c.spilled[i] <= y < l.fp - c.spilled[i] + 8
      ensures y !in h.public
    {
      assert InSlot(l, s, y);
    }
  }

  // Spilling

  lemma SpillSteady(c: Ctx, r: XReg)
    requires Steady(c)
    ensures Steady(Spill(c, r).ctx) && r !in Spill(c, r).ctx.holds
  {
    assert forall i :: i in c.spilled ==> FrameSlot(c.spilled[i], 8, true) in Spill(c, r).ctx.slots;
    var d := Spill(c, r).ctx;
    assert r in c.holds ==> FrameSlot(c.used + 8, 8, true) == d.slots[|c.slots|];
  }

  lemma SlotAccessRuns(h: Host, m: Cpu, off: nat) returns (m': Cpu)
    requires off <= m.fp < TWO64
    ensures m' == m.(x := m.x[16 := m.fp - off]) && Goes(h, SlotAccess(off), m, m')
  {
    hide Goes;
    WrapSmall(off);
    WrapSmall(m.fp - off);
    var m1 := GoesOne(h, Const(16, Wrap(off)), m);
    m' := GoesStep(h, [Const(16, Wrap(off))], SubFp(16, 16), m, m1);
    assert [Const(16, Wrap(off))] + [SubFp(16, 16)] == SlotAccess(off);
    assert m.x[16 := off][16 := m.fp - off] == m.x[16 := m.fp - off];
  }

  lemma SpillKeepsPublic(l: Layout, h: Host, c: Ctx, r: XReg, m: Cpu, y: int)
    requires Sound(l, h) && r in c.holds && Within(Spill(c, r).ctx, l) && m.fp == l.fp
    requires y in h.public || y < l.fp - l.used || y >= l.fp
    ensures A64.Write(m.mem, l.fp - (c.used + 8), 8, m.x[r])(y) == m.mem(y)
  {
    var s := FrameSlot(c.used + 8, 8, true);
    var d := Spill(c, r).ctx;
    assert s == d.slots[|c.slots|] && d.slots[|c.slots|] == l.slots[|c.slots|];
    assert s in l.slots;
    assert y in h.public ==> !InSlot(l, s, y);
  }

  lemma SpillKeepsValues(l: Layout, c: Ctx, r: XReg, m: Cpu, i: int)
    requires Steady(c) && r in c.holds && i in Spill(c, r).ctx.spilled && m.fp == l.fp
    ensures var mem' := A64.Write(m.mem, l.fp - (c.used + 8), 8, m.x[r]);
      A64.Load(mem', l.fp - Spill(c, r).ctx.spilled[i], 8) ==
      if i == c.holds[r] then m.x[r] else A64.Load(m.mem, l.fp - c.spilled[i], 8)
  {
    hide Read, ByteOf, Pow256;
    Pow256Of8();
    if i == c.holds[r] {
      ReadWritten(m.mem, l.fp - (c.used + 8), 8, m.x[r]);
    } else {
      ReadSame(m.mem, A64.Write(m.mem, l.fp - (c.used + 8), 8, m.x[r]), l.fp - c.spilled[i], 8);
    }
  }

  lemma SpillFollows(l: Layout, h: Host, c: Ctx, r: XReg, m: Cpu, a: Abs, m': Cpu)
    requires Rel(l, h, c, m, a) && r in c.holds && Within(Spill(c, r).ctx, l)
    requires m' == m.(x := m.x[16 := m.fp - (c.used + 8)], mem := A64.Write(m.mem, l.fp - (c.used + 8), 8, m.x[r]))
    ensures Follows(l, h, Spill(c, r).ctx, m', a)
    ensures forall y :: y < l.fp - l.used || y >= l.fp ==> m'.mem(y) == m.mem(y)
  {
    hide A64.Load, A64.Write;
    forall y | y in h.public || y < l.fp - l.used || y >= l.fp
      ensures m'.mem(y) == m.mem(y)
    {
      SpillKeepsPublic(l, h, c, r, m, y);
    }
    forall i | i in a.regs && i in Spill(c, r).ctx.spilled
      ensures A64.Load(m'.mem, l.fp - Spill(c, r).ctx.spilled[i], 8) == a.regs[i]
    {
      SpillKeepsValues(l, c, r, m, i);
    }
  }

  lemma {:induction false} SpillRuns(l: Layout, h: Host, c: Ctx, r: XReg, m: Cpu, a: Abs, o: Out) returns (m': Cpu)
    requires Rel(l, h, c, m, a) && o == Spill(c, r) && Within(o.ctx, l)
    ensures Goes(h, o.code, m, m') && Rel(l, h, o.ctx, m', a)
    ensures m'.fp == m.fp && m'.sp == m.sp && m'.calls == m.calls
    ensures forall k :: 0 <= k < 31 && k != 16 ==> m'.x[k] == m.x[k]
    ensures forall y :: y < l.fp - l.used || y >= l.fp ==> m'.mem(y) == m.mem(y)
  {
    hide Goes;
    SpillSteady(c, r);
    if r !in c.holds {
      m' := m;
      GoesNowhere(h, m);
    } else {
      var m1 := SlotAccessRuns(h, m, c.used + 8);
      m' := GoesStep(h, SlotAccess(c.used + 8), Str(r, 16, 8), m, m1);
      SpillFollows(l, h, c, r, m, a, m');
    }
  }

  // Temporaries

  lemma GetTempKeeps(c: Ctx, o: Out)
    requires Steady(c) && o == GetTemp(c)
    ensures Kept(c, 1, o.ctx) && o.reg == NextReg(c) && o.reg !in o.ctx.holds
  {
  }

  lemma {:induction false} GetTempRuns(l: Layout, h: Host, c: Ctx, m: Cpu, a: Abs, o: Out) returns (m': Cpu)
    requires Rel(l, h, c, m, a) && o == GetTemp(c) && Within(o.ctx, l)
    ensures Goes(h, o.code, m, m')
    ensures Rel(l, h, o.ctx, m', a) && Passes(l, c, 1, 16, m, o.ctx, m')
    ensures o.reg == NextReg(c) && o.reg !in o.ctx.holds
  {
    GetTempKeeps(c, o);
    hide Goes, Rel, Within, Spill, Kept;
    TickRel(l, h, c, m, a);
    m' := SpillRuns(l, h, Tick(c), NextReg(c), m, a, o);
  }

  // Registers of IR registers

  /** How many turns `GetReg` takes. */
  function RegTurns(c: Ctx, id: int): nat {
    if id in c.home then 0 else 1
  }

  lemma GetRegKeeps(c: Ctx, id: int, o: Out)
    requires Steady(c) && o == GetReg(c, id)
    ensures Kept(c, RegTurns(c, id), o.ctx)
    ensures id in o.ctx.home && o.ctx.home[id] == o.reg && 9 <= o.reg <= 15 && o.reg in o.ctx.holds && o.ctx.holds[o.reg] == id
    ensures id !in c.home ==> o.reg == NextReg(c)
  {
  }

  /** `id` back in the free register `r`. */
  function Reloaded(c: Ctx, id: int, r: XReg): Ctx {
    c.(home := c.home[id := r], holds := c.holds[r := id], spilled := c.spilled - {id})
  }

  lemma ReloadedRel(l: Layout, h: Host, c: Ctx, id: int, r: XReg, m: Cpu, a: Abs)
    requires Rel(l, h, c, m, a) && 9 <= r <= 15 && r !in c.holds && id !in c.home && id in a.seen
    requires id in a.regs ==> m.x[r] == a.regs[id]
    ensures Rel(l, h, Reloaded(c, id, r), m, a)
  {
    hide Sound, A64.Load;
  }

  /** Brings `id` back into the free register `r`, if it was spilled. */
  lemma ReloadRuns(l: Layout, h: Host, c: Ctx, id: int, r: XReg, m: Cpu, a: Abs) returns (m': Cpu)
    requires Rel(l, h, c, m, a) && 9 <= r <= 15 && r !in c.holds && id !in c.home && id in a.seen
    ensures Goes(h, if id in c.spilled then SlotAccess(c.spilled[id]) + [Ldr(r, 16, 8)] else [], m, m')
    ensures Rel(l, h, Reloaded(c, id, r), m', a)
    ensures m'.fp == m.fp && m'.sp == m.sp && m'.calls == m.calls && m'.mem == m.mem
    ensures forall k :: 0 <= k < 31 && k != 16 && k != r ==> m'.x[k] == m.x[k]
    ensures id in a.regs ==> m'.x[r] == a.regs[id]
  {
    hide Goes, A64.Load;
    if id in c.spilled {
      var m1 := SlotAccessRuns(h, m, c.spilled[id]);
      m' := GoesStep(h, SlotAccess(c.spilled[id]), Ldr(r, 16, 8), m, m1);
      var v := A64.Load(m.mem, l.fp - c.spilled[id], 8);
      assert m' == Set(Set(m, 16, m.fp - c.spilled[id]), r, v);
      hide Rel, Sound, Steady, Follows, Within;
      SpilledValue(l, h, c, id, m, a);
      SetFree(l, h, c, m, a, 16, m.fp - c.spilled[id]);
      SetFree(l, h, c, m1, a, r, v);
      ReloadedRel(l, h, c, id, r, m', a);
    } else {
      m' := m;
      GoesNowhere(h, m);
      ReloadedRel(l, h, c, id, r, m', a);
    }
  }

  lemma SpilledValue(l: Layout, h: Host, c: Ctx, id: int, m: Cpu, a: Abs)
    requires Rel(l, h, c, m, a) && id in c.spilled
    ensures c.spilled[id] <= m.fp < TWO64
    ensures id in a.regs ==> A64.Load(m.mem, m.fp - c.spilled[id], 8) == a.regs[id]
    ensures 16 !in c.holds
  {
    hide A64.Load;
  }

  lemma HomeValue(l: Layout, h: Host, c: Ctx, id: int, m: Cpu, a: Abs)
    requires Rel(l, h, c, m, a)
    ensures Steady(c) && Passes(l, c, 0, 16, m, c, m)
    ensures id in c.home && id in a.regs ==> m.x[c.home[id]] == a.regs[id]
  {
    hide A64.Load;
  }

  /** What `GetReg` does when `id` is in no register. */
  lemma FetchShape(c: Ctx, id: int, o: Out, s: Out)
    requires Steady(c) && o == GetReg(c, id) && id !in c.home && s == Spill(Tick(c), NextReg(c))
    ensures o.ctx == Reloaded(s.ctx, id, s.reg) && o.reg == s.reg == NextReg(c) && id !in s.ctx.home && s.reg !in s.ctx.holds
    ensures o.code == s.code + if id in s.ctx.spilled then SlotAccess(s.ctx.spilled[id]) + [Ldr(s.reg, 16, 8)] else []
    ensures Extends(s.ctx, o.ctx)
  {
  }

  /** The register it answers holds the IR register's value, if that has one. */
  lemma {:induction false} GetRegRuns(l: Layout, h: Host, c: Ctx, id: int, m: Cpu, a: Abs, o: Out) returns (m': Cpu)
    requires Rel(l, h, c, m, a) && o == GetReg(c, id) && Within(o.ctx, l) && id in a.seen
    ensures Goes(h, o.code, m, m')
    ensures Rel(l, h, o.ctx, m', a) && Passes(l, c, RegTurns(c, id), 16, m, o.ctx, m')
    ensures id in o.ctx.home && o.ctx.home[id] == o.reg && 9 <= o.reg <= 15 && o.reg in o.ctx.holds && o.ctx.holds[o.reg] == id
    ensures id !in c.home ==> o.reg == NextReg(c)
    ensures id in a.regs ==> m'.x[o.reg] == a.regs[id]
  {
    hide Goes, Rel, Within, Spill, Kept, Steady, Extends, Reloaded;
    HomeValue(l, h, c, id, m, a);
    GetRegKeeps(c, id, o);
    if id in c.home {
      m' := m;
      GoesNowhere(h, m);
    } else {
      var s := Spill(Tick(c), NextReg(c));
      FetchShape(c, id, o, s);
      TickRel(l, h, c, m, a);
      WithinEarlier(s.ctx, o.ctx, l);
      var m1 := SpillRuns(l, h, Tick(c), NextReg(c), m, a, s);
      m' := ReloadRuns(l, h, s.ctx, id, s.reg, m1, a);
      var back := if id in s.ctx.spilled then SlotAccess(s.ctx.spilled[id]) + [Ldr(s.reg, 16, 8)] else [];
      GoesOn(h, s.code, back, m, m1, m');
    }
  }
}
