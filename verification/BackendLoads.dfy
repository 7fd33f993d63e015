/** Addresses of locals, operand loads and stores, run on the machine. */
module BackendLoads {
  import opened Options
  import opened Ir
  import opened A64
  import opened Backend
  import opened BackendSpec
  import opened BackendAlloc
  import opened Arith

  lemma PassesSet(l: Layout, c: Ctx, n: nat, dst: int, m: Cpu, d: Ctx, m': Cpu, r: XReg, v: Word)
    requires Passes(l, c, n, dst, m, d, m') && (r == dst || r == 16 || Soon(c.count, n, r))
    ensures Passes(l, c, n, dst, m, d, Set(m', r, v))
  {
  }

  lemma PassesWiden(l: Layout, c: Ctx, n: nat, m: Cpu, d: Ctx, m': Cpu, dst: int)
    requires Passes(l, c, n, 16, m, d, m')
    ensures Passes(l, c, n, dst, m, d, m')
  {
  }

  /** Writes to one of the next `n` temporaries are already allowed for. */
  lemma PassesNarrow(l: Layout, c: Ctx, n: nat, m: Cpu, d: Ctx, m': Cpu, dst: int)
    requires Passes(l, c, n, dst, m, d, m') && Soon(c.count, n, dst)
    ensures Passes(l, c, n, 16, m, d, m')
  {
  }

  /** What a register outside the window held, it holds. */
  lemma Stays(l: Layout, c: Ctx, n: nat, dst: int, m: Cpu, d: Ctx, m': Cpu, r: XReg)
    requires Passes(l, c, n, dst, m, d, m') && r != 16 && r != dst && !Soon(c.count, n, r)
    ensures m'.x[r] == m.x[r]
    ensures 9 <= r <= 15 ==> (r in d.holds <==> r in c.holds) && (r in c.holds ==> d.holds[r] == c.holds[r])
  {
  }

  // Locals

  lemma PlaceRel(l: Layout, h: Host, c: Ctx, v: Local, m: Cpu, a: Abs, o: Ctx)
    requires Rel(l, h, c, m, a) && o == Place(c, v) && Within(o, l)
    ensures Rel(l, h, o, m, a)
    ensures v.name in o.vars && o.holds == c.holds && o.count == c.count
    ensures v.name in l.vars && l.vars[v.name] == o.vars[v.name] <= l.fp < TWO64 && m.fp == l.fp
  {
    hide A64.Load;
    assert forall i :: i in c.spilled ==> FrameSlot(c.spilled[i], 8, true) in o.slots;
  }

  lemma AddressRuns(h: Host, r: XReg, off: nat, m: Cpu) returns (m': Cpu)
    requires off <= m.fp < TWO64
    ensures m' == Set(m, r, m.fp - off) && Goes(h, [Const(r, Wrap(off)), SubFp(r, r)], m, m')
  {
    hide Goes;
    WrapSmall(off);
    WrapSmall(m.fp - off);
    var m1 := GoesOne(h, Const(r, Wrap(off)), m);
    m' := GoesStep(h, [Const(r, Wrap(off))], SubFp(r, r), m, m1);
    assert [Const(r, Wrap(off))] + [SubFp(r, r)] == [Const(r, Wrap(off)), SubFp(r, r)];
    assert m.x[r := off][r := m.fp - off] == m.x[r := m.fp - off];
  }

  lemma VarAddrRuns(l: Layout, h: Host, c: Ctx, v: Local, m: Cpu, a: Abs, o: Out) returns (m': Cpu)
    requires Rel(l, h, c, m, a) && o == VarAddr(c, v) && Within(o.ctx, l)
    ensures Goes(h, o.code, m, m')
    ensures Rel(l, h, o.ctx, m', a) && Passes(l, c, 1, 16, m, o.ctx, m')
    ensures o.reg == NextReg(c) && o.reg !in o.ctx.holds
    ensures AddrVal(l, v) == Some(m'.x[o.reg] as int)
  {
    hide Goes, Rel, Within, GetTemp, Place, Extends, Quiet;
    var t := GetTemp(c);
    var p := Place(t.ctx, v);
    WithinEarlier(t.ctx, p, l);
    var m1 := GetTempRuns(l, h, c, m, a, t);
    PlaceRel(l, h, t.ctx, v, m1, a, p);
    m' := AddressRuns(h, t.reg, p.vars[v.name], m1);
    SetFree(l, h, p, m1, a, t.reg, m1.fp - p.vars[v.name]);
    PassesSet(l, c, 1, 16, m, t.ctx, m1, t.reg, m1.fp - p.vars[v.name]);
    GoesOn(h, t.code, [Const(t.reg, Wrap(p.vars[v.name])), SubFp(t.reg, t.reg)], m, m1, m');
  }

  // Operands

  function LoadTurns(c: Ctx, op: Opnd): nat {
    match op
    case R(id) => RegTurns(c, id)
    case V(_) => 1
    case _ => 0
  }

  /** An operand with a value, or a register about to be defined. */
  ghost predicate Readable(l: Layout, h: Host, a: Abs, op: Opnd, size: nat) {
    OpVal(l, h, a, op, size).Some? || (op.R? && op.id in a.seen)
  }

  lemma PublicLoad(l: Layout, h: Host, c: Ctx, m: Cpu, a: Abs, p: int, size: nat)
    requires Rel(l, h, c, m, a) && Scalar(size) && AllPublic(h, p, size)
    ensures A64.Load(m.mem, p, size) == A64.Load(a.mem, p, size)
  {
    ReadSame(m.mem, a.mem, p, size);
  }

  lemma LoadRegRuns(l: Layout, h: Host, c: Ctx, id: int, dst: XReg, size: nat, m: Cpu, a: Abs, o: Out) returns (m': Cpu)
    requires Rel(l, h, c, m, a) && o == LoadInto(c, R(id), dst, size) && Within(o.ctx, l)
    requires Readable(l, h, a, R(id), size)
    requires Unused(c, a, dst) && !Soon(c.count, 1, dst) && dst != 16
    requires dst in c.holds ==> c.holds[dst] != id
    ensures Goes(h, o.code, m, m') && Rel(l, h, o.ctx, m', a)
    ensures Passes(l, c, RegTurns(c, id), dst, m, o.ctx, m')
    ensures id in o.ctx.home && 9 <= o.ctx.home[id] <= 15
    ensures id in a.regs ==> m'.x[dst] == Narrow(a.regs[id], size)
  {
    Known(l, h, c, id, m, a);
    hide Goes, Rel, Within, GetReg, Passes;
    var s := GetReg(c, id);
    var m1 := GetRegRuns(l, h, c, id, m, a, s);
    var n := RegTurns(c, id);
    assert !Soon(c.count, n, dst);
    Stays(l, c, n, 16, m, s.ctx, m1, dst);
    Temporaries(l, h, s.ctx, m1, a);
    var v := Narrow(m1.x[s.reg], size);
    m' := GoesStep(h, s.code, Mov(dst, s.reg, size), m, m1);
    SetFree(l, h, s.ctx, m1, a, dst, v);
    PassesWiden(l, c, n, m, s.ctx, m1, dst);
    PassesSet(l, c, n, dst, m, s.ctx, m1, dst, v);
  }

  lemma Known(l: Layout, h: Host, c: Ctx, id: int, m: Cpu, a: Abs)
    requires Rel(l, h, c, m, a)
    ensures id in a.regs ==> id in a.seen
    ensures id in c.home ==> c.home[id] in c.holds && c.holds[c.home[id]] == id && 9 <= c.home[id] <= 15
  {
  }

  /** Only temporaries hold IR registers. */
  lemma Temporaries(l: Layout, h: Host, c: Ctx, m: Cpu, a: Abs)
    requires Rel(l, h, c, m, a)
    ensures forall r: XReg :: r < 9 || r > 15 ==> r !in c.holds
  {
  }

  /** `dst` gets the operand's value. */
  lemma {:induction false} LoadIntoRuns(l: Layout, h: Host, c: Ctx, op: Opnd, dst: XReg, size: nat, m: Cpu, a: Abs, o: Out) returns (m': Cpu)
    requires Rel(l, h, c, m, a) && o == LoadInto(c, op, dst, size) && Within(o.ctx, l)
    requires Readable(l, h, a, op, size)
    requires Unused(c, a, dst) && !Soon(c.count, 1, dst) && dst != 16
    requires op.R? && dst in c.holds ==> c.holds[dst] != op.id
    ensures Goes(h, o.code, m, m') && Rel(l, h, o.ctx, m', a)
    ensures Passes(l, c, LoadTurns(c, op), dst, m, o.ctx, m')
    ensures op.R? ==> op.id in o.ctx.home && 9 <= o.ctx.home[op.id] <= 15
    ensures OpVal(l, h, a, op, size).Some? ==> m'.x[dst] == OpVal(l, h, a, op, size).value
  {
    hide Goes, Rel, Within, Passes, A64.Load, VarAddr, AllPublic;
    match op
    case R(id) =>
      m' := LoadRegRuns(l, h, c, id, dst, size, m, a, o);
    case V(v) =>
      var s := VarAddr(c, v);
      var m1 := VarAddrRuns(l, h, c, v, m, a, s);
      Stays(l, c, 1, 16, m, s.ctx, m1, dst);
      Temporaries(l, h, s.ctx, m1, a);
      m' := GoesStep(h, s.code, Ldr(dst, s.reg, size), m, m1);
      var val := A64.Load(m1.mem, m1.x[s.reg], size);
      PublicLoad(l, h, s.ctx, m1, a, m1.x[s.reg], size);
      SetFree(l, h, s.ctx, m1, a, dst, val);
      PassesWiden(l, c, 1, m, s.ctx, m1, dst);
      PassesSet(l, c, 1, dst, m, s.ctx, m1, dst, val);
    case N(n) =>
      m' := GoesOne(h, Const(dst, n), m);
      SetFree(l, h, c, m, a, dst, n);
      PassesNone(l, c, dst, m, n);
    case Sym(s) =>
      m' := GoesOne(h, LoadAddr(dst, s), m);
      SetFree(l, h, c, m, a, dst, h.symbol(s));
      PassesNone(l, c, dst, m, h.symbol(s));
  }

  lemma PassesNone(l: Layout, c: Ctx, dst: XReg, m: Cpu, v: Word)
    ensures Passes(l, c, 0, dst, m, c, Set(m, dst, v))
  {
  }

  /** A scratch register gets the operand's value, in one or two turns. */
  lemma LoadToRuns(l: Layout, h: Host, c: Ctx, op: Opnd, size: nat, m: Cpu, a: Abs, o: Out) returns (m': Cpu, n: nat)
    requires Rel(l, h, c, m, a) && o == LoadTo(c, op, size) && Within(o.ctx, l)
    requires Readable(l, h, a, op, size)
    ensures Goes(h, o.code, m, m') && Rel(l, h, o.ctx, m', a)
    ensures 1 <= n <= 2 && Passes(l, c, n, 16, m, o.ctx, m')
    ensures o.reg == NextReg(c) && o.reg !in o.ctx.holds && Soon(c.count, n, o.reg)
    ensures op.R? ==> op.id in o.ctx.home && 9 <= o.ctx.home[op.id] <= 15
    ensures OpVal(l, h, a, op, size).Some? ==> m'.x[o.reg] == OpVal(l, h, a, op, size).value
  {
    hide Goes, Rel, Within, Extends, GetTemp, LoadInto, OpVal, Quiet;
    var t := GetTemp(c);
    var s := LoadInto(t.ctx, op, t.reg, size);
    WithinEarlier(t.ctx, s.ctx, l);
    var m1 := GetTempRuns(l, h, c, m, a, t);
    Survives(c.count, 1, 1);
    m' := LoadIntoRuns(l, h, t.ctx, op, t.reg, size, m1, a, s);
    GoesOn(h, t.code, s.code, m, m1, m');
    var k := LoadTurns(t.ctx, op);
    n := 1 + k;
    hide Passes, LoadTurns;
    PassesWiden(l, c, 1, m, t.ctx, m1, t.reg);
    PassesThen(l, c, 1, t.reg, m, t.ctx, m1, k, s.ctx, m');
    PassesNarrow(l, c, n, m, s.ctx, m', t.reg);
    Survives(c.count, 1, k);
    Stays2(l, t.ctx, k, t.reg, m1, s.ctx, m', t.reg);
  }

  lemma Stays2(l: Layout, c: Ctx, n: nat, dst: int, m: Cpu, d: Ctx, m': Cpu, r: XReg)
    requires Passes(l, c, n, dst, m, d, m') && 9 <= r <= 15 && !Soon(c.count, n, r)
    ensures (r in d.holds <==> r in c.holds) && (r in c.holds ==> d.holds[r] == c.holds[r])
  {
  }
}
