/** Each instruction handler without a call simulates its instruction. */
module BackendHandlers {
  import opened Options
  import opened Ir
  import opened A64
  import opened Backend
  import opened BackendSpec
  import opened BackendAlloc
  import opened BackendLoads

  lemma PassesCount(l: Layout, c: Ctx, n: nat, dst: int, m: Cpu, d: Ctx, m': Cpu)
    requires Passes(l, c, n, dst, m, d, m')
    ensures d.count == Later(c.count, n) && m'.sp == m.sp && m'.fp == m.fp
  {
  }

  lemma LaterLater(c: Turn, n: nat, k: nat)
    requires n + k <= 6
    ensures Later(c, n) < 7 && Later(Later(c, n), k) == Later(c, n + k)
  {
  }

  lemma HomeOf(l: Layout, h: Host, c: Ctx, m: Cpu, a: Abs, r: XReg)
    requires Rel(l, h, c, m, a) && r in c.holds
    ensures c.holds[r] in c.home && c.home[c.holds[r]] == r
  {
  }

  ghost function Seen(a: Abs, id: int): Abs {
    a.(seen := a.seen + {id})
  }

  lemma OpValSeen(l: Layout, h: Host, a: Abs, id: int, op: Opnd, size: nat)
    ensures OpVal(l, h, Seen(a, id), op, size) == OpVal(l, h, a, op, size)
    ensures OpVal(l, h, a, op, size).Some? && op.R? && id !in a.regs ==> op.id != id
  {
  }

  // Stores

  lemma StoreRegRuns(l: Layout, h: Host, c: Ctx, id: int, src: XReg, size: nat, m: Cpu, a: Abs, o: Out) returns (m': Cpu)
    requires Rel(l, h, c, m, a) && o == StoreTo(c, R(id), src, size) && Within(o.ctx, l) && id in a.seen
    requires src != 16 && !Soon(c.count, RegTurns(c, id), src)
    ensures Goes(h, o.code, m, m') && m'.sp == m.sp
    ensures Rel(l, h, o.ctx, m', a.(regs := a.regs[id := Narrow(m.x[src], size)]))
  {
    hide Goes, Rel, Within, Passes, GetReg;
    var d := GetReg(c, id);
    var m1 := GetRegRuns(l, h, c, id, m, a, d);
    Stays(l, c, RegTurns(c, id), 16, m, d.ctx, m1, src);
    PassesCount(l, c, RegTurns(c, id), 16, m, d.ctx, m1);
    m' := GoesStep(h, d.code, Mov(d.reg, src, size), m, m1);
    SetHome(l, h, d.ctx, m1, a, id, Narrow(m.x[src], size));
  }

  lemma StoreVarRuns(l: Layout, h: Host, c: Ctx, v: Local, src: XReg, size: nat, m: Cpu, a: Abs, b: Abs, o: Out, p: int)
    returns (m': Cpu)
    requires Rel(l, h, c, m, a) && o == StoreTo(c, V(v), src, size) && Within(o.ctx, l)
    requires src != 16 && !Soon(c.count, 1, src)
    requires AddrVal(l, v) == Some(p) && StoreMem(h, a, p, size, m.x[src]) == Some(b)
    ensures Goes(h, o.code, m, m') && m'.sp == m.sp
    ensures Rel(l, h, o.ctx, m', b)
  {
    hide Goes, Rel, Within, Passes, VarAddr, A64.Write, AllPublic;
    var d := VarAddr(c, v);
    var m1 := VarAddrRuns(l, h, c, v, m, a, d);
    Stays(l, c, 1, 16, m, d.ctx, m1, src);
    PassesCount(l, c, 1, 16, m, d.ctx, m1);
    m' := GoesStep(h, d.code, Str(src, d.reg, size), m, m1);
    StorePublic(l, h, d.ctx, m1, a, p, size, m.x[src]);
  }

  // Handlers

  lemma {:induction false} AssignRuns(l: Layout, h: Host, c: Ctx, to: Opnd, from: Opnd, size: nat, m: Cpu, a: Abs, b: Abs, o: Out)
    returns (m': Cpu)
    requires Rel(l, h, c, m, a) && o == EmitAssign(c, to, from, size) && Within(o.ctx, l)
    requires AbsStep(l, h, Backend.Assign(to, from, size), a) == Some(b)
    ensures Goes(h, o.code, m, m') && Rel(l, h, o.ctx, m', b) && m'.sp == m.sp
  {
    hide Goes, Rel, Within, Extends, Passes, LoadTo, StoreTo, OpVal, StoreMem;
    var fromSize := if from.V? then from.local.size else size;
    var s := LoadTo(c, from, fromSize);
    var d := StoreTo(s.ctx, to, s.reg, size);
    WithinEarlier(s.ctx, d.ctx, l);
    var m1, n := LoadToRuns(l, h, c, from, fromSize, m, a, s);
    PassesCount(l, c, n, 16, m, s.ctx, m1);
    Survives(c.count, n, 1);
    match to {
      case R(id) =>
        Announce(l, h, s.ctx, m1, a, id);
        m' := StoreRegRuns(l, h, s.ctx, id, s.reg, size, m1, Seen(a, id), d);
      case V(x) =>
        m' := StoreVarRuns(l, h, s.ctx, x, s.reg, size, m1, a, b, d, AddrVal(l, x).value);
    }
    GoesOn(h, s.code, d.code, m, m1, m');
  }

  /** The left operand lands in the register of `dst`, the right one in a scratch register. */
  lemma OperandsRun(l: Layout, h: Host, c: Ctx, dst: int, lhs: Opnd, rhs: Opnd, size: nat, m: Cpu, a: Abs, d: Out, s: Out, r: Out)
    returns (m': Cpu, n: nat)
    requires Rel(l, h, c, m, a) && d == GetReg(c, dst) && s == LoadInto(d.ctx, lhs, d.reg, size)
    requires r == LoadTo(s.ctx, rhs, size) && Within(r.ctx, l) && dst !in a.seen
    requires OpVal(l, h, a, lhs, size).Some? && OpVal(l, h, a, rhs, size).Some?
    ensures Goes(h, d.code + s.code + r.code, m, m') && Rel(l, h, r.ctx, m', Seen(a, dst)) && m'.sp == m.sp
    ensures 2 <= n <= 4 && r.ctx.count == Later(c.count, n) && d.reg == NextReg(c)
    ensures exists k :: 1 <= k < n && n <= k + 2 && r.reg == 9 + Later(c.count, k) && r.reg !in r.ctx.holds
    ensures d.reg in r.ctx.holds && r.ctx.holds[d.reg] == dst
    ensures m'.x[d.reg] == OpVal(l, h, a, lhs, size).value && m'.x[r.reg] == OpVal(l, h, a, rhs, size).value
  {
    hide Goes, Rel, Within, Extends, Passes, GetReg, LoadTo, LoadInto, OpVal;
    var a1 := Seen(a, dst);
    Announce(l, h, c, m, a, dst);
    OpValSeen(l, h, a, dst, lhs, size);
    OpValSeen(l, h, a, dst, rhs, size);
    WithinEarlier(s.ctx, r.ctx, l);
    WithinEarlier(d.ctx, s.ctx, l);
    var m1 := GetRegRuns(l, h, c, dst, m, a1, d);
    PassesCount(l, c, 1, 16, m, d.ctx, m1);
    Survives(c.count, 1, 1);
    var m2 := LoadIntoRuns(l, h, d.ctx, lhs, d.reg, size, m1, a1, s);
    var k := LoadTurns(d.ctx, lhs);
    PassesCount(l, d.ctx, k, d.reg, m1, s.ctx, m2);
    LaterLater(c.count, 1, k);
    Survives(c.count, 1, k);
    Stays2(l, d.ctx, k, d.reg, m1, s.ctx, m2, d.reg);
    var j;
    m', j := LoadToRuns(l, h, s.ctx, rhs, size, m2, a1, r);
    PassesCount(l, s.ctx, j, 16, m2, r.ctx, m');
    LaterLater(c.count, 1 + k, j);
    Survives(c.count, 1 + k, j);
    Stays(l, s.ctx, j, 16, m2, r.ctx, m', d.reg);
    n := 1 + k + j;
    assert r.reg == 9 + Later(c.count, 1 + k);
    GoesOn(h, d.code, s.code, m, m1, m2);
    GoesOn(h, d.code + s.code, r.code, m, m2, m');
  }

  lemma {:induction false} BinRuns(l: Layout, h: Host, c: Ctx, op: ArithOp, dst: int, lhs: Opnd, rhs: Opnd, size: nat, m: Cpu, a: Abs, b: Abs, o: Out)
    returns (m': Cpu)
    requires Rel(l, h, c, m, a) && o == EmitBin(c, op, dst, lhs, rhs, size) && Within(o.ctx, l)
    requires AbsStep(l, h, Backend.Bin(op, dst, lhs, rhs, size), a) == Some(b)
    ensures Goes(h, o.code, m, m') && Rel(l, h, o.ctx, m', b) && m'.sp == m.sp
  {
    hide Goes, Rel, Within, GetReg, LoadTo, LoadInto, OpVal, Later, NextReg;
    var d := GetReg(c, dst);
    var s := LoadInto(d.ctx, lhs, d.reg, size);
    var r := LoadTo(s.ctx, rhs, size);
    var m1, n := OperandsRun(l, h, c, dst, lhs, rhs, size, m, a, d, s, r);
    HomeOf(l, h, r.ctx, m1, Seen(a, dst), d.reg);
    m' := GoesStep(h, d.code + s.code + r.code, A64.Alu(op, d.reg, d.reg, r.reg, size), m, m1);
    SetHome(l, h, r.ctx, m1, Seen(a, dst), dst, h.alu(op, size, m1.x[d.reg], m1.x[r.reg]));
  }

  lemma {:induction false} ModRuns(l: Layout, h: Host, c: Ctx, dst: int, lhs: Opnd, rhs: Opnd, size: nat, m: Cpu, a: Abs, b: Abs, o: Out)
    returns (m': Cpu)
    requires Rel(l, h, c, m, a) && o == EmitMod(c, dst, lhs, rhs, size) && Within(o.ctx, l)
    requires AbsStep(l, h, Backend.Mod(dst, lhs, rhs, size), a) == Some(b)
    ensures Goes(h, o.code, m, m') && Rel(l, h, o.ctx, m', b) && m'.sp == m.sp
  {
    hide Goes, Rel, Within, GetReg, LoadTo, LoadInto, OpVal, GetTemp, Extends, Passes;
    var d := GetReg(c, dst);
    var s := LoadInto(d.ctx, lhs, d.reg, size);
    var r := LoadTo(s.ctx, rhs, size);
    var t := GetTemp(r.ctx);
    WithinEarlier(r.ctx, t.ctx, l);
    var a1 := Seen(a, dst);
    var m1, n := OperandsRun(l, h, c, dst, lhs, rhs, size, m, a, d, s, r);
    var k :| 1 <= k < n && n <= k + 2 && r.reg == 9 + Later(c.count, k);
    var m2 := GetTempRuns(l, h, r.ctx, m1, a1, t);
    PassesCount(l, r.ctx, 1, 16, m1, t.ctx, m2);
    Survives(c.count, n, 1);
    Stays(l, r.ctx, 1, 16, m1, t.ctx, m2, d.reg);
    LaterLater(c.count, k, n - k);
    Survives(Later(c.count, k), n - k, 1);
    Stays(l, r.ctx, 1, 16, m1, t.ctx, m2, r.reg);
    HomeOf(l, h, t.ctx, m2, a1, d.reg);
    GoesOn(h, d.code + s.code + r.code, t.code, m, m1, m2);
    var code := d.code + s.code + r.code + t.code;
    var div := A64.Alu(Ir.Div, t.reg, d.reg, r.reg, size);
    var q := h.alu(Ir.Div, size, m2.x[d.reg], m2.x[r.reg]);
    var m3 := GoesStep(h, code, div, m, m2);
    SetFree(l, h, t.ctx, m2, a1, t.reg, q);
    assert d.reg != t.reg && r.reg != t.reg;
    m' := GoesStep(h, code + [div], Msub(d.reg, t.reg, r.reg, d.reg, size), m, m3);
    SetHome(l, h, t.ctx, m3, a1, dst, h.msub(size, q, m2.x[r.reg], m2.x[d.reg]));
    assert code + [div] + [Msub(d.reg, t.reg, r.reg, d.reg, size)] == code + [div, Msub(d.reg, t.reg, r.reg, d.reg, size)];
  }

  /** The register of `dst` first, then the operand in a scratch register. */
  lemma OperandRuns(l: Layout, h: Host, c: Ctx, dst: int, from: Opnd, size: nat, m: Cpu, a: Abs, d: Out, s: Out) returns (m': Cpu)
    requires Rel(l, h, c, m, a) && d == GetReg(c, dst) && s == LoadTo(d.ctx, from, size) && Within(s.ctx, l)
    requires dst !in a.seen && OpVal(l, h, a, from, size).Some?
    ensures Goes(h, d.code + s.code, m, m') && Rel(l, h, s.ctx, m', Seen(a, dst)) && m'.sp == m.sp
    ensures dst in s.ctx.home && s.ctx.home[dst] == d.reg && s.reg !in s.ctx.holds
    ensures m'.x[s.reg] == OpVal(l, h, a, from, size).value
  {
    hide Goes, Rel, Within, Extends, Passes, GetReg, LoadTo, OpVal;
    var a1 := Seen(a, dst);
    Announce(l, h, c, m, a, dst);
    OpValSeen(l, h, a, dst, from, size);
    WithinEarlier(d.ctx, s.ctx, l);
    var m1 := GetRegRuns(l, h, c, dst, m, a1, d);
    PassesCount(l, c, 1, 16, m, d.ctx, m1);
    var j;
    m', j := LoadToRuns(l, h, d.ctx, from, size, m1, a1, s);
    PassesCount(l, d.ctx, j, 16, m1, s.ctx, m');
    Survives(c.count, 1, j);
    Stays(l, d.ctx, j, 16, m1, s.ctx, m', d.reg);
    HomeOf(l, h, s.ctx, m', a1, d.reg);
    GoesOn(h, d.code, s.code, m, m1, m');
  }

  lemma {:induction false} NegRuns(l: Layout, h: Host, c: Ctx, dst: int, from: Opnd, size: nat, m: Cpu, a: Abs, b: Abs, o: Out)
    returns (m': Cpu)
    requires Rel(l, h, c, m, a) && o == EmitNeg(c, dst, from, size) && Within(o.ctx, l)
    requires AbsStep(l, h, Backend.Neg(dst, from, size), a) == Some(b)
    ensures Goes(h, o.code, m, m') && Rel(l, h, o.ctx, m', b) && m'.sp == m.sp
  {
    hide Goes, Rel, Within, GetReg, LoadTo, OpVal;
    var d := GetReg(c, dst);
    var s := LoadTo(d.ctx, from, size);
    var m1 := OperandRuns(l, h, c, dst, from, size, m, a, d, s);
    m' := GoesStep(h, d.code + s.code, NegX(d.reg, s.reg, size), m, m1);
    SetHome(l, h, s.ctx, m1, Seen(a, dst), dst, h.neg(size, m1.x[s.reg]));
  }

  lemma {:induction false} NotRuns(l: Layout, h: Host, c: Ctx, dst: int, from: Opnd, size: nat, m: Cpu, a: Abs, b: Abs, o: Out)
    returns (m': Cpu)
    requires Rel(l, h, c, m, a) && o == EmitNot(c, dst, from, size) && Within(o.ctx, l)
    requires AbsStep(l, h, Backend.Not(dst, from, size), a) == Some(b)
    ensures Goes(h, o.code, m, m') && Rel(l, h, o.ctx, m', b) && m'.sp == m.sp
  {
    hide Goes, Rel, Within, GetReg, LoadTo, OpVal;
    var d := GetReg(c, dst);
    var s := LoadTo(d.ctx, from, size);
    var m1 := OperandRuns(l, h, c, dst, from, size, m, a, d, s);
    var m2 := GoesStep(h, d.code + s.code, CmpZero(s.reg, size), m, m1);
    FlagsRel(l, h, s.ctx, m1, Seen(a, dst), (size, m1.x[s.reg], 0), 0);
    m' := GoesStep(h, d.code + s.code + [CmpZero(s.reg, size)], Cset(d.reg, CmpEq), m, m2);
    SetHome(l, h, s.ctx, m2, Seen(a, dst), dst, if h.test(CmpEq, size, m1.x[s.reg], 0) then 1 else 0);
    assert d.code + s.code + [CmpZero(s.reg, size)] + [Cset(d.reg, CmpEq)] == o.code;
  }

  /** Two operands in scratch registers that survive two more turns. */
  lemma TwoLoadsRun(l: Layout, h: Host, c: Ctx, x: Opnd, xs: nat, y: Opnd, ys: nat, m: Cpu, a: Abs, s: Out, r: Out)
    returns (m': Cpu)
    requires Rel(l, h, c, m, a) && s == LoadTo(c, x, xs) && r == LoadTo(s.ctx, y, ys) && Within(r.ctx, l)
    requires OpVal(l, h, a, x, xs).Some? && Readable(l, h, a, y, ys)
    ensures Goes(h, s.code + r.code, m, m') && Rel(l, h, r.ctx, m', a) && m'.sp == m.sp
    ensures s.reg !in r.ctx.holds && r.reg !in r.ctx.holds && s.reg != r.reg && 9 <= s.reg <= 15 && 9 <= r.reg <= 15
    ensures !Soon(r.ctx.count, 2, s.reg) && !Soon(r.ctx.count, 2, r.reg)
    ensures y.R? ==> y.id in r.ctx.home && 9 <= r.ctx.home[y.id] <= 15
    ensures m'.x[s.reg] == OpVal(l, h, a, x, xs).value
    ensures OpVal(l, h, a, y, ys).Some? ==> m'.x[r.reg] == OpVal(l, h, a, y, ys).value
  {
    hide Goes, Rel, Within, Extends, Passes, LoadTo, OpVal, Readable;
    WithinEarlier(s.ctx, r.ctx, l);
    assert Readable(l, h, a, x, xs) by { ReadableValue(l, h, a, x, xs); }
    var m1, k := LoadToRuns(l, h, c, x, xs, m, a, s);
    PassesCount(l, c, k, 16, m, s.ctx, m1);
    var j;
    m', j := LoadToRuns(l, h, s.ctx, y, ys, m1, a, r);
    PassesCount(l, s.ctx, j, 16, m1, r.ctx, m');
    LaterLater(c.count, k, j);
    Survives(c.count, k, j);
    Stays(l, s.ctx, j, 16, m1, r.ctx, m', s.reg);
    Survives(c.count, k + j, 2);
    Survives(s.ctx.count, j, 2);
    GoesOn(h, s.code, r.code, m, m1, m');
  }

  lemma ReadableValue(l: Layout, h: Host, a: Abs, op: Opnd, size: nat)
    requires OpVal(l, h, a, op, size).Some?
    ensures Readable(l, h, a, op, size)
  {
  }

  lemma {:induction false} CmpRuns(l: Layout, h: Host, c: Ctx, cond: CmpOp, dst: int, lhs: Opnd, rhs: Opnd, size: nat, m: Cpu, a: Abs, b: Abs, o: Out)
    returns (m': Cpu)
    requires Rel(l, h, c, m, a) && o == EmitCmp(c, cond, dst, lhs, rhs, size) && Within(o.ctx, l)
    requires AbsStep(l, h, Backend.Cmp(cond, dst, lhs, rhs, size), a) == Some(b)
    ensures Goes(h, o.code, m, m') && Rel(l, h, o.ctx, m', b) && m'.sp == m.sp
  {
    hide Goes, Rel, Within, GetReg, LoadTo, OpVal, Extends, Passes, Soon, Later, NextReg;
    var s := LoadTo(c, lhs, size);
    var r := LoadTo(s.ctx, rhs, size);
    var d := GetReg(r.ctx, dst);
    WithinEarlier(r.ctx, d.ctx, l);
    var m1 := TwoLoadsRun(l, h, c, lhs, size, rhs, size, m, a, s, r);
    var a1 := Seen(a, dst);
    Announce(l, h, r.ctx, m1, a, dst);
    var m2 := GetRegRuns(l, h, r.ctx, dst, m1, a1, d);
    PassesCount(l, r.ctx, 1, 16, m1, d.ctx, m2);
    SoonMore(r.ctx.count, s.reg);
    SoonMore(r.ctx.count, r.reg);
    Stays(l, r.ctx, 1, 16, m1, d.ctx, m2, s.reg);
    Stays(l, r.ctx, 1, 16, m1, d.ctx, m2, r.reg);
    GoesOn(h, s.code + r.code, d.code, m, m1, m2);
    var code := s.code + r.code + d.code;
    var m3 := GoesStep(h, code, CmpX(s.reg, r.reg, size), m, m2);
    FlagsRel(l, h, d.ctx, m2, a1, (size, m1.x[s.reg], m1.x[r.reg]), 0);
    m' := GoesStep(h, code + [CmpX(s.reg, r.reg, size)], Cset(d.reg, cond), m, m3);
    SetHome(l, h, d.ctx, m3, a1, dst, if h.test(cond, size, m1.x[s.reg], m1.x[r.reg]) then 1 else 0);
    assert code + [CmpX(s.reg, r.reg, size)] + [Cset(d.reg, cond)] == o.code;
  }

  lemma SoonMore(c: Turn, r: int)
    requires !Soon(c, 2, r)
    ensures !Soon(c, 1, r) && !Soon(c, 0, r)
  {
  }

  lemma {:induction false} LoadRuns(l: Layout, h: Host, c: Ctx, dst: int, addr: Opnd, size: nat, m: Cpu, a: Abs, b: Abs, o: Out)
    returns (m': Cpu)
    requires Rel(l, h, c, m, a) && o == EmitLoad(c, dst, addr, size) && Within(o.ctx, l)
    requires AbsStep(l, h, Backend.Load(dst, addr, size), a) == Some(b)
    ensures Goes(h, o.code, m, m') && Rel(l, h, o.ctx, m', b) && m'.sp == m.sp
  {
    hide Goes, Rel, Within, LoadTo, OpVal, Extends, Passes, Soon, StoreTo, A64.Load, AllPublic, AbsStep, Narrow;
    LoadedFits(l, h, dst, addr, size, a, b);
    var s := LoadTo(c, addr, 8);
    var t := LoadTo(s.ctx, R(dst), size);
    var d := StoreTo(t.ctx, R(dst), t.reg, size);
    WithinEarlier(t.ctx, d.ctx, l);
    var a1 := Seen(a, dst);
    Announce(l, h, c, m, a, dst);
    OpValSeen(l, h, a, dst, addr, 8);
    var m1 := TwoLoadsRun(l, h, c, addr, 8, R(dst), size, m, a1, s, t);
    var p := m1.x[s.reg];
    var v := A64.Load(m1.mem, p, size);
    PublicLoad(l, h, t.ctx, m1, a1, p, size);
    var m2 := GoesStep(h, s.code + t.code, Ldr(t.reg, s.reg, size), m, m1);
    SetFree(l, h, t.ctx, m1, a1, t.reg, v);
    SoonMore(t.ctx.count, t.reg);
    m' := StoreRegRuns(l, h, t.ctx, dst, t.reg, size, m2, a1, d);
    GoesOn(h, s.code + t.code + [Ldr(t.reg, s.reg, size)], d.code, m, m2, m');
  }

  /** A value loaded from `size` bytes already fits the view it is moved through. */
  lemma LoadedFits(l: Layout, h: Host, dst: int, addr: Opnd, size: nat, a: Abs, b: Abs)
    requires AbsStep(l, h, Backend.Load(dst, addr, size), a) == Some(b)
    ensures OpVal(l, h, a, addr, 8).Some? && Scalar(size) && AllPublic(h, OpVal(l, h, a, addr, 8).value, size)
    ensures var v := A64.Load(a.mem, OpVal(l, h, a, addr, 8).value, size);
      Narrow(v, size) == v && Define(a, dst, v) == Some(b)
  {
    Pow256Of8();
  }

  lemma {:induction false} StoreRuns(l: Layout, h: Host, c: Ctx, addr: Opnd, from: Opnd, size: nat, m: Cpu, a: Abs, b: Abs, o: Out)
    returns (m': Cpu)
    requires Rel(l, h, c, m, a) && o == EmitStore(c, addr, from, size) && Within(o.ctx, l)
    requires AbsStep(l, h, Backend.Store(addr, from, size), a) == Some(b)
    ensures Goes(h, o.code, m, m') && Rel(l, h, o.ctx, m', b) && m'.sp == m.sp
  {
    hide Goes, Rel, Within, LoadTo, OpVal, Soon, AllPublic, A64.Write;
    var s := LoadTo(c, addr, 8);
    var v := LoadTo(s.ctx, from, size);
    var m1 := TwoLoadsRun(l, h, c, addr, 8, from, size, m, a, s, v);
    m' := GoesStep(h, s.code + v.code, Str(v.reg, s.reg, size), m, m1);
    StorePublic(l, h, v.ctx, m1, a, m1.x[s.reg], size, m1.x[v.reg]);
  }

  lemma {:induction false} AddrOfRuns(l: Layout, h: Host, c: Ctx, dst: int, x: Local, m: Cpu, a: Abs, b: Abs, o: Out)
    returns (m': Cpu)
    requires Rel(l, h, c, m, a) && o == EmitAddrOf(c, dst, x) && Within(o.ctx, l)
    requires AbsStep(l, h, Backend.AddrOf(dst, x), a) == Some(b)
    ensures Goes(h, o.code, m, m') && Rel(l, h, o.ctx, m', b) && m'.sp == m.sp
  {
    hide Goes, Rel, Within, LoadTo, VarAddr, Extends, Passes, StoreTo;
    var t := LoadTo(c, R(dst), 8);
    var p := VarAddr(t.ctx, x);
    var d := StoreTo(p.ctx, R(dst), t.reg, 8);
    WithinEarlier(p.ctx, d.ctx, l);
    WithinEarlier(t.ctx, p.ctx, l);
    var a1 := Seen(a, dst);
    Announce(l, h, c, m, a, dst);
    var m1, n := LoadToRuns(l, h, c, R(dst), 8, m, a1, t);
    PassesCount(l, c, n, 16, m, t.ctx, m1);
    var m2 := VarAddrRuns(l, h, t.ctx, x, m1, a1, p);
    PassesCount(l, t.ctx, 1, 16, m1, p.ctx, m2);
    LaterLater(c.count, n, 1);
    Survives(c.count, n, 1);
    Stays(l, t.ctx, 1, 16, m1, p.ctx, m2, t.reg);
    GoesOn(h, t.code, p.code, m, m1, m2);
    var m3 := GoesStep(h, t.code + p.code, Mov(t.reg, p.reg, 8), m, m2);
    SetFree(l, h, p.ctx, m2, a1, t.reg, m2.x[p.reg]);
    Survives(c.count, n + 1, 1);
    SoonLess(p.ctx.count, RegTurns(p.ctx, dst), t.reg);
    WrapSmall(m2.x[p.reg]);
    m' := StoreRegRuns(l, h, p.ctx, dst, t.reg, 8, m3, a1, d);
    GoesOn(h, t.code + p.code + [Mov(t.reg, p.reg, 8)], d.code, m, m3, m');
  }

  lemma SoonLess(c: Turn, n: nat, r: int)
    requires !Soon(c, 1, r) && n <= 1
    ensures !Soon(c, n, r)
  {
  }
}
