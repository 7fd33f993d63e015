/** Handlers that call the runtime: memory copies, allocation, release. */
module BackendRuntimeCalls {
  import opened Options
  import opened Ir
  import opened A64
  import opened Backend
  import opened BackendSpec
  import opened BackendAlloc
  import opened BackendLoads
  import opened BackendHandlers
  import opened BackendCalls
  import opened BackendCallRuns

  /** Fills argument registers below x9 one at a time. */
  lemma FillArg(l: Layout, h: Host, c: Ctx, code: seq<Asm>, i: Asm, vs: seq<Word>, v: Word, m: Cpu, m1: Cpu, a: Abs) returns (m': Cpu)
    requires Goes(h, code, m, m1) && Rel(l, h, c, m1, a) && ArgumentsAre(m1, vs) && |vs| < 8
    requires i == Const(|vs|, v) || (exists r: XReg :: i == Mov(|vs|, r, 8) && m1.x[r] == v)
    ensures Goes(h, code + [i], m, m') && Rel(l, h, c, m', a) && ArgumentsAre(m', vs + [v]) && m'.sp == m1.sp
    ensures forall r: XReg :: r >= 9 ==> m'.x[r] == m1.x[r]
  {
    hide Goes, Rel;
    m' := GoesStep(h, code, i, m, m1);
    assert m' == Set(m1, |vs|, v);
    Temporaries(l, h, c, m1, a);
    SetFree(l, h, c, m1, a, |vs|, v);
  }

  lemma {:induction false} MemCallRuns(l: Layout, h: Host, c: Ctx, i: Ins, m: Cpu, a: Abs, b: Abs, o: Out) returns (m': Cpu)
    requires i.MemCall? && Rel(l, h, c, m, a) && o == EmitMemCall(c, i) && Within(o.ctx, l) && m.sp == StackTop(l)
    requires AbsStep(l, h, i, a) == Some(b)
    ensures Goes(h, o.code, m, m') && Rel(l, h, o.ctx, m', b) && m'.sp == m.sp
  {
    hide Goes, Rel, Within, Extends, Save, StackTop, AnswerOf, AfterCall, NothingHeld, ArgumentsAre, OpVal, LoadTo, Soon, Readable,
      Still;
    var d := LoadTo(c, i.addr, 8);
    var f := LoadTo(d.ctx, i.from, i.fromSize);
    var s := Save(f.ctx, 0);
    WithinEarlier(f.ctx, s.ctx, l);
    ReadableValue(l, h, a, i.from, i.fromSize);
    var m1 := TwoLoadsRun(l, h, c, i.addr, 8, i.from, i.fromSize, m, a, d, f);
    var m2 := SaveAllRuns(l, h, f.ctx, m1, a, s);
    StillSp(l, m1, m2);
    GoesOn(h, d.code + f.code, s.code, m, m1, m2);
    var code := d.code + f.code + s.code;
    var x, y := m1.x[d.reg], m1.x[f.reg];
    NoArguments(m2);
    var m3 := FillArg(l, h, s.ctx, code, Mov(0, d.reg, 8), [], x, m, m2, a);
    var m4 := FillArg(l, h, s.ctx, code + [Mov(0, d.reg, 8)], Mov(1, f.reg, 8), [] + [x], y, m, m3, a);
    var m5 := FillArg(l, h, s.ctx, code + [Mov(0, d.reg, 8)] + [Mov(1, f.reg, 8)], Const(2, i.bytes), [] + [x] + [y], i.bytes, m, m4, a);
    StackTopAligned(l, h, c, m, a);
    NoneKnownWhenEmpty(s.ctx, a);
    assert [] + [x] + [y] + [i.bytes] == [x, y, i.bytes];
    m' := BlRuns(l, h, s.ctx, code + [Mov(0, d.reg, 8)] + [Mov(1, f.reg, 8)] + [Const(2, i.bytes)], i.func, [x, y, i.bytes], m, m5, a);
    assert code + [Mov(0, d.reg, 8)] + [Mov(1, f.reg, 8)] + [Const(2, i.bytes)] + [Bl(i.func)] == o.code;
  }

  lemma NoArguments(m: Cpu)
    ensures ArgumentsAre(m, [])
  {
  }

  /** Saves, then calls `f` with one argument already computed. */
  lemma OneArgCallRuns(l: Layout, h: Host, c: Ctx, i: Asm, v: Word, f: string, m: Cpu, a: Abs, s: Out) returns (m': Cpu)
    requires Rel(l, h, c, m, a) && s == Save(c, 0) && Within(s.ctx, l) && m.sp == StackTop(l)
    requires i == Const(0, v) || (exists r: XReg :: i == Mov(0, r, 8) && 9 <= r <= 15 && m.x[r] == v)
    requires h.arity(Direct(f)) == 1
    ensures Goes(h, s.code + [i, Bl(f)], m, m') && Rel(l, h, s.ctx, m', AfterCall(h, a, Direct(f), [v])) && m'.sp == m.sp
    ensures m'.x[0] == AnswerOf(h, a, Direct(f), [v]).0 && s.ctx.count == c.count && forall r: XReg :: r !in s.ctx.holds
  {
    hide Goes, Rel, Within, Save, StackTop, AnswerOf, AfterCall, NothingHeld, ArgumentsAre, Still;
    var m1 := SaveAllRuns(l, h, c, m, a, s);
    StillSp(l, m, m1);
    NoArguments(m1);
    var m2 := FillArg(l, h, s.ctx, s.code, i, [], v, m, m1, a);
    StackTopAligned(l, h, c, m, a);
    NoneKnownWhenEmpty(s.ctx, a);
    assert [] + [v] == [v];
    m' := BlRuns(l, h, s.ctx, s.code + [i], f, [v], m, m2, a);
    assert s.code + [i] + [Bl(f)] == s.code + [i, Bl(f)];
  }

  lemma {:induction false} FreeRuns(l: Layout, h: Host, c: Ctx, ptr: Opnd, m: Cpu, a: Abs, b: Abs, o: Out) returns (m': Cpu)
    requires Rel(l, h, c, m, a) && o == EmitFree(c, ptr) && Within(o.ctx, l) && m.sp == StackTop(l)
    requires AbsStep(l, h, Backend.Free(ptr), a) == Some(b)
    ensures Goes(h, o.code, m, m') && Rel(l, h, o.ctx, m', b) && m'.sp == m.sp
  {
    hide Goes, Rel, Within, Extends, Save, StackTop, AnswerOf, AfterCall, OpVal, LoadTo, StoreTo, Readable, Passes, StoreMem;
    var p := LoadTo(c, ptr, 8);
    var s := Save(p.ctx, 0);
    var d := StoreTo(s.ctx, ptr, p.reg, 8);
    WithinEarlier(s.ctx, d.ctx, l);
    WithinEarlier(p.ctx, s.ctx, l);
    ReadableValue(l, h, a, ptr, 8);
    var v := OpVal(l, h, a, ptr, 8).value;
    var m1, n := LoadToRuns(l, h, c, ptr, 8, m, a, p);
    PassesCount(l, c, n, 16, m, p.ctx, m1);
    Survives(c.count, n, 1);
    var m2 := OneArgCallRuns(l, h, p.ctx, Mov(0, p.reg, 8), v, "free", m1, a, s);
    var a1 := AfterCall(h, a, Direct("free"), [v]);
    var call := s.code + [Mov(0, p.reg, 8), Bl("free")];
    GoesOn(h, p.code, call, m, m1, m2);
    var m3 := GoesStep(h, p.code + call, Const(p.reg, 0), m, m2);
    SetFree(l, h, s.ctx, m2, a1, p.reg, 0);
    match ptr {
      case R(id) =>
        Known(l, h, s.ctx, id, m3, a1);
        FreedKnown(l, h, a, id, [v]);
        SoonLess(s.ctx.count, RegTurns(s.ctx, id), p.reg);
        m' := StoreRegRuns(l, h, s.ctx, id, p.reg, 8, m3, a1, d);
      case V(x) =>
        m' := StoreVarRuns(l, h, s.ctx, x, p.reg, 8, m3, a1, b, d, AddrVal(l, x).value);
    }
    GoesOn(h, p.code + call + [Const(p.reg, 0)], d.code, m, m3, m');
    assert p.code + call + [Const(p.reg, 0)] == p.code + s.code + [Mov(0, p.reg, 8), Bl("free"), Const(p.reg, 0)];
  }

  lemma FreedKnown(l: Layout, h: Host, a: Abs, id: int, vs: seq<Word>)
    requires OpVal(l, h, a, R(id), 8).Some?
    ensures id in AfterCall(h, a, Direct("free"), vs).regs
  {
  }

  lemma {:induction false} AllocArrayRuns(l: Layout, h: Host, c: Ctx, dst: int, bytes: Word, count: Opnd, size: nat, m: Cpu, a: Abs, b: Abs, o: Out)
    returns (m': Cpu)
    requires Rel(l, h, c, m, a) && o == EmitAllocArray(c, dst, bytes, count, size) && Within(o.ctx, l) && m.sp == StackTop(l)
    requires AbsStep(l, h, Backend.AllocArray(dst, bytes, count, size), a) == Some(b)
    ensures Goes(h, o.code, m, m') && Rel(l, h, o.ctx, m', b) && m'.sp == m.sp
  {
    hide Goes, Rel, Within, Extends, Save, StackTop, AnswerOf, AfterCall, OpVal, LoadTo, Readable, Passes, GetTemp, TakeResult;
    var n := LoadTo(c, count, size);
    var t := GetTemp(n.ctx);
    var s := Save(t.ctx, 0);
    var r := TakeResult(s.ctx, dst, 8);
    WithinEarlier(s.ctx, r.ctx, l);
    WithinEarlier(t.ctx, s.ctx, l);
    WithinEarlier(n.ctx, t.ctx, l);
    ReadableValue(l, h, a, count, size);
    var v := OpVal(l, h, a, count, size).value;
    var m1, k := LoadToRuns(l, h, c, count, size, m, a, n);
    PassesCount(l, c, k, 16, m, n.ctx, m1);
    var m2 := GetTempRuns(l, h, n.ctx, m1, a, t);
    PassesCount(l, n.ctx, 1, 16, m1, t.ctx, m2);
    Survives(c.count, k, 1);
    Stays(l, n.ctx, 1, 16, m1, t.ctx, m2, n.reg);
    GoesOn(h, n.code, t.code, m, m1, m2);
    var m3 := GoesStep(h, n.code + t.code, Const(t.reg, bytes), m, m2);
    SetFree(l, h, t.ctx, m2, a, t.reg, bytes);
    var mul := A64.Alu(Ir.Mul, t.reg, n.reg, t.reg, 8);
    var m4 := GoesStep(h, n.code + t.code + [Const(t.reg, bytes)], mul, m, m3);
    var total := h.alu(Ir.Mul, 8, v, bytes);
    SetFree(l, h, t.ctx, m3, a, t.reg, total);
    var m5 := OneArgCallRuns(l, h, t.ctx, Mov(0, t.reg, 8), total, "malloc", m4, a, s);
    var call := s.code + [Mov(0, t.reg, 8), Bl("malloc")];
    GoesOn(h, n.code + t.code + [Const(t.reg, bytes)] + [mul], call, m, m4, m5);
    m' := TakeResultRuns(l, h, s.ctx, dst, 8, m5, AfterCall(h, a, Direct("malloc"), [total]), b, r);
    GoesOn(h, n.code + t.code + [Const(t.reg, bytes)] + [mul] + call, r.code, m, m5, m');
    assert n.code + t.code + [Const(t.reg, bytes)] + [mul] + call + r.code == o.code;
  }

  lemma AllocParts(l: Layout, h: Host, dst: int, bytes: Word, init: Option<Opnd>, a: Abs, b: Abs) returns (a1: Abs, p: Word)
    requires AbsStep(l, h, Backend.Alloc(dst, bytes, init), a) == Some(b)
    ensures h.arity(Direct("malloc")) == 1 && a1 == AfterCall(h, a, Direct("malloc"), [bytes])
    ensures p == AnswerOf(h, a, Direct("malloc"), [bytes]).0 && dst !in a1.seen
    ensures init.None? ==> b == a1.(regs := a1.regs[dst := p], seen := a1.seen + {dst})
    ensures init.Some? ==>
      && OpVal(l, h, a1, init.value, bytes).Some? && Scalar(bytes) && AllPublic(h, p, bytes)
      && b == a1.(regs := a1.regs[dst := p], seen := a1.seen + {dst},
                  mem := A64.Write(a1.mem, p, bytes, OpVal(l, h, a1, init.value, bytes).value))
  {
    hide OpVal, AfterCall, AnswerOf, AllPublic, A64.Write;
    a1 := AfterCall(h, a, Direct("malloc"), [bytes]);
    p := AnswerOf(h, a, Direct("malloc"), [bytes]).0;
  }

  /** The initial value is stored through the scratch register holding the new pointer. */
  lemma InitRuns(l: Layout, h: Host, c: Ctx, t: XReg, init: Opnd, bytes: nat, m: Cpu, a: Abs, v: Out) returns (m': Cpu, n: nat)
    requires Rel(l, h, c, m, a) && v == LoadTo(c, init, bytes) && Within(v.ctx, l)
    requires OpVal(l, h, a, init, bytes).Some? && AllPublic(h, m.x[t], bytes) && 9 <= t <= 15 && !Soon(c.count, 3, t)
    ensures Goes(h, v.code + [Str(v.reg, t, bytes)], m, m') && m'.sp == m.sp && m'.x[t] == m.x[t]
    ensures Rel(l, h, v.ctx, m', a.(mem := A64.Write(a.mem, m.x[t], bytes, OpVal(l, h, a, init, bytes).value)))
    ensures 1 <= n <= 2 && v.ctx.count == Later(c.count, n)
  {
    hide Goes, Rel, Within, OpVal, LoadTo, Readable, Passes, AllPublic, A64.Write;
    ReadableValue(l, h, a, init, bytes);
    var m1;
    m1, n := LoadToRuns(l, h, c, init, bytes, m, a, v);
    PassesCount(l, c, n, 16, m, v.ctx, m1);
    Stays(l, c, n, 16, m, v.ctx, m1, t);
    m' := GoesStep(h, v.code, Str(v.reg, t, bytes), m, m1);
    StorePublic(l, h, v.ctx, m1, a, m.x[t], bytes, m1.x[v.reg]);
  }

  /** After the call: the new pointer in a scratch register, three turns to spare. */
  lemma PointerRuns(l: Layout, h: Host, c: Ctx, dst: int, m: Cpu, a: Abs, t: Out) returns (m': Cpu, n: nat)
    requires Rel(l, h, c, m, a) && t == LoadTo(c, R(dst), 8) && Within(t.ctx, l) && dst !in a.seen
    ensures Goes(h, t.code + [Mov(t.reg, 0, 8)], m, m') && Rel(l, h, t.ctx, m', Seen(a, dst)) && m'.sp == m.sp
    ensures 1 <= n <= 2 && t.ctx.count == Later(c.count, n) && t.reg == NextReg(c) && m'.x[t.reg] == m.x[0]
  {
    hide Goes, Rel, Within, OpVal, LoadTo, Passes;
    Announce(l, h, c, m, a, dst);
    var m1;
    m1, n := LoadToRuns(l, h, c, R(dst), 8, m, Seen(a, dst), t);
    PassesCount(l, c, n, 16, m, t.ctx, m1);
    Stays(l, c, n, 16, m, t.ctx, m1, 0);
    m' := GoesStep(h, t.code, Mov(t.reg, 0, 8), m, m1);
    SetFree(l, h, t.ctx, m1, Seen(a, dst), t.reg, m.x[0]);
  }

  lemma {:induction false} AllocRuns(l: Layout, h: Host, c: Ctx, dst: int, bytes: Word, init: Option<Opnd>, m: Cpu, a: Abs, b: Abs, o: Out)
    returns (m': Cpu)
    requires Rel(l, h, c, m, a) && o == EmitAlloc(c, dst, bytes, init) && Within(o.ctx, l) && m.sp == StackTop(l)
    requires AbsStep(l, h, Backend.Alloc(dst, bytes, init), a) == Some(b)
    ensures Goes(h, o.code, m, m') && Rel(l, h, o.ctx, m', b) && m'.sp == m.sp
  {
    hide Goes, Rel, Within, Extends, Save, StackTop, AnswerOf, AfterCall, OpVal, LoadTo, StoreTo, AbsStep, AllPublic, A64.Write;
    var a1, p := AllocParts(l, h, dst, bytes, init, a, b);
    var s := Save(c, 0);
    var t := LoadTo(s.ctx, R(dst), 8);
    var v := if init.Some? then LoadTo(t.ctx, init.value, bytes) else Out(t.ctx, [], 0);
    var st := if init.Some? then [Str(v.reg, t.reg, bytes)] else [];
    var d := StoreTo(v.ctx, R(dst), t.reg, 8);
    WithinEarlier(v.ctx, d.ctx, l);
    EarlierSelf(t.ctx, v.ctx, l, init.None?);
    WithinEarlier(s.ctx, t.ctx, l);
    var m1 := OneArgCallRuns(l, h, c, Const(0, bytes), bytes, "malloc", m, a, s);
    var call := s.code + [Const(0, bytes), Bl("malloc")];
    var m3, n := PointerRuns(l, h, s.ctx, dst, m1, a1, t);
    GoesOn(h, call, t.code + [Mov(t.reg, 0, 8)], m, m1, m3);
    Survives(s.ctx.count, n, 3);
    var m4, a3, k := m3, Seen(a1, dst), 0;
    if init.Some? {
      OpValSeen(l, h, a1, dst, init.value, bytes);
      m4, k := InitRuns(l, h, t.ctx, t.reg, init.value, bytes, m3, Seen(a1, dst), v);
      a3 := a3.(mem := A64.Write(a1.mem, p, bytes, OpVal(l, h, a1, init.value, bytes).value));
    } else {
      GoesNowhere(h, m3);
      assert v.code + st == [];
    }
    GoesOn(h, call + (t.code + [Mov(t.reg, 0, 8)]), v.code + st, m, m3, m4);
    LaterLater(s.ctx.count, n, k);
    Survives(s.ctx.count, n + k, 1);
    SoonLess(v.ctx.count, RegTurns(v.ctx, dst), t.reg);
    m' := StoreRegRuns(l, h, v.ctx, dst, t.reg, 8, m4, a3, d);
    GoesOn(h, call + (t.code + [Mov(t.reg, 0, 8)]) + (v.code + st), d.code, m, m4, m');
    assert call + (t.code + [Mov(t.reg, 0, 8)]) + (v.code + st) + d.code == o.code;
  }
}
