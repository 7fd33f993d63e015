/** Generated code simulates its IR. */
module BackendCorrect {
  import opened Options
  import opened Ir
  import opened A64
  import opened Backend
  import opened BackendSpec
  import opened BackendAlloc
  import opened BackendLoads
  import opened BackendHandlers
  import opened BackendCalls
  import opened BackendCallRuns
  import opened BackendRuntimeCalls

  lemma {:induction false} EmitRuns(l: Layout, h: Host, c: Ctx, i: Ins, m: Cpu, a: Abs, b: Abs, o: Out) returns (m': Cpu)
    requires Rel(l, h, c, m, a) && o == Emit(c, i) && Within(o.ctx, l) && m.sp == StackTop(l)
    requires AbsStep(l, h, i, a) == Some(b)
    ensures Goes(h, o.code, m, m') && Rel(l, h, o.ctx, m', b) && m'.sp == m.sp
  {
    hide Goes, Rel, Within, StackTop, AbsStep, EmitAssign, EmitBin, EmitMod, EmitNeg, EmitNot, EmitCmp, EmitLoad, EmitStore,
      EmitAddrOf, EmitCall, EmitMemCall, EmitAlloc, EmitAllocArray, EmitFree;
    match i
    case Assign(to, from, size) => m' := AssignRuns(l, h, c, to, from, size, m, a, b, o);
    case Bin(op, dst, lhs, rhs, size) => m' := BinRuns(l, h, c, op, dst, lhs, rhs, size, m, a, b, o);
    case Mod(dst, lhs, rhs, size) => m' := ModRuns(l, h, c, dst, lhs, rhs, size, m, a, b, o);
    case Neg(dst, from, size) => m' := NegRuns(l, h, c, dst, from, size, m, a, b, o);
    case Not(dst, from, size) => m' := NotRuns(l, h, c, dst, from, size, m, a, b, o);
    case Cmp(cond, dst, lhs, rhs, size) => m' := CmpRuns(l, h, c, cond, dst, lhs, rhs, size, m, a, b, o);
    case Load(dst, addr, size) => m' := LoadRuns(l, h, c, dst, addr, size, m, a, b, o);
    case Store(addr, from, size) => m' := StoreRuns(l, h, c, addr, from, size, m, a, b, o);
    case AddrOf(dst, v) => m' := AddrOfRuns(l, h, c, dst, v, m, a, b, o);
    case Call(_, _, _, _, _) => m' := CallRuns(l, h, c, i, m, a, b, o);
    case MemCall(_, _, _, _, _) => m' := MemCallRuns(l, h, c, i, m, a, b, o);
    case Alloc(dst, bytes, init) => m' := AllocRuns(l, h, c, dst, bytes, init, m, a, b, o);
    case AllocArray(dst, bytes, count, size) => m' := AllocArrayRuns(l, h, c, dst, bytes, count, size, m, a, b, o);
    case Free(ptr) => m' := FreeRuns(l, h, c, ptr, m, a, b, o);
  }

  lemma {:induction false} EmitAllRuns(l: Layout, h: Host, c: Ctx, prog: seq<Ins>, m: Cpu, a: Abs, b: Abs, o: Out) returns (m': Cpu)
    requires Rel(l, h, c, m, a) && o == EmitAll(c, prog) && Within(o.ctx, l) && m.sp == StackTop(l)
    requires AbsRun(l, h, prog, a) == Some(b)
    ensures Goes(h, o.code, m, m') && Rel(l, h, o.ctx, m', b) && m'.sp == m.sp
    decreases |prog|
  {
    hide Goes, Rel, Within, StackTop, AbsStep, Emit, Extends;
    if prog == [] {
      m' := m;
      GoesNowhere(h, m);
    } else {
      var s := Emit(c, prog[0]);
      var rest := EmitAll(s.ctx, prog[1..]);
      WithinEarlier(s.ctx, rest.ctx, l);
      var b1 := AbsStep(l, h, prog[0], a).value;
      var m1 := EmitRuns(l, h, c, prog[0], m, a, b1, s);
      m' := EmitAllRuns(l, h, s.ctx, prog[1..], m1, b1, b, rest);
      GoesOn(h, s.code, rest.code, m, m1, m');
    }
  }

  /** Where the allocator says IR register `id` is, read off the machine. */
  ghost function Located(c: Ctx, m: Cpu, id: int): Option<Word> {
    if id in c.home then Some(m.x[c.home[id]])
    else if id in c.spilled then Some(A64.Load(m.mem, m.fp - c.spilled[id], 8))
    else None
  }

  /** The frame the function ends up with. */
  function FinalLayout(fp: int, prog: seq<Ins>): Layout {
    LayoutOf(fp, EmitAll(Start, prog).ctx)
  }

  /**
    Every label-free run: whatever the unlimited machine computes, the emitted code computes,
    wherever spilling put it. Arithmetic, symbols, callees and what they clobber are arbitrary;
    every call is made with the same arguments and an aligned stack pointer.
   */
  lemma {:induction false} AllocatorSimulates(h: Host, prog: seq<Ins>, m: Cpu, b: Abs) returns (m': Cpu)
    requires Sound(FinalLayout(m.fp, prog), h) && m.sp == StackTop(FinalLayout(m.fp, prog))
    requires AbsRun(FinalLayout(m.fp, prog), h, prog, Abs(map[], {}, m.mem, m.calls)) == Some(b)
    ensures var o := EmitAll(Start, prog);
      && Goes(h, o.code, m, m') && (forall n: Cpu :: Goes(h, o.code, m, n) ==> n == m')
      && (forall id :: id in b.regs ==> Located(o.ctx, m', id) == Some(b.regs[id]))
      && (forall y :: y in h.public ==> m'.mem(y) == b.mem(y))
      && m'.calls == b.calls && m'.sp == m.sp && m'.fp == m.fp
  {
    hide Goes, AbsRun, EmitAll, StackTop;
    var l := FinalLayout(m.fp, prog);
    var o := EmitAll(Start, prog);
    var a := Abs(map[], {}, m.mem, m.calls);
    m' := EmitAllRuns(l, h, Start, prog, m, a, b, o);
    forall n: Cpu | Goes(h, o.code, m, n)
      ensures n == m'
    {
      GoesUnique(h, o.code, m, n, m');
    }
  }

  /**
    The one register a call does not preserve. The callee's address is fetched into a temporary
    after the caller-saved registers are spilled and is then recorded as living there, so once
    the call returns that record names whatever the callee left. `AllocatorSimulates` therefore
    speaks of every register except those (`AbsCall` drops them).
   */
  lemma {:induction false} CallThroughRegisterLosesIt(l: Layout, h: Host, c: Ctx, id: int, args: seq<Arg>, m: Cpu, a: Abs, b: Abs) returns (m': Cpu)
    requires Rel(l, h, c, m, a) && m.sp == StackTop(l)
    requires var i := Call(None, Value(R(id)), None, args, 8); Within(EmitCall(c, i).ctx, l) && AbsStep(l, h, i, a) == Some(b)
    ensures var o := EmitCall(c, Call(None, Value(R(id)), None, args, 8));
      && Goes(h, o.code, m, m') && Rel(l, h, o.ctx, m', b) && id in o.ctx.home
      && Located(o.ctx, m', id) == Some(h.junkReg(a.calls, o.ctx.home[id]))
  {
    hide Goes, Rel, Within, EmitCall, AbsStep, StackTop;
    var i := Call(None, Value(R(id)), None, args, 8);
    m' := CallRuns(l, h, c, i, m, a, b, EmitCall(c, i));
  }
}
