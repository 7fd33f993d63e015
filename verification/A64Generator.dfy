/** The code generator as it works: fields updated in place, instructions appended to the current buffer. */
module A64Generator {
  import opened Options
  import opened Ir
  import opened A64
  import opened Backend
  import opened Arith

  /** A call being prepared: its buffered instructions and what has been passed so far. */
  datatype CallContext = CallContext(argInstrs: seq<Asm>, argsPassed: nat, hasHidden: bool, stackArgsSize: nat)

  /** A temporary mapped to -1 is scratch. */
  const SCRATCH: int := -1

  function Held(phys: map<XReg, int>): map<XReg, int> {
    map r | r in phys && phys[r] != SCRATCH :: phys[r]
  }

  lemma HeldSet(phys: map<XReg, int>, r: XReg, id: int)
    ensures Held(phys[r := id]) == if id == SCRATCH then Held(phys) - {r} else Held(phys)[r := id]
    ensures r in Held(phys) <==> r in phys && phys[r] != SCRATCH
    ensures r in Held(phys) ==> Held(phys)[r] == phys[r]
  {
  }

  /** IR registers are numbered from 0. */
  predicate Ok(op: Opnd) {
    op.R? ==> op.id >= 0
  }

  predicate InsOk(i: Ins) {
    match i
    case Assign(to, from, _) => Ok(to) && Ok(from)
    case Bin(_, dst, lhs, rhs, _) => dst >= 0 && Ok(lhs) && Ok(rhs)
    case Mod(dst, lhs, rhs, _) => dst >= 0 && Ok(lhs) && Ok(rhs)
    case Neg(dst, from, _) => dst >= 0 && Ok(from)
    case Not(dst, from, _) => dst >= 0 && Ok(from)
    case Cmp(_, dst, lhs, rhs, _) => dst >= 0 && Ok(lhs) && Ok(rhs)
    case Load(dst, addr, _) => dst >= 0 && Ok(addr)
    case Store(addr, from, _) => Ok(addr) && Ok(from)
    case AddrOf(dst, _) => dst >= 0
    case Call(result, target, hidden, args, _) =>
      && (result.Some? ==> result.value >= 0) && (target.Value? ==> Ok(target.op)) && (hidden.Some? ==> Ok(hidden.value))
      && (forall k :: 0 <= k < |args| ==> Ok(args[k].op))
    case MemCall(_, addr, from, _, _) => Ok(addr) && Ok(from)
    case Alloc(dst, _, init) => dst >= 0 && (init.Some? ==> Ok(init.value))
    case AllocArray(dst, _, count, _) => dst >= 0 && Ok(count)
    case Free(ptr) => Ok(ptr)
  }

  lemma {:induction false} SaveSkip(c: Ctx, r: nat, s: nat)
    requires r <= s <= 16 && forall k :: r <= k < s ==> k !in c.holds
    ensures Save(c, r) == Save(c, s)
    decreases s - r
  {
    if r < s {
      SaveSkip(c, r + 1, s);
      var rest := Save(c, r + 1);
      assert [] + rest.code == rest.code;
      SaveReg(c, r + 1);
    }
  }

  lemma {:induction false} SaveReg(c: Ctx, r: nat)
    requires r <= 16
    ensures Save(c, r).reg == 0
  {
  }

  lemma SpillAnswers(c: Ctx, r: XReg)
    ensures Spill(c, r).reg == r && r !in Spill(c, r).ctx.holds
    ensures Spill(c, r).ctx.holds - {r} == Spill(c, r).ctx.holds
  {
  }

  /** `Save` from `next` on spills `reg` first when nothing before it is held. */
  lemma SaveStep(c: Ctx, next: nat, reg: nat)
    requires next <= reg < 16 && forall k :: next <= k < reg ==> k !in c.holds
    ensures Save(c, next).ctx == Save(Spill(c, reg).ctx, reg + 1).ctx
    ensures Save(c, next).code == Spill(c, reg).code + Save(Spill(c, reg).ctx, reg + 1).code
  {
    SaveSkip(c, next, reg);
  }

  lemma {:induction false} SaveDone(c: Ctx, next: nat)
    requires next <= 16 && forall k :: next <= k < 16 ==> k !in c.holds
    ensures Save(c, next).ctx == c && Save(c, next).code == []
  {
    SaveSkip(c, next, 16);
  }

  /** `regs` are, in order, the registers from `next` on that still hold something. */
  predicate Remaining(regs: seq<XReg>, c: Ctx, next: nat) {
    && next <= 16
    && (forall i, j :: 0 <= i < j < |regs| ==> regs[i] < regs[j])
    && (forall i :: 0 <= i < |regs| ==> next <= regs[i] < 16)
    && (forall k: XReg :: next <= k < 16 ==> (k in c.holds <==> k in regs))
  }

  lemma RemainingStep(regs: seq<XReg>, c: Ctx, next: nat)
    requires Remaining(regs, c, next) && regs != []
    ensures forall k :: next <= k < regs[0] ==> k !in c.holds
    ensures Remaining(regs[1..], Spill(c, regs[0]).ctx, regs[0] + 1)
  {
    assert regs == [regs[0]] + regs[1..];
    var d := Spill(c, regs[0]).ctx;
    assert forall k: XReg :: k != regs[0] ==> (k in d.holds <==> k in c.holds);
  }

  lemma RemainingFirst(regs: seq<XReg>, c: Ctx, next: nat)
    requires Remaining(regs, c, next) && regs != []
    ensures next <= regs[0] < 16
  {
  }

  lemma RemainingNone(c: Ctx, next: nat)
    requires Remaining([], c, next)
    ensures forall k :: next <= k < 16 ==> k !in c.holds
  {
  }

  lemma Append(before: seq<Asm>, acc: seq<Asm>, piece: seq<Asm>)
    ensures (before + acc) + piece == before + (acc + piece)
  {
  }

  // Calls in preparation

  function Passed(t: CallContext): nat {
    t.argsPassed + (if t.hasHidden then 1 else 0)
  }

  /** Bytes of stack the first `n` arguments take. */
  function StackArgs(n: nat): nat {
    if n > 8 then 8 * (n - 8) else 0
  }

  /** Stack space, buffered instructions, the branch, stack space back. */
  function CallCode(c: Ctx, bytes: nat, prepared: seq<Asm>, target: Target): Out {
    var t := EmitTarget(c, target);
    Out(t.ctx, (if bytes > 0 then [SubSp(bytes)] else []) + prepared + t.code + (if bytes > 0 then [AddSp(bytes)] else []), 0)
  }

  /** What the call instruction itself emits once `n` arguments are buffered in `prepared`. */
  function FinishCall(c: Ctx, prepared: seq<Asm>, n: nat, target: Target, result: Option<int>, size: nat): Out {
    var s := Save(c, 0);
    var t := CallCode(s.ctx, ArgBytes(n), prepared + s.code, target);
    var r := if result.Some? then TakeResult(t.ctx, result.value, size) else Out(t.ctx, [], 0);
    Out(r.ctx, t.code + r.code, 0)
  }

  /** Buffering the arguments and then finishing is the whole call. */
  lemma {:induction false} BufferedCall(c: Ctx, i: Ins)
    requires i.Call?
    ensures var a := EmitArgs(c, 0, AllArgs(i.hidden, i.args));
      EmitCall(c, i) == FinishCall(a.ctx, a.code, |AllArgs(i.hidden, i.args)|, i.target, i.result, i.size)
  {
    hide EmitArgs, Save, EmitTarget, TakeResult;
    var a := EmitArgs(c, 0, AllArgs(i.hidden, i.args));
    var down := if ArgBytes(|AllArgs(i.hidden, i.args)|) > 0 then [SubSp(ArgBytes(|AllArgs(i.hidden, i.args)|))] else [];
    assert (down + a.code) + Save(a.ctx, 0).code == down + (a.code + Save(a.ctx, 0).code);
  }

  lemma {:induction false} EmitArgsSnoc(c: Ctx, k: nat, args: seq<Arg>, x: Arg)
    ensures var a := EmitArgs(c, k, args);
      var b := EmitArg(a.ctx, k + |args|, x);
      EmitArgs(c, k, args + [x]) == Out(b.ctx, a.code + b.code, 0)
    decreases |args|
  {
    hide EmitArg;
    if args == [] {
      var b := EmitArg(c, k, x);
      assert ([] + [x])[1..] == [];
      assert b.code + [] == [] + b.code;
      assert EmitArgs(b.ctx, k + 1, []) == Out(b.ctx, [], 0);
    } else {
      var s := EmitArg(c, k, args[0]);
      EmitArgsSnoc(s.ctx, k + 1, args[1..], x);
      assert (args + [x])[1..] == args[1..] + [x];
      var a := EmitArgs(s.ctx, k + 1, args[1..]);
      var b := EmitArg(a.ctx, k + 1 + |args[1..]|, x);
      assert s.code + (a.code + b.code) == (s.code + a.code) + b.code;
    }
  }

  /** Two call stacks that differ only in the instructions of the innermost call. */
  lemma Tops(a: seq<CallContext>, b: seq<CallContext>)
    requires a != [] && b != [] && a[|a| - 1 := a[|a| - 1].(argInstrs := [])] == b[|b| - 1 := b[|b| - 1].(argInstrs := [])]
    ensures |a| == |b| && b[..|b| - 1] == a[..|a| - 1]
    ensures b[|b| - 1] == a[|a| - 1].(argInstrs := b[|b| - 1].argInstrs)
  {
    var x, y := a[|a| - 1 := a[|a| - 1].(argInstrs := [])], b[|b| - 1 := b[|b| - 1].(argInstrs := [])];
    assert |x| == |a| && |y| == |b|;
    assert x[..|a| - 1] == a[..|a| - 1] && y[..|b| - 1] == b[..|b| - 1];
    assert x[|a| - 1] == y[|a| - 1];
  }

  lemma {:induction false} EmitArgsNone(c: Ctx)
    ensures EmitArgs(c, 0, []) == Out(c, [], 0)
  {
  }

  lemma {:induction false} EmitAllNone(c: Ctx)
    ensures EmitAll(c, []) == Out(c, [], 0)
  {
  }

  lemma {:induction false} EmitAllStep(c: Ctx, prog: seq<Ins>)
    requires prog != []
    ensures var s := Backend.Emit(c, prog[0]);
      var rest := EmitAll(s.ctx, prog[1..]);
      EmitAll(c, prog).ctx == rest.ctx && EmitAll(c, prog).code == s.code + rest.code
  {
  }

  class Generator {
    var regCount: Turn
    var physToIr: map<XReg, int>
    var irToPhys: map<int, XReg>
    var spilledAt: map<int, nat>
    var varLocations: map<string, nat>
    var stackOffset: nat
    var asm: seq<Asm>
    var calls: seq<CallContext>
    ghost var slots: seq<FrameSlot>

    constructor ()
      ensures State() == Start && asm == [] && calls == []
    {
      regCount, physToIr, irToPhys, spilledAt, varLocations := 0, map[], map[], map[], map[];
      stackOffset, asm, calls, slots := 0, [], [], [];
    }

    ghost function State(): Ctx
      reads this
    {
      Ctx(regCount, Held(physToIr), irToPhys, spilledAt, varLocations, stackOffset, slots)
    }

    /** Where instructions go now: the innermost call being prepared, or the function's buffer. */
    ghost function Sink(): seq<Asm>
      reads this
    {
      if calls == [] then asm else calls[|calls| - 1].argInstrs
    }

    /** Everything an emitted instruction leaves alone. */
    ghost function Elsewhere(): (seq<Asm>, seq<CallContext>)
      reads this
    {
      if calls == [] then ([], []) else (asm, calls[|calls| - 1 := calls[|calls| - 1].(argInstrs := [])])
    }

    /** Since then the allocator went from `c` to `o` and emitted its code after `before`. */
    ghost predicate Did(o: Out, before: seq<Asm>, elsewhere: (seq<Asm>, seq<CallContext>))
      reads this
    {
      State() == o.ctx && Sink() == before + o.code && Elsewhere() == elsewhere
    }

    method Emit(i: Asm)
      modifies this
      ensures State() == old(State()) && Sink() == old(Sink()) + [i] && Elsewhere() == old(Elsewhere())
    {
      if calls != [] {
        var n := |calls| - 1;
        ghost var was := calls;
        calls := calls[n := calls[n].(argInstrs := calls[n].argInstrs + [i])];
        assert calls[n := calls[n].(argInstrs := [])] == was[n := was[n].(argInstrs := [])];
      } else {
        asm := asm + [i];
      }
    }

    method EmitSeq(code: seq<Asm>)
      modifies this
      ensures State() == old(State()) && Sink() == old(Sink()) + code && Elsewhere() == old(Elsewhere())
    {
      for k := 0 to |code|
        invariant State() == old(State()) && Sink() == old(Sink()) + code[..k] && Elsewhere() == old(Elsewhere())
      {
        Emit(code[k]);
        assert code[..k + 1] == code[..k] + [code[k]];
      }
      assert code[..|code|] == code;
    }

    method EmitSlotAccess(off: nat)
      modifies this
      ensures State() == old(State()) && Sink() == old(Sink()) + SlotAccess(off) && Elsewhere() == old(Elsewhere())
    {
      Emit(Const(16, Wrap(off)));
      Emit(SubFp(16, 16));
    }

    // Registers

    method SpillRegister(reg: XReg, ir: int)
      requires reg in physToIr && physToIr[reg] == ir && ir != SCRATCH
      modifies this
      ensures Did(Spill(old(State()), reg), old(Sink()), old(Elsewhere()))
      ensures reg in physToIr && physToIr[reg] == SCRATCH
    {
      hide Held, SlotAccess;
      HeldSet(physToIr, reg, SCRATCH);
      ghost var before := Sink();
      stackOffset := stackOffset + 8;
      var offset := stackOffset;
      EmitSlotAccess(offset);
      Emit(Str(reg, 16, 8));
      assert Sink() == before + (SlotAccess(offset) + [Str(reg, 16, 8)]);
      spilledAt := spilledAt[ir := offset];
      irToPhys := irToPhys - {ir};
      HeldSet(physToIr, reg, SCRATCH);
      physToIr := physToIr[reg := SCRATCH];
      slots := slots + [FrameSlot(offset, 8, true)];
    }

    method SpillIfHeld(reg: XReg)
      modifies this
      ensures Did(Spill(old(State()), reg), old(Sink()), old(Elsewhere()))
      ensures reg in physToIr ==> physToIr[reg] == SCRATCH
    {
      hide Held;
      HeldSet(physToIr, reg, SCRATCH);
      if reg in physToIr && physToIr[reg] != SCRATCH {
        SpillRegister(reg, physToIr[reg]);
      }
    }

    method GetTempPhysReg() returns (reg: XReg)
      modifies this
      ensures Did(GetTemp(old(State())), old(Sink()), old(Elsewhere())) && reg == GetTemp(old(State())).reg
    {
      hide Held, Spill;
      ghost var c := State();
      reg := 9 + regCount;
      regCount := if regCount == 6 then 0 else regCount + 1;
      assert State() == Tick(c) && Sink() == old(Sink()) && Elsewhere() == old(Elsewhere());
      SpillIfHeld(reg);
      HeldSet(physToIr, reg, SCRATCH);
      SpillAnswers(Tick(c), reg);
      physToIr := physToIr[reg := SCRATCH];
    }

    /** Brings a spilled IR register back and forgets its slot. */
    method Reload(id: int, reg: XReg)
      modifies this
      ensures State() == old(State()).(spilled := old(State()).spilled - {id}) && Elsewhere() == old(Elsewhere())
      ensures Sink() == old(Sink()) + if id in old(spilledAt) then SlotAccess(old(spilledAt)[id]) + [Ldr(reg, 16, 8)] else []
    {
      hide Held, SlotAccess;
      ghost var before := Sink();
      if id in spilledAt {
        ghost var access := SlotAccess(spilledAt[id]);
        EmitSlotAccess(spilledAt[id]);
        Emit(Ldr(reg, 16, 8));
        Append(before, access, [Ldr(reg, 16, 8)]);
        spilledAt := spilledAt - {id};
      } else {
        assert spilledAt - {id} == spilledAt;
      }
    }

    method GetPhysReg(id: int) returns (reg: XReg)
      requires id >= 0
      modifies this
      ensures Did(GetReg(old(State()), id), old(Sink()), old(Elsewhere())) && reg == GetReg(old(State()), id).reg
    {
      hide Held, Spill, SlotAccess;
      if id in irToPhys {
        return irToPhys[id];
      }
      ghost var c := State();
      reg := 9 + regCount;
      regCount := if regCount == 6 then 0 else regCount + 1;
      assert State() == Tick(c) && Sink() == old(Sink()) && Elsewhere() == old(Elsewhere());
      ghost var s := Spill(Tick(c), reg);
      SpillIfHeld(reg);
      SpillAnswers(Tick(c), reg);
      ghost var back := if id in spilledAt then SlotAccess(spilledAt[id]) + [Ldr(reg, 16, 8)] else [];
      Reload(id, reg);
      Append(old(Sink()), s.code, back);
      HeldSet(physToIr, reg, id);
      irToPhys := irToPhys[id := reg];
      physToIr := physToIr[reg := id];
    }

    method ListCallerSavedInUse() returns (regs: seq<XReg>)
      ensures Remaining(regs, State(), 0)
    {
      regs := [];
      for r: int := 0 to 16
        invariant forall i, j :: 0 <= i < j < |regs| ==> regs[i] < regs[j]
        invariant forall k: XReg :: k in regs <==> k < r && k in State().holds
      {
        if r in physToIr && physToIr[r] != SCRATCH {
          assert forall i :: 0 <= i < |regs| ==> regs[i] in regs;
          regs := regs + [r];
        }
      }
      assert forall i :: 0 <= i < |regs| ==> regs[i] in regs;
    }

    /** Lists the caller-saved registers in use, then spills them in that order. */
    method SaveCallerSavedRegs()
      modifies this
      ensures Did(Save(old(State()), 0), old(Sink()), old(Elsewhere()))
    {
      hide Held, Spill, Save, Remaining;
      ghost var c, before := State(), Sink();
      var regs := ListCallerSavedInUse();
      assert regs[0..] == regs;
      ghost var next, done: seq<Asm> := 0, [];
      for j := 0 to |regs|
        invariant Elsewhere() == old(Elsewhere()) && Sink() == before + done
        invariant next <= 16 && Remaining(regs[j..], State(), next)
        invariant Save(c, 0).ctx == Save(State(), next).ctx && Save(c, 0).code == done + Save(State(), next).code
      {
        ghost var st := State();
        var reg := regs[j];
        assert regs[j..][0] == reg && regs[j..][1..] == regs[j + 1..];
        RemainingFirst(regs[j..], st, next);
        RemainingStep(regs[j..], st, next);
        SaveStep(st, next, reg);
        SpillIfHeld(reg);
        assert done + (Spill(st, reg).code + Save(State(), reg + 1).code) == (done + Spill(st, reg).code) + Save(State(), reg + 1).code;
        done := done + Spill(st, reg).code;
        next := reg + 1;
      }
      RemainingNone(State(), next);
      SaveDone(State(), next);
      assert done + [] == done;
    }

    // Operands

    method EmitGetVarAddr(v: Local) returns (reg: XReg)
      modifies this
      ensures Did(VarAddr(old(State()), v), old(Sink()), old(Elsewhere())) && reg == VarAddr(old(State()), v).reg
    {
      hide Held, GetTemp;
      ghost var before := Sink();
      ghost var t := GetTemp(State());
      reg := GetTempPhysReg();
      if v.name !in varLocations {
        var align := if v.align > 0 then v.align else 1;
        stackOffset := RoundUp(stackOffset, align) + v.size;
        varLocations := varLocations[v.name := stackOffset];
        slots := slots + [FrameSlot(stackOffset, v.size, false)];
      }
      assert State() == Place(t.ctx, v);
      assert Sink() == before + t.code && Elsewhere() == old(Elsewhere());
      var off := varLocations[v.name];
      Emit(Const(reg, Wrap(off)));
      Emit(SubFp(reg, reg));
      assert Sink() == before + (t.code + [Const(reg, Wrap(off)), SubFp(reg, reg)]);
    }

    method LoadIntoReg(op: Opnd, dst: XReg, size: nat)
      requires Ok(op)
      modifies this
      ensures Did(LoadInto(old(State()), op, dst, size), old(Sink()), old(Elsewhere()))
    {
      hide Held, GetReg, VarAddr;
      ghost var c, before := State(), Sink();
      match op {
        case R(id) =>
          var src := GetPhysReg(id);
          if dst != src {
            Emit(Mov(dst, src, size));
          }
        case V(v) =>
          var addr := EmitGetVarAddr(v);
          Emit(Ldr(dst, addr, size));
        case N(n) => Emit(Const(dst, n));
        case Sym(name) => Emit(LoadAddr(dst, name));
      }
      assert Sink() == before + LoadInto(c, op, dst, size).code;
    }

    method LoadToReg(op: Opnd, size: nat) returns (reg: XReg)
      requires Ok(op)
      modifies this
      ensures Did(LoadTo(old(State()), op, size), old(Sink()), old(Elsewhere())) && reg == LoadTo(old(State()), op, size).reg
    {
      hide Held, GetTemp, LoadInto;
      ghost var c, before := State(), Sink();
      reg := GetTempPhysReg();
      LoadIntoReg(op, reg, size);
      assert Sink() == before + LoadTo(c, op, size).code;
    }

    method StoreToOperand(op: Opnd, src: XReg, size: nat)
      requires Ok(op)
      modifies this
      ensures Did(StoreTo(old(State()), op, src, size), old(Sink()), old(Elsewhere()))
    {
      hide Held, GetReg, VarAddr;
      ghost var c, before := State(), Sink();
      match op {
        case R(id) =>
          var dst := GetPhysReg(id);
          Emit(Mov(dst, src, size));
        case V(v) =>
          var addr := EmitGetVarAddr(v);
          Emit(Str(src, addr, size));
        case _ =>
      }
      assert Sink() == before + StoreTo(c, op, src, size).code;
    }

    // Handlers

    method HandleAssign(to: Opnd, from: Opnd, size: nat)
      requires Ok(to) && Ok(from)
      modifies this
      ensures Did(EmitAssign(old(State()), to, from, size), old(Sink()), old(Elsewhere()))
    {
      hide Held, LoadTo, StoreTo;
      ghost var c, before := State(), Sink();
      var srcSize := size;
      if from.V? {
        srcSize := from.local.size;
      }
      var src := LoadToReg(from, srcSize);
      StoreToOperand(to, src, size);
      assert Sink() == before + EmitAssign(c, to, from, size).code;
    }

    method HandlePrimBinop(op: ArithOp, dst: int, lhs: Opnd, rhs: Opnd, size: nat)
      requires dst >= 0 && Ok(lhs) && Ok(rhs)
      modifies this
      ensures Did(EmitBin(old(State()), op, dst, lhs, rhs, size), old(Sink()), old(Elsewhere()))
    {
      hide Held, GetReg, LoadInto, LoadTo;
      ghost var c, before := State(), Sink();
      var d := GetPhysReg(dst);
      LoadIntoReg(lhs, d, size);
      var r := LoadToReg(rhs, size);
      Emit(A64.Alu(op, d, d, r, size));
      assert Sink() == before + EmitBin(c, op, dst, lhs, rhs, size).code;
    }

    method HandleMod(dst: int, lhs: Opnd, rhs: Opnd, size: nat)
      requires dst >= 0 && Ok(lhs) && Ok(rhs)
      modifies this
      ensures Did(EmitMod(old(State()), dst, lhs, rhs, size), old(Sink()), old(Elsewhere()))
    {
      hide Held, GetReg, LoadInto, LoadTo, GetTemp;
      ghost var before, x := Sink(), GetReg(State(), dst);
      var d := GetPhysReg(dst);
      ghost var y := LoadInto(State(), lhs, d, size);
      LoadIntoReg(lhs, d, size);
      Append(before, x.code, y.code);
      ghost var z := LoadTo(State(), rhs, size);
      var r := LoadToReg(rhs, size);
      Append(before, x.code + y.code, z.code);
      ghost var u := GetTemp(State());
      var t := GetTempPhysReg();
      Append(before, x.code + y.code + z.code, u.code);
      var ops := [A64.Alu(Ir.Div, t, d, r, size), Msub(d, t, r, d, size)];
      EmitSeq(ops);
      Append(before, x.code + y.code + z.code + u.code, ops);
    }

    method HandleNeg(dst: int, from: Opnd, size: nat)
      requires dst >= 0 && Ok(from)
      modifies this
      ensures Did(EmitNeg(old(State()), dst, from, size), old(Sink()), old(Elsewhere()))
    {
      hide Held, GetReg, LoadTo;
      ghost var c, before := State(), Sink();
      var d := GetPhysReg(dst);
      var src := LoadToReg(from, size);
      Emit(NegX(d, src, size));
      assert Sink() == before + EmitNeg(c, dst, from, size).code;
    }

    method HandleLogicalNot(dst: int, from: Opnd, size: nat)
      requires dst >= 0 && Ok(from)
      modifies this
      ensures Did(EmitNot(old(State()), dst, from, size), old(Sink()), old(Elsewhere()))
    {
      hide Held, GetReg, LoadTo;
      ghost var c, before := State(), Sink();
      var d := GetPhysReg(dst);
      var src := LoadToReg(from, size);
      Emit(CmpZero(src, size));
      Emit(Cset(d, CmpEq));
      assert Sink() == before + EmitNot(c, dst, from, size).code;
    }

    method HandleCmp(cond: CmpOp, dst: int, lhs: Opnd, rhs: Opnd, size: nat)
      requires dst >= 0 && Ok(lhs) && Ok(rhs)
      modifies this
      ensures Did(EmitCmp(old(State()), cond, dst, lhs, rhs, size), old(Sink()), old(Elsewhere()))
    {
      hide Held, GetReg, LoadTo;
      ghost var c, before := State(), Sink();
      var l := LoadToReg(lhs, size);
      var r := LoadToReg(rhs, size);
      var d := GetPhysReg(dst);
      Emit(CmpX(l, r, size));
      Emit(Cset(d, cond));
      assert Sink() == before + EmitCmp(c, cond, dst, lhs, rhs, size).code;
    }

    method HandleLoad(dst: int, addr: Opnd, size: nat)
      requires dst >= 0 && Ok(addr)
      modifies this
      ensures Did(EmitLoad(old(State()), dst, addr, size), old(Sink()), old(Elsewhere()))
    {
      hide Held, LoadTo, StoreTo;
      ghost var c, before := State(), Sink();
      var a := LoadToReg(addr, 8);
      var t := LoadToReg(R(dst), size);
      Emit(Ldr(t, a, size));
      StoreToOperand(R(dst), t, size);
      assert Sink() == before + EmitLoad(c, dst, addr, size).code;
    }

    method HandleStore(addr: Opnd, from: Opnd, size: nat)
      requires Ok(addr) && Ok(from)
      modifies this
      ensures Did(EmitStore(old(State()), addr, from, size), old(Sink()), old(Elsewhere()))
    {
      hide Held, LoadTo;
      ghost var c, before := State(), Sink();
      var a := LoadToReg(addr, 8);
      var v := LoadToReg(from, size);
      Emit(Str(v, a, size));
      assert Sink() == before + EmitStore(c, addr, from, size).code;
    }

    method HandleAddrOf(dst: int, v: Local)
      requires dst >= 0
      modifies this
      ensures Did(EmitAddrOf(old(State()), dst, v), old(Sink()), old(Elsewhere()))
    {
      hide Held, LoadTo, VarAddr, StoreTo;
      ghost var c, before := State(), Sink();
      var t := LoadToReg(R(dst), 8);
      var a := EmitGetVarAddr(v);
      Emit(Mov(t, a, 8));
      StoreToOperand(R(dst), t, 8);
      assert Sink() == before + EmitAddrOf(c, dst, v).code;
    }

    /** Saves, then runs `setup`, which ends in the call. */
    method EmitRuntimeCall(setup: seq<Asm>)
      modifies this
      ensures var s := Save(old(State()), 0); Did(Out(s.ctx, s.code + setup, 0), old(Sink()), old(Elsewhere()))
    {
      hide Held, Save;
      ghost var c, before := State(), Sink();
      SaveCallerSavedRegs();
      EmitSeq(setup);
      Append(before, Save(c, 0).code, setup);
    }

    method HandleMemCall(func: string, addr: Opnd, from: Opnd, fromSize: nat, bytes: Word)
      requires Ok(addr) && Ok(from)
      modifies this
      ensures Did(EmitMemCall(old(State()), MemCall(func, addr, from, fromSize, bytes)), old(Sink()), old(Elsewhere()))
    {
      hide Held, LoadTo, Save;
      ghost var before := Sink();
      ghost var x := LoadTo(State(), addr, 8);
      var d := LoadToReg(addr, 8);
      ghost var y := LoadTo(State(), from, fromSize);
      var f := LoadToReg(from, fromSize);
      Append(before, x.code, y.code);
      ghost var z := Save(State(), 0);
      var setup := [Mov(0, d, 8), Mov(1, f, 8), Const(2, bytes), Bl(func)];
      EmitRuntimeCall(setup);
      Append(before, x.code + y.code, z.code + setup);
      Append(x.code + y.code, z.code, setup);
    }

    method HandleAlloc(dst: int, bytes: Word, init: Option<Opnd>)
      requires dst >= 0 && (init.Some? ==> Ok(init.value))
      modifies this
      ensures Did(EmitAlloc(old(State()), dst, bytes, init), old(Sink()), old(Elsewhere()))
    {
      hide Held, LoadTo, StoreTo, Save;
      ghost var before := Sink();
      ghost var acc := Save(State(), 0).code + [Const(0, bytes), Bl("malloc")];
      EmitRuntimeCall([Const(0, bytes), Bl("malloc")]);
      ghost var x := LoadTo(State(), R(dst), 8);
      var t := LoadToReg(R(dst), 8);
      Append(before, acc, x.code);
      Emit(Mov(t, 0, 8));
      Append(before, acc + x.code, [Mov(t, 0, 8)]);
      acc := acc + x.code + [Mov(t, 0, 8)];
      ghost var st: Out := Out(State(), [], 0);
      if init.Some? {
        ghost var y := LoadTo(State(), init.value, bytes);
        var v := LoadToReg(init.value, bytes);
        Append(before, acc, y.code);
        Emit(Str(v, t, bytes));
        Append(before, acc + y.code, [Str(v, t, bytes)]);
        acc := acc + y.code + [Str(v, t, bytes)];
      } else {
        assert acc == acc + [] + [];
      }
      ghost var z := StoreTo(State(), R(dst), t, 8);
      StoreToOperand(R(dst), t, 8);
      Append(before, acc, z.code);
    }

    method HandleAllocArray(dst: int, bytes: Word, count: Opnd, size: nat)
      requires dst >= 0 && Ok(count)
      modifies this
      ensures Did(EmitAllocArray(old(State()), dst, bytes, count, size), old(Sink()), old(Elsewhere()))
    {
      hide Held, LoadTo, StoreTo, Save, GetTemp, TakeResult;
      ghost var before := Sink();
      ghost var x := LoadTo(State(), count, size);
      var n := LoadToReg(count, size);
      ghost var y := GetTemp(State());
      var t := GetTempPhysReg();
      Append(before, x.code, y.code);
      var mul := [Const(t, bytes), A64.Alu(Ir.Mul, t, n, t, 8)];
      EmitSeq(mul);
      Append(before, x.code + y.code, mul);
      ghost var acc := x.code + y.code + mul;
      ghost var z := Save(State(), 0);
      EmitRuntimeCall([Mov(0, t, 8), Bl("malloc")]);
      Append(before, acc, z.code + [Mov(0, t, 8), Bl("malloc")]);
      Append(acc, z.code, [Mov(0, t, 8), Bl("malloc")]);
      acc := acc + z.code + [Mov(0, t, 8), Bl("malloc")];
      ghost var w := TakeResult(State(), dst, 8);
      TakeX0(dst, 8);
      Append(before, acc, w.code);
    }

    method TakeX0(dst: int, size: nat)
      requires dst >= 0
      modifies this
      ensures Did(TakeResult(old(State()), dst, size), old(Sink()), old(Elsewhere()))
    {
      hide Held, LoadTo, StoreTo;
      ghost var c, before := State(), Sink();
      var t := LoadToReg(R(dst), size);
      Emit(Mov(t, 0, size));
      StoreToOperand(R(dst), t, size);
      assert Sink() == before + TakeResult(c, dst, size).code;
    }

    method HandleFree(ptr: Opnd)
      requires Ok(ptr)
      modifies this
      ensures Did(EmitFree(old(State()), ptr), old(Sink()), old(Elsewhere()))
    {
      hide Held, LoadTo, StoreTo, Save;
      ghost var before, x := Sink(), LoadTo(State(), ptr, 8);
      var p := LoadToReg(ptr, 8);
      ghost var y := Save(State(), 0);
      var call := [Mov(0, p, 8), Bl("free"), Const(p, 0)];
      EmitRuntimeCall(call);
      Append(before, x.code, y.code + call);
      Append(x.code, y.code, call);
      ghost var z := StoreTo(State(), ptr, p, 8);
      StoreToOperand(ptr, p, 8);
      Append(before, x.code + y.code + call, z.code);
    }

    // The call group

    /** The call being prepared, with nothing else changed. */
    ghost predicate Preparing(c: Ctx, outer: seq<CallContext>, text: seq<Asm>, top: CallContext)
      reads this
    {
      State() == c && calls == outer + [top] && asm == text
    }

    method BeginCallPrep()
      modifies this
      ensures Preparing(old(State()), old(calls), old(asm), CallContext([], 0, false, 0))
    {
      calls := calls + [CallContext([], 0, false, 0)];
    }

    method SetHiddenArg(op: Opnd)
      requires Ok(op) && calls != []
      requires calls[|calls| - 1].argsPassed == 0 && !calls[|calls| - 1].hasHidden
      modifies this
      ensures var o := EmitArg(old(State()), 0, Arg(op, 8));
        var top := old(calls[|calls| - 1]);
        Preparing(o.ctx, old(calls[..|calls| - 1]), old(asm), top.(argInstrs := top.argInstrs + o.code, hasHidden := true))
    {
      hide Held, LoadTo;
      ghost var c, before := State(), calls;
      var src := LoadToReg(op, 8);
      Emit(Mov(0, src, 8));
      var n := |calls| - 1;
      Tops(before, calls);
      Append(before[n].argInstrs, LoadTo(c, op, 8).code, [Mov(0, src, 8)]);
      calls := calls[n := calls[n].(hasHidden := true)];
      assert calls == before[..n] + [calls[n]];
    }

    method PushArg(a: Arg)
      requires Ok(a.op) && calls != []
      requires var t := calls[|calls| - 1]; t.stackArgsSize == StackArgs(Passed(t))
      modifies this
      ensures var top := old(calls[|calls| - 1]);
        var o := EmitArg(old(State()), Passed(top), a);
        Preparing(o.ctx, old(calls[..|calls| - 1]), old(asm),
                  top.(argInstrs := top.argInstrs + o.code, argsPassed := top.argsPassed + 1, stackArgsSize := StackArgs(Passed(top) + 1)))
    {
      hide Held, LoadTo;
      ghost var c, before := State(), calls;
      var n := |calls| - 1;
      var index := calls[n].argsPassed + (if calls[n].hasHidden then 1 else 0);
      var size := calls[n].stackArgsSize;
      var src := LoadToReg(a.op, a.size);
      if index < 8 {
        Emit(Mov(index, src, a.size));
      } else {
        Emit(StrSp(src, size));
        size := size + 8;
      }
      Tops(before, calls);
      Append(before[n].argInstrs, LoadTo(c, a.op, a.size).code, if index < 8 then [Mov(index, src, a.size)] else [StrSp(src, 8 * (index - 8))]);
      calls := calls[n := calls[n].(argsPassed := calls[n].argsPassed + 1, stackArgsSize := size)];
      assert calls == before[..n] + [calls[n]];
    }

    method LCall(result: Option<int>, target: Target, size: nat)
      requires calls != [] && (result.Some? ==> result.value >= 0) && (target.Value? ==> Ok(target.op))
      requires var t := calls[|calls| - 1]; t.stackArgsSize == StackArgs(Passed(t))
      modifies this
      ensures var top := old(calls[|calls| - 1]);
        State() == FinishCall(old(State()), top.argInstrs, Passed(top), target, result, size).ctx
        && (|old(calls)| == 1 ==> calls == [] && asm == old(asm) + FinishCall(old(State()), top.argInstrs, Passed(top), target, result, size).code)
    {
      hide Held, EmitTarget, Save, TakeResult;
      ghost var before := calls;
      SaveCallerSavedRegs();
      var n := |calls| - 1;
      Tops(before, calls);
      var top := calls[n];
      calls := calls[..n];
      var total := top.stackArgsSize + (if top.stackArgsSize % 16 != 0 then 8 else 0);
      ghost var from, acc := Sink(), CallCode(State(), total, top.argInstrs, target).code;
      CallWithStack(total, top.argInstrs, target);
      if result.Some? {
        ghost var r := TakeResult(State(), result.value, size);
        TakeX0(result.value, size);
        Append(from, acc, r.code);
      } else {
        assert acc + [] == acc;
      }
    }

    method CallWithStack(total: nat, prepared: seq<Asm>, target: Target)
      requires target.Value? ==> Ok(target.op)
      modifies this
      ensures Did(CallCode(old(State()), total, prepared, target), old(Sink()), old(Elsewhere()))
    {
      hide Held, EmitTarget;
      ghost var from := Sink();
      var down, up := if total > 0 then [SubSp(total)] else [], if total > 0 then [AddSp(total)] else [];
      EmitSeq(down);
      EmitSeq(prepared);
      Append(from, down, prepared);
      ghost var t := EmitTarget(State(), target);
      Branch(target);
      Append(from, down + prepared, t.code);
      EmitSeq(up);
      Append(from, down + prepared + t.code, up);
    }

    method Branch(target: Target)
      requires target.Value? ==> Ok(target.op)
      modifies this
      ensures Did(EmitTarget(old(State()), target), old(Sink()), old(Elsewhere()))
    {
      hide Held, LoadTo;
      ghost var before := Sink();
      match target {
        case Name(f) => Emit(Bl(f));
        case Value(op) =>
          ghost var s := LoadTo(State(), op, 8);
          var ptr := LoadToReg(op, 8);
          Emit(Blr(ptr));
          Append(before, s.code, [Blr(ptr)]);
      }
    }

    /** The four kinds of call instruction, in the order the lowering emits them. */
    method HandleCallGroup(i: Ins)
      requires i.Call? && InsOk(i) && calls == []
      modifies this
      ensures calls == [] && Did(EmitCall(old(State()), i), old(Sink()), old(Elsewhere()))
    {
      hide Held, EmitArg, EmitArgs, EmitCall, FinishCall;
      ghost var c, text, done: seq<Arg> := State(), asm, [];
      BeginCallPrep();
      EmitArgsNone(c);
      if i.hidden.Some? {
        EmitArgsSnoc(c, 0, done, Arg(i.hidden.value, 8));
        assert calls[..0] == [] && |calls| == 1;
        SetHiddenArg(i.hidden.value);
        assert done + [Arg(i.hidden.value, 8)] == [Arg(i.hidden.value, 8)];
        done := [Arg(i.hidden.value, 8)];
      }
      for k := 0 to |i.args|
        invariant done == AllArgs(i.hidden, i.args[..k])
        invariant var a := EmitArgs(c, 0, done);
          Preparing(a.ctx, [], text, CallContext(a.code, k, i.hidden.Some?, StackArgs(|done|)))
      {
        EmitArgsSnoc(c, 0, done, i.args[k]);
        PushArg(i.args[k]);
        done := done + [i.args[k]];
        assert i.args[..k + 1] == i.args[..k] + [i.args[k]];
      }
      assert i.args[..|i.args|] == i.args;
      BufferedCall(c, i);
      LCall(i.result, i.target, i.size);
    }

    method Handle(i: Ins)
      requires InsOk(i) && calls == []
      modifies this
      ensures calls == [] && Did(Backend.Emit(old(State()), i), old(Sink()), old(Elsewhere()))
    {
      hide Held, EmitAssign, EmitBin, EmitMod, EmitNeg, EmitNot, EmitCmp, EmitLoad, EmitStore, EmitAddrOf, EmitCall, EmitMemCall,
        EmitAlloc, EmitAllocArray, EmitFree;
      match i {
        case Assign(to, from, size) => HandleAssign(to, from, size);
        case Bin(op, dst, lhs, rhs, size) => HandlePrimBinop(op, dst, lhs, rhs, size);
        case Mod(dst, lhs, rhs, size) => HandleMod(dst, lhs, rhs, size);
        case Neg(dst, from, size) => HandleNeg(dst, from, size);
        case Not(dst, from, size) => HandleLogicalNot(dst, from, size);
        case Cmp(cond, dst, lhs, rhs, size) => HandleCmp(cond, dst, lhs, rhs, size);
        case Load(dst, addr, size) => HandleLoad(dst, addr, size);
        case Store(addr, from, size) => HandleStore(addr, from, size);
        case AddrOf(dst, v) => HandleAddrOf(dst, v);
        case Call(_, _, _, _, _) => HandleCallGroup(i);
        case MemCall(f, addr, from, fromSize, bytes) => HandleMemCall(f, addr, from, fromSize, bytes);
        case Alloc(dst, bytes, init) => HandleAlloc(dst, bytes, init);
        case AllocArray(dst, bytes, count, size) => HandleAllocArray(dst, bytes, count, size);
        case Free(ptr) => HandleFree(ptr);
      }
    }

    /** A label-free run of instructions; the frame to reserve is known only at its end. */
    method Generate(prog: seq<Ins>) returns (frame: nat)
      requires calls == [] && forall k :: 0 <= k < |prog| ==> InsOk(prog[k])
      modifies this
      ensures calls == [] && Did(EmitAll(old(State()), prog), old(asm), old(Elsewhere()))
      ensures frame == FrameSize(State())
    {
      hide Held, Backend.Emit, EmitAll;
      ghost var c, before, acc: seq<Asm> := State(), asm, [];
      EmitAllNone(State());
      assert prog[0..] == prog;
      for k := 0 to |prog|
        invariant calls == [] && asm == before + acc
        invariant EmitAll(c, prog).ctx == EmitAll(State(), prog[k..]).ctx
        invariant EmitAll(c, prog).code == acc + EmitAll(State(), prog[k..]).code
      {
        ghost var st := State();
        assert prog[k..] == [prog[k]] + prog[k + 1..];
        EmitAllStep(st, prog[k..]);
        assert prog[k..][1..] == prog[k + 1..];
        Handle(prog[k]);
        ghost var e := Backend.Emit(st, prog[k]).code;
        Append(before, acc, e);
        Append(acc, e, EmitAll(State(), prog[k + 1..]).code);
        acc := acc + e;
      }
      assert prog[|prog|..] == [];
      EmitAllNone(State());
      assert acc + [] == acc;
      frame := RoundUp(stackOffset, 16);
    }
  }
}
