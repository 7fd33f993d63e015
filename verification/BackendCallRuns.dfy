/** Each instruction handler that calls simulates its instruction. */
module BackendCallRuns {
  import opened Options
  import opened Ir
  import opened A64
  import opened Backend
  import opened BackendSpec
  import opened BackendAlloc
  import opened BackendLoads
  import opened BackendHandlers
  import opened BackendCalls
  import opened Arith

  ghost predicate ArgumentsAre(m: Cpu, vs: seq<Word>) {
    forall j: nat :: j < |vs| ==> Argument(m, j) == vs[j]
  }

  lemma ArgumentsSeq(m: Cpu, vs: seq<Word>)
    requires ArgumentsAre(m, vs)
    ensures Arguments(m, |vs|) == vs
  {
    hide Argument;
  }

  lemma StillArguments(l: Layout, h: Host, m: Cpu, m': Cpu, vs: seq<Word>)
    requires ArgumentsAre(m, vs) && Still(l, m, m') && (|vs| > 8 ==> Room(l, h, m, |vs|)) && 0 <= l.used
    ensures ArgumentsAre(m', vs)
  {
    hide Read;
    forall j: nat | j < |vs|
      ensures Argument(m', j) == vs[j]
    {
      assert Argument(m, j) == vs[j];
      if j >= 8 {
        ReadSame(m.mem, m'.mem, m.sp + 8 * (j - 8), 8);
      }
    }
  }

  lemma PassesArguments(l: Layout, h: Host, c: Ctx, n: nat, m: Cpu, d: Ctx, m': Cpu, vs: seq<Word>)
    requires ArgumentsAre(m, vs) && Passes(l, c, n, 16, m, d, m') && (|vs| > 8 ==> Room(l, h, m, |vs|)) && 0 <= l.used
    ensures ArgumentsAre(m', vs)
  {
    forall j: nat | j < |vs|
      ensures Argument(m', j) == vs[j]
    {
      ArgumentStays(l, h, c, n, m, d, m', j);
    }
  }

  /** Loading an operand brings at most that operand's own IR register into a register. */
  lemma LoadToHome(c: Ctx, op: Opnd, size: nat, o: Out)
    requires Steady(c) && o == LoadTo(c, op, size) && NothingHeld(c)
    ensures forall i :: i in o.ctx.home ==> op.R? && i == op.id
  {
  }

  ghost predicate NoneKnown(c: Ctx, a: Abs) {
    forall i :: i in c.home ==> i !in a.regs
  }

  lemma NoneKnownWhenEmpty(c: Ctx, a: Abs)
    requires NothingHeld(c)
    ensures NoneKnown(c, a)
  {
  }

  /** A direct call in a state that is ready for it. */
  lemma BlRuns(l: Layout, h: Host, c: Ctx, code: seq<Asm>, f: string, vs: seq<Word>, m: Cpu, m1: Cpu, a: Abs) returns (m': Cpu)
    requires Goes(h, code, m, m1) && Rel(l, h, c, m1, a) && NoneKnown(c, a)
    requires ArgumentsAre(m1, vs) && h.arity(Direct(f)) == |vs| && m1.sp <= StackTop(l) && m1.sp % 16 == 0
    ensures Goes(h, code + [Bl(f)], m, m') && Rel(l, h, c, m', AfterCall(h, a, Direct(f), vs)) && m'.sp == m1.sp
    ensures m'.x[0] == AnswerOf(h, a, Direct(f), vs).0
  {
    hide Goes, Rel, StackTop, AfterCall, AnswerOf, TryCall, ArgumentsAre;
    ArgumentsSeq(m1, vs);
    m' := GoesStep(h, code, Bl(f), m, m1);
    CallRel(l, h, c, m1, a, Direct(f), vs);
  }

  lemma StackTopAligned(l: Layout, h: Host, c: Ctx, m: Cpu, a: Abs)
    requires Rel(l, h, c, m, a)
    ensures StackTop(l) % 16 == 0
  {
    var n := RoundUp(l.used, 16);
    assert (l.fp - n) % 16 == 0;
  }

  // The call group

  /** The unlimited machine after a call through `target`. */
  ghost function Landed(h: Host, a: Abs, target: Target, callee: Callee, vs: seq<Word>): Abs {
    var b := AfterCall(h, a, callee, vs);
    var lost := if target.Value? && target.op.R? then {target.op.id} else {};
    b.(regs := b.regs - lost)
  }

  ghost function CalleeOf(l: Layout, h: Host, a: Abs, target: Target): Option<Callee> {
    if target.Name? then Some(Direct(target.func)) else ThroughVal(OpVal(l, h, a, target.op, 8))
  }

  lemma LandedDrop(h: Host, a: Abs, target: Target, callee: Callee, vs: seq<Word>)
    requires target.Value?
    ensures var lost := if target.op.R? then {target.op.id} else {};
      && Landed(h, a, target, callee, vs) == AfterCall(h, a.(regs := a.regs - lost), callee, vs)
      && AnswerOf(h, a, callee, vs) == AnswerOf(h, a.(regs := a.regs - lost), callee, vs)
  {
  }

  lemma BlrRuns(l: Layout, h: Host, c: Ctx, code: seq<Asm>, r: XReg, vs: seq<Word>, m: Cpu, m1: Cpu, a: Abs) returns (m': Cpu)
    requires Goes(h, code, m, m1) && Rel(l, h, c, m1, a) && NoneKnown(c, a)
    requires ArgumentsAre(m1, vs) && h.arity(Through(m1.x[r])) == |vs| && m1.sp <= StackTop(l) && m1.sp % 16 == 0
    ensures Goes(h, code + [Blr(r)], m, m') && Rel(l, h, c, m', AfterCall(h, a, Through(m1.x[r]), vs)) && m'.sp == m1.sp
    ensures m'.x[0] == AnswerOf(h, a, Through(m1.x[r]), vs).0
    ensures forall k :: 9 <= k <= 15 ==> m'.x[k] == h.junkReg(a.calls, k)
  {
    hide Goes, Rel, StackTop, AfterCall, AnswerOf, TryCall, ArgumentsAre;
    ArgumentsSeq(m1, vs);
    m' := GoesStep(h, code, Blr(r), m, m1);
    CallRel(l, h, c, m1, a, Through(m1.x[r]), vs);
    TemporariesLost(h, m1, Through(m1.x[r]));
    ViewsEqual(l, h, c, m1, a);
  }

  lemma TemporariesLost(h: Host, m: Cpu, callee: Callee)
    requires m.sp % 16 == 0
    ensures forall k :: 9 <= k <= 15 ==> TryCall(h, m, callee).x[k] == h.junkReg(m.calls, k)
  {
  }

  /** The IR register a call went through is back in a temporary, which the callee has overwritten. */
  ghost predicate TargetLost(h: Host, target: Target, a: Abs, d: Ctx, m': Cpu) {
    target.Value? && target.op.R? ==>
      target.op.id in d.home && m'.x[d.home[target.op.id]] == h.junkReg(a.calls, d.home[target.op.id])
  }

  lemma SteadyOf(l: Layout, h: Host, c: Ctx, m: Cpu, a: Abs)
    requires Rel(l, h, c, m, a)
    ensures Steady(c)
  {
  }

  lemma TargetRuns(l: Layout, h: Host, c: Ctx, target: Target, callee: Callee, vs: seq<Word>, m: Cpu, a: Abs, o: Out)
    returns (m': Cpu)
    requires Rel(l, h, c, m, a) && o == EmitTarget(c, target) && Within(o.ctx, l) && NothingHeld(c)
    requires CalleeOf(l, h, a, target) == Some(callee) && h.arity(callee) == |vs|
    requires ArgumentsAre(m, vs) && (|vs| > 8 ==> Room(l, h, m, |vs|)) && m.sp <= StackTop(l) && m.sp % 16 == 0
    ensures Goes(h, o.code, m, m') && Rel(l, h, o.ctx, m', Landed(h, a, target, callee, vs)) && m'.sp == m.sp
    ensures m'.x[0] == AnswerOf(h, a, callee, vs).0 && TargetLost(h, target, a, o.ctx, m')
  {
    hide Goes, Rel, Within, StackTop, AfterCall, AnswerOf, ArgumentsAre, NothingHeld, Steady, LoadTo, OpVal, Passes, Room, Readable;
    if target.Name? {
      GoesNowhere(h, m);
      NoneKnownWhenEmpty(c, a);
      m' := BlRuns(l, h, c, [], target.func, vs, m, m, a);
      assert AfterCall(h, a, callee, vs).regs - {} == AfterCall(h, a, callee, vs).regs;
      assert [] + [Bl(target.func)] == [Bl(target.func)];
    } else {
      var s := LoadTo(c, target.op, 8);
      ReadableValue(l, h, a, target.op, 8);
      var m1, n := LoadToRuns(l, h, c, target.op, 8, m, a, s);
      PassesCount(l, c, n, 16, m, s.ctx, m1);
      UsedNat(l, h, c, m, a);
      PassesArguments(l, h, c, n, m, s.ctx, m1, vs);
      SteadyOf(l, h, c, m, a);
      LoadToHome(c, target.op, 8, s);
      var lost := if target.op.R? then {target.op.id} else {};
      Drop(l, h, s.ctx, m1, a, lost);
      LandedDrop(h, a, target, callee, vs);
      hide Landed;
      m' := BlrRuns(l, h, s.ctx, s.code, s.reg, vs, m, m1, a.(regs := a.regs - lost));
    }
  }

  lemma AbsCallParts(l: Layout, h: Host, i: Ins, a: Abs, b: Abs) returns (vs: seq<Word>, callee: Callee)
    requires i.Call? && AbsStep(l, h, i, a) == Some(b)
    ensures ArgVals(l, h, a, 0, AllArgs(i.hidden, i.args)) == Some(vs) && CalleeOf(l, h, a, i.target) == Some(callee)
    ensures h.arity(callee) == |vs| && StackTop(l) - ArgBytes(|vs|) >= h.low
    ensures i.result.None? ==> b == Landed(h, a, i.target, callee, vs)
    ensures i.result.Some? ==>
      Define(Landed(h, a, i.target, callee, vs), i.result.value, Narrow(AnswerOf(h, a, callee, vs).0, i.size)) == Some(b)
  {
    hide OpVal, ArgVals, StackTop, AfterCall, AnswerOf, ArgBytes;
    vs := ArgVals(l, h, a, 0, AllArgs(i.hidden, i.args)).value;
    callee := CalleeOf(l, h, a, i.target).value;
  }

  lemma MoveSp(l: Layout, h: Host, c: Ctx, m: Cpu, a: Abs, bytes: nat, down: bool, i: Asm, code: seq<Asm>) returns (m': Cpu)
    requires Rel(l, h, c, m, a) && i == (if down then SubSp(bytes) else AddSp(bytes))
    requires code == if bytes > 0 then [i] else []
    ensures Goes(h, code, m, m') && Rel(l, h, c, m', a)
    ensures m' == m.(sp := if down then m.sp - bytes else m.sp + bytes)
  {
    hide Goes, Rel;
    m' := m.(sp := if down then m.sp - bytes else m.sp + bytes);
    FlagsRel(l, h, c, m, a, m.flags, m'.sp);
    if bytes > 0 {
      var m1 := GoesOne(h, i, m);
    } else {
      GoesNowhere(h, m);
    }
  }

  lemma {:induction false} CallRuns(l: Layout, h: Host, c: Ctx, i: Ins, m: Cpu, a: Abs, b: Abs, o: Out) returns (m': Cpu)
    requires i.Call? && Rel(l, h, c, m, a) && o == EmitCall(c, i) && Within(o.ctx, l) && m.sp == StackTop(l)
    requires AbsStep(l, h, i, a) == Some(b)
    ensures Goes(h, o.code, m, m') && Rel(l, h, o.ctx, m', b) && m'.sp == m.sp
    ensures i.result.None? ==> TargetLost(h, i.target, a, o.ctx, m')
  {
    hide Goes, Rel, Within, Extends, AbsStep, EmitArgs, Save, EmitTarget, TakeResult, ArgVals, CalleeOf, StackTop,
      AnswerOf, Landed, NothingHeld, Argument, Still;
    var vs, callee := AbsCallParts(l, h, i, a, b);
    var all := AllArgs(i.hidden, i.args);
    var bytes := ArgBytes(|all|);
    var s := EmitArgs(c, 0, all);
    var v := Save(s.ctx, 0);
    var t := EmitTarget(v.ctx, i.target);
    var r := if i.result.Some? then TakeResult(t.ctx, i.result.value, i.size) else Out(t.ctx, [], 0);
    var down := if bytes > 0 then [SubSp(bytes)] else [];
    var up := if bytes > 0 then [AddSp(bytes)] else [];
    EarlierSelf(t.ctx, r.ctx, l, i.result.None?);
    WithinEarlier(v.ctx, t.ctx, l);
    WithinEarlier(s.ctx, v.ctx, l);
    ArgValsLength(l, h, a, 0, all);
    StackTopAligned(l, h, c, m, a);
    UsedNat(l, h, c, m, a);
    var m0 := MoveSp(l, h, c, m, a, bytes, true, SubSp(bytes), down);
    var m1 := ArgsRun(l, h, c, 0, all, vs, m0, a, s);
    GoesOn(h, down, s.code, m, m0, m1);
    assert ArgumentsAre(m1, vs) by {
      forall j: nat | j < |vs|
        ensures Argument(m1, j) == vs[j]
      {
        assert Argument(m1, 0 + j) == vs[j];
      }
    }
    hide ArgumentsAre;
    var m2 := SaveAllRuns(l, h, s.ctx, m1, a, v);
    GoesOn(h, down + s.code, v.code, m, m1, m2);
    StillArguments(l, h, m1, m2, vs);
    StillSp(l, m1, m2);
    var m3 := TargetRuns(l, h, v.ctx, i.target, callee, vs, m2, a, t);
    GoesOn(h, down + s.code + v.code, t.code, m, m2, m3);
    var a3 := Landed(h, a, i.target, callee, vs);
    var m4 := MoveSp(l, h, t.ctx, m3, a3, bytes, false, AddSp(bytes), up);
    GoesOn(h, down + s.code + v.code + t.code, up, m, m3, m4);
    if i.result.Some? {
      m' := TakeResultRuns(l, h, t.ctx, i.result.value, i.size, m4, a3, b, r);
    } else {
      m' := m4;
      GoesNowhere(h, m4);
    }
    GoesOn(h, down + s.code + v.code + t.code + up, r.code, m, m4, m');
  }

  lemma EarlierSelf(c: Ctx, d: Ctx, l: Layout, same: bool)
    requires Within(d, l) && (same ==> c == d) && (!same ==> Extends(c, d))
    ensures Within(c, l)
  {
  }

  lemma StillSp(l: Layout, m: Cpu, m': Cpu)
    requires Still(l, m, m')
    ensures m'.sp == m.sp && m'.fp == m.fp && forall k :: 0 <= k < 31 && k != 16 ==> m'.x[k] == m.x[k]
  {
  }

  lemma {:induction false} ArgValsLength(l: Layout, h: Host, a: Abs, k: nat, args: seq<Arg>)
    ensures ArgVals(l, h, a, k, args).Some? ==> |ArgVals(l, h, a, k, args).value| == |args|
    decreases |args|
  {
    hide OpVal, Passed;
    if args != [] {
      ArgValsLength(l, h, a, k + 1, args[1..]);
    }
  }
}
