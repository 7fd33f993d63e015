/** Calls: saving, argument placement, the callee's effect, results. */
module BackendCalls {
  import opened Options
  import opened Ir
  import opened A64
  import opened Backend
  import opened BackendSpec
  import opened BackendAlloc
  import opened BackendLoads
  import opened BackendHandlers
  import opened Arith

  /** Only x16 and the frame may differ. */
  ghost predicate Still(l: Layout, m: Cpu, m': Cpu) {
    && m'.fp == m.fp && m'.sp == m.sp && m'.calls == m.calls
    && (forall k :: 0 <= k < 31 && k != 16 ==> m'.x[k] == m.x[k])
    && (forall y :: y < l.fp - l.used || y >= l.fp ==> m'.mem(y) == m.mem(y))
  }

  lemma StillTrans(l: Layout, m: Cpu, m1: Cpu, m2: Cpu)
    requires Still(l, m, m1) && Still(l, m1, m2)
    ensures Still(l, m, m2)
  {
  }

  // Saving

  /** Every temporary is given up; nothing else moves. */
  lemma {:induction false} SaveRuns(l: Layout, h: Host, c: Ctx, r: nat, m: Cpu, a: Abs, o: Out) returns (m': Cpu)
    requires r <= 16 && Rel(l, h, c, m, a) && o == Save(c, r) && Within(o.ctx, l)
    ensures Goes(h, o.code, m, m') && Rel(l, h, o.ctx, m', a) && Still(l, m, m') && o.ctx.count == c.count
    ensures forall k: XReg :: k in o.ctx.holds ==> k in c.holds && !(r <= k < 16)
    decreases 16 - r
  {
    if r == 16 {
      m' := m;
      GoesNowhere(h, m);
    } else {
      var s := Spill(c, r);
      assert forall k: XReg :: k in s.ctx.holds ==> k in c.holds && k != r;
      assert s.ctx.count == c.count;
      var rest := Save(s.ctx, r + 1);
      hide Goes, Rel, Within, Extends, Spill;
      WithinEarlier(s.ctx, rest.ctx, l);
      var m1 := SpillRuns(l, h, c, r, m, a, s);
      m' := SaveRuns(l, h, s.ctx, r + 1, m1, a, rest);
      StillTrans(l, m, m1, m');
      GoesOn(h, s.code, rest.code, m, m1, m');
    }
  }

  ghost predicate NothingHeld(c: Ctx) {
    forall i :: i !in c.home
  }

  lemma SaveAllRuns(l: Layout, h: Host, c: Ctx, m: Cpu, a: Abs, o: Out) returns (m': Cpu)
    requires Rel(l, h, c, m, a) && o == Save(c, 0) && Within(o.ctx, l)
    ensures Goes(h, o.code, m, m') && Rel(l, h, o.ctx, m', a) && Still(l, m, m') && o.ctx.count == c.count
    ensures NothingHeld(o.ctx) && forall k: XReg :: k !in o.ctx.holds
  {
    hide Goes, Within, Save, Follows, Sound;
    m' := SaveRuns(l, h, c, 0, m, a, o);
    Temporaries(l, h, o.ctx, m', a);
  }

  // The call

  lemma ViewSame(h: Host, m1: Mem, m2: Mem)
    requires forall y :: y in h.public ==> m1(y) == m2(y)
    ensures PublicView(h, m1) == PublicView(h, m2)
  {
    var p, q := PublicView(h, m1), PublicView(h, m2);
    assert p.Keys == q.Keys;
    assert forall y :: y in p ==> p[y] == q[y];
  }

  lemma ViewsEqual(l: Layout, h: Host, c: Ctx, m: Cpu, a: Abs)
    requires Rel(l, h, c, m, a)
    ensures PublicView(h, m.mem) == PublicView(h, a.mem) && m.calls == a.calls
  {
    hide A64.Load, PublicView, Sound, Steady, Within;
    ViewSame(h, m.mem, a.mem);
  }

  /** What a call does to memory: the callee's view, and anything below the stack pointer. */
  lemma CallMemory(l: Layout, h: Host, m: Cpu, a: Abs, callee: Callee, args: seq<Word>, y: int)
    requires Sound(l, h) && m.sp <= StackTop(l) && Arguments(m, h.arity(callee)) == args && m.calls == a.calls
    requires PublicView(h, m.mem) == PublicView(h, a.mem) && (y in h.public ==> m.mem(y) == a.mem(y))
    ensures y in h.public ==> DoCall(h, m, callee).mem(y) == AfterCall(h, a, callee, args).mem(y)
    ensures y !in h.public && y >= StackTop(l) ==> DoCall(h, m, callee).mem(y) == m.mem(y)
  {
    hide Arguments, PublicView, Clobber;
  }

  lemma CallRegisters(l: Layout, h: Host, m: Cpu, a: Abs, callee: Callee, args: seq<Word>)
    requires Arguments(m, h.arity(callee)) == args && m.calls == a.calls && m.sp % 16 == 0
    requires PublicView(h, m.mem) == PublicView(h, a.mem)
    ensures var m' := TryCall(h, m, callee);
      && m' == DoCall(h, m, callee) && m'.x[0] == AnswerOf(h, a, callee, args).0
      && m'.sp == m.sp && m'.fp == m.fp && m'.calls == AfterCall(h, a, callee, args).calls
    ensures AfterCall(h, a, callee, args).regs == a.regs && AfterCall(h, a, callee, args).seen == a.seen
  {
    hide Arguments, PublicView, Overlay;
  }

  /** No IR register the unlimited machine knows is in a register: a call preserves the relation. */
  lemma CallRel(l: Layout, h: Host, c: Ctx, m: Cpu, a: Abs, callee: Callee, args: seq<Word>)
    requires Rel(l, h, c, m, a) && (forall i :: i in c.home ==> i !in a.regs)
    requires Arguments(m, h.arity(callee)) == args && m.sp <= StackTop(l) && m.sp % 16 == 0
    ensures var m' := TryCall(h, m, callee);
      && Rel(l, h, c, m', AfterCall(h, a, callee, args)) && m'.x[0] == AnswerOf(h, a, callee, args).0
      && m'.sp == m.sp && m'.fp == m.fp
  {
    hide Arguments, PublicView, TryCall, DoCall, Overlay, StackTop, A64.Load, AfterCall, AnswerOf, Sound, Steady, Within;
    ViewsEqual(l, h, c, m, a);
    CallRegisters(l, h, m, a, callee, args);
    var m' := TryCall(h, m, callee);
    var b := AfterCall(h, a, callee, args);
    forall y
      ensures y in h.public ==> m'.mem(y) == b.mem(y)
      ensures y !in h.public && y >= StackTop(l) ==> m'.mem(y) == m.mem(y)
    {
      CallMemory(l, h, m, a, callee, args, y);
    }
    forall i | i in c.spilled
      ensures A64.Load(m'.mem, l.fp - c.spilled[i], 8) == A64.Load(m.mem, l.fp - c.spilled[i], 8)
    {
      SpilledSame(l, h, c, m.mem, m'.mem, i);
    }
    assert Follows(l, h, c, m', b);
  }

  lemma SpilledSame(l: Layout, h: Host, c: Ctx, mem: Mem, mem': Mem, i: int)
    requires Steady(c) && Within(c, l) && Sound(l, h) && i in c.spilled
    requires forall y :: y !in h.public && y >= StackTop(l) ==> mem'(y) == mem(y)
    ensures A64.Load(mem', l.fp - c.spilled[i], 8) == A64.Load(mem, l.fp - c.spilled[i], 8)
  {
    SpillIsPrivate(l, h, c, i);
    StackBelow(l, h, c, i);
    ReadSame(mem', mem, l.fp - c.spilled[i], 8);
  }

  lemma StackBelow(l: Layout, h: Host, c: Ctx, i: int)
    requires Steady(c) && Within(c, l) && i in c.spilled
    ensures StackTop(l) <= l.fp - l.used <= l.fp - c.spilled[i]
  {
  }

  /** x0 moves to the result register. */
  lemma TakeResultRuns(l: Layout, h: Host, c: Ctx, dst: int, size: nat, m: Cpu, a: Abs, b: Abs, o: Out) returns (m': Cpu)
    requires Rel(l, h, c, m, a) && o == TakeResult(c, dst, size) && Within(o.ctx, l)
    requires Define(a, dst, Narrow(m.x[0], size)) == Some(b)
    ensures Goes(h, o.code, m, m') && Rel(l, h, o.ctx, m', b) && m'.sp == m.sp
  {
    hide Goes, Rel, Within, LoadTo, Extends, Passes, StoreTo;
    var t := LoadTo(c, R(dst), size);
    var d := StoreTo(t.ctx, R(dst), t.reg, size);
    WithinEarlier(t.ctx, d.ctx, l);
    var a1 := Seen(a, dst);
    Announce(l, h, c, m, a, dst);
    var m1, n := LoadToRuns(l, h, c, R(dst), size, m, a1, t);
    PassesCount(l, c, n, 16, m, t.ctx, m1);
    Stays(l, c, n, 16, m, t.ctx, m1, 0);
    var m2 := GoesStep(h, t.code, Mov(t.reg, 0, size), m, m1);
    SetFree(l, h, t.ctx, m1, a1, t.reg, Narrow(m.x[0], size));
    Survives(c.count, n, 1);
    SoonLess(t.ctx.count, RegTurns(t.ctx, dst), t.reg);
    m' := StoreRegRuns(l, h, t.ctx, dst, t.reg, size, m2, a1, d);
    GoesOn(h, t.code + [Mov(t.reg, 0, size)], d.code, m, m2, m');
  }

  // Arguments

  /** Stack cells for `n` arguments lie between `low` and the frame. */
  predicate Room(l: Layout, h: Host, m: Cpu, n: nat) {
    h.low <= m.sp && m.sp + 8 * (n - 8) <= StackTop(l)
  }

  /** Writing a cell below the frame changes no IR register and no public memory. */
  lemma CellRel(l: Layout, h: Host, c: Ctx, m: Cpu, a: Abs, p: int, v: Word)
    requires Rel(l, h, c, m, a) && h.low <= p && p + 8 <= StackTop(l)
    ensures Rel(l, h, c, m.(mem := A64.Write(m.mem, p, 8, v)), a)
  {
    hide Rel, Sound, Within, Steady, Read, ByteOf, StackTop;
    Parts(l, h, c, m, a);
    var mem := A64.Write(m.mem, p, 8, v);
    forall i | i in c.spilled
      ensures A64.Load(mem, l.fp - c.spilled[i], 8) == A64.Load(m.mem, l.fp - c.spilled[i], 8)
    {
      StackBelow(l, h, c, i);
      ReadSame(m.mem, mem, l.fp - c.spilled[i], 8);
    }
    StackPrivate(l, h);
    MemRel(l, h, c, m, a, mem, a.mem);
  }

  lemma StackPrivate(l: Layout, h: Host)
    requires Sound(l, h)
    ensures forall y :: h.low <= y < StackTop(l) ==> y !in h.public
  {
  }

  /** Loading a further operand leaves earlier arguments in place. */
  lemma ArgumentStays(l: Layout, h: Host, c: Ctx, n: nat, m: Cpu, d: Ctx, m': Cpu, j: nat)
    requires Passes(l, c, n, 16, m, d, m') && (j >= 8 ==> Room(l, h, m, j + 1)) && 0 <= l.used
    ensures Argument(m', j) == Argument(m, j)
  {
    hide Read, Kept;
    if j >= 8 {
      ReadSame(m.mem, m'.mem, m.sp + 8 * (j - 8), 8);
    }
  }

  lemma PlacedReg(m: Cpu, k: nat, v: Word, j: nat)
    requires j <= k < 8
    ensures Argument(Set(m, k, v), j) == if j == k then v else Argument(m, j)
  {
  }

  /** A cell written is that argument, and no earlier one. */
  lemma PlacedCell(m: Cpu, k: nat, v: Word, j: nat)
    requires j <= k && 8 <= k
    ensures Argument(m.(mem := A64.Write(m.mem, m.sp + 8 * (k - 8), 8, v)), j) == if j == k then v else Argument(m, j)
  {
    hide Read, ByteOf, Pow256;
    var p := m.sp + 8 * (k - 8);
    var mem := A64.Write(m.mem, p, 8, v);
    if j == k {
      Pow256Of8();
      ReadWritten(m.mem, p, 8, v);
    } else if j >= 8 {
      ReadSame(m.mem, mem, m.sp + 8 * (j - 8), 8);
    }
  }

  lemma ArgRuns(l: Layout, h: Host, c: Ctx, k: nat, arg: Arg, v: Word, m: Cpu, a: Abs, o: Out) returns (m': Cpu)
    requires Rel(l, h, c, m, a) && o == EmitArg(c, k, arg) && Within(o.ctx, l) && (k >= 8 ==> Room(l, h, m, k + 1))
    requires OpVal(l, h, a, arg.op, arg.size) == Some(v)
    ensures Goes(h, o.code, m, m') && Rel(l, h, o.ctx, m', a) && m'.sp == m.sp
    ensures Argument(m', k) == Passed(v, k, arg.size)
    ensures forall j: nat :: j < k ==> Argument(m', j) == Argument(m, j)
  {
    hide Goes, Rel, Within, LoadTo, Passes, Argument, OpVal, A64.Write, StackTop, Readable;
    ReadableValue(l, h, a, arg.op, arg.size);
    var s := LoadTo(c, arg.op, arg.size);
    var m1, n := LoadToRuns(l, h, c, arg.op, arg.size, m, a, s);
    PassesCount(l, c, n, 16, m, s.ctx, m1);
    UsedNat(l, h, c, m, a);
    forall j: nat | j < k
      ensures Argument(m1, j) == Argument(m, j)
    {
      ArgumentStays(l, h, c, n, m, s.ctx, m1, j);
    }
    if k < 8 {
      m' := GoesStep(h, s.code, Mov(k, s.reg, arg.size), m, m1);
      Temporaries(l, h, s.ctx, m1, a);
      SetFree(l, h, s.ctx, m1, a, k, Narrow(v, arg.size));
      forall j: nat | j <= k
        ensures Argument(m', j) == if j == k then Narrow(v, arg.size) else Argument(m1, j)
      {
        PlacedReg(m1, k, Narrow(v, arg.size), j);
      }
    } else {
      m' := GoesStep(h, s.code, StrSp(s.reg, 8 * (k - 8)), m, m1);
      CellRel(l, h, s.ctx, m1, a, m1.sp + 8 * (k - 8), v);
      forall j: nat | j <= k
        ensures Argument(m', j) == if j == k then v else Argument(m1, j)
      {
        PlacedCell(m1, k, v, j);
      }
    }
  }

  lemma UsedNat(l: Layout, h: Host, c: Ctx, m: Cpu, a: Abs)
    requires Rel(l, h, c, m, a)
    ensures 0 <= l.used <= l.fp < TWO64 && m.fp == l.fp && l.fp % 16 == 0
  {
  }

  /** Argument `k + j` is where a callee looks for it, for every `j`. */
  lemma {:induction false} ArgsRun(l: Layout, h: Host, c: Ctx, k: nat, args: seq<Arg>, vs: seq<Word>, m: Cpu, a: Abs, o: Out)
    returns (m': Cpu)
    requires Rel(l, h, c, m, a) && o == EmitArgs(c, k, args) && Within(o.ctx, l)
    requires k + |args| > 8 ==> Room(l, h, m, k + |args|)
    requires ArgVals(l, h, a, k, args) == Some(vs)
    ensures Goes(h, o.code, m, m') && Rel(l, h, o.ctx, m', a) && m'.sp == m.sp
    ensures |vs| == |args| && forall j: nat :: j < |vs| ==> Argument(m', k + j) == vs[j]
    ensures forall j: nat :: j < k ==> Argument(m', j) == Argument(m, j)
    decreases |args|
  {
    hide Goes, Rel, Within, EmitArg, Argument, OpVal, StackTop, Extends, Passed;
    if args == [] {
      m' := m;
      GoesNowhere(h, m);
    } else {
      var s := EmitArg(c, k, args[0]);
      var rest := EmitArgs(s.ctx, k + 1, args[1..]);
      WithinEarlier(s.ctx, rest.ctx, l);
      var v := OpVal(l, h, a, args[0].op, args[0].size).value;
      var m1 := ArgRuns(l, h, c, k, args[0], v, m, a, s);
      m' := ArgsRun(l, h, s.ctx, k + 1, args[1..], vs[1..], m1, a, rest);
      GoesOn(h, s.code, rest.code, m, m1, m');
      forall j: nat | j < |vs|
        ensures Argument(m', k + j) == vs[j]
      {
        if j > 0 {
          assert Argument(m', k + 1 + (j - 1)) == vs[1..][j - 1];
        }
      }
    }
  }
}
