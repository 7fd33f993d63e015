/** The callee's side of a call: parameters hold what the caller passed. */
module BackendParams {
  import opened Options
  import opened Ir
  import opened A64
  import opened Backend
  import opened BackendSpec
  import opened BackendAlloc
  import opened BackendLoads
  import opened BackendHandlers
  import opened BackendCalls
  import opened BackendCallRuns
  import opened BackendInvariant
  import opened Arith

  /** What the low `size` bytes of a passed word are when read back. */
  function Incoming(v: Word, k: nat, size: nat): Word
    requires Scalar(size)
  {
    Pow256Of8();
    if k < 8 then Narrow(v, size) else v % Pow256(size)
  }

  /** Incoming argument `k` as the callee addresses it: the frame pointer is 16 below the caller's stack pointer. */
  function ParamWord(m: Cpu, k: nat): Word {
    if k < 8 then m.x[k] else A64.Load(m.mem, m.fp + 16 + 8 * (k - 8), 8)
  }

  ghost predicate SlotsAre(m: Cpu, vs: seq<Word>) {
    forall k: nat :: k < |vs| ==> ParamWord(m, k) == vs[k]
  }

  /** One parameter move on the unlimited machine. */
  ghost function ParamStep(l: Layout, h: Host, a: Abs, p: Param, v: Word): Option<Abs> {
    match p.to
    case R(id) => Define(a, id, Narrow(v, p.size))
    case V(x) => (match AddrVal(l, x) case Some(q) => StoreMem(h, a, q, p.size, v) case None => None)
    case _ => None
  }

  ghost function ParamSteps(l: Layout, h: Host, a: Abs, k: nat, params: seq<Param>, vs: seq<Word>): Option<Abs>
    requires |params| == |vs|
    decreases |params|
  {
    if params == [] then Some(a)
    else if !Scalar(params[0].size) then None
    else
      match ParamStep(l, h, a, params[0], Incoming(vs[0], k, params[0].size))
      case None => None
      case Some(b) => ParamSteps(l, h, b, k + 1, params[1..], vs[1..])
  }

  /** Memory above the frame pointer and the argument registers. */
  ghost predicate Above(m: Cpu, m': Cpu) {
    && m'.fp == m.fp && m'.sp == m.sp
    && (forall r :: 0 <= r < 8 ==> m'.x[r] == m.x[r])
    && (forall y :: y >= m.fp ==> m'.mem(y) == m.mem(y))
  }

  lemma AboveSlots(m: Cpu, m': Cpu, vs: seq<Word>)
    requires Above(m, m') && SlotsAre(m, vs)
    ensures SlotsAre(m', vs)
  {
    hide Read;
    forall k: nat | k < |vs|
      ensures ParamWord(m', k) == vs[k]
    {
      if k >= 8 {
        ReadSame(m.mem, m'.mem, m.fp + 16 + 8 * (k - 8), 8);
      }
    }
  }

  lemma {:induction false} LoadLow(mem: Mem, a: int, n: nat, k: nat)
    requires k <= n
    ensures Read(mem, a, k) == Read(mem, a, n) % Pow256(k)
    decreases k
  {
    if k > 0 {
      LoadLow(mem, a + 1, n - 1, k - 1);
      DigitMod(mem(a), Read(mem, a + 1, n - 1), Pow256(k - 1));
    }
  }

  lemma SlotRuns(l: Layout, h: Host, c: Ctx, k: nat, dst: XReg, size: nat, m: Cpu, a: Abs, o: Out, v: Word) returns (m': Cpu, n: nat)
    requires Rel(l, h, c, m, a) && o == LoadSlot(c, k, dst, size) && Within(o.ctx, l) && Scalar(size)
    requires 9 <= dst <= 15 && dst !in c.holds && !Soon(c.count, 1, dst) && ParamWord(m, k) == v
    requires k >= 8 ==> m.fp + 16 + 8 * (k - 8) < TWO64
    ensures Goes(h, o.code, m, m') && Rel(l, h, o.ctx, m', a) && Passes(l, c, n, dst, m, o.ctx, m') && n <= 1
    ensures m'.x[dst] == Incoming(v, k, size)
  {
    hide Goes, Rel, Within, GetTemp, Passes, Read, Pow256, Quiet;
    if k < 8 {
      n := 0;
      m' := GoesOne(h, Mov(dst, k, size), m);
      SetFree(l, h, c, m, a, dst, Narrow(v, size));
      PassesNone(l, c, dst, m, Narrow(v, size));
    } else {
      n := 1;
      var off := 16 + 8 * (k - 8);
      var t := GetTemp(c);
      var m1 := GetTempRuns(l, h, c, m, a, t);
      PassesCount(l, c, 1, 16, m, t.ctx, m1);
      Stays(l, c, 1, 16, m, t.ctx, m1, dst);
      UsedNat(l, h, c, m, a);
      WrapSmall(off);
      WrapSmall(m.fp + off);
      var m2 := GoesStep(h, t.code, Const(t.reg, Wrap(off)), m, m1);
      SetFree(l, h, t.ctx, m1, a, t.reg, off);
      PassesSet(l, c, 1, 16, m, t.ctx, m1, t.reg, off);
      var m3 := GoesStep(h, t.code + [Const(t.reg, Wrap(off))], AddFp(t.reg, t.reg), m, m2);
      SetFree(l, h, t.ctx, m2, a, t.reg, m.fp + off);
      PassesSet(l, c, 1, 16, m, t.ctx, m2, t.reg, m.fp + off);
      var w := A64.Load(m3.mem, m.fp + off, size);
      m' := GoesStep(h, t.code + [Const(t.reg, Wrap(off))] + [AddFp(t.reg, t.reg)], Ldr(dst, t.reg, size), m, m3);
      SetFree(l, h, t.ctx, m3, a, dst, w);
      PassesWiden(l, c, 1, m, t.ctx, m3, dst);
      PassesSet(l, c, 1, dst, m, t.ctx, m3, dst, w);
      AboveSame(l, c, 1, m, t.ctx, m1, m.fp + off, 8);
      LoadLow(m1.mem, m.fp + off, 8, size);
      assert t.code + [Const(t.reg, Wrap(off))] + [AddFp(t.reg, t.reg)] + [Ldr(dst, t.reg, size)] == o.code;
    }
  }

  lemma {:induction false} AboveSame(l: Layout, c: Ctx, n: nat, m: Cpu, d: Ctx, m': Cpu, p: int, k: nat)
    requires Passes(l, c, n, 16, m, d, m') && m.fp == l.fp <= p
    ensures Read(m'.mem, p, k) == Read(m.mem, p, k)
  {
    ReadSame(m.mem, m'.mem, p, k);
  }

  lemma ParamRuns(l: Layout, h: Host, c: Ctx, k: nat, p: Param, m: Cpu, a: Abs, b: Abs, o: Out, vs: seq<Word>) returns (m': Cpu)
    requires Rel(l, h, c, m, a) && o == EmitParam(c, k, p) && Within(o.ctx, l) && Scalar(p.size)
    requires k < |vs| && SlotsAre(m, vs) && (k >= 8 ==> m.fp + 16 + 8 * (k - 8) < TWO64)
    requires ParamStep(l, h, a, p, Incoming(vs[k], k, p.size)) == Some(b)
    requires p.to.V? ==> InFrame(l, p)
    ensures Goes(h, o.code, m, m') && Rel(l, h, o.ctx, m', b) && Above(m, m')
  {
    hide Goes, Rel, Within, Extends, GetTemp, LoadSlot, StoreTo, Passes, ParamWord, Incoming, StoreMem, Above;
    var t := GetTemp(c);
    var s := LoadSlot(t.ctx, k, t.reg, p.size);
    var d := StoreTo(s.ctx, p.to, t.reg, p.size);
    WithinEarlier(s.ctx, d.ctx, l);
    WithinEarlier(t.ctx, s.ctx, l);
    UsedNat(l, h, c, m, a);
    var m1 := GetTempRuns(l, h, c, m, a, t);
    PassesCount(l, c, 1, 16, m, t.ctx, m1);
    PassesAbove(l, c, 1, 16, m, t.ctx, m1);
    AboveSlots(m, m1, vs);
    Survives(c.count, 1, 1);
    var m2, n := SlotRuns(l, h, t.ctx, k, t.reg, p.size, m1, a, s, vs[k]);
    PassesCount(l, t.ctx, n, t.reg, m1, s.ctx, m2);
    PassesAbove(l, t.ctx, n, t.reg, m1, s.ctx, m2);
    AboveTrans(m, m1, m2);
    LaterLater(c.count, 1, n);
    Survives(c.count, 1 + n, 1);
    GoesOn(h, t.code, s.code, m, m1, m2);
    match p.to {
      case R(id) =>
        Announce(l, h, s.ctx, m2, a, id);
        SoonLess(s.ctx.count, RegTurns(s.ctx, id), t.reg);
        m' := StoreRegAbove(l, h, s.ctx, id, t.reg, p.size, m2, Seen(a, id), d);
      case V(x) =>
        m' := StoreVarAbove(l, h, s.ctx, x, t.reg, p.size, m2, a, b, d, AddrVal(l, x).value);
    }
    AboveTrans(m, m2, m');
    GoesOn(h, t.code + s.code, d.code, m, m2, m');
  }

  /** A parameter's slot is below the frame pointer and as large as the parameter. */
  predicate InFrame(l: Layout, p: Param)
    requires p.to.V?
  {
    var x := p.to.local;
    x.name in l.vars && p.size <= l.vars[x.name] && FrameSlot(l.vars[x.name], p.size, false) in l.slots
  }

  lemma PassesAbove(l: Layout, c: Ctx, n: nat, dst: int, m: Cpu, d: Ctx, m': Cpu)
    requires Passes(l, c, n, dst, m, d, m') && m.fp == l.fp && dst >= 9
    ensures Above(m, m')
  {
  }

  lemma AboveTrans(m: Cpu, m1: Cpu, m2: Cpu)
    requires Above(m, m1) && Above(m1, m2)
    ensures Above(m, m2)
  {
  }

  lemma StoreRegAbove(l: Layout, h: Host, c: Ctx, id: int, src: XReg, size: nat, m: Cpu, a: Abs, o: Out) returns (m': Cpu)
    requires Rel(l, h, c, m, a) && o == StoreTo(c, R(id), src, size) && Within(o.ctx, l) && id in a.seen
    requires src != 16 && !Soon(c.count, RegTurns(c, id), src)
    ensures Goes(h, o.code, m, m') && Above(m, m')
    ensures Rel(l, h, o.ctx, m', a.(regs := a.regs[id := Narrow(m.x[src], size)]))
  {
    hide Goes, Rel, Within, Passes, GetReg;
    var d := GetReg(c, id);
    UsedNat(l, h, c, m, a);
    var m1 := GetRegRuns(l, h, c, id, m, a, d);
    Stays(l, c, RegTurns(c, id), 16, m, d.ctx, m1, src);
    PassesAbove(l, c, RegTurns(c, id), 16, m, d.ctx, m1);
    m' := GoesStep(h, d.code, Mov(d.reg, src, size), m, m1);
    SetHome(l, h, d.ctx, m1, a, id, Narrow(m.x[src], size));
  }

  lemma StoreVarAbove(l: Layout, h: Host, c: Ctx, v: Local, src: XReg, size: nat, m: Cpu, a: Abs, b: Abs, o: Out, p: int)
    returns (m': Cpu)
    requires Rel(l, h, c, m, a) && o == StoreTo(c, V(v), src, size) && Within(o.ctx, l)
    requires src != 16 && !Soon(c.count, 1, src) && p + size <= l.fp
    requires AddrVal(l, v) == Some(p) && StoreMem(h, a, p, size, m.x[src]) == Some(b)
    ensures Goes(h, o.code, m, m') && Above(m, m')
    ensures Rel(l, h, o.ctx, m', b)
  {
    hide Goes, Rel, Within, Passes, VarAddr, AllPublic, ByteOf;
    var d := VarAddr(c, v);
    UsedNat(l, h, c, m, a);
    var m1 := VarAddrRuns(l, h, c, v, m, a, d);
    Stays(l, c, 1, 16, m, d.ctx, m1, src);
    PassesAbove(l, c, 1, 16, m, d.ctx, m1);
    m' := GoesStep(h, d.code, Str(src, d.reg, size), m, m1);
    StorePublic(l, h, d.ctx, m1, a, p, size, m.x[src]);
  }

  /** All parameters in turn, starting with argument `k`. */
  lemma {:induction false} ParamsRun(l: Layout, h: Host, c: Ctx, k: nat, params: seq<Param>, m: Cpu, a: Abs, b: Abs, o: Out,
                                     vs: seq<Word>) returns (m': Cpu)
    requires Rel(l, h, c, m, a) && o == EmitParams(c, k, params) && Within(o.ctx, l)
    requires k + |params| == |vs| && SlotsAre(m, vs) && (|vs| > 8 ==> m.fp + 8 * (|vs| - 7) < TWO64)
    requires ParamSteps(l, h, a, k, params, vs[k..]) == Some(b)
    requires forall p :: p in params && p.to.V? ==> InFrame(l, p)
    ensures Goes(h, o.code, m, m') && Rel(l, h, o.ctx, m', b) && Above(m, m')
    decreases |params|
  {
    hide Goes, Rel, Within, Extends, EmitParam, SlotsAre, Above, ParamStep, Incoming, InFrame;
    if params == [] {
      m' := m;
      GoesNowhere(h, m);
      AboveSelf(m);
    } else {
      var s := EmitParam(c, k, params[0]);
      var rest := EmitParams(s.ctx, k + 1, params[1..]);
      WithinEarlier(s.ctx, rest.ctx, l);
      var b1 := ParamStep(l, h, a, params[0], Incoming(vs[k..][0], k, params[0].size)).value;
      var m1 := ParamRuns(l, h, c, k, params[0], m, a, b1, s, vs);
      AboveSlots(m, m1, vs);
      AboveFp(m, m1);
      assert vs[k..][1..] == vs[k + 1..];
      m' := ParamsRun(l, h, s.ctx, k + 1, params[1..], m1, b1, b, rest, vs);
      AboveTrans(m, m1, m');
      GoesOn(h, s.code, rest.code, m, m1, m');
    }
  }

  lemma AboveSelf(m: Cpu)
    ensures Above(m, m)
  {
  }

  lemma AboveFp(m: Cpu, m': Cpu)
    requires Above(m, m')
    ensures m'.fp == m.fp
  {
  }
}
