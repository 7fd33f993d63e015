/** The calling convention. */
module BackendEntry {
  import opened Options
  import opened Ir
  import opened A64
  import opened Backend
  import opened BackendSpec
  import opened BackendAlloc
  import opened BackendLoads
  import opened BackendHandlers
  import opened BackendCalls
  import opened BackendCallRuns
  import opened BackendInvariant
  import opened BackendParams
  import opened BackendCorrect
  import opened Arith

  predicate SameTarget(p: Param, q: Param) {
    || (p.to.V? && q.to.V? && p.to.local.name == q.to.local.name)
    || (p.to.R? && q.to.R? && p.to.id == q.to.id)
  }

  /** Scalar parameters, each moved to a register or a local of its own size. */
  predicate ParamOk(p: Param) {
    Scalar(p.size) && (p.to.R? || (p.to.V? && p.to.local.size == p.size))
  }

  predicate ParamsOk(params: seq<Param>) {
    && (forall i :: 0 <= i < |params| ==> ParamOk(params[i]))
    && (forall i, j :: 0 <= i < j < |params| ==> !SameTarget(params[i], params[j]))
  }

  predicate NotYet(c: Ctx, a: Abs, p: Param) {
    (p.to.V? ==> p.to.local.name !in c.vars) && (p.to.R? ==> p.to.id !in a.seen)
  }

  /** What a parameter must hold: the low bytes of the word that was passed. */
  function Wanted(v: Word, k: nat, p: Param): nat
    requires Scalar(p.size)
  {
    if p.to.R? then Incoming(v, k, p.size) else v % Pow256(p.size)
  }

  ghost predicate Holds(l: Layout, a: Abs, p: Param, w: nat)
    requires ParamOk(p)
  {
    match p.to
    case R(id) => id in a.regs && a.regs[id] == w
    case V(x) => x.name in l.vars && A64.Load(a.mem, l.fp - l.vars[x.name], p.size) == w
  }

  lemma ModMod(b: nat, t: nat, p: nat, q: nat)
    requires b < 256 && p > 0 && q > 0 && t % p % q == t % q
    ensures 256 * p > 0 && 256 * q > 0 && (b + 256 * t) % (256 * p) % (256 * q) == (b + 256 * t) % (256 * q)
  {
    DigitMod(b, t, p);
    DigitMod(b, t % p, q);
    DigitMod(b, t, q);
  }

  lemma {:induction false} LowLow(v: nat, k: nat, n: nat)
    requires k <= n
    ensures v % Pow256(n) % Pow256(k) == v % Pow256(k)
  {
    if k > 0 {
      LowLow(v / 256, k - 1, n - 1);
      ModMod(v % 256, v / 256, Pow256(n - 1), Pow256(k - 1));
      assert v == v % 256 + 256 * (v / 256);
    }
  }

  lemma {:induction false} ReadWrittenLow(mem: Mem, a: int, n: nat, v: nat)
    ensures Read(A64.Write(mem, a, n, v), a, n) == v % Pow256(n)
  {
    forall i: nat | i < n
      ensures A64.Write(mem, a, n, v)(a + i) == ByteOf(v % Pow256(n), i)
    {
      ByteLow(v, n, i);
    }
    ReadBytes(A64.Write(mem, a, n, v), a, n, v % Pow256(n));
  }

  lemma {:induction false} ByteLow(v: nat, n: nat, i: nat)
    requires i < n
    ensures ByteOf(v % Pow256(n), i) == ByteOf(v, i)
    decreases i
  {
    var b, t := v % 256, v / 256;
    assert v == b + 256 * t;
    DigitMod(b, t, Pow256(n - 1));
    if i > 0 {
      ByteLow(t, n - 1, i - 1);
    }
  }

  lemma {:induction false} IncomingLow(v: Word, k: nat, size: nat)
    requires Scalar(size)
    ensures Incoming(v, k, size) % Pow256(size) == v % Pow256(size)
    ensures Narrow(Incoming(v, k, size), size) == Incoming(v, k, size)
    ensures size == 8 ==> Incoming(v, k, size) == v
  {
    Pow256Of8();
    LowLow(v, size, if size == 8 then 8 else 4);
    LowLow(v, size, size);
  }

  // Where parameters end up in the frame

  lemma ParamCtx(c: Ctx, k: nat, p: Param, o: Out)
    requires o == EmitParam(c, k, p) && ParamOk(p)
    ensures p.to.V? && p.to.local.name !in c.vars ==>
      && o.ctx.vars.Keys == c.vars.Keys + {p.to.local.name}
      && o.ctx.vars[p.to.local.name] - p.size >= c.used
      && FrameSlot(o.ctx.vars[p.to.local.name], p.size, false) in o.ctx.slots
    ensures p.to.R? ==> o.ctx.vars == c.vars
  {
    hide GetTemp, Place, GetReg;
    var t := GetTemp(c);
    var s := LoadSlot(t.ctx, k, t.reg, p.size);
    TempVars(c);
    TempVars(t.ctx);
    if p.to.V? && p.to.local.name !in c.vars {
      TempVars(s.ctx);
      PlaceNew(GetTemp(s.ctx).ctx, p.to.local);
    } else if p.to.R? {
      RegVars(s.ctx, p.to.id);
    }
  }

  lemma TempVars(c: Ctx)
    ensures GetTemp(c).ctx.vars == c.vars && GetTemp(c).ctx.used >= c.used
  {
  }

  lemma RegVars(c: Ctx, id: int)
    ensures GetReg(c, id).ctx.vars == c.vars
  {
  }

  lemma PlaceNew(c: Ctx, v: Local)
    requires v.name !in c.vars
    ensures var d := Place(c, v);
      && d.vars.Keys == c.vars.Keys + {v.name} && d.vars[v.name] - v.size >= c.used
      && FrameSlot(d.vars[v.name], v.size, false) in d.slots
  {
    var d := Place(c, v);
    assert d.slots[|c.slots|] == FrameSlot(d.vars[v.name], v.size, false);
  }

  lemma ParamPublic(l: Layout, h: Host, off: nat, size: nat)
    requires Sound(l, h) && FrameSlot(off, size, false) in l.slots
    ensures AllPublic(h, l.fp - off, size) && size <= off <= l.used
  {
    var s := FrameSlot(off, size, false);
    forall y | l.fp - off <= y < l.fp - off + size
      ensures y in h.public
    {
      assert InSlot(l, s, y);
    }
  }

  /** One move: it is defined, reaches only the new slot, and leaves there what was passed. */
  lemma ParamSettles(l: Layout, h: Host, c: Ctx, k: nat, p: Param, a: Abs, v: Word, o: Out) returns (b: Abs)
    requires Sound(l, h) && o == EmitParam(c, k, p) && Within(o.ctx, l) && ParamOk(p) && NotYet(c, a, p)
    ensures ParamStep(l, h, a, p, Incoming(v, k, p.size)) == Some(b)
    ensures forall y :: y >= l.fp - c.used ==> b.mem(y) == a.mem(y)
    ensures Holds(l, b, p, Wanted(v, k, p)) && (p.to.V? ==> InFrame(l, p) && l.vars[p.to.local.name] <= o.ctx.used)
    ensures b.seen == a.seen + (if p.to.R? then {p.to.id} else {})
    ensures forall i :: i in a.regs && i in a.seen ==> i in b.regs && b.regs[i] == a.regs[i]
    ensures forall i :: i in b.regs ==> i in a.regs || (p.to.R? && i == p.to.id)
  {
    hide EmitParam, Incoming, Read, Pow256, ByteOf, AllPublic;
    ParamCtx(c, k, p, o);
    var w := Incoming(v, k, p.size);
    IncomingLow(v, k, p.size);
    match p.to {
      case R(id) =>
        b := ParamStep(l, h, a, p, w).value;
      case V(x) =>
        var off := o.ctx.vars[x.name];
        assert FrameSlot(off, p.size, false) in l.slots;
        ParamPublic(l, h, off, p.size);
        b := ParamStep(l, h, a, p, w).value;
        ReadWrittenLow(a.mem, l.fp - off, p.size, w);
        SlotUsed(c, k, p, o);
    }
  }

  lemma SlotUsed(c: Ctx, k: nat, p: Param, o: Out)
    requires o == EmitParam(c, k, p) && p.to.V? && p.to.local.name !in c.vars
    ensures o.ctx.vars[p.to.local.name] == o.ctx.used
  {
    var t := GetTemp(c);
    var s := LoadSlot(t.ctx, k, t.reg, p.size);
    assert s.ctx.vars == c.vars;
  }

  /** All moves: every parameter holds what was passed for it. */
  lemma {:induction false} ParamsSettle(l: Layout, h: Host, c: Ctx, k: nat, params: seq<Param>, a: Abs, vs: seq<Word>, o: Out)
    returns (b: Abs)
    requires Sound(l, h) && o == EmitParams(c, k, params) && Within(o.ctx, l) && ParamsOk(params) && |vs| == |params|
    requires forall p :: p in params ==> NotYet(c, a, p)
    requires forall i :: i in a.regs ==> i in a.seen
    ensures ParamSteps(l, h, a, k, params, vs) == Some(b)
    ensures forall y :: y >= l.fp - c.used ==> b.mem(y) == a.mem(y)
    ensures forall i :: i in a.regs ==> i in b.regs && b.regs[i] == a.regs[i]
    ensures forall i :: 0 <= i < |params| ==> Holds(l, b, params[i], Wanted(vs[i], k + i, params[i]))
    ensures forall p :: p in params && p.to.V? ==> InFrame(l, p)
    decreases |params|
  {
    hide EmitParam, Incoming, Sound, Extends, Within, ParamStep, Wanted;
    if params == [] {
      b := a;
    } else {
      var s := EmitParam(c, k, params[0]);
      var rest := EmitParams(s.ctx, k + 1, params[1..]);
      WithinEarlier(s.ctx, rest.ctx, l);
      var b1 := ParamSettles(l, h, c, k, params[0], a, vs[0], s);
      ParamCtx(c, k, params[0], s);
      forall p | p in params[1..]
        ensures NotYet(s.ctx, b1, p)
      {
        var i :| 0 <= i < |params[1..]| && params[1..][i] == p;
        assert params[i + 1] == p && p in params && !SameTarget(params[0], params[i + 1]);
      }
      b := ParamsSettle(l, h, s.ctx, k + 1, params[1..], b1, vs[1..], rest);
      UsedGrows(c, s.ctx);
      HoldsStays(l, params[0], b1, b, Wanted(vs[0], k, params[0]), s.ctx.used);
      forall i | 0 <= i < |params|
        ensures Holds(l, b, params[i], Wanted(vs[i], k + i, params[i]))
      {
        if i > 0 {
          assert params[1..][i - 1] == params[i] && k + 1 + (i - 1) == k + i;
        }
      }
    }
  }

  lemma UsedGrows(c: Ctx, d: Ctx)
    requires Extends(c, d)
    ensures c.used <= d.used
  {
  }

  lemma HoldsStays(l: Layout, p: Param, b1: Abs, b: Abs, w: nat, used: nat)
    requires ParamOk(p) && Holds(l, b1, p, w) && (p.to.V? ==> l.vars[p.to.local.name] <= used)
    requires forall y :: y >= l.fp - used ==> b.mem(y) == b1.mem(y)
    requires forall i :: i in b1.regs ==> i in b.regs && b.regs[i] == b1.regs[i]
    ensures Holds(l, b, p, w)
  {
    hide Read;
    if p.to.V? {
      ReadSame(b1.mem, b.mem, l.fp - l.vars[p.to.local.name], p.size);
    }
  }

  // Entry

  /** `stp x29, x30, [sp, #-16]!`, `mov x29, sp`, `sub sp, sp, #frame`. */
  function Enter(m: Cpu, frame: nat): Cpu {
    m.(fp := m.sp - 16, sp := m.sp - 16 - frame,
       mem := A64.Write(A64.Write(m.mem, m.sp - 16, 8, Wrap(m.fp)), m.sp - 8, 8, m.x[30]))
  }

  lemma EnterSlots(m: Cpu, frame: nat, vs: seq<Word>)
    requires ArgumentsAre(m, vs)
    ensures SlotsAre(Enter(m, frame), vs)
  {
    hide Read, ByteOf;
    var m0 := Enter(m, frame);
    forall k: nat | k < |vs|
      ensures ParamWord(m0, k) == vs[k]
    {
      assert Argument(m, k) == vs[k];
      if k >= 8 {
        ReadSame(m.mem, m0.mem, m.sp + 8 * (k - 8), 8);
      }
    }
  }

  /** A local parameter's slot reads as `low`; a parameter kept in an IR register is found to be `word`. */
  ghost predicate Arrived(c: Ctx, d: Ctx, m: Cpu, p: Param, low: nat, word: Word) {
    match p.to
    case V(x) => x.name in d.vars && Scalar(p.size) && A64.Load(m.mem, m.fp - d.vars[x.name], p.size) == low
    case R(id) => Located(c, m, id) == Some(word)
    case _ => false
  }

  /**
    Whatever the number of arguments, each parameter of a callee starts with the low bytes of
    the word its caller left for it. `d` is the callee's final allocator state, so `l` is the
    frame it really has.
   */
  lemma {:induction false} ParametersArrive(h: Host, params: seq<Param>, d: Ctx, m: Cpu, vs: seq<Word>) returns (m': Cpu)
    requires ParamsOk(params) && |vs| == |params| && ArgumentsAre(m, vs) && m.sp + 8 * |vs| < TWO64
    requires Extends(EmitParams(Start, 0, params).ctx, d) && Sound(LayoutOf(m.sp - 16, d), h)
    ensures var o := EmitParams(Start, 0, params);
      var m0 := Enter(m, FrameSize(d));
      && Goes(h, o.code, m0, m') && m'.sp == m0.sp == StackTop(LayoutOf(m.sp - 16, d)) && m'.sp % 16 == 0
      && forall i :: 0 <= i < |params| ==>
           Arrived(o.ctx, d, m', params[i], vs[i] % Pow256(params[i].size), Incoming(vs[i], i, params[i].size))
  {
    hide Goes, EmitParams, Incoming, ParamSteps, Read, Sound, A64.Load, Enter;
    var l := LayoutOf(m.sp - 16, d);
    var o := EmitParams(Start, 0, params);
    var m0 := Enter(m, FrameSize(d));
    EntryPoint(m, d);
    var a := Abs(map[], {}, m0.mem, m0.calls);
    var b := ParamsSettle(l, h, Start, 0, params, a, vs, o);
    EnterSlots(m, FrameSize(d), vs);
    assert vs[0..] == vs;
    StartRel(l, h, m0, a, o.ctx);
    m' := ParamsRun(l, h, Start, 0, params, m0, a, b, o, vs);
    StackTopAligned(l, h, o.ctx, m', b);
    forall i | 0 <= i < |params|
      ensures Arrived(o.ctx, d, m', params[i], vs[i] % Pow256(params[i].size), Incoming(vs[i], i, params[i].size))
    {
      assert Holds(l, b, params[i], Wanted(vs[i], 0 + i, params[i]));
      ParamVisible(l, h, o.ctx, params[i], m', b, d);
    }
  }

  lemma EntryPoint(m: Cpu, d: Ctx)
    ensures var m0 := Enter(m, FrameSize(d)); m0.fp == m.sp - 16 && m0.sp == StackTop(LayoutOf(m.sp - 16, d))
  {
  }

  lemma StartRel(l: Layout, h: Host, m: Cpu, a: Abs, d: Ctx)
    requires Sound(l, h) && m.fp == l.fp && a == Abs(map[], {}, m.mem, m.calls)
    ensures Rel(l, h, Start, m, a)
  {
    hide Sound;
  }

  lemma ParamVisible(l: Layout, h: Host, c: Ctx, p: Param, m: Cpu, b: Abs, d: Ctx)
    requires Rel(l, h, c, m, b) && ParamOk(p) && l == LayoutOf(l.fp, d)
    requires p.to.V? ==> InFrame(l, p)
    ensures m.fp == l.fp
    ensures p.to.V? ==> A64.Load(m.mem, l.fp - d.vars[p.to.local.name], p.size) == A64.Load(b.mem, l.fp - d.vars[p.to.local.name], p.size)
    ensures p.to.R? && p.to.id in b.regs ==> Located(c, m, p.to.id) == Some(b.regs[p.to.id])
  {
    hide Rel, Sound, Read, Pow256, A64.Load, AllPublic;
    UsedNat(l, h, c, m, b);
    match p.to {
      case V(x) =>
        SoundOf(l, h, c, m, b);
        ParamPublic(l, h, d.vars[x.name], p.size);
        PublicLoad(l, h, c, m, b, l.fp - d.vars[x.name], p.size);
      case R(id) =>
        RegValue(l, h, c, m, b, id);
    }
  }

  lemma SoundOf(l: Layout, h: Host, c: Ctx, m: Cpu, a: Abs)
    requires Rel(l, h, c, m, a)
    ensures Sound(l, h)
  {
  }

  lemma RegValue(l: Layout, h: Host, c: Ctx, m: Cpu, a: Abs, id: int)
    requires Rel(l, h, c, m, a)
    ensures id in a.regs ==> Located(c, m, id) == Some(a.regs[id])
  {
    hide A64.Load, Sound, Within;
  }

  /** Value `i` of a list of arguments, as the unlimited machine has it. */
  ghost function ArgVal(l: Layout, h: Host, a: Abs, arg: Arg): Option<Word> {
    OpVal(l, h, a, arg.op, arg.size)
  }

  lemma {:induction false} ArgValsAt(l: Layout, h: Host, a: Abs, k: nat, args: seq<Arg>, vs: seq<Word>, i: nat)
    requires ArgVals(l, h, a, k, args) == Some(vs) && i < |args|
    ensures |vs| == |args| && ArgVal(l, h, a, args[i]).Some?
    ensures vs[i] == Passed(ArgVal(l, h, a, args[i]).value, k + i, args[i].size)
    decreases i
  {
    hide OpVal, Passed;
    ArgValsLength(l, h, a, k, args);
    if i > 0 {
      ArgValsAt(l, h, a, k + 1, args[1..], vs[1..], i - 1);
    }
  }

  lemma {:induction false} PassedLow(v: Word, k: nat, size: nat)
    requires Scalar(size)
    ensures Passed(v, k, size) % Pow256(size) == v % Pow256(size)
    ensures size == 8 ==> Passed(v, k, size) == v
  {
    Pow256Of8();
    LowLow(v, size, if size == 8 then 8 else 4);
  }

  /** Passed as argument `k` and read as parameter `k`. */
  function Transferred(v: Word, k: nat, size: nat): Word
    requires Scalar(size)
  {
    Incoming(Passed(v, k, size), k, size)
  }

  /**
    Parameter `p`, number `k`, got the argument value `v`: a local holds its low bytes; an IR register
    holds a word with those low bytes, all of `v` when it is 8 bytes wide.
   */
  ghost predicate Delivered(c: Ctx, d: Ctx, m: Cpu, p: Param, k: nat, v: Word)
    requires Scalar(p.size)
  {
    var w := Transferred(v, k, p.size);
    && Arrived(c, d, m, p, v % Pow256(p.size), w)
    && w % Pow256(p.size) == v % Pow256(p.size) && (p.size == 8 ==> w == v)
  }

  /**
    Calling convention round trip. A caller evaluates `args` (a hidden return pointer first, if
    there is one), saves its registers and calls; the callee runs its prologue and moves its
    parameters. Then parameter `i` holds the value of argument `i`, to the parameter's width.
    `h` is the memory division of the caller, `g` that of the callee.
   */
  lemma {:induction false} ArgumentRoundTrip(l: Layout, h: Host, c: Ctx, args: seq<Arg>, m: Cpu, a: Abs, vs: seq<Word>,
                          g: Host, params: seq<Param>, d: Ctx) returns (m1: Cpu, m2: Cpu, m': Cpu)
    requires Rel(l, h, c, m, a) && Within(Save(EmitArgs(c, 0, args).ctx, 0).ctx, l)
    requires ArgVals(l, h, a, 0, args) == Some(vs) && (|args| > 8 ==> Room(l, h, m, |args|)) && m.sp + 8 * |args| < TWO64
    requires ParamsOk(params) && |params| == |args| && forall i :: 0 <= i < |args| ==> params[i].size == args[i].size
    requires Extends(EmitParams(Start, 0, params).ctx, d) && Sound(LayoutOf(m.sp - 16, d), g)
    ensures var e := EmitArgs(c, 0, args); Goes(h, e.code, m, m1) && Goes(h, Save(e.ctx, 0).code, m1, m2)
    ensures Goes(g, EmitParams(Start, 0, params).code, Enter(m2, FrameSize(d)), m')
    ensures forall i :: 0 <= i < |args| ==>
      && ArgVal(l, h, a, args[i]).Some? && Scalar(params[i].size)
      && Delivered(EmitParams(Start, 0, params).ctx, d, m', params[i], i, ArgVal(l, h, a, args[i]).value)
  {
    hide Goes, Rel, Within, EmitArgs, EmitParams, Save, ArgVals, Extends, Sound, Room, Argument, Enter, Incoming, A64.Load, Located,
      Passed, Pow256, ArgVal, Still;
    var e := EmitArgs(c, 0, args);
    WithinEarlier(e.ctx, Save(e.ctx, 0).ctx, l);
    m1 := ArgsRun(l, h, c, 0, args, vs, m, a, e);
    assert ArgumentsAre(m1, vs) by {
      assert forall j: nat :: j < |vs| ==> Argument(m1, 0 + j) == vs[j];
    }
    m2 := SaveAllRuns(l, h, e.ctx, m1, a, Save(e.ctx, 0));
    StillSp(l, m1, m2);
    UsedNat(l, h, c, m, a);
    RoomSame(l, h, m, m1, |vs|);
    StillArguments(l, h, m1, m2, vs);
    m' := ParametersArrive(g, params, d, m2, vs);
    forall i | 0 <= i < |args|
      ensures ArgVal(l, h, a, args[i]).Some? && Scalar(params[i].size)
      ensures Delivered(EmitParams(Start, 0, params).ctx, d, m', params[i], i, ArgVal(l, h, a, args[i]).value)
    {
      ArgValsAt(l, h, a, 0, args, vs, i);
      assert ParamOk(params[i]);
      PassedLow(ArgVal(l, h, a, args[i]).value, 0 + i, args[i].size);
      IncomingLow(vs[i], i, args[i].size);
    }
  }

  lemma RoomSame(l: Layout, h: Host, m: Cpu, m': Cpu, n: nat)
    requires n > 8 ==> Room(l, h, m, n)
    requires m'.sp == m.sp
    ensures n > 8 ==> Room(l, h, m', n)
  {
  }
}
