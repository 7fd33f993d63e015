/** The allocator invariant. */
module BackendInvariant {
  import opened Options
  import opened Ir
  import opened A64
  import opened Backend
  import opened BackendSpec
  import opened Arith

  /** An IR register that has a location keeps having one. */
  ghost predicate NeverLost(c: Ctx, d: Ctx) {
    forall i :: i in c.home || i in c.spilled ==> i in d.home || i in d.spilled
  }

  ghost predicate Good(c: Ctx, d: Ctx) {
    Inv(d) && NeverLost(c, d)
  }

  lemma GoodTrans(c: Ctx, d: Ctx, e: Ctx)
    requires Good(c, d) && Good(d, e)
    ensures Good(c, e)
  {
    hide Inv;
  }

  lemma SlotAppended(c: Ctx, d: Ctx, s: FrameSlot)
    requires SlotsOrdered(c) && d.slots == c.slots + [s] && d.used == s.off && c.used + s.size <= s.off
    requires forall i :: i in d.spilled ==> FrameSlot(d.spilled[i], 8, true) in d.slots
    requires forall i, j :: i in d.spilled && j in d.spilled && d.spilled[i] == d.spilled[j] ==> i == j
    ensures SlotsOrdered(d)
  {
  }

  lemma VarsStay(c: Ctx, d: Ctx)
    requires VarsPlaced(c) && c.slots <= d.slots && d.vars == c.vars
    ensures VarsPlaced(d)
  {
    forall x | x in d.vars
      ensures exists s :: s in d.slots && s.off == d.vars[x] && !s.spill
    {
      var s :| s in c.slots && s.off == c.vars[x] && !s.spill;
      assert s in d.slots;
    }
  }

  lemma SpillMaps(c: Ctx, r: XReg)
    requires MapsAgree(c)
    ensures MapsAgree(Spill(c, r).ctx) && NeverLost(c, Spill(c, r).ctx)
  {
  }

  lemma SpillGood(c: Ctx, r: XReg)
    requires Inv(c)
    ensures Good(c, Spill(c, r).ctx)
  {
    SpillMaps(c, r);
    if r in c.holds {
      var d := Spill(c, r).ctx;
      var s := FrameSlot(c.used + 8, 8, true);
      assert d.slots[|c.slots|] == s;
      forall i | i in d.spilled
        ensures FrameSlot(d.spilled[i], 8, true) in d.slots
      {
      }
      SpilledBelow(c);
      SlotAppended(c, d, s);
      VarsStay(c, d);
    }
  }

  lemma SpilledBelow(c: Ctx)
    requires SlotsOrdered(c)
    ensures forall i :: i in c.spilled ==> c.spilled[i] <= c.used
  {
  }

  lemma GetTempGood(c: Ctx)
    requires Inv(c)
    ensures Good(c, GetTemp(c).ctx)
  {
    SpillGood(Tick(c), NextReg(c));
  }

  lemma GetRegGood(c: Ctx, id: int)
    requires Inv(c)
    ensures Good(c, GetReg(c, id).ctx)
  {
    if id !in c.home {
      var s := Spill(Tick(c), NextReg(c));
      SpillGood(Tick(c), NextReg(c));
      FetchedGood(s.ctx, id, NextReg(c));
    }
  }

  lemma FetchedGood(s: Ctx, id: int, r: XReg)
    requires Inv(s) && 9 <= r <= 15 && r !in s.holds && id !in s.home
    ensures Good(s, s.(home := s.home[id := r], holds := s.holds[r := id], spilled := s.spilled - {id}))
  {
  }

  lemma PlaceGood(c: Ctx, v: Local)
    requires Inv(c)
    ensures Good(c, Place(c, v))
  {
    if v.name !in c.vars {
      var d := Place(c, v);
      var s := FrameSlot(d.used, v.size, false);
      assert d.slots[|c.slots|] == s;
      SlotAppended(c, d, s);
      forall x | x in d.vars
        ensures exists t :: t in d.slots && t.off == d.vars[x] && !t.spill
      {
        if x == v.name {
          assert s in d.slots;
        } else {
          var t :| t in c.slots && t.off == c.vars[x] && !t.spill;
          assert t in d.slots;
        }
      }
    }
  }

  lemma {:induction false} SaveGood(c: Ctx, r: nat)
    requires r <= 16 && Inv(c)
    ensures Good(c, Save(c, r).ctx)
    decreases 16 - r
  {
    hide Inv, Spill;
    if r < 16 {
      var s := Spill(c, r).ctx;
      SpillGood(c, r);
      GoodInv(c, s);
      SaveGood(s, r + 1);
      GoodTrans(c, s, Save(s, r + 1).ctx);
    }
  }

  lemma GoodInv(c: Ctx, d: Ctx)
    requires Good(c, d)
    ensures Inv(d)
  {
  }

  lemma VarAddrGood(c: Ctx, v: Local)
    requires Inv(c)
    ensures Good(c, VarAddr(c, v).ctx)
  {
    hide Inv, GetTemp, Place;
    GetTempGood(c);
    PlaceGood(GetTemp(c).ctx, v);
    GoodTrans(c, GetTemp(c).ctx, Place(GetTemp(c).ctx, v));
  }

  lemma LoadIntoGood(c: Ctx, op: Opnd, dst: XReg, size: nat)
    requires Inv(c)
    ensures Good(c, LoadInto(c, op, dst, size).ctx)
  {
    hide Inv, GetReg, VarAddr;
    match op
    case R(id) => GetRegGood(c, id);
    case V(v) => VarAddrGood(c, v);
    case _ =>
  }

  lemma LoadToGood(c: Ctx, op: Opnd, size: nat)
    requires Inv(c)
    ensures Good(c, LoadTo(c, op, size).ctx)
  {
    hide Inv, GetTemp, LoadInto;
    var t := GetTemp(c);
    GetTempGood(c);
    LoadIntoGood(t.ctx, op, t.reg, size);
    GoodTrans(c, t.ctx, LoadInto(t.ctx, op, t.reg, size).ctx);
  }

  lemma StoreToGood(c: Ctx, op: Opnd, src: XReg, size: nat)
    requires Inv(c)
    ensures Good(c, StoreTo(c, op, src, size).ctx)
  {
    hide Inv, GetReg, VarAddr;
    match op
    case R(id) => GetRegGood(c, id);
    case V(v) => VarAddrGood(c, v);
    case _ =>
  }

  // Handlers

  lemma TwoLoadsGood(c: Ctx, x: Opnd, xs: nat, y: Opnd, ys: nat, s: Out, r: Out)
    requires Inv(c) && s == LoadTo(c, x, xs) && r == LoadTo(s.ctx, y, ys)
    ensures Good(c, s.ctx) && Good(c, r.ctx)
  {
    hide Inv, LoadTo;
    LoadToGood(c, x, xs);
    LoadToGood(s.ctx, y, ys);
    GoodTrans(c, s.ctx, r.ctx);
  }

  lemma OperandsGood(c: Ctx, dst: int, lhs: Opnd, rhs: Opnd, size: nat, d: Out, s: Out, r: Out)
    requires Inv(c) && d == GetReg(c, dst) && s == LoadInto(d.ctx, lhs, d.reg, size) && r == LoadTo(s.ctx, rhs, size)
    ensures Good(c, r.ctx)
  {
    hide Inv, LoadTo, LoadInto, GetReg;
    GetRegGood(c, dst);
    LoadIntoGood(d.ctx, lhs, d.reg, size);
    LoadToGood(s.ctx, rhs, size);
    GoodTrans(c, d.ctx, s.ctx);
    GoodTrans(c, s.ctx, r.ctx);
  }

  lemma TakeResultGood(c: Ctx, dst: int, size: nat)
    requires Inv(c)
    ensures Good(c, TakeResult(c, dst, size).ctx)
  {
    hide Inv, LoadTo, StoreTo;
    var t := LoadTo(c, R(dst), size);
    LoadToGood(c, R(dst), size);
    StoreToGood(t.ctx, R(dst), t.reg, size);
    GoodTrans(c, t.ctx, StoreTo(t.ctx, R(dst), t.reg, size).ctx);
  }

  lemma {:induction false} EmitArgsGood(c: Ctx, k: nat, args: seq<Arg>)
    requires Inv(c)
    ensures Good(c, EmitArgs(c, k, args).ctx)
    decreases |args|
  {
    hide Inv, LoadTo;
    if args != [] {
      var a := EmitArg(c, k, args[0]);
      LoadToGood(c, args[0].op, args[0].size);
      EmitArgsGood(a.ctx, k + 1, args[1..]);
      GoodTrans(c, a.ctx, EmitArgs(a.ctx, k + 1, args[1..]).ctx);
    }
  }

  lemma CallGood(c: Ctx, i: Ins)
    requires Inv(c) && i.Call?
    ensures Good(c, EmitCall(c, i).ctx)
  {
    hide Inv, LoadTo, EmitArgs, Save, TakeResult;
    var all := AllArgs(i.hidden, i.args);
    var a := EmitArgs(c, 0, all);
    var s := Save(a.ctx, 0);
    var t := EmitTarget(s.ctx, i.target);
    EmitArgsGood(c, 0, all);
    SaveGood(a.ctx, 0);
    GoodTrans(c, a.ctx, s.ctx);
    if i.target.Value? {
      LoadToGood(s.ctx, i.target.op, 8);
      GoodTrans(c, s.ctx, t.ctx);
    }
    if i.result.Some? {
      TakeResultGood(t.ctx, i.result.value, i.size);
      GoodTrans(c, t.ctx, TakeResult(t.ctx, i.result.value, i.size).ctx);
    }
  }

  lemma AllocGood(c: Ctx, dst: int, bytes: Word, init: Option<Opnd>)
    requires Inv(c)
    ensures Good(c, EmitAlloc(c, dst, bytes, init).ctx)
  {
    hide Inv, LoadTo, Save, StoreTo;
    var s := Save(c, 0);
    var t := LoadTo(s.ctx, R(dst), 8);
    var v := if init.Some? then LoadTo(t.ctx, init.value, bytes) else Out(t.ctx, [], 0);
    SaveGood(c, 0);
    LoadToGood(s.ctx, R(dst), 8);
    GoodTrans(c, s.ctx, t.ctx);
    if init.Some? {
      LoadToGood(t.ctx, init.value, bytes);
      GoodTrans(c, t.ctx, v.ctx);
    }
    StoreToGood(v.ctx, R(dst), t.reg, 8);
    GoodTrans(c, v.ctx, StoreTo(v.ctx, R(dst), t.reg, 8).ctx);
  }

  lemma AllocArrayGood(c: Ctx, dst: int, bytes: Word, count: Opnd, size: nat)
    requires Inv(c)
    ensures Good(c, EmitAllocArray(c, dst, bytes, count, size).ctx)
  {
    hide Inv, LoadTo, Save, GetTemp, TakeResult;
    var n := LoadTo(c, count, size);
    var t := GetTemp(n.ctx);
    var s := Save(t.ctx, 0);
    LoadToGood(c, count, size);
    GetTempGood(n.ctx);
    GoodTrans(c, n.ctx, t.ctx);
    SaveGood(t.ctx, 0);
    GoodTrans(c, t.ctx, s.ctx);
    TakeResultGood(s.ctx, dst, 8);
    GoodTrans(c, s.ctx, TakeResult(s.ctx, dst, 8).ctx);
  }

  lemma FreeGood(c: Ctx, ptr: Opnd)
    requires Inv(c)
    ensures Good(c, EmitFree(c, ptr).ctx)
  {
    hide Inv, LoadTo, Save, StoreTo;
    var p := LoadTo(c, ptr, 8);
    var s := Save(p.ctx, 0);
    LoadToGood(c, ptr, 8);
    SaveGood(p.ctx, 0);
    GoodTrans(c, p.ctx, s.ctx);
    StoreToGood(s.ctx, ptr, p.reg, 8);
    GoodTrans(c, s.ctx, StoreTo(s.ctx, ptr, p.reg, 8).ctx);
  }

  /** Assignment, load, address-of: one or two loads and a store. */
  lemma MovesGood(c: Ctx, i: Ins)
    requires Inv(c) && (i.Assign? || i.Load? || i.AddrOf?)
    ensures Good(c, Emit(c, i).ctx)
  {
    hide Inv, LoadTo, VarAddr, StoreTo;
    match i {
      case Assign(to, from, size) =>
        var fs := if from.V? then from.local.size else size;
        var s := LoadTo(c, from, fs);
        LoadToGood(c, from, fs);
        StoreToGood(s.ctx, to, s.reg, size);
        GoodTrans(c, s.ctx, StoreTo(s.ctx, to, s.reg, size).ctx);
      case Load(dst, addr, size) =>
        var s := LoadTo(c, addr, 8);
        var t := LoadTo(s.ctx, R(dst), size);
        TwoLoadsGood(c, addr, 8, R(dst), size, s, t);
        StoreToGood(t.ctx, R(dst), t.reg, size);
        GoodTrans(c, t.ctx, StoreTo(t.ctx, R(dst), t.reg, size).ctx);
      case AddrOf(dst, v) =>
        var t := LoadTo(c, R(dst), 8);
        var p := VarAddr(t.ctx, v);
        LoadToGood(c, R(dst), 8);
        VarAddrGood(t.ctx, v);
        GoodTrans(c, t.ctx, p.ctx);
        StoreToGood(p.ctx, R(dst), t.reg, 8);
        GoodTrans(c, p.ctx, StoreTo(p.ctx, R(dst), t.reg, 8).ctx);
    }
  }

  /** The rest: operators, stores, memory calls. */
  lemma OperatorsGood(c: Ctx, i: Ins)
    requires Inv(c) && (i.Bin? || i.Mod? || i.Neg? || i.Not? || i.Cmp? || i.Store? || i.MemCall?)
    ensures Good(c, Emit(c, i).ctx)
  {
    hide Inv, LoadTo, LoadInto, GetReg, GetTemp, Save;
    match i {
      case Bin(_, dst, lhs, rhs, size) =>
        var d := GetReg(c, dst);
        var s := LoadInto(d.ctx, lhs, d.reg, size);
        OperandsGood(c, dst, lhs, rhs, size, d, s, LoadTo(s.ctx, rhs, size));
      case Mod(dst, lhs, rhs, size) =>
        var d := GetReg(c, dst);
        var s := LoadInto(d.ctx, lhs, d.reg, size);
        var r := LoadTo(s.ctx, rhs, size);
        OperandsGood(c, dst, lhs, rhs, size, d, s, r);
        GetTempGood(r.ctx);
        GoodTrans(c, r.ctx, GetTemp(r.ctx).ctx);
      case Neg(dst, from, size) =>
        UnaryGood(c, dst, from, size);
      case Not(dst, from, size) =>
        UnaryGood(c, dst, from, size);
      case Cmp(_, dst, lhs, rhs, size) =>
        var s := LoadTo(c, lhs, size);
        var r := LoadTo(s.ctx, rhs, size);
        TwoLoadsGood(c, lhs, size, rhs, size, s, r);
        GetRegGood(r.ctx, dst);
        GoodTrans(c, r.ctx, GetReg(r.ctx, dst).ctx);
      case Store(addr, from, size) =>
        var s := LoadTo(c, addr, 8);
        TwoLoadsGood(c, addr, 8, from, size, s, LoadTo(s.ctx, from, size));
      case MemCall(_, addr, from, fromSize, _) =>
        var s := LoadTo(c, addr, 8);
        var r := LoadTo(s.ctx, from, fromSize);
        TwoLoadsGood(c, addr, 8, from, fromSize, s, r);
        SaveGood(r.ctx, 0);
        GoodTrans(c, r.ctx, Save(r.ctx, 0).ctx);
    }
  }

  lemma UnaryGood(c: Ctx, dst: int, from: Opnd, size: nat)
    requires Inv(c)
    ensures Good(c, LoadTo(GetReg(c, dst).ctx, from, size).ctx)
  {
    hide Inv, LoadTo, GetReg;
    var d := GetReg(c, dst);
    GetRegGood(c, dst);
    LoadToGood(d.ctx, from, size);
    GoodTrans(c, d.ctx, LoadTo(d.ctx, from, size).ctx);
  }

  lemma EmitGood(c: Ctx, i: Ins)
    requires Inv(c)
    ensures Good(c, Emit(c, i).ctx)
  {
    hide Inv, EmitAssign, EmitBin, EmitMod, EmitNeg, EmitNot, EmitCmp, EmitLoad, EmitStore, EmitAddrOf, EmitCall, EmitMemCall,
      EmitAlloc, EmitAllocArray, EmitFree;
    if i.Call? {
      CallGood(c, i);
    } else if i.Alloc? {
      AllocGood(c, i.dst, i.bytes, i.init);
    } else if i.AllocArray? {
      AllocArrayGood(c, i.dst, i.bytes, i.count, i.size);
    } else if i.Free? {
      FreeGood(c, i.ptr);
    } else if i.Assign? || i.Load? || i.AddrOf? {
      MovesGood(c, i);
    } else {
      OperatorsGood(c, i);
    }
  }

  lemma {:induction false} EmitAllGood(c: Ctx, prog: seq<Ins>)
    requires Inv(c)
    ensures Good(c, EmitAll(c, prog).ctx)
    decreases |prog|
  {
    hide Inv, Emit;
    if prog != [] {
      var s := Emit(c, prog[0]).ctx;
      EmitGood(c, prog[0]);
      EmitAllGood(s, prog[1..]);
      GoodTrans(c, s, EmitAll(s, prog[1..]).ctx);
    }
  }

  // Reachable states

  /** Allocator states between instructions, and after any number of them. */
  ghost predicate Reachable(c: Ctx) {
    exists prog :: c == EmitAll(Start, prog).ctx
  }

  ghost predicate Apart(s: FrameSlot, t: FrameSlot) {
    s.off <= t.off - t.size || t.off <= s.off - s.size
  }

  /**
    In every reachable state the two register maps are inverse, no IR register is both in a
    register and spilled, distinct slots do not overlap, every slot is inside the frame that
    would be reserved now, and that frame is a multiple of 16.
   */
  lemma {:induction false} AllocatorInvariant(c: Ctx)
    requires Reachable(c)
    ensures Inv(c)
    ensures forall r: XReg, i :: (r in c.holds && c.holds[r] == i) <==> (i in c.home && c.home[i] == r)
    ensures forall i :: i in c.home ==> i !in c.spilled && 9 <= c.home[i] <= 15
    ensures forall j, k :: 0 <= j < k < |c.slots| ==> Apart(c.slots[j], c.slots[k])
    ensures forall s :: s in c.slots ==> 0 <= s.off - s.size && s.off <= FrameSize(c)
    ensures FrameSize(c) % 16 == 0
  {
    var prog :| c == EmitAll(Start, prog).ctx;
    assert Inv(Start);
    EmitAllGood(Start, prog);
  }

  /** An IR register once given a location has one for ever, and its slots stay where they are. */
  lemma {:induction false} LocationsPersist(c: Ctx, prog: seq<Ins>)
    requires Inv(c)
    ensures NeverLost(c, EmitAll(c, prog).ctx) && c.slots <= EmitAll(c, prog).ctx.slots
  {
    hide Inv;
    EmitAllGood(c, prog);
  }

  ghost predicate Private(l: Layout, h: Host, y: int) {
    h.low <= y < StackTop(l) || exists s :: s in l.slots && s.spill && InSlot(l, s, y)
  }

  /** Locals and spill slots do not overlap, so memory divides into public and private as `Sound` asks. */
  lemma {:induction false} SoundDivisionExists(c: Ctx, h: Host, fp: int)
    requires Inv(c) && c.used <= fp < TWO64 && fp % 16 == 0
    ensures var l := LayoutOf(fp, c); Sound(l, h.(public := iset y: int | !Private(l, h, y)))
  {
    var l := LayoutOf(fp, c);
    forall s, y | s in l.slots && InSlot(l, s, y) && !s.spill
      ensures !Private(l, h, y)
    {
      forall t | t in c.slots && t.spill
        ensures !InSlot(l, t, y)
      {
        var j :| 0 <= j < |c.slots| && c.slots[j] == s;
        var k :| 0 <= k < |c.slots| && c.slots[k] == t;
        assert j < k || k < j;
      }
    }
  }

  // Alignment of locals

  /** A new local is aligned below the frame pointer exactly when its size is a multiple of its alignment. */
  lemma LocalAligned(c: Ctx, v: Local)
    requires v.name !in c.vars && v.align > 0
    ensures var off := Place(c, v).vars[v.name];
      && (off % v.align == 0 <==> v.size % v.align == 0)
      && c.used + v.size <= off && forall top: nat :: c.used <= top && Multiple(top, v.align) ==> off <= top + v.size
  {
    var top := RoundUp(c.used, v.align);
    SumMultiple(top, v.size, v.align);
    forall t: nat | c.used <= t && Multiple(t, v.align)
      ensures top <= t
    {
      RoundUpLeast(c.used, v.align, t);
    }
  }

  lemma SumMultiple(a: nat, b: nat, n: nat)
    requires n > 0 && a % n == 0
    ensures (a + b) % n == b % n
  {
    var q := a / n;
    assert a == q * n;
    DivUnique(a + b, n, q + b / n, b % n);
  }

  /** So its address is aligned, in a frame on a multiple of 16, for every alignment that divides 16. */
  lemma LocalAddressAligned(c: Ctx, v: Local, fp: int)
    requires v.name !in c.vars && v.align > 0 && 16 % v.align == 0 && v.size % v.align == 0 && fp % 16 == 0
    ensures (fp - Place(c, v).vars[v.name]) % v.align == 0
  {
    LocalAligned(c, v);
    DifferenceMultiple(fp, Place(c, v).vars[v.name], v.align);
  }

  lemma DifferenceMultiple(fp: int, off: nat, n: nat)
    requires n > 0 && 16 % n == 0 && fp % 16 == 0 && off % n == 0
    ensures (fp - off) % n == 0
  {
    var p, q, k := fp / 16, off / n, 16 / n;
    assert fp == p * 16 && off == q * n && 16 == k * n;
    assert fp - off == (p * k - q) * n by {
      assert p * (k * n) == (p * k) * n;
    }
    DivUnique(fp - off, n, p * k - q, 0);
  }
}
