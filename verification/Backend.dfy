/** Register allocation, spilling, frame slots and instruction selection: what each handler emits. */
module Backend {
  import opened Options
  import opened Ir
  import opened A64
  import opened Arith

  // Operands and instructions, with sizes

  datatype Local = Local(name: string, size: nat, align: nat)

  datatype Opnd =
    | R(id: int)
    | V(local: Local)
    | N(value: Word)
    | Sym(symbol: string)

  datatype Arg = Arg(op: Opnd, size: nat)

  datatype Target = Name(func: string) | Value(op: Opnd)

  /** One IR instruction; a call stands for its whole preparation, arguments and `LCALL`. */
  datatype Ins =
    | Assign(to: Opnd, from: Opnd, size: nat)
    | Bin(op: ArithOp, dst: int, lhs: Opnd, rhs: Opnd, size: nat)
    | Mod(dst: int, lhs: Opnd, rhs: Opnd, size: nat)
    | Neg(dst: int, from: Opnd, size: nat)
    | Not(dst: int, from: Opnd, size: nat)
    | Cmp(cond: CmpOp, dst: int, lhs: Opnd, rhs: Opnd, size: nat)
    | Load(dst: int, addr: Opnd, size: nat)
    | Store(addr: Opnd, from: Opnd, size: nat)
    | AddrOf(dst: int, local: Local)
    | Call(result: Option<int>, target: Target, hidden: Option<Opnd>, args: seq<Arg>, size: nat)
    | MemCall(func: string, addr: Opnd, from: Opnd, fromSize: nat, bytes: Word)
    | Alloc(dst: int, bytes: Word, init: Option<Opnd>)
    | AllocArray(dst: int, bytes: Word, count: Opnd, size: nat)
    | Free(ptr: Opnd)

  // Allocator state

  /** The round-robin turn among the seven temporaries x9 to x15. */
  type Turn = n: nat | n < 7

  /** A frame slot: `size` bytes from `off` below the frame pointer upwards. */
  datatype FrameSlot = FrameSlot(off: nat, size: nat, spill: bool)

  /**
    `holds` and `home` are the two register maps (a register marked scratch is simply absent),
    `spilled` gives the slot of each spilled IR register, `vars` the slot of each local, `used`
    the bytes of the frame handed out, `slots` every slot handed out, in order.
   */
  datatype Ctx = Ctx(
    count: Turn,
    holds: map<XReg, int>,
    home: map<int, XReg>,
    spilled: map<int, nat>,
    vars: map<string, nat>,
    used: nat,
    slots: seq<FrameSlot>)

  const Start := Ctx(0, map[], map[], map[], map[], 0, [])


  /** Slots are never given back or moved. */
  predicate Extends(c: Ctx, d: Ctx) {
    && c.slots <= d.slots && c.used <= d.used
    && forall x :: x in c.vars ==> x in d.vars && d.vars[x] == c.vars[x]
  }

  /** State and code after a step, and the register it answers. */
  datatype Out = Out(ctx: Ctx, code: seq<Asm>, reg: XReg)

  function NextReg(c: Ctx): XReg {
    9 + c.count
  }

  function Tick(c: Ctx): Ctx {
    c.(count := if c.count == 6 then 0 else c.count + 1)
  }

  function SlotAccess(off: nat): seq<Asm> {
    [Const(16, Wrap(off)), SubFp(16, 16)]
  }

  /** Moves the IR register in `r` to a new slot. */
  function Spill(c: Ctx, r: XReg): (o: Out)
    ensures Extends(c, o.ctx)
  {
    if r !in c.holds then Out(c, [], r)
    else
      var off := c.used + 8;
      Out(c.(holds := c.holds - {r}, home := c.home - {c.holds[r]}, spilled := c.spilled[c.holds[r] := off],
             used := off, slots := c.slots + [FrameSlot(off, 8, true)]),
          SlotAccess(off) + [Str(r, 16, 8)], r)
  }

  /** A scratch register: the next one in turn, its IR register spilled. */
  function GetTemp(c: Ctx): (o: Out)
    ensures Extends(c, o.ctx)
  {
    Spill(Tick(c), NextReg(c))
  }

  /** The register of an IR register, reloaded or newly assigned if need be. */
  function GetReg(c: Ctx, id: int): (o: Out)
    ensures Extends(c, o.ctx)
  {
    if id in c.home then Out(c, [], c.home[id])
    else
      var s := Spill(Tick(c), NextReg(c));
      var back := if id in s.ctx.spilled then SlotAccess(s.ctx.spilled[id]) + [Ldr(s.reg, 16, 8)] else [];
      Out(s.ctx.(home := s.ctx.home[id := s.reg], holds := s.ctx.holds[s.reg := id], spilled := s.ctx.spilled - {id}),
          s.code + back, s.reg)
  }

  /** Spills x0, x1, ... in order up to and including x15. */
  function Save(c: Ctx, r: nat): (o: Out)
    requires r <= 16
    decreases 16 - r
    ensures Extends(c, o.ctx)
  {
    if r == 16 then Out(c, [], 0)
    else
      var s := Spill(c, r);
      var rest := Save(s.ctx, r + 1);
      Out(rest.ctx, s.code + rest.code, 0)
  }

  /** The slot of a local, handed out on first use. */
  function Place(c: Ctx, v: Local): (o: Ctx)
    ensures Extends(c, o)
  {
    if v.name in c.vars then c
    else
      var off := RoundUp(c.used, if v.align > 0 then v.align else 1) + v.size;
      c.(vars := c.vars[v.name := off], used := off, slots := c.slots + [FrameSlot(off, v.size, false)])
  }

  function VarAddr(c: Ctx, v: Local): (o: Out)
    ensures Extends(c, o.ctx)
  {
    var t := GetTemp(c);
    var p := Place(t.ctx, v);
    Out(p, t.code + [Const(t.reg, Wrap(p.vars[v.name])), SubFp(t.reg, t.reg)], t.reg)
  }

  /** Brings an operand into `dst`. */
  function LoadInto(c: Ctx, op: Opnd, dst: XReg, size: nat): (o: Out)
    ensures Extends(c, o.ctx)
  {
    match op
    case R(id) =>
      var s := GetReg(c, id);
      Out(s.ctx, s.code + (if dst != s.reg then [Mov(dst, s.reg, size)] else []), dst)
    case V(v) =>
      var a := VarAddr(c, v);
      Out(a.ctx, a.code + [Ldr(dst, a.reg, size)], dst)
    case N(n) => Out(c, [Const(dst, n)], dst)
    case Sym(s) => Out(c, [LoadAddr(dst, s)], dst)
  }

  function LoadTo(c: Ctx, op: Opnd, size: nat): (o: Out)
    ensures Extends(c, o.ctx)
  {
    var t := GetTemp(c);
    var l := LoadInto(t.ctx, op, t.reg, size);
    Out(l.ctx, t.code + l.code, t.reg)
  }

  function StoreTo(c: Ctx, op: Opnd, src: XReg, size: nat): (o: Out)
    ensures Extends(c, o.ctx)
  {
    match op
    case R(id) =>
      var d := GetReg(c, id);
      Out(d.ctx, d.code + [Mov(d.reg, src, size)], d.reg)
    case V(v) =>
      var a := VarAddr(c, v);
      Out(a.ctx, a.code + [Str(src, a.reg, size)], src)
    case _ => Out(c, [], src)
  }

  // Handlers

  function EmitAssign(c: Ctx, to: Opnd, from: Opnd, size: nat): (o: Out)
    ensures Extends(c, o.ctx)
  {
    var s := LoadTo(c, from, if from.V? then from.local.size else size);
    var d := StoreTo(s.ctx, to, s.reg, size);
    Out(d.ctx, s.code + d.code, 0)
  }

  function EmitBin(c: Ctx, op: ArithOp, dst: int, lhs: Opnd, rhs: Opnd, size: nat): (o: Out)
    ensures Extends(c, o.ctx)
  {
    var d := GetReg(c, dst);
    var l := LoadInto(d.ctx, lhs, d.reg, size);
    var r := LoadTo(l.ctx, rhs, size);
    Out(r.ctx, d.code + l.code + r.code + [A64.Alu(op, d.reg, d.reg, r.reg, size)], 0)
  }

  function EmitMod(c: Ctx, dst: int, lhs: Opnd, rhs: Opnd, size: nat): (o: Out)
    ensures Extends(c, o.ctx)
  {
    var d := GetReg(c, dst);
    var l := LoadInto(d.ctx, lhs, d.reg, size);
    var r := LoadTo(l.ctx, rhs, size);
    var t := GetTemp(r.ctx);
    Out(t.ctx, d.code + l.code + r.code + t.code
               + [A64.Alu(Ir.Div, t.reg, d.reg, r.reg, size), Msub(d.reg, t.reg, r.reg, d.reg, size)], 0)
  }

  function EmitNeg(c: Ctx, dst: int, from: Opnd, size: nat): (o: Out)
    ensures Extends(c, o.ctx)
  {
    var d := GetReg(c, dst);
    var s := LoadTo(d.ctx, from, size);
    Out(s.ctx, d.code + s.code + [NegX(d.reg, s.reg, size)], 0)
  }

  function EmitNot(c: Ctx, dst: int, from: Opnd, size: nat): (o: Out)
    ensures Extends(c, o.ctx)
  {
    var d := GetReg(c, dst);
    var s := LoadTo(d.ctx, from, size);
    Out(s.ctx, d.code + s.code + [CmpZero(s.reg, size), Cset(d.reg, CmpEq)], 0)
  }

  function EmitCmp(c: Ctx, cond: CmpOp, dst: int, lhs: Opnd, rhs: Opnd, size: nat): (o: Out)
    ensures Extends(c, o.ctx)
  {
    var l := LoadTo(c, lhs, size);
    var r := LoadTo(l.ctx, rhs, size);
    var d := GetReg(r.ctx, dst);
    Out(d.ctx, l.code + r.code + d.code + [CmpX(l.reg, r.reg, size), Cset(d.reg, cond)], 0)
  }

  /** Loads from the address in one scratch register through another into `dst`. */
  function EmitLoad(c: Ctx, dst: int, addr: Opnd, size: nat): (o: Out)
    ensures Extends(c, o.ctx)
  {
    var a := LoadTo(c, addr, 8);
    var t := LoadTo(a.ctx, R(dst), size);
    var d := StoreTo(t.ctx, R(dst), t.reg, size);
    Out(d.ctx, a.code + t.code + [Ldr(t.reg, a.reg, size)] + d.code, 0)
  }

  function EmitStore(c: Ctx, addr: Opnd, from: Opnd, size: nat): (o: Out)
    ensures Extends(c, o.ctx)
  {
    var a := LoadTo(c, addr, 8);
    var v := LoadTo(a.ctx, from, size);
    Out(v.ctx, a.code + v.code + [Str(v.reg, a.reg, size)], 0)
  }

  function EmitAddrOf(c: Ctx, dst: int, v: Local): (o: Out)
    ensures Extends(c, o.ctx)
  {
    var t := LoadTo(c, R(dst), 8);
    var a := VarAddr(t.ctx, v);
    var d := StoreTo(a.ctx, R(dst), t.reg, 8);
    Out(d.ctx, t.code + a.code + [Mov(t.reg, a.reg, 8)] + d.code, 0)
  }

  /** Moves x0 into `dst` through a scratch register. */
  function TakeResult(c: Ctx, dst: int, size: nat): (o: Out)
    ensures Extends(c, o.ctx)
  {
    var t := LoadTo(c, R(dst), size);
    var d := StoreTo(t.ctx, R(dst), t.reg, size);
    Out(d.ctx, t.code + [Mov(t.reg, 0, size)] + d.code, 0)
  }

  /** Puts argument number `k` where the callee looks for it. */
  function EmitArg(c: Ctx, k: nat, a: Arg): (o: Out)
    ensures Extends(c, o.ctx)
  {
    var s := LoadTo(c, a.op, a.size);
    Out(s.ctx, s.code + (if k < 8 then [Mov(k, s.reg, a.size)] else [StrSp(s.reg, 8 * (k - 8))]), 0)
  }

  function EmitArgs(c: Ctx, k: nat, args: seq<Arg>): (o: Out)
    decreases |args|
    ensures Extends(c, o.ctx)
  {
    if args == [] then Out(c, [], 0)
    else
      var a := EmitArg(c, k, args[0]);
      var rest := EmitArgs(a.ctx, k + 1, args[1..]);
      Out(rest.ctx, a.code + rest.code, 0)
  }

  /** The hidden return pointer travels as the first argument. */
  function AllArgs(hidden: Option<Opnd>, args: seq<Arg>): seq<Arg> {
    if hidden.Some? then [Arg(hidden.value, 8)] + args else args
  }

  /** Stack space for the arguments beyond the eighth, padded to 16 bytes. */
  function ArgBytes(n: nat): (b: nat)
    ensures b % 16 == 0 && b >= 8 * (n - 8)
  {
    var b := if n > 8 then 8 * (n - 8) else 0;
    if b % 16 != 0 then b + 8 else b
  }

  function EmitTarget(c: Ctx, t: Target): (o: Out)
    ensures Extends(c, o.ctx)
  {
    if t.Name? then Out(c, [Bl(t.func)], 0)
    else
      var s := LoadTo(c, t.op, 8);
      Out(s.ctx, s.code + [Blr(s.reg)], 0)
  }

  function EmitCall(c: Ctx, i: Ins): (o: Out)
    requires i.Call?
    ensures Extends(c, o.ctx)
  {
    var bytes := ArgBytes(|AllArgs(i.hidden, i.args)|);
    var a := EmitArgs(c, 0, AllArgs(i.hidden, i.args));
    var s := Save(a.ctx, 0);
    var t := EmitTarget(s.ctx, i.target);
    var r := if i.result.Some? then TakeResult(t.ctx, i.result.value, i.size) else Out(t.ctx, [], 0);
    var down := if bytes > 0 then [SubSp(bytes)] else [];
    var up := if bytes > 0 then [AddSp(bytes)] else [];
    Out(r.ctx, down + a.code + s.code + t.code + up + r.code, 0)
  }

  /** `memcpy` and `memset`: two operands and a byte count. */
  function EmitMemCall(c: Ctx, i: Ins): (o: Out)
    requires i.MemCall?
    ensures Extends(c, o.ctx)
  {
    var d := LoadTo(c, i.addr, 8);
    var f := LoadTo(d.ctx, i.from, i.fromSize);
    var s := Save(f.ctx, 0);
    Out(s.ctx, d.code + f.code + s.code + [Mov(0, d.reg, 8), Mov(1, f.reg, 8), Const(2, i.bytes), Bl(i.func)], 0)
  }

  function EmitAlloc(c: Ctx, dst: int, bytes: Word, init: Option<Opnd>): (o: Out)
    ensures Extends(c, o.ctx)
  {
    var s := Save(c, 0);
    var t := LoadTo(s.ctx, R(dst), 8);
    var v := if init.Some? then LoadTo(t.ctx, init.value, bytes) else Out(t.ctx, [], 0);
    var st := if init.Some? then [Str(v.reg, t.reg, bytes)] else [];
    var d := StoreTo(v.ctx, R(dst), t.reg, 8);
    Out(d.ctx, s.code + [Const(0, bytes), Bl("malloc")] + t.code + [Mov(t.reg, 0, 8)] + v.code + st + d.code, 0)
  }

  function EmitAllocArray(c: Ctx, dst: int, bytes: Word, count: Opnd, size: nat): (o: Out)
    ensures Extends(c, o.ctx)
  {
    var n := LoadTo(c, count, size);
    var t := GetTemp(n.ctx);
    var s := Save(t.ctx, 0);
    var r := TakeResult(s.ctx, dst, 8);
    Out(r.ctx, n.code + t.code + [Const(t.reg, bytes), A64.Alu(Ir.Mul, t.reg, n.reg, t.reg, 8)] + s.code
               + [Mov(0, t.reg, 8), Bl("malloc")] + r.code, 0)
  }

  function EmitFree(c: Ctx, ptr: Opnd): (o: Out)
    ensures Extends(c, o.ctx)
  {
    var p := LoadTo(c, ptr, 8);
    var s := Save(p.ctx, 0);
    var d := StoreTo(s.ctx, ptr, p.reg, 8);
    Out(d.ctx, p.code + s.code + [Mov(0, p.reg, 8), Bl("free"), Const(p.reg, 0)] + d.code, 0)
  }

  // Function entry

  /** A parameter and the operand it is moved to. */
  datatype Param = Param(to: Opnd, size: nat)

  /** Brings incoming argument number `k` into `dst`; those beyond the eighth are above the saved x29 and x30. */
  function LoadSlot(c: Ctx, k: nat, dst: XReg, size: nat): (o: Out)
    ensures Extends(c, o.ctx)
  {
    if k < 8 then Out(c, [Mov(dst, k, size)], dst)
    else
      var t := GetTemp(c);
      Out(t.ctx, t.code + [Const(t.reg, Wrap(16 + 8 * (k - 8))), AddFp(t.reg, t.reg), Ldr(dst, t.reg, size)], dst)
  }

  function EmitParam(c: Ctx, k: nat, p: Param): (o: Out)
    ensures Extends(c, o.ctx)
  {
    var t := GetTemp(c);
    var s := LoadSlot(t.ctx, k, t.reg, p.size);
    var d := StoreTo(s.ctx, p.to, t.reg, p.size);
    Out(d.ctx, t.code + s.code + d.code, 0)
  }

  /** Moves incoming arguments `k`, `k + 1`, ... to their parameters. */
  function EmitParams(c: Ctx, k: nat, params: seq<Param>): (o: Out)
    decreases |params|
    ensures Extends(c, o.ctx)
  {
    if params == [] then Out(c, [], 0)
    else
      var a := EmitParam(c, k, params[0]);
      var rest := EmitParams(a.ctx, k + 1, params[1..]);
      Out(rest.ctx, a.code + rest.code, 0)
  }

  function Emit(c: Ctx, i: Ins): (o: Out)
    ensures Extends(c, o.ctx)
  {
    match i
    case Assign(to, from, size) => EmitAssign(c, to, from, size)
    case Bin(op, dst, lhs, rhs, size) => EmitBin(c, op, dst, lhs, rhs, size)
    case Mod(dst, lhs, rhs, size) => EmitMod(c, dst, lhs, rhs, size)
    case Neg(dst, from, size) => EmitNeg(c, dst, from, size)
    case Not(dst, from, size) => EmitNot(c, dst, from, size)
    case Cmp(cond, dst, lhs, rhs, size) => EmitCmp(c, cond, dst, lhs, rhs, size)
    case Load(dst, addr, size) => EmitLoad(c, dst, addr, size)
    case Store(addr, from, size) => EmitStore(c, addr, from, size)
    case AddrOf(dst, v) => EmitAddrOf(c, dst, v)
    case Call(_, _, _, _, _) => EmitCall(c, i)
    case MemCall(_, _, _, _, _) => EmitMemCall(c, i)
    case Alloc(dst, bytes, init) => EmitAlloc(c, dst, bytes, init)
    case AllocArray(dst, bytes, count, size) => EmitAllocArray(c, dst, bytes, count, size)
    case Free(ptr) => EmitFree(c, ptr)
  }

  function EmitAll(c: Ctx, prog: seq<Ins>): (o: Out)
    decreases |prog|
    ensures Extends(c, o.ctx)
  {
    if prog == [] then Out(c, [], 0)
    else
      var a := Emit(c, prog[0]);
      var rest := EmitAll(a.ctx, prog[1..]);
      Out(rest.ctx, a.code + rest.code, 0)
  }

  /** The frame the function reserves once all its slots are known. */
  function FrameSize(c: Ctx): nat {
    RoundUp(c.used, 16)
  }
}
