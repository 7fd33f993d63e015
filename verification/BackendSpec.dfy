/** The machine with one register per IR register, and what it means for generated code to follow it. */
module BackendSpec {
  import opened Options
  import opened Ir
  import opened A64
  import opened Backend
  import opened Arith

  /** The finished frame: frame pointer, all slots, the slot of each local, bytes in use. */
  datatype Layout = Layout(fp: int, slots: seq<FrameSlot>, vars: map<string, nat>, used: nat)

  function LayoutOf(fp: int, c: Ctx): Layout {
    Layout(fp, c.slots, c.vars, c.used)
  }

  /** The stack pointer between calls: below the frame, 16-byte aligned with the frame pointer. */
  function StackTop(l: Layout): int {
    l.fp - RoundUp(l.used, 16)
  }

  predicate InSlot(l: Layout, s: FrameSlot, y: int) {
    l.fp - s.off <= y < l.fp - s.off + s.size
  }

  /**
    Locals are public memory, spill slots and the stack below the frame are private. The
    slots are disjoint, so such a division always exists (`SoundDivisionExists`).
   */
  ghost predicate Sound(l: Layout, h: Host) {
    && 0 <= l.used <= l.fp < TWO64 && l.fp % 16 == 0
    && (forall s :: s in l.slots ==> s.size <= s.off <= l.used)
    && (forall x :: x in l.vars ==> l.vars[x] <= l.used)
    && (forall s, y :: s in l.slots && InSlot(l, s, y) ==> (y in h.public <==> !s.spill))
    && (forall y :: h.low <= y < StackTop(l) ==> y !in h.public)
  }

  /** One register per IR register; `seen` are the registers already defined. */
  datatype Abs = Abs(regs: map<int, Word>, seen: set<int>, mem: Mem, calls: seq<Called>)

  ghost predicate AllPublic(h: Host, a: int, n: nat) {
    forall y :: a <= y < a + n ==> y in h.public
  }

  function AddrVal(l: Layout, v: Local): Option<int> {
    if v.name in l.vars then Some(l.fp - l.vars[v.name]) else None
  }

  ghost function OpVal(l: Layout, h: Host, a: Abs, op: Opnd, size: nat): Option<Word> {
    match op
    case R(id) => if id in a.regs then Some(Narrow(a.regs[id], size)) else None
    case V(v) =>
      (match AddrVal(l, v)
       case Some(p) => if Scalar(size) && AllPublic(h, p, size) then Some(A64.Load(a.mem, p, size)) else None
       case None => None)
    case N(n) => Some(n)
    case Sym(s) => Some(h.symbol(s))
  }

  function Define(a: Abs, dst: int, v: Word): Option<Abs> {
    if dst in a.seen then None else Some(a.(regs := a.regs[dst := v], seen := a.seen + {dst}))
  }

  ghost function StoreMem(h: Host, a: Abs, p: int, size: nat, v: Word): Option<Abs> {
    if Scalar(size) && AllPublic(h, p, size) then Some(a.(mem := A64.Write(a.mem, p, size, v))) else None
  }

  ghost function AnswerOf(h: Host, a: Abs, callee: Callee, args: seq<Word>): (Word, View) {
    h.answer(a.calls, callee, args, PublicView(h, a.mem))
  }

  ghost function AfterCall(h: Host, a: Abs, callee: Callee, args: seq<Word>): Abs {
    a.(mem := Overlay(h, a.mem, AnswerOf(h, a, callee, args).1), calls := a.calls + [Called(callee, args)])
  }

  /** Argument `k` goes to a register through the view of its size, or whole to the stack. */
  function Passed(v: Word, k: nat, size: nat): Word {
    if k < 8 then Narrow(v, size) else v
  }

  ghost function ArgVals(l: Layout, h: Host, a: Abs, k: nat, args: seq<Arg>): Option<seq<Word>>
    decreases |args|
  {
    if args == [] then Some([])
    else
      match (OpVal(l, h, a, args[0].op, args[0].size), ArgVals(l, h, a, k + 1, args[1..]))
      case (Some(v), Some(vs)) => Some([Passed(v, k, args[0].size)] + vs)
      case _ => None
  }

  /** `None` when the instruction defines a register twice, reads one never defined, or leaves public memory. */
  ghost function AbsStep(l: Layout, h: Host, i: Ins, a: Abs): Option<Abs> {
    match i
    case Assign(to, from, size) =>
      (match OpVal(l, h, a, from, if from.V? then from.local.size else size)
       case None => None
       case Some(v) =>
         match to
         case R(id) => Define(a, id, Narrow(v, size))
         case V(x) => (match AddrVal(l, x) case Some(p) => StoreMem(h, a, p, size, v) case None => None)
         case _ => None)
    case Bin(op, dst, lhs, rhs, size) =>
      (match (OpVal(l, h, a, lhs, size), OpVal(l, h, a, rhs, size))
       case (Some(x), Some(y)) => Define(a, dst, h.alu(op, size, x, y))
       case _ => None)
    case Mod(dst, lhs, rhs, size) =>
      // x - (x / y) * y
      (match (OpVal(l, h, a, lhs, size), OpVal(l, h, a, rhs, size))
       case (Some(x), Some(y)) => Define(a, dst, h.msub(size, h.alu(Ir.Div, size, x, y), y, x))
       case _ => None)
    case Neg(dst, from, size) =>
      (match OpVal(l, h, a, from, size) case Some(x) => Define(a, dst, h.neg(size, x)) case None => None)
    case Not(dst, from, size) =>
      (match OpVal(l, h, a, from, size)
       case Some(x) => Define(a, dst, if h.test(CmpEq, size, x, 0) then 1 else 0)
       case None => None)
    case Cmp(cond, dst, lhs, rhs, size) =>
      (match (OpVal(l, h, a, lhs, size), OpVal(l, h, a, rhs, size))
       case (Some(x), Some(y)) => Define(a, dst, if h.test(cond, size, x, y) then 1 else 0)
       case _ => None)
    case Load(dst, addr, size) =>
      (match OpVal(l, h, a, addr, 8)
       case Some(p) =>
         if Scalar(size) && AllPublic(h, p, size) then Define(a, dst, A64.Load(a.mem, p, size)) else None
       case None => None)
    case Store(addr, from, size) =>
      (match (OpVal(l, h, a, addr, 8), OpVal(l, h, a, from, size))
       case (Some(p), Some(v)) => StoreMem(h, a, p, size, v)
       case _ => None)
    case AddrOf(dst, v) =>
      (match AddrVal(l, v) case Some(p) => Define(a, dst, Wrap(p)) case None => None)
    case Call(_, _, _, _, _) => AbsCall(l, h, i, a)
    case MemCall(f, addr, from, fromSize, bytes) =>
      (match (OpVal(l, h, a, addr, 8), OpVal(l, h, a, from, fromSize))
       case (Some(x), Some(y)) =>
         if h.arity(Direct(f)) == 3 then Some(AfterCall(h, a, Direct(f), [x, y, bytes])) else None
       case _ => None)
    case Alloc(dst, bytes, init) =>
      if h.arity(Direct("malloc")) != 1 then None
      else
        var p := AnswerOf(h, a, Direct("malloc"), [bytes]).0;
        (match Define(AfterCall(h, a, Direct("malloc"), [bytes]), dst, p)
         case None => None
         case Some(b) =>
           if init.None? then Some(b)
           else
             match OpVal(l, h, AfterCall(h, a, Direct("malloc"), [bytes]), init.value, bytes)
             case Some(v) => StoreMem(h, b, p, bytes, v)
             case None => None)
    case AllocArray(dst, bytes, count, size) =>
      (match OpVal(l, h, a, count, size)
       case None => None
       case Some(n) =>
         if h.arity(Direct("malloc")) != 1 then None
         else
           var args := [h.alu(Ir.Mul, 8, n, bytes)];
           Define(AfterCall(h, a, Direct("malloc"), args), dst, AnswerOf(h, a, Direct("malloc"), args).0))
    case Free(ptr) =>
      // the freed pointer is set to null
      (match OpVal(l, h, a, ptr, 8)
       case None => None
       case Some(p) =>
         if h.arity(Direct("free")) != 1 then None
         else
           var b := AfterCall(h, a, Direct("free"), [p]);
           match ptr
           case R(id) => Some(b.(regs := b.regs[id := 0]))
           case V(x) => (match AddrVal(l, x) case Some(q) => StoreMem(h, b, q, 8, 0) case None => None)
           case _ => None)
  }

  /** A register that a call goes through does not survive the call. */
  ghost function AbsCall(l: Layout, h: Host, i: Ins, a: Abs): Option<Abs>
    requires i.Call?
  {
    match ArgVals(l, h, a, 0, AllArgs(i.hidden, i.args))
    case None => None
    case Some(args) =>
      match (if i.target.Name? then Some(Direct(i.target.func)) else ThroughVal(OpVal(l, h, a, i.target.op, 8)))
      case None => None
      case Some(callee) =>
        if h.arity(callee) != |args| || StackTop(l) - ArgBytes(|args|) < h.low then None
        else
          var b := AfterCall(h, a, callee, args);
          var lost := if i.target.Value? && i.target.op.R? then {i.target.op.id} else {};
          var c := b.(regs := b.regs - lost);
          if i.result.None? then Some(c)
          else Define(c, i.result.value, Narrow(AnswerOf(h, a, callee, args).0, i.size))
  }

  function ThroughVal(v: Option<Word>): Option<Callee> {
    match v case Some(p) => Some(Through(p)) case None => None
  }

  ghost function AbsRun(l: Layout, h: Host, prog: seq<Ins>, a: Abs): Option<Abs>
    decreases |prog|
  {
    if prog == [] then Some(a)
    else
      match AbsStep(l, h, prog[0], a)
      case Some(b) => AbsRun(l, h, prog[1..], b)
      case None => None
  }

  // The allocator's invariant

  /** The two register maps are inverse and use temporaries only; nothing is in two places. */
  predicate MapsAgree(c: Ctx) {
    && (forall r :: r in c.holds ==> 9 <= r <= 15 && c.holds[r] in c.home && c.home[c.holds[r]] == r)
    && (forall i :: i in c.home ==> c.home[i] in c.holds && c.holds[c.home[i]] == i)
    && (forall i :: i in c.home ==> i !in c.spilled)
  }

  /** Slots follow each other without overlap; every location on record is one of them. */
  predicate SlotsOrdered(c: Ctx) {
    && (forall k :: 0 <= k < |c.slots| ==> c.slots[k].size <= c.slots[k].off <= c.used)
    && (forall j, k :: 0 <= j < k < |c.slots| ==> c.slots[j].off <= c.slots[k].off - c.slots[k].size)
    && (forall i :: i in c.spilled ==> FrameSlot(c.spilled[i], 8, true) in c.slots)
    && (forall i, j :: i in c.spilled && j in c.spilled && c.spilled[i] == c.spilled[j] ==> i == j)
  }

  ghost predicate VarsPlaced(c: Ctx) {
    forall x :: x in c.vars ==> exists s :: s in c.slots && s.off == c.vars[x] && !s.spill
  }

  ghost predicate Inv(c: Ctx) {
    MapsAgree(c) && SlotsOrdered(c) && VarsPlaced(c)
  }

  /** The part of the invariant that running the code relies on. */
  predicate Steady(c: Ctx) {
    && MapsAgree(c)
    && (forall i :: i in c.spilled ==> 8 <= c.spilled[i] <= c.used && FrameSlot(c.spilled[i], 8, true) in c.slots)
  }

  // Generated code against the unlimited machine

  ghost predicate Within(c: Ctx, l: Layout) {
    && c.slots <= l.slots && c.used <= l.used
    && forall x :: x in c.vars ==> x in l.vars && l.vars[x] == c.vars[x]
  }

  /** Every defined IR register is where the maps say, with its value; public memory is equal. */
  ghost predicate Follows(l: Layout, h: Host, c: Ctx, m: Cpu, a: Abs) {
    && m.fp == l.fp && m.calls == a.calls
    && (forall i :: i in a.regs ==> i in c.home || i in c.spilled)
    && (forall i :: i in a.regs && i in c.home ==> m.x[c.home[i]] == a.regs[i])
    && (forall i :: i in a.regs && i in c.spilled ==> A64.Load(m.mem, l.fp - c.spilled[i], 8) == a.regs[i])
    && (forall y :: y in h.public ==> m.mem(y) == a.mem(y))
    && (forall i :: i in c.home || i in c.spilled ==> i in a.seen)
  }

  ghost predicate Rel(l: Layout, h: Host, c: Ctx, m: Cpu, a: Abs) {
    Steady(c) && Within(c, l) && Sound(l, h) && Follows(l, h, c, m, a)
  }
}
