/** The AArch64 instructions the backend emits, and the machine that runs them. */
module A64 {
  import opened Options
  import opened Ir
  import opened Arith

  const TWO32: int := 0x1_0000_0000

  type Word = v: int | 0 <= v < TWO64
  type Byte = v: int | 0 <= v < 256
  type Mem = int -> Byte

  /** Register numbers: x0 to x30. */
  type XReg = r: nat | r < 31

  type XRegs = s: seq<Word> | |s| == 31 witness seq(31, _ => 0)

  // Memory, little-endian

  function Pow256(n: nat): (p: nat)
    ensures p > 0
  {
    if n == 0 then 1 else 256 * Pow256(n - 1)
  }

  function Read(mem: Mem, a: int, n: nat): (v: nat)
    ensures v < Pow256(n)
    decreases n
  {
    if n == 0 then 0 else mem(a) + 256 * Read(mem, a + 1, n - 1)
  }

  function ByteOf(v: nat, i: nat): Byte
  {
    if i == 0 then v % 256 else ByteOf(v / 256, i - 1)
  }

  function Write(mem: Mem, a: int, n: nat, v: nat): Mem {
    x => if a <= x < a + n then ByteOf(v, x - a) else mem(x)
  }

  lemma {:induction false} ReadSame(m1: Mem, m2: Mem, a: int, n: nat)
    requires forall x :: a <= x < a + n ==> m1(x) == m2(x)
    ensures Read(m1, a, n) == Read(m2, a, n)
    decreases n
  {
    if n > 0 {
      ReadSame(m1, m2, a + 1, n - 1);
    }
  }

  lemma {:induction false} ReadBytes(mem: Mem, a: int, n: nat, v: nat)
    requires v < Pow256(n) && forall i: nat :: i < n ==> mem(a + i) == ByteOf(v, i)
    ensures Read(mem, a, n) == v
    decreases n
  {
    if n > 0 {
      assert mem(a + 0) == ByteOf(v, 0);
      forall i: nat | i < n - 1
        ensures mem(a + 1 + i) == ByteOf(v / 256, i)
      {
        assert mem(a + (i + 1)) == ByteOf(v, i + 1);
      }
      ReadBytes(mem, a + 1, n - 1, v / 256);
    }
  }

  lemma {:induction false} ReadWritten(mem: Mem, a: int, n: nat, v: nat)
    requires v < Pow256(n)
    ensures Read(Write(mem, a, n, v), a, n) == v
  {
    ReadBytes(Write(mem, a, n, v), a, n, v);
  }

  lemma Pow256Of8()
    ensures Pow256(8) == TWO64 && Pow256(4) == TWO32 && Pow256(2) == 65536 && Pow256(1) == 256
  {
    assert Pow256(4) == 256 * Pow256(3) && Pow256(3) == 256 * Pow256(2) && Pow256(2) == 256 * Pow256(1);
    assert Pow256(8) == 256 * Pow256(7) && Pow256(7) == 256 * Pow256(6) && Pow256(6) == 256 * Pow256(5);
    assert Pow256(5) == 256 * Pow256(4);
  }

  predicate Scalar(size: nat) {
    size == 1 || size == 2 || size == 4 || size == 8
  }

  function Load(mem: Mem, a: int, size: nat): (v: Word)
    requires Scalar(size)
  {
    Pow256Of8();
    Read(mem, a, size)
  }

  /** Moves of less than 8 bytes go through the 32-bit view of a register. */
  function Narrow(v: Word, size: nat): Word {
    if size == 8 then v else v % TWO32
  }

  // Instructions

  datatype Asm =
    | Mov(dst: XReg, src: XReg, size: nat)
    | Const(dst: XReg, n: Word)
    | SubFp(dst: XReg, src: XReg)
    | AddFp(dst: XReg, src: XReg)
    | Ldr(dst: XReg, addr: XReg, size: nat)
    | Str(src: XReg, addr: XReg, size: nat)
    | Alu(op: ArithOp, dst: XReg, lhs: XReg, rhs: XReg, size: nat)
    | Msub(dst: XReg, lhs: XReg, rhs: XReg, from: XReg, size: nat)
    | NegX(dst: XReg, src: XReg, size: nat)
    | CmpX(lhs: XReg, rhs: XReg, size: nat)
    | CmpZero(lhs: XReg, size: nat)
    | Cset(dst: XReg, cond: CmpOp)
    | LoadAddr(dst: XReg, symbol: string)
    | SubSp(bytes: nat)
    | AddSp(bytes: nat)
    | StrSp(src: XReg, off: nat)
    | Bl(func: string)
    | Blr(target: XReg)

  datatype Callee = Direct(func: string) | Through(addr: Word)

  datatype Called = Called(callee: Callee, args: seq<Word>)

  /** The part of memory a callee may see and change. */
  type View = imap<int, Byte>

  /**
    What is outside the generated code: arithmetic, symbol addresses, and callees. A callee
    knows how many arguments it takes, answers from the calls so far, its arguments and the
    public memory, may change public memory, and leaves anything at all in x0-x17 and in the
    stack below the caller's.
   */
  datatype Host = Host(
    alu: (ArithOp, nat, Word, Word) -> Word,
    msub: (nat, Word, Word, Word) -> Word,
    neg: (nat, Word) -> Word,
    test: (CmpOp, nat, Word, Word) -> bool,
    symbol: string -> Word,
    arity: Callee -> nat,
    answer: (seq<Called>, Callee, seq<Word>, View) -> (Word, View),
    junkReg: (seq<Called>, nat) -> Word,
    junkMem: (seq<Called>, int) -> Byte,
    public: iset<int>,
    low: int)

  datatype Cpu = Cpu(x: XRegs, fp: int, sp: int, mem: Mem, flags: (nat, Word, Word), calls: seq<Called>)

  function Wrap(v: int): Word {
    v % TWO64
  }

  function Set(c: Cpu, r: XReg, v: Word): Cpu {
    c.(x := c.x[r := v])
  }

  ghost function PublicView(h: Host, mem: Mem): View {
    imap a | a in h.public :: mem(a)
  }

  ghost function Overlay(h: Host, mem: Mem, v: View): Mem {
    x => if x in h.public && x in v then v[x] else mem(x)
  }

  /** Where a callee finds its arguments: x0-x7, then 8-byte cells at the stack pointer. */
  function Argument(c: Cpu, i: nat): Word {
    if i < 8 then c.x[i] else Load(c.mem, c.sp + 8 * (i - 8), 8)
  }

  function Arguments(c: Cpu, n: nat): seq<Word> {
    seq(n, i requires 0 <= i < n => Argument(c, i))
  }

  ghost function Clobbered(h: Host, c: Cpu, ret: Word, i: nat): Word
    requires i < 31
  {
    if i == 0 then ret else if i <= 17 then h.junkReg(c.calls, i) else c.x[i]
  }

  ghost function Clobber(h: Host, c: Cpu, ret: Word): XRegs {
    seq(31, i requires 0 <= i < 31 => Clobbered(h, c, ret, i))
  }

  /** The stack rule of the AAPCS64: no call is made unless the stack pointer is a multiple of 16. */
  ghost function TryCall(h: Host, c: Cpu, callee: Callee): Cpu {
    if c.sp % 16 == 0 then DoCall(h, c, callee) else c
  }

  ghost function DoCall(h: Host, c: Cpu, callee: Callee): Cpu {
    var args := Arguments(c, h.arity(callee));
    var (ret, view) := h.answer(c.calls, callee, args, PublicView(h, c.mem));
    var mem := Overlay(h, c.mem, view);
    c.(x := Clobber(h, c, ret),
       mem := y => if h.low <= y < c.sp && y !in h.public then h.junkMem(c.calls, y) else mem(y),
       calls := c.calls + [Called(callee, args)])
  }

  ghost function Step(h: Host, i: Asm, c: Cpu): Cpu {
    match i
    case Mov(d, s, size) => Set(c, d, Narrow(c.x[s], size))
    case Const(d, n) => Set(c, d, n)
    case SubFp(d, s) => Set(c, d, Wrap(c.fp - c.x[s]))
    case AddFp(d, s) => Set(c, d, Wrap(c.fp + c.x[s]))
    case Ldr(d, a, size) => if Scalar(size) then Set(c, d, Load(c.mem, c.x[a], size)) else c
    case Str(s, a, size) => c.(mem := Write(c.mem, c.x[a], size, c.x[s]))
    case Alu(op, d, a, b, size) => Set(c, d, h.alu(op, size, c.x[a], c.x[b]))
    case Msub(d, a, b, f, size) => Set(c, d, h.msub(size, c.x[a], c.x[b], c.x[f]))
    case NegX(d, s, size) => Set(c, d, h.neg(size, c.x[s]))
    case CmpX(a, b, size) => c.(flags := (size, c.x[a], c.x[b]))
    case CmpZero(a, size) => c.(flags := (size, c.x[a], 0))
    case Cset(d, cond) => Set(c, d, if h.test(cond, c.flags.0, c.flags.1, c.flags.2) then 1 else 0)
    case LoadAddr(d, s) => Set(c, d, h.symbol(s))
    case SubSp(n) => c.(sp := c.sp - n)
    case AddSp(n) => c.(sp := c.sp + n)
    case StrSp(s, off) => c.(mem := Write(c.mem, c.sp + off, 8, c.x[s]))
    case Bl(f) => TryCall(h, c, Direct(f))
    case Blr(r) => TryCall(h, c, Through(c.x[r]))
  }

  /** The states code passes through, first to last. */
  ghost predicate IsTrace(h: Host, code: seq<Asm>, tr: seq<Cpu>) {
    |tr| == |code| + 1 && forall k :: 0 <= k < |code| ==> tr[k + 1] == Step(h, code[k], tr[k])
  }

  ghost predicate Goes(h: Host, code: seq<Asm>, m: Cpu, m': Cpu) {
    exists tr :: IsTrace(h, code, tr) && tr[0] == m && tr[|code|] == m'
  }

  lemma GoesNowhere(h: Host, m: Cpu)
    ensures Goes(h, [], m, m)
  {
    assert IsTrace(h, [], [m]);
  }

  lemma GoesOne(h: Host, i: Asm, m: Cpu) returns (m': Cpu)
    ensures m' == Step(h, i, m) && Goes(h, [i], m, m')
  {
    m' := Step(h, i, m);
    assert IsTrace(h, [i], [m, m']);
  }

  lemma GoesOn(h: Host, a: seq<Asm>, b: seq<Asm>, m: Cpu, m1: Cpu, m2: Cpu)
    requires Goes(h, a, m, m1) && Goes(h, b, m1, m2)
    ensures Goes(h, a + b, m, m2)
  {
    hide Step;
    var s :| IsTrace(h, a, s) && s[0] == m && s[|a|] == m1;
    var t :| IsTrace(h, b, t) && t[0] == m1 && t[|b|] == m2;
    var tr := s + t[1..];
    forall k | 0 <= k < |a + b|
      ensures tr[k + 1] == Step(h, (a + b)[k], tr[k])
    {
      if k < |a| {
        assert tr[k + 1] == s[k + 1];
      } else {
        var j := k - |a|;
        assert tr[k + 1] == t[j + 1] && tr[k] == t[j];
      }
    }
    assert IsTrace(h, a + b, tr);
    assert tr[|a + b|] == m2;
  }

  lemma GoesStep(h: Host, a: seq<Asm>, i: Asm, m: Cpu, m1: Cpu) returns (m': Cpu)
    requires Goes(h, a, m, m1)
    ensures m' == Step(h, i, m1) && Goes(h, a + [i], m, m')
  {
    m' := GoesOne(h, i, m1);
    GoesOn(h, a, [i], m, m1, m');
  }

  /** Code goes to one state only. */
  lemma GoesUnique(h: Host, code: seq<Asm>, m: Cpu, a: Cpu, b: Cpu)
    requires Goes(h, code, m, a) && Goes(h, code, m, b)
    ensures a == b
  {
    var s :| IsTrace(h, code, s) && s[0] == m && s[|code|] == a;
    var t :| IsTrace(h, code, t) && t[0] == m && t[|code|] == b;
    SameTrace(h, code, s, t, |code|);
  }

  lemma {:induction false} SameTrace(h: Host, code: seq<Asm>, s: seq<Cpu>, t: seq<Cpu>, k: nat)
    requires IsTrace(h, code, s) && IsTrace(h, code, t) && s[0] == t[0] && k <= |code|
    ensures s[k] == t[k]
  {
    hide Step;
    if k > 0 {
      SameTrace(h, code, s, t, k - 1);
      assert s[k - 1 + 1] == Step(h, code[k - 1], s[k - 1]) && t[k - 1 + 1] == Step(h, code[k - 1], t[k - 1]);
    }
  }
}
