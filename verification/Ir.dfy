/** The three-address code and a machine with unlimited registers that runs it. */
module Ir {
  import opened Options

  datatype ArithOp = Add | Sub | Mul | Div | Mod | BitAnd | BitOr | BitXor | Shl | Shr

  datatype CmpOp = CmpEq | CmpNe | CmpLt | CmpLe | CmpGt | CmpGe

  datatype BinOp = Arith(arith: ArithOp) | Cmp(cmp: CmpOp)

  /** A source variable with the scope that declares it, or a hidden short-circuit result. */
  datatype VarName = User(ident: string, scope: nat) | Hidden(k: nat)

  datatype Operand =
    | Reg(id: nat)
    | Var(name: VarName)
    | Imm(val: int)
    | Slot(index: nat)

  datatype Instr =
    | BeginFunc(func: string)
    | EndFunc
    | Assign(dst: Operand, src: Operand)
    | Bin(op: BinOp, res: nat, lhs: Operand, rhs: Operand)
    | Neg(res: nat, src: Operand)
    | Not(res: nat, src: Operand)
    | AddrOf(res: nat, name: VarName)
    | Store(addr: Operand, src: Operand)
    | Label(lbl: nat)
    | Goto(lbl: nat)
    | IfZ(cond: Operand, lbl: nat)
    | BeginPrep
    | PushArg(src: Operand)
    | LCall(result: Option<nat>, callee: string)
    | Return(value: Option<Operand>)
    | Exit(code: Operand)

  /** One call that left the program, in the order the calls happen. */
  datatype Event = Event(callee: string, args: seq<int>)

  /**
    Everything outside the program. Arithmetic is left open (`None` is a trap such as
    division by zero), and so is what a callee answers, which may depend on every call
    made before it (`None` is a callee that does not come back).
   */
  datatype World = World(
    alu: (ArithOp, int, int) -> Option<int>,
    neg: int -> int,
    call: (seq<Event>, string, seq<int>) -> Option<int>)

  function Compare(c: CmpOp, a: int, b: int): int {
    var holds := match c
      case CmpEq => a == b
      case CmpNe => a != b
      case CmpLt => a < b
      case CmpLe => a <= b
      case CmpGt => a > b
      case CmpGe => a >= b;
    if holds then 1 else 0
  }

  function BinVal(w: World, op: BinOp, a: int, b: int): Option<int> {
    match op
    case Arith(o) => w.alu(o, a, b)
    case Cmp(c) => Some(Compare(c, a, b))
  }

  /** A register holds a number or the address of a variable. */
  datatype Value = Num(n: int) | Addr(name: VarName)

  datatype Machine = Machine(
    pc: nat,
    regs: map<nat, Value>,
    vars: map<VarName, int>,
    params: seq<int>,
    prep: Option<seq<int>>,
    ret: Option<int>,
    exited: Option<int>,
    trace: seq<Event>)

  function OperandVal(m: Machine, op: Operand): Option<Value> {
    match op
    case Reg(r) => if r in m.regs then Some(m.regs[r]) else None
    case Var(x) => if x in m.vars then Some(Num(m.vars[x])) else None
    case Imm(n) => Some(Num(n))
    case Slot(i) => if i < |m.params| then Some(Num(m.params[i])) else None
  }

  function NumVal(m: Machine, op: Operand): Option<int> {
    match OperandVal(m, op)
    case Some(Num(n)) => Some(n)
    case _ => None
  }

  /** Position of the first definition of a label, `|code|` when there is none. */
  function FindLabel(code: seq<Instr>, l: nat): (k: nat) {
    FindFrom(code, l, 0)
  }

  function FindFrom(code: seq<Instr>, l: nat, i: nat): (k: nat)
    requires i <= |code|
    decreases |code| - i
  {
    if i == |code| || code[i] == Label(l) then i else FindFrom(code, l, i + 1)
  }

  function Write(m: Machine, dst: Operand, n: int): Option<Machine> {
    match dst
    case Reg(r) => Some(m.(pc := m.pc + 1, regs := m.regs[r := Num(n)]))
    case Var(x) => Some(m.(pc := m.pc + 1, vars := m.vars[x := n]))
    case _ => None
  }

  /** One machine step; `None` when the machine is finished or stuck. */
  function Step(w: World, code: seq<Instr>, m: Machine): Option<Machine> {
    if m.exited.Some? || m.pc >= |code| then None
    else
      match code[m.pc]
      case BeginFunc(_) => Some(m.(pc := m.pc + 1))
      case EndFunc => None
      case Label(_) => Some(m.(pc := m.pc + 1))
      case Assign(d, s) =>
        (match NumVal(m, s)
         case Some(n) => Write(m, d, n)
         case None => None)
      case Bin(op, r, a, b) =>
        (match (NumVal(m, a), NumVal(m, b))
         case (Some(x), Some(y)) =>
           (match BinVal(w, op, x, y)
            case Some(v) => Write(m, Reg(r), v)
            case None => None)
         case _ => None)
      case Neg(r, s) =>
        (match NumVal(m, s)
         case Some(n) => Write(m, Reg(r), w.neg(n))
         case None => None)
      case Not(r, s) =>
        (match NumVal(m, s)
         case Some(n) => Write(m, Reg(r), if n == 0 then 1 else 0)
         case None => None)
      case AddrOf(r, x) => Some(m.(pc := m.pc + 1, regs := m.regs[r := Addr(x)]))
      case Store(a, s) =>
        (match (OperandVal(m, a), NumVal(m, s))
         case (Some(Addr(x)), Some(n)) => Write(m, Var(x), n)
         case _ => None)
      case Goto(l) => Some(m.(pc := FindLabel(code, l)))
      case IfZ(c, l) =>
        (match NumVal(m, c)
         case Some(n) => Some(m.(pc := if n == 0 then FindLabel(code, l) else m.pc + 1))
         case None => None)
      case BeginPrep => if m.prep.Some? then None else Some(m.(pc := m.pc + 1, prep := Some([])))
      case PushArg(s) =>
        (match (m.prep, NumVal(m, s))
         case (Some(args), Some(n)) => Some(m.(pc := m.pc + 1, prep := Some(args + [n])))
         case _ => None)
      case LCall(res, f) =>
        (match m.prep
         case Some(args) =>
           (match w.call(m.trace, f, args)
            case Some(v) =>
              var back := m.(prep := None, trace := m.trace + [Event(f, args)]);
              if res.Some? then Write(back, Reg(res.value), v) else Some(back.(pc := m.pc + 1))
            case None => None)
         case None => None)
      case Return(src) =>
        (match src
         case Some(op) =>
           (match NumVal(m, op)
            case Some(n) => Some(m.(pc := m.pc + 1, ret := Some(n)))
            case None => None)
         case None => Some(m.(pc := m.pc + 1, ret := Some(0))))
      case Exit(op) =>
        (match NumVal(m, op)
         case Some(n) => Some(m.(exited := Some(n)))
         case None => None)
  }

  function Steps(w: World, code: seq<Instr>, m: Machine, n: nat): Option<Machine>
    decreases n
  {
    if n == 0 then Some(m)
    else
      match Step(w, code, m)
      case Some(m1) => Steps(w, code, m1, n - 1)
      case None => None
  }

  ghost predicate Reaches(w: World, code: seq<Instr>, m: Machine, m': Machine) {
    exists n: nat :: Steps(w, code, m, n) == Some(m')
  }

  lemma ReachesRefl(w: World, code: seq<Instr>, m: Machine)
    ensures Reaches(w, code, m, m)
  {
    assert Steps(w, code, m, 0) == Some(m);
  }

  lemma ReachesStep(w: World, code: seq<Instr>, m: Machine, m': Machine)
    requires Step(w, code, m) == Some(m')
    ensures Reaches(w, code, m, m')
  {
    assert Steps(w, code, m', 0) == Some(m');
    assert Steps(w, code, m, 1) == Some(m');
  }

  lemma {:induction false} StepsCompose(w: World, code: seq<Instr>, m: Machine, i: nat, j: nat)
    requires Steps(w, code, m, i).Some?
    ensures Steps(w, code, m, i + j) == Steps(w, code, Steps(w, code, m, i).value, j)
    decreases i
  {
    if i > 0 {
      StepsCompose(w, code, Step(w, code, m).value, i - 1, j);
    }
  }

  lemma ReachesTrans(w: World, code: seq<Instr>, a: Machine, b: Machine, c: Machine)
    requires Reaches(w, code, a, b) && Reaches(w, code, b, c)
    ensures Reaches(w, code, a, c)
  {
    var i: nat :| Steps(w, code, a, i) == Some(b);
    var j: nat :| Steps(w, code, b, j) == Some(c);
    StepsCompose(w, code, a, i, j);
    assert Steps(w, code, a, i + j) == Some(c);
  }

  /** The machine is deterministic, so a final machine state is the only one. */
  lemma FinalIsUnique(w: World, code: seq<Instr>, m: Machine, a: Machine, b: Machine)
    requires Reaches(w, code, m, a) && Step(w, code, a) == None
    requires Reaches(w, code, m, b) && Step(w, code, b) == None
    ensures a == b
  {
    var i: nat :| Steps(w, code, m, i) == Some(a);
    var j: nat :| Steps(w, code, m, j) == Some(b);
    if i < j {
      StepsCompose(w, code, m, i, j - i);
    } else {
      StepsCompose(w, code, m, j, i - j);
    }
  }

  // Labels

  function DefsOne(i: Instr, l: nat): nat {
    if i == Label(l) then 1 else 0
  }

  function UsesOne(i: Instr, l: nat): nat {
    match i
    case Goto(k) => if k == l then 1 else 0
    case IfZ(_, k) => if k == l then 1 else 0
    case _ => 0
  }

  /** How often `code` defines label `l`. */
  function Defs(code: seq<Instr>, l: nat): nat {
    |set k | 0 <= k < |code| && DefsOne(code[k], l) == 1|
  }

  /** How often `code` jumps to label `l`. */
  function Uses(code: seq<Instr>, l: nat): nat {
    |set k | 0 <= k < |code| && UsesOne(code[k], l) == 1|
  }

  ghost predicate UniqueLabels(code: seq<Instr>) {
    forall l: nat :: Defs(code, l) <= 1
  }

  lemma CountLast(a: seq<Instr>, i: Instr, l: nat)
    ensures Defs(a + [i], l) == Defs(a, l) + DefsOne(i, l)
    ensures Uses(a + [i], l) == Uses(a, l) + UsesOne(i, l)
  {
    DefsLast(a, i, l);
    UsesLast(a, i, l);
  }

  lemma DefsLast(a: seq<Instr>, i: Instr, l: nat)
    ensures Defs(a + [i], l) == Defs(a, l) + DefsOne(i, l)
  {
    var c := a + [i];
    var d := set k | 0 <= k < |a| && DefsOne(a[k], l) == 1;
    var e := set k | 0 <= k < |c| && DefsOne(c[k], l) == 1;
    assert forall k :: 0 <= k < |a| ==> c[k] == a[k];
    if DefsOne(i, l) == 1 {
      assert e == d + {|a|};
    } else {
      assert e == d;
    }
  }

  lemma UsesLast(a: seq<Instr>, i: Instr, l: nat)
    ensures Uses(a + [i], l) == Uses(a, l) + UsesOne(i, l)
  {
    var c := a + [i];
    var d := set k | 0 <= k < |a| && UsesOne(a[k], l) == 1;
    var e := set k | 0 <= k < |c| && UsesOne(c[k], l) == 1;
    assert forall k :: 0 <= k < |a| ==> c[k] == a[k];
    if UsesOne(i, l) == 1 {
      assert e == d + {|a|};
    } else {
      assert e == d;
    }
  }

  lemma {:induction false} CountConcat(a: seq<Instr>, b: seq<Instr>, l: nat)
    ensures Defs(a + b, l) == Defs(a, l) + Defs(b, l)
    ensures Uses(a + b, l) == Uses(a, l) + Uses(b, l)
    decreases |b|
  {
    if b == [] {
      assert a + b == a;
    } else {
      var n := |b| - 1;
      CountConcat(a, b[..n], l);
      assert a + b == (a + b[..n]) + [b[n]] && b == b[..n] + [b[n]];
      CountLast(a + b[..n], b[n], l);
      CountLast(b[..n], b[n], l);
    }
  }

  lemma CountNone(code: seq<Instr>, l: nat)
    requires forall i :: 0 <= i < |code| ==> DefsOne(code[i], l) == UsesOne(code[i], l) == 0
    ensures Defs(code, l) == 0 && Uses(code, l) == 0
  {
    assert (set k | 0 <= k < |code| && DefsOne(code[k], l) == 1) == {};
    assert (set k | 0 <= k < |code| && UsesOne(code[k], l) == 1) == {};
  }

  lemma DefsTwice(code: seq<Instr>, i: nat, k: nat, l: nat)
    requires i < k < |code| && code[i] == Label(l) && code[k] == Label(l)
    ensures Defs(code, l) > 1
  {
    var d := set j | 0 <= j < |code| && DefsOne(code[j], l) == 1;
    assert i in d && k in d - {i};
    assert |d| == |d - {i}| + 1;
  }

  /** With unique labels a jump lands on the one definition. */
  lemma FindLabelAt(code: seq<Instr>, k: nat, l: nat)
    requires k < |code| && code[k] == Label(l)
    requires Defs(code, l) <= 1
    ensures FindLabel(code, l) == k
  {
    FindFirst(code, 0, k, l);
    if FindLabel(code, l) != k {
      DefsTwice(code, FindLabel(code, l), k, l);
    }
  }

  lemma {:induction false} FindFirst(code: seq<Instr>, i: nat, k: nat, l: nat)
    requires i <= k < |code| && code[k] == Label(l)
    ensures FindFrom(code, l, i) <= k && code[FindFrom(code, l, i)] == Label(l)
    decreases k - i
  {
    if code[i] != Label(l) {
      FindFirst(code, i + 1, k, l);
    }
  }
}
