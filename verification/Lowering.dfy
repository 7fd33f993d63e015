/** Lowering of statements to three-address code: what each visit emits. */
module Lowering {
  import opened Options
  import opened Ir
  import opened Source
  import Decimal

  /** The fresh-name counters of the generator: registers, labels, hidden booleans. */
  datatype Fresh = Fresh(reg: nat, lbl: nat, hidden: nat)

  /** Code, the operand the visit leaves behind, and the counters after it. */
  datatype ExprCode = ExprCode(code: seq<Instr>, op: Operand, next: Fresh)

  datatype ArgsCode = ArgsCode(code: seq<Instr>, ops: seq<Operand>, next: Fresh)

  datatype StmtCode = StmtCode(code: seq<Instr>, next: Fresh)

  /** Jump targets of the innermost loop, and of `return`. */
  datatype Targets = Targets(loop: Option<LoopTargets>, epilogue: Option<nat>)

  datatype LoopTargets = LoopTargets(cont: nat, brk: nat)

  function Mangle(x: Name): VarName {
    User(x.id, x.scope)
  }

  /** How the generator spells a variable; variables are told apart by this string alone. */
  function Spelling(v: VarName): string {
    match v
    case User(ident, scope) => ident + "_" + Decimal.ToString(scope)
    case Hidden(k) => ".sc_result_" + Decimal.ToString(k)
  }

  /** Counters only go up, so a name handed out is never handed out again. */
  predicate Grows(f: Fresh, g: Fresh) {
    f.reg <= g.reg && f.lbl <= g.lbl && f.hidden <= g.hidden
  }

  function LowerExpr(e: Expr, f: Fresh): (r: ExprCode)
    ensures Grows(f, r.next)
    ensures r.op.Reg? ==> r.op.id < r.next.reg
  {
    match e
    case Lit(n) => ExprCode([], Imm(n), f)
    case Ident(x) => ExprCode([], Var(Mangle(x)), f)
    case Binary(op, l, r) =>
      var a := LowerExpr(l, f);
      var b := LowerExpr(r, a.next);
      var d := b.next.reg;
      ExprCode(a.code + b.code + [Bin(op, d, a.op, b.op)], Reg(d), b.next.(reg := d + 1))
    case Logical(isAnd, l, r) =>
      var end := f.lbl;
      var dest := Var(Hidden(f.hidden));
      var a := LowerExpr(l, f.(lbl := end + 1, hidden := f.hidden + 1));
      var evalRight := a.next.lbl;
      var b := LowerExpr(r, if isAnd then a.next else a.next.(lbl := evalRight + 1));
      var d := b.next.reg;
      ExprCode(a.code + SkipCode(isAnd, dest, a.op, end, evalRight) + b.code + JoinCode(dest, b.op, end, d),
               Reg(d), b.next.(reg := d + 1))
    case Negate(o) =>
      var a := LowerExpr(o, f);
      var d := a.next.reg;
      ExprCode(a.code + [Neg(d, a.op)], Reg(d), a.next.(reg := d + 1))
    case LogicalNot(o) =>
      var a := LowerExpr(o, f);
      var d := a.next.reg;
      ExprCode(a.code + [Not(d, a.op)], Reg(d), a.next.(reg := d + 1))
    case Grouped(i) => LowerExpr(i, f)
    case Assignment(x, r) =>
      var a := LowerExpr(r, f);
      var d := a.next.reg;
      ExprCode(a.code + [AddrOf(d, Mangle(x)), Store(Reg(d), a.op)], a.op, a.next.(reg := d + 1))
    case Call(func, args, isVoid) =>
      var a := LowerArgs(args, f);
      var d := a.next.reg;
      if isVoid then
        ExprCode(a.code + [BeginPrep] + Pushes(a.ops) + [LCall(None, func)], Imm(0), a.next)
      else
        ExprCode(a.code + [BeginPrep] + Pushes(a.ops) + [LCall(Some(d), func)],
                 Reg(d), a.next.(reg := d + 1))
  }

  /** Presets the hidden result and jumps over the right operand when the left one decides. */
  function SkipCode(isAnd: bool, dest: Operand, left: Operand, end: nat, evalRight: nat): seq<Instr> {
    if isAnd then [Assign(dest, Imm(0)), IfZ(left, end)]
    else [Assign(dest, Imm(1)), IfZ(left, evalRight), Goto(end), Label(evalRight)]
  }

  function JoinCode(dest: Operand, right: Operand, end: nat, d: nat): seq<Instr> {
    [Assign(dest, right), Label(end), Assign(Reg(d), dest)]
  }

  function LowerArgs(es: Exprs, f: Fresh): (r: ArgsCode)
    ensures Grows(f, r.next)
  {
    match es
    case NoExprs => ArgsCode([], [], f)
    case ConsExpr(e, rest) =>
      var a := LowerExpr(e, f);
      var b := LowerArgs(rest, a.next);
      ArgsCode(a.code + b.code, [a.op] + b.ops, b.next)
  }

  function Pushes(ops: seq<Operand>): (c: seq<Instr>)
    ensures |c| == |ops|
  {
    seq(|ops|, i requires 0 <= i < |ops| => PushArg(ops[i]))
  }

  /** What the checker guarantees: break and continue in loops, return in functions. */
  predicate Placed(s: Stmt, inLoop: bool, inFunc: bool) {
    match s
    case Block(ss) => PlacedAll(ss, inLoop, inFunc)
    case If(_, a, b) => Placed(a, inLoop, inFunc) && (b.Some? ==> Placed(b.value, inLoop, inFunc))
    case While(_, body) => Placed(body, true, inFunc)
    case For(first, _, _, body) =>
      (first.Some? ==> Placed(first.value, inLoop, inFunc)) && Placed(body, true, inFunc)
    case Break => inLoop
    case Continue => inLoop
    case Switch(_, cases) => PlacedCases(cases, inLoop, inFunc)
    case ReturnStmt(_) => inFunc
    case _ => true
  }

  predicate PlacedAll(ss: Stmts, inLoop: bool, inFunc: bool) {
    match ss
    case NoStmts => true
    case ConsStmt(s, rest) => Placed(s, inLoop, inFunc) && PlacedAll(rest, inLoop, inFunc)
  }

  predicate PlacedCases(cases: Cases, inLoop: bool, inFunc: bool) {
    match cases
    case NoCases => true
    case ConsCase(_, body, rest) => Placed(body, inLoop, inFunc) && PlacedCases(rest, inLoop, inFunc)
  }

  lemma {:induction false} PlacedDefault(cases: Cases, inLoop: bool, inFunc: bool)
    requires PlacedCases(cases, inLoop, inFunc)
    ensures LastDefault(cases).Some? ==> Placed(LastDefault(cases).value, inLoop, inFunc)
  {
    if cases.ConsCase? {
      PlacedDefault(cases.tail, inLoop, inFunc);
    }
  }

  predicate Fits(s: Stmt, t: Targets) { Placed(s, t.loop.Some?, t.epilogue.Some?) }

  predicate FitsAll(ss: Stmts, t: Targets) { PlacedAll(ss, t.loop.Some?, t.epilogue.Some?) }

  predicate FitsCases(cases: Cases, t: Targets) { PlacedCases(cases, t.loop.Some?, t.epilogue.Some?) }

  function LowerStmt(s: Stmt, f: Fresh, t: Targets): (r: StmtCode)
    requires Fits(s, t)
    ensures Grows(f, r.next)
    decreases s, 1
  {
    match s
    case ExprStmt(e) =>
      var a := LowerExpr(e, f);
      StmtCode(a.code, a.next)
    case VarDecl(_, _) => LowerDecl(s, f)
    case Block(ss) => LowerAll(ss, f, t)
    case If(_, _, _) => LowerIf(s, f, t)
    case While(_, _) => LowerWhile(s, f, t)
    case For(_, _, _, _) => LowerFor(s, f, t)
    case Break => StmtCode([Goto(t.loop.value.brk)], f)
    case Continue => StmtCode([Goto(t.loop.value.cont)], f)
    case Switch(_, _) => LowerSwitch(s, f, t)
    case Print(es) => LowerPrint(es, f)
    case ReturnStmt(r) => LowerReturn(r, f, t.epilogue.value)
    case ExitStmt(c) => LowerExit(c, f)
  }

  function LowerDecl(s: Stmt, f: Fresh): (r: StmtCode)
    requires s.VarDecl?
    ensures Grows(f, r.next)
  {
    if s.init.None? then StmtCode([Assign(Var(Mangle(s.name)), Imm(0))], f)
    else
      var a := LowerExpr(s.init.value, f);
      StmtCode(a.code + [Assign(Var(Mangle(s.name)), a.op)], a.next)
  }

  function LowerReturn(v: Option<Expr>, f: Fresh, epilogue: nat): (r: StmtCode)
    ensures Grows(f, r.next)
  {
    if v.None? then StmtCode([Return(None), Goto(epilogue)], f)
    else
      var a := LowerExpr(v.value, f);
      StmtCode(a.code + [Return(Some(a.op)), Goto(epilogue)], a.next)
  }

  function LowerExit(c: Option<Expr>, f: Fresh): (r: StmtCode)
    ensures Grows(f, r.next)
  {
    if c.None? then StmtCode([Exit(Imm(0))], f)
    else
      var a := LowerExpr(c.value, f);
      StmtCode(a.code + [Exit(a.op)], a.next)
  }

  function LowerIf(s: Stmt, f: Fresh, t: Targets): (r: StmtCode)
    requires s.If? && Fits(s, t)
    ensures Grows(f, r.next)
    decreases s, 0
  {
    var els := LowerExpr(s.cond, f).next.lbl;
    var end := els + 1;
    var c := LowerTest(Some(s.cond), els, f);
    var a := LowerStmt(s.thenBranch, c.next.(lbl := end + 1), t);
    if s.elseBranch.None? then StmtCode(c.code + a.code + [Label(els)], a.next)
    else
      var b := LowerStmt(s.elseBranch.value, a.next, t);
      StmtCode(c.code + a.code + [Goto(end), Label(els)] + b.code + [Label(end)], b.next)
  }

  function LowerWhile(s: Stmt, f: Fresh, t: Targets): (r: StmtCode)
    requires s.While? && Fits(s, t)
    ensures Grows(f, r.next)
    decreases s, 0
  {
    var start, end := f.lbl, f.lbl + 1;
    var c := LowerTest(Some(s.cond), end, f.(lbl := end + 1));
    var b := LowerStmt(s.body, c.next, t.(loop := Some(LoopTargets(start, end))));
    StmtCode([Label(start)] + c.code + b.code + [Goto(start), Label(end)], b.next)
  }

  function LowerFor(s: Stmt, f: Fresh, t: Targets): (r: StmtCode)
    requires s.For? && Fits(s, t)
    ensures Grows(f, r.next)
    decreases s, 0, 1
  {
    var a := if s.first.None? then StmtCode([], f) else LowerStmt(s.first.value, f, t);
    var b := LowerForLoop(s, a.next, t);
    StmtCode(a.code + b.code, b.next)
  }

  function LowerForLoop(s: Stmt, f: Fresh, t: Targets): (r: StmtCode)
    requires s.For? && Fits(s, t)
    ensures Grows(f, r.next)
    decreases s, 0, 0
  {
    var again, step, end := f.lbl, f.lbl + 1, f.lbl + 2;
    var c := LowerTest(s.test, end, f.(lbl := end + 1));
    var b := LowerStmt(s.body, c.next, t.(loop := Some(LoopTargets(step, end))));
    var i := LowerIter(s.iter, b.next);
    StmtCode(ForCode(again, step, end, c.code, b.code, i.code), i.next)
  }

  function LowerSwitch(s: Stmt, f: Fresh, t: Targets): (r: StmtCode)
    requires s.Switch? && Fits(s, t)
    ensures Grows(f, r.next)
    decreases s, 0
  {
    var a := LowerExpr(s.subject, f);
    var b := LowerCases(s.cases, a.op, a.next, t);
    StmtCode(a.code + b.code, b.next)
  }

  function LowerCases(cases: Cases, subject: Operand, f: Fresh, t: Targets): (r: StmtCode)
    requires FitsCases(cases, t)
    ensures Grows(f, r.next)
    decreases cases, 2
  {
    var first, end := f.lbl, f.lbl + CaseCount(cases);
    var otherwise := OtherwiseLabel(cases, first, end);
    var d := LowerDispatch(cases, subject, first, f.(lbl := end + 1));
    var b := LowerBodies(cases, first, end, d.next, t);
    var z := LowerDefault(cases, otherwise, b.next, t);
    StmtCode(SwitchCode(d.code, otherwise, b.code, z.code, end), z.next)
  }

  function OtherwiseLabel(cases: Cases, first: nat, end: nat): nat {
    var l := DefaultLabel(cases, first);
    if l.Some? then l.value else end
  }

  function LowerDefault(cases: Cases, l: nat, f: Fresh, t: Targets): (r: StmtCode)
    requires FitsCases(cases, t)
    ensures Grows(f, r.next)
    decreases cases, 1
  {
    if LastDefault(cases).None? then StmtCode([], f)
    else
      PlacedDefault(cases, t.loop.Some?, t.epilogue.Some?);
      var z := LowerStmt(LastDefault(cases).value, f, t);
      StmtCode([Label(l)] + z.code, z.next)
  }

  function ForCode(again: nat, step: nat, end: nat, test: seq<Instr>, body: seq<Instr>, iter: seq<Instr>): seq<Instr> {
    [Label(again)] + test + body + ([Label(step)] + (iter + [Goto(again)])) + [Label(end)]
  }

  /** Comparisons, the jump taken when none fits, the case bodies, the default body. */
  function SwitchCode(dispatch: seq<Instr>, otherwise: nat, bodies: seq<Instr>, default: seq<Instr>, end: nat)
    : seq<Instr>
  {
    dispatch + [Goto(otherwise)] + bodies + default + [Label(end)]
  }

  function LowerAll(ss: Stmts, f: Fresh, t: Targets): (r: StmtCode)
    requires FitsAll(ss, t)
    ensures Grows(f, r.next)
    decreases ss, 1
  {
    match ss
    case NoStmts => StmtCode([], f)
    case ConsStmt(s, rest) =>
      var a := LowerStmt(s, f, t);
      var b := LowerAll(rest, a.next, t);
      StmtCode(a.code + b.code, b.next)
  }

  /** A condition, if there is one, and the jump to `end` when it is zero. */
  function LowerTest(test: Option<Expr>, end: nat, f: Fresh): (r: StmtCode)
    ensures Grows(f, r.next)
  {
    if test.None? then StmtCode([], f)
    else
      var c := LowerExpr(test.value, f);
      StmtCode(c.code + [IfZ(c.op, end)], c.next)
  }

  function LowerIter(iter: Option<Expr>, f: Fresh): (r: StmtCode)
    ensures Grows(f, r.next)
  {
    if iter.None? then StmtCode([], f)
    else
      var c := LowerExpr(iter.value, f);
      StmtCode(c.code, c.next)
  }

  function CaseCount(cases: Cases): nat {
    match cases case NoCases => 0 case ConsCase(_, _, rest) => 1 + CaseCount(rest)
  }

  /** Case number i, the default included, owns label `first + i`. */
  function DefaultLabel(cases: Cases, first: nat): (l: Option<nat>)
    ensures l.Some? <==> LastDefault(cases).Some?
    ensures l.Some? ==> first <= l.value < first + CaseCount(cases)
  {
    match cases
    case NoCases => None
    case ConsCase(cond, _, rest) =>
      var l := DefaultLabel(rest, first + 1);
      if l.Some? then l else if cond.None? then Some(first) else None
  }

  /** The comparisons, one per case with a value. */
  function LowerDispatch(cases: Cases, subject: Operand, first: nat, f: Fresh): (r: StmtCode)
    ensures Grows(f, r.next)
  {
    match cases
    case NoCases => StmtCode([], f)
    case ConsCase(cond, _, rest) =>
      if cond.None? then LowerDispatch(rest, subject, first + 1, f)
      else
        var cmp := f.reg;
        var c := LowerExpr(cond.value, f.(reg := cmp + 1));
        var d := LowerDispatch(rest, subject, first + 1, c.next);
        StmtCode(c.code + [Bin(Cmp(CmpNe), cmp, subject, c.op), IfZ(Reg(cmp), first)] + d.code, d.next)
  }

  function LowerBodies(cases: Cases, first: nat, end: nat, f: Fresh, t: Targets): (r: StmtCode)
    requires FitsCases(cases, t)
    ensures Grows(f, r.next)
    decreases cases, 1
  {
    match cases
    case NoCases => StmtCode([], f)
    case ConsCase(cond, body, rest) =>
      if cond.None? then LowerBodies(rest, first + 1, end, f, t)
      else
        var b := LowerStmt(body, f, t);
        var d := LowerBodies(rest, first + 1, end, b.next, t);
        StmtCode([Label(first)] + b.code + [Goto(end)] + d.code, d.next)
  }

  function LowerPrint(es: Exprs, f: Fresh): (r: StmtCode)
    ensures Grows(f, r.next)
  {
    match es
    case NoExprs => StmtCode([], f)
    case ConsExpr(e, rest) =>
      var a := LowerExpr(e, f);
      var b := LowerPrint(rest, a.next);
      StmtCode(a.code + PrintCall(a.op) + b.code, b.next)
  }

  function PrintCall(op: Operand): seq<Instr> {
    [BeginPrep] + Pushes([Imm(1), op]) + [LCall(None, "print_int")]
  }

  function ParamMoves(params: seq<Name>, i: nat): seq<Instr>
    requires i <= |params|
    decreases |params| - i
  {
    if i == |params| then [] else [Assign(Var(Mangle(params[i])), Slot(i))] + ParamMoves(params, i + 1)
  }

  function FuncLabel(name: string): string {
    if name == "main" then name else "_" + name
  }

  function LowerFunc(fn: Func, f: Fresh): (r: StmtCode)
    requires Placed(fn.body, false, true)
    ensures Grows(f, r.next)
  {
    var epilogue := f.lbl;
    var b := LowerStmt(fn.body, f.(lbl := epilogue + 1), Targets(None, Some(epilogue)));
    var last := if fn.retvar.Some? then Some(Var(Mangle(fn.retvar.value))) else None;
    StmtCode([BeginFunc(FuncLabel(fn.name))] + ParamMoves(fn.params, 0) + b.code
             + [Return(last), Label(epilogue), EndFunc], b.next)
  }

  predicate AllPlaced(fns: seq<Func>) {
    forall k :: 0 <= k < |fns| ==> Placed(fns[k].body, false, true)
  }

  /** The functions of a program, one after another, with one set of counters. */
  function LowerProgram(fns: seq<Func>, f: Fresh): (r: StmtCode)
    requires AllPlaced(fns)
    ensures f.lbl <= r.next.lbl
  {
    if fns == [] then StmtCode([], f)
    else
      var a := LowerFunc(fns[0], f);
      var b := LowerProgram(fns[1..], a.next);
      StmtCode(a.code + b.code, b.next)
  }

  /** The counters when function number `k` is lowered. */
  function FreshAt(fns: seq<Func>, f: Fresh, k: nat): (g: Fresh)
    requires AllPlaced(fns) && k <= |fns|
    ensures f.lbl <= g.lbl
  {
    if k == 0 then f else FreshAt(fns[1..], LowerFunc(fns[0], f).next, k - 1)
  }

  /** The code of function number `k`. */
  function CodeOf(fns: seq<Func>, f: Fresh, k: nat): seq<Instr>
    requires AllPlaced(fns) && k < |fns|
  {
    LowerFunc(fns[k], FreshAt(fns, f, k)).code
  }
}
