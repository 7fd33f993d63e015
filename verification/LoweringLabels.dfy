/** Every jump the lowering emits has exactly one target. */
module LoweringLabels {
  import opened Options
  import opened Ir
  import opened Source
  import opened Lowering

  /** Labels outside a statement that it may jump to. */
  predicate Outer(t: Targets, l: nat) {
    || (t.loop.Some? && (l == t.loop.value.cont || l == t.loop.value.brk))
    || t.epilogue == Some(l)
  }

  const Nowhere := Targets(None, None)

  /**
    `c` defines label `l` at most once and only when `l` was handed out between `f` and `g`;
    it jumps to `l` only when it defines `l` itself or `l` is an outer target.
   */
  predicate Closed(c: seq<Instr>, l: nat, f: Fresh, g: Fresh, t: Targets) {
    && Defs(c, l) <= 1
    && (Defs(c, l) > 0 ==> f.lbl <= l < g.lbl)
    && (Uses(c, l) > 0 ==> Defs(c, l) > 0 || Outer(t, l))
  }

  lemma Count3(a: seq<Instr>, b: seq<Instr>, c: seq<Instr>, l: nat)
    ensures Defs(a + b + c, l) == Defs(a, l) + Defs(b, l) + Defs(c, l)
    ensures Uses(a + b + c, l) == Uses(a, l) + Uses(b, l) + Uses(c, l)
  {
    CountConcat(a + b, c, l);
    CountConcat(a, b, l);
  }

  lemma CountSingle(i: Instr, l: nat)
    ensures Defs([i], l) == DefsOne(i, l) && Uses([i], l) == UsesOne(i, l)
  {
    CountNone([], l);
    assert [i] == [] + [i];
    CountLast([], i, l);
  }

  lemma CountPair(i: Instr, j: Instr, l: nat)
    ensures Defs([i, j], l) == DefsOne(i, l) + DefsOne(j, l)
    ensures Uses([i, j], l) == UsesOne(i, l) + UsesOne(j, l)
  {
    CountSingle(i, l);
    CountSingle(j, l);
    assert [i, j] == [i] + [j];
    CountConcat([i], [j], l);
  }

  lemma LogicalCount(isAnd: bool, dest: Operand, left: Operand, end: nat, evalRight: nat, right: Operand,
                     d: nat, l: nat)
    ensures var skip := SkipCode(isAnd, dest, left, end, evalRight);
      && Defs(skip, l) == (if !isAnd && l == evalRight then 1 else 0)
      && (Uses(skip, l) > 0 ==> l == end || (!isAnd && l == evalRight))
    ensures var join := JoinCode(dest, right, end, d);
      Defs(join, l) == (if l == end then 1 else 0) && Uses(join, l) == 0
  {
    var skip := SkipCode(isAnd, dest, left, end, evalRight);
    assert skip == if isAnd then [skip[0], skip[1]] else [skip[0], skip[1]] + [skip[2], skip[3]];
    CountPair(skip[0], skip[1], l);
    if !isAnd {
      CountPair(skip[2], skip[3], l);
      CountConcat([skip[0], skip[1]], [skip[2], skip[3]], l);
    }
    var join := JoinCode(dest, right, end, d);
    assert join == [join[0], join[1]] + [join[2]];
    CountPair(join[0], join[1], l);
    CountLast([join[0], join[1]], join[2], l);
  }

  lemma CallCount(before: seq<Instr>, ops: seq<Operand>, last: Instr, l: nat)
    requires last.LCall?
    ensures var c := before + [BeginPrep] + Pushes(ops) + [last];
      Defs(c, l) == Defs(before, l) && Uses(c, l) == Uses(before, l)
  {
    CountLast(before, BeginPrep, l);
    Count3(before + [BeginPrep], Pushes(ops), [last], l);
    CountNone(Pushes(ops), l);
  }

  lemma {:induction false} ExprLabels(e: Expr, f: Fresh, l: nat, r: ExprCode)
    requires r == LowerExpr(e, f)
    ensures Closed(r.code, l, f, r.next, Nowhere)
    decreases e, 1
  {
    match e
    case Lit(_) =>
    case Ident(_) =>
    case Binary(op, x, y) =>
      var a := LowerExpr(x, f);
      var b := LowerExpr(y, a.next);
      ExprLabels(x, f, l, a);
      ExprLabels(y, a.next, l, b);
      Count3(a.code, b.code, [Bin(op, b.next.reg, a.op, b.op)], l);
    case Logical(isAnd, x, y) => LogicalLabels(e, f, l, r);
    case Negate(o) =>
      var a := LowerExpr(o, f);
      ExprLabels(o, f, l, a);
      CountLast(a.code, Neg(a.next.reg, a.op), l);
    case LogicalNot(o) =>
      var a := LowerExpr(o, f);
      ExprLabels(o, f, l, a);
      CountLast(a.code, Not(a.next.reg, a.op), l);
    case Grouped(i) => ExprLabels(i, f, l, r);
    case Assignment(x, v) =>
      var a := LowerExpr(v, f);
      ExprLabels(v, f, l, a);
      CountPair(AddrOf(a.next.reg, Mangle(x)), Store(Reg(a.next.reg), a.op), l);
      CountConcat(a.code, [AddrOf(a.next.reg, Mangle(x)), Store(Reg(a.next.reg), a.op)], l);
    case Call(func, args, isVoid) =>
      var a := LowerArgs(args, f);
      ArgsLabels(args, f, l, a);
      CallCount(a.code, a.ops, LCall(if isVoid then None else Some(a.next.reg), func), l);
  }

  lemma {:induction false} LogicalLabels(e: Expr, f: Fresh, l: nat, r: ExprCode)
    requires e.Logical? && r == LowerExpr(e, f)
    ensures Closed(r.code, l, f, r.next, Nowhere)
    decreases e, 0
  {
    var dest := Var(Hidden(f.hidden));
    var f1 := f.(lbl := f.lbl + 1, hidden := f.hidden + 1);
    var a := LowerExpr(e.left, f1);
    var f2 := if e.isAnd then a.next else a.next.(lbl := a.next.lbl + 1);
    var b := LowerExpr(e.right, f2);
    ExprLabels(e.left, f1, l, a);
    ExprLabels(e.right, f2, l, b);
    LogicalCount(e.isAnd, dest, a.op, f.lbl, a.next.lbl, b.op, b.next.reg, l);
    var skip, join := SkipCode(e.isAnd, dest, a.op, f.lbl, a.next.lbl), JoinCode(dest, b.op, f.lbl, b.next.reg);
    Count3(a.code, skip, b.code, l);
    CountConcat(a.code + skip + b.code, join, l);
  }

  lemma {:induction false} ArgsLabels(es: Exprs, f: Fresh, l: nat, r: ArgsCode)
    requires r == LowerArgs(es, f)
    ensures Closed(r.code, l, f, r.next, Nowhere)
    decreases es, 1
  {
    if es.ConsExpr? {
      var a := LowerExpr(es.head, f);
      ExprLabels(es.head, f, l, a);
      ArgsLabels(es.tail, a.next, l, LowerArgs(es.tail, a.next));
      CountConcat(a.code, LowerArgs(es.tail, a.next).code, l);
    }
  }

  // Statements

  lemma {:induction false} StmtLabels(s: Stmt, f: Fresh, t: Targets, l: nat, r: StmtCode)
    requires Fits(s, t) && r == LowerStmt(s, f, t)
    ensures Closed(r.code, l, f, r.next, t)
    decreases s, 1
  {
    match s
    case ExprStmt(e) => ExprLabels(e, f, l, LowerExpr(e, f));
    case VarDecl(_, _) => DeclLabels(s, f, l, r);
    case Block(ss) => AllLabels(ss, f, t, l, r);
    case If(_, _, _) => IfLabels(s, f, t, l, r);
    case While(_, _) => WhileLabels(s, f, t, l, r);
    case For(_, _, _, _) => ForLabels(s, f, t, l, r);
    case Break =>
    case Continue =>
    case Switch(_, _) => SwitchLabels(s, f, t, l, r);
    case Print(es) => PrintLabels(es, f, l, r);
    case ReturnStmt(v) => ReturnLabels(v, f, t.epilogue.value, l, r);
    case ExitStmt(c) => ExitLabels(c, f, l, r);
  }

  lemma DeclLabels(s: Stmt, f: Fresh, l: nat, r: StmtCode)
    requires s.VarDecl? && r == LowerDecl(s, f)
    ensures Closed(r.code, l, f, r.next, Nowhere)
  {
    if s.init.Some? {
      var a := LowerExpr(s.init.value, f);
      ExprLabels(s.init.value, f, l, a);
      CountLast(a.code, Assign(Var(Mangle(s.name)), a.op), l);
    } else {
      CountNone(r.code, l);
    }
  }

  lemma ReturnLabels(v: Option<Expr>, f: Fresh, epilogue: nat, l: nat, r: StmtCode)
    requires r == LowerReturn(v, f, epilogue)
    ensures Closed(r.code, l, f, r.next, Targets(None, Some(epilogue)))
  {
    if v.Some? {
      var a := LowerExpr(v.value, f);
      ExprLabels(v.value, f, l, a);
      CountPair(Return(Some(a.op)), Goto(epilogue), l);
      CountConcat(a.code, [Return(Some(a.op)), Goto(epilogue)], l);
    } else {
      CountPair(Return(None), Goto(epilogue), l);
    }
  }

  lemma ExitLabels(c: Option<Expr>, f: Fresh, l: nat, r: StmtCode)
    requires r == LowerExit(c, f)
    ensures Closed(r.code, l, f, r.next, Nowhere)
  {
    if c.Some? {
      var a := LowerExpr(c.value, f);
      ExprLabels(c.value, f, l, a);
      CountLast(a.code, Exit(a.op), l);
    } else {
      CountNone(r.code, l);
    }
  }

  lemma {:induction false} AllLabels(ss: Stmts, f: Fresh, t: Targets, l: nat, r: StmtCode)
    requires FitsAll(ss, t) && r == LowerAll(ss, f, t)
    ensures Closed(r.code, l, f, r.next, t)
    decreases ss, 1
  {
    if ss.ConsStmt? {
      var a := LowerStmt(ss.head, f, t);
      var b := LowerAll(ss.tail, a.next, t);
      StmtLabels(ss.head, f, t, l, a);
      AllLabels(ss.tail, a.next, t, l, b);
      CountConcat(a.code, b.code, l);
    }
  }

  lemma {:induction false} IfLabels(s: Stmt, f: Fresh, t: Targets, l: nat, r: StmtCode)
    requires s.If? && Fits(s, t) && r == LowerIf(s, f, t)
    ensures Closed(r.code, l, f, r.next, t)
    decreases s, 0
  {
    var els := LowerExpr(s.cond, f).next.lbl;
    var end := els + 1;
    var c := LowerTest(Some(s.cond), els, f);
    var f1 := c.next.(lbl := end + 1);
    var a := LowerStmt(s.thenBranch, f1, t);
    TestLabels(Some(s.cond), els, f, l, c);
    StmtLabels(s.thenBranch, f1, t, l, a);
    CountSingle(Label(els), l);
    if s.elseBranch.None? {
      Count3(c.code, a.code, [Label(els)], l);
    } else {
      var b := LowerStmt(s.elseBranch.value, a.next, t);
      StmtLabels(s.elseBranch.value, a.next, t, l, b);
      CountPair(Goto(end), Label(els), l);
      Count3(c.code, a.code, [Goto(end), Label(els)], l);
      CountSingle(Label(end), l);
      Count3(c.code + a.code + [Goto(end), Label(els)], b.code, [Label(end)], l);
    }
  }

  lemma {:induction false} WhileLabels(s: Stmt, f: Fresh, t: Targets, l: nat, r: StmtCode)
    requires s.While? && Fits(s, t) && r == LowerWhile(s, f, t)
    ensures Closed(r.code, l, f, r.next, t)
    decreases s, 0
  {
    var start, end := f.lbl, f.lbl + 1;
    var c := LowerTest(Some(s.cond), end, f.(lbl := end + 1));
    var t1 := t.(loop := Some(LoopTargets(start, end)));
    var b := LowerStmt(s.body, c.next, t1);
    TestLabels(Some(s.cond), end, f.(lbl := end + 1), l, c);
    StmtLabels(s.body, c.next, t1, l, b);
    CountSingle(Label(start), l);
    CountPair(Goto(start), Label(end), l);
    Count3([Label(start)], c.code, b.code, l);
    CountConcat([Label(start)] + c.code + b.code, [Goto(start), Label(end)], l);
  }

  lemma {:induction false} ForLabels(s: Stmt, f: Fresh, t: Targets, l: nat, r: StmtCode)
    requires s.For? && Fits(s, t) && r == LowerFor(s, f, t)
    ensures Closed(r.code, l, f, r.next, t)
    decreases s, 0, 1
  {
    var a := if s.first.None? then StmtCode([], f) else LowerStmt(s.first.value, f, t);
    if s.first.Some? {
      StmtLabels(s.first.value, f, t, l, a);
    }
    var b := LowerForLoop(s, a.next, t);
    ForLoopLabels(s, a.next, t, l, b);
    CountConcat(a.code, b.code, l);
  }

  lemma {:induction false} ForLoopLabels(s: Stmt, f: Fresh, t: Targets, l: nat, r: StmtCode)
    requires s.For? && Fits(s, t) && r == LowerForLoop(s, f, t)
    ensures Closed(r.code, l, f, r.next, t)
    decreases s, 0, 0
  {
    hide LowerStmt, LowerTest, LowerExpr;
    var again, step, end := f.lbl, f.lbl + 1, f.lbl + 2;
    var c := LowerTest(s.test, end, f.(lbl := end + 1));
    var t1 := t.(loop := Some(LoopTargets(step, end)));
    var b := LowerStmt(s.body, c.next, t1);
    var i := LowerIter(s.iter, b.next);
    TestLabels(s.test, end, f.(lbl := end + 1), l, c);
    StmtLabels(s.body, c.next, t1, l, b);
    if s.iter.Some? {
      ExprLabels(s.iter.value, b.next, l, LowerExpr(s.iter.value, b.next));
    }
    ForCount(again, step, end, c.code, b.code, i.code, l);
  }

  lemma ForCount(again: nat, step: nat, end: nat, test: seq<Instr>, body: seq<Instr>, iter: seq<Instr>, l: nat)
    ensures var c := ForCode(again, step, end, test, body, iter);
      && Defs(c, l) == DefsOne(Label(again), l) + Defs(test, l) + Defs(body, l) + DefsOne(Label(step), l)
                       + Defs(iter, l) + DefsOne(Label(end), l)
      && Uses(c, l) == Uses(test, l) + Uses(body, l) + Uses(iter, l) + UsesOne(Goto(again), l)
  {
    CountSingle(Label(again), l);
    CountSingle(Label(step), l);
    CountSingle(Label(end), l);
    CountLast(iter, Goto(again), l);
    CountConcat([Label(step)], iter + [Goto(again)], l);
    Count3([Label(again)], test, body, l);
    Count3([Label(again)] + test + body, [Label(step)] + (iter + [Goto(again)]), [Label(end)], l);
  }

  lemma TestLabels(test: Option<Expr>, end: nat, f: Fresh, l: nat, r: StmtCode)
    requires r == LowerTest(test, end, f)
    ensures Closed(r.code, l, f, r.next, Targets(Some(LoopTargets(end, end)), None))
  {
    if test.Some? {
      var c := LowerExpr(test.value, f);
      ExprLabels(test.value, f, l, c);
      CountLast(c.code, IfZ(c.op, end), l);
    }
  }

  lemma {:induction false} PrintLabels(es: Exprs, f: Fresh, l: nat, r: StmtCode)
    requires r == LowerPrint(es, f)
    ensures Closed(r.code, l, f, r.next, Nowhere)
  {
    if es.ConsExpr? {
      var a := LowerExpr(es.head, f);
      var b := LowerPrint(es.tail, a.next);
      ExprLabels(es.head, f, l, a);
      PrintLabels(es.tail, a.next, l, b);
      assert PrintCall(a.op) == [] + [BeginPrep] + Pushes([Imm(1), a.op]) + [LCall(None, "print_int")];
      CallCount([], [Imm(1), a.op], LCall(None, "print_int"), l);
      Count3(a.code, PrintCall(a.op), b.code, l);
    }
  }

  // Switch

  /** Jumps from the comparisons go to the labels of the cases that have a value. */
  predicate ValueCase(cases: Cases, first: nat, l: nat) {
    match cases
    case NoCases => false
    case ConsCase(cond, _, rest) => (cond.Some? && l == first) || ValueCase(rest, first + 1, l)
  }

  lemma {:induction false} ValueCaseRange(cases: Cases, first: nat, l: nat)
    requires ValueCase(cases, first, l)
    ensures first <= l < first + CaseCount(cases)
    ensures DefaultLabel(cases, first) != Some(l)
  {
    if !(cases.cond.Some? && l == first) {
      ValueCaseRange(cases.tail, first + 1, l);
    }
  }

  lemma {:induction false} DispatchLabels(cases: Cases, subject: Operand, first: nat, f: Fresh, l: nat, r: StmtCode)
    requires r == LowerDispatch(cases, subject, first, f)
    ensures var c := r.code;
      Defs(c, l) <= 1 && (Defs(c, l) > 0 ==> f.lbl <= l < r.next.lbl) &&
      (Uses(c, l) > 0 ==> Defs(c, l) > 0 || ValueCase(cases, first, l))
  {
    if cases.ConsCase? {
      if cases.cond.None? {
        DispatchLabels(cases.tail, subject, first + 1, f, l, r);
      } else {
        var cmp := f.reg;
        var c := LowerExpr(cases.cond.value, f.(reg := cmp + 1));
        var d := LowerDispatch(cases.tail, subject, first + 1, c.next);
        ExprLabels(cases.cond.value, f.(reg := cmp + 1), l, c);
        DispatchLabels(cases.tail, subject, first + 1, c.next, l, d);
        CountPair(Bin(Cmp(CmpNe), cmp, subject, c.op), IfZ(Reg(cmp), first), l);
        Count3(c.code, [Bin(Cmp(CmpNe), cmp, subject, c.op), IfZ(Reg(cmp), first)], d.code, l);
      }
    }
  }

  lemma {:induction false} BodiesLabels(cases: Cases, first: nat, end: nat, f: Fresh, t: Targets, l: nat, r: StmtCode)
    requires FitsCases(cases, t) && r == LowerBodies(cases, first, end, f, t)
    requires first + CaseCount(cases) <= f.lbl
    ensures var c := r.code;
      Defs(c, l) <= 1 && (Defs(c, l) > 0 <== ValueCase(cases, first, l)) &&
      (Defs(c, l) > 0 ==> ValueCase(cases, first, l) || f.lbl <= l < r.next.lbl) &&
      (Uses(c, l) > 0 ==> Defs(c, l) > 0 || l == end || Outer(t, l))
    decreases cases, 1
  {
    if cases.ConsCase? {
      if cases.cond.None? {
        BodiesLabels(cases.tail, first + 1, end, f, t, l, r);
      } else {
        var b := LowerStmt(cases.body, f, t);
        var d := LowerBodies(cases.tail, first + 1, end, b.next, t);
        StmtLabels(cases.body, f, t, l, b);
        BodiesLabels(cases.tail, first + 1, end, b.next, t, l, d);
        if ValueCase(cases.tail, first + 1, l) {
          ValueCaseRange(cases.tail, first + 1, l);
        }
        CountSingle(Label(first), l);
        CountSingle(Goto(end), l);
        Count3([Label(first)], b.code, [Goto(end)], l);
        CountConcat([Label(first)] + b.code + [Goto(end)], d.code, l);
      }
    }
  }

  lemma {:induction false} SwitchLabels(s: Stmt, f: Fresh, t: Targets, l: nat, r: StmtCode)
    requires s.Switch? && Fits(s, t) && r == LowerSwitch(s, f, t)
    ensures Closed(r.code, l, f, r.next, t)
    decreases s, 0
  {
    var a := LowerExpr(s.subject, f);
    var b := LowerCases(s.cases, a.op, a.next, t);
    ExprLabels(s.subject, f, l, a);
    CasesLabels(s.cases, a.op, a.next, t, l, b);
    CountConcat(a.code, b.code, l);
  }

  lemma {:induction false} CasesLabels(cases: Cases, subject: Operand, f: Fresh, t: Targets, l: nat, r: StmtCode)
    requires FitsCases(cases, t) && r == LowerCases(cases, subject, f, t)
    ensures Closed(r.code, l, f, r.next, t)
    decreases cases, 2
  {
    var first, end := f.lbl, f.lbl + CaseCount(cases);
    var otherwise := OtherwiseLabel(cases, first, end);
    var d := LowerDispatch(cases, subject, first, f.(lbl := end + 1));
    var b := LowerBodies(cases, first, end, d.next, t);
    var z := LowerDefault(cases, otherwise, b.next, t);
    DispatchLabels(cases, subject, first, f.(lbl := end + 1), l, d);
    BodiesLabels(cases, first, end, d.next, t, l, b);
    DefaultLabels(cases, otherwise, b.next, t, l, z);
    if ValueCase(cases, first, l) {
      ValueCaseRange(cases, first, l);
    }
    SwitchCount(d.code, otherwise, b.code, z.code, end, l);
  }

  lemma {:induction false} DefaultLabels(cases: Cases, d: nat, f: Fresh, t: Targets, l: nat, r: StmtCode)
    requires FitsCases(cases, t) && r == LowerDefault(cases, d, f, t) && d < f.lbl
    ensures var c := r.code;
      Defs(c, l) <= 1 && (Defs(c, l) > 0 <== LastDefault(cases).Some? && l == d) &&
      (Defs(c, l) > 0 ==> (LastDefault(cases).Some? && l == d) || f.lbl <= l < r.next.lbl) &&
      (Uses(c, l) > 0 ==> Defs(c, l) > 0 || Outer(t, l))
    decreases cases, 1
  {
    if LastDefault(cases).None? {
      CountNone([], l);
    } else {
      PlacedDefault(cases, t.loop.Some?, t.epilogue.Some?);
      var z := LowerStmt(LastDefault(cases).value, f, t);
      StmtLabels(LastDefault(cases).value, f, t, l, z);
      CountSingle(Label(d), l);
      CountConcat([Label(d)], z.code, l);
    }
  }

  lemma SwitchCount(dispatch: seq<Instr>, otherwise: nat, bodies: seq<Instr>, default: seq<Instr>, end: nat, l: nat)
    ensures var c := SwitchCode(dispatch, otherwise, bodies, default, end);
      && Defs(c, l) == Defs(dispatch, l) + Defs(bodies, l) + Defs(default, l) + DefsOne(Label(end), l)
      && Uses(c, l) == Uses(dispatch, l) + UsesOne(Goto(otherwise), l) + Uses(bodies, l) + Uses(default, l)
  {
    CountSingle(Goto(otherwise), l);
    CountSingle(Label(end), l);
    Count3(dispatch, [Goto(otherwise)], bodies, l);
    Count3(dispatch + [Goto(otherwise)] + bodies, default, [Label(end)], l);
  }

  /**
    In a lowered function every label is defined at most once, and every jump goes to a
    label the same function defines exactly once.
   */
  lemma {:induction false} FuncLabels(fn: Func, f: Fresh, l: nat)
    requires Placed(fn.body, false, true)
    ensures var c := LowerFunc(fn, f).code;
      Defs(c, l) <= 1 && (Defs(c, l) > 0 ==> f.lbl <= l < LowerFunc(fn, f).next.lbl) && (Uses(c, l) > 0 ==> Defs(c, l) == 1)
  {
    var t := Targets(None, Some(f.lbl));
    var b := LowerStmt(fn.body, f.(lbl := f.lbl + 1), t);
    StmtLabels(fn.body, f.(lbl := f.lbl + 1), t, l, b);
    ParamMovesCount(fn.params, 0, l);
    var head := [BeginFunc(FuncLabel(fn.name))];
    var last := if fn.retvar.Some? then Some(Var(Mangle(fn.retvar.value))) else None;
    Count3(head, ParamMoves(fn.params, 0), b.code, l);
    var front := head + ParamMoves(fn.params, 0) + b.code;
    assert front + [Return(last), Label(f.lbl), EndFunc] == front + [Return(last), Label(f.lbl)] + [EndFunc];
    CountPair(Return(last), Label(f.lbl), l);
    Count3(front, [Return(last), Label(f.lbl)], [EndFunc], l);
  }

  lemma {:induction false} ParamMovesCount(params: seq<Name>, i: nat, l: nat)
    requires i <= |params|
    ensures Defs(ParamMoves(params, i), l) == 0 && Uses(ParamMoves(params, i), l) == 0
    decreases |params| - i
  {
    if i < |params| {
      ParamMovesCount(params, i + 1, l);
      CountConcat([Assign(Var(Mangle(params[i])), Slot(i))], ParamMoves(params, i + 1), l);
    }
  }

  // Programs

  /** A whole program defines every label at most once, and every jump in it has its one target. */
  lemma {:induction false} ProgramLabels(fns: seq<Func>, f: Fresh, l: nat)
    requires AllPlaced(fns)
    ensures var r := LowerProgram(fns, f);
      && Defs(r.code, l) <= 1 && (Defs(r.code, l) > 0 ==> f.lbl <= l < r.next.lbl)
      && (Uses(r.code, l) > 0 ==> Defs(r.code, l) == 1)
  {
    hide LowerFunc;
    if fns == [] {
      CountNone([], l);
    } else {
      var a := LowerFunc(fns[0], f);
      FuncLabels(fns[0], f, l);
      ProgramLabels(fns[1..], a.next, l);
      CountConcat(a.code, LowerProgram(fns[1..], a.next).code, l);
    }
  }

  /** The label block of each function lies after those of the functions before it. */
  lemma {:induction false} FreshOrdered(fns: seq<Func>, f: Fresh, j: nat, k: nat)
    requires AllPlaced(fns) && j < k <= |fns|
    ensures LowerFunc(fns[j], FreshAt(fns, f, j)).next.lbl <= FreshAt(fns, f, k).lbl
  {
    hide LowerFunc;
    if j > 0 {
      FreshOrdered(fns[1..], LowerFunc(fns[0], f).next, j - 1, k - 1);
    }
  }

  /** A jump stays in its function: that function defines the target, once, and no other does. */
  lemma {:induction false} TargetInSameFunction(fns: seq<Func>, f: Fresh, j: nat, k: nat, l: nat)
    requires AllPlaced(fns) && j < |fns| && k < |fns| && Uses(CodeOf(fns, f, k), l) > 0
    ensures Defs(CodeOf(fns, f, k), l) == 1 && (j != k ==> Defs(CodeOf(fns, f, j), l) == 0)
  {
    hide LowerFunc;
    FuncLabels(fns[k], FreshAt(fns, f, k), l);
    FuncLabels(fns[j], FreshAt(fns, f, j), l);
    if j < k {
      FreshOrdered(fns, f, j, k);
    } else if k < j {
      FreshOrdered(fns, f, k, j);
    }
  }
}
