/** Call preparations in lowered code: never nested, never interrupted. */
module LoweringPreps {
  import opened Options
  import opened Ir
  import opened Source
  import opened Lowering

  /** A preparation at `i`, its arguments, and its call at `j`, with nothing else in between. */
  predicate Group(code: seq<Instr>, i: int, j: int) {
    && 0 <= i < j < |code| && code[i].BeginPrep? && code[j].LCall?
    && forall k :: i < k < j ==> code[k].PushArg?
  }

  ghost predicate Begins(code: seq<Instr>, i: int) {
    exists j :: Group(code, i, j)
  }

  ghost predicate Inside(code: seq<Instr>, k: int) {
    exists i, j :: Group(code, i, j) && i < k <= j
  }

  /** Every preparation begins a group; arguments and calls occur only inside one; no function begins. */
  ghost predicate InGroups(code: seq<Instr>) {
    && (forall i :: 0 <= i < |code| && code[i].BeginPrep? ==> Begins(code, i))
    && (forall k :: 0 <= k < |code| && (code[k].PushArg? || code[k].LCall?) ==> Inside(code, k))
    && (forall k :: 0 <= k < |code| ==> !code[k].BeginFunc?)
  }

  predicate Plain(code: seq<Instr>) {
    forall k :: 0 <= k < |code| ==> !code[k].BeginPrep? && !code[k].PushArg? && !code[k].LCall? && !code[k].BeginFunc?
  }

  lemma GroupIn(code: seq<Instr>, more: seq<Instr>, at: nat, i: int, j: int)
    requires Group(code, i, j) && at + |code| <= |more| && forall k :: 0 <= k < |code| ==> more[at + k] == code[k]
    ensures Group(more, at + i, at + j)
  {
    forall k | at + i < k < at + j
      ensures more[k].PushArg?
    {
      assert more[at + (k - at)] == code[k - at];
    }
  }

  lemma BeginsIn(code: seq<Instr>, more: seq<Instr>, at: nat, i: int)
    requires Begins(code, i) && at + |code| <= |more| && forall k :: 0 <= k < |code| ==> more[at + k] == code[k]
    ensures Begins(more, at + i)
  {
    hide Group;
    var j :| Group(code, i, j);
    GroupIn(code, more, at, i, j);
  }

  lemma InsideIn(code: seq<Instr>, more: seq<Instr>, at: nat, k: int)
    requires Inside(code, k) && at + |code| <= |more| && forall n :: 0 <= n < |code| ==> more[at + n] == code[n]
    ensures Inside(more, at + k)
  {
    hide Group;
    var i, j :| Group(code, i, j) && i < k <= j;
    GroupIn(code, more, at, i, j);
  }

  lemma Joined(a: seq<Instr>, b: seq<Instr>)
    requires InGroups(a) && InGroups(b)
    ensures InGroups(a + b)
  {
    hide Group, Begins, Inside;
    var c := a + b;
    forall i | 0 <= i < |c| && c[i].BeginPrep?
      ensures Begins(c, i)
    {
      if i < |a| {
        BeginsIn(a, c, 0, i);
      } else {
        BeginsIn(b, c, |a|, i - |a|);
      }
    }
    forall k | 0 <= k < |c| && (c[k].PushArg? || c[k].LCall?)
      ensures Inside(c, k)
    {
      if k < |a| {
        InsideIn(a, c, 0, k);
      } else {
        InsideIn(b, c, |a|, k - |a|);
      }
    }
  }

  lemma WithPlain(a: seq<Instr>, b: seq<Instr>)
    requires InGroups(a) && Plain(b)
    ensures InGroups(a + b)
  {
    Joined(a, b);
  }

  lemma OneGroup(ops: seq<Operand>, last: Instr, c: seq<Instr>)
    requires last.LCall? && c == [BeginPrep] + Pushes(ops) + [last]
    ensures InGroups(c)
  {
    assert Group(c, 0, |ops| + 1);
  }

  lemma CallGrouped(before: seq<Instr>, ops: seq<Operand>, last: Instr)
    requires InGroups(before) && last.LCall?
    ensures InGroups(before + [BeginPrep] + Pushes(ops) + [last])
  {
    hide InGroups;
    var c := [BeginPrep] + Pushes(ops) + [last];
    OneGroup(ops, last, c);
    Joined(before, c);
    assert before + [BeginPrep] + Pushes(ops) + [last] == before + c;
  }

  // Expressions

  lemma {:induction false} ExprGrouped(e: Expr, f: Fresh, r: ExprCode)
    requires r == LowerExpr(e, f)
    ensures InGroups(r.code)
    decreases e, 1
  {
    hide InGroups;
    match e
    case Lit(_) => Nothing();
    case Ident(_) => Nothing();
    case Binary(op, x, y) =>
      var a := LowerExpr(x, f);
      var b := LowerExpr(y, a.next);
      ExprGrouped(x, f, a);
      ExprGrouped(y, a.next, b);
      Joined(a.code, b.code);
      WithPlain(a.code + b.code, [Bin(op, b.next.reg, a.op, b.op)]);
    case Logical(isAnd, x, y) => LogicalGrouped(e, f, r);
    case Negate(o) =>
      var a := LowerExpr(o, f);
      ExprGrouped(o, f, a);
      WithPlain(a.code, [Neg(a.next.reg, a.op)]);
    case LogicalNot(o) =>
      var a := LowerExpr(o, f);
      ExprGrouped(o, f, a);
      WithPlain(a.code, [Not(a.next.reg, a.op)]);
    case Grouped(i) => ExprGrouped(i, f, r);
    case Assignment(x, v) =>
      var a := LowerExpr(v, f);
      ExprGrouped(v, f, a);
      WithPlain(a.code, [AddrOf(a.next.reg, Mangle(x)), Store(Reg(a.next.reg), a.op)]);
    case Call(func, args, isVoid) =>
      var a := LowerArgs(args, f);
      ArgsGrouped(args, f, a);
      CallGrouped(a.code, a.ops, LCall(if isVoid then None else Some(a.next.reg), func));
  }

  lemma Nothing()
    ensures InGroups([])
  {
  }

  lemma PlainGrouped(code: seq<Instr>)
    requires Plain(code)
    ensures InGroups(code)
  {
  }

  lemma {:induction false} LogicalGrouped(e: Expr, f: Fresh, r: ExprCode)
    requires e.Logical? && r == LowerExpr(e, f)
    ensures InGroups(r.code)
    decreases e, 0
  {
    hide InGroups;
    var dest := Var(Hidden(f.hidden));
    var f1 := f.(lbl := f.lbl + 1, hidden := f.hidden + 1);
    var a := LowerExpr(e.left, f1);
    var f2 := if e.isAnd then a.next else a.next.(lbl := a.next.lbl + 1);
    var b := LowerExpr(e.right, f2);
    ExprGrouped(e.left, f1, a);
    ExprGrouped(e.right, f2, b);
    var skip, join := SkipCode(e.isAnd, dest, a.op, f.lbl, a.next.lbl), JoinCode(dest, b.op, f.lbl, b.next.reg);
    WithPlain(a.code, skip);
    Joined(a.code + skip, b.code);
    WithPlain(a.code + skip + b.code, join);
  }

  lemma {:induction false} ArgsGrouped(es: Exprs, f: Fresh, r: ArgsCode)
    requires r == LowerArgs(es, f)
    ensures InGroups(r.code)
    decreases es, 1
  {
    hide InGroups;
    if es.ConsExpr? {
      var a := LowerExpr(es.head, f);
      var b := LowerArgs(es.tail, a.next);
      ExprGrouped(es.head, f, a);
      ArgsGrouped(es.tail, a.next, b);
      Joined(a.code, b.code);
    } else {
      Nothing();
    }
  }

  // Statements

  lemma {:induction false} OptGrouped(e: Option<Expr>, f: Fresh, last: seq<Instr>)
    requires e.Some? && Plain(last)
    ensures InGroups(LowerExpr(e.value, f).code + last) && InGroups(LowerExpr(e.value, f).code)
  {
    hide InGroups;
    var a := LowerExpr(e.value, f);
    ExprGrouped(e.value, f, a);
    WithPlain(a.code, last);
  }

  lemma TestGrouped(test: Option<Expr>, end: nat, f: Fresh)
    ensures InGroups(LowerTest(test, end, f).code)
  {
    hide InGroups, LowerExpr;
    if test.Some? {
      OptGrouped(test, f, [IfZ(LowerExpr(test.value, f).op, end)]);
    } else {
      Nothing();
    }
  }

  lemma {:induction false} StmtGrouped(s: Stmt, f: Fresh, t: Targets, r: StmtCode)
    requires Fits(s, t) && r == LowerStmt(s, f, t)
    ensures InGroups(r.code)
    decreases s, 1
  {
    hide InGroups, LowerExpr, LowerIf, LowerWhile, LowerFor, LowerSwitch;
    match s
    case ExprStmt(e) => OptGrouped(Some(e), f, []);
    case VarDecl(_, _) => DeclGrouped(s, f, r);
    case Block(ss) => AllGrouped(ss, f, t, r);
    case If(_, _, _) => IfGrouped(s, f, t, r);
    case While(_, _) => WhileGrouped(s, f, t, r);
    case For(_, _, _, _) => ForGrouped(s, f, t, r);
    case Break => PlainGrouped(r.code);
    case Continue => PlainGrouped(r.code);
    case Switch(_, _) => SwitchGrouped(s, f, t, r);
    case Print(es) => PrintGrouped(es, f, r);
    case ReturnStmt(v) => ReturnGrouped(v, f, t.epilogue.value, r);
    case ExitStmt(c) => ExitGrouped(c, f, r);
  }

  lemma DeclGrouped(s: Stmt, f: Fresh, r: StmtCode)
    requires s.VarDecl? && r == LowerDecl(s, f)
    ensures InGroups(r.code)
  {
    hide InGroups, LowerExpr;
    if s.init.Some? {
      OptGrouped(s.init, f, [Assign(Var(Mangle(s.name)), LowerExpr(s.init.value, f).op)]);
    } else {
      PlainGrouped(r.code);
    }
  }

  lemma ReturnGrouped(v: Option<Expr>, f: Fresh, epilogue: nat, r: StmtCode)
    requires r == LowerReturn(v, f, epilogue)
    ensures InGroups(r.code)
  {
    hide InGroups, LowerExpr;
    if v.Some? {
      OptGrouped(v, f, [Return(Some(LowerExpr(v.value, f).op)), Goto(epilogue)]);
    } else {
      PlainGrouped(r.code);
    }
  }

  lemma ExitGrouped(c: Option<Expr>, f: Fresh, r: StmtCode)
    requires r == LowerExit(c, f)
    ensures InGroups(r.code)
  {
    hide InGroups, LowerExpr;
    if c.Some? {
      OptGrouped(c, f, [Exit(LowerExpr(c.value, f).op)]);
    } else {
      PlainGrouped(r.code);
    }
  }

  lemma {:induction false} PrintGrouped(es: Exprs, f: Fresh, r: StmtCode)
    requires r == LowerPrint(es, f)
    ensures InGroups(r.code)
    decreases es
  {
    hide InGroups, LowerExpr;
    if es.ConsExpr? {
      var a := LowerExpr(es.head, f);
      var b := LowerPrint(es.tail, a.next);
      ExprGrouped(es.head, f, a);
      PrintGrouped(es.tail, a.next, b);
      CallGrouped(a.code, [Imm(1), a.op], LCall(None, "print_int"));
      assert a.code + [BeginPrep] + Pushes([Imm(1), a.op]) + [LCall(None, "print_int")] == a.code + PrintCall(a.op);
      Joined(a.code + PrintCall(a.op), b.code);
    } else {
      Nothing();
    }
  }

  lemma {:induction false} AllGrouped(ss: Stmts, f: Fresh, t: Targets, r: StmtCode)
    requires FitsAll(ss, t) && r == LowerAll(ss, f, t)
    ensures InGroups(r.code)
    decreases ss, 1
  {
    hide InGroups, LowerStmt;
    if ss.ConsStmt? {
      var a := LowerStmt(ss.head, f, t);
      var b := LowerAll(ss.tail, a.next, t);
      StmtGrouped(ss.head, f, t, a);
      AllGrouped(ss.tail, a.next, t, b);
      Joined(a.code, b.code);
    } else {
      Nothing();
    }
  }

  lemma {:induction false} IfGrouped(s: Stmt, f: Fresh, t: Targets, r: StmtCode)
    requires s.If? && Fits(s, t) && r == LowerIf(s, f, t)
    ensures InGroups(r.code)
    decreases s, 0
  {
    hide InGroups, LowerExpr, LowerStmt, LowerTest;
    var els := LowerExpr(s.cond, f).next.lbl;
    var c := LowerTest(Some(s.cond), els, f);
    var a := LowerStmt(s.thenBranch, c.next.(lbl := els + 2), t);
    TestGrouped(Some(s.cond), els, f);
    StmtGrouped(s.thenBranch, c.next.(lbl := els + 2), t, a);
    Joined(c.code, a.code);
    if s.elseBranch.Some? {
      var b := LowerStmt(s.elseBranch.value, a.next, t);
      StmtGrouped(s.elseBranch.value, a.next, t, b);
      WithPlain(c.code + a.code, [Goto(els + 1), Label(els)]);
      Joined(c.code + a.code + [Goto(els + 1), Label(els)], b.code);
      WithPlain(c.code + a.code + [Goto(els + 1), Label(els)] + b.code, [Label(els + 1)]);
    } else {
      WithPlain(c.code + a.code, [Label(els)]);
    }
  }

  lemma {:induction false} WhileGrouped(s: Stmt, f: Fresh, t: Targets, r: StmtCode)
    requires s.While? && Fits(s, t) && r == LowerWhile(s, f, t)
    ensures InGroups(r.code)
    decreases s, 0
  {
    hide InGroups, LowerExpr, LowerStmt, LowerTest;
    var start, end := f.lbl, f.lbl + 1;
    var c := LowerTest(Some(s.cond), end, f.(lbl := end + 1));
    var t1 := t.(loop := Some(LoopTargets(start, end)));
    var b := LowerStmt(s.body, c.next, t1);
    TestGrouped(Some(s.cond), end, f.(lbl := end + 1));
    StmtGrouped(s.body, c.next, t1, b);
    PlainGrouped([Label(start)]);
    Joined([Label(start)], c.code);
    Joined([Label(start)] + c.code, b.code);
    WithPlain([Label(start)] + c.code + b.code, [Goto(start), Label(end)]);
  }

  lemma {:induction false} ForGrouped(s: Stmt, f: Fresh, t: Targets, r: StmtCode)
    requires s.For? && Fits(s, t) && r == LowerFor(s, f, t)
    ensures InGroups(r.code)
    decreases s, 0, 1
  {
    hide InGroups, LowerStmt, LowerForLoop;
    var a := if s.first.None? then StmtCode([], f) else LowerStmt(s.first.value, f, t);
    if s.first.Some? {
      StmtGrouped(s.first.value, f, t, a);
    } else {
      Nothing();
    }
    ForLoopGrouped(s, a.next, t, LowerForLoop(s, a.next, t));
    Joined(a.code, LowerForLoop(s, a.next, t).code);
  }

  lemma {:induction false} ForLoopGrouped(s: Stmt, f: Fresh, t: Targets, r: StmtCode)
    requires s.For? && Fits(s, t) && r == LowerForLoop(s, f, t)
    ensures InGroups(r.code)
    decreases s, 0, 0
  {
    hide InGroups, LowerExpr, LowerStmt, LowerTest, LowerIter;
    var again, step, end := f.lbl, f.lbl + 1, f.lbl + 2;
    var c := LowerTest(s.test, end, f.(lbl := end + 1));
    var t1 := t.(loop := Some(LoopTargets(step, end)));
    var b := LowerStmt(s.body, c.next, t1);
    var i := LowerIter(s.iter, b.next);
    TestGrouped(s.test, end, f.(lbl := end + 1));
    StmtGrouped(s.body, c.next, t1, b);
    IterGrouped(s.iter, b.next);
    PlainGrouped([Label(again)]);
    PlainGrouped([Label(step)]);
    Joined([Label(again)], c.code);
    Joined([Label(again)] + c.code, b.code);
    WithPlain(i.code, [Goto(again)]);
    Joined([Label(step)], i.code + [Goto(again)]);
    Joined([Label(again)] + c.code + b.code, [Label(step)] + (i.code + [Goto(again)]));
    WithPlain([Label(again)] + c.code + b.code + ([Label(step)] + (i.code + [Goto(again)])), [Label(end)]);
  }

  lemma IterGrouped(iter: Option<Expr>, f: Fresh)
    ensures InGroups(LowerIter(iter, f).code)
  {
    hide InGroups, LowerExpr;
    if iter.Some? {
      OptGrouped(iter, f, []);
    } else {
      Nothing();
    }
  }

  lemma {:induction false} SwitchGrouped(s: Stmt, f: Fresh, t: Targets, r: StmtCode)
    requires s.Switch? && Fits(s, t) && r == LowerSwitch(s, f, t)
    ensures InGroups(r.code)
    decreases s, 0
  {
    hide InGroups, LowerExpr, LowerCases;
    var a := LowerExpr(s.subject, f);
    ExprGrouped(s.subject, f, a);
    CasesGrouped(s.cases, a.op, a.next, t, LowerCases(s.cases, a.op, a.next, t));
    Joined(a.code, LowerCases(s.cases, a.op, a.next, t).code);
  }

  lemma {:induction false} CasesGrouped(cases: Cases, subject: Operand, f: Fresh, t: Targets, r: StmtCode)
    requires FitsCases(cases, t) && r == LowerCases(cases, subject, f, t)
    ensures InGroups(r.code)
    decreases cases, 2
  {
    hide InGroups, LowerDispatch, LowerBodies, LowerDefault;
    var first, end := f.lbl, f.lbl + CaseCount(cases);
    var otherwise := OtherwiseLabel(cases, first, end);
    var d := LowerDispatch(cases, subject, first, f.(lbl := end + 1));
    var b := LowerBodies(cases, first, end, d.next, t);
    var z := LowerDefault(cases, otherwise, b.next, t);
    DispatchGrouped(cases, subject, first, f.(lbl := end + 1));
    BodiesGrouped(cases, first, end, d.next, t);
    DefaultGrouped(cases, otherwise, b.next, t);
    WithPlain(d.code, [Goto(otherwise)]);
    Joined(d.code + [Goto(otherwise)], b.code);
    Joined(d.code + [Goto(otherwise)] + b.code, z.code);
    WithPlain(d.code + [Goto(otherwise)] + b.code + z.code, [Label(end)]);
  }

  lemma {:induction false} DispatchGrouped(cases: Cases, subject: Operand, first: nat, f: Fresh)
    ensures InGroups(LowerDispatch(cases, subject, first, f).code)
    decreases cases
  {
    hide InGroups, LowerExpr;
    match cases
    case NoCases => Nothing();
    case ConsCase(cond, _, rest) =>
      if cond.None? {
        DispatchGrouped(rest, subject, first + 1, f);
      } else {
        var c := LowerExpr(cond.value, f.(reg := f.reg + 1));
        var d := LowerDispatch(rest, subject, first + 1, c.next);
        var test := [Bin(Cmp(CmpNe), f.reg, subject, c.op), IfZ(Reg(f.reg), first)];
        OptGrouped(cond, f.(reg := f.reg + 1), test);
        DispatchGrouped(rest, subject, first + 1, c.next);
        Joined(c.code + test, d.code);
      }
  }

  lemma {:induction false} BodiesGrouped(cases: Cases, first: nat, end: nat, f: Fresh, t: Targets)
    requires FitsCases(cases, t)
    ensures InGroups(LowerBodies(cases, first, end, f, t).code)
    decreases cases, 1
  {
    hide InGroups, LowerStmt;
    match cases
    case NoCases => Nothing();
    case ConsCase(cond, body, rest) =>
      if cond.None? {
        BodiesGrouped(rest, first + 1, end, f, t);
      } else {
        var b := LowerStmt(body, f, t);
        var d := LowerBodies(rest, first + 1, end, b.next, t);
        StmtGrouped(body, f, t, b);
        BodiesGrouped(rest, first + 1, end, b.next, t);
        PlainGrouped([Label(first)]);
        Joined([Label(first)], b.code);
        WithPlain([Label(first)] + b.code, [Goto(end)]);
        Joined([Label(first)] + b.code + [Goto(end)], d.code);
      }
  }

  lemma {:induction false} DefaultGrouped(cases: Cases, l: nat, f: Fresh, t: Targets)
    requires FitsCases(cases, t)
    ensures InGroups(LowerDefault(cases, l, f, t).code)
    decreases cases, 1
  {
    hide InGroups, LowerStmt;
    if LastDefault(cases).Some? {
      PlacedDefault(cases, t.loop.Some?, t.epilogue.Some?);
      DefaultSmaller(cases);
      var z := LowerStmt(LastDefault(cases).value, f, t);
      StmtGrouped(LastDefault(cases).value, f, t, z);
      PlainGrouped([Label(l)]);
      Joined([Label(l)], z.code);
    } else {
      Nothing();
    }
  }

  lemma {:induction false} DefaultSmaller(cases: Cases)
    ensures LastDefault(cases).Some? ==> LastDefault(cases).value < cases
  {
  }

  lemma {:induction false} MovesPlain(params: seq<Name>, i: nat)
    requires i <= |params|
    ensures Plain(ParamMoves(params, i))
    decreases |params| - i
  {
    if i < |params| {
      MovesPlain(params, i + 1);
    }
  }

  /** A function begins under its label; after that each preparation is followed by its arguments and its call alone. */
  lemma {:induction false} FuncGrouped(fn: Func, f: Fresh)
    requires Placed(fn.body, false, true)
    ensures var code := LowerFunc(fn, f).code;
      |code| > 0 && code[0] == BeginFunc(FuncLabel(fn.name)) && InGroups(code[1..])
  {
    hide InGroups, LowerStmt, ParamMoves;
    var t := Targets(None, Some(f.lbl));
    var b := LowerStmt(fn.body, f.(lbl := f.lbl + 1), t);
    var last := if fn.retvar.Some? then Some(Var(Mangle(fn.retvar.value))) else None;
    var moves := ParamMoves(fn.params, 0);
    StmtGrouped(fn.body, f.(lbl := f.lbl + 1), t, b);
    MovesPlain(fn.params, 0);
    PlainGrouped(moves);
    Joined(moves, b.code);
    WithPlain(moves + b.code, [Return(last), Label(f.lbl), EndFunc]);
    var code := LowerFunc(fn, f).code;
    assert code == [BeginFunc(FuncLabel(fn.name))] + (moves + b.code + [Return(last), Label(f.lbl), EndFunc]);
  }

  /** So preparations do not nest and no label falls inside one. */
  lemma {:induction false} PreparationsUninterrupted(fn: Func, f: Fresh, i: nat) returns (j: nat)
    requires Placed(fn.body, false, true) && i < |LowerFunc(fn, f).code| && LowerFunc(fn, f).code[i].BeginPrep?
    ensures var code := LowerFunc(fn, f).code;
      && i < j < |code| && code[j].LCall?
      && forall k :: i < k < j ==> !code[k].BeginPrep? && !code[k].Label? && !code[k].LCall?
  {
    hide LowerFunc, InGroups, Inside;
    FuncGrouped(fn, f);
    var code := LowerFunc(fn, f).code;
    PrepBegins(code[1..], i - 1);
    BeginsIn(code[1..], code, 1, i - 1);
    j :| Group(code, i, j);
  }

  lemma PrepBegins(code: seq<Instr>, i: nat)
    requires InGroups(code) && i < |code| && code[i].BeginPrep?
    ensures Begins(code, i)
  {
    hide Inside;
  }
}
