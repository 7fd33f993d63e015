/** Lowered statements and functions run right. */
module LoweringStmts {
  import opened Options
  import opened Ir
  import opened Source
  import opened Lowering
  import opened LoweringExprs
  import opened LoweringLabels

  /** Where each way of leaving a statement puts the machine; `q` is the end of its code. */
  ghost predicate Stops(c: seq<Instr>, q: nat, t: Targets, oc: Outcome, m: Machine) {
    match oc
    case Normal => m.exited.None? && m.pc == q
    case Broke => m.exited.None? && t.loop.Some? && m.pc == FindLabel(c, t.loop.value.brk)
    case Continued => m.exited.None? && t.loop.Some? && m.pc == FindLabel(c, t.loop.value.cont)
    case Returned(v) =>
      m.exited.None? && t.epilogue.Some? && m.pc == FindLabel(c, t.epilogue.value) && m.ret == Some(v)
    case Exited(k) => m.exited == Some(k)
  }

  /** The machine runs from `m` to `m'` with the store, the calls and the exit of `run`. */
  ghost predicate Lands(w: World, c: seq<Instr>, q: nat, t: Targets, run: Run, m: Machine, m': Machine) {
    && run.Ran?
    && Reaches(w, c, m, m')
    && Agree(run.st.store, m'.vars) && m'.trace == run.st.trace
    && m'.prep.None? && m'.params == m.params
    && Stops(c, q, t, run.oc, m')
  }

  lemma LandsAfter(w: World, c: seq<Instr>, q: nat, t: Targets, run: Run, m: Machine, m1: Machine, m': Machine)
    requires Reaches(w, c, m, m1) && m1.params == m.params && Lands(w, c, q, t, run, m1, m')
    ensures Lands(w, c, q, t, run, m, m')
  {
    ReachesTrans(w, c, m, m1, m');
  }

  /** An expression whose value is used at once. */
  lemma ValueRuns(w: World, e: Expr, f: Fresh, a: ExprCode, c: seq<Instr>, p: nat, m: Machine, st: State, v: ValueResult)
    returns (m': Machine)
    requires a == LowerExpr(e, f) && Ready(c, p, a.code, m, st)
    requires v == EvalValue(w, OnUse, e, st) && v.Value?
    ensures Reaches(w, c, m, m') && After(m, m', p + |a.code|, v.st, f.reg)
    ensures NumVal(m', a.op) == Some(v.n)
  {
    var x := Eval(w, OnUse, e, st);
    m' := ExprRuns(w, e, f, a, c, p, m, st, x);
    HoldsValue(m', a.op, x.value, a.next.reg, x.st);
  }

  /** A condition and the jump that tests it. */
  lemma CondRuns(w: World, e: Expr, f: Fresh, a: ExprCode, l: nat, c: seq<Instr>, p: nat, m: Machine, st: State,
                 v: ValueResult)
    returns (m': Machine)
    requires a == LowerExpr(e, f) && Ready(c, p, a.code + [IfZ(a.op, l)], m, st)
    requires v == EvalValue(w, OnUse, e, st) && v.Value?
    ensures Reaches(w, c, m, m')
    ensures After(m, m', if v.n == 0 then FindLabel(c, l) else p + |a.code| + 1, v.st, f.reg)
  {
    AtSplit(c, p, a.code, [IfZ(a.op, l)]);
    AtOne(c, p + |a.code|, [IfZ(a.op, l)], 0);
    var m1 := ValueRuns(w, e, f, a, c, p, m, st, v);
    m' := m1.(pc := if v.n == 0 then FindLabel(c, l) else m1.pc + 1);
    Then(w, c, m, m1, m');
  }

  /** A machine standing on its next label steps over it. */
  lemma PassLabel(w: World, c: seq<Instr>, q: nat, l: nat, t: Targets, run: Run, m: Machine, m1: Machine)
    returns (m': Machine)
    requires q < |c| && c[q] == Label(l)
    requires Lands(w, c, q, t, run, m, m1)
    ensures Lands(w, c, q + 1, t, run, m, m')
  {
    m' := m1;
    if run.oc.Normal? {
      m' := m1.(pc := q + 1);
      Then(w, c, m, m1, m');
    }
  }

  /** A machine standing on a jump follows it. */
  lemma FollowGoto(w: World, c: seq<Instr>, q: nat, l: nat, t: Targets, run: Run, m: Machine, m1: Machine)
    returns (m': Machine)
    requires q < |c| && c[q] == Goto(l)
    requires Lands(w, c, q, t, run, m, m1)
    ensures Lands(w, c, FindLabel(c, l), t, run, m, m')
  {
    m' := m1;
    if run.oc.Normal? {
      m' := m1.(pc := FindLabel(c, l));
      Then(w, c, m, m1, m');
    }
  }

  lemma {:induction false} StmtRuns(w: World, s: Stmt, f: Fresh, t: Targets, r: StmtCode, c: seq<Instr>, p: nat,
                                    m: Machine, st: State, fuel: nat, run: Run)
    returns (m': Machine)
    requires Fits(s, t) && r == LowerStmt(s, f, t) && Ready(c, p, r.code, m, st)
    requires run == Exec(w, OnUse, s, st, fuel) && run.Ran?
    ensures Lands(w, c, p + |r.code|, t, run, m, m')
    decreases fuel, s, 3
  {
    match s
    case ExprStmt(e) =>
      var x := Eval(w, OnUse, e, st);
      m' := ExprRuns(w, e, f, LowerExpr(e, f), c, p, m, st, x);
    case VarDecl(_, _) => m' := DeclRuns(w, s, f, t, r, c, p, m, st, run);
    case Block(ss) => m' := AllRun(w, ss, f, t, r, c, p, m, st, fuel, run);
    case If(_, _, _) => m' := IfRuns(w, s, f, t, r, c, p, m, st, fuel, run);
    case While(_, _) => m' := WhileRuns(w, s, f, t, r, c, p, m, st, fuel, run);
    case For(_, _, _, _) => m' := ForRuns(w, s, f, t, r, c, p, m, st, fuel, run);
    case Break =>
      AtOne(c, p, r.code, 0);
      m' := m.(pc := FindLabel(c, t.loop.value.brk));
      ReachesStep(w, c, m, m');
    case Continue =>
      AtOne(c, p, r.code, 0);
      m' := m.(pc := FindLabel(c, t.loop.value.cont));
      ReachesStep(w, c, m, m');
    case Switch(_, _) => m' := SwitchRuns(w, s, f, t, r, c, p, m, st, fuel, run);
    case Print(es) => m' := PrintRuns(w, es, f, t, r, c, p, m, st, run);
    case ReturnStmt(v) => m' := ReturnRuns(w, s, f, t, r, c, p, m, st, run);
    case ExitStmt(_) => m' := ExitRuns(w, s, f, t, r, c, p, m, st, run);
  }

  lemma {:induction false} DeclRuns(w: World, s: Stmt, f: Fresh, t: Targets, r: StmtCode, c: seq<Instr>, p: nat,
                 m: Machine, st: State, run: Run)
    returns (m': Machine)
    requires s.VarDecl? && r == LowerDecl(s, f) && Ready(c, p, r.code, m, st)
    requires run == Exec(w, OnUse, s, st, 0) && run.Ran?
    ensures Lands(w, c, p + |r.code|, t, run, m, m')
  {
    if s.init.None? {
      AtOne(c, p, r.code, 0);
      m' := m.(pc := p + 1, vars := m.vars[Mangle(s.name) := 0]);
      ReachesStep(w, c, m, m');
    } else {
      var a := LowerExpr(s.init.value, f);
      var v := EvalValue(w, OnUse, s.init.value, st);
      var last := Assign(Var(Mangle(s.name)), a.op);
      AtSplit(c, p, a.code, [last]);
      AtOne(c, p + |a.code|, [last], 0);
      var m1 := ValueRuns(w, s.init.value, f, a, c, p, m, st, v);
      m' := m1.(pc := m1.pc + 1, vars := m1.vars[Mangle(s.name) := v.n]);
      Then(w, c, m, m1, m');
    }
  }

  lemma {:induction false} ReturnRuns(w: World, s: Stmt, f: Fresh, t: Targets, r: StmtCode, c: seq<Instr>, p: nat,
                   m: Machine, st: State, run: Run)
    returns (m': Machine)
    requires s.ReturnStmt? && t.epilogue.Some?
    requires r == LowerReturn(s.result, f, t.epilogue.value) && Ready(c, p, r.code, m, st)
    requires run == Exec(w, OnUse, s, st, 0) && run.Ran?
    ensures Lands(w, c, p + |r.code|, t, run, m, m')
  {
    hide LowerExpr, EvalValue, Reaches, UniqueLabels;
    var go := Goto(t.epilogue.value);
    var m1, m2 := m, m;
    if s.result.None? {
      AtOne(c, p, r.code, 0);
      AtOne(c, p, r.code, 1);
      m1 := m.(pc := p + 1, ret := Some(0));
      ReachesStep(w, c, m, m1);
    } else {
      var a := LowerExpr(s.result.value, f);
      var v := EvalValue(w, OnUse, s.result.value, st);
      AtSplit(c, p, a.code, [Return(Some(a.op)), go]);
      AtOne(c, p + |a.code|, [Return(Some(a.op)), go], 0);
      AtOne(c, p + |a.code|, [Return(Some(a.op)), go], 1);
      m2 := ValueRuns(w, s.result.value, f, a, c, p, m, st, v);
      m1 := m2.(pc := m2.pc + 1, ret := Some(v.n));
      Then(w, c, m, m2, m1);
    }
    m' := m1.(pc := FindLabel(c, t.epilogue.value));
    Then(w, c, m, m1, m');
  }

  lemma ExitRuns(w: World, s: Stmt, f: Fresh, t: Targets, r: StmtCode, c: seq<Instr>, p: nat,
                 m: Machine, st: State, run: Run)
    returns (m': Machine)
    requires s.ExitStmt? && r == LowerExit(s.exitCode, f) && Ready(c, p, r.code, m, st)
    requires run == Exec(w, OnUse, s, st, 0) && run.Ran?
    ensures Lands(w, c, p + |r.code|, t, run, m, m')
  {
    if s.exitCode.None? {
      AtOne(c, p, r.code, 0);
      m' := m.(exited := Some(0));
      ReachesStep(w, c, m, m');
    } else {
      var a := LowerExpr(s.exitCode.value, f);
      var v := EvalValue(w, OnUse, s.exitCode.value, st);
      AtSplit(c, p, a.code, [Exit(a.op)]);
      AtOne(c, p + |a.code|, [Exit(a.op)], 0);
      var m1 := ValueRuns(w, s.exitCode.value, f, a, c, p, m, st, v);
      m' := m1.(exited := Some(v.n));
      Then(w, c, m, m1, m');
    }
  }

  lemma {:induction false} PrintRuns(w: World, es: Exprs, f: Fresh, t: Targets, r: StmtCode, c: seq<Instr>, p: nat,
                                     m: Machine, st: State, run: Run)
    returns (m': Machine)
    requires r == LowerPrint(es, f) && Ready(c, p, r.code, m, st)
    requires run == ExecPrint(w, OnUse, es, st) && run.Ran?
    ensures Lands(w, c, p + |r.code|, t, run, m, m')
    decreases es
  {
    hide LowerExpr, Reaches, FindLabel, UniqueLabels, At, EvalValue;
    match es
    case NoExprs =>
      m' := m;
      ReachesRefl(w, c, m);
    case ConsExpr(e, rest) =>
      var a := LowerExpr(e, f);
      var b := LowerPrint(rest, a.next);
      AtSplit3(c, p, a.code, PrintCall(a.op), b.code);
      var v := EvalValue(w, OnUse, e, st);
      var m1 := ValueRuns(w, e, f, a, c, p, m, st, v);
      var m2 := PrintOneRuns(w, c, p + |a.code|, a.op, m1, v);
      ReachesTrans(w, c, m, m1, m2);
      var st2 := v.st.(trace := v.st.trace + [Event("print_int", [1, v.n])]);
      m' := PrintRuns(w, rest, a.next, t, b, c, p + |a.code| + |PrintCall(a.op)|, m2, st2, run);
      LandsAfter(w, c, p + |r.code|, t, run, m, m2, m');
  }

  lemma PrintOneRuns(w: World, c: seq<Instr>, p: nat, op: Operand, m: Machine, v: ValueResult)
    returns (m': Machine)
    requires v.Value? && At(c, p, PrintCall(op)) && m.pc == p && Matches(m, v.st)
    requires NumVal(m, op) == Some(v.n) && w.call(v.st.trace, "print_int", [1, v.n]).Some?
    ensures Reaches(w, c, m, m')
    ensures m' == m.(pc := p + |PrintCall(op)|, trace := m.trace + [Event("print_int", [1, v.n])])
  {
    var code := PrintCall(op);
    AtOne(c, p, code, 0);
    AtOne(c, p, code, 1);
    AtOne(c, p, code, 2);
    AtOne(c, p, code, 3);
    var m1 := m.(pc := p + 1, prep := Some([]));
    ReachesStep(w, c, m, m1);
    var m2 := m1.(pc := p + 2, prep := Some([1]));
    assert [] + [1] == [1];
    Then(w, c, m, m1, m2);
    var m3 := m2.(pc := p + 3, prep := Some([1, v.n]));
    assert [1] + [v.n] == [1, v.n];
    Then(w, c, m, m2, m3);
    m' := m3.(pc := p + 4, prep := None, trace := m.trace + [Event("print_int", [1, v.n])]);
    Then(w, c, m, m3, m');
  }

  lemma {:induction false} AllRun(w: World, ss: Stmts, f: Fresh, t: Targets, r: StmtCode, c: seq<Instr>, p: nat,
                                  m: Machine, st: State, fuel: nat, run: Run)
    returns (m': Machine)
    requires FitsAll(ss, t) && r == LowerAll(ss, f, t) && Ready(c, p, r.code, m, st)
    requires run == ExecAll(w, OnUse, ss, st, fuel) && run.Ran?
    ensures Lands(w, c, p + |r.code|, t, run, m, m')
    decreases fuel, ss, 3
  {
    match ss
    case NoStmts =>
      m' := m;
      ReachesRefl(w, c, m);
    case ConsStmt(s, rest) =>
      var a := LowerStmt(s, f, t);
      var b := LowerAll(rest, a.next, t);
      AtSplit(c, p, a.code, b.code);
      var x := Exec(w, OnUse, s, st, fuel);
      m' := StmtRuns(w, s, f, t, a, c, p, m, st, fuel, x);
      if x.oc.Normal? {
        var m1 := m';
        m' := AllRun(w, rest, a.next, t, b, c, p + |a.code|, m1, x.st, fuel, run);
        LandsAfter(w, c, p + |r.code|, t, run, m, m1, m');
      }
  }

  lemma {:induction false} IfRuns(w: World, s: Stmt, f: Fresh, t: Targets, r: StmtCode, c: seq<Instr>, p: nat,
                                  m: Machine, st: State, fuel: nat, run: Run)
    returns (m': Machine)
    requires s.If? && Fits(s, t) && r == LowerIf(s, f, t) && Ready(c, p, r.code, m, st)
    requires run == Exec(w, OnUse, s, st, fuel) && run.Ran?
    ensures Lands(w, c, p + |r.code|, t, run, m, m')
    decreases fuel, s, 2
  {
    hide LowerStmt, LowerTest, EvalValue, Reaches, FindLabel, At, Agree;
    var els := LowerExpr(s.cond, f).next.lbl;
    var cd := LowerTest(Some(s.cond), els, f);
    var f1 := cd.next.(lbl := els + 2);
    var a := LowerStmt(s.thenBranch, f1, t);
    var v := EvalValue(w, OnUse, s.cond, st);
    var q := p + |cd.code| + |a.code|;
    if s.elseBranch.None? {
      AtSplit3(c, p, cd.code, a.code, [Label(els)]);
      AtOne(c, q, [Label(els)], 0);
      FindLabelAt(c, q, els);
      var m1 := TestRuns(w, Some(s.cond), f, els, cd, c, p, m, st, v);
      if v.n == 0 {
        m' := m1;
      } else {
        m' := StmtRuns(w, s.thenBranch, f1, t, a, c, p + |cd.code|, m1, v.st, fuel, run);
        LandsAfter(w, c, q, t, run, m, m1, m');
      }
      m' := PassLabel(w, c, q, els, t, run, m, m');
    } else {
      m' := IfElseRuns(w, s, f, t, r, els, cd, f1, a, c, p, m, st, fuel, v, run);
    }
  }

  lemma {:induction false} IfElseRuns(w: World, s: Stmt, f: Fresh, t: Targets, r: StmtCode, els: nat, cd: StmtCode,
                                      f1: Fresh, a: StmtCode, c: seq<Instr>, p: nat, m: Machine, st: State, fuel: nat,
                                      v: ValueResult, run: Run)
    returns (m': Machine)
    requires s.If? && s.elseBranch.Some? && Fits(s, t) && cd == LowerTest(Some(s.cond), els, f)
    requires a == LowerStmt(s.thenBranch, f1, t)
    requires var b := LowerStmt(s.elseBranch.value, a.next, t);
      r.code == cd.code + a.code + [Goto(els + 1), Label(els)] + b.code + [Label(els + 1)]
    requires Ready(c, p, r.code, m, st) && v == EvalValue(w, OnUse, s.cond, st) && v.Value?
    requires run == Exec(w, OnUse, if v.n != 0 then s.thenBranch else s.elseBranch.value, v.st, fuel) && run.Ran?
    ensures Lands(w, c, p + |r.code|, t, run, m, m')
    decreases fuel, s, 1
  {
    hide LowerStmt, LowerTest, Exec, EvalValue, Reaches, FindLabel, UniqueLabels, At, Agree;
    var end := els + 1;
    var b := LowerStmt(s.elseBranch.value, a.next, t);
    var q := p + |cd.code| + |a.code|;
    IfElsePlaces(els, end, cd.code, a.code, b.code, c, p);
    var m1 := TestRuns(w, Some(s.cond), f, els, cd, c, p, m, st, v);
    if v.n != 0 {
      m' := StmtRuns(w, s.thenBranch, f1, t, a, c, p + |cd.code|, m1, v.st, fuel, run);
      LandsAfter(w, c, q, t, run, m, m1, m');
      m' := FollowGoto(w, c, q, end, t, run, m, m');
    } else {
      var m2 := m1.(pc := q + 2);
      Then(w, c, m, m1, m2);
      m' := StmtRuns(w, s.elseBranch.value, a.next, t, b, c, q + 2, m2, v.st, fuel, run);
      LandsAfter(w, c, q + 2 + |b.code|, t, run, m, m2, m');
    }
    m' := PassLabel(w, c, q + 2 + |b.code|, end, t, run, m, m');
  }

  lemma IfElsePlaces(els: nat, end: nat, test: seq<Instr>, yes: seq<Instr>, no: seq<Instr>, c: seq<Instr>, p: nat)
    requires At(c, p, test + yes + [Goto(end), Label(els)] + no + [Label(end)]) && UniqueLabels(c)
    ensures At(c, p, test) && At(c, p + |test|, yes) && At(c, p + |test| + |yes| + 2, no)
    ensures var q := p + |test| + |yes|;
      && q + 2 + |no| < |c| && c[q] == Goto(end) && c[q + 1] == Label(els) && c[q + 2 + |no|] == Label(end)
      && FindLabel(c, els) == q + 1 && FindLabel(c, end) == q + 2 + |no|
  {
    var q, mid := p + |test| + |yes|, [Goto(end), Label(els)];
    AtSplit3(c, p, test + yes + mid, no, [Label(end)]);
    AtSplit3(c, p, test, yes, mid);
    AtOne(c, q, mid, 0);
    AtOne(c, q, mid, 1);
    AtOne(c, q + 2 + |no|, [Label(end)], 0);
    FindLabelAt(c, q + 1, els);
    FindLabelAt(c, q + 2 + |no|, end);
  }

  // Loops

  lemma {:induction false} WhileRuns(w: World, s: Stmt, f: Fresh, t: Targets, r: StmtCode, c: seq<Instr>, p: nat,
                                     m: Machine, st: State, fuel: nat, run: Run)
    returns (m': Machine)
    requires s.While? && Fits(s, t) && r == LowerWhile(s, f, t) && Ready(c, p, r.code, m, st)
    requires run == Exec(w, OnUse, s, st, fuel) && run.Ran?
    ensures Lands(w, c, p + |r.code|, t, run, m, m')
    decreases fuel, s, 2
  {
    hide LowerStmt, LowerTest, EvalValue, Reaches, FindLabel, UniqueLabels, At, Agree;
    var start, end := f.lbl, f.lbl + 1;
    var f1 := f.(lbl := end + 1);
    var cd := LowerTest(Some(s.cond), end, f1);
    var t1 := t.(loop := Some(LoopTargets(start, end)));
    var b := LowerStmt(s.body, cd.next, t1);
    WhilePlaces(start, end, cd.code, b.code, c, p);
    var q := p + 1 + |cd.code| + |b.code|;
    var m0 := m.(pc := p + 1);
    ReachesStep(w, c, m, m0);
    var v := EvalValue(w, OnUse, s.cond, st);
    var m1 := TestRuns(w, Some(s.cond), f1, end, cd, c, p + 1, m0, st, v);
    ReachesTrans(w, c, m, m0, m1);
    if v.n == 0 {
      m' := PassLabel(w, c, q + 1, end, t, run, m, m1);
    } else {
      m' := WhileBodyRuns(w, s, f, t, r, b, cd.next, c, p, q, m1, v.st, fuel, run);
      LandsAfter(w, c, p + |r.code|, t, run, m, m1, m');
    }
  }

  /** From the start of a loop body to the end of its loop. */
  lemma {:induction false} WhileBodyRuns(w: World, s: Stmt, f: Fresh, t: Targets, r: StmtCode, b: StmtCode, g: Fresh,
                                         c: seq<Instr>, p: nat, q: nat, m: Machine, st: State, fuel: nat, run: Run)
    returns (m': Machine)
    requires s.While? && Fits(s, t) && r == LowerWhile(s, f, t) && At(c, p, r.code) && UniqueLabels(c)
    requires var t1 := t.(loop := Some(LoopTargets(f.lbl, f.lbl + 1)));
      b == LowerStmt(s.body, g, t1) && Ready(c, m.pc, b.code, m, st)
    requires q == m.pc + |b.code| && q + 1 < |c| && c[q] == Goto(f.lbl) && c[q + 1] == Label(f.lbl + 1)
    requires FindLabel(c, f.lbl) == p && FindLabel(c, f.lbl + 1) == q + 1 && p + |r.code| == q + 2
    requires run.Ran? && match Exec(w, OnUse, s.body, st, fuel)
      case NoRun => false
      case Ran(oc, st2) =>
        if oc.Broke? then run == Run.Ran(Normal, st2)
        else if !oc.Normal? && !oc.Continued? then run == Run.Ran(oc, st2)
        else fuel > 0 && run == Exec(w, OnUse, s, st2, fuel - 1)
    ensures Lands(w, c, q + 2, t, run, m, m')
    decreases fuel, s, 1
  {
    hide LowerStmt, Reaches, FindLabel, UniqueLabels, Agree;
    var t1 := t.(loop := Some(LoopTargets(f.lbl, f.lbl + 1)));
    var x := Exec(w, OnUse, s.body, st, fuel);
    var m1 := StmtRuns(w, s.body, g, t1, b, c, m.pc, m, st, fuel, x);
    m1 := FollowGoto(w, c, q, f.lbl, t1, x, m, m1);
    if x.oc.Broke? {
      m' := PassLabel(w, c, q + 1, f.lbl + 1, t, run, m, m1);
    } else if x.oc.Normal? || x.oc.Continued? {
      m' := WhileRuns(w, s, f, t, r, c, p, m1, x.st, fuel - 1, run);
      LandsAfter(w, c, q + 2, t, run, m, m1, m');
    } else {
      m' := m1;
    }
  }

  lemma WhilePlaces(start: nat, end: nat, test: seq<Instr>, body: seq<Instr>, c: seq<Instr>, p: nat)
    requires At(c, p, [Label(start)] + test + body + [Goto(start), Label(end)]) && UniqueLabels(c)
    ensures At(c, p + 1, test) && At(c, p + 1 + |test|, body)
    ensures var q := p + 1 + |test| + |body|;
      && q + 1 < |c| && c[p] == Label(start) && c[q] == Goto(start) && c[q + 1] == Label(end)
      && FindLabel(c, start) == p && FindLabel(c, end) == q + 1
  {
    var q, back := p + 1 + |test| + |body|, [Goto(start), Label(end)];
    AtSplit(c, p, [Label(start)] + test + body, back);
    AtSplit3(c, p, [Label(start)], test, body);
    AtOne(c, p, [Label(start)], 0);
    AtOne(c, q, back, 0);
    AtOne(c, q, back, 1);
    FindLabelAt(c, p, start);
    FindLabelAt(c, q + 1, end);
  }

  lemma {:induction false} ForRuns(w: World, s: Stmt, f: Fresh, t: Targets, r: StmtCode, c: seq<Instr>, p: nat,
                                   m: Machine, st: State, fuel: nat, run: Run)
    returns (m': Machine)
    requires s.For? && Fits(s, t) && r == LowerFor(s, f, t) && Ready(c, p, r.code, m, st)
    requires run == Exec(w, OnUse, s, st, fuel) && run.Ran?
    ensures Lands(w, c, p + |r.code|, t, run, m, m')
    decreases fuel, s, 2
  {
    hide LowerStmt, LowerForLoop, Reaches, FindLabel, UniqueLabels, At, Agree;
    if s.first.None? {
      var b := LowerForLoop(s, f, t);
      assert [] + b.code == b.code;
      m' := ForLoopRuns(w, s, f, t, b, c, p, m, st, fuel, run);
    } else {
      var a := LowerStmt(s.first.value, f, t);
      var b := LowerForLoop(s, a.next, t);
      AtSplit(c, p, a.code, b.code);
      var x := Exec(w, OnUse, s.first.value, st, fuel);
      m' := StmtRuns(w, s.first.value, f, t, a, c, p, m, st, fuel, x);
      if x.oc.Normal? {
        var m1 := m';
        m' := ForLoopRuns(w, s, a.next, t, b, c, p + |a.code|, m1, x.st, fuel, run);
        LandsAfter(w, c, p + |r.code|, t, run, m, m1, m');
      }
    }
  }

  lemma {:induction false} ForLoopRuns(w: World, s: Stmt, f: Fresh, t: Targets, r: StmtCode, c: seq<Instr>, p: nat,
                                       m: Machine, st: State, fuel: nat, run: Run)
    returns (m': Machine)
    requires s.For? && Fits(s, t) && r == LowerForLoop(s, f, t) && Ready(c, p, r.code, m, st)
    requires run == ExecFor(w, OnUse, s.test, s.iter, s.body, st, fuel) && run.Ran?
    ensures Lands(w, c, p + |r.code|, t, run, m, m')
    decreases fuel, s, 1
  {
    hide LowerStmt, LowerTest, LowerIter, Exec, EvalValue, Eval, Reaches, FindLabel, UniqueLabels, At, Agree;
    var again, step, end := f.lbl, f.lbl + 1, f.lbl + 2;
    var f1 := f.(lbl := end + 1);
    var cd := LowerTest(s.test, end, f1);
    var t1 := t.(loop := Some(LoopTargets(step, end)));
    var b := LowerStmt(s.body, cd.next, t1);
    var i := LowerIter(s.iter, b.next);
    ForPlaces(again, step, end, cd.code, b.code, i.code, c, p);
    var m0 := m.(pc := p + 1);
    ReachesStep(w, c, m, m0);
    var v := if s.test.Some? then EvalValue(w, OnUse, s.test.value, st) else ValueResult.Value(1, st);
    var m1 := TestRuns(w, s.test, f1, end, cd, c, p + 1, m0, st, v);
    ReachesTrans(w, c, m, m0, m1);
    if v.n == 0 {
      m' := PassLabel(w, c, p + |r.code| - 1, end, t, run, m, m1);
    } else {
      m' := ForBodyRuns(w, s, f, t, r, b, cd.next, c, p, m1, v.st, fuel, run);
      LandsAfter(w, c, p + |r.code|, t, run, m, m1, m');
    }
  }

  lemma {:induction false} ForBodyRuns(w: World, s: Stmt, f: Fresh, t: Targets, r: StmtCode, b: StmtCode, g: Fresh,
                                       c: seq<Instr>, p: nat, m: Machine, st: State, fuel: nat, run: Run)
    returns (m': Machine)
    requires s.For? && Fits(s, t) && r == LowerForLoop(s, f, t) && At(c, p, r.code) && UniqueLabels(c)
    requires var t1 := t.(loop := Some(LoopTargets(f.lbl + 1, f.lbl + 2)));
      b == LowerStmt(s.body, g, t1) && Ready(c, m.pc, b.code, m, st)
    requires FindLabel(c, f.lbl) == p && FindLabel(c, f.lbl + 1) == m.pc + |b.code| < |c|
    requires c[m.pc + |b.code|] == Label(f.lbl + 1)
    requires At(c, m.pc + |b.code| + 1, LowerIter(s.iter, b.next).code + [Goto(f.lbl)])
    requires FindLabel(c, f.lbl + 2) == p + |r.code| - 1 < |c| && c[p + |r.code| - 1] == Label(f.lbl + 2)
    requires run.Ran? && match Exec(w, OnUse, s.body, st, fuel)
      case NoRun => false
      case Ran(oc, st2) =>
        if oc.Broke? then run == Run.Ran(Normal, st2)
        else if !oc.Normal? && !oc.Continued? then run == Run.Ran(oc, st2)
        else
          var y := if s.iter.Some? then Eval(w, OnUse, s.iter.value, st2) else Done(Known(0), st2);
          y.Done? && fuel > 0 && run == ExecFor(w, OnUse, s.test, s.iter, s.body, y.st, fuel - 1)
    ensures Lands(w, c, p + |r.code|, t, run, m, m')
    decreases fuel, s, 0, 1
  {
    hide LowerStmt, LowerIter, Exec, Eval, Reaches, FindLabel, UniqueLabels, Agree;
    var t1 := t.(loop := Some(LoopTargets(f.lbl + 1, f.lbl + 2)));
    var x := Exec(w, OnUse, s.body, st, fuel);
    var m1 := StmtRuns(w, s.body, g, t1, b, c, m.pc, m, st, fuel, x);
    if x.oc.Broke? {
      m' := PassLabel(w, c, p + |r.code| - 1, f.lbl + 2, t, run, m, m1);
    } else if x.oc.Normal? || x.oc.Continued? {
      m' := ForAgainRuns(w, s, f, t, r, b.next, LowerIter(s.iter, b.next), c, p, m1, x.st, fuel, run);
      LandsAfter(w, c, p + |r.code|, t, run, m, m1, m');
    } else {
      m' := m1;
    }
  }

  /** From the continue label of a `for` loop to its end. */
  lemma {:induction false} ForAgainRuns(w: World, s: Stmt, f: Fresh, t: Targets, r: StmtCode, g: Fresh, i: StmtCode,
                                        c: seq<Instr>, p: nat, m: Machine, st: State, fuel: nat, run: Run)
    returns (m': Machine)
    requires s.For? && Fits(s, t) && r == LowerForLoop(s, f, t) && i == LowerIter(s.iter, g)
    requires At(c, p, r.code) && UniqueLabels(c) && FindLabel(c, f.lbl) == p
    requires m.pc < |c| && c[m.pc] == Label(f.lbl + 1) && At(c, m.pc + 1, i.code + [Goto(f.lbl)]) && Matches(m, st)
    requires var y := if s.iter.Some? then Eval(w, OnUse, s.iter.value, st) else Done(Known(0), st);
      y.Done? && fuel > 0 && run == ExecFor(w, OnUse, s.test, s.iter, s.body, y.st, fuel - 1) && run.Ran?
    ensures Lands(w, c, p + |r.code|, t, run, m, m')
    decreases fuel, s, 0, 0
  {
    var y := if s.iter.Some? then Eval(w, OnUse, s.iter.value, st) else Done(Known(0), st);
    var m1 := IterRuns(w, s.iter, g, i, c, m.pc, f.lbl + 1, f.lbl, m, st, y);
    m' := ForLoopRuns(w, s, f, t, r, c, p, m1, y.st, fuel - 1, run);
    LandsAfter(w, c, p + |r.code|, t, run, m, m1, m');
  }

  lemma ForPlaces(again: nat, step: nat, end: nat, test: seq<Instr>, body: seq<Instr>, iter: seq<Instr>,
                  c: seq<Instr>, p: nat)
    requires At(c, p, ForCode(again, step, end, test, body, iter)) && UniqueLabels(c)
    ensures At(c, p + 1, test) && At(c, p + 1 + |test|, body)
    ensures var q := p + 1 + |test| + |body|;
      && q < |c| && c[p] == Label(again) && c[q] == Label(step) && At(c, q + 1, iter + [Goto(again)])
      && FindLabel(c, again) == p && FindLabel(c, step) == q
    ensures var e := p + |ForCode(again, step, end, test, body, iter)| - 1;
      e < |c| && c[e] == Label(end) && FindLabel(c, end) == e
  {
    var q := p + 1 + |test| + |body|;
    var tail := [Label(step)] + (iter + [Goto(again)]);
    AtSplit3(c, p, [Label(again)] + test + body, tail, [Label(end)]);
    AtSplit3(c, p, [Label(again)], test, body);
    AtSplit(c, q, [Label(step)], iter + [Goto(again)]);
    AtOne(c, p, [Label(again)], 0);
    AtOne(c, q, [Label(step)], 0);
    AtOne(c, q + |tail|, [Label(end)], 0);
    FindLabelAt(c, p, again);
    FindLabelAt(c, q, step);
    FindLabelAt(c, q + |tail|, end);
  }

  lemma TestRuns(w: World, test: Option<Expr>, f: Fresh, end: nat, r: StmtCode, c: seq<Instr>, p: nat,
                 m: Machine, st: State, v: ValueResult)
    returns (m': Machine)
    requires r == LowerTest(test, end, f) && Ready(c, p, r.code, m, st)
    requires v == (if test.Some? then EvalValue(w, OnUse, test.value, st) else ValueResult.Value(1, st)) && v.Value?
    ensures Reaches(w, c, m, m')
    ensures After(m, m', if v.n == 0 then FindLabel(c, end) else p + |r.code|, v.st, f.reg)
  {
    if test.None? {
      m' := m;
      ReachesRefl(w, c, m);
    } else {
      m' := CondRuns(w, test.value, f, LowerExpr(test.value, f), end, c, p, m, st, v);
    }
  }

  /** From the continue label through the iteration expression back to the test. */
  lemma IterRuns(w: World, iter: Option<Expr>, f: Fresh, r: StmtCode, c: seq<Instr>, q: nat, step: nat, again: nat,
                 m: Machine, st: State, d: EvalResult)
    returns (m': Machine)
    requires r == LowerIter(iter, f) && UniqueLabels(c) && At(c, q + 1, r.code + [Goto(again)])
    requires q < |c| && c[q] == Label(step) && m.pc == q && Matches(m, st)
    requires d == (if iter.Some? then Eval(w, OnUse, iter.value, st) else Done(Known(0), st)) && d.Done?
    ensures Reaches(w, c, m, m') && After(m, m', FindLabel(c, again), d.st, 0)
  {
    AtSplit(c, q + 1, r.code, [Goto(again)]);
    AtOne(c, q + 1 + |r.code|, [Goto(again)], 0);
    var m1 := m.(pc := q + 1);
    ReachesStep(w, c, m, m1);
    var m2 := m1;
    if iter.Some? {
      m2 := ExprRuns(w, iter.value, f, LowerExpr(iter.value, f), c, q + 1, m1, st, d);
      ReachesTrans(w, c, m, m1, m2);
    }
    m' := m2.(pc := FindLabel(c, again));
    Then(w, c, m, m2, m');
  }

  // Switch

  lemma {:induction false} SwitchRuns(w: World, s: Stmt, f: Fresh, t: Targets, r: StmtCode, c: seq<Instr>, p: nat,
                                      m: Machine, st: State, fuel: nat, run: Run)
    returns (m': Machine)
    requires s.Switch? && Fits(s, t) && r == LowerSwitch(s, f, t) && Ready(c, p, r.code, m, st)
    requires run == Exec(w, OnUse, s, st, fuel) && run.Ran?
    ensures Lands(w, c, p + |r.code|, t, run, m, m')
    decreases fuel, s, 2
  {
    var a := LowerExpr(s.subject, f);
    var b := LowerCases(s.cases, a.op, a.next, t);
    AtSplit(c, p, a.code, b.code);
    var x := Eval(w, OnUse, s.subject, st);
    var m1 := ExprRuns(w, s.subject, f, a, c, p, m, st, x);
    m' := CasesRun(w, s.cases, a.op, a.next, t, b, c, p + |a.code|, m1, x, fuel, run);
    LandsAfter(w, c, p + |r.code|, t, run, m, m1, m');
  }

  /** What a switch does once its subject is evaluated. */
  function Selected(w: World, cases: Cases, x: EvalResult, fuel: nat): Run
    requires x.Done?
  {
    match Pick(w, OnUse, cases, x.value, x.st)
    case PickStuck => NoRun
    case NoneMatches(st2) =>
      (match LastDefault(cases)
       case None => Run.Ran(Normal, st2)
       case Some(d) => Exec(w, OnUse, d, st2, fuel))
    case Matched(_, b, st2) => Exec(w, OnUse, b, st2, fuel)
  }

  lemma {:induction false} CasesRun(w: World, cases: Cases, subject: Operand, f: Fresh, t: Targets, r: StmtCode,
                                    c: seq<Instr>, p: nat, m: Machine, x: EvalResult, fuel: nat, run: Run)
    returns (m': Machine)
    requires FitsCases(cases, t) && r == LowerCases(cases, subject, f, t)
    requires x.Done? && Ready(c, p, r.code, m, x.st) && Holds(m, subject, x.value, f.reg)
    requires run == Selected(w, cases, x, fuel) && run.Ran?
    ensures Lands(w, c, p + |r.code|, t, run, m, m')
    decreases fuel, cases, 2
  {
    hide LowerDispatch, LowerBodies, LowerDefault, Reaches, FindLabel, At, Agree;
    var first, end := f.lbl, f.lbl + CaseCount(cases);
    var f1 := f.(lbl := end + 1);
    var otherwise, d, b, z := CasesPlaces(cases, subject, f, t, r, c, p);
    var pick := Pick(w, OnUse, cases, x.value, x.st);
    var m1 := DispatchRuns(w, cases, subject, first, f1, d, c, p, m, x.value, x.st, f.reg, pick);
    m' := PickedRuns(w, cases, first, end, otherwise, d.next, t, b, z, c, p + |d.code| + 1, m1, x, pick, fuel, run);
    LandsAfter(w, c, p + |r.code| - 1, t, run, m, m1, m');
    m' := PassLabel(w, c, p + |r.code| - 1, end, t, run, m, m');
  }

  lemma CasesPlaces(cases: Cases, subject: Operand, f: Fresh, t: Targets, r: StmtCode, c: seq<Instr>, p: nat)
    returns (otherwise: nat, d: StmtCode, b: StmtCode, z: StmtCode)
    requires FitsCases(cases, t) && r == LowerCases(cases, subject, f, t) && At(c, p, r.code) && UniqueLabels(c)
    ensures var first, end := f.lbl, f.lbl + CaseCount(cases);
      && d == LowerDispatch(cases, subject, first, f.(lbl := end + 1))
      && b == LowerBodies(cases, first, end, d.next, t) && z == LowerDefault(cases, otherwise, b.next, t)
      && |r.code| == |d.code| + |b.code| + |z.code| + 2 && p + |r.code| <= |c|
      && c[p + |r.code| - 1] == Label(end) && FindLabel(c, end) == p + |r.code| - 1
    ensures At(c, p, d.code) && At(c, p + |d.code| + 1, b.code) && At(c, p + |d.code| + 1 + |b.code|, z.code)
    ensures c[p + |d.code|] == Goto(otherwise)
    ensures LastDefault(cases).None? ==> otherwise == f.lbl + CaseCount(cases)
  {
    hide FindLabel, At, CaseCount;
    var first, end := f.lbl, f.lbl + CaseCount(cases);
    otherwise := OtherwiseLabel(cases, first, end);
    d := LowerDispatch(cases, subject, first, f.(lbl := end + 1));
    b := LowerBodies(cases, first, end, d.next, t);
    z := LowerDefault(cases, otherwise, b.next, t);
    SwitchPlaces(d.code, otherwise, b.code, z.code, end, c, p);
  }

  /** From the end of the comparisons to the end of the switch. */
  lemma {:induction false} PickedRuns(w: World, cases: Cases, first: nat, end: nat, otherwise: nat, f: Fresh, t: Targets,
                                      b: StmtCode, z: StmtCode, c: seq<Instr>, p: nat, m: Machine, x: EvalResult,
                                      pick: PickResult, fuel: nat, run: Run)
    returns (m': Machine)
    requires FitsCases(cases, t) && b == LowerBodies(cases, first, end, f, t)
    requires z == LowerDefault(cases, otherwise, b.next, t)
    requires At(c, p, b.code) && At(c, p + |b.code|, z.code) && UniqueLabels(c) && 0 < p <= |c|
    requires c[p - 1] == Goto(otherwise) && FindLabel(c, end) == p + |b.code| + |z.code|
    requires LastDefault(cases).None? ==> otherwise == end
    requires x.Done? && pick == Pick(w, OnUse, cases, x.value, x.st) && !pick.PickStuck?
    requires m.pc == (if pick.Matched? then FindLabel(c, first + pick.k) else p - 1) && Matches(m, pick.st)
    requires run == Selected(w, cases, x, fuel) && run.Ran?
    ensures Lands(w, c, FindLabel(c, end), t, run, m, m')
    decreases fuel, cases, 1, 1
  {
    if pick.Matched? {
      PickedCase(w, cases, x.value, x.st, pick);
      m' := BodiesRun(w, cases, pick.k, first, end, f, t, b, c, p, m, pick, fuel, run);
    } else {
      m' := OtherwiseRuns(w, cases, otherwise, b.next, t, z, c, p + |b.code|, m, pick.st, fuel, run);
    }
  }

  /** No case fits: the jump after the comparisons goes to the default body or to the end. */
  lemma {:induction false} OtherwiseRuns(w: World, cases: Cases, l: nat, f: Fresh, t: Targets, z: StmtCode,
                                         c: seq<Instr>, q: nat, m: Machine, st: State, fuel: nat, run: Run)
    returns (m': Machine)
    requires FitsCases(cases, t) && z == LowerDefault(cases, l, f, t) && At(c, q, z.code)
    requires m.pc < |c| && c[m.pc] == Goto(l) && UniqueLabels(c) && Matches(m, st)
    requires LastDefault(cases).None? ==> FindLabel(c, l) == q
    requires run.Ran? && match LastDefault(cases)
      case None => run == Run.Ran(Normal, st)
      case Some(s) => run == Exec(w, OnUse, s, st, fuel)
    ensures Lands(w, c, q + |z.code|, t, run, m, m')
    decreases fuel, cases, 1, 0
  {
    var m1 := m.(pc := FindLabel(c, l));
    ReachesStep(w, c, m, m1);
    m' := m1;
    if LastDefault(cases).Some? {
      var s := LastDefault(cases).value;
      PlacedDefault(cases, t.loop.Some?, t.epilogue.Some?);
      m' := DefaultRuns(w, s, f, t, LowerStmt(s, f, t), l, c, q, m1, st, fuel, run);
      LandsAfter(w, c, q + |z.code|, t, run, m, m1, m');
    }
  }

  lemma SwitchPlaces(dispatch: seq<Instr>, otherwise: nat, bodies: seq<Instr>, dflt: seq<Instr>, end: nat,
                     c: seq<Instr>, p: nat)
    requires At(c, p, SwitchCode(dispatch, otherwise, bodies, dflt, end)) && UniqueLabels(c)
    ensures At(c, p, dispatch) && At(c, p + |dispatch| + 1, bodies)
    ensures p + |dispatch| < |c| && c[p + |dispatch|] == Goto(otherwise)
    ensures var q := p + |dispatch| + 1 + |bodies|;
      && At(c, q, dflt) && q + |dflt| < |c| && c[q + |dflt|] == Label(end) && FindLabel(c, end) == q + |dflt|
  {
    var q := p + |dispatch| + 1 + |bodies|;
    AtSplit3(c, p, dispatch + [Goto(otherwise)] + bodies, dflt, [Label(end)]);
    AtSplit3(c, p, dispatch, [Goto(otherwise)], bodies);
    AtOne(c, p + |dispatch|, [Goto(otherwise)], 0);
    AtOne(c, q + |dflt|, [Label(end)], 0);
    FindLabelAt(c, q + |dflt|, end);
  }

  lemma {:induction false} DefaultRuns(w: World, s: Stmt, f: Fresh, t: Targets, z: StmtCode, l: nat, c: seq<Instr>,
                                       q: nat, m: Machine, st: State, fuel: nat, run: Run)
    returns (m': Machine)
    requires Fits(s, t) && z == LowerStmt(s, f, t) && At(c, q, [Label(l)] + z.code) && UniqueLabels(c)
    requires m.pc == FindLabel(c, l) && Matches(m, st)
    requires run == Exec(w, OnUse, s, st, fuel) && run.Ran?
    ensures Lands(w, c, q + 1 + |z.code|, t, run, m, m')
    decreases fuel, s, 4
  {
    AtSplit(c, q, [Label(l)], z.code);
    AtOne(c, q, [Label(l)], 0);
    FindLabelAt(c, q, l);
    var m1 := m.(pc := q + 1);
    ReachesStep(w, c, m, m1);
    m' := StmtRuns(w, s, f, t, z, c, q + 1, m1, st, fuel, run);
    LandsAfter(w, c, q + 1 + |z.code|, t, run, m, m1, m');
  }

  /** The comparisons end at the label of the first case that fits, or fall through. */
  lemma {:induction false} DispatchRuns(w: World, cases: Cases, subject: Operand, first: nat, f: Fresh, r: StmtCode,
                                        c: seq<Instr>, p: nat, m: Machine, v: Late, st: State, n: nat, pick: PickResult)
    returns (m': Machine)
    requires r == LowerDispatch(cases, subject, first, f) && Ready(c, p, r.code, m, st)
    requires Holds(m, subject, v, n) && n <= f.reg
    requires pick == Pick(w, OnUse, cases, v, st) && !pick.PickStuck?
    ensures Reaches(w, c, m, m')
    ensures After(m, m', if pick.Matched? then FindLabel(c, first + pick.k) else p + |r.code|, pick.st, n)
    decreases cases
  {
    hide LowerExpr, Eval, Reaches, FindLabel, UniqueLabels, At;
    match cases
    case NoCases =>
      m' := m;
      ReachesRefl(w, c, m);
    case ConsCase(cond, _, rest) =>
      if cond.None? {
        var next := Pick(w, OnUse, rest, v, st);
        m' := DispatchRuns(w, rest, subject, first + 1, f, r, c, p, m, v, st, n, next);
      } else {
        var e := LowerExpr(cond.value, f.(reg := f.reg + 1));
        var d := LowerDispatch(rest, subject, first + 1, e.next);
        var cmp := [Bin(Cmp(CmpNe), f.reg, subject, e.op), IfZ(Reg(f.reg), first)];
        AtSplit3(c, p, e.code, cmp, d.code);
        var y := Eval(w, OnUse, cond.value, st);
        m' := CaseTestRuns(w, cond.value, subject, first, f, e, c, p, m, v, st, n, y);
        if Resolve(v, y.st) != Resolve(y.value, y.st) {
          var m1 := m';
          var next := Pick(w, OnUse, rest, v, y.st);
          m' := DispatchRuns(w, rest, subject, first + 1, e.next, d, c, p + |e.code| + 2, m1, v, y.st, n, next);
          ReachesTrans(w, c, m, m1, m');
        }
      }
  }

  lemma CaseTestRuns(w: World, cond: Expr, subject: Operand, l: nat, f: Fresh, e: ExprCode, c: seq<Instr>, p: nat,
                     m: Machine, v: Late, st: State, n: nat, y: EvalResult)
    returns (m': Machine)
    requires e == LowerExpr(cond, f.(reg := f.reg + 1)) && Ready(c, p, e.code, m, st)
    requires At(c, p + |e.code|, [Bin(Cmp(CmpNe), f.reg, subject, e.op), IfZ(Reg(f.reg), l)])
    requires Holds(m, subject, v, n) && n <= f.reg
    requires y == Eval(w, OnUse, cond, st) && y.Done? && Resolve(v, y.st).Some? && Resolve(y.value, y.st).Some?
    ensures Reaches(w, c, m, m')
    ensures var fits := Resolve(v, y.st) == Resolve(y.value, y.st);
      After(m, m', if fits then FindLabel(c, l) else p + |e.code| + 2, y.st, n)
  {
    var m1 := ExprRuns(w, cond, f.(reg := f.reg + 1), e, c, p, m, st, y);
    assert Holds(m1, subject, v, n);
    HoldsValue(m1, subject, v, n, y.st);
    HoldsValue(m1, e.op, y.value, e.next.reg, y.st);
    m' := CompareRuns(w, c, p + |e.code|, f.reg, subject, e.op, l, m1, Resolve(v, y.st).value, Resolve(y.value, y.st).value);
    ReachesTrans(w, c, m, m1, m');
  }

  lemma CompareRuns(w: World, c: seq<Instr>, p: nat, g: nat, x: Operand, y: Operand, l: nat, m: Machine, a: int, b: int)
    returns (m': Machine)
    requires At(c, p, [Bin(Cmp(CmpNe), g, x, y), IfZ(Reg(g), l)]) && m.pc == p && m.exited.None?
    requires NumVal(m, x) == Some(a) && NumVal(m, y) == Some(b)
    ensures Reaches(w, c, m, m')
    ensures m' == m.(pc := if a == b then FindLabel(c, l) else p + 2, regs := m.regs[g := Num(if a == b then 0 else 1)])
  {
    var code := [Bin(Cmp(CmpNe), g, x, y), IfZ(Reg(g), l)];
    AtOne(c, p, code, 0);
    AtOne(c, p, code, 1);
    var m1 := m.(pc := p + 1, regs := m.regs[g := Num(if a == b then 0 else 1)]);
    ReachesStep(w, c, m, m1);
    m' := m1.(pc := if a == b then FindLabel(c, l) else p + 2);
    Then(w, c, m, m1, m');
  }

  /** Entered at its label, a case body runs and leaves for the end of the switch. */
  lemma {:induction false} BodiesRun(w: World, cases: Cases, k: nat, first: nat, end: nat, f: Fresh, t: Targets,
                                     r: StmtCode, c: seq<Instr>, p: nat, m: Machine, pick: PickResult, fuel: nat, run: Run)
    returns (m': Machine)
    requires FitsCases(cases, t) && r == LowerBodies(cases, first, end, f, t)
    requires At(c, p, r.code) && UniqueLabels(c)
    requires pick.Matched? && CaseAt(cases, k) == Some(pick.body)
    requires m.pc == FindLabel(c, first + k) && Matches(m, pick.st)
    requires run == Exec(w, OnUse, pick.body, pick.st, fuel) && run.Ran?
    ensures Lands(w, c, FindLabel(c, end), t, run, m, m')
    decreases fuel, cases, 1, 0
  {
    hide LowerStmt, Exec, Reaches, FindLabel, UniqueLabels, At, Agree;
    if cases.cond.None? {
      m' := BodiesRun(w, cases.tail, k - 1, first + 1, end, f, t, r, c, p, m, pick, fuel, run);
    } else {
      var b := LowerStmt(cases.body, f, t);
      var d := LowerBodies(cases.tail, first + 1, end, b.next, t);
      AtSplit(c, p, [Label(first)] + b.code + [Goto(end)], d.code);
      if k == 0 {
        AtSplit(c, p, [Label(first)] + b.code, [Goto(end)]);
        AtOne(c, p + 1 + |b.code|, [Goto(end)], 0);
        m' := DefaultRuns(w, cases.body, f, t, b, first, c, p, m, pick.st, fuel, run);
        m' := FollowGoto(w, c, p + 1 + |b.code|, end, t, run, m, m');
      } else {
        m' := BodiesRun(w, cases.tail, k - 1, first + 1, end, b.next, t, d, c, p + 2 + |b.code|, m, pick, fuel, run);
      }
    }
  }

  /** The body of case number `k` when that case has a value. */
  function CaseAt(cases: Cases, k: nat): Option<Stmt> {
    match cases
    case NoCases => None
    case ConsCase(cond, body, rest) =>
      if k > 0 then CaseAt(rest, k - 1) else if cond.Some? then Some(body) else None
  }

  lemma {:induction false} PickedCase(w: World, cases: Cases, v: Late, st: State, pick: PickResult)
    requires pick == Pick(w, OnUse, cases, v, st) && pick.Matched?
    ensures CaseAt(cases, pick.k) == Some(pick.body)
  {
    var e := Eval(w, OnUse, if cases.cond.Some? then cases.cond.value else Lit(0), st);
    if cases.cond.None? {
      PickedCase(w, cases.tail, v, st, Pick(w, OnUse, cases.tail, v, st));
    } else if Resolve(v, e.st) != Resolve(e.value, e.st) {
      PickedCase(w, cases.tail, v, e.st, Pick(w, OnUse, cases.tail, v, e.st));
    }
  }

  // Functions

  lemma {:induction false} ParamsRun(w: World, params: seq<Name>, args: seq<int>, i: nat, store: map<Name, int>,
                                     c: seq<Instr>, p: nat, m: Machine, trace: seq<Event>)
    returns (m': Machine)
    requires i <= |params| == |args| && m.params == args
    requires Ready(c, p, ParamMoves(params, i), m, State(store, trace))
    ensures Reaches(w, c, m, m')
    ensures After(m, m', p + |ParamMoves(params, i)|, State(Bind(params[i..], args[i..], store), trace), 0)
    decreases |params| - i
  {
    if i == |params| {
      m' := m;
      ReachesRefl(w, c, m);
    } else {
      var head := [Assign(Var(Mangle(params[i])), Slot(i))];
      AtSplit(c, p, head, ParamMoves(params, i + 1));
      AtOne(c, p, head, 0);
      var m1 := m.(pc := p + 1, vars := m.vars[Mangle(params[i]) := args[i]]);
      ReachesStep(w, c, m, m1);
      assert params[i..][1..] == params[i + 1..] && args[i..][1..] == args[i + 1..];
      m' := ParamsRun(w, params, args, i + 1, store[params[i] := args[i]], c, p + 1, m1, trace);
      ReachesTrans(w, c, m, m1, m');
    }
  }

  /** Where a finished function leaves the machine: on `END_FUNC` with its result, or exited. */
  ghost predicate Finished(c: seq<Instr>, end: nat, run: Run, m: Machine) {
    && run.Ran? && Agree(run.st.store, m.vars) && m.trace == run.st.trace
    && match run.oc
       case Returned(v) => m.pc == end && m.exited.None? && m.ret == Some(v)
       case Exited(k) => m.exited == Some(k)
       case _ => false
  }

  /**
    Every terminating run of a function is matched by the code lowered from it, wherever that
    code stands in a program with unique labels: same result or exit code, same calls in the
    same order, same values in the variables.
   */
  lemma {:induction false} FuncRuns(w: World, fn: Func, f: Fresh, args: seq<int>, fuel: nat, c: seq<Instr>, p: nat, m: Machine, run: Run)
    returns (m': Machine)
    requires Placed(fn.body, false, true) && |args| == |fn.params|
    requires At(c, p, LowerFunc(fn, f).code) && UniqueLabels(c)
    requires m.pc == p && m.params == args && m.prep.None? && m.exited.None?
    requires run == RunFunc(w, OnUse, fn, args, m.trace, fuel) && run.Ran?
    ensures Reaches(w, c, m, m') && Finished(c, p + |LowerFunc(fn, f).code| - 1, run, m')
    ensures Step(w, c, m') == None
  {
    hide LowerStmt, Exec, ParamMoves, Reaches, FindLabel, At;
    var t, f1 := Targets(None, Some(f.lbl)), f.(lbl := f.lbl + 1);
    var b := LowerStmt(fn.body, f1, t);
    var head, moves := [BeginFunc(FuncLabel(fn.name))], ParamMoves(fn.params, 0);
    var last := if fn.retvar.Some? then Some(Var(Mangle(fn.retvar.value))) else None;
    var tail := [Return(last), Label(f.lbl), EndFunc];
    var q := p + 1 + |moves| + |b.code|;
    AtSplit(c, p, head + moves + b.code, tail);
    AtSplit3(c, p, head, moves, b.code);
    AtOne(c, p, head, 0);
    AtOne(c, q, tail, 0);
    AtOne(c, q, tail, 1);
    AtOne(c, q, tail, 2);
    FindLabelAt(c, q + 1, f.lbl);
    var m0 := m.(pc := p + 1);
    ReachesStep(w, c, m, m0);
    var m1 := ParamsRun(w, fn.params, args, 0, map[], c, p + 1, m0, m.trace);
    assert fn.params[0..] == fn.params && args[0..] == args;
    ReachesTrans(w, c, m, m0, m1);
    var st := State(Bind(fn.params, args, map[]), m.trace);
    var x := Exec(w, OnUse, fn.body, st, fuel);
    var m2 := StmtRuns(w, fn.body, f1, t, b, c, p + 1 + |moves|, m1, st, fuel, x);
    ReachesTrans(w, c, m, m1, m2);
    m' := FuncEnds(w, c, q, f.lbl, last, fn, x, run, m, m2);
  }

  lemma FuncEnds(w: World, c: seq<Instr>, q: nat, l: nat, last: Option<Operand>, fn: Func, x: Run, run: Run,
                 m: Machine, m2: Machine)
    returns (m': Machine)
    requires q + 2 < |c| && c[q] == Return(last) && c[q + 1] == Label(l) && c[q + 2] == EndFunc && FindLabel(c, l) == q + 1
    requires last == if fn.retvar.Some? then Some(Var(Mangle(fn.retvar.value))) else None
    requires Reaches(w, c, m, m2) && x.Ran? && run.Ran?
    requires Agree(x.st.store, m2.vars) && m2.trace == x.st.trace && Stops(c, q, Targets(None, Some(l)), x.oc, m2)
    requires match x.oc
      case Normal =>
        if fn.retvar.None? then run == Run.Ran(Returned(0), x.st)
        else fn.retvar.value in x.st.store && run == Run.Ran(Returned(x.st.store[fn.retvar.value]), x.st)
      case Returned(_) => run == x
      case Exited(_) => run == x
      case _ => false
    ensures Reaches(w, c, m, m') && Finished(c, q + 2, run, m') && Step(w, c, m') == None
  {
    var m3 := m2;
    if x.oc.Normal? {
      m3 := m2.(pc := q + 1, ret := Some(run.oc.value));
      Then(w, c, m, m2, m3);
    }
    m' := m3;
    if !x.oc.Exited? {
      m' := m3.(pc := q + 2);
      Then(w, c, m, m3, m');
    }
  }

  /** The code of one function has unique labels, so it can be run by itself. */
  lemma FuncStandsAlone(fn: Func, f: Fresh)
    requires Placed(fn.body, false, true)
    ensures UniqueLabels(LowerFunc(fn, f).code) && At(LowerFunc(fn, f).code, 0, LowerFunc(fn, f).code)
  {
    forall l: nat
      ensures Defs(LowerFunc(fn, f).code, l) <= 1
    {
      FuncLabels(fn, f, l);
    }
  }
}
