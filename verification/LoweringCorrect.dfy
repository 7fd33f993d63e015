/** Lowering preserves meaning. */
module LoweringCorrect {
  import opened Options
  import opened Ir
  import opened Source
  import opened Lowering
  import opened LoweringLabels
  import opened LoweringExprs
  import opened LoweringStmts
  import opened LateReading

  /** More fuel never changes a run that has already finished. */
  lemma {:induction false} MoreFuel(w: World, rd: Reading, s: Stmt, st: State, fuel: nat, run: Run)
    requires run == Exec(w, rd, s, st, fuel) && run.Ran?
    ensures Exec(w, rd, s, st, fuel + 1) == run
    decreases fuel, s, 2
  {
    match s
    case ExprStmt(_) =>
    case VarDecl(_, _) =>
    case Block(ss) => MoreFuelAll(w, rd, ss, st, fuel, run);
    case If(c, a, b) =>
      var v := EvalValue(w, rd, c, st);
      if v.n != 0 {
        MoreFuel(w, rd, a, v.st, fuel, run);
      } else if b.Some? {
        MoreFuel(w, rd, b.value, v.st, fuel, run);
      }
    case While(c, body) =>
      var v := EvalValue(w, rd, c, st);
      if v.n != 0 {
        var x := Exec(w, rd, body, v.st, fuel);
        MoreFuel(w, rd, body, v.st, fuel, x);
        if x.oc.Normal? || x.oc.Continued? {
          MoreFuel(w, rd, s, x.st, fuel - 1, run);
        }
      }
    case For(first, test, iter, body) =>
      if first.None? {
        MoreFuelFor(w, rd, test, iter, body, st, fuel, run);
      } else {
        var x := Exec(w, rd, first.value, st, fuel);
        MoreFuel(w, rd, first.value, st, fuel, x);
        if x.oc.Normal? {
          MoreFuelFor(w, rd, test, iter, body, x.st, fuel, run);
        }
      }
    case Break =>
    case Continue =>
    case Switch(e, cases) =>
      var x := Eval(w, rd, e, st);
      var pick := Pick(w, rd, cases, x.value, x.st);
      if pick.Matched? {
        MoreFuel(w, rd, pick.body, pick.st, fuel, run);
      } else if LastDefault(cases).Some? {
        MoreFuel(w, rd, LastDefault(cases).value, pick.st, fuel, run);
      }
    case Print(_) =>
    case ReturnStmt(_) =>
    case ExitStmt(_) =>
  }

  lemma {:induction false} MoreFuelAll(w: World, rd: Reading, ss: Stmts, st: State, fuel: nat, run: Run)
    requires run == ExecAll(w, rd, ss, st, fuel) && run.Ran?
    ensures ExecAll(w, rd, ss, st, fuel + 1) == run
    decreases fuel, ss, 2
  {
    if ss.ConsStmt? {
      var x := Exec(w, rd, ss.head, st, fuel);
      MoreFuel(w, rd, ss.head, st, fuel, x);
      if x.oc.Normal? {
        MoreFuelAll(w, rd, ss.tail, x.st, fuel, run);
      }
    }
  }

  lemma {:induction false} MoreFuelFor(w: World, rd: Reading, test: Option<Expr>, iter: Option<Expr>, body: Stmt,
                                       st: State, fuel: nat, run: Run)
    requires run == ExecFor(w, rd, test, iter, body, st, fuel) && run.Ran?
    ensures ExecFor(w, rd, test, iter, body, st, fuel + 1) == run
    decreases fuel, body, 3
  {
    hide Exec, Eval, EvalValue;
    var v := if test.Some? then EvalValue(w, rd, test.value, st) else ValueResult.Value(1, st);
    if v.n != 0 {
      var x := Exec(w, rd, body, v.st, fuel);
      MoreFuel(w, rd, body, v.st, fuel, x);
      if x.oc.Normal? || x.oc.Continued? {
        var y := if iter.Some? then Eval(w, rd, iter.value, x.st) else Done(Known(0), x.st);
        MoreFuelFor(w, rd, test, iter, body, y.st, fuel - 1, run);
      }
    }
  }

  /** A statement has one run at most, whatever fuel it was given. */
  lemma {:induction false} OneRun(w: World, rd: Reading, s: Stmt, st: State, i: nat, j: nat)
    requires i <= j && Exec(w, rd, s, st, i).Ran?
    ensures Exec(w, rd, s, st, j) == Exec(w, rd, s, st, i)
    decreases j - i
  {
    if i < j {
      MoreFuel(w, rd, s, st, i, Exec(w, rd, s, st, i));
      OneRun(w, rd, s, st, i + 1, j);
    }
  }

  /**
    For every function whose operands are safe to read late, and every terminating source run
    of it, the lowered code run by itself stops in exactly one state, and in that state it has
    returned (or exited with) the same number, made the same calls with the same arguments in
    the same order, and left the same values in the variables.
   */
  lemma {:induction false} LoweringPreservesMeaning(w: World, fn: Func, f: Fresh, args: seq<int>, fuel: nat, m: Machine, run: Run)
    returns (m': Machine)
    requires Placed(fn.body, false, true) && SafeStmt(fn.body) && |args| == |fn.params|
    requires m.pc == 0 && m.params == args && m.prep.None? && m.exited.None?
    requires run == RunFunc(w, OnSight, fn, args, m.trace, fuel) && run.Ran?
    ensures var c := LowerFunc(fn, f).code;
      && Reaches(w, c, m, m') && Step(w, c, m') == None && Finished(c, |c| - 1, run, m')
      && forall x :: Reaches(w, c, m, x) && Step(w, c, x) == None ==> x == m'
  {
    var c := LowerFunc(fn, f).code;
    FuncStandsAlone(fn, f);
    var st := State(Bind(fn.params, args, map[]), m.trace);
    SafeExec(w, fn.body, st, fuel, Exec(w, OnSight, fn.body, st, fuel));
    m' := FuncRuns(w, fn, f, args, fuel, c, 0, m, run);
    forall x | Reaches(w, c, m, x) && Step(w, c, x) == None
      ensures x == m'
    {
      FinalIsUnique(w, c, m, x, m');
    }
  }

  // Inside a program

  /** Where the code of function number `k` starts. */
  function StartOf(fns: seq<Func>, f: Fresh, k: nat): nat
    requires AllPlaced(fns) && k <= |fns|
  {
    if k == 0 then 0 else |LowerFunc(fns[0], f).code| + StartOf(fns[1..], LowerFunc(fns[0], f).next, k - 1)
  }

  lemma {:induction false} InProgram(fns: seq<Func>, f: Fresh, k: nat)
    requires AllPlaced(fns) && k < |fns|
    ensures At(LowerProgram(fns, f).code, StartOf(fns, f, k), CodeOf(fns, f, k))
  {
    hide LowerFunc;
    var a := LowerFunc(fns[0], f);
    var b := LowerProgram(fns[1..], a.next);
    if k > 0 {
      InProgram(fns[1..], a.next, k - 1);
      assert forall i :: 0 <= i < |b.code| ==> (a.code + b.code)[|a.code| + i] == b.code[i];
    }
  }

  /** Any function of a program, entered in the middle of the code of all of them. */
  lemma {:induction false} ProgramPreservesMeaning(w: World, fns: seq<Func>, f: Fresh, k: nat, args: seq<int>, fuel: nat, m: Machine, run: Run)
    returns (m': Machine)
    requires AllPlaced(fns) && k < |fns| && SafeStmt(fns[k].body) && |args| == |fns[k].params|
    requires m.pc == StartOf(fns, f, k) && m.params == args && m.prep.None? && m.exited.None?
    requires run == RunFunc(w, OnSight, fns[k], args, m.trace, fuel) && run.Ran?
    ensures var c := LowerProgram(fns, f).code;
      && Reaches(w, c, m, m') && Step(w, c, m') == None
      && Finished(c, StartOf(fns, f, k) + |CodeOf(fns, f, k)| - 1, run, m')
      && forall x :: Reaches(w, c, m, x) && Step(w, c, x) == None ==> x == m'
  {
    hide LowerProgram, StartOf, LowerFunc, Exec, At;
    var c := LowerProgram(fns, f).code;
    forall l: nat
      ensures Defs(c, l) <= 1
    {
      ProgramLabels(fns, f, l);
    }
    InProgram(fns, f, k);
    var st := State(Bind(fns[k].params, args, map[]), m.trace);
    SafeExec(w, fns[k].body, st, fuel, Exec(w, OnSight, fns[k].body, st, fuel));
    m' := FuncRuns(w, fns[k], FreshAt(fns, f, k), args, fuel, c, StartOf(fns, f, k), m, run);
    forall x | Reaches(w, c, m, x) && Step(w, c, x) == None
      ensures x == m'
    {
      FinalIsUnique(w, c, m, x, m');
    }
  }
}
