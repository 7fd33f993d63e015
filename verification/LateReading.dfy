/** Identifiers read where they are used. */
module LateReading {
  import opened Options
  import opened Ir
  import opened Source

  // Reading late is invisible unless an operand to the right assigns the same variable.

  /** The variable an expression leaves unread, if it ends in one. */
  function Bare(e: Expr): Option<Name> {
    match e
    case Ident(x) => Some(x)
    case Grouped(i) => Bare(i)
    case Assignment(_, r) => Bare(r)
    case _ => None
  }

  predicate Assigns(e: Expr, x: Name) {
    match e
    case Lit(_) => false
    case Ident(_) => false
    case Binary(_, l, r) => Assigns(l, x) || Assigns(r, x)
    case Logical(_, l, r) => Assigns(l, x) || Assigns(r, x)
    case Negate(o) => Assigns(o, x)
    case LogicalNot(o) => Assigns(o, x)
    case Grouped(i) => Assigns(i, x)
    case Assignment(y, r) => x == y || Assigns(r, x)
    case Call(_, args, _) => AssignsAny(args, x)
  }

  predicate AssignsAny(es: Exprs, x: Name) {
    match es case NoExprs => false case ConsExpr(e, rest) => Assigns(e, x) || AssignsAny(rest, x)
  }

  /** No unread variable is assigned before it is used. */
  predicate Safe(e: Expr) {
    match e
    case Lit(_) => true
    case Ident(_) => true
    case Binary(_, l, r) => Safe(l) && Safe(r) && (Bare(l).Some? ==> !Assigns(r, Bare(l).value))
    case Logical(_, l, r) => Safe(l) && Safe(r)
    case Negate(o) => Safe(o)
    case LogicalNot(o) => Safe(o)
    case Grouped(i) => Safe(i)
    case Assignment(_, r) => Safe(r)
    case Call(_, args, _) => SafeArgs(args)
  }

  predicate SafeArgs(es: Exprs) {
    match es
    case NoExprs => true
    case ConsExpr(e, rest) => Safe(e) && SafeArgs(rest) && (Bare(e).Some? ==> !AssignsAny(rest, Bare(e).value))
  }

  predicate SafeOpt(e: Option<Expr>) { e.Some? ==> Safe(e.value) }

  predicate SafeStmt(s: Stmt) {
    match s
    case ExprStmt(e) => Safe(e)
    case VarDecl(_, init) => SafeOpt(init)
    case Block(ss) => SafeStmts(ss)
    case If(c, a, b) => Safe(c) && SafeStmt(a) && (b.Some? ==> SafeStmt(b.value))
    case While(c, body) => Safe(c) && SafeStmt(body)
    case For(first, test, iter, body) =>
      (first.Some? ==> SafeStmt(first.value)) && SafeOpt(test) && SafeOpt(iter) && SafeStmt(body)
    case Break => true
    case Continue => true
    case Switch(e, cases) => Safe(e) && SafeCases(cases, Bare(e))
    case Print(es) => SafeEach(es)
    case ReturnStmt(r) => SafeOpt(r)
    case ExitStmt(c) => SafeOpt(c)
  }

  predicate SafeStmts(ss: Stmts) {
    match ss case NoStmts => true case ConsStmt(s, rest) => SafeStmt(s) && SafeStmts(rest)
  }

  predicate SafeEach(es: Exprs) {
    match es case NoExprs => true case ConsExpr(e, rest) => Safe(e) && SafeEach(rest)
  }

  /** The subject of a switch stays unread through the values of all cases. */
  predicate SafeCases(cases: Cases, subject: Option<Name>) {
    match cases
    case NoCases => true
    case ConsCase(cond, body, rest) =>
      && SafeOpt(cond) && SafeStmt(body) && SafeCases(rest, subject)
      && (cond.Some? && subject.Some? ==> !Assigns(cond.value, subject.value))
  }

  /** A variable an expression does not assign keeps its value. */
  lemma {:induction false} Untouched(w: World, rd: Reading, e: Expr, st: State, x: Name, d: EvalResult)
    requires d == Eval(w, rd, e, st) && d.Done? && !Assigns(e, x)
    ensures Resolve(Named(x), d.st) == Resolve(Named(x), st)
    decreases e
  {
    match e
    case Lit(_) =>
    case Ident(_) =>
    case Binary(_, l, r) =>
      var a := Eval(w, rd, l, st);
      Untouched(w, rd, l, st, x, a);
      Untouched(w, rd, r, a.st, x, Eval(w, rd, r, a.st));
    case Logical(isAnd, l, r) =>
      var a := Eval(w, rd, l, st);
      Untouched(w, rd, l, st, x, a);
      if (Resolve(a.value, a.st).value == 0) != isAnd {
        Untouched(w, rd, r, a.st, x, Eval(w, rd, r, a.st));
      }
    case Negate(o) => Untouched(w, rd, o, st, x, Eval(w, rd, o, st));
    case LogicalNot(o) => Untouched(w, rd, o, st, x, Eval(w, rd, o, st));
    case Grouped(i) => Untouched(w, rd, i, st, x, d);
    case Assignment(_, r) => Untouched(w, rd, r, st, x, Eval(w, rd, r, st));
    case Call(_, args, _) => UntouchedArgs(w, rd, args, st, x, EvalArgs(w, rd, args, st));
  }

  lemma {:induction false} UntouchedArgs(w: World, rd: Reading, es: Exprs, st: State, x: Name, d: ArgsResult)
    requires d == EvalArgs(w, rd, es, st) && d.ArgsDone? && !AssignsAny(es, x)
    ensures Resolve(Named(x), d.st) == Resolve(Named(x), st)
    decreases es
  {
    if es.ConsExpr? {
      var a := Eval(w, rd, es.head, st);
      Untouched(w, rd, es.head, st, x, a);
      UntouchedArgs(w, rd, es.tail, a.st, x, EvalArgs(w, rd, es.tail, a.st));
    }
  }

  /** The late result `b` stands for the value `a`, unread exactly when `e` is bare. */
  predicate Stands(e: Expr, a: EvalResult, b: EvalResult) {
    && a.Done? && b.Done? && a.st == b.st && a.value.Known?
    && Resolve(b.value, b.st) == Some(a.value.value)
    && (if Bare(e).Some? then b.value == Named(Bare(e).value) else b.value.Known?)
  }

  /** Reading late gives what reading on sight gives. */
  lemma {:induction false} SafeEval(w: World, e: Expr, st: State, a: EvalResult, b: EvalResult)
    requires Safe(e)
    requires a == Eval(w, OnSight, e, st) && a.Done? && b == Eval(w, OnUse, e, st)
    ensures Stands(e, a, b)
    decreases e, 1
  {
    match e
    case Lit(_) =>
    case Ident(_) =>
    case Binary(_, l, r) =>
      var x, x' := Eval(w, OnSight, l, st), Eval(w, OnUse, l, st);
      SafeEval(w, l, st, x, x');
      var y, y' := Eval(w, OnSight, r, x.st), Eval(w, OnUse, r, x.st);
      SafeEval(w, r, x.st, y, y');
      if Bare(l).Some? {
        Untouched(w, OnUse, r, x.st, Bare(l).value, y');
      }
    case Logical(isAnd, l, r) =>
      var x, x' := Eval(w, OnSight, l, st), Eval(w, OnUse, l, st);
      SafeEval(w, l, st, x, x');
      if (x.value.value == 0) != isAnd {
        SafeEval(w, r, x.st, Eval(w, OnSight, r, x.st), Eval(w, OnUse, r, x.st));
      }
    case Negate(o) => SafeEval(w, o, st, Eval(w, OnSight, o, st), Eval(w, OnUse, o, st));
    case LogicalNot(o) => SafeEval(w, o, st, Eval(w, OnSight, o, st), Eval(w, OnUse, o, st));
    case Grouped(i) => SafeEval(w, i, st, a, b);
    case Assignment(_, r) => SafeEval(w, r, st, Eval(w, OnSight, r, st), Eval(w, OnUse, r, st));
    case Call(_, args, _) =>
      SafeEvalArgs(w, args, st, EvalArgs(w, OnSight, args, st), EvalArgs(w, OnUse, args, st));
  }

  lemma {:induction false} SafeEvalArgs(w: World, es: Exprs, st: State, a: ArgsResult, b: ArgsResult)
    requires SafeArgs(es)
    requires a == EvalArgs(w, OnSight, es, st) && a.ArgsDone? && b == EvalArgs(w, OnUse, es, st)
    ensures b.ArgsDone? && b.st == a.st
    ensures ResolveAll(a.values, a.st).Some? && ResolveAll(b.values, b.st) == ResolveAll(a.values, a.st)
    decreases es, 1
  {
    if es.ConsExpr? {
      var x, x' := Eval(w, OnSight, es.head, st), Eval(w, OnUse, es.head, st);
      SafeEval(w, es.head, st, x, x');
      var y, y' := EvalArgs(w, OnSight, es.tail, x.st), EvalArgs(w, OnUse, es.tail, x.st);
      SafeEvalArgs(w, es.tail, x.st, y, y');
      if Bare(es.head).Some? {
        UntouchedArgs(w, OnUse, es.tail, x.st, Bare(es.head).value, y');
      }
      assert a.values[1..] == y.values && b.values[1..] == y'.values;
    }
  }

  lemma {:induction false} SafeValue(w: World, e: Expr, st: State)
    requires Safe(e) && EvalValue(w, OnSight, e, st).Value?
    ensures EvalValue(w, OnUse, e, st) == EvalValue(w, OnSight, e, st)
  {
    SafeEval(w, e, st, Eval(w, OnSight, e, st), Eval(w, OnUse, e, st));
  }

  /** Every terminating run that reads on sight is also the run that reads on use. */
  lemma {:induction false} SafeExec(w: World, s: Stmt, st: State, fuel: nat, run: Run)
    requires SafeStmt(s) && run == Exec(w, OnSight, s, st, fuel) && run.Ran?
    ensures Exec(w, OnUse, s, st, fuel) == run
    decreases fuel, s, 2
  {
    match s
    case ExprStmt(e) => SafeEval(w, e, st, Eval(w, OnSight, e, st), Eval(w, OnUse, e, st));
    case VarDecl(_, init) =>
      if init.Some? {
        SafeValue(w, init.value, st);
      }
    case Block(ss) => SafeExecAll(w, ss, st, fuel, run);
    case If(c, a, b) =>
      SafeValue(w, c, st);
      var v := EvalValue(w, OnSight, c, st);
      if v.n != 0 {
        SafeExec(w, a, v.st, fuel, run);
      } else if b.Some? {
        SafeExec(w, b.value, v.st, fuel, run);
      }
    case While(_, _) => SafeWhile(w, s, st, fuel, run);
    case For(first, test, iter, body) =>
      if first.None? {
        SafeFor(w, test, iter, body, st, fuel, run);
      } else {
        var x := Exec(w, OnSight, first.value, st, fuel);
        SafeExec(w, first.value, st, fuel, x);
        if x.oc.Normal? {
          SafeFor(w, test, iter, body, x.st, fuel, run);
        }
      }
    case Break =>
    case Continue =>
    case Switch(_, _) => SafeSwitch(w, s, st, fuel, run);
    case Print(es) => SafePrint(w, es, st, run);
    case ReturnStmt(r) =>
      if r.Some? {
        SafeValue(w, r.value, st);
      }
    case ExitStmt(c) =>
      if c.Some? {
        SafeValue(w, c.value, st);
      }
  }

  lemma {:induction false} SafeExecAll(w: World, ss: Stmts, st: State, fuel: nat, run: Run)
    requires SafeStmts(ss) && run == ExecAll(w, OnSight, ss, st, fuel) && run.Ran?
    ensures ExecAll(w, OnUse, ss, st, fuel) == run
    decreases fuel, ss, 2
  {
    if ss.ConsStmt? {
      var x := Exec(w, OnSight, ss.head, st, fuel);
      SafeExec(w, ss.head, st, fuel, x);
      if x.oc.Normal? {
        SafeExecAll(w, ss.tail, x.st, fuel, run);
      }
    }
  }

  lemma {:induction false} SafeWhile(w: World, s: Stmt, st: State, fuel: nat, run: Run)
    requires s.While? && SafeStmt(s) && run == Exec(w, OnSight, s, st, fuel) && run.Ran?
    ensures Exec(w, OnUse, s, st, fuel) == run
    decreases fuel, s, 1
  {
    SafeValue(w, s.cond, st);
    var v := EvalValue(w, OnSight, s.cond, st);
    if v.n != 0 {
      var x := Exec(w, OnSight, s.body, v.st, fuel);
      SafeExec(w, s.body, v.st, fuel, x);
      if x.oc.Normal? || x.oc.Continued? {
        SafeWhile(w, s, x.st, fuel - 1, run);
      }
    }
  }

  lemma {:induction false} SafeFor(w: World, test: Option<Expr>, iter: Option<Expr>, body: Stmt, st: State, fuel: nat,
                                   run: Run)
    requires SafeOpt(test) && SafeOpt(iter) && SafeStmt(body)
    requires run == ExecFor(w, OnSight, test, iter, body, st, fuel) && run.Ran?
    ensures ExecFor(w, OnUse, test, iter, body, st, fuel) == run
    decreases fuel, body, 3
  {
    hide Exec, Eval, EvalValue, SafeStmt;
    if test.Some? {
      SafeValue(w, test.value, st);
    }
    var v := if test.Some? then EvalValue(w, OnSight, test.value, st) else ValueResult.Value(1, st);
    if v.n != 0 {
      var x := Exec(w, OnSight, body, v.st, fuel);
      SafeExec(w, body, v.st, fuel, x);
      if x.oc.Normal? || x.oc.Continued? {
        var y := if iter.Some? then Eval(w, OnSight, iter.value, x.st) else Done(Known(0), x.st);
        if iter.Some? {
          SafeEval(w, iter.value, x.st, y, Eval(w, OnUse, iter.value, x.st));
        }
        SafeFor(w, test, iter, body, y.st, fuel - 1, run);
      }
    }
  }

  lemma {:induction false} SafePrint(w: World, es: Exprs, st: State, run: Run)
    requires SafeEach(es) && run == ExecPrint(w, OnSight, es, st) && run.Ran?
    ensures ExecPrint(w, OnUse, es, st) == run
  {
    if es.ConsExpr? {
      SafeValue(w, es.head, st);
      var v := EvalValue(w, OnSight, es.head, st);
      SafePrint(w, es.tail, DoCall(w, "print_int", [1, v.n], true, v.st).st, run);
    }
  }

  lemma {:induction false} SafeSwitch(w: World, s: Stmt, st: State, fuel: nat, run: Run)
    requires s.Switch? && SafeStmt(s) && run == Exec(w, OnSight, s, st, fuel) && run.Ran?
    ensures Exec(w, OnUse, s, st, fuel) == run
    decreases fuel, s, 1
  {
    var a, b := Eval(w, OnSight, s.subject, st), Eval(w, OnUse, s.subject, st);
    SafeEval(w, s.subject, st, a, b);
    var pick := Pick(w, OnSight, s.cases, a.value, a.st);
    SafePick(w, s.cases, Bare(s.subject), a.value.value, b.value, a.st, pick);
    SafeParts(w, s.cases, Bare(s.subject), a.value, a.st, pick);
    if pick.Matched? {
      SafeExec(w, pick.body, pick.st, fuel, run);
    } else if LastDefault(s.cases).Some? {
      SafeExec(w, LastDefault(s.cases).value, pick.st, fuel, run);
    }
  }

  lemma {:induction false} SafePick(w: World, cases: Cases, x: Option<Name>, n: int, v: Late, st: State, pick: PickResult)
    requires SafeCases(cases, x) && (if x.Some? then v == Named(x.value) else v.Known?)
    requires Resolve(v, st) == Some(n) && pick == Pick(w, OnSight, cases, Known(n), st) && !pick.PickStuck?
    ensures Pick(w, OnUse, cases, v, st) == pick
  {
    if cases.ConsCase? {
      if cases.cond.None? {
        SafePick(w, cases.tail, x, n, v, st, Pick(w, OnSight, cases.tail, Known(n), st));
      } else {
        var a, b := Eval(w, OnSight, cases.cond.value, st), Eval(w, OnUse, cases.cond.value, st);
        SafeEval(w, cases.cond.value, st, a, b);
        if x.Some? {
          Untouched(w, OnUse, cases.cond.value, st, x.value, b);
        }
        if n != a.value.value {
          SafePick(w, cases.tail, x, n, v, a.st, Pick(w, OnSight, cases.tail, Known(n), a.st));
        }
      }
    }
  }

  lemma {:induction false} SafeParts(w: World, cases: Cases, x: Option<Name>, v: Late, st: State, pick: PickResult)
    requires SafeCases(cases, x) && pick == Pick(w, OnSight, cases, v, st)
    ensures pick.Matched? ==> SafeStmt(pick.body)
    ensures LastDefault(cases).Some? ==> SafeStmt(LastDefault(cases).value)
  {
    if cases.ConsCase? {
      var a := if cases.cond.None? then Done(Known(0), st) else Eval(w, OnSight, cases.cond.value, st);
      var st1 := if a.Done? then a.st else st;
      SafeParts(w, cases.tail, x, v, st1, Pick(w, OnSight, cases.tail, v, st1));
    }
  }

  /** What reading on use makes of a binary operation whose left operand is bare, safe or not. */
  lemma {:induction false} LateReadExact(w: World, op: BinOp, l: Expr, r: Expr, st: State, a: EvalResult, b: EvalResult)
    requires Safe(l) && Safe(r) && Bare(l).Some?
    requires a == Eval(w, OnSight, l, st) && a.Done? && b == Eval(w, OnSight, r, a.st) && b.Done?
    ensures Bare(l).value in a.st.store && Bare(l).value in b.st.store
    ensures Eval(w, OnSight, Binary(op, l, r), st) == DoBinary(w, op, Some(a.st.store[Bare(l).value]), Resolve(b.value, b.st), b.st)
    ensures Eval(w, OnUse, Binary(op, l, r), st) == DoBinary(w, op, Some(b.st.store[Bare(l).value]), Resolve(b.value, b.st), b.st)
  {
    SafeEval(w, l, st, a, Eval(w, OnUse, l, st));
    SafeEval(w, r, a.st, b, Eval(w, OnUse, r, a.st));
    StaysDeclared(w, OnSight, r, a.st, Bare(l).value, b);
  }

  /** Arguments as a call finds them: bare ones unread. */
  function LateArgs(es: Exprs, values: seq<Late>): seq<Late> {
    match es
    case NoExprs => []
    case ConsExpr(e, rest) =>
      if values == [] then []
      else [if Bare(e).Some? then Named(Bare(e).value) else values[0]] + LateArgs(rest, values[1..])
  }

  lemma {:induction false} LateArgsExact(w: World, es: Exprs, st: State, a: ArgsResult)
    requires SafeEach(es) && a == EvalArgs(w, OnSight, es, st) && a.ArgsDone?
    ensures EvalArgs(w, OnUse, es, st) == ArgsDone(LateArgs(es, a.values), a.st)
    ensures ResolveAll(LateArgs(es, a.values), a.st).Some? && ResolveAll(a.values, a.st).Some?
    decreases es
  {
    if es.ConsExpr? {
      var x := Eval(w, OnSight, es.head, st);
      SafeEval(w, es.head, st, x, Eval(w, OnUse, es.head, st));
      var y := EvalArgs(w, OnSight, es.tail, x.st);
      LateArgsExact(w, es.tail, x.st, y);
      if Bare(es.head).Some? {
        StayDeclared(w, OnSight, es.tail, x.st, Bare(es.head).value, y);
      }
      assert a.values == [x.value] + y.values && a.values[1..] == y.values;
      var late := LateArgs(es, a.values);
      assert late[1..] == LateArgs(es.tail, y.values);
    }
  }

  /**
    What reading on use makes of any call: a bare argument is passed with the value its variable has
    after all the arguments, where reading on sight passes the value it had at its own place.
   */
  lemma {:induction false} LateCallExact(w: World, func: string, args: Exprs, isVoid: bool, st: State, a: ArgsResult)
    requires SafeEach(args) && a == EvalArgs(w, OnSight, args, st) && a.ArgsDone?
    ensures ResolveAll(a.values, a.st).Some? && ResolveAll(LateArgs(args, a.values), a.st).Some?
    ensures Eval(w, OnSight, Call(func, args, isVoid), st) == DoCall(w, func, ResolveAll(a.values, a.st).value, isVoid, a.st)
    ensures Eval(w, OnUse, Call(func, args, isVoid), st) == DoCall(w, func, ResolveAll(LateArgs(args, a.values), a.st).value, isVoid, a.st)
  {
    LateArgsExact(w, args, st, a);
  }

  predicate SafeValues(cases: Cases) {
    match cases
    case NoCases => true
    case ConsCase(cond, _, rest) => SafeOpt(cond) && SafeValues(rest)
  }

  /**
    What reading on use makes of any switch on a bare variable: the subject is compared with the value
    the variable has after each case value (`Named`), where reading on sight compares the one value it
    had before them (`Known`).
   */
  lemma {:induction false} LateSwitchExact(w: World, cases: Cases, x: Name, st: State, pick: PickResult)
    requires SafeValues(cases) && pick == Pick(w, OnSight, cases, Named(x), st) && !pick.PickStuck?
    ensures Pick(w, OnUse, cases, Named(x), st) == pick
  {
    if cases.ConsCase? {
      if cases.cond.None? {
        LateSwitchExact(w, cases.tail, x, st, Pick(w, OnSight, cases.tail, Named(x), st));
      } else {
        var a := Eval(w, OnSight, cases.cond.value, st);
        SafeEval(w, cases.cond.value, st, a, Eval(w, OnUse, cases.cond.value, st));
        if Resolve(Named(x), a.st) != Some(a.value.value) {
          LateSwitchExact(w, cases.tail, x, a.st, Pick(w, OnSight, cases.tail, Named(x), a.st));
        }
      }
    }
  }

  lemma {:induction false} StaysDeclared(w: World, rd: Reading, e: Expr, st: State, x: Name, d: EvalResult)
    requires d == Eval(w, rd, e, st) && d.Done? && x in st.store
    ensures x in d.st.store
    decreases e
  {
    match e
    case Lit(_) =>
    case Ident(_) =>
    case Binary(_, l, r) =>
      var a := Eval(w, rd, l, st);
      StaysDeclared(w, rd, l, st, x, a);
      StaysDeclared(w, rd, r, a.st, x, Eval(w, rd, r, a.st));
    case Logical(isAnd, l, r) =>
      var a := Eval(w, rd, l, st);
      StaysDeclared(w, rd, l, st, x, a);
      if (Resolve(a.value, a.st).value == 0) != isAnd {
        StaysDeclared(w, rd, r, a.st, x, Eval(w, rd, r, a.st));
      }
    case Negate(o) => StaysDeclared(w, rd, o, st, x, Eval(w, rd, o, st));
    case LogicalNot(o) => StaysDeclared(w, rd, o, st, x, Eval(w, rd, o, st));
    case Grouped(i) => StaysDeclared(w, rd, i, st, x, d);
    case Assignment(_, r) => StaysDeclared(w, rd, r, st, x, Eval(w, rd, r, st));
    case Call(_, args, _) => StayDeclared(w, rd, args, st, x, EvalArgs(w, rd, args, st));
  }

  lemma {:induction false} StayDeclared(w: World, rd: Reading, es: Exprs, st: State, x: Name, d: ArgsResult)
    requires d == EvalArgs(w, rd, es, st) && d.ArgsDone? && x in st.store
    ensures x in d.st.store
    decreases es
  {
    if es.ConsExpr? {
      var a := Eval(w, rd, es.head, st);
      StaysDeclared(w, rd, es.head, st, x, a);
      StayDeclared(w, rd, es.tail, a.st, x, EvalArgs(w, rd, es.tail, a.st));
    }
  }

  /** The smallest visible case: `x == (x = n)` is always true when read on use. */
  lemma {:induction false} LateReadIsVisible(w: World, x: Name, n: int, st: State)
    requires x in st.store
    ensures var e := Binary(Cmp(CmpEq), Ident(x), Assignment(x, Lit(n)));
      && !Safe(e)
      && EvalValue(w, OnUse, e, st) == ValueResult.Value(1, State(st.store[x := n], st.trace))
      && (EvalValue(w, OnSight, e, st) == EvalValue(w, OnUse, e, st) <==> st.store[x] == n)
  {
    var r := Assignment(x, Lit(n));
    assert Assigns(r, x);
    assert Eval(w, OnSight, Lit(n), st) == Done(Known(n), st);
    var b := Done(Known(n), st.(store := st.store[x := n]));
    assert Eval(w, OnSight, r, st) == b;
    LateReadExact(w, Cmp(CmpEq), Ident(x), r, st, Done(Known(st.store[x]), st), b);
  }
}
