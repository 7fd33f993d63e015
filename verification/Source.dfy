/**
  The statements and expressions the lowering accepts, over 64-bit integers and 0/1
  booleans, and what they mean. A bare identifier can be read where it stands (`OnSight`)
  or only by the operation that consumes it (`OnUse`).
 */
module Source {
  import opened Options
  import opened Ir

  /** A variable, resolved to the scope that declares it. Identifiers never start with a dot. */
  datatype RawName = Name(id: string, scope: nat)

  type Name = n: RawName | n.id != "" && n.id[0] != '.' witness Name("x", 0)

  datatype Expr =
    | Lit(value: int)
    | Ident(name: Name)
    | Binary(op: BinOp, left: Expr, right: Expr)
    | Logical(isAnd: bool, left: Expr, right: Expr)
    | Negate(operand: Expr)
    | LogicalNot(operand: Expr)
    | Grouped(inner: Expr)
    | Assignment(lvalue: Name, rvalue: Expr)
    | Call(func: string, args: Exprs, isVoid: bool)

  datatype Exprs = NoExprs | ConsExpr(head: Expr, tail: Exprs)

  datatype Stmt =
    | ExprStmt(expr: Expr)
    | VarDecl(name: Name, init: Option<Expr>)
    | Block(stmts: Stmts)
    | If(cond: Expr, thenBranch: Stmt, elseBranch: Option<Stmt>)
    | While(cond: Expr, body: Stmt)
    | For(first: Option<Stmt>, test: Option<Expr>, iter: Option<Expr>, body: Stmt)
    | Break
    | Continue
    | Switch(subject: Expr, cases: Cases)
    | Print(exprs: Exprs)
    | ReturnStmt(result: Option<Expr>)
    | ExitStmt(exitCode: Option<Expr>)

  datatype Stmts = NoStmts | ConsStmt(head: Stmt, tail: Stmts)

  /** `cond == None` is the default case. */
  datatype Cases = NoCases | ConsCase(cond: Option<Expr>, body: Stmt, tail: Cases)

  datatype Func = Func(name: string, params: seq<Name>, retvar: Option<Name>, body: Stmt)

  /** The variables' values and the calls made so far. */
  datatype State = State(store: map<Name, int>, trace: seq<Event>)

  datatype Reading = OnSight | OnUse

  /** What an expression leaves behind: a value, or a variable that is still to be read. */
  datatype Late = Known(value: int) | Named(name: Name)

  function Resolve(v: Late, st: State): Option<int> {
    match v
    case Known(n) => Some(n)
    case Named(x) => if x in st.store then Some(st.store[x]) else None
  }

  function ResolveAll(vs: seq<Late>, st: State): Option<seq<int>> {
    if vs == [] then Some([])
    else
      match (Resolve(vs[0], st), ResolveAll(vs[1..], st))
      case (Some(n), Some(ns)) => Some([n] + ns)
      case _ => None
  }

  datatype EvalResult = Stuck | Done(value: Late, st: State)

  datatype ArgsResult = ArgsStuck | ArgsDone(values: seq<Late>, st: State)

  function DoCall(w: World, func: string, args: seq<int>, isVoid: bool, st: State): EvalResult {
    match w.call(st.trace, func, args)
    case Some(v) => Done(Known(if isVoid then 0 else v), st.(trace := st.trace + [Event(func, args)]))
    case None => Stuck
  }

  function DoBinary(w: World, op: BinOp, a: Option<int>, b: Option<int>, st: State): EvalResult {
    match (a, b)
    case (Some(x), Some(y)) =>
      (match BinVal(w, op, x, y)
       case Some(v) => Done(Known(v), st)
       case None => Stuck)
    case _ => Stuck
  }

  function Eval(w: World, rd: Reading, e: Expr, st: State): EvalResult {
    match e
    case Lit(n) => Done(Known(n), st)
    case Ident(x) =>
      if rd.OnUse? then Done(Named(x), st)
      else if x in st.store then Done(Known(st.store[x]), st)
      else Stuck
    case Binary(op, l, r) =>
      (match Eval(w, rd, l, st)
       case Stuck => Stuck
       case Done(a, st1) =>
         match Eval(w, rd, r, st1)
         case Stuck => Stuck
         case Done(b, st2) => DoBinary(w, op, Resolve(a, st2), Resolve(b, st2), st2))
    case Logical(isAnd, l, r) =>
      // `and` stops at 0, `or` stops at anything else
      (match Eval(w, rd, l, st)
       case Stuck => Stuck
       case Done(a, st1) =>
         match Resolve(a, st1)
         case None => Stuck
         case Some(n) =>
           if (n == 0) == isAnd then Done(Known(if isAnd then 0 else 1), st1)
           else
             match Eval(w, rd, r, st1)
             case Stuck => Stuck
             case Done(b, st2) =>
               match Resolve(b, st2) case Some(k) => Done(Known(k), st2) case None => Stuck)
    case Negate(o) =>
      (match Eval(w, rd, o, st)
       case Stuck => Stuck
       case Done(a, st1) =>
         match Resolve(a, st1) case Some(n) => Done(Known(w.neg(n)), st1) case None => Stuck)
    case LogicalNot(o) =>
      (match Eval(w, rd, o, st)
       case Stuck => Stuck
       case Done(a, st1) =>
         match Resolve(a, st1)
         case Some(n) => Done(Known(if n == 0 then 1 else 0), st1)
         case None => Stuck)
    case Grouped(i) => Eval(w, rd, i, st)
    case Assignment(x, r) =>
      (match Eval(w, rd, r, st)
       case Stuck => Stuck
       case Done(a, st1) =>
         match Resolve(a, st1)
         case Some(n) => Done(a, st1.(store := st1.store[x := n]))
         case None => Stuck)
    case Call(f, args, isVoid) =>
      (match EvalArgs(w, rd, args, st)
       case ArgsStuck => Stuck
       case ArgsDone(vs, st1) =>
         match ResolveAll(vs, st1) case Some(ns) => DoCall(w, f, ns, isVoid, st1) case None => Stuck)
  }

  function EvalArgs(w: World, rd: Reading, es: Exprs, st: State): ArgsResult {
    match es
    case NoExprs => ArgsDone([], st)
    case ConsExpr(e, rest) =>
      match Eval(w, rd, e, st)
      case Stuck => ArgsStuck
      case Done(a, st1) =>
        match EvalArgs(w, rd, rest, st1)
        case ArgsStuck => ArgsStuck
        case ArgsDone(vs, st2) => ArgsDone([a] + vs, st2)
  }

  /** The value an expression has where it ends. */
  datatype ValueResult = NoValue | Value(n: int, st: State)

  function EvalValue(w: World, rd: Reading, e: Expr, st: State): ValueResult {
    match Eval(w, rd, e, st)
    case Stuck => NoValue
    case Done(a, st1) =>
      match Resolve(a, st1) case Some(n) => ValueResult.Value(n, st1) case None => NoValue
  }

  // Statements

  datatype Outcome = Normal | Broke | Continued | Returned(value: int) | Exited(code: int)

  /** `NoRun` covers both a stuck run and one that did not finish within its fuel. */
  datatype Run = NoRun | Ran(oc: Outcome, st: State)

  /**
    Runs a statement. Fuel only bounds how often loops go round; a run terminates when
    some fuel is enough.
   */
  function Exec(w: World, rd: Reading, s: Stmt, st: State, fuel: nat): Run
    decreases fuel, s, 1
  {
    match s
    case ExprStmt(e) =>
      (match Eval(w, rd, e, st) case Stuck => NoRun case Done(_, st1) => Ran(Normal, st1))
    case VarDecl(x, init) =>
      if init.None? then Ran(Normal, st.(store := st.store[x := 0]))
      else
        (match EvalValue(w, rd, init.value, st)
         case NoValue => NoRun
         case Value(n, st1) => Ran(Normal, st1.(store := st1.store[x := n])))
    case Block(ss) => ExecAll(w, rd, ss, st, fuel)
    case If(c, t, els) =>
      (match EvalValue(w, rd, c, st)
       case NoValue => NoRun
       case Value(n, st1) =>
         if n != 0 then Exec(w, rd, t, st1, fuel)
         else if els.Some? then Exec(w, rd, els.value, st1, fuel)
         else Ran(Normal, st1))
    case While(c, body) =>
      (match EvalValue(w, rd, c, st)
       case NoValue => NoRun
       case Value(n, st1) =>
         if n == 0 then Ran(Normal, st1)
         else
           match Exec(w, rd, body, st1, fuel)
           case NoRun => NoRun
           case Ran(oc, st2) =>
             if oc.Broke? then Ran(Normal, st2)
             else if !oc.Normal? && !oc.Continued? then Ran(oc, st2)
             else if fuel == 0 then NoRun
             else Exec(w, rd, s, st2, fuel - 1))
    case For(first, test, iter, body) =>
      if first.None? then ExecFor(w, rd, test, iter, body, st, fuel)
      else
        (match Exec(w, rd, first.value, st, fuel)
         case NoRun => NoRun
         case Ran(oc, st1) =>
           if oc.Normal? then ExecFor(w, rd, test, iter, body, st1, fuel) else Ran(oc, st1))
    case Break => Ran(Broke, st)
    case Continue => Ran(Continued, st)
    case Switch(e, cases) =>
      (match Eval(w, rd, e, st)
       case Stuck => NoRun
       case Done(a, st1) =>
         match Pick(w, rd, cases, a, st1)
         case PickStuck => NoRun
         case NoneMatches(st2) =>
           (match LastDefault(cases)
            case None => Ran(Normal, st2)
            case Some(d) => Exec(w, rd, d, st2, fuel))
         case Matched(_, b, st2) => Exec(w, rd, b, st2, fuel))
    case Print(es) => ExecPrint(w, rd, es, st)
    case ReturnStmt(r) =>
      if r.None? then Ran(Returned(0), st)
      else
        (match EvalValue(w, rd, r.value, st)
         case NoValue => NoRun
         case Value(n, st1) => Ran(Returned(n), st1))
    case ExitStmt(c) =>
      if c.None? then Ran(Exited(0), st)
      else
        (match EvalValue(w, rd, c.value, st)
         case NoValue => NoRun
         case Value(n, st1) => Ran(Exited(n), st1))
  }

  function ExecAll(w: World, rd: Reading, ss: Stmts, st: State, fuel: nat): Run
    decreases fuel, ss, 1
  {
    match ss
    case NoStmts => Ran(Normal, st)
    case ConsStmt(s, rest) =>
      match Exec(w, rd, s, st, fuel)
      case NoRun => NoRun
      case Ran(oc, st1) => if oc.Normal? then ExecAll(w, rd, rest, st1, fuel) else Ran(oc, st1)
  }

  /** A `for` loop after its initializer; a missing condition is true. */
  function ExecFor(w: World, rd: Reading, test: Option<Expr>, iter: Option<Expr>, body: Stmt,
                   st: State, fuel: nat): Run
    decreases fuel, body, 2
  {
    match if test.Some? then EvalValue(w, rd, test.value, st) else ValueResult.Value(1, st)
    case NoValue => NoRun
    case Value(n, st1) =>
      if n == 0 then Ran(Normal, st1)
      else
        match Exec(w, rd, body, st1, fuel)
        case NoRun => NoRun
        case Ran(oc, st2) =>
          if oc.Broke? then Ran(Normal, st2)
          else if !oc.Normal? && !oc.Continued? then Ran(oc, st2)
          else
            match if iter.Some? then Eval(w, rd, iter.value, st2) else Done(Known(0), st2)
            case Stuck => NoRun
            case Done(_, st3) =>
              if fuel == 0 then NoRun else ExecFor(w, rd, test, iter, body, st3, fuel - 1)
  }

  /** `Matched` names the case by its position. */
  datatype PickResult = PickStuck | Matched(k: nat, body: Stmt, st: State) | NoneMatches(st: State)

  /** The first case whose value equals the subject; the subject is compared anew each time. */
  function Pick(w: World, rd: Reading, cases: Cases, subject: Late, st: State): (p: PickResult)
    ensures p.Matched? ==> p.body < cases
  {
    match cases
    case NoCases => NoneMatches(st)
    case ConsCase(cond, body, rest) =>
      if cond.None? then NextCase(Pick(w, rd, rest, subject, st))
      else
        match Eval(w, rd, cond.value, st)
        case Stuck => PickStuck
        case Done(b, st1) =>
          match (Resolve(subject, st1), Resolve(b, st1))
          case (Some(x), Some(y)) =>
            if x == y then Matched(0, body, st1) else NextCase(Pick(w, rd, rest, subject, st1))
          case _ => PickStuck
  }

  function NextCase(p: PickResult): PickResult {
    if p.Matched? then p.(k := p.k + 1) else p
  }

  function LastDefault(cases: Cases): (d: Option<Stmt>)
    ensures d.Some? ==> d.value < cases
  {
    match cases
    case NoCases => None
    case ConsCase(cond, body, rest) =>
      var d := LastDefault(rest);
      if d.Some? then d else if cond.None? then Some(body) else None
  }

  function ExecPrint(w: World, rd: Reading, es: Exprs, st: State): Run {
    match es
    case NoExprs => Ran(Normal, st)
    case ConsExpr(e, rest) =>
      match EvalValue(w, rd, e, st)
      case NoValue => NoRun
      case Value(n, st1) =>
        match DoCall(w, "print_int", [1, n], true, st1)
        case Stuck => NoRun
        case Done(_, st2) => ExecPrint(w, rd, rest, st2)
  }

  // Functions

  function Bind(params: seq<Name>, args: seq<int>, store: map<Name, int>): map<Name, int>
    requires |params| == |args|
  {
    if params == [] then store else Bind(params[1..], args[1..], store[params[0] := args[0]])
  }

  /** What a function returns; its named result is returned when the body falls off its end. */
  function RunFunc(w: World, rd: Reading, f: Func, args: seq<int>, trace: seq<Event>, fuel: nat): Run
    requires |args| == |f.params|
  {
    match Exec(w, rd, f.body, State(Bind(f.params, args, map[]), trace), fuel)
    case NoRun => NoRun
    case Ran(oc, st) =>
      match oc
      case Normal =>
        if f.retvar.None? then Ran(Returned(0), st)
        else if f.retvar.value in st.store then Ran(Returned(st.store[f.retvar.value]), st)
        else NoRun
      case Returned(_) => Ran(oc, st)
      case Exited(_) => Ran(oc, st)
      case _ => NoRun
  }
}
