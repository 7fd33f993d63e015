/** The visitor that walks the tree and appends instructions, against what it should append. */
module IrVisitorModel {
  import opened Options
  import opened Ir
  import opened Source
  import opened Lowering

  lemma Flatten3(o: seq<Instr>, a: seq<Instr>, b: seq<Instr>, c: seq<Instr>)
    ensures o + a + b + c == o + (a + b + c)
  {
  }

  lemma Flatten4(o: seq<Instr>, a: seq<Instr>, b: seq<Instr>, c: seq<Instr>, d: seq<Instr>)
    ensures o + a + b + c + d == o + (a + b + c + d)
  {
    Flatten3(o, a, b, c);
    assert o + (a + b + c) + d == o + (a + b + c + d);
  }

  lemma Flatten5(o: seq<Instr>, a: seq<Instr>, b: seq<Instr>, c: seq<Instr>, d: seq<Instr>, e: seq<Instr>)
    ensures o + a + b + c + d + e == o + (a + b + c + d + e)
  {
    Flatten4(o, a, b, c, d);
    assert o + (a + b + c + d) + e == o + (a + b + c + d + e);
  }

  lemma LogicalCode(e: Expr, f: Fresh)
    requires e.Logical?
    ensures var dest := Var(Hidden(f.hidden));
      var a := LowerExpr(e.left, f.(lbl := f.lbl + 1, hidden := f.hidden + 1));
      var b := LowerExpr(e.right, if e.isAnd then a.next else a.next.(lbl := a.next.lbl + 1));
      LowerExpr(e, f) == ExprCode(
        a.code + SkipCode(e.isAnd, dest, a.op, f.lbl, a.next.lbl) + b.code + JoinCode(dest, b.op, f.lbl, b.next.reg),
        Reg(b.next.reg), b.next.(reg := b.next.reg + 1))
  {
  }

  class IrVisitor {
    var instructions: seq<Instr>
    var nextReg: nat
    var nextLabel: nat
    var nextHidden: nat
    var lastOperand: Operand
    var loopContexts: seq<LoopTargets>
    var epilogue: Option<nat>

    constructor ()
      ensures instructions == [] && Counters() == Fresh(0, 0, 0) && loopContexts == [] && epilogue == None
    {
      instructions := [];
      nextReg, nextLabel, nextHidden := 0, 0, 0;
      lastOperand := Imm(0);
      loopContexts := [];
      epilogue := None;
    }

    function Counters(): Fresh
      reads this
    {
      Fresh(nextReg, nextLabel, nextHidden)
    }

    /** The targets a statement visited now would jump to. */
    function Inside(): Targets
      reads this
    {
      Targets(if loopContexts == [] then None else Some(loopContexts[|loopContexts| - 1]), epilogue)
    }

    /** Code was appended, counters moved on, contexts are as before. */
    twostate predicate Appended(code: seq<Instr>, next: Fresh)
      reads this
    {
      && instructions == old(instructions) + code && Counters() == next
      && loopContexts == old(loopContexts) && epilogue == old(epilogue)
    }

    method NewTempReg() returns (r: nat)
      modifies this`nextReg
      ensures r == old(nextReg) && nextReg == r + 1
    {
      r := nextReg;
      nextReg := nextReg + 1;
    }

    method NewLabel() returns (l: nat)
      modifies this`nextLabel
      ensures l == old(nextLabel) && nextLabel == l + 1
    {
      l := nextLabel;
      nextLabel := nextLabel + 1;
    }

    method Emit(code: seq<Instr>)
      modifies this`instructions
      ensures instructions == old(instructions) + code
    {
      instructions := instructions + code;
    }

    method VisitExpr(e: Expr)
      modifies this
      ensures var r := LowerExpr(e, old(Counters())); Appended(r.code, r.next) && lastOperand == r.op
      decreases e, 1
    {
      match e
      case Lit(n) => lastOperand := Imm(n);
      case Ident(x) => lastOperand := Var(Mangle(x));
      case Binary(_, _, _) => VisitBinary(e);
      case Logical(_, _, _) => VisitLogical(e);
      case Negate(o) => VisitUnary(e, o);
      case LogicalNot(o) => VisitUnary(e, o);
      case Grouped(i) => VisitExpr(i);
      case Assignment(_, _) => VisitAssignment(e);
      case Call(_, _, _) => VisitCall(e);
    }

    method VisitBinary(e: Expr)
      requires e.Binary?
      modifies this
      ensures var r := LowerExpr(e, old(Counters())); Appended(r.code, r.next) && lastOperand == r.op
      decreases e, 0
    {
      VisitExpr(e.left);
      var left := lastOperand;
      VisitExpr(e.right);
      var right := lastOperand;
      var dest := NewTempReg();
      Emit([Bin(e.op, dest, left, right)]);
      lastOperand := Reg(dest);
      assert instructions == old(instructions) + LowerExpr(e, old(Counters())).code;
    }

    method VisitLogical(e: Expr)
      requires e.Logical?
      modifies this
      ensures var r := LowerExpr(e, old(Counters())); Appended(r.code, r.next) && lastOperand == r.op
      decreases e, 0
    {
      hide LowerExpr, SkipCode, JoinCode;
      LogicalCode(e, Counters());
      var end := NewLabel();
      var dest := Var(Hidden(nextHidden));
      nextHidden := nextHidden + 1;
      ghost var a := LowerExpr(e.left, Counters());
      VisitExpr(e.left);
      var left := lastOperand;
      EmitSkip(e.isAnd, dest, left, end);
      ghost var b := LowerExpr(e.right, Counters());
      VisitExpr(e.right);
      var right := lastOperand;
      var final := NewTempReg();
      Emit(JoinCode(dest, right, end, final));
      lastOperand := Reg(final);
      Flatten4(old(instructions), a.code, SkipCode(e.isAnd, dest, left, end, a.next.lbl), b.code,
               JoinCode(dest, right, end, final));
    }

    method EmitSkip(isAnd: bool, dest: Operand, left: Operand, end: nat)
      modifies this`instructions, this`nextLabel
      ensures instructions == old(instructions) + SkipCode(isAnd, dest, left, end, old(nextLabel))
      ensures nextLabel == if isAnd then old(nextLabel) else old(nextLabel) + 1
    {
      if isAnd {
        Emit([Assign(dest, Imm(0)), IfZ(left, end)]);
      } else {
        var evalRight := NewLabel();
        Emit([Assign(dest, Imm(1)), IfZ(left, evalRight), Goto(end), Label(evalRight)]);
      }
    }

    method VisitUnary(e: Expr, o: Expr)
      requires e == Negate(o) || e == LogicalNot(o)
      modifies this
      ensures var r := LowerExpr(e, old(Counters())); Appended(r.code, r.next) && lastOperand == r.op
      decreases e, 0
    {
      VisitExpr(o);
      var operand := lastOperand;
      var dest := NewTempReg();
      if e.Negate? {
        Emit([Neg(dest, operand)]);
      } else {
        Emit([Not(dest, operand)]);
      }
      lastOperand := Reg(dest);
      assert instructions == old(instructions) + LowerExpr(e, old(Counters())).code;
    }

    method VisitAssignment(e: Expr)
      requires e.Assignment?
      modifies this
      ensures var r := LowerExpr(e, old(Counters())); Appended(r.code, r.next) && lastOperand == r.op
      decreases e, 0
    {
      VisitExpr(e.rvalue);
      var value := lastOperand;
      var target := NewTempReg();
      Emit([AddrOf(target, Mangle(e.lvalue)), Store(Reg(target), value)]);
      lastOperand := value;
      assert instructions == old(instructions) + LowerExpr(e, old(Counters())).code;
    }

    method VisitCall(e: Expr)
      requires e.Call?
      modifies this
      ensures var r := LowerExpr(e, old(Counters())); Appended(r.code, r.next) && lastOperand == r.op
      decreases e, 0
    {
      hide LowerArgs;
      var ops := VisitArgs(e.args);
      EmitPreparation(ops);
      if e.isVoid {
        lastOperand := Imm(0);
        Emit([LCall(None, e.func)]);
      } else {
        var dest := NewTempReg();
        lastOperand := Reg(dest);
        Emit([LCall(Some(dest), e.func)]);
      }
      assert instructions == old(instructions) + LowerExpr(e, old(Counters())).code;
    }

    method EmitPreparation(ops: seq<Operand>)
      modifies this`instructions
      ensures instructions == old(instructions) + [BeginPrep] + Pushes(ops)
    {
      Emit([BeginPrep]);
      ghost var prepared := instructions;
      for i := 0 to |ops|
        invariant instructions == prepared + Pushes(ops)[..i]
      {
        Emit([PushArg(ops[i])]);
        assert Pushes(ops)[..i + 1] == Pushes(ops)[..i] + [PushArg(ops[i])];
      }
      assert Pushes(ops)[..|ops|] == Pushes(ops);
    }

    /** Evaluates all arguments before any of them is pushed. */
    method VisitArgs(es: Exprs) returns (ops: seq<Operand>)
      modifies this
      ensures var r := LowerArgs(es, old(Counters())); Appended(r.code, r.next) && ops == r.ops
      decreases es, 0
    {
      hide LowerExpr;
      ops := [];
      var rest := es;
      ghost var whole := LowerArgs(es, Counters());
      while rest.ConsExpr?
        invariant rest == es || rest < es
        invariant loopContexts == old(loopContexts) && epilogue == old(epilogue)
        invariant var r := LowerArgs(rest, Counters());
          && instructions + r.code == old(instructions) + whole.code
          && ops + r.ops == whole.ops && r.next == whole.next
        decreases rest
      {
        ghost var before, known, a := instructions, ops, LowerExpr(rest.head, Counters());
        ghost var b := LowerArgs(rest.tail, a.next);
        VisitExpr(rest.head);
        ops := ops + [lastOperand];
        rest := rest.tail;
        assert before + (a.code + b.code) == before + a.code + b.code;
        assert known + ([a.op] + b.ops) == known + [a.op] + b.ops;
      }
      assert instructions + [] == instructions && ops + [] == ops;
    }

    // Statements

    method VisitStmt(s: Stmt)
      requires Fits(s, Inside())
      modifies this
      ensures var r := LowerStmt(s, old(Counters()), old(Inside())); Appended(r.code, r.next)
      decreases s, 2
    {
      match s
      case ExprStmt(e) => VisitExpr(e);
      case VarDecl(_, _) => VisitDecl(s);
      case Block(ss) => VisitBlock(ss);
      case If(_, _, _) => VisitIf(s);
      case While(_, _) => VisitWhile(s);
      case For(_, _, _, _) => VisitFor(s);
      case Break => Emit([Goto(loopContexts[|loopContexts| - 1].brk)]);
      case Continue => Emit([Goto(loopContexts[|loopContexts| - 1].cont)]);
      case Switch(_, _) => VisitSwitch(s);
      case Print(es) => VisitPrint(es);
      case ReturnStmt(v) => VisitReturn(v);
      case ExitStmt(c) => VisitExit(c);
    }

    method VisitDecl(s: Stmt)
      requires s.VarDecl?
      modifies this
      ensures var r := LowerDecl(s, old(Counters())); Appended(r.code, r.next)
    {
      if s.init.Some? {
        VisitExpr(s.init.value);
        Emit([Assign(Var(Mangle(s.name)), lastOperand)]);
      } else {
        Emit([Assign(Var(Mangle(s.name)), Imm(0))]);
      }
      assert instructions == old(instructions) + LowerDecl(s, old(Counters())).code;
    }

    method VisitReturn(v: Option<Expr>)
      requires epilogue.Some?
      modifies this
      ensures var r := LowerReturn(v, old(Counters()), old(epilogue.value)); Appended(r.code, r.next)
    {
      if v.Some? {
        VisitExpr(v.value);
        Emit([Return(Some(lastOperand))]);
      } else {
        Emit([Return(None)]);
      }
      Emit([Goto(epilogue.value)]);
      assert instructions == old(instructions) + LowerReturn(v, old(Counters()), old(epilogue.value)).code;
    }

    method VisitExit(c: Option<Expr>)
      modifies this
      ensures var r := LowerExit(c, old(Counters())); Appended(r.code, r.next)
    {
      if c.Some? {
        VisitExpr(c.value);
        Emit([Exit(lastOperand)]);
      } else {
        Emit([Exit(Imm(0))]);
      }
      assert instructions == old(instructions) + LowerExit(c, old(Counters())).code;
    }

    method VisitPrint(es: Exprs)
      modifies this
      ensures var r := LowerPrint(es, old(Counters())); Appended(r.code, r.next)
    {
      var rest := es;
      ghost var whole := LowerPrint(es, Counters());
      while rest.ConsExpr?
        invariant loopContexts == old(loopContexts) && epilogue == old(epilogue)
        invariant var r := LowerPrint(rest, Counters());
          instructions + r.code == old(instructions) + whole.code && r.next == whole.next
        decreases rest
      {
        ghost var before, a := instructions, LowerExpr(rest.head, Counters());
        ghost var b := LowerPrint(rest.tail, a.next);
        VisitExpr(rest.head);
        EmitPrintCall(lastOperand);
        rest := rest.tail;
        Flatten3(before, a.code, PrintCall(a.op), b.code);
      }
      assert instructions + [] == instructions;
    }

    method EmitPrintCall(value: Operand)
      modifies this`instructions
      ensures instructions == old(instructions) + PrintCall(value)
    {
      EmitPreparation([Imm(1), value]);
      Emit([LCall(None, "print_int")]);
      Flatten3(old(instructions), [BeginPrep], Pushes([Imm(1), value]), [LCall(None, "print_int")]);
    }

    method VisitBlock(ss: Stmts)
      requires FitsAll(ss, Inside())
      modifies this
      ensures var r := LowerAll(ss, old(Counters()), old(Inside())); Appended(r.code, r.next)
      decreases ss, 0
    {
      var rest := ss;
      ghost var whole := LowerAll(ss, Counters(), Inside());
      while rest.ConsStmt?
        invariant rest == ss || rest < ss
        invariant loopContexts == old(loopContexts) && epilogue == old(epilogue)
        invariant FitsAll(rest, Inside())
        invariant var r := LowerAll(rest, Counters(), Inside());
          instructions + r.code == old(instructions) + whole.code && r.next == whole.next
        decreases rest
      {
        ghost var before, a := instructions, LowerStmt(rest.head, Counters(), Inside());
        ghost var b := LowerAll(rest.tail, a.next, Inside());
        VisitStmt(rest.head);
        rest := rest.tail;
        Flatten3(before, a.code, b.code, []);
        assert before + (a.code + b.code) == before + a.code + b.code;
      }
      assert instructions + [] == instructions;
    }

    method VisitTest(test: Option<Expr>, end: nat)
      modifies this
      ensures var r := LowerTest(test, end, old(Counters())); Appended(r.code, r.next)
    {
      if test.Some? {
        VisitExpr(test.value);
        Emit([IfZ(lastOperand, end)]);
      }
      assert instructions == old(instructions) + LowerTest(test, end, old(Counters())).code;
    }

    method VisitIf(s: Stmt)
      requires s.If? && Fits(s, Inside())
      modifies this
      ensures var r := LowerIf(s, old(Counters()), old(Inside())); Appended(r.code, r.next)
      decreases s, 1
    {
      hide LowerStmt, LowerExpr;
      VisitExpr(s.cond);
      var cond := lastOperand;
      var els := NewLabel();
      var end := NewLabel();
      Emit([IfZ(cond, els)]);
      assert instructions == old(instructions) + LowerTest(Some(s.cond), els, old(Counters())).code;
      ghost var test, yes := LowerTest(Some(s.cond), els, old(Counters())).code, LowerStmt(s.thenBranch, Counters(), Inside());
      VisitStmt(s.thenBranch);
      if s.elseBranch.Some? {
        Emit([Goto(end), Label(els)]);
        ghost var no := LowerStmt(s.elseBranch.value, Counters(), Inside());
        VisitStmt(s.elseBranch.value);
        Emit([Label(end)]);
        Flatten5(old(instructions), test, yes.code, [Goto(end), Label(els)], no.code, [Label(end)]);
      } else {
        Emit([Label(els)]);
        Flatten3(old(instructions), test, yes.code, [Label(els)]);
      }
    }

    method VisitWhile(s: Stmt)
      requires s.While? && Fits(s, Inside())
      modifies this
      ensures var r := LowerWhile(s, old(Counters()), old(Inside())); Appended(r.code, r.next)
      decreases s, 1
    {
      hide LowerStmt, LowerTest;
      var start := NewLabel();
      var end := NewLabel();
      loopContexts := loopContexts + [LoopTargets(start, end)];
      Emit([Label(start)]);
      ghost var test := LowerTest(Some(s.cond), end, Counters());
      VisitTest(Some(s.cond), end);
      ghost var body := LowerStmt(s.body, Counters(), Inside());
      VisitStmt(s.body);
      Emit([Goto(start), Label(end)]);
      loopContexts := loopContexts[..|loopContexts| - 1];
      Flatten4(old(instructions), [Label(start)], test.code, body.code, [Goto(start), Label(end)]);
    }

    method VisitFor(s: Stmt)
      requires s.For? && Fits(s, Inside())
      modifies this
      ensures var r := LowerFor(s, old(Counters()), old(Inside())); Appended(r.code, r.next)
      decreases s, 1
    {
      hide LowerStmt, LowerForLoop;
      if s.first.Some? {
        VisitStmt(s.first.value);
      }
      ghost var a, b := instructions, LowerForLoop(s, Counters(), Inside());
      VisitForLoop(s);
      ghost var c := if s.first.None? then [] else LowerStmt(s.first.value, old(Counters()), old(Inside())).code;
      assert a == old(instructions) + c;
      Flatten3(old(instructions), c, b.code, []);
    }

    method VisitForLoop(s: Stmt)
      requires s.For? && Fits(s, Inside())
      modifies this
      ensures var r := LowerForLoop(s, old(Counters()), old(Inside())); Appended(r.code, r.next)
      decreases s, 0
    {
      hide LowerStmt, LowerTest, LowerIter;
      var again := NewLabel();
      var step := NewLabel();
      var end := NewLabel();
      loopContexts := loopContexts + [LoopTargets(step, end)];
      Emit([Label(again)]);
      ghost var test := LowerTest(s.test, end, Counters());
      VisitTest(s.test, end);
      ghost var body := LowerStmt(s.body, Counters(), Inside());
      VisitStmt(s.body);
      ghost var iter := LowerIter(s.iter, Counters());
      VisitIter(s.iter, step, again);
      Emit([Label(end)]);
      loopContexts := loopContexts[..|loopContexts| - 1];
      Flatten5(old(instructions), [Label(again)], test.code, body.code,
               [Label(step)] + (iter.code + [Goto(again)]), [Label(end)]);
    }

    method VisitIter(iter: Option<Expr>, step: nat, again: nat)
      modifies this
      ensures var r := LowerIter(iter, old(Counters())); Appended([Label(step)] + (r.code + [Goto(again)]), r.next)
    {
      Emit([Label(step)]);
      if iter.Some? {
        VisitExpr(iter.value);
      }
      Emit([Goto(again)]);
      ghost var code := LowerIter(iter, old(Counters())).code;
      assert instructions == old(instructions) + [Label(step)] + code + [Goto(again)];
    }

    method VisitSwitch(s: Stmt)
      requires s.Switch? && Fits(s, Inside())
      modifies this
      ensures var r := LowerSwitch(s, old(Counters()), old(Inside())); Appended(r.code, r.next)
      decreases s, 1
    {
      hide LowerExpr, LowerCases;
      VisitExpr(s.subject);
      VisitCases(s.cases, lastOperand);
      assert instructions == old(instructions) + LowerSwitch(s, old(Counters()), old(Inside())).code;
    }

    method VisitCases(cases: Cases, subject: Operand)
      requires FitsCases(cases, Inside())
      modifies this
      ensures var r := LowerCases(cases, subject, old(Counters()), old(Inside())); Appended(r.code, r.next)
      decreases cases, 1
    {
      hide LowerDispatch, LowerBodies, LowerDefault;
      var first := nextLabel;
      var defaultCase := AllocateCaseLabels(cases);
      var end := NewLabel();
      var otherwise := if defaultCase.Some? then defaultCase.value.0 else end;
      EmitSwitch(cases, subject, first, end, otherwise, defaultCase);
    }

    method EmitSwitch(cases: Cases, subject: Operand, first: nat, end: nat, otherwise: nat, d: Option<(nat, Stmt)>)
      requires FitsCases(cases, Inside())
      requires LastDefault(cases) == if d.Some? then Some(d.value.1) else None
      modifies this
      ensures var c := LowerDispatch(cases, subject, first, old(Counters()));
        var b := LowerBodies(cases, first, end, c.next, old(Inside()));
        var z := LowerDefault(cases, otherwise, b.next, old(Inside()));
        Appended(SwitchCode(c.code, otherwise, b.code, z.code, end), z.next)
      decreases cases, 0, 1
    {
      ghost var c := LowerDispatch(cases, subject, first, Counters());
      VisitDispatch(cases, subject, first);
      Emit([Goto(otherwise)]);
      ghost var b := LowerBodies(cases, first, end, Counters(), Inside());
      VisitBodies(cases, first, end);
      ghost var z := LowerDefault(cases, otherwise, Counters(), Inside());
      VisitDefault(cases, otherwise, d);
      Emit([Label(end)]);
      Flatten5(old(instructions), c.code, [Goto(otherwise)], b.code, z.code, [Label(end)]);
    }

    method VisitDefault(cases: Cases, l: nat, d: Option<(nat, Stmt)>)
      requires FitsCases(cases, Inside())
      requires LastDefault(cases) == if d.Some? then Some(d.value.1) else None
      modifies this
      ensures var r := LowerDefault(cases, l, old(Counters()), old(Inside())); Appended(r.code, r.next)
      decreases cases, 0, 0
    {
      if d.Some? {
        PlacedDefault(cases, Inside().loop.Some?, Inside().epilogue.Some?);
        Emit([Label(l)]);
        VisitStmt(d.value.1);
      }
      assert instructions == old(instructions) + LowerDefault(cases, l, old(Counters()), old(Inside())).code;
    }

    /** One label per case; the last default case is remembered with its label. */
    method AllocateCaseLabels(cases: Cases) returns (d: Option<(nat, Stmt)>)
      modifies this`nextLabel
      ensures nextLabel == old(nextLabel) + CaseCount(cases)
      ensures d.Some? <==> LastDefault(cases).Some?
      ensures d.Some? ==>
        Some(d.value.0) == DefaultLabel(cases, old(nextLabel)) && Some(d.value.1) == LastDefault(cases)
    {
      d := None;
      var rest := cases;
      while rest.ConsCase?
        invariant nextLabel + CaseCount(rest) == old(nextLabel) + CaseCount(cases)
        invariant LastDefault(cases) ==
          if LastDefault(rest).Some? then LastDefault(rest) else if d.Some? then Some(d.value.1) else None
        invariant DefaultLabel(cases, old(nextLabel)) ==
          if DefaultLabel(rest, nextLabel).Some? then DefaultLabel(rest, nextLabel)
          else if d.Some? then Some(d.value.0) else None
        decreases rest
      {
        var l := NewLabel();
        if rest.cond.None? {
          d := Some((l, rest.body));
        }
        rest := rest.tail;
      }
    }

    method VisitDispatch(cases: Cases, subject: Operand, first: nat)
      modifies this
      ensures var r := LowerDispatch(cases, subject, first, old(Counters())); Appended(r.code, r.next)
    {
      var rest, l := cases, first;
      ghost var whole := LowerDispatch(cases, subject, first, Counters());
      while rest.ConsCase?
        invariant loopContexts == old(loopContexts) && epilogue == old(epilogue)
        invariant var r := LowerDispatch(rest, subject, l, Counters());
          instructions + r.code == old(instructions) + whole.code && r.next == whole.next
        decreases rest
      {
        if rest.cond.Some? {
          ghost var before := instructions;
          var cmp := NewTempReg();
          ghost var a := LowerExpr(rest.cond.value, Counters());
          ghost var b := LowerDispatch(rest.tail, subject, l + 1, a.next);
          VisitExpr(rest.cond.value);
          Emit([Bin(Cmp(CmpNe), cmp, subject, lastOperand), IfZ(Reg(cmp), l)]);
          Flatten3(before, a.code, [Bin(Cmp(CmpNe), cmp, subject, a.op), IfZ(Reg(cmp), l)], b.code);
        }
        rest, l := rest.tail, l + 1;
      }
      assert instructions + [] == instructions;
    }

    method VisitBodies(cases: Cases, first: nat, end: nat)
      requires FitsCases(cases, Inside())
      modifies this
      ensures var r := LowerBodies(cases, first, end, old(Counters()), old(Inside())); Appended(r.code, r.next)
      decreases cases, 0, 0
    {
      hide LowerStmt;
      var rest, l := cases, first;
      ghost var whole := LowerBodies(cases, first, end, Counters(), Inside());
      while rest.ConsCase?
        invariant rest == cases || rest < cases
        invariant loopContexts == old(loopContexts) && epilogue == old(epilogue)
        invariant FitsCases(rest, Inside())
        invariant var r := LowerBodies(rest, l, end, Counters(), Inside());
          instructions + r.code == old(instructions) + whole.code && r.next == whole.next
        decreases rest
      {
        if rest.cond.Some? {
          ghost var before, a := instructions, LowerStmt(rest.body, Counters(), Inside());
          ghost var b := LowerBodies(rest.tail, l + 1, end, a.next, Inside());
          Emit([Label(l)]);
          VisitStmt(rest.body);
          Emit([Goto(end)]);
          Flatten4(before, [Label(l)], a.code, [Goto(end)], b.code);
        }
        rest, l := rest.tail, l + 1;
      }
      assert instructions + [] == instructions;
    }

    /** A function definition; the enclosing function's epilogue is put back afterwards. */
    method VisitFunction(fn: Func)
      requires Placed(fn.body, false, true) && loopContexts == []
      modifies this
      ensures var r := LowerFunc(fn, old(Counters())); Appended(r.code, r.next)
    {
      Emit([BeginFunc(FuncLabel(fn.name))]);
      VisitParams(fn.params);
      var epilogueLabel := NewLabel();
      var previous := epilogue;
      epilogue := Some(epilogueLabel);
      ghost var body := LowerStmt(fn.body, Counters(), Inside());
      VisitStmt(fn.body);
      var last := if fn.retvar.Some? then Some(Var(Mangle(fn.retvar.value))) else None;
      Emit([Return(last), Label(epilogueLabel), EndFunc]);
      epilogue := previous;
      Flatten4(old(instructions), [BeginFunc(FuncLabel(fn.name))], ParamMoves(fn.params, 0), body.code,
               [Return(last), Label(epilogueLabel), EndFunc]);
    }

    /** All functions, in order. */
    method VisitAll(fns: seq<Func>)
      requires AllPlaced(fns) && loopContexts == []
      modifies this
      ensures var r := LowerProgram(fns, old(Counters())); Appended(r.code, r.next)
    {
      hide LowerFunc, LowerProgram;
      ghost var whole := LowerProgram(fns, Counters());
      assert fns[0..] == fns;
      assert instructions + whole.code == old(instructions) + whole.code;
      for k := 0 to |fns|
        invariant loopContexts == [] && epilogue == old(epilogue)
        invariant instructions + LowerProgram(fns[k..], Counters()).code == old(instructions) + whole.code
        invariant LowerProgram(fns[k..], Counters()).next == whole.next
      {
        ProgramStep(fns, k, Counters());
        ghost var before := instructions;
        ghost var a := LowerFunc(fns[k], Counters());
        VisitFunction(fns[k]);
        assert before + (a.code + LowerProgram(fns[k + 1..], a.next).code) == before + a.code + LowerProgram(fns[k + 1..], a.next).code;
      }
      NoProgram(fns[|fns|..], Counters());
      assert instructions + [] == instructions;
    }

    static lemma {:induction false} ProgramStep(fns: seq<Func>, k: nat, f: Fresh)
      requires AllPlaced(fns) && k < |fns|
      ensures var a := LowerFunc(fns[k], f);
        var b := LowerProgram(fns[k + 1..], a.next);
        LowerProgram(fns[k..], f) == StmtCode(a.code + b.code, b.next)
    {
      hide LowerFunc;
      assert fns[k..][0] == fns[k] && fns[k..][1..] == fns[k + 1..];
    }

    static lemma {:induction false} NoProgram(fns: seq<Func>, f: Fresh)
      requires fns == []
      ensures LowerProgram(fns, f) == StmtCode([], f)
    {
    }

    method VisitParams(params: seq<Name>)
      modifies this`instructions
      ensures instructions == old(instructions) + ParamMoves(params, 0)
    {
      var i := 0;
      while i < |params|
        invariant i <= |params|
        invariant instructions + ParamMoves(params, i) == old(instructions) + ParamMoves(params, 0)
      {
        Emit([Assign(Var(Mangle(params[i])), Slot(i))]);
        i := i + 1;
      }
      assert instructions + [] == instructions;
    }
  }
}
