/** Running the code of an expression computes what the expression means. */
module LoweringExprs {
  import opened Options
  import opened Ir
  import opened Source
  import opened Lowering
  import Decimal

  // Names

  predicate Identifier(v: VarName) {
    v.User? ==> v.ident != "" && v.ident[0] != '.'
  }

  /** Different variables are spelled differently, so looking them up by spelling is safe. */
  lemma {:induction false} SpellingInjective(x: VarName, y: VarName)
    requires Identifier(x) && Identifier(y) && Spelling(x) == Spelling(y)
    ensures x == y
  {
    DotMarksHidden(x);
    DotMarksHidden(y);
    if x.User? && y.User? {
      UserInjective(x, y);
    } else if x.Hidden? && y.Hidden? {
      assert Decimal.ToString(x.k) == Spelling(x)[11..] && Decimal.ToString(y.k) == Spelling(y)[11..];
      Decimal.ToStringInjective(x.k, y.k);
    }
  }

  lemma DotMarksHidden(v: VarName)
    requires Identifier(v)
    ensures Spelling(v) != "" && (Spelling(v)[0] == '.' <==> v.Hidden?)
  {
  }

  lemma UserInjective(x: VarName, y: VarName)
    requires x.User? && y.User? && Spelling(x) == Spelling(y)
    ensures x == y
  {
    var s, i, j := Spelling(x), |x.ident|, |y.ident|;
    if i < j {
      LastUnderscore(x, y);
    } else if j < i {
      LastUnderscore(y, x);
    }
    assert x.ident == s[..i] && y.ident == s[..j];
    assert Decimal.ToString(x.scope) == s[i + 1..] && Decimal.ToString(y.scope) == s[j + 1..];
    Decimal.ToStringInjective(x.scope, y.scope);
  }

  /** Digits hold no underscore, so the last one separates name and scope. */
  lemma LastUnderscore(x: VarName, y: VarName)
    requires x.User? && y.User? && |x.ident| < |y.ident|
    ensures Spelling(x) != Spelling(y)
  {
    var j := |y.ident|;
    assert Spelling(y)[j] == '_';
    if j < |Spelling(x)| {
      assert Spelling(x)[j] == Decimal.ToString(x.scope)[j - |x.ident| - 1];
      assert Decimal.IsDigit(Spelling(x)[j]);
    }
  }

  // Code in place

  predicate At(c: seq<Instr>, p: nat, part: seq<Instr>) {
    p + |part| <= |c| && forall i :: 0 <= i < |part| ==> c[p + i] == part[i]
  }

  lemma AtSplit(c: seq<Instr>, p: nat, a: seq<Instr>, b: seq<Instr>)
    requires At(c, p, a + b)
    ensures At(c, p, a) && At(c, p + |a|, b)
  {
    var ab := a + b;
    assert forall i :: 0 <= i < |a| ==> a[i] == ab[i];
    forall i | 0 <= i < |b|
      ensures c[p + |a| + i] == b[i]
    {
      assert b[i] == ab[|a| + i];
    }
  }

  lemma AtSplit3(c: seq<Instr>, p: nat, x: seq<Instr>, y: seq<Instr>, z: seq<Instr>)
    requires At(c, p, x + y + z)
    ensures At(c, p, x) && At(c, p + |x|, y) && At(c, p + |x| + |y|, z)
  {
    AtSplit(c, p, x + y, z);
    AtSplit(c, p, x, y);
  }

  lemma AtOne(c: seq<Instr>, p: nat, part: seq<Instr>, k: nat)
    requires At(c, p, part) && k < |part|
    ensures c[p + k] == part[k]
  {
  }

  // Machine against source state

  ghost predicate Agree(store: map<Name, int>, vars: map<VarName, int>) {
    forall x: Name :: x in store ==> Mangle(x) in vars && vars[Mangle(x)] == store[x]
  }

  ghost predicate Matches(m: Machine, st: State) {
    Agree(st.store, m.vars) && m.trace == st.trace && m.prep.None? && m.exited.None?
  }

  ghost predicate KeepsRegs(m: Machine, m': Machine, n: nat) {
    forall r: nat :: r < n && r in m.regs ==> r in m'.regs && m'.regs[r] == m.regs[r]
  }

  /** The operand stands for the late value, in a register below `n` if in any. */
  predicate Holds(m: Machine, op: Operand, v: Late, n: nat) {
    match v
    case Known(k) => op == Imm(k) || (op.Reg? && op.id < n && op.id in m.regs && m.regs[op.id] == Num(k))
    case Named(x) => op == Var(Mangle(x))
  }

  /** `m'` is at `q`, matches `st`, and kept the registers below `n`. */
  ghost predicate After(m: Machine, m': Machine, q: nat, st: State, n: nat) {
    && m'.pc == q && Matches(m', st) && KeepsRegs(m, m', n)
    && m'.params == m.params && m'.ret == m.ret
  }

  lemma HoldsValue(m: Machine, op: Operand, v: Late, n: nat, st: State)
    requires Holds(m, op, v, n) && Agree(st.store, m.vars) && Resolve(v, st).Some?
    ensures NumVal(m, op) == Resolve(v, st)
  {
  }

  lemma Then(w: World, c: seq<Instr>, a: Machine, b: Machine, b': Machine)
    requires Reaches(w, c, a, b) && Step(w, c, b) == Some(b')
    ensures Reaches(w, c, a, b')
  {
    ReachesStep(w, c, b, b');
    ReachesTrans(w, c, a, b, b');
  }

  // Expressions

  /** What running the code `r` of an expression at `p` must do. */
  ghost predicate Computes(w: World, c: seq<Instr>, p: nat, r: ExprCode, f: Fresh, d: EvalResult, m: Machine, m': Machine) {
    && d.Done?
    && Reaches(w, c, m, m')
    && After(m, m', p + |r.code|, d.st, f.reg)
    && Holds(m', r.op, d.value, r.next.reg)
  }

  ghost predicate Ready(c: seq<Instr>, p: nat, code: seq<Instr>, m: Machine, st: State) {
    At(c, p, code) && UniqueLabels(c) && m.pc == p && Matches(m, st)
  }

  lemma {:induction false} ExprRuns(w: World, e: Expr, f: Fresh, r: ExprCode, c: seq<Instr>, p: nat,
                                    m: Machine, st: State, d: EvalResult)
    returns (m': Machine)
    requires r == LowerExpr(e, f) && Ready(c, p, r.code, m, st)
    requires d == Eval(w, OnUse, e, st) && d.Done?
    ensures Computes(w, c, p, r, f, d, m, m')
    decreases e, 1
  {
    match e
    case Lit(_) =>
      m' := m;
      ReachesRefl(w, c, m);
    case Ident(_) =>
      m' := m;
      ReachesRefl(w, c, m);
    case Binary(_, _, _) => m' := BinaryRuns(w, e, f, r, c, p, m, st, d);
    case Logical(_, _, _) => m' := LogicalRuns(w, e, f, r, c, p, m, st, d);
    case Negate(o) => m' := UnaryRuns(w, e, o, f, r, c, p, m, st, d);
    case LogicalNot(o) => m' := UnaryRuns(w, e, o, f, r, c, p, m, st, d);
    case Grouped(i) => m' := ExprRuns(w, i, f, r, c, p, m, st, d);
    case Assignment(_, _) => m' := AssignmentRuns(w, e, f, r, c, p, m, st, d);
    case Call(_, _, _) => m' := CallRuns(w, e, f, r, c, p, m, st, d);
  }

  lemma {:induction false} BinaryRuns(w: World, e: Expr, f: Fresh, r: ExprCode, c: seq<Instr>, p: nat,
                                      m: Machine, st: State, d: EvalResult)
    returns (m': Machine)
    requires e.Binary?
    requires r == LowerExpr(e, f) && Ready(c, p, r.code, m, st)
    requires d == Eval(w, OnUse, e, st) && d.Done?
    ensures Computes(w, c, p, r, f, d, m, m')
    decreases e, 0
  {
    var a := LowerExpr(e.left, f);
    var b := LowerExpr(e.right, a.next);
    var last := Bin(e.op, b.next.reg, a.op, b.op);
    AtSplit3(c, p, a.code, b.code, [last]);
    AtOne(c, p + |a.code| + |b.code|, [last], 0);
    var x := Eval(w, OnUse, e.left, st);
    var m1 := ExprRuns(w, e.left, f, a, c, p, m, st, x);
    var y := Eval(w, OnUse, e.right, x.st);
    var m2 := ExprRuns(w, e.right, a.next, b, c, p + |a.code|, m1, x.st, y);
    ReachesTrans(w, c, m, m1, m2);
    HoldsValue(m2, a.op, x.value, a.next.reg, y.st);
    HoldsValue(m2, b.op, y.value, b.next.reg, y.st);
    m' := Step(w, c, m2).value;
    Then(w, c, m, m2, m');
  }

  lemma {:induction false} UnaryRuns(w: World, e: Expr, o: Expr, f: Fresh, r: ExprCode, c: seq<Instr>, p: nat,
                                     m: Machine, st: State, d: EvalResult)
    returns (m': Machine)
    requires e == Negate(o) || e == LogicalNot(o)
    requires r == LowerExpr(e, f) && Ready(c, p, r.code, m, st)
    requires d == Eval(w, OnUse, e, st) && d.Done?
    ensures Computes(w, c, p, r, f, d, m, m')
    decreases e, 0
  {
    var a := LowerExpr(o, f);
    var last := if e.Negate? then Neg(a.next.reg, a.op) else Not(a.next.reg, a.op);
    AtSplit(c, p, a.code, [last]);
    AtOne(c, p + |a.code|, [last], 0);
    var x := Eval(w, OnUse, o, st);
    var m1 := ExprRuns(w, o, f, a, c, p, m, st, x);
    HoldsValue(m1, a.op, x.value, a.next.reg, x.st);
    m' := UnaryStep(w, c, last, m1, Resolve(x.value, x.st).value);
    Then(w, c, m, m1, m');
  }

  lemma UnaryStep(w: World, c: seq<Instr>, i: Instr, m: Machine, n: int) returns (m': Machine)
    requires m.pc < |c| && c[m.pc] == i && (i.Neg? || i.Not?) && m.exited.None? && NumVal(m, i.src) == Some(n)
    ensures Step(w, c, m) == Some(m')
    ensures var v := if i.Neg? then w.neg(n) else if n == 0 then 1 else 0;
      m' == m.(pc := m.pc + 1, regs := m.regs[i.res := Num(v)])
  {
    m' := Step(w, c, m).value;
  }

  lemma {:induction false} AssignmentRuns(w: World, e: Expr, f: Fresh, r: ExprCode, c: seq<Instr>, p: nat,
                                          m: Machine, st: State, d: EvalResult)
    returns (m': Machine)
    requires e.Assignment?
    requires r == LowerExpr(e, f) && Ready(c, p, r.code, m, st)
    requires d == Eval(w, OnUse, e, st) && d.Done?
    ensures Computes(w, c, p, r, f, d, m, m')
    decreases e, 0
  {
    var a := LowerExpr(e.rvalue, f);
    var g := a.next.reg;
    var last := [AddrOf(g, Mangle(e.lvalue)), Store(Reg(g), a.op)];
    AtSplit(c, p, a.code, last);
    var x := Eval(w, OnUse, e.rvalue, st);
    var m1 := ExprRuns(w, e.rvalue, f, a, c, p, m, st, x);
    HoldsValue(m1, a.op, x.value, g, x.st);
    var n := Resolve(x.value, x.st).value;
    m' := StoreRuns(w, c, p + |a.code|, Mangle(e.lvalue), g, a.op, m1, n);
    ReachesTrans(w, c, m, m1, m');
  }

  lemma StoreRuns(w: World, c: seq<Instr>, p: nat, x: VarName, g: nat, op: Operand, m: Machine, n: int)
    returns (m': Machine)
    requires At(c, p, [AddrOf(g, x), Store(Reg(g), op)])
    requires m.pc == p && m.exited.None? && op != Reg(g) && NumVal(m, op) == Some(n)
    ensures Reaches(w, c, m, m')
    ensures m' == m.(pc := p + 2, regs := m.regs[g := Addr(x)], vars := m.vars[x := n])
  {
    var code := [AddrOf(g, x), Store(Reg(g), op)];
    AtOne(c, p, code, 0);
    AtOne(c, p, code, 1);
    var m1 := m.(pc := p + 1, regs := m.regs[g := Addr(x)]);
    ReachesStep(w, c, m, m1);
    assert NumVal(m1, op) == Some(n);
    m' := m1.(pc := p + 2, vars := m.vars[x := n]);
    Then(w, c, m, m1, m');
  }

  // Short-circuit operators

  lemma SkipRuns(w: World, c: seq<Instr>, p: nat, isAnd: bool, h: VarName, left: Operand, end: nat, evalRight: nat,
                 m: Machine, n: int)
    returns (m': Machine)
    requires At(c, p, SkipCode(isAnd, Var(h), left, end, evalRight)) && UniqueLabels(c)
    requires m.pc == p && m.exited.None?
    requires left != Var(h) && NumVal(m, left) == Some(n)
    ensures Reaches(w, c, m, m')
    ensures var skip := SkipCode(isAnd, Var(h), left, end, evalRight);
      m' == m.(pc := if (n == 0) == isAnd then FindLabel(c, end) else p + |skip|,
               vars := m.vars[h := if isAnd then 0 else 1])
  {
    var skip := SkipCode(isAnd, Var(h), left, end, evalRight);
    AtOne(c, p, skip, 0);
    AtOne(c, p, skip, 1);
    var m1 := m.(pc := p + 1, vars := m.vars[h := if isAnd then 0 else 1]);
    ReachesStep(w, c, m, m1);
    m' := Step(w, c, m1).value;
    Then(w, c, m, m1, m');
    if !isAnd {
      AtOne(c, p, skip, 2);
      AtOne(c, p, skip, 3);
      FindLabelAt(c, p + 3, evalRight);
      var m2 := m';
      m' := Step(w, c, m2).value;
      Then(w, c, m, m2, m');
    }
  }

  lemma JoinRuns(w: World, c: seq<Instr>, p: nat, h: VarName, right: Operand, end: nat, d: nat, m: Machine)
    returns (m': Machine)
    requires At(c, p, JoinCode(Var(h), right, end, d))
    requires m.pc == p + 1 && m.exited.None? && h in m.vars
    ensures Reaches(w, c, m, m')
    ensures m' == m.(pc := p + 3, regs := m.regs[d := Num(m.vars[h])])
  {
    var join := JoinCode(Var(h), right, end, d);
    AtOne(c, p, join, 1);
    AtOne(c, p, join, 2);
    var m1 := m.(pc := p + 2);
    ReachesStep(w, c, m, m1);
    m' := m1.(pc := p + 3, regs := m1.regs[d := Num(m.vars[h])]);
    Then(w, c, m, m1, m');
  }

  lemma {:induction false} LogicalRuns(w: World, e: Expr, f: Fresh, r: ExprCode, c: seq<Instr>, p: nat,
                                       m: Machine, st: State, d: EvalResult)
    returns (m': Machine)
    requires e.Logical?
    requires r == LowerExpr(e, f) && Ready(c, p, r.code, m, st)
    requires d == Eval(w, OnUse, e, st) && d.Done?
    ensures Computes(w, c, p, r, f, d, m, m')
    decreases e, 0, 1
  {
    var f1 := f.(lbl := f.lbl + 1, hidden := f.hidden + 1);
    var a := LowerExpr(e.left, f1);
    var f2 := if e.isAnd then a.next else a.next.(lbl := a.next.lbl + 1);
    var b := LowerExpr(e.right, f2);
    var skip, join := LogicalPlaces(e, f, a, b, r, c, p);
    var x := Eval(w, OnUse, e.left, st);
    var m1 := ExprRuns(w, e.left, f1, a, c, p, m, st, x);
    if (Resolve(x.value, x.st).value == 0) == e.isAnd {
      m' := LeftEnough(w, c, p + |a.code|, e.isAnd, f.hidden, a, b.code, b.op, f.lbl, b.next.reg, m1, x);
      ReachesTrans(w, c, m, m1, m');
    } else {
      m' := RightRuns(w, e, f, r, c, p, m1, d, a, x);
      ReachesTrans(w, c, m, m1, m');
    }
  }

  /** From where the left operand has been evaluated and did not decide. */
  lemma {:induction false} RightRuns(w: World, e: Expr, f: Fresh, r: ExprCode, c: seq<Instr>, p: nat,
                                     m: Machine, d: EvalResult, a: ExprCode, x: EvalResult)
    returns (m': Machine)
    requires e.Logical? && r == LowerExpr(e, f) && At(c, p, r.code) && UniqueLabels(c)
    requires a == LowerExpr(e.left, f.(lbl := f.lbl + 1, hidden := f.hidden + 1))
    requires x.Done? && m.pc == p + |a.code| && Matches(m, x.st) && Holds(m, a.op, x.value, a.next.reg)
    requires Resolve(x.value, x.st).Some? && (Resolve(x.value, x.st).value == 0) != e.isAnd
    requires var y := Eval(w, OnUse, e.right, x.st);
      y.Done? && Resolve(y.value, y.st).Some? && d == Done(Known(Resolve(y.value, y.st).value), y.st)
    ensures Computes(w, c, p, r, f, d, m, m')
    decreases e, 0, 0
  {
    var f2 := if e.isAnd then a.next else a.next.(lbl := a.next.lbl + 1);
    var b := LowerExpr(e.right, f2);
    var skip, join := LogicalPlaces(e, f, a, b, r, c, p);
    var m2 := LeftPasses(w, c, p + |a.code|, e.isAnd, f.hidden, a, f.lbl, m, x);
    var y := Eval(w, OnUse, e.right, x.st);
    var m3 := ExprRuns(w, e.right, f2, b, c, p + |a.code| + |skip|, m2, x.st, y);
    ReachesTrans(w, c, m, m2, m3);
    m' := RightDecides(w, c, p + |a.code| + |skip| + |b.code|, f.hidden, b.op, f.lbl, b.next.reg, m3, y.value, y.st);
    ReachesTrans(w, c, m, m3, m');
  }

  lemma LogicalPlaces(e: Expr, f: Fresh, a: ExprCode, b: ExprCode, r: ExprCode, c: seq<Instr>, p: nat)
    returns (skip: seq<Instr>, join: seq<Instr>)
    requires e.Logical? && r == LowerExpr(e, f) && At(c, p, r.code)
    requires a == LowerExpr(e.left, f.(lbl := f.lbl + 1, hidden := f.hidden + 1))
    requires b == LowerExpr(e.right, if e.isAnd then a.next else a.next.(lbl := a.next.lbl + 1))
    ensures skip == SkipCode(e.isAnd, Var(Hidden(f.hidden)), a.op, f.lbl, a.next.lbl)
    ensures join == JoinCode(Var(Hidden(f.hidden)), b.op, f.lbl, b.next.reg)
    ensures r.code == a.code + skip + b.code + join && r.op == Reg(b.next.reg) && r.next.reg == b.next.reg + 1
    ensures At(c, p, a.code) && At(c, p + |a.code|, skip) && At(c, p + |a.code| + |skip|, b.code)
    ensures At(c, p + |a.code| + |skip| + |b.code|, join)
  {
    skip := SkipCode(e.isAnd, Var(Hidden(f.hidden)), a.op, f.lbl, a.next.lbl);
    join := JoinCode(Var(Hidden(f.hidden)), b.op, f.lbl, b.next.reg);
    AtSplit(c, p, a.code + skip + b.code, join);
    AtSplit3(c, p, a.code, skip, b.code);
  }

  lemma LeftPasses(w: World, c: seq<Instr>, p: nat, isAnd: bool, hid: nat, a: ExprCode, end: nat,
                   m: Machine, x: EvalResult)
    returns (m': Machine)
    requires x.Done?
    requires Ready(c, p, SkipCode(isAnd, Var(Hidden(hid)), a.op, end, a.next.lbl), m, x.st)
    requires Holds(m, a.op, x.value, a.next.reg)
    requires Resolve(x.value, x.st).Some? && (Resolve(x.value, x.st).value == 0) != isAnd
    ensures Reaches(w, c, m, m')
    ensures After(m, m', p + |SkipCode(isAnd, Var(Hidden(hid)), a.op, end, a.next.lbl)|, x.st, a.next.reg)
  {
    m' := LeftDecides(w, c, p, isAnd, hid, a.op, end, a.next.lbl, m, x.value, x.st, a.next.reg);
  }

  lemma LeftEnough(w: World, c: seq<Instr>, p: nat, isAnd: bool, hid: nat, a: ExprCode, rightCode: seq<Instr>,
                   right: Operand, end: nat, d: nat, m: Machine, x: EvalResult)
    returns (m': Machine)
    requires x.Done?
    requires var skip := SkipCode(isAnd, Var(Hidden(hid)), a.op, end, a.next.lbl);
      && Ready(c, p, skip, m, x.st)
      && At(c, p + |skip| + |rightCode|, JoinCode(Var(Hidden(hid)), right, end, d))
    requires Holds(m, a.op, x.value, a.next.reg) && a.next.reg <= d
    requires Resolve(x.value, x.st).Some? && (Resolve(x.value, x.st).value == 0) == isAnd
    ensures Reaches(w, c, m, m')
    ensures var skip := SkipCode(isAnd, Var(Hidden(hid)), a.op, end, a.next.lbl);
      After(m, m', p + |skip| + |rightCode| + 3, x.st, d)
    ensures d in m'.regs && m'.regs[d] == Num(if isAnd then 0 else 1)
  {
    var h := Hidden(hid);
    var q := p + |SkipCode(isAnd, Var(h), a.op, end, a.next.lbl)| + |rightCode|;
    AtOne(c, q, JoinCode(Var(h), right, end, d), 1);
    FindLabelAt(c, q + 1, end);
    var m1 := LeftDecides(w, c, p, isAnd, hid, a.op, end, a.next.lbl, m, x.value, x.st, a.next.reg);
    m' := JoinRuns(w, c, q, h, right, end, d, m1);
    ReachesTrans(w, c, m, m1, m');
  }

  lemma LeftDecides(w: World, c: seq<Instr>, p: nat, isAnd: bool, hid: nat, left: Operand, end: nat, evalRight: nat,
                    m: Machine, v: Late, st: State, n: nat)
    returns (m': Machine)
    requires var skip := SkipCode(isAnd, Var(Hidden(hid)), left, end, evalRight); Ready(c, p, skip, m, st)
    requires Holds(m, left, v, n) && Resolve(v, st).Some?
    ensures Reaches(w, c, m, m') && Matches(m', st)
    ensures var skip := SkipCode(isAnd, Var(Hidden(hid)), left, end, evalRight);
      m' == m.(pc := if (Resolve(v, st).value == 0) == isAnd then FindLabel(c, end) else p + |skip|,
               vars := m.vars[Hidden(hid) := if isAnd then 0 else 1])
  {
    HoldsValue(m, left, v, n, st);
    m' := SkipRuns(w, c, p, isAnd, Hidden(hid), left, end, evalRight, m, Resolve(v, st).value);
  }

  lemma RightDecides(w: World, c: seq<Instr>, p: nat, hid: nat, right: Operand, end: nat, d: nat,
                     m: Machine, v: Late, st: State)
    returns (m': Machine)
    requires Ready(c, p, JoinCode(Var(Hidden(hid)), right, end, d), m, st)
    requires Holds(m, right, v, d) && Resolve(v, st).Some?
    ensures Reaches(w, c, m, m') && After(m, m', p + 3, st, d)
    ensures d in m'.regs && m'.regs[d] == Num(Resolve(v, st).value)
  {
    HoldsValue(m, right, v, d, st);
    AtOne(c, p, JoinCode(Var(Hidden(hid)), right, end, d), 0);
    var k := Resolve(v, st).value;
    var m1 := m.(pc := p + 1, vars := m.vars[Hidden(hid) := k]);
    ReachesStep(w, c, m, m1);
    m' := JoinRuns(w, c, p, Hidden(hid), right, end, d, m1);
    ReachesTrans(w, c, m, m1, m');
  }

  // Calls

  ghost predicate HoldsAll(m: Machine, ops: seq<Operand>, vs: seq<Late>, n: nat) {
    |ops| == |vs| && forall i :: 0 <= i < |ops| ==> Holds(m, ops[i], vs[i], n)
  }

  lemma {:induction false} ArgsRun(w: World, es: Exprs, f: Fresh, r: ArgsCode, c: seq<Instr>, p: nat,
                                   m: Machine, st: State, d: ArgsResult)
    returns (m': Machine)
    requires r == LowerArgs(es, f) && Ready(c, p, r.code, m, st)
    requires d == EvalArgs(w, OnUse, es, st) && d.ArgsDone?
    ensures Reaches(w, c, m, m') && After(m, m', p + |r.code|, d.st, f.reg)
    ensures HoldsAll(m', r.ops, d.values, r.next.reg)
    decreases es, 1
  {
    match es
    case NoExprs =>
      m' := m;
      ReachesRefl(w, c, m);
    case ConsExpr(e, rest) =>
      var a := LowerExpr(e, f);
      var b := LowerArgs(rest, a.next);
      AtSplit(c, p, a.code, b.code);
      var x := Eval(w, OnUse, e, st);
      var m1 := ExprRuns(w, e, f, a, c, p, m, st, x);
      var y := EvalArgs(w, OnUse, rest, x.st);
      m' := ArgsRun(w, rest, a.next, b, c, p + |a.code|, m1, x.st, y);
      ReachesTrans(w, c, m, m1, m');
      assert Holds(m', a.op, x.value, b.next.reg);
  }

  lemma {:induction false} PushesRun(w: World, c: seq<Instr>, p: nat, ops: seq<Operand>, vs: seq<Late>, ns: seq<int>,
                                     m: Machine, st: State, n: nat)
    returns (m': Machine)
    requires At(c, p, Pushes(ops)) && HoldsAll(m, ops, vs, n)
    requires Agree(st.store, m.vars) && ResolveAll(vs, st) == Some(ns)
    requires m.pc == p && m.prep.Some? && m.exited.None?
    ensures Reaches(w, c, m, m')
    ensures m' == m.(pc := p + |ops|, prep := Some(m.prep.value + ns))
    decreases |ops|
  {
    if ops == [] {
      m' := m;
      ReachesRefl(w, c, m);
      assert m.prep.value + ns == m.prep.value;
    } else {
      assert Pushes(ops) == [PushArg(ops[0])] + Pushes(ops[1..]);
      AtSplit(c, p, [PushArg(ops[0])], Pushes(ops[1..]));
      AtOne(c, p, Pushes(ops), 0);
      HoldsValue(m, ops[0], vs[0], n, st);
      var m1 := m.(pc := p + 1, prep := Some(m.prep.value + [ns[0]]));
      ReachesStep(w, c, m, m1);
      m' := PushesRun(w, c, p + 1, ops[1..], vs[1..], ns[1..], m1, st, n);
      assert m.prep.value + [ns[0]] + ns[1..] == m.prep.value + ns;
      ReachesTrans(w, c, m, m1, m');
    }
  }

  /** From just before the preparation to just after the call. */
  lemma PreparedCall(w: World, c: seq<Instr>, p: nat, ops: seq<Operand>, vs: seq<Late>, ns: seq<int>, last: Instr,
                     m: Machine, st: State, n: nat, v: int)
    returns (m': Machine)
    requires last.LCall? && At(c, p, [BeginPrep] + Pushes(ops) + [last])
    requires HoldsAll(m, ops, vs, n) && ResolveAll(vs, st) == Some(ns)
    requires m.pc == p && Matches(m, st) && w.call(st.trace, last.callee, ns) == Some(v)
    ensures Reaches(w, c, m, m')
    ensures m' == m.(pc := p + 2 + |ops|, trace := m.trace + [Event(last.callee, ns)],
                     regs := if last.result.Some? then m.regs[last.result.value := Num(v)] else m.regs)
  {
    AtSplit3(c, p, [BeginPrep], Pushes(ops), [last]);
    AtOne(c, p, [BeginPrep], 0);
    AtOne(c, p + 1 + |ops|, [last], 0);
    var m1 := m.(pc := p + 1, prep := Some([]));
    ReachesStep(w, c, m, m1);
    var m2 := PushesRun(w, c, p + 1, ops, vs, ns, m1, st, n);
    ReachesTrans(w, c, m, m1, m2);
    assert [] + ns == ns;
    m' := Step(w, c, m2).value;
    Then(w, c, m, m2, m');
  }

  lemma {:induction false} CallRuns(w: World, e: Expr, f: Fresh, r: ExprCode, c: seq<Instr>, p: nat,
                                    m: Machine, st: State, d: EvalResult)
    returns (m': Machine)
    requires e.Call?
    requires r == LowerExpr(e, f) && Ready(c, p, r.code, m, st)
    requires d == Eval(w, OnUse, e, st) && d.Done?
    ensures Computes(w, c, p, r, f, d, m, m')
    decreases e, 0
  {
    var a := LowerArgs(e.args, f);
    var last := LCall(if e.isVoid then None else Some(a.next.reg), e.func);
    assert a.code + [BeginPrep] + Pushes(a.ops) + [last] == a.code + ([BeginPrep] + Pushes(a.ops) + [last]);
    AtSplit(c, p, a.code, [BeginPrep] + Pushes(a.ops) + [last]);
    var x := EvalArgs(w, OnUse, e.args, st);
    var m1 := ArgsRun(w, e.args, f, a, c, p, m, st, x);
    var ns := ResolveAll(x.values, x.st).value;
    var v := w.call(x.st.trace, e.func, ns).value;
    m' := PreparedCall(w, c, p + |a.code|, a.ops, x.values, ns, last, m1, x.st, a.next.reg, v);
    ReachesTrans(w, c, m, m1, m');
  }
}
