/** Functions by name. */
module Linking {
  import Decimal
  import opened Options
  import opened Ir
  import opened Source
  import opened Lowering
  import opened LoweringExprs
  import opened LoweringPreps
  import opened LoweringStmts
  import opened LateReading
  import opened LoweringCorrect

  // The symbol of a callee, from the name of its IR variable

  /** Position of the last underscore before `n`, `n` when there is none. */
  function LastUnder(s: string, n: nat): (k: nat)
    requires n <= |s|
    ensures k <= n && (k < n ==> s[k] == '_') && (forall j :: k < j < n ==> s[j] != '_')
    ensures k == n ==> forall j :: 0 <= j < n ==> s[j] != '_'
    decreases n
  {
    if n == 0 then 0
    else if s[n - 1] == '_' then n - 1
    else
      var k := LastUnder(s, n - 1);
      if k == n - 1 then n else k
  }

  /** `main` and external functions under their own names, all others behind an underscore. */
  function CalleeSymbol(variable: string, isExtern: bool): string {
    var name := variable[..LastUnder(variable, |variable|)];
    if name != "main" && !isExtern then "_" + name else name
  }

  lemma ScopeIsCut(name: string, scope: nat)
    ensures var s := Spelling(User(name, scope)); s[..LastUnder(s, |s|)] == name
  {
    var s := Spelling(User(name, scope));
    var digits := Decimal.ToString(scope);
    assert s == name + "_" + digits;
    assert s[|name|] == '_';
    forall j | |name| < j < |s|
      ensures s[j] != '_'
    {
      assert s[j] == digits[j - |name| - 1] && Decimal.IsDigit(s[j]);
    }
    assert LastUnder(s, |s|) == |name|;
  }

  /** A call finds a function under the label its code begins with. */
  lemma CallMeetsLabel(name: string, scope: nat)
    ensures CalleeSymbol(Spelling(User(name, scope)), false) == FuncLabel(name)
    ensures CalleeSymbol(Spelling(User(name, scope)), true) == name
  {
    ScopeIsCut(name, scope);
  }

  lemma LabelsDiffer(f: string, g: string)
    requires f != g
    ensures FuncLabel(f) != FuncLabel(g)
  {
    assert ("_" + f)[1..] == f && ("_" + g)[1..] == g;
    assert "main"[0] != '_';
  }

  /** The program starts where it is started: at `main`. */
  lemma MainIsMain()
    ensures FuncLabel("main") == "main"
  {
  }

  // Entries of a program

  ghost predicate DistinctNames(fns: seq<Func>) {
    forall j, k :: 0 <= j < k < |fns| ==> fns[j].name != fns[k].name
  }

  /** The first place where code begins under a symbol. */
  function EntryOf(code: seq<Instr>, symbol: string, i: nat): (k: nat)
    requires i <= |code|
    decreases |code| - i
  {
    if i == |code| || code[i] == BeginFunc(symbol) then i else EntryOf(code, symbol, i + 1)
  }

  lemma {:induction false} EntryFirst(code: seq<Instr>, symbol: string, i: nat, k: nat)
    requires i <= k < |code| && code[k] == BeginFunc(symbol) && forall j :: i <= j < k ==> code[j] != BeginFunc(symbol)
    ensures EntryOf(code, symbol, i) == k
    decreases k - i
  {
    if i < k {
      EntryFirst(code, symbol, i + 1, k);
    }
  }

  /** Code begins under a function's label at the start of that function and nowhere else. */
  lemma {:induction false} BeginsOnce(fns: seq<Func>, f: Fresh, k: nat, i: nat)
    requires AllPlaced(fns) && DistinctNames(fns) && k < |fns| && i < |LowerProgram(fns, f).code|
    ensures LowerProgram(fns, f).code[i] == BeginFunc(FuncLabel(fns[k].name)) <==> i == StartOf(fns, f, k)
    decreases |fns|
  {
    hide LowerFunc, InGroups, FuncLabel;
    var a := LowerFunc(fns[0], f);
    var b := LowerProgram(fns[1..], a.next);
    var c := LowerProgram(fns, f).code;
    FuncGrouped(fns[0], f);
    if i < |a.code| {
      assert c[i] == a.code[i];
      if i > 0 {
        assert a.code[1..][i - 1] == a.code[i];
        NoneInside(a.code[1..], i - 1);
      } else if k > 0 {
        LabelsDiffer(fns[0].name, fns[k].name);
      }
    } else {
      assert c[i] == b.code[i - |a.code|];
      if k > 0 {
        BeginsOnce(fns[1..], a.next, k - 1, i - |a.code|);
      } else {
        OthersDiffer(fns[1..], a.next, fns[0].name, i - |a.code|);
      }
    }
  }

  lemma NoneInside(code: seq<Instr>, i: nat)
    requires InGroups(code) && i < |code|
    ensures !code[i].BeginFunc?
  {
  }

  lemma {:induction false} OthersDiffer(fns: seq<Func>, f: Fresh, name: string, i: nat)
    requires AllPlaced(fns) && i < |LowerProgram(fns, f).code| && forall k :: 0 <= k < |fns| ==> fns[k].name != name
    ensures LowerProgram(fns, f).code[i] != BeginFunc(FuncLabel(name))
    decreases |fns|
  {
    hide LowerFunc, InGroups, FuncLabel;
    if fns != [] {
      var a := LowerFunc(fns[0], f);
      FuncGrouped(fns[0], f);
      if i == 0 {
        LabelsDiffer(fns[0].name, name);
      } else if i < |a.code| {
        assert a.code[1..][i - 1] == a.code[i];
        NoneInside(a.code[1..], i - 1);
      } else {
        OthersDiffer(fns[1..], a.next, name, i - |a.code|);
      }
    }
  }

  /** The symbol a call uses leads to the start of that function's code. */
  lemma {:induction false} CallFindsFunction(fns: seq<Func>, f: Fresh, k: nat, scope: nat)
    requires AllPlaced(fns) && DistinctNames(fns) && k < |fns|
    ensures EntryOf(LowerProgram(fns, f).code, CalleeSymbol(Spelling(User(fns[k].name, scope)), false), 0) == StartOf(fns, f, k)
  {
    hide LowerProgram, StartOf, CalleeSymbol, FuncLabel, At;
    CallMeetsLabel(fns[k].name, scope);
    var c, symbol := LowerProgram(fns, f).code, FuncLabel(fns[k].name);
    InProgram(fns, f, k);
    StartsInside(fns, f, k);
    forall i | 0 <= i < |c|
      ensures c[i] == BeginFunc(symbol) <==> i == StartOf(fns, f, k)
    {
      BeginsOnce(fns, f, k, i);
    }
    EntryFirst(c, symbol, 0, StartOf(fns, f, k));
  }

  lemma {:induction false} StartsInside(fns: seq<Func>, f: Fresh, k: nat)
    requires AllPlaced(fns) && k < |fns| && At(LowerProgram(fns, f).code, StartOf(fns, f, k), CodeOf(fns, f, k))
    ensures StartOf(fns, f, k) < |LowerProgram(fns, f).code|
  {
    hide LowerFunc, InGroups, LowerProgram, StartOf;
    FuncGrouped(fns[k], FreshAt(fns, f, k));
  }

  /** Calling a function by name: the symbol is looked up in the code of the program and the code run from there. */
  lemma {:induction false} CallPreservesMeaning(w: World, fns: seq<Func>, f: Fresh, k: nat, scope: nat, args: seq<int>, fuel: nat, m: Machine, run: Run)
    returns (m': Machine)
    requires AllPlaced(fns) && DistinctNames(fns) && k < |fns| && SafeStmt(fns[k].body) && |args| == |fns[k].params|
    requires var c := LowerProgram(fns, f).code; m.pc == EntryOf(c, CalleeSymbol(Spelling(User(fns[k].name, scope)), false), 0)
    requires m.params == args && m.prep.None? && m.exited.None?
    requires run == RunFunc(w, OnSight, fns[k], args, m.trace, fuel) && run.Ran?
    ensures var c := LowerProgram(fns, f).code;
      && Reaches(w, c, m, m') && Step(w, c, m') == None
      && Finished(c, StartOf(fns, f, k) + |CodeOf(fns, f, k)| - 1, run, m')
      && forall x :: Reaches(w, c, m, x) && Step(w, c, x) == None ==> x == m'
  {
    hide LowerProgram, StartOf, LowerFunc, Exec, CalleeSymbol, EntryOf;
    CallFindsFunction(fns, f, k, scope);
    m' := ProgramPreservesMeaning(w, fns, f, k, args, fuel, m, run);
  }

  // External functions

  /**
    An external function keeps its name, so its symbol is a function's of the program exactly when it is
    `main` and that is defined, or an underscore and the name of a defined function.
   */
  lemma ExternCollides(fns: seq<Func>, k: nat, name: string, scope: nat)
    requires k < |fns|
    ensures CalleeSymbol(Spelling(User(name, scope)), true) == FuncLabel(fns[k].name) <==>
      (if fns[k].name == "main" then name == "main" else name == "_" + fns[k].name)
  {
    CallMeetsLabel(name, scope);
  }
}
