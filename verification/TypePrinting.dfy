/** Printed types tell types apart. */
module TypePrinting {
  import opened Options
  import opened Tokens
  import opened Scopes
  import opened ExprSyntax
  import opened ParserState
  import opened Grammar

  /** The characters that structure a printed type. */
  predicate Marks(c: char) {
    c == '<' || c == '>' || c == '(' || c == ')' || c == ',' || c == ':'
  }

  predicate Word(w: string) {
    forall i :: 0 <= i < |w| ==> !Marks(w[i])
  }

  /** The end of the text, or a mark that does not open anything. */
  predicate Closes(x: string) {
    x == [] || x[0] == '>' || x[0] == ')' || x[0] == ','
  }

  /** Equal texts have equal first words. */
  lemma FirstWord(v: string, x: string, w: string, y: string)
    requires v + x == w + y && Word(v) && Word(w)
    requires (x == [] || Marks(x[0])) && (y == [] || Marks(y[0]))
    ensures v == w && x == y
  {
    var t := v + x;
    assert forall i :: 0 <= i < |v| ==> (v + x)[i] == v[i];
    assert forall i :: 0 <= i < |w| ==> (w + y)[i] == w[i];
    assert x != [] ==> (v + x)[|v|] == x[0];
    assert y != [] ==> (w + y)[|w|] == y[0];
    if |v| < |w| {
      assert false;
    }
    if |w| < |v| {
      assert false;
    }
    assert t[..|v|] == v && t[..|v|] == w && t[|v|..] == x && t[|v|..] == y;
  }

  lemma Assoc(a: string, b: string, c: string)
    ensures (a + b) + c == a + (b + c)
  {
  }

  /** The first of six pieces set apart. */
  lemma SetApart(a: string, b: string, c: string, d: string, e: string, f: string)
    ensures a + b + c + d + e + f == a + (b + c + d + e + f)
  {
    Assoc(a, b, c);
    Assoc(a, b + c, d);
    Assoc(a, b + c + d, e);
    Assoc(a, b + c + d + e, f);
  }

  // Types up to the names they were reached by

  /** `string` is another spelling of `ptr<imm u8>`, and a name stands for what it means. */
  function Core(t: TypeTree): TypeTree {
    match t
    case BasicType(k) => if k == TyString then PointerType(false, BasicType(TyU8)) else t
    case NamedType(_, shown) => NamedType("", shown)
    case PointerType(isMut, to) => PointerType(isMut, Core(to))
    case FunctionType(ps, ret) => FunctionType(CoreParams(ps), Core(ret))
  }

  function CoreParams(ps: TypeParams): TypeParams {
    match ps
    case NoParams => NoParams
    case ConsParam(isMut, t, rest) => ConsParam(isMut, Core(t), CoreParams(rest))
  }

  const BASIC: seq<(Kind, string)> := [
    (TyU0, "u0"), (TyU8, "u8"), (TyU16, "u16"), (TyU32, "u32"), (TyU64, "u64"), (TyI8, "i8"), (TyI16, "i16"), (TyI32, "i32"), (TyI64, "i64"),
    (TyF64, "f64"), (TyBool, "bool")]

  /** Declared types are printed as words of their own. */
  predicate Printable(t: TypeTree) {
    match t
    case BasicType(k) => IsBasicType(k)
    case NamedType(_, shown) => Word(shown) && forall i :: 0 <= i < |BASIC| ==> shown != BASIC[i].1
    case PointerType(_, to) => Printable(to)
    case FunctionType(ps, ret) => PrintableParams(ps) && Printable(ret)
  }

  predicate PrintableParams(ps: TypeParams) {
    match ps
    case NoParams => true
    case ConsParam(_, t, rest) => Printable(t) && PrintableParams(rest)
  }

  lemma BasicNames(k: Kind)
    requires IsBasicType(k) && k != TyString
    ensures 0 <= (k - TyU0) as int < 11 && BASIC[(k - TyU0) as int] == (k, BasicName(k)) && Word(BasicName(k)) && |BasicName(k)| > 0
  {
  }

  lemma BasicDiffer(j: Kind, k: Kind)
    requires IsBasicType(j) && IsBasicType(k) && j != TyString && k != TyString && BasicName(j) == BasicName(k)
    ensures j == k
  {
    var w := BasicName(j);
    assert |w| == 2 || |w| == 3 || |w| == 4;
    assert w[0] == 'u' || w[0] == 'i' || w[0] == 'f' || w[0] == 'b';
    assert w[1] == '0' || w[1] == '8' || w[1] == '1' || w[1] == '3' || w[1] == '6' || w[1] == 'o';
  }

  lemma {:induction false} CorePrints(t: TypeTree)
    ensures Printed(Core(t)) == Printed(t)
    ensures Printable(t) ==> Printable(Core(t))
  {
    match t
    case BasicType(k) =>
      if k == TyString {
        assert PointerName(false, "u8") == "ptr<" + "imm" + " " + "u8" + ">";
      }
    case NamedType(_, _) =>
    case PointerType(_, to) => CorePrints(to);
    case FunctionType(ps, ret) =>
      CoreParamsPrint(ps);
      CorePrints(ret);
  }

  lemma {:induction false} CoreParamsPrint(ps: TypeParams)
    ensures PrintedParams(CoreParams(ps)) == PrintedParams(ps)
    ensures PrintableParams(ps) ==> PrintableParams(CoreParams(ps))
  {
    if ps.ConsParam? {
      CorePrints(ps.typ);
      CoreParamsPrint(ps.rest);
    }
  }

  // Reading a printed type back

  /** The first word of a printed type, and the rest. */
  function Head(t: TypeTree): string {
    match t
    case PointerType(_, _) => "ptr"
    case FunctionType(_, _) => "func"
    case _ => Printed(t)
  }

  function Tail(t: TypeTree): string {
    match t
    case PointerType(isMut, to) => "<" + Quantified(isMut) + " " + Printed(to) + ">"
    case FunctionType(ps, ret) => "(" + PrintedParams(ps) + ")->" + Printed(ret)
    case _ => ""
  }

  /** Without `string`, which is no word, and without names. */
  predicate IsCore(t: TypeTree) {
    match t
    case BasicType(k) => IsBasicType(k) && k != TyString
    case NamedType(n, shown) => n == "" && Printable(t)
    case PointerType(_, to) => IsCore(to)
    case FunctionType(ps, ret) => AreCore(ps) && IsCore(ret)
  }

  predicate AreCore(ps: TypeParams) {
    match ps case NoParams => true case ConsParam(_, t, rest) => IsCore(t) && AreCore(rest)
  }

  lemma {:induction false} CoreIsCore(t: TypeTree)
    requires Printable(t)
    ensures IsCore(Core(t))
  {
    match t
    case PointerType(_, to) => CoreIsCore(to);
    case FunctionType(ps, ret) =>
      CoresAreCore(ps);
      CoreIsCore(ret);
    case _ =>
  }

  lemma {:induction false} CoresAreCore(ps: TypeParams)
    requires PrintableParams(ps)
    ensures AreCore(CoreParams(ps))
  {
    if ps.ConsParam? {
      CoreIsCore(ps.typ);
      CoresAreCore(ps.rest);
    }
  }

  lemma {:induction false} HeadTail(t: TypeTree, x: string)
    requires IsCore(t) && Closes(x)
    ensures Printed(t) + x == Head(t) + (Tail(t) + x) && Word(Head(t))
    ensures Tail(t) + x == [] || Marks((Tail(t) + x)[0])
  {
    match t
    case BasicType(k) =>
      BasicNames(k);
      assert "" + x == x;
    case NamedType(_, _) => assert "" + x == x;
    case PointerType(isMut, to) =>
      hide Printed;
      var q, p := Quantified(isMut), Printed(to);
      PointerPrinted(isMut, to);
      SetApart("ptr", "<", q, " ", p, ">");
      Assoc("ptr", "<" + q + " " + p + ">", x);
    case FunctionType(ps, ret) =>
      hide Printed, PrintedParams;
      var q, p := PrintedParams(ps), Printed(ret);
      FunctionPrinted(ps, ret);
      SetApart("func", "(", q, ")->", p, "");
      Assoc("func", "(" + q + ")->" + p, x);
      NoMore("(" + q + ")->" + p);
      NoMore("func" + "(" + q + ")->" + p);
  }

  lemma NoMore(a: string)
    ensures a + "" == a
  {
  }

  lemma {:induction false} PointerPrinted(isMut: bool, to: TypeTree)
    ensures Printed(PointerType(isMut, to)) == "ptr" + "<" + Quantified(isMut) + " " + Printed(to) + ">"
  {
    assert "ptr" + "<" == "ptr<";
  }

  lemma {:induction false} FunctionPrinted(ps: TypeParams, ret: TypeTree)
    ensures Printed(FunctionType(ps, ret)) == "func" + "(" + PrintedParams(ps) + ")->" + Printed(ret)
  {
    assert "func" + "(" == "func(";
  }

  /** Before the end or a closing mark a printed type can be read in one way only. */
  lemma {:induction false} ReadOneWay(a: TypeTree, x: string, b: TypeTree, y: string)
    requires IsCore(a) && IsCore(b) && Closes(x) && Closes(y) && Printed(a) + x == Printed(b) + y
    ensures a == b && x == y
    decreases a
  {
    hide Printable, Word, Marks;
    HeadTail(a, x);
    HeadTail(b, y);
    FirstWord(Head(a), Tail(a) + x, Head(b), Tail(b) + y);
    if a.PointerType? && b.PointerType? {
      PointersOneWay(a, x, b, y);
    } else if a.FunctionType? && b.FunctionType? {
      FunctionsOneWay(a, x, b, y);
    } else {
      WordsOneWay(a, x, b, y);
    }
  }

  /** Pointers and functions go on with an opening mark, words with what closes. */
  lemma Opens(t: TypeTree, x: string)
    ensures t.PointerType? ==> |Tail(t) + x| > 0 && (Tail(t) + x)[0] == '<'
    ensures t.FunctionType? ==> |Tail(t) + x| > 0 && (Tail(t) + x)[0] == '('
    ensures t.BasicType? || t.NamedType? ==> Tail(t) + x == x
  {
    hide Printed, PrintedParams;
  }

  lemma {:induction false} WordsOneWay(a: TypeTree, x: string, b: TypeTree, y: string)
    requires IsCore(a) && IsCore(b) && Closes(x) && Closes(y) && Head(a) == Head(b) && Tail(a) + x == Tail(b) + y
    requires !(a.PointerType? && b.PointerType?) && !(a.FunctionType? && b.FunctionType?)
    ensures a == b && x == y
  {
    var t, u := Tail(a) + x, Tail(b) + y;
    Opens(a, x);
    Opens(b, y);
    if a.BasicType? {
      BasicNames(a.kind);
    }
    if b.BasicType? {
      BasicNames(b.kind);
    }
    if a.BasicType? && b.BasicType? {
      BasicDiffer(a.kind, b.kind);
    }
  }

  /** Text after the same first `n` characters. */
  lemma SameRest(p: string, v: string, q: string, w: string)
    requires p + v == q + w && |p| == |q|
    ensures p == q && v == w
  {
    assert (p + v)[..|p|] == p && (q + w)[..|q|] == q;
    assert (p + v)[|p|..] == v && (q + w)[|q|..] == w;
  }

  lemma QuantifiedDiffer(a: bool, b: bool)
    requires Quantified(a) == Quantified(b)
    ensures a == b
  {
    assert Quantified(a)[0] == Quantified(b)[0];
  }

  lemma {:induction false} PointersOneWay(a: TypeTree, x: string, b: TypeTree, y: string)
    requires a.PointerType? && b.PointerType? && IsCore(a) && IsCore(b) && Closes(x) && Closes(y) && Tail(a) + x == Tail(b) + y
    ensures a == b && x == y
    decreases a, 0
  {
    hide Printed;
    var p, q := "<" + Quantified(a.isMut) + " ", "<" + Quantified(b.isMut) + " ";
    var v, w := Printed(a.to) + (">" + x), Printed(b.to) + (">" + y);
    Assoc(p, Printed(a.to), ">");
    Assoc(p, Printed(a.to) + ">", x);
    Assoc(Printed(a.to), ">", x);
    Assoc(q, Printed(b.to), ">");
    Assoc(q, Printed(b.to) + ">", y);
    Assoc(Printed(b.to), ">", y);
    SameRest(p, v, q, w);
    assert p[1..4] == Quantified(a.isMut) && q[1..4] == Quantified(b.isMut);
    QuantifiedDiffer(a.isMut, b.isMut);
    ReadOneWay(a.to, ">" + x, b.to, ">" + y);
    SameRest(">", x, ">", y);
  }

  lemma FunctionTail(t: TypeTree, x: string)
    requires t.FunctionType?
    ensures Tail(t) + x == "(" + (PrintedParams(t.params) + (")->" + (Printed(t.ret) + x)))
  {
    hide Printed, PrintedParams;
    var p, r := PrintedParams(t.params), Printed(t.ret);
    Assoc("(" + p + ")->", r, x);
    Assoc("(" + p, ")->", r + x);
    Assoc("(", p, ")->" + (r + x));
  }

  lemma {:induction false} FunctionsOneWay(a: TypeTree, x: string, b: TypeTree, y: string)
    requires a.FunctionType? && b.FunctionType? && IsCore(a) && IsCore(b) && Closes(x) && Closes(y) && Tail(a) + x == Tail(b) + y
    ensures a == b && x == y
    decreases a, 0
  {
    hide Printed, PrintedParams;
    var v, w := ")->" + (Printed(a.ret) + x), ")->" + (Printed(b.ret) + y);
    FunctionTail(a, x);
    FunctionTail(b, y);
    SameRest("(", PrintedParams(a.params) + v, "(", PrintedParams(b.params) + w);
    ParamsOneWay(a.params, v, b.params, w);
    SameRest(")->", Printed(a.ret) + x, ")->", Printed(b.ret) + y);
    ReadOneWay(a.ret, x, b.ret, y);
  }

  /** What follows the first parameter. */
  function Others(ps: TypeParams): string
    requires ps.ConsParam?
  {
    if ps.rest.NoParams? then "" else ", " + PrintedParams(ps.rest)
  }

  lemma {:induction false} ParamsPrinted(ps: TypeParams)
    requires ps.ConsParam?
    ensures PrintedParams(ps) == Quantified(ps.isMut) + ": " + Printed(ps.typ) + Others(ps)
  {
    hide Printed;
    var w := Quantified(ps.isMut) + ": " + Printed(ps.typ);
    if ps.rest.NoParams? {
      NoMore(w);
    } else {
      Assoc(w, ", ", PrintedParams(ps.rest));
    }
  }

  lemma {:induction false} FirstParam(ps: TypeParams, x: string)
    requires ps.ConsParam?
    ensures PrintedParams(ps) + x == (Quantified(ps.isMut) + ": ") + (Printed(ps.typ) + (Others(ps) + x))
  {
    hide Printed;
    var q, t, o := Quantified(ps.isMut) + ": ", Printed(ps.typ), Others(ps);
    ParamsPrinted(ps);
    Assoc(q + t, o, x);
    Assoc(q, t, o + x);
  }

  lemma {:induction false} ParamsOneWay(ps: TypeParams, x: string, qs: TypeParams, y: string)
    requires AreCore(ps) && AreCore(qs) && x != [] && y != [] && x[0] == ')' && y[0] == ')' && PrintedParams(ps) + x == PrintedParams(qs) + y
    ensures ps == qs && x == y
    decreases ps
  {
    hide Printed, PrintedParams;
    NoneOrSome(ps, x);
    NoneOrSome(qs, y);
    if ps.ConsParam? && qs.ConsParam? {
      FirstParam(ps, x);
      FirstParam(qs, y);
      var p, q := Quantified(ps.isMut) + ": ", Quantified(qs.isMut) + ": ";
      var v, w := Others(ps) + x, Others(qs) + y;
      SameRest(p, Printed(ps.typ) + v, q, Printed(qs.typ) + w);
      assert p[..3] == Quantified(ps.isMut) && q[..3] == Quantified(qs.isMut);
      QuantifiedDiffer(ps.isMut, qs.isMut);
      assert Closes(v) && Closes(w);
      ReadOneWay(ps.typ, v, qs.typ, w);
      OthersOneWay(ps, x, qs, y);
    }
  }

  /** A parameter starts with a letter. */
  lemma {:induction false} NoneOrSome(ps: TypeParams, x: string)
    requires x != [] && x[0] == ')'
    ensures (PrintedParams(ps) + x)[0] == ')' <==> ps.NoParams?
    ensures ps.NoParams? ==> PrintedParams(ps) + x == x
  {
    hide Printed;
    if ps.ConsParam? {
      FirstParam(ps, x);
    }
  }

  lemma OthersStart(ps: TypeParams, x: string)
    requires ps.ConsParam? && x != [] && x[0] == ')'
    ensures ((Others(ps) + x)[0] == ')') == ps.rest.NoParams?
    ensures ps.rest.NoParams? ==> Others(ps) + x == x
  {
    hide PrintedParams;
  }

  lemma {:induction false} OthersOneWay(ps: TypeParams, x: string, qs: TypeParams, y: string)
    requires ps.ConsParam? && qs.ConsParam? && AreCore(ps) && AreCore(qs) && x != [] && y != [] && x[0] == ')' && y[0] == ')'
    requires Others(ps) + x == Others(qs) + y
    ensures ps.rest == qs.rest && x == y
    decreases ps, 0
  {
    hide Printed, PrintedParams;
    var v, w := Others(ps) + x, Others(qs) + y;
    OthersStart(ps, x);
    OthersStart(qs, y);
    if ps.rest.ConsParam? {
      Assoc(", ", PrintedParams(ps.rest), x);
      Assoc(", ", PrintedParams(qs.rest), y);
      SameRest(", ", PrintedParams(ps.rest) + x, ", ", PrintedParams(qs.rest) + y);
      ParamsOneWay(ps.rest, x, qs.rest, y);
    }
  }

  /** Two types are printed alike exactly when they are the same type. */
  lemma {:induction false} PrintedExact(a: TypeTree, b: TypeTree)
    requires Printable(a) && Printable(b)
    ensures Printed(a) == Printed(b) <==> Core(a) == Core(b)
  {
    hide Printed, Printable, Core;
    CorePrints(a);
    CorePrints(b);
    if Printed(a) == Printed(b) {
      CoreIsCore(a);
      CoreIsCore(b);
      assert Printed(Core(a)) + [] == Printed(Core(b)) + [];
      ReadOneWay(Core(a), [], Core(b), []);
    }
  }

  // Declaring a function again

  /** A signature as a type: parameter names are left out, and without `returns` the result is `u0`. */
  function SignatureType(sig: Signature): TypeTree {
    FunctionType(AsParams(sig.params), if sig.ret.Some? then sig.ret.value.typ else BasicType(TyU0))
  }

  function AsParams(ps: seq<ParamTree>): TypeParams {
    if ps == [] then NoParams else ConsParam(ps[0].isMut, ps[0].typ, AsParams(ps[1..]))
  }

  lemma {:induction false} ParamsShown(ps: seq<ParamTree>)
    ensures ShowParams(ps) == PrintedParams(AsParams(ps))
  {
    if ps != [] {
      ParamsShown(ps[1..]);
      if |ps| == 1 {
        var w := Quantified(ps[0].isMut) + ": " + Printed(ps[0].typ);
        assert w + "" == w;
      } else {
        var w, r := Quantified(ps[0].isMut) + ": " + Printed(ps[0].typ), ShowParams(ps[1..]);
        assert w + (", " + r) == w + ", " + r;
      }
    }
  }

  lemma SignatureShown(sig: Signature)
    ensures ShowSignature(sig) == Printed(SignatureType(sig))
  {
    ParamsShown(sig.params);
  }

  /** A function declared before is accepted again exactly with the same type, whatever its parameters are called. */
  lemma {:induction false} RedeclaredExact(s: State, h: (bool, string), sig: Signature, body: Option<seq<StmtTree>>, t: State, before: Signature)
    requires Onward(s, t) && Typed(s.tokens, h.1) && Plain(h.1)
    requires |t.scopes| > 0 && h.1 in t.scopes[0].symbols && t.scopes[0].symbols[h.1] == VarSym(Some(ShowSignature(before)))
    requires Printable(SignatureType(sig)) && Printable(SignatureType(before))
    ensures var r := FuncDeclared(s, h, sig, body, t);
      && (r.Made? <==> Core(SignatureType(sig)) == Core(SignatureType(before)))
      && (r.Made? ==> r.tree == FuncTree(h.0, h.1, sig, body)) && !r.Crash?
  {
    hide Onward, Typed, ShowSignature, Printable, Core, Printed, SignatureType;
    SignatureShown(sig);
    SignatureShown(before);
    PrintedExact(SignatureType(sig), SignatureType(before));
    StillBound(t, ShowSignature(sig), h.1);
  }

  lemma StillBound(t: State, shown: string, n: string)
    requires !Plain(shown) && Plain(n) && |t.scopes| > 0 && n in t.scopes[0].symbols
    ensures var u := Known(t, 0, shown); |u.scopes| > 0 && n in u.scopes[0].symbols && u.scopes[0].symbols[n] == t.scopes[0].symbols[n]
  {
    hide Onward, Reaches, Good, Left, Untyped, TypeFrom;
  }
}
