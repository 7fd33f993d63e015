/** Typing rules, and the checker. */
module Typing {
  import opened Options
  import opened ExprSyntax
  import opened Checker
  import opened CheckerCorrect

  // The rules, as a relation between trees and types

  predicate Integer(t: Ty) {
    t in {Named("i8"), Named("i16"), Named("i32"), Named("i64"), Named("u8"), Named("u16"), Named("u32"), Named("u64")}
  }

  /** Of two integer types the wider one, the left one when they are equally wide. */
  predicate Widest(env: Env, a: Ty, b: Ty, t: Ty) {
    Integer(a) && Integer(b) && if Size(env, a) >= Size(env, b) then t == a else t == b
  }

  predicate Floats(a: Ty, b: Ty, t: Ty) {
    a == Named("f64") && b == a && t == a
  }

  /** `a op b` has type `t`. */
  predicate BinaryRule(env: Env, op: BinaryOp, a: Ty, b: Ty, t: Ty) {
    match op
    case AddOp =>
      Widest(env, a, b, t) || Floats(a, b, t) || (a.Ptr? && Integer(b) && t == a) || (Integer(a) && b.Ptr? && t == b)
    case Subtract =>
      Widest(env, a, b, t) || Floats(a, b, t) || (a.Ptr? && Integer(b) && t == a) || (a.Ptr? && a == b && t == Named("i64"))
    case Multiply | Divide => Widest(env, a, b, t) || Floats(a, b, t)
    case Remainder | BitwiseAnd | BitwiseOr | BitwiseXor | ShiftLeft | ShiftRight => Widest(env, a, b, t)
    case IsEqual | NotEqual =>
      t == Named("bool") &&
      (a == b || (Integer(a) && Integer(b)) || (a.Ptr? && b == Named("u0")) || (a == Named("u0") && b.Ptr?))
    case LessThan | GreaterThan | AtMost | AtLeast =>
      t == Named("bool") && ((Integer(a) && Integer(b)) || (a == b && (a == Named("f64") || a.Ptr?)))
    case LogicalAnd | LogicalOr => t == Named("bool") && a == t && b == t
  }

  predicate CastRule(a: Ty, t: Ty) {
    || ((Integer(a) || a == Named("f64")) && (Integer(t) || t == Named("f64")))
    || ((Integer(a) || a.Ptr?) && (Integer(t) || t.Ptr?))
  }

  /** A value of type `b` may be stored where `a` is declared. */
  predicate Fits(env: Env, a: Ty, b: Ty) {
    || a == b || a.Err?
    || ((Integer(a) || a == Named("f64")) && (Integer(b) || b == Named("f64")))
    || (a.Ptr? && b == Named("u0"))
    || (a.Ptr? && b.Ptr? && env.at(a.pointee) == env.at(b.pointee) && (b.isMut || !a.isMut))
  }

  /** Field `f` of a value of type `a`, or of what it points to. */
  predicate FieldRule(env: Env, a: Ty, f: string, t: Ty) {
    var s := if a.Ptr? then env.at(a.pointee) else a;
    (s.EnumTy? && f == "tag" && t == Named("u32")) || (s.Named? && env.field(s.name, f) == Some(t))
  }

  ghost predicate HasType(env: Env, e: Node, t: Ty)
    decreases e, 1
  {
    && !t.Err?
    && match e
       case Leaf(u, _) => t == u
       case Grouped(i) => HasType(env, i, t)
       case Apply(NegateNode, o) => (Integer(t) || t == Named("f64")) && HasType(env, o, t)
       case Apply(NotNode, o) => t == Named("bool") && HasType(env, o, t)
       case Apply(DerefNode, o) => exists m, p :: HasType(env, o, Ptr(m, p)) && t == env.at(p)
       case Apply(AddressNode(m), o) => (m ==> Mutable(env, o)) && exists a :: HasType(env, o, a) && t == Ptr(m, env.pointerTo(m, a))
       case Bin(op, l, r) => exists a, b :: HasType(env, l, a) && HasType(env, r, b) && BinaryRule(env, op, a, b, t)
       case Cast(o, u) => t == u && exists a :: HasType(env, o, a) && CastRule(a, u)
       case Implicit(_, _) => false
       case IndexOf(o, i) => (exists m, p :: HasType(env, o, Ptr(m, p)) && t == env.at(p)) && exists a :: HasType(env, i, a) && Integer(a)
       case FieldAt(o, f) => exists a :: HasType(env, o, a) && FieldRule(env, a, f, t)
       case CallOf(f, args) => exists sig :: HasType(env, f, Fun(sig)) && t == env.result(sig) && ArgsHave(env, args, env.params(sig), 0)
       case AssignNode(x, v) => HasType(env, x, t) && Mutable(env, x) && exists b :: HasType(env, v, b) && Fits(env, t, b)
  }

  ghost predicate ArgsHave(env: Env, args: Nodes, params: seq<ParamInfo>, i: nat)
    decreases args, 0
  {
    match args
    case NoNodes => i >= |params|
    case ConsNode(e, rest) =>
      && i < |params| && ArgsHave(env, rest, params, i + 1)
      && exists a :: HasType(env, e, a) && if params[i].isMut then a == params[i].ty else Fits(env, params[i].ty, a)
  }

  /** A mutable variable, what a `ptr<mut T>` points to, an element of it, or a field of any of these. */
  ghost predicate Mutable(env: Env, e: Node)
    decreases e, 0
  {
    match e
    case Leaf(_, assignable) => assignable
    case Grouped(i) => Mutable(env, i)
    case Apply(DerefNode, o) => exists p :: HasType(env, o, Ptr(true, p))
    case IndexOf(o, _) => exists p :: HasType(env, o, Ptr(true, p))
    case FieldAt(o, _) => (exists p :: HasType(env, o, Ptr(true, p))) || (Mutable(env, o) && exists a :: HasType(env, o, a) && !a.Ptr?)
    case _ => false
  }

  // The checker follows them

  lemma IntegersAgree(t: Ty)
    ensures IsInteger(t) == Integer(t)
    ensures Integer(t) ==> t.Named? && t != F64 && t != BOOL && t != Named("u0")
  {
  }

  lemma BinaryIs(env: Env, op: BinaryOp, l: Checked, r: Checked)
    requires !l.ty.Err? && !r.ty.Err?
    ensures CheckBinary(env, op, l, r).ty == BinaryType(op, Unified(env, l.ty, r.ty).0, Unified(env, l.ty, r.ty).1)
  {
    hide BinaryType, Unified, TryCast;
  }

  predicate Compares(op: BinaryOp) {
    op.IsEqual? || op.NotEqual? || op.LessThan? || op.GreaterThan? || op.AtMost? || op.AtLeast? || op.LogicalAnd? || op.LogicalOr?
  }

  lemma AddAgrees(env: Env, l: Checked, r: Checked, t: Ty)
    requires !l.ty.Err? && !r.ty.Err? && !t.Err? && Primitives(env)
    ensures CheckBinary(env, AddOp, l, r).ty == t <==> BinaryRule(env, AddOp, l.ty, r.ty, t)
  {
    hide CheckBinary, TryCast, Integer, IsInteger, Primitives;
    BinaryIs(env, AddOp, l, r);
    IntegersAgree(l.ty);
    IntegersAgree(r.ty);
  }

  lemma SubtractAgrees(env: Env, l: Checked, r: Checked, t: Ty)
    requires !l.ty.Err? && !r.ty.Err? && !t.Err? && Primitives(env)
    ensures CheckBinary(env, Subtract, l, r).ty == t <==> BinaryRule(env, Subtract, l.ty, r.ty, t)
  {
    hide CheckBinary, TryCast, Integer, IsInteger, Primitives;
    BinaryIs(env, Subtract, l, r);
    IntegersAgree(l.ty);
    IntegersAgree(r.ty);
  }

  lemma ComparesAgrees(env: Env, op: BinaryOp, l: Checked, r: Checked, t: Ty)
    requires !l.ty.Err? && !r.ty.Err? && !t.Err? && Primitives(env) && Compares(op)
    ensures CheckBinary(env, op, l, r).ty == t <==> BinaryRule(env, op, l.ty, r.ty, t)
  {
    hide CheckBinary, TryCast, Integer, IsInteger, Primitives;
    BinaryIs(env, op, l, r);
    IntegersAgree(l.ty);
    IntegersAgree(r.ty);
  }

  lemma ProductAgrees(env: Env, op: BinaryOp, l: Checked, r: Checked, t: Ty)
    requires !l.ty.Err? && !r.ty.Err? && !t.Err? && Primitives(env) && (op == Multiply || op == Divide)
    ensures CheckBinary(env, op, l, r).ty == t <==> BinaryRule(env, op, l.ty, r.ty, t)
  {
    hide CheckBinary, TryCast, Integer, IsInteger, Primitives;
    BinaryIs(env, op, l, r);
    IntegersAgree(l.ty);
    IntegersAgree(r.ty);
  }

  lemma BitsAgree(env: Env, op: BinaryOp, l: Checked, r: Checked, t: Ty)
    requires !l.ty.Err? && !r.ty.Err? && !t.Err? && Primitives(env)
    requires !Compares(op) && op != AddOp && op != Subtract && op != Multiply && op != Divide
    ensures CheckBinary(env, op, l, r).ty == t <==> BinaryRule(env, op, l.ty, r.ty, t)
  {
    hide CheckBinary, TryCast, Integer, IsInteger, Primitives;
    BinaryIs(env, op, l, r);
    IntegersAgree(l.ty);
    IntegersAgree(r.ty);
  }

  lemma BinaryAgrees(env: Env, op: BinaryOp, l: Checked, r: Checked, t: Ty)
    requires !l.ty.Err? && !r.ty.Err? && !t.Err? && Primitives(env)
    ensures CheckBinary(env, op, l, r).ty == t <==> BinaryRule(env, op, l.ty, r.ty, t)
  {
    hide CheckBinary, BinaryRule, Primitives;
    if op == AddOp {
      AddAgrees(env, l, r, t);
    } else if op == Subtract {
      SubtractAgrees(env, l, r, t);
    } else if Compares(op) {
      ComparesAgrees(env, op, l, r, t);
    } else if op == Multiply || op == Divide {
      ProductAgrees(env, op, l, r, t);
    } else {
      BitsAgree(env, op, l, r, t);
    }
  }

  /** The checker gives an expression a type exactly when the rules do, the same one. */
  lemma {:induction false} CheckExact(env: Env, e: Node, t: Ty)
    requires Primitives(env) && Plain(e)
    ensures HasType(env, e, t) <==> !t.Err? && Check(env, e).ty == t
    decreases e, 1
  {
    if !t.Err? {
      match e
      case Leaf(_, _) =>
      case Grouped(i) => CheckExact(env, i, t);
      case Apply(op, o) => ApplyExact(env, e, t);
      case Bin(op, l, r) =>
        BinExact(env, e, t);
      case Cast(o, u) =>
        forall a ensures HasType(env, o, a) <==> !a.Err? && Check(env, o).ty == a { CheckExact(env, o, a); }
      case IndexOf(o, i) =>
        IndexExact(env, e, t);
      case FieldAt(o, f) =>
        forall a ensures HasType(env, o, a) <==> !a.Err? && Check(env, o).ty == a { CheckExact(env, o, a); }
      case CallOf(f, args) =>
        CallExact(env, e, t);
      case AssignNode(x, v) =>
        AssignExact(env, e, t);
    }
  }

  lemma {:induction false} BinExact(env: Env, e: Node, t: Ty)
    requires Primitives(env) && Plain(e) && e.Bin? && !t.Err?
    ensures HasType(env, e, t) <==> Check(env, e).ty == t
    decreases e, 0
  {
    hide CheckBinary, BinaryRule;
    var l, r := e.left, e.right;
    var c, d := Check(env, l), Check(env, r);
    forall a ensures HasType(env, l, a) <==> !a.Err? && c.ty == a { CheckExact(env, l, a); }
    forall b ensures HasType(env, r, b) <==> !b.Err? && d.ty == b { CheckExact(env, r, b); }
    BinErr(env, e.op, c, d);
    if !c.ty.Err? && !d.ty.Err? {
      BinaryAgrees(env, e.op, c, d, t);
    }
  }

  lemma {:induction false} IndexExact(env: Env, e: Node, t: Ty)
    requires Primitives(env) && Plain(e) && e.IndexOf? && !t.Err?
    ensures HasType(env, e, t) <==> Check(env, e).ty == t
    decreases e, 0
  {
    hide CheckIndex, Integer;
    var o, i := e.owner, e.index;
    forall a ensures HasType(env, o, a) <==> !a.Err? && Check(env, o).ty == a { CheckExact(env, o, a); }
    forall a ensures HasType(env, i, a) <==> !a.Err? && Check(env, i).ty == a { CheckExact(env, i, a); }
    IndexAgrees(env, Check(env, o), Check(env, i), t);
    NoErrorIndex(Check(env, i).ty);
  }

  lemma NoErrorIndex(t: Ty)
    ensures Integer(t) ==> !t.Err?
  {
  }

  lemma {:induction false} CallExact(env: Env, e: Node, t: Ty)
    requires Primitives(env) && Plain(e) && e.CallOf? && !t.Err?
    ensures HasType(env, e, t) <==> Check(env, e).ty == t
    decreases e, 0
  {
    var f := e.callee;
    forall a ensures HasType(env, f, a) <==> !a.Err? && Check(env, f).ty == a { CheckExact(env, f, a); }
    if Check(env, f).ty.Fun? {
      ArgsExact(env, e.args, env.params(Check(env, f).ty.sig), 0);
    }
  }

  lemma {:induction false} AssignExact(env: Env, e: Node, t: Ty)
    requires Primitives(env) && Plain(e) && e.AssignNode? && !t.Err?
    ensures HasType(env, e, t) <==> Check(env, e).ty == t
    decreases e, 0
  {
    hide CheckAssign, Fits;
    var x, v := e.target, e.value;
    forall a ensures HasType(env, x, a) <==> !a.Err? && Check(env, x).ty == a { CheckExact(env, x, a); }
    forall a ensures HasType(env, v, a) <==> !a.Err? && Check(env, v).ty == a { CheckExact(env, v, a); }
    if !Check(env, x).ty.Err? {
      MutableExact(env, x);
    }
    AssignAgrees(env, Check(env, x), Check(env, v), t);
  }

  lemma BinErr(env: Env, op: BinaryOp, l: Checked, r: Checked)
    ensures l.ty.Err? || r.ty.Err? ==> CheckBinary(env, op, l, r).ty.Err?
  {
  }

  lemma {:induction false} ApplyExact(env: Env, e: Node, t: Ty)
    requires Primitives(env) && Plain(e) && e.Apply? && !t.Err?
    ensures HasType(env, e, t) <==> Check(env, e).ty == t
    decreases e, 0
  {
    var o := e.operand;
    forall a ensures HasType(env, o, a) <==> !a.Err? && Check(env, o).ty == a { CheckExact(env, o, a); }
    if !Check(env, o).ty.Err? {
      MutableExact(env, o);
    }
  }

  lemma IndexAgrees(env: Env, c: Checked, d: Checked, t: Ty)
    requires !t.Err?
    ensures CheckIndex(env, c, d).ty == t <==> c.ty.Ptr? && t == env.at(c.ty.pointee) && Integer(d.ty)
  {
  }

  lemma AssignAgrees(env: Env, c: Checked, d: Checked, t: Ty)
    requires !t.Err?
    ensures CheckAssign(env, c, d).ty == t <==> c.ty == t && !d.ty.Err? && c.lvalue.Some? && Fits(env, t, d.ty)
  {
  }

  lemma {:induction false} ArgsExact(env: Env, args: Nodes, params: seq<ParamInfo>, i: nat)
    requires Primitives(env) && PlainAll(args)
    ensures ArgsHave(env, args, params, i) <==> CheckArgs(env, args, params, i).ok
    decreases args, 0
  {
    if args.ConsNode? {
      var c := Check(env, args.head);
      forall a ensures HasType(env, args.head, a) <==> !a.Err? && c.ty == a { CheckExact(env, args.head, a); }
      ArgsExact(env, args.tail, params, i + 1);
      if i < |params| && !c.ty.Err? {
        assert ParamAccepts(env, params[i], c.ty) <==> if params[i].isMut then c.ty == params[i].ty else Fits(env, params[i].ty, c.ty);
      }
    }
  }

  /** What may be assigned is exactly what the rules call mutable. */
  lemma {:induction false} MutableExact(env: Env, e: Node)
    requires Primitives(env) && Plain(e) && Accepted(env, e)
    ensures Mutable(env, e) <==> Check(env, e).lvalue.Some?
    decreases e, 0
  {
    match e
    case Leaf(_, _) =>
    case Grouped(i) => MutableExact(env, i);
    case Apply(op, o) =>
      forall a ensures HasType(env, o, a) <==> !a.Err? && Check(env, o).ty == a { CheckExact(env, o, a); }
    case IndexOf(o, i) =>
      forall a ensures HasType(env, o, a) <==> !a.Err? && Check(env, o).ty == a { CheckExact(env, o, a); }
    case FieldAt(o, _) =>
      forall a ensures HasType(env, o, a) <==> !a.Err? && Check(env, o).ty == a { CheckExact(env, o, a); }
      MutableExact(env, o);
    case _ =>
  }

  // The casts it inserts

  function Erase(n: Node): Node {
    match n
    case Leaf(_, _) => n
    case Grouped(i) => Grouped(Erase(i))
    case Apply(op, o) => Apply(op, Erase(o))
    case Bin(op, l, r) => Bin(op, Erase(l), Erase(r))
    case Cast(o, t) => Cast(Erase(o), t)
    case Implicit(o, _) => Erase(o)
    case IndexOf(o, i) => IndexOf(Erase(o), Erase(i))
    case FieldAt(o, f) => FieldAt(Erase(o), f)
    case CallOf(f, args) => CallOf(Erase(f), EraseAll(args))
    case AssignNode(t, v) => AssignNode(Erase(t), Erase(v))
  }

  function EraseAll(args: Nodes): Nodes {
    match args case NoNodes => NoNodes case ConsNode(e, rest) => ConsNode(Erase(e), EraseAll(rest))
  }

  /** Checking adds casts and changes nothing else, accepted or not. */
  lemma {:induction false} OnlyCastsAdded(env: Env, e: Node)
    requires Plain(e)
    ensures Erase(Check(env, e).node) == e
    decreases e, 1
  {
    hide CheckBinary;
    match e
    case Leaf(_, _) =>
    case Grouped(i) => OnlyCastsAdded(env, i);
    case Apply(_, o) => OnlyCastsAdded(env, o);
    case Bin(op, l, r) =>
      OnlyCastsAdded(env, l);
      OnlyCastsAdded(env, r);
      BinErased(env, op, Check(env, l), Check(env, r));
    case Cast(o, _) => OnlyCastsAdded(env, o);
    case IndexOf(o, i) =>
      OnlyCastsAdded(env, o);
      OnlyCastsAdded(env, i);
    case FieldAt(o, _) => OnlyCastsAdded(env, o);
    case CallOf(f, args) =>
      OnlyCastsAdded(env, f);
      PlainErased(args);
      if Check(env, f).ty.Fun? {
        OnlyCastsAddedAll(env, args, env.params(Check(env, f).ty.sig), 0);
      }
    case AssignNode(t, v) =>
      OnlyCastsAdded(env, t);
      OnlyCastsAdded(env, v);
  }

  lemma BinErased(env: Env, op: BinaryOp, c: Checked, d: Checked)
    ensures Erase(CheckBinary(env, op, c, d).node) == Bin(op, Erase(c.node), Erase(d.node))
  {
  }

  lemma {:induction false} OnlyCastsAddedAll(env: Env, args: Nodes, params: seq<ParamInfo>, i: nat)
    requires PlainAll(args)
    ensures EraseAll(CheckArgs(env, args, params, i).args) == args
    decreases args, 0
  {
    if args.ConsNode? {
      OnlyCastsAdded(env, args.head);
      PlainErased(args.tail);
      OnlyCastsAddedAll(env, args.tail, params, i + 1);
    }
  }

  lemma {:induction false} PlainErased(args: Nodes)
    requires PlainAll(args)
    ensures EraseAll(args) == args
  {
    if args.ConsNode? {
      PlainSame(args.head);
      PlainErased(args.tail);
    }
  }

  lemma {:induction false} PlainSame(e: Node)
    requires Plain(e)
    ensures Erase(e) == e
  {
    match e
    case Leaf(_, _) =>
    case Grouped(i) => PlainSame(i);
    case Apply(_, o) => PlainSame(o);
    case Bin(_, l, r) => PlainSame(l); PlainSame(r);
    case Cast(o, _) => PlainSame(o);
    case IndexOf(o, i) => PlainSame(o); PlainSame(i);
    case FieldAt(o, _) => PlainSame(o);
    case CallOf(f, args) => PlainSame(f); PlainErased(args);
    case AssignNode(t, v) => PlainSame(t); PlainSame(v);
  }

  /** An integer narrower than eight bytes stored in an `f64`, or the other way round: no cast is inserted. */
  predicate NarrowMix(env: Env, a: Ty, b: Ty) {
    (a == F64 && Integer(b) && Size(env, b) != 8) || (b == F64 && Integer(a) && Size(env, a) != 8)
  }

  /** A value of type `b` where `a` is declared: the same width, except in the one case no cast covers. */
  predicate Fitted(env: Env, a: Ty, b: Ty) {
    !a.Err? ==> (Size(env, a) == Size(env, b) <==> !NarrowMix(env, a, b))
  }

  /** If there is a cast, it is to this type. */
  predicate CastsTo(n: Node, t: Ty) {
    n.Implicit? ==> n.to == t
  }

  /** In a checked tree: stored values as wide as their targets, arguments as their parameters, indices eight bytes, and casts to those types. */
  predicate AllFitted(env: Env, n: Node) {
    match n
    case Leaf(_, _) => true
    case Grouped(i) => AllFitted(env, i)
    case Apply(_, o) => AllFitted(env, o)
    case Bin(_, l, r) =>
      && AllFitted(env, l) && AllFitted(env, r)
      && (CastsTo(l, Check(env, r).ty) || CastsTo(l, I64)) && (CastsTo(r, Check(env, l).ty) || CastsTo(r, I64))
    case Cast(o, _) => AllFitted(env, o)
    case Implicit(o, t) => AllFitted(env, o) && Integer(Check(env, o).ty) && Integer(t) && Size(env, Check(env, o).ty) != Size(env, t)
    case IndexOf(o, i) => AllFitted(env, o) && AllFitted(env, i) && Size(env, Check(env, i).ty) == 8 && CastsTo(i, I64)
    case FieldAt(o, _) => AllFitted(env, o)
    case CallOf(f, args) =>
      && AllFitted(env, f) && Check(env, f).ty.Fun?
      && ArgsFitted(env, args, env.params(Check(env, f).ty.sig), 0)
    case AssignNode(t, v) =>
      AllFitted(env, t) && AllFitted(env, v) && Fitted(env, Check(env, t).ty, Check(env, v).ty) && CastsTo(v, Check(env, t).ty)
  }

  predicate ArgsFitted(env: Env, args: Nodes, params: seq<ParamInfo>, i: nat) {
    match args
    case NoNodes => i == |params|
    case ConsNode(e, rest) =>
      && AllFitted(env, e) && i < |params| && Fitted(env, params[i].ty, Check(env, e).ty) && CastsTo(e, params[i].ty)
      && ArgsFitted(env, rest, params, i + 1)
  }

  /** A checked child that is cast where it differs in width. */
  lemma {:induction false} CastFits(env: Env, c: Checked, to: Ty)
    requires Primitives(env) && !c.ty.Err? && Check(env, c.node) == c && AllFitted(env, c.node) && !c.node.Implicit?
    ensures AllFitted(env, TryCast(env, c.node, c.ty, to)) && CastsTo(TryCast(env, c.node, c.ty, to), to)
    ensures Check(env, TryCast(env, c.node, c.ty, to)).ty == CastType(env, c.ty, to)
    ensures Assignable(env, to, c.ty) ==> Fitted(env, to, CastType(env, c.ty, to))
    ensures Integer(c.ty) && to == I64 ==> Size(env, CastType(env, c.ty, to)) == 8
  {
    CastStable(env, c, to);
  }

  lemma {:induction false} NoCastOnTop(env: Env, e: Node)
    requires Plain(e)
    ensures !Check(env, e).node.Implicit?
  {
  }

  /** Every accepted expression is fitted throughout; a cast only ever changes the width of an integer. */
  lemma {:induction false} AcceptedFitted(env: Env, e: Node)
    requires Primitives(env) && Plain(e) && Accepted(env, e)
    ensures AllFitted(env, Check(env, e).node)
    decreases e, 1
  {
    match e
    case Leaf(_, _) =>
    case Grouped(i) => AcceptedFitted(env, i);
    case Apply(_, o) => AcceptedFitted(env, o);
    case Bin(op, l, r) =>
      var c, d := Check(env, l), Check(env, r);
      BinParts(env, op, c, d);
      AcceptedFitted(env, l);
      AcceptedFitted(env, r);
      Recheck(env, l);
      Recheck(env, r);
      NoCastOnTop(env, l);
      NoCastOnTop(env, r);
      BinFits(env, op, c, d);
    case Cast(o, _) => AcceptedFitted(env, o);
    case IndexOf(o, i) =>
      AcceptedFitted(env, o);
      AcceptedFitted(env, i);
      Recheck(env, i);
      NoCastOnTop(env, i);
      CastFits(env, Check(env, i), I64);
    case FieldAt(o, _) => AcceptedFitted(env, o);
    case CallOf(f, args) =>
      AcceptedFitted(env, f);
      Recheck(env, f);
      AcceptedArgsFitted(env, args, env.params(Check(env, f).ty.sig), 0);
    case AssignNode(t, v) =>
      AcceptedFitted(env, t);
      AcceptedFitted(env, v);
      Recheck(env, t);
      Recheck(env, v);
      NoCastOnTop(env, v);
      CastFits(env, Check(env, v), Check(env, t).ty);
  }

  lemma {:induction false} BinFits(env: Env, op: BinaryOp, c: Checked, d: Checked)
    requires Primitives(env) && Check(env, c.node) == c && Check(env, d.node) == d && !c.ty.Err? && !d.ty.Err?
    requires AllFitted(env, c.node) && AllFitted(env, d.node) && !c.node.Implicit? && !d.node.Implicit?
    ensures AllFitted(env, CheckBinary(env, op, c, d).node)
  {
    hide Check;
    var (lt, rt) := Unified(env, c.ty, d.ty);
    CastFits(env, c, if WidensLeft(op, lt, rt) then I64 else lt);
    CastFits(env, d, if WidensRight(op, lt, rt) then I64 else rt);
  }

  lemma {:induction false} AcceptedArgsFitted(env: Env, args: Nodes, params: seq<ParamInfo>, i: nat)
    requires Primitives(env) && PlainAll(args) && i <= |params| && CheckArgs(env, args, params, i).ok
    ensures ArgsFitted(env, CheckArgs(env, args, params, i).args, params, i)
    decreases args, 0
  {
    if args.ConsNode? {
      AcceptedFitted(env, args.head);
      Recheck(env, args.head);
      NoCastOnTop(env, args.head);
      CastFits(env, Check(env, args.head), params[i].ty);
      AcceptedArgsFitted(env, args.tail, params, i + 1);
    }
  }

  /** The case no cast covers: an `i8` assigned to an `f64` is accepted as it stands. */
  lemma {:induction false} FloatTakesByte(env: Env)
    requires Primitives(env)
    ensures var e := AssignNode(Leaf(F64, true), Leaf(Named("i8"), false));
      && Accepted(env, e) && Check(env, e).node == e
      && Size(env, Check(env, e.target).ty) == 8 && Size(env, Check(env, e.value).ty) == 1
  {
  }
}
