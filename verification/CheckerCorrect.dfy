/** Checking twice changes nothing. */
module CheckerCorrect {
  import opened Options
  import opened ExprSyntax
  import opened Checker

  /** Trees as the parser makes them: no implicit casts. */
  predicate Plain(e: Node) {
    match e
    case Leaf(_, _) => true
    case Grouped(i) => Plain(i)
    case Apply(_, o) => Plain(o)
    case Bin(_, l, r) => Plain(l) && Plain(r)
    case Cast(o, _) => Plain(o)
    case Implicit(_, _) => false
    case IndexOf(o, i) => Plain(o) && Plain(i)
    case FieldAt(o, _) => Plain(o)
    case CallOf(f, args) => Plain(f) && PlainAll(args)
    case AssignNode(t, v) => Plain(t) && Plain(v)
  }

  predicate PlainAll(args: Nodes) {
    match args
    case NoNodes => true
    case ConsNode(e, rest) => Plain(e) && PlainAll(rest)
  }

  predicate Accepted(env: Env, e: Node) {
    !Check(env, e).ty.Err?
  }

  // Checking twice

  /** An accepted expression checks to a tree that checks to itself, with the same type. */
  lemma {:induction false} Recheck(env: Env, e: Node)
    requires Primitives(env) && Plain(e) && Accepted(env, e)
    ensures Check(env, Check(env, e).node) == Check(env, e)
    decreases e, 1
  {
    match e
    case Leaf(_, _) =>
    case Grouped(i) => Recheck(env, i);
    case Apply(_, o) => Recheck(env, o);
    case Bin(op, l, r) =>
      hide CheckBinary;
      BinParts(env, op, Check(env, l), Check(env, r));
      Recheck(env, l);
      Recheck(env, r);
      BinaryStable(env, op, Check(env, l), Check(env, r));
    case Cast(o, _) => Recheck(env, o);
    case IndexOf(o, i) =>
      Recheck(env, o);
      Recheck(env, i);
      CastStable(env, Check(env, i), I64);
      IndexStable(env, Check(env, o), Check(env, i));
    case FieldAt(o, _) => Recheck(env, o);
    case CallOf(f, args) =>
      Recheck(env, f);
      RecheckArgs(env, args, env.params(Check(env, f).ty.sig), 0);
    case AssignNode(t, v) =>
      Recheck(env, t);
      Recheck(env, v);
      CastStable(env, Check(env, v), Check(env, t).ty);
      AssignStable(env, Check(env, t), Check(env, v));
  }

  lemma BinParts(env: Env, op: BinaryOp, l: Checked, r: Checked)
    requires !CheckBinary(env, op, l, r).ty.Err?
    ensures !l.ty.Err? && !r.ty.Err?
  {
  }

  lemma {:induction false} IndexStable(env: Env, c: Checked, d: Checked)
    requires Primitives(env) && Check(env, c.node) == c && Check(env, d.node) == d && !CheckIndex(env, c, d).ty.Err?
    ensures Check(env, CheckIndex(env, c, d).node) == CheckIndex(env, c, d)
  {
    CastStable(env, d, I64);
  }

  lemma {:induction false} AssignStable(env: Env, c: Checked, d: Checked)
    requires Check(env, c.node) == c && Check(env, d.node) == d && !CheckAssign(env, c, d).ty.Err?
    ensures Check(env, CheckAssign(env, c, d).node) == CheckAssign(env, c, d)
  {
    CastStable(env, d, c.ty);
  }

  lemma {:induction false} RecheckArgs(env: Env, args: Nodes, params: seq<ParamInfo>, i: nat)
    requires Primitives(env) && PlainAll(args) && CheckArgs(env, args, params, i).ok
    ensures CheckArgs(env, CheckArgs(env, args, params, i).args, params, i) == CheckArgs(env, args, params, i)
    decreases args, 0
  {
    if args.ConsNode? {
      Recheck(env, args.head);
      CastStable(env, Check(env, args.head), params[i].ty);
      RecheckArgs(env, args.tail, params, i + 1);
    }
  }

  // What the lowering relies on

  /** In a checked tree, both operands of every arithmetic or comparison node have one size. */
  predicate SizesMatch(env: Env, e: Node) {
    match e
    case Leaf(_, _) => true
    case Grouped(i) => SizesMatch(env, i)
    case Apply(_, o) => SizesMatch(env, o)
    case Bin(op, l, r) =>
      && SizesMatch(env, l) && SizesMatch(env, r)
      && (if IsLogical(op) then Check(env, l).ty == BOOL && Check(env, r).ty == BOOL
          else Size(env, Check(env, l).ty) == Size(env, Check(env, r).ty))
    case Cast(o, _) => SizesMatch(env, o)
    case Implicit(o, _) => SizesMatch(env, o)
    case IndexOf(o, i) => SizesMatch(env, o) && SizesMatch(env, i)
    case FieldAt(o, _) => SizesMatch(env, o)
    case CallOf(f, args) => SizesMatch(env, f) && SizesMatchAll(env, args)
    case AssignNode(t, v) => SizesMatch(env, t) && SizesMatch(env, v)
  }

  predicate SizesMatchAll(env: Env, args: Nodes) {
    match args
    case NoNodes => true
    case ConsNode(e, rest) => SizesMatch(env, e) && SizesMatchAll(env, rest)
  }

  lemma {:induction false} CastKeepsSizes(env: Env, n: Node, from: Ty, to: Ty)
    requires SizesMatch(env, n)
    ensures SizesMatch(env, TryCast(env, n, from, to))
  {
  }

  /** Every accepted expression meets the lowering's assertion that operand sizes are equal. */
  lemma {:induction false} AcceptedSizesMatch(env: Env, e: Node)
    requires Primitives(env) && Plain(e) && Accepted(env, e)
    ensures SizesMatch(env, Check(env, e).node)
    decreases e, 1
  {
    match e
    case Leaf(_, _) =>
    case Grouped(i) => AcceptedSizesMatch(env, i);
    case Apply(_, o) => AcceptedSizesMatch(env, o);
    case Bin(op, l, r) => BinarySizesMatch(env, op, l, r);
    case Cast(o, _) => AcceptedSizesMatch(env, o);
    case IndexOf(o, i) =>
      AcceptedSizesMatch(env, o);
      AcceptedSizesMatch(env, i);
      CastKeepsSizes(env, Check(env, i).node, Check(env, i).ty, I64);
    case FieldAt(o, _) => AcceptedSizesMatch(env, o);
    case CallOf(f, args) =>
      AcceptedSizesMatch(env, f);
      ArgsSizesMatch(env, args, env.params(Check(env, f).ty.sig), 0);
    case AssignNode(t, v) =>
      AcceptedSizesMatch(env, t);
      AcceptedSizesMatch(env, v);
      CastKeepsSizes(env, Check(env, v).node, Check(env, v).ty, Check(env, t).ty);
  }

  lemma {:induction false} BinarySizesMatch(env: Env, op: BinaryOp, l: Node, r: Node)
    requires Primitives(env) && Plain(l) && Plain(r) && Accepted(env, Bin(op, l, r))
    ensures SizesMatch(env, Check(env, Bin(op, l, r)).node)
    decreases Bin(op, l, r), 0
  {
    var c, d := Check(env, l), Check(env, r);
    BinParts(env, op, c, d);
    AcceptedSizesMatch(env, l);
    AcceptedSizesMatch(env, r);
    Recheck(env, l);
    Recheck(env, r);
    UnifiedStable(env, op, c.ty, d.ty);
    OperandsMatch(env, op, c, d);
  }

  lemma {:induction false} OperandsMatch(env: Env, op: BinaryOp, c: Checked, d: Checked)
    requires Primitives(env) && Check(env, c.node) == c && Check(env, d.node) == d && !CheckBinary(env, op, c, d).ty.Err?
    requires SizesMatch(env, c.node) && SizesMatch(env, d.node)
    ensures SizesMatch(env, CheckBinary(env, op, c, d).node)
  {
    hide Check;
    var (lt, rt) := Unified(env, c.ty, d.ty);
    var lto, rto := if WidensLeft(op, lt, rt) then I64 else lt, if WidensRight(op, lt, rt) then I64 else rt;
    CastStable(env, c, lto);
    CastStable(env, d, rto);
    CastKeepsSizes(env, c.node, c.ty, lto);
    CastKeepsSizes(env, d.node, d.ty, rto);
    UnifiedStable(env, op, c.ty, d.ty);
  }

  lemma {:induction false} ArgsSizesMatch(env: Env, args: Nodes, params: seq<ParamInfo>, i: nat)
    requires Primitives(env) && PlainAll(args) && CheckArgs(env, args, params, i).ok
    ensures SizesMatchAll(env, CheckArgs(env, args, params, i).args)
    decreases args, 0
  {
    if args.ConsNode? {
      AcceptedSizesMatch(env, args.head);
      CastKeepsSizes(env, Check(env, args.head).node, Check(env, args.head).ty, params[i].ty);
      ArgsSizesMatch(env, args.tail, params, i + 1);
    }
  }

  // The l-value test

  /** On an accepted expression the l-value test, which checks parts again, finds the type the check found. */
  lemma {:induction false} LValueAgrees(env: Env, e: Node)
    requires Primitives(env) && Plain(e) && Accepted(env, e)
    ensures LValue(env, Check(env, e).node) == Check(env, e).lvalue
    ensures Check(env, e).lvalue.Some? ==> Check(env, e).lvalue.value == Check(env, e).ty
  {
    match e
    case Grouped(i) => LValueAgrees(env, i);
    case Apply(op, o) => Recheck(env, o);
    case IndexOf(o, i) =>
      Recheck(env, o);
      Recheck(env, e);
    case FieldAt(o, _) =>
      Recheck(env, o);
      Recheck(env, e);
      LValueAgrees(env, o);
    case _ =>
  }
}
