/** Expression types and casts. */
module Checker {
  import opened Options
  import opened ExprSyntax

  /** `pointee` and `sig` stand for the identity of the type object that is pointed to or called. */
  datatype Ty = Named(name: string) | Ptr(isMut: bool, pointee: nat) | Fun(sig: nat) | EnumTy(enumName: string) | Err

  datatype ParamInfo = ParamInfo(ty: Ty, isMut: bool)

  /** What the symbol table knows: sizes, pointees, pointer types, signatures and fields. */
  datatype Env = Env(
    size: string -> nat,
    enumSize: string -> nat,
    at: nat -> Ty,
    pointerTo: (bool, Ty) -> nat,
    params: nat -> seq<ParamInfo>,
    result: nat -> Ty,
    field: (string, string) -> Option<Ty>)

  const I64 := Named("i64")
  const BOOL := Named("bool")
  const F64 := Named("f64")
  const NULL_TYPE := Named("u0")
  const U32 := Named("u32")

  /** Sizes of the primitive types; `null` has the size of a pointer. */
  predicate Primitives(env: Env) {
    && env.size("i64") == 8 && env.size("u64") == 8 && env.size("f64") == 8 && env.size("u0") == 8
    && env.size("bool") == 1 && env.size("i8") == 1 && env.size("u8") == 1
    && env.size("i16") == 2 && env.size("u16") == 2 && env.size("i32") == 4 && env.size("u32") == 4
  }

  function Size(env: Env, t: Ty): nat {
    match t
    case Named(n) => env.size(n)
    case EnumTy(n) => env.enumSize(n)
    case _ => 8
  }

  predicate IsInteger(t: Ty) {
    t.Named? && t.name in {"i8", "i16", "i32", "i64", "u8", "u16", "u32", "u64"}
  }

  predicate IsNumeric(t: Ty) {
    IsInteger(t) || t == F64
  }

  datatype UnaryNode = NegateNode | NotNode | DerefNode | AddressNode(isMut: bool)

  /** Expressions; a leaf is a literal or a variable whose type the symbol table gives, `Err` when it has none. */
  datatype Node =
    | Leaf(ty: Ty, assignable: bool)
    | Grouped(inner: Node)
    | Apply(uop: UnaryNode, operand: Node)
    | Bin(op: BinaryOp, left: Node, right: Node)
    | Cast(operand: Node, to: Ty)
    | Implicit(operand: Node, to: Ty)
    | IndexOf(owner: Node, index: Node)
    | FieldAt(owner: Node, field: string)
    | CallOf(callee: Node, args: Nodes)
    | AssignNode(target: Node, value: Node)

  datatype Nodes = NoNodes | ConsNode(head: Node, tail: Nodes)

  /**
    The tree after checking, children replaced by casts where needed, its type, and the type it
    may be assigned if it is an assignable l-value (`LValueAgrees` ties that to the l-value test).
   */
  datatype Checked = Checked(node: Node, ty: Ty, lvalue: Option<Ty>)

  datatype CheckedArgs = CheckedArgs(args: Nodes, ok: bool)

  // Casts

  /** Wraps in a cast when both are integers of different size. */
  function TryCast(env: Env, n: Node, from: Ty, to: Ty): Node {
    if from != to && IsInteger(from) && IsInteger(to) && Size(env, from) != Size(env, to) then Implicit(n, to) else n
  }

  predicate Assignable(env: Env, to: Ty, from: Ty) {
    || to.Err? || from.Err?
    || to == from || (IsNumeric(to) && IsNumeric(from))
    || (to.Ptr? && from == NULL_TYPE)
    || (to.Ptr? && from.Ptr? && env.at(to.pointee) == env.at(from.pointee) && (to.isMut ==> from.isMut))
  }

  predicate CastAllowed(from: Ty, to: Ty) {
    || (IsNumeric(from) && IsNumeric(to)) || (from.Ptr? && to.Ptr?)
    || (IsInteger(from) && to.Ptr?) || (from.Ptr? && IsInteger(to))
  }

  predicate IsLogical(op: BinaryOp) {
    op == LogicalAnd || op == LogicalOr
  }

  /** Both operands' types after integers of different sizes are unified to the wider one. */
  function Unified(env: Env, l: Ty, r: Ty): (Ty, Ty) {
    if IsInteger(l) && IsInteger(r) then
      if Size(env, l) > Size(env, r) then (l, l) else if Size(env, l) < Size(env, r) then (r, r) else (l, r)
    else (l, r)
  }

  /** The result type, `Err` when the operands do not fit the operator. */
  function BinaryType(op: BinaryOp, l: Ty, r: Ty): Ty {
    var ints := IsInteger(l) && IsInteger(r);
    var floats := l == F64 && r == F64;
    if IsNumeric(l) && IsNumeric(r) && !ints && !floats then Err
    else
      match op
      case AddOp =>
        if ints || floats then l
        else if l.Ptr? && IsInteger(r) then l
        else if IsInteger(l) && r.Ptr? then r
        else Err
      case Subtract =>
        if ints || floats then l
        else if l.Ptr? && r.Ptr? && l == r then I64
        else if l.Ptr? && IsInteger(r) then l
        else Err
      case Multiply | Divide => if ints || floats then l else Err
      case Remainder => if ints then l else Err
      case IsEqual | NotEqual =>
        if l == r || ints || floats || (l.Ptr? && r == NULL_TYPE) || (l == NULL_TYPE && r.Ptr?) then BOOL else Err
      case LessThan | GreaterThan | AtMost | AtLeast => if ints || floats || (l.Ptr? && l == r) then BOOL else Err
      case LogicalAnd | LogicalOr => if l == BOOL && r == BOOL then BOOL else Err
      case _ => if ints then l else Err
  }

  /** Pointer arithmetic also widens its integer operand to 64 bits. */
  predicate WidensRight(op: BinaryOp, l: Ty, r: Ty) {
    (op == AddOp || op == Subtract) && l.Ptr? && IsInteger(r)
  }

  predicate WidensLeft(op: BinaryOp, l: Ty, r: Ty) {
    op == AddOp && IsInteger(l) && r.Ptr?
  }

  function CheckBinary(env: Env, op: BinaryOp, l: Checked, r: Checked): Checked {
    if l.ty.Err? || r.ty.Err? then Checked(Bin(op, l.node, r.node), Err, None)
    else
      var (lt, rt) := Unified(env, l.ty, r.ty);
      var left := TryCast(env, l.node, l.ty, if WidensLeft(op, lt, rt) then I64 else lt);
      var right := TryCast(env, r.node, r.ty, if WidensRight(op, lt, rt) then I64 else rt);
      Checked(Bin(op, left, right), BinaryType(op, lt, rt), None)
  }

  // Checking

  function FieldType(env: Env, owner: Ty, field: string): Ty {
    var base := if owner.Ptr? then env.at(owner.pointee) else owner;
    match base
    case EnumTy(_) => if field == "tag" then U32 else Err
    case Named(n) => (match env.field(n, field) case Some(t) => t case None => Err)
    case _ => Err
  }

  function Check(env: Env, e: Node): Checked
    decreases e, 1
  {
    match e
    case Leaf(t, assignable) => Checked(e, t, if assignable && !t.Err? then Some(t) else None)
    case Grouped(i) => var c := Check(env, i); c.(node := Grouped(c.node))
    case Apply(op, o) => CheckApply(env, op, Check(env, o))
    case Bin(op, l, r) => CheckBinary(env, op, Check(env, l), Check(env, r))
    case Cast(o, t) =>
      var c := Check(env, o);
      Checked(Cast(c.node, t), if !c.ty.Err? && CastAllowed(c.ty, t) then t else Err, None)
    case Implicit(o, t) => Checked(Implicit(Check(env, o).node, t), t, None)
    case IndexOf(o, i) => CheckIndex(env, Check(env, o), Check(env, i))
    case FieldAt(o, f) => CheckField(env, Check(env, o), f)
    case CallOf(f, args) =>
      var c := Check(env, f);
      if !c.ty.Fun? then Checked(CallOf(c.node, args), Err, None)
      else
        var a := CheckArgs(env, args, env.params(c.ty.sig), 0);
        Checked(CallOf(c.node, a.args), if a.ok then env.result(c.ty.sig) else Err, None)
    case AssignNode(t, v) => CheckAssign(env, Check(env, t), Check(env, v))
  }

  function CheckApply(env: Env, op: UnaryNode, c: Checked): Checked {
    var lvalue := if op == DerefNode && c.ty.Ptr? && c.ty.isMut then Some(env.at(c.ty.pointee)) else None;
    Checked(Apply(op, c.node), ApplyType(env, op, c), lvalue)
  }

  function ApplyType(env: Env, op: UnaryNode, c: Checked): Ty {
    if c.ty.Err? then Err
    else
      match op
      case NegateNode => if IsNumeric(c.ty) then c.ty else Err
      case NotNode => if c.ty == BOOL then BOOL else Err
      case DerefNode => if c.ty.Ptr? then env.at(c.ty.pointee) else Err
      case AddressNode(isMut) => if isMut && c.lvalue.None? then Err else Ptr(isMut, env.pointerTo(isMut, c.ty))
  }

  function CheckIndex(env: Env, c: Checked, d: Checked): Checked {
    if c.ty.Ptr? && IsInteger(d.ty) then
      var t := env.at(c.ty.pointee);
      Checked(IndexOf(c.node, TryCast(env, d.node, d.ty, I64)), t, if c.ty.isMut then Some(t) else None)
    else Checked(IndexOf(c.node, d.node), Err, None)
  }

  function CheckField(env: Env, c: Checked, f: string): Checked {
    var t := if c.ty.Err? then Err else FieldType(env, c.ty, f);
    var mut := if c.ty.Ptr? then c.ty.isMut else c.lvalue.Some?;
    Checked(FieldAt(c.node, f), t, if mut then Some(t) else None)
  }

  function CheckAssign(env: Env, c: Checked, d: Checked): Checked {
    if c.ty.Err? || d.ty.Err? || c.lvalue.None? || !Assignable(env, c.ty, d.ty) then
      Checked(AssignNode(c.node, d.node), Err, None)
    else Checked(AssignNode(c.node, TryCast(env, d.node, d.ty, c.ty)), c.ty, None)
  }

  function CheckArgs(env: Env, args: Nodes, params: seq<ParamInfo>, i: nat): CheckedArgs
    decreases args, 0
  {
    match args
    case NoNodes => CheckedArgs(NoNodes, i >= |params|)
    case ConsNode(e, rest) =>
      var c := Check(env, e);
      if i >= |params| || c.ty.Err? || !ParamAccepts(env, params[i], c.ty) then CheckedArgs(ConsNode(c.node, rest), false)
      else
        var a := CheckArgs(env, rest, params, i + 1);
        CheckedArgs(ConsNode(if params[i].isMut then c.node else TryCast(env, c.node, c.ty, params[i].ty), a.args), a.ok)
  }

  /** A `mut` parameter takes its own type only. */
  predicate ParamAccepts(env: Env, p: ParamInfo, t: Ty) {
    if p.isMut then p.ty == t else Assignable(env, p.ty, t)
  }

  /** The l-value test on a checked tree: checks subexpressions again to learn their types. */
  function LValue(env: Env, e: Node): Option<Ty> {
    match e
    case Grouped(i) => LValue(env, i)
    case Leaf(t, assignable) => if assignable && !t.Err? then Some(t) else None
    case Apply(op, o) =>
      if op == DerefNode then
        var t := Check(env, o).ty;
        if t.Ptr? && t.isMut then Some(env.at(t.pointee)) else None
      else None
    case FieldAt(o, _) =>
      var t := Check(env, o).ty;
      if t.Ptr? then if t.isMut then Some(Check(env, e).ty) else None
      else if LValue(env, o).Some? then Some(Check(env, e).ty) else None
    case IndexOf(o, _) =>
      var t := Check(env, o).ty;
      if t.Ptr? && t.isMut then Some(Check(env, e).ty) else None
    case _ => None
  }

  // Accepted trees, checked again

  /** The type a child has after `TryCast`. */
  function CastType(env: Env, from: Ty, to: Ty): Ty {
    if from != to && IsInteger(from) && IsInteger(to) && Size(env, from) != Size(env, to) then to else from
  }

  /** A child that was checked, then possibly cast, checks to itself with the type it now has. */
  lemma {:induction false} CastStable(env: Env, c: Checked, to: Ty)
    requires !c.ty.Err? && Check(env, c.node) == c
    ensures var n := TryCast(env, c.node, c.ty, to);
      && Check(env, n).node == n && Check(env, n).ty == CastType(env, c.ty, to)
      && TryCast(env, n, Check(env, n).ty, to) == n
  {
  }

  lemma {:induction false} BinaryStable(env: Env, op: BinaryOp, l: Checked, r: Checked)
    requires Primitives(env) && Check(env, l.node) == l && Check(env, r.node) == r && !CheckBinary(env, op, l, r).ty.Err?
    ensures Check(env, CheckBinary(env, op, l, r).node) == CheckBinary(env, op, l, r)
  {
    hide Check;
    var (lt, rt) := Unified(env, l.ty, r.ty);
    var lto, rto := if WidensLeft(op, lt, rt) then I64 else lt, if WidensRight(op, lt, rt) then I64 else rt;
    CastStable(env, l, lto);
    CastStable(env, r, rto);
    var left, right := TryCast(env, l.node, l.ty, lto), TryCast(env, r.node, r.ty, rto);
    UnifiedStable(env, op, l.ty, r.ty);
    BinCheck(env, op, left, right);
  }

  lemma {:induction false} BinCheck(env: Env, op: BinaryOp, l: Node, r: Node)
    ensures Check(env, Bin(op, l, r)) == CheckBinary(env, op, Check(env, l), Check(env, r))
  {
    hide CheckBinary;
  }

  /** Types unified and widened once are unified and widened. */
  lemma UnifiedStable(env: Env, op: BinaryOp, l: Ty, r: Ty)
    requires Primitives(env) && !l.Err? && !r.Err?
    requires var (lt, rt) := Unified(env, l, r); !BinaryType(op, lt, rt).Err?
    ensures var (lt, rt) := Unified(env, l, r);
      var lto, rto := if WidensLeft(op, lt, rt) then I64 else lt, if WidensRight(op, lt, rt) then I64 else rt;
      var l2, r2 := CastType(env, l, lto), CastType(env, r, rto);
      && Unified(env, l2, r2) == (l2, r2) && !l2.Err? && !r2.Err?
      && BinaryType(op, l2, r2) == BinaryType(op, lt, rt)
      && WidensLeft(op, l2, r2) == WidensLeft(op, lt, rt) && WidensRight(op, l2, r2) == WidensRight(op, lt, rt)
      && (WidensLeft(op, l2, r2) ==> CastType(env, l2, I64) == l2) && (WidensRight(op, l2, r2) ==> CastType(env, r2, I64) == r2)
      && (IsLogical(op) || Size(env, l2) == Size(env, r2))
  {
  }
}
