/** Syntax trees. */
module ExprSyntax {
  import opened Options
  import opened Tokens
  import opened Scopes

  datatype BinaryOp =
    | LogicalOr | LogicalAnd | BitwiseOr | BitwiseXor | BitwiseAnd | IsEqual | NotEqual
    | LessThan | GreaterThan | AtMost | AtLeast | ShiftLeft | ShiftRight | AddOp | Subtract | Multiply | Divide | Remainder

  datatype UnaryOp = AddressOf | AddressOfMut | Dereference | NotOp | NegateOp

  /** Types; a named one with what its name means, as that is printed. */
  datatype TypeTree =
    | BasicType(kind: Kind)
    | NamedType(name: string, shown: string)
    | PointerType(isMut: bool, to: TypeTree)
    | FunctionType(params: TypeParams, ret: TypeTree)

  datatype TypeParams = NoParams | ConsParam(isMut: bool, typ: TypeTree, rest: TypeParams)

  datatype Tree =
    | Literal(token: Token)
    | Ident(name: string)
    | Group(inner: Tree)
    | Unary(uop: UnaryOp, operand: Tree)
    | Index(base: Tree, at: Tree)
    | Invoke(base: Tree, args: Trees)
    | FieldOf(base: Tree, field: string)
    | Binary(op: BinaryOp, left: Tree, right: Tree)
    | AssignTo(target: Tree, value: Tree)
    | StructLit(struct: string, fields: seq<string>, values: Trees)
    | EnumLit(enum: string, variant: string, fields: seq<string>, values: Trees)
    | NewOf(isMut: bool, isArray: bool, typ: TypeTree, init: Option<Tree>)
    | CastTo(typ: TypeTree, expr: Tree)
    | SizeOf(typ: TypeTree)

  datatype Trees = NoTrees | ConsTree(head: Tree, tail: Trees)

  // Operators and their ten levels

  function OpKind(op: BinaryOp): Kind {
    match op
    case LogicalOr => KwOr
    case LogicalAnd => KwAnd
    case BitwiseOr => Pipe
    case BitwiseXor => Caret
    case BitwiseAnd => Ampersand
    case IsEqual => EqualEqual
    case NotEqual => BangEqual
    case LessThan => LAngle
    case GreaterThan => RAngle
    case AtMost => LessEqual
    case AtLeast => GreaterEqual
    case ShiftLeft => LessLess
    case ShiftRight => GreaterGreater
    case AddOp => Plus
    case Subtract => Minus
    case Multiply => Star
    case Divide => Slash
    case Remainder => Modulo
  }

  /** 1 binds loosest, 10 tightest. */
  function OpLevel(op: BinaryOp): (l: nat)
    ensures 1 <= l <= 10
  {
    match op
    case LogicalOr => 1
    case LogicalAnd => 2
    case BitwiseOr => 3
    case BitwiseXor => 4
    case BitwiseAnd => 5
    case IsEqual | NotEqual => 6
    case LessThan | GreaterThan | AtMost | AtLeast => 7
    case ShiftLeft | ShiftRight => 8
    case AddOp | Subtract => 9
    case Multiply | Divide | Remainder => 10
  }

  function OpAt(k: Kind): (op: Option<BinaryOp>)
    ensures op.Some? ==> OpKind(op.value) == k
  {
    if k == KwOr then Some(LogicalOr)
    else if k == KwAnd then Some(LogicalAnd)
    else if k == Pipe then Some(BitwiseOr)
    else if k == Caret then Some(BitwiseXor)
    else if k == Ampersand then Some(BitwiseAnd)
    else if k == EqualEqual then Some(IsEqual)
    else if k == BangEqual then Some(NotEqual)
    else if k == LAngle then Some(LessThan)
    else if k == RAngle then Some(GreaterThan)
    else if k == LessEqual then Some(AtMost)
    else if k == GreaterEqual then Some(AtLeast)
    else if k == LessLess then Some(ShiftLeft)
    else if k == GreaterGreater then Some(ShiftRight)
    else if k == Plus then Some(AddOp)
    else if k == Minus then Some(Subtract)
    else if k == Star then Some(Multiply)
    else if k == Slash then Some(Divide)
    else if k == Modulo then Some(Remainder)
    else None
  }

  /** The operator a token is at one level, if it is one. */
  function OpAtLevel(k: Kind, level: nat): Option<BinaryOp> {
    var op := OpAt(k);
    if op.Some? && OpLevel(op.value) == level then op else None
  }

  lemma OpAtKind(op: BinaryOp)
    ensures OpAt(OpKind(op)) == Some(op)
  {
  }

  // Tokens without text

  function Tok(k: Kind): Token {
    Token(k, "")
  }

  // Statements and declarations

  datatype StmtTree =
    | VarTree(isMut: bool, name: string, typ: Option<TypeTree>, init: Option<Tree>)
    | IfTree(cond: Tree, yes: seq<StmtTree>, no: ElseTree)
    | ForTree(start: Option<StmtTree>, test: Option<Tree>, iter: Option<Tree>, body: seq<StmtTree>)
    | WhileTree(cond: Tree, body: seq<StmtTree>)
    | SwitchTree(subject: Tree, cases: seq<CaseTree>)
    | ReadTree(expr: Tree)
    | FreeTree(expr: Tree)
    | PrintTree(exprs: Trees)
    | ErrorTree(exprs: Trees)
    | BlockTree(body: seq<StmtTree>)
    | ReturnTree(result: Option<Tree>)
    | ExitTree(result: Option<Tree>)
    | BreakTree
    | ContinueTree
    | AsmTree(code: seq<Token>)
    | ExprTree(expr: Tree)
    | Poison

  datatype ElseTree = NoElse | Else(body: seq<StmtTree>)

  datatype CaseTree =
    | ValueCase(value: Tree, body: seq<StmtTree>)
    | EnumCase(enum: string, variant: string, payload: Option<string>, body: seq<StmtTree>)
    | DefaultCase(body: seq<StmtTree>)

  datatype FieldTree = FieldTree(name: string, typ: TypeTree)

  datatype ParamTree = ParamTree(isMut: bool, name: string, typ: TypeTree)

  /** `tag` is the literal written after the name, if any. */
  datatype VariantTree = VariantTree(name: string, tag: Option<string>, payload: Option<seq<FieldTree>>)

  datatype DeclTree =
    | StructTree(name: string, fields: seq<FieldTree>)
    | EnumTree(name: string, variants: seq<VariantTree>)
    | FuncTree(isExtern: bool, name: string, sig: Signature, body: Option<seq<StmtTree>>)
    | StmtDecl(stmt: StmtTree)

  datatype Signature = Signature(params: seq<ParamTree>, ret: Option<FieldTree>)
}
