/** The whole grammar as functions from state to tree and state, panics and recovery included. */
module Grammar {
  import opened Options
  import opened Tokens
  import opened Scopes
  import opened ExprSyntax
  import opened ParserState

  // Tokens

  function Advance(s: State): (t: State)
    ensures Onward(s, t) && (KindAt(s) != EofTok ==> Left(t) < Left(s))
  {
    hide Reaches, Good, Left;
    if KindAt(s) == EofTok then s else PastOnward(s); Past(s)
  }

  /** The text of the token when it is the expected one. */
  function Consume(s: State, k: Kind): (r: Res<string>)
    requires k != EofTok
    ensures Onward(s, r.s) && (r.Done? ==> Left(r.s) < Left(s))
  {
    hide Reaches, Good, Left;
    if KindAt(s) == k then PastOnward(s); Done(TextAt(s), Past(s)) else Panic(s)
  }

  /** `>>` counts as two `>`, and `>=` as `>` followed by `=`: the token is rewritten, not passed. */
  function Rangle(s: State): (r: Res<()>)
    ensures Onward(s, r.s) && (r.Done? ==> Left(r.s) < Left(s))
  {
    hide Reaches, Good, Left;
    var k := KindAt(s);
    if k == RAngle then PastOnward(s); Done((), Past(s))
    else if k == GreaterGreater then
      HalfOnward(s, Token(RAngle, ">"));
      Done((), Rewritten(s, Token(RAngle, ">")))
    else if k == GreaterEqual then
      HalfOnward(s, Token(Equal, "="));
      Done((), Rewritten(s, Token(Equal, "=")))
    else Panic(s)
  }

  predicate NoneBetween(ts: seq<Token>, from: nat, to: nat) {
    forall i {:trigger ts[i]} :: from <= i < to ==> i < |ts| && !IsSyncPoint(ts[i].kind)
  }

  /** The next synchronization point. */
  function SkipTo(s: State): (t: State)
    ensures Onward(s, t) && IsSyncPoint(KindAt(t)) && t == s.(pos := t.pos) && s.pos <= t.pos
    ensures NoneBetween(s.tokens, s.pos, t.pos)
    decreases Left(s)
  {
    hide Reaches, Good, Left;
    if IsSyncPoint(KindAt(s)) then s
    else
      PastOnward(s);
      var t := SkipTo(Past(s));
      assert NoneBetween(s.tokens, s.pos, t.pos) by {
        assert NoneBetween(s.tokens, s.pos + 1, t.pos);
      }
      t
  }

  function Recover(s: State): (t: State)
    ensures Onward(s, t) && IsSyncPoint(KindAt(t)) && (KindAt(s) != EofTok ==> Left(t) < Left(s))
    ensures t == s.(pos := t.pos) && s.pos <= t.pos && NoneBetween(s.tokens, s.pos + 1, t.pos)
  {
    hide Reaches, Good, Left, SkipTo;
    SkipTo(Advance(s))
  }

  function Prefix(s: State): (r: (bool, State))
    ensures Onward(s, r.1)
  {
    hide Reaches, Good, Left;
    if KindAt(s) == KwMut then PastOnward(s); (true, Past(s))
    else if KindAt(s) == KwImm then PastOnward(s); (false, Past(s))
    else (false, s)
  }

  // Types

  function Quantified(isMut: bool): string {
    if isMut then "mut" else "imm"
  }

  function PointerName(isMut: bool, pointee: string): (name: string)
    ensures !Plain(name)
  {
    var name := "ptr<" + Quantified(isMut) + " " + pointee + ">";
    assert name[3] == '<';
    name
  }

  function FunctionName(params: string, ret: string): (name: string)
    ensures !Plain(name)
  {
    var name := "func(" + params + ")->" + ret;
    assert name[4] == '(';
    name
  }

  /** How a type is printed; the symbol table knows pointer and function types by this. */
  function Printed(t: TypeTree): string {
    match t
    case BasicType(k) => BasicName(k)
    case NamedType(_, shown) => shown
    case PointerType(isMut, to) => PointerName(isMut, Printed(to))
    case FunctionType(params, ret) => FunctionName(PrintedParams(params), Printed(ret))
  }

  function PrintedParams(ps: TypeParams): string {
    match ps
    case NoParams => ""
    case ConsParam(isMut, t, NoParams) => Quantified(isMut) + ": " + Printed(t)
    case ConsParam(isMut, t, rest) => Quantified(isMut) + ": " + Printed(t) + ", " + PrintedParams(rest)
  }

  /** What a name means from a scope on, if that is a type. */
  function TypeFrom(s: State, start: nat, name: string): Option<Sym> {
    if Nested(s.scopes) && start < |s.scopes| then TypeNamed(Chain(s.scopes, start), name) else None
  }

  /** Binds a printed type where it is not yet known. */
  function Known(s: State, scope: nat, name: string): (t: State)
    requires !Plain(name)
    ensures Onward(s, t) && Left(t) == Left(s) && KindAt(t) == KindAt(s)
    ensures Good(s) ==> Untyped(t.scopes) == Untyped(s.scopes)
  {
    hide Reaches, Good, Left, Untyped;
    if TypeFrom(s, scope, name).Some? then s
    else
      BindOnward(s, s, scope, name, TypeSym(name, true));
      Bind(s, scope, name, TypeSym(name, true))
  }

  function TypeAt(s: State): (r: Res<TypeTree>)
    ensures Onward(s, r.s) && (r.Done? ==> Left(r.s) < Left(s))
    decreases Left(s), 10
  {
    hide Reaches, Good, Left, PointerAt, FunctionTypeAt, Known;
    var k := KindAt(s);
    if IsBasicType(k) then
      PastOnward(s);
      if k == TyString then StringIsPrinted(); Done(BasicType(k), Known(Past(s), 0, BasicName(k))) else Done(BasicType(k), Past(s))
    else if k == Identifier then
      PastOnward(s);
      var t := TypeFrom(s, s.current, TextAt(s));
      if t.Some? then Done(NamedType(TextAt(s), t.value.shown), Past(s)) else Panic(Past(s))
    else if k == KwPtr then PointerAt(s)
    else if k == KwFunc then FunctionTypeAt(s)
    else Panic(s)
  }

  lemma StringIsPrinted()
    ensures !Plain(BasicName(TyString))
  {
    assert BasicName(TyString)[3] == '<';
  }

  function PointerAt(s: State): (r: Res<TypeTree>)
    requires KindAt(s) == KwPtr
    ensures Onward(s, r.s) && (r.Done? ==> Left(r.s) < Left(s))
    decreases Left(s), 9
  {
    hide Reaches, Good, Left, TypeAt, Known, Plain;
    PastOnward(s);
    var (_, s1) :- Consume(Past(s), LAngle);
    var p := Prefix(s1);
    var (pointee, s2) :- TypeAt(p.1);
    var (_, s3) :- Rangle(s2);
    Done(PointerType(p.0, pointee), Known(s3, s3.current, PointerName(p.0, Printed(pointee))))
  }

  function FunctionTypeAt(s: State): (r: Res<TypeTree>)
    requires KindAt(s) == KwFunc
    ensures Onward(s, r.s) && (r.Done? ==> Left(r.s) < Left(s))
    decreases Left(s), 9
  {
    hide Reaches, Good, Left, TypeAt, TypeList, FunctionName;
    PastOnward(s);
    var (_, s1) :- Consume(Past(s), LParen);
    var (params, s2) :- if KindAt(s1) == RParen then Done(NoParams, s1) else TypeList(s1);
    var (_, s3) :- Consume(s2, RParen);
    var (_, s4) :- Consume(s3, Arrow);
    var (ret, s5) :- TypeAt(s4);
    var t := FunctionType(params, ret);
    if TypeFrom(s5, 0, Printed(t)).Some? then Done(t, s5) else Panic(s5)
  }

  /** One or more parameter types; `mut` and `imm` are followed by a colon. */
  function TypeList(s: State): (r: Res<TypeParams>)
    ensures Onward(s, r.s) && (r.Done? ==> Left(r.s) < Left(s))
    decreases Left(s), 11
  {
    hide Reaches, Good, Left, TypeAt;
    var p := Prefix(s);
    var (_, s1) :- if p.1 != s then Consume(p.1, Colon) else Done("", s);
    var (t, s2) :- TypeAt(s1);
    if KindAt(s2) == Comma then
      PastOnward(s2);
      var (rest, s3) :- TypeList(Past(s2));
      Done(ConsParam(p.0, t, rest), s3)
    else Done(ConsParam(p.0, t, NoParams), s2)
  }

  // Expressions

  predicate StructKnown(s: State, name: string) {
    HasStruct(StackOf(s), name)
  }

  predicate EnumKnown(s: State, name: string) {
    HasEnum(StackOf(s), name)
  }

  function ExprAt(s: State): (r: Res<Tree>)
    ensures Onward(s, r.s) && (r.Done? ==> Left(r.s) < Left(s))
    decreases Left(s), 40
  {
    hide Reaches, Good, Left, LevelAt;
    var (left, s1) :- LevelAt(1, s);
    if KindAt(s1) == Equal then
      PastOnward(s1);
      var (right, s2) :- ExprAt(Past(s1));
      Done(AssignTo(left, right), s2)
    else Done(left, s1)
  }

  /** Levels 1 to 10; level 11 is a unary expression. */
  function LevelAt(level: nat, s: State): (r: Res<Tree>)
    requires 1 <= level <= 11
    ensures Onward(s, r.s) && (r.Done? ==> Left(r.s) < Left(s))
    decreases Left(s), 39 - level
  {
    hide Reaches, Good, Left, UnaryAt, RestAt;
    if level == 11 then UnaryAt(s)
    else
      var (left, s1) :- LevelAt(level + 1, s);
      RestAt(level, left, s1)
  }

  /** The tail of a left-associative chain at one level. */
  function RestAt(level: nat, left: Tree, s: State): (r: Res<Tree>)
    requires 1 <= level <= 10
    ensures Onward(s, r.s)
    decreases Left(s), 10
  {
    hide Reaches, Good, Left, LevelAt;
    var op := OpAtLevel(KindAt(s), level);
    if op.None? then Done(left, s)
    else
      PastOnward(s);
      var (right, s1) :- LevelAt(level + 1, Past(s));
      RestAt(level, Binary(op.value, left, right), s1)
  }

  function SimpleUnary(k: Kind): Option<UnaryOp> {
    if k == Star then Some(Dereference)
    else if k == Bang then Some(NotOp)
    else if k == Minus then Some(NegateOp)
    else None
  }

  /** The operator a unary expression starts with, and the state after it. */
  function UnaryOpAt(s: State): (r: Option<(UnaryOp, State)>)
    ensures r.Some? ==> Onward(s, r.value.1) && Left(r.value.1) < Left(s)
  {
    hide Reaches, Good, Left;
    var op := SimpleUnary(KindAt(s));
    if KindAt(s) == Ampersand then
      PastOnward(s);
      var p := Prefix(Past(s));
      Some((if p.0 then AddressOfMut else AddressOf, p.1))
    else if op.Some? then PastOnward(s); Some((op.value, Past(s)))
    else None
  }

  function UnaryAt(s: State): (r: Res<Tree>)
    ensures Onward(s, r.s) && (r.Done? ==> Left(r.s) < Left(s))
    decreases Left(s), 20
  {
    hide Reaches, Good, Left, UnaryOpAt, PostfixAt;
    var op := UnaryOpAt(s);
    if op.None? then PostfixAt(s)
    else
      var (operand, s1) :- UnaryAt(op.value.1);
      Done(Unary(op.value.0, operand), s1)
  }

  function PostfixAt(s: State): (r: Res<Tree>)
    ensures Onward(s, r.s) && (r.Done? ==> Left(r.s) < Left(s))
    decreases Left(s), 19
  {
    hide Reaches, Good, Left, PrimaryAt, SuffixesAt;
    var (base, s1) :- PrimaryAt(s);
    SuffixesAt(base, s1)
  }

  predicate StartsSuffix(k: Kind) {
    k == LBrack || k == LParen || k == Dot
  }

  function SuffixesAt(base: Tree, s: State): (r: Res<Tree>)
    ensures Onward(s, r.s)
    decreases Left(s), 10
  {
    hide Reaches, Good, Left, SuffixAt;
    if !StartsSuffix(KindAt(s)) then Done(base, s)
    else
      var (more, s1) :- SuffixAt(base, s);
      SuffixesAt(more, s1)
  }

  /** One index, call or field suffix. */
  function SuffixAt(base: Tree, s: State): (r: Res<Tree>)
    requires StartsSuffix(KindAt(s))
    ensures Onward(s, r.s) && (r.Done? ==> Left(r.s) < Left(s))
    decreases Left(s), 9
  {
    hide Reaches, Good, Left, ExprAt, ArgsAt;
    PastOnward(s);
    if KindAt(s) == LBrack then
      var (index, s1) :- ExprAt(Past(s));
      var (_, s2) :- Consume(s1, RBrack);
      Done(Index(base, index), s2)
    else if KindAt(s) == LParen then
      var (args, s1) :- ArgsAt(Past(s));
      var (_, s2) :- Consume(s1, RParen);
      Done(Invoke(base, args), s2)
    else
      var (name, s1) :- Consume(Past(s), Identifier);
      Done(FieldOf(base, name), s1)
  }

  function ArgsAt(s: State): (r: Res<Trees>)
    ensures Onward(s, r.s)
    decreases Left(s), 46
  {
    hide Reaches, Good, Left, ExprsAt;
    if KindAt(s) == RParen then Done(NoTrees, s) else ExprsAt(s)
  }

  /** At least one expression, then one more for each comma. */
  function ExprsAt(s: State): (r: Res<Trees>)
    ensures Onward(s, r.s) && (r.Done? ==> Left(r.s) < Left(s))
    decreases Left(s), 45
  {
    hide Reaches, Good, Left, ExprAt;
    var (e, s1) :- ExprAt(s);
    if KindAt(s1) == Comma then
      PastOnward(s1);
      var (rest, s2) :- ExprsAt(Past(s1));
      Done(ConsTree(e, rest), s2)
    else Done(ConsTree(e, NoTrees), s1)
  }

  function PrimaryAt(s: State): (r: Res<Tree>)
    ensures Onward(s, r.s) && (r.Done? ==> Left(r.s) < Left(s))
    decreases Left(s), 18
  {
    hide Reaches, Good, Left, NameAt, ExprAt, NewAt, CastAt, SizeofAt;
    var k := KindAt(s);
    if IsLiteral(k) then PastOnward(s); Done(Literal(s.tokens[s.pos]), Past(s))
    else if k == Identifier then NameAt(s)
    else if k == LParen then
      PastOnward(s);
      var (inner, s1) :- ExprAt(Past(s));
      var (_, s2) :- Consume(s1, RParen);
      Done(Group(inner), s2)
    else if k == KwNew then NewAt(s)
    else if k == KwCast then CastAt(s)
    else if k == KwSizeof then SizeofAt(s)
    else Panic(s)
  }

  /** A variable, or the start of an enum or struct literal. */
  function NameAt(s: State): (r: Res<Tree>)
    requires KindAt(s) == Identifier
    ensures Onward(s, r.s) && (r.Done? ==> Left(r.s) < Left(s))
    decreases Left(s), 17
  {
    hide Reaches, Good, Left, EnumLitAt, StructLitAt, EnumKnown, StructKnown;
    if NextIs(s, ColonColon) && EnumKnown(s, TextAt(s)) then EnumLitAt(s)
    else if StructKnown(s, TextAt(s)) then StructLitAt(s)
    else PastOnward(s); Done(Ident(TextAt(s)), Past(s))
  }

  /** Field names with their values. */
  datatype Inits = Inits(names: seq<string>, values: Trees)

  /** `Name = Expr, ...` up to and with the closing brace. */
  function InitsAt(s: State): (r: Res<Inits>)
    ensures Onward(s, r.s)
    decreases Left(s), 44
  {
    hide Reaches, Good, Left, InitListAt;
    var (inits, s1) :- if KindAt(s) == RBrace then Done(Inits([], NoTrees), s) else InitListAt(s);
    var (_, s2) :- Consume(s1, RBrace);
    Done(inits, s2)
  }

  function InitListAt(s: State): (r: Res<Inits>)
    ensures Onward(s, r.s)
    decreases Left(s), 43
  {
    hide Reaches, Good, Left, ExprAt;
    var (name, s1) :- Consume(s, Identifier);
    var (_, s2) :- Consume(s1, Equal);
    var (value, s3) :- ExprAt(s2);
    if KindAt(s3) == Comma then
      PastOnward(s3);
      var (rest, s4) :- InitListAt(Past(s3));
      Done(Inits([name] + rest.names, ConsTree(value, rest.values)), s4)
    else Done(Inits([name], ConsTree(value, NoTrees)), s3)
  }

  function StructLitAt(s: State): (r: Res<Tree>)
    ensures Onward(s, r.s) && (r.Done? ==> Left(r.s) < Left(s))
    decreases Left(s), 16
  {
    hide Reaches, Good, Left, InitsAt;
    var (name, s1) :- Consume(s, Identifier);
    var (_, s2) :- Consume(s1, LBrace);
    var (inits, s3) :- InitsAt(s2);
    Done(StructLit(name, inits.names, inits.values), s3)
  }

  function EnumLitAt(s: State): (r: Res<Tree>)
    ensures Onward(s, r.s) && (r.Done? ==> Left(r.s) < Left(s))
    decreases Left(s), 16
  {
    hide Reaches, Good, Left, InitsAt;
    var (name, s1) :- Consume(s, Identifier);
    var (_, s2) :- Consume(s1, ColonColon);
    var (variant, s3) :- Consume(s2, Identifier);
    if KindAt(s3) != LBrace then Done(EnumLit(name, variant, [], NoTrees), s3)
    else
      PastOnward(s3);
      var (inits, s4) :- InitsAt(Past(s3));
      Done(EnumLit(name, variant, inits.names, inits.values), s4)
  }

  /** `< Type >` after `cast` or `sizeof`. */
  function AngledAt(s: State): (r: Res<TypeTree>)
    ensures Onward(s, r.s) && (r.Done? ==> Left(r.s) < Left(s))
  {
    hide Reaches, Good, Left, TypeAt;
    var (_, s1) :- Consume(s, LAngle);
    var (t, s2) :- TypeAt(s1);
    var (_, s3) :- Rangle(s2);
    Done(t, s3)
  }

  function NewAt(s: State): (r: Res<Tree>)
    requires KindAt(s) == KwNew
    ensures Onward(s, r.s) && (r.Done? ==> Left(r.s) < Left(s))
    decreases Left(s), 16
  {
    hide Reaches, Good, Left, TypeAt, NewRest;
    PastOnward(s);
    var (_, s1) :- Consume(Past(s), LAngle);
    var p := Prefix(s1);
    var (t, s2) :- TypeAt(p.1);
    var (_, s3) :- Rangle(s2);
    NewRest(p.0, t, s3)
  }

  /** A number of elements in brackets, or an initial value in parentheses. */
  function NewRest(isMut: bool, typ: TypeTree, s: State): (r: Res<Tree>)
    ensures Onward(s, r.s) && (r.Done? ==> Left(r.s) < Left(s))
    decreases Left(s), 50
  {
    hide Reaches, Good, Left, ExprAt, StructLitAt, StructKnown;
    if KindAt(s) == LBrack then
      PastOnward(s);
      var (count, s1) :- ExprAt(Past(s));
      var (_, s2) :- Consume(s1, RBrack);
      Done(NewOf(isMut, true, typ, Some(count)), s2)
    else if KindAt(s) == LParen then
      PastOnward(s);
      var s1 := Past(s);
      if KindAt(s1) == RParen then PastOnward(s1); Done(NewOf(isMut, false, typ, None), Past(s1))
      else
        var (init, s2) :- if StructKnown(s1, TextAt(s1)) then StructLitAt(s1) else ExprAt(s1);
        var (_, s3) :- Consume(s2, RParen);
        Done(NewOf(isMut, false, typ, Some(init)), s3)
    else Panic(s)
  }

  function CastAt(s: State): (r: Res<Tree>)
    requires KindAt(s) == KwCast
    ensures Onward(s, r.s) && (r.Done? ==> Left(r.s) < Left(s))
    decreases Left(s), 16
  {
    hide Reaches, Good, Left, AngledAt, ExprAt;
    PastOnward(s);
    var (t, s1) :- AngledAt(Past(s));
    var (_, s2) :- Consume(s1, LParen);
    var (e, s3) :- ExprAt(s2);
    var (_, s4) :- Consume(s3, RParen);
    Done(CastTo(t, e), s4)
  }

  function SizeofAt(s: State): (r: Res<Tree>)
    requires KindAt(s) == KwSizeof
    ensures Onward(s, r.s) && (r.Done? ==> Left(r.s) < Left(s))
  {
    hide Reaches, Good, Left, AngledAt;
    PastOnward(s);
    var (t, s1) :- AngledAt(Past(s));
    Done(SizeOf(t), s1)
  }

  // Statements

  /** Isolates a panic to this one statement. */
  function StmtAt(s: State): (r: (StmtTree, State))
    ensures Onward(s, r.1) && (KindAt(s) != EofTok ==> Left(r.1) < Left(s))
    decreases Left(s), 60
  {
    hide Reaches, Good, Left, BodyAt, Recover;
    match BodyAt(s)
    case Done(t, s1) => (t, s1)
    case Panic(s1) => (Poison, Recover(s1))
  }

  predicate StartsVar(s: State) {
    KindAt(s) == KwMut || KindAt(s) == KwImm || (KindAt(s) == Identifier && (NextIs(s, Colon) || NextIs(s, Walrus)))
  }

  function BodyAt(s: State): (r: Res<StmtTree>)
    ensures Onward(s, r.s) && (r.Done? ==> Left(r.s) < Left(s))
    decreases Left(s), 59
  {
    hide Reaches, Good, Left, VarAt, IfAt, ForAt, WhileAt, SwitchAt, BlockAt, AsmAt, SimpleAt, StartsVar;
    var k := KindAt(s);
    if StartsVar(s) then VarAt(s)
    else if k == KwIf then IfAt(s)
    else if k == KwFor then ForAt(s)
    else if k == KwWhile then WhileAt(s)
    else if k == KwSwitch then SwitchAt(s)
    else if k == LBrace then
      var b := BlockAt(true, s);
      Done(BlockTree(b.0), b.1)
    else if k == KwAsm then AsmAt(s)
    else SimpleAt(s)
  }

  /** Statements without statements inside. */
  function SimpleAt(s: State): (r: Res<StmtTree>)
    ensures Onward(s, r.s) && (r.Done? ==> Left(r.s) < Left(s))
  {
    hide Reaches, Good, Left, ExprThen, ExprsThen, MaybeThen;
    var k := KindAt(s);
    if k == KwRead then
      PastOnward(s);
      var (e, s1) :- ExprThen(Past(s), Semicolon);
      Done(ReadTree(e), s1)
    else if k == KwFree then
      PastOnward(s);
      var (e, s1) :- ExprThen(Past(s), Semicolon);
      Done(FreeTree(e), s1)
    else if k == KwPrint then
      PastOnward(s);
      var (es, s1) :- ExprsThen(Past(s), Semicolon);
      Done(PrintTree(es), s1)
    else if k == KwError then
      PastOnward(s);
      var (es, s1) :- ExprsThen(Past(s), Semicolon);
      Done(ErrorTree(es), s1)
    else if k == KwReturn then
      PastOnward(s);
      var (e, s1) :- MaybeThen(Past(s), Semicolon);
      Done(ReturnTree(e), s1)
    else if k == KwExit then
      PastOnward(s);
      var (e, s1) :- MaybeThen(Past(s), Semicolon);
      Done(ExitTree(e), s1)
    else if k == KwBreak then
      PastOnward(s);
      var (_, s1) :- Consume(Past(s), Semicolon);
      Done(BreakTree, s1)
    else if k == KwContinue then
      PastOnward(s);
      var (_, s1) :- Consume(Past(s), Semicolon);
      Done(ContinueTree, s1)
    else
      var (e, s1) :- ExprThen(s, Semicolon);
      Done(ExprTree(e), s1)
  }

  /** An expression and one token after it. */
  function ExprThen(s: State, k: Kind): (r: Res<Tree>)
    requires k != EofTok
    ensures Onward(s, r.s) && (r.Done? ==> Left(r.s) < Left(s))
  {
    hide Reaches, Good, Left, ExprAt;
    var (e, s1) :- ExprAt(s);
    var (_, s2) :- Consume(s1, k);
    Done(e, s2)
  }

  /** Expressions separated by commas, and one token after them. */
  function ExprsThen(s: State, k: Kind): (r: Res<Trees>)
    requires k != EofTok
    ensures Onward(s, r.s) && (r.Done? ==> Left(r.s) < Left(s))
  {
    hide Reaches, Good, Left, ExprsAt;
    var (es, s1) :- ExprsAt(s);
    var (_, s2) :- Consume(s1, k);
    Done(es, s2)
  }

  /** An expression that may be missing, and the token after it. */
  function MaybeThen(s: State, k: Kind): (r: Res<Option<Tree>>)
    requires k != EofTok
    ensures Onward(s, r.s) && (r.Done? ==> Left(r.s) < Left(s))
  {
    hide Reaches, Good, Left, ExprThen;
    if KindAt(s) == k then PastOnward(s); Done(None, Past(s))
    else
      var (e, s1) :- ExprThen(s, k);
      Done(Some(e), s1)
  }

  /** What follows the name: `: Type`, `: Type = Expr` or `:= Expr`. */
  function VarRest(s: State): (r: Res<(Option<TypeTree>, Option<Tree>)>)
    ensures Onward(s, r.s) && (r.Done? ==> Left(r.s) < Left(s))
    ensures r.Done? ==> KindAt(s) == if r.value.0.Some? then Colon else Walrus
  {
    hide Reaches, Good, Left, TypeAt, ExprAt;
    if KindAt(s) == Colon then
      PastOnward(s);
      var (t, s1) :- TypeAt(Past(s));
      if KindAt(s1) == Equal then
        PastOnward(s1);
        var (e, s2) :- ExprAt(Past(s1));
        Done((Some(t), Some(e)), s2)
      else Done((Some(t), None), s1)
    else if KindAt(s) == Walrus then
      PastOnward(s);
      var (e, s1) :- ExprAt(Past(s));
      Done((None, Some(e)), s1)
    else Panic(s)
  }

  function PrintedOpt(t: Option<TypeTree>): Option<string> {
    match t case Some(u) => Some(Printed(u)) case None => None
  }

  function VarAt(s: State): (r: Res<StmtTree>)
    ensures Onward(s, r.s) && (r.Done? ==> Left(r.s) < Left(s))
  {
    hide Reaches, Good, Left, VarRest, Untyped, Typed, Inferred;
    var p := Prefix(s);
    var (name, s1) :- Consume(p.1, Identifier);
    var (rest, s2) :- VarRest(s1);
    var (_, s3) :- Consume(s2, Semicolon);
    if !Free(s3, s3.current, name) then Panic(s3)
    else
      VarOnward(p.1, s3, PrintedOpt(rest.0));
      Done(VarTree(p.0, name, rest.0, rest.1), Bind(s3, s3.current, name, VarSym(PrintedOpt(rest.0))))
  }

  /** Declaring the variable that was named at `s`. */
  lemma VarOnward(s: State, t: State, typ: Option<string>)
    requires Onward(s, t) && KindAt(s) == Identifier && KindAt(Past(s)) == if typ.Some? then Colon else Walrus
    ensures var u := Bind(t, t.current, TextAt(s), VarSym(typ)); Onward(s, u) && Left(u) == Left(t)
  {
    hide Reaches, Good, Left, Untyped;
    if typ.Some? {
      ByColon(s);
    } else {
      ByWalrus(s);
    }
    BindOnward(s, t, t.current, TextAt(s), VarSym(typ));
  }

  /** `( Expr )` after a keyword. */
  function ConditionAt(s: State, k: Kind): (r: Res<Tree>)
    requires k != EofTok
    ensures Onward(s, r.s) && (r.Done? ==> Left(r.s) < Left(s))
  {
    hide Reaches, Good, Left, ExprThen;
    var (_, s1) :- Consume(s, k);
    var (_, s2) :- Consume(s1, LParen);
    ExprThen(s2, RParen)
  }

  function IfAt(s: State): (r: Res<StmtTree>)
    ensures Onward(s, r.s) && (r.Done? ==> Left(r.s) < Left(s))
    decreases Left(s), 50
  {
    hide Reaches, Good, Left, ConditionAt, BlockAt;
    var (cond, s1) :- ConditionAt(s, KwIf);
    var yes := BlockAt(true, s1);
    if KindAt(yes.1) != KwElse then Done(IfTree(cond, yes.0, NoElse), yes.1)
    else
      PastOnward(yes.1);
      var s2 := Past(yes.1);
      if KindAt(s2) == KwIf then
        var (elif, s3) :- IfAt(s2);
        Done(IfTree(cond, yes.0, Else([elif])), s3)
      else
        var no := BlockAt(true, s2);
        Done(IfTree(cond, yes.0, Else(no.0)), no.1)
  }

  function WhileAt(s: State): (r: Res<StmtTree>)
    ensures Onward(s, r.s) && (r.Done? ==> Left(r.s) < Left(s))
    decreases Left(s), 50
  {
    hide Reaches, Good, Left, ConditionAt, BlockAt;
    var (cond, s1) :- ConditionAt(s, KwWhile);
    var body := BlockAt(true, s1);
    Done(WhileTree(cond, body.0), body.1)
  }

  function ForAt(s: State): (r: Res<StmtTree>)
    ensures Onward(s, r.s) && (r.Done? ==> Left(r.s) < Left(s))
    decreases Left(s), 50
  {
    hide Reaches, Good, Left, ForInside, Exited, Entered, Untyped;
    var (_, s1) :- Consume(s, KwFor);
    EnterLeft(s1);
    var inside := ForInside(Entered(s1));
    ExitOnward(s1, inside.s);
    match inside
    case Done(t, s2) => Done(t, Exited(s2))
    case Panic(s2) => Panic(Exited(s2))
  }

  lemma EnterLeft(s: State)
    ensures Left(Entered(s)) == Left(s) && KindAt(Entered(s)) == KindAt(s)
  {
  }

  function ForStart(s: State): (r: Res<Option<StmtTree>>)
    ensures Onward(s, r.s) && (r.Done? ==> Left(r.s) < Left(s))
  {
    hide Reaches, Good, Left, VarAt, ExprThen, StartsVar;
    if KindAt(s) == Semicolon then PastOnward(s); Done(None, Past(s))
    else if StartsVar(s) then
      var (v, s1) :- VarAt(s);
      Done(Some(v), s1)
    else
      var (e, s1) :- ExprThen(s, Semicolon);
      Done(Some(ExprTree(e)), s1)
  }

  function ForInside(s: State): (r: Res<StmtTree>)
    ensures Onward(s, r.s)
    decreases Left(s), 51
  {
    hide Reaches, Good, Left, ForStart, MaybeThen, BlockAt;
    var (_, s1) :- Consume(s, LParen);
    var (start, s2) :- ForStart(s1);
    var (test, s3) :- MaybeThen(s2, Semicolon);
    var (iter, s4) :- MaybeThen(s3, RParen);
    var body := BlockAt(true, s4);
    Done(ForTree(start, test, iter, body.0), body.1)
  }

  function SwitchAt(s: State): (r: Res<StmtTree>)
    ensures Onward(s, r.s) && (r.Done? ==> Left(r.s) < Left(s))
    decreases Left(s), 50
  {
    hide Reaches, Good, Left, ConditionAt, CasesAt;
    var (subject, s1) :- ConditionAt(s, KwSwitch);
    var (_, s2) :- Consume(s1, LBrace);
    var (cases, s3) :- CasesAt(s2);
    var (_, s4) :- Consume(s3, RBrace);
    Done(SwitchTree(subject, cases), s4)
  }

  function CasesAt(s: State): (r: Res<seq<CaseTree>>)
    ensures Onward(s, r.s)
    decreases Left(s), 50
  {
    hide Reaches, Good, Left, CaseAt;
    if KindAt(s) == RBrace then Done([], s)
    else
      var (c, s1) :- CaseAt(s);
      var (cs, s2) :- CasesAt(s1);
      Done([c] + cs, s2)
  }

  function CaseAt(s: State): (r: Res<CaseTree>)
    ensures Onward(s, r.s) && (r.Done? ==> Left(r.s) < Left(s))
    decreases Left(s), 49
  {
    hide Reaches, Good, Left, ExprThen, PatternAt, BlockAt;
    if KindAt(s) == KwCase then
      PastOnward(s);
      if KindAt(Past(s)) == Identifier && NextIs(Past(s), ColonColon) then
        var (p, s1) :- PatternAt(Past(s));
        var body := BlockAt(true, s1);
        Done(EnumCase(TextAt(Past(s)), p.0, p.1, body.0), body.1)
      else
        var (e, s1) :- ExprThen(Past(s), Colon);
        var body := BlockAt(true, s1);
        Done(ValueCase(e, body.0), body.1)
    else if KindAt(s) == KwDefault then
      PastOnward(s);
      var (_, s1) :- Consume(Past(s), Colon);
      var body := BlockAt(true, s1);
      Done(DefaultCase(body.0), body.1)
    else Panic(s)
  }

  /** `Enum :: Variant ( Payload ) :`, the parentheses only for a payload. */
  function PatternAt(s: State): (r: Res<(string, Option<string>)>)
    requires KindAt(s) == Identifier && NextIs(s, ColonColon)
    ensures Onward(s, r.s) && (r.Done? ==> Left(r.s) < Left(s))
  {
    hide Reaches, Good, Left;
    PastOnward(s);
    PastOnward(Past(s));
    var (variant, s1) :- Consume(Past(Past(s)), Identifier);
    var (payload, s2) :- if KindAt(s1) == LParen then PastOnward(s1); PayloadName(Past(s1)) else Done(None, s1);
    var (_, s3) :- Consume(s2, Colon);
    Done((variant, payload), s3)
  }

  function PayloadName(s: State): (r: Res<Option<string>>)
    ensures Onward(s, r.s) && (r.Done? ==> Left(r.s) < Left(s))
  {
    hide Reaches, Good, Left;
    var (name, s1) :- Consume(s, Identifier);
    var (_, s2) :- Consume(s1, RParen);
    Done(Some(name), s2)
  }

  /** Items read before the end or a panic. */
  datatype Part<+T> = Part(ok: bool, items: seq<T>, s: State)

  /** A block recovers from a panic inside it by itself. */
  function BlockAt(createScope: bool, s: State): (r: (seq<StmtTree>, State))
    ensures Onward(s, r.1) && (KindAt(s) == LBrace ==> Left(r.1) < Left(s))
    decreases Left(s), 58
  {
    hide Reaches, Good, Left, InsideAt, Exited, Entered, Untyped, Recover;
    EnterLeft(s);
    var b := InsideAt(if createScope then Entered(s) else s);
    if createScope then
      ExitOnward(s, b.s);
      (b.items, if b.ok then Exited(b.s) else PastBrace(Recover(Exited(b.s))))
    else (b.items, if b.ok then b.s else PastBrace(Recover(b.s)))
  }

  function PastBrace(s: State): (t: State)
    ensures Onward(s, t)
  {
    hide Reaches, Good, Left;
    if KindAt(s) == RBrace then PastOnward(s); Past(s) else s
  }

  function InsideAt(s: State): (r: Part<StmtTree>)
    ensures Onward(s, r.s) && (KindAt(s) == LBrace ==> Left(r.s) < Left(s))
    decreases Left(s), 57
  {
    hide Reaches, Good, Left, StmtsAt;
    if KindAt(s) != LBrace then Part(false, [], s)
    else
      PastOnward(s);
      var b := StmtsAt(Past(s));
      if KindAt(b.1) == RBrace then PastOnward(b.1); Part(true, b.0, Past(b.1)) else Part(false, b.0, b.1)
  }

  function StmtsAt(s: State): (r: (seq<StmtTree>, State))
    ensures Onward(s, r.1)
    decreases Left(s), 61
  {
    hide Reaches, Good, Left, StmtAt;
    if KindAt(s) == EofTok || KindAt(s) == RBrace then ([], s)
    else
      var first := StmtAt(s);
      var rest := StmtsAt(first.1);
      ([first.0] + rest.0, rest.1)
  }

  function AsmAt(s: State): (r: Res<StmtTree>)
    ensures Onward(s, r.s) && (r.Done? ==> Left(r.s) < Left(s))
  {
    hide Reaches, Good, Left, AsmTokens;
    var (_, s1) :- Consume(s, KwAsm);
    var (_, s2) :- Consume(s1, LBrace);
    var body := AsmTokens(s2, 1);
    var (_, s3) :- Consume(body.1, RBrace);
    var (_, s4) :- Consume(s3, Semicolon);
    Done(AsmTree(body.0), s4)
  }

  /** Everything up to the brace that closes the block, or to the end of the file. */
  function AsmTokens(s: State, braces: nat): (r: (seq<Token>, State))
    requires braces > 0
    ensures Onward(s, r.1) && (KindAt(r.1) == RBrace || KindAt(r.1) == EofTok)
    decreases Left(s)
  {
    hide Reaches, Good, Left;
    var k := KindAt(s);
    if k == EofTok || (k == RBrace && braces == 1) then ([], s)
    else
      PastOnward(s);
      var rest := AsmTokens(Past(s), if k == LBrace then braces + 1 else if k == RBrace then braces - 1 else braces);
      ([s.tokens[s.pos]] + rest.0, rest.1)
  }

  // Declarations

  /** Fields, parameters and return variables: `Name : Type`, declared in the current scope. */
  function FieldAt(s: State): (r: Res<FieldTree>)
    ensures Onward(s, r.s) && (r.Done? ==> Left(r.s) < Left(s))
  {
    hide Reaches, Good, Left, TypeAt, Untyped;
    var (name, s1) :- Consume(s, Identifier);
    var (_, s2) :- Consume(s1, Colon);
    var (t, s3) :- TypeAt(s2);
    if !Free(s3, s3.current, name) then Panic(s3)
    else
      VarOnward(s, s3, Some(Printed(t)));
      Done(FieldTree(name, t), Bind(s3, s3.current, name, VarSym(Some(Printed(t)))))
  }

  function FieldList(s: State): (r: Part<FieldTree>)
    ensures Onward(s, r.s)
    decreases Left(s)
  {
    hide Reaches, Good, Left, FieldAt;
    match FieldAt(s)
    case Panic(s1) => Part(false, [], s1)
    case Done(f, s1) =>
      if KindAt(s1) != Comma then Part(true, [f], s1)
      else
        PastOnward(s1);
        var rest := FieldList(Past(s1));
        Part(rest.ok, [f] + rest.items, rest.s)
  }

  /** `{ Field, ... }` */
  function FieldsAt(s: State): (r: Part<FieldTree>)
    ensures Onward(s, r.s)
  {
    hide Reaches, Good, Left, FieldList;
    if KindAt(s) != LBrace then Part(false, [], s)
    else
      PastOnward(s);
      var s1 := Past(s);
      var fs := if KindAt(s1) == RBrace then Part(true, [], s1) else FieldList(s1);
      if fs.ok && KindAt(fs.s) == RBrace then PastOnward(fs.s); fs.(s := Past(fs.s)) else fs.(ok := false)
  }

  /** Fields in their own scope. */
  function ScopedFields(s: State): (r: Part<FieldTree>)
    ensures Onward(s, r.s)
  {
    hide Reaches, Good, Left, FieldsAt, Entered, Exited, Untyped;
    var fs := FieldsAt(Entered(s));
    ExitOnward(s, fs.s);
    fs.(s := Exited(fs.s))
  }

  /** What a declaration comes to; after `Crash` nothing is defined. */
  datatype DeclRes = Made(tree: DeclTree, s: State) | Failed(s: State) | Crash

  function NamedAfter(s: State, k: Kind): (r: Res<string>)
    requires k != EofTok
    ensures Onward(s, r.s) && (r.Done? ==> Left(r.s) < Left(s))
    ensures r.Done? ==> KindAt(s) == k && KindAt(Past(s)) == Identifier && r == Done(TextAt(Past(s)), Past(Past(s)))
  {
    hide Reaches, Good, Left;
    var (_, s1) :- Consume(s, k);
    Consume(s1, Identifier)
  }

  function StructAt(s: State): (r: DeclRes)
    ensures !r.Crash? ==> Onward(s, r.s)
    ensures r.Made? ==> Left(r.s) < Left(s)
  {
    hide Reaches, Good, Left, StructBody, NamedAfter;
    match NamedAfter(s, KwStruct)
    case Panic(s1) => Failed(s1)
    case Done(name, s1) => StructBody(name, s1)
  }

  /** After the name: a body, or a semicolon for a type to be completed later. */
  function StructBody(name: string, s: State): (r: DeclRes)
    ensures !r.Crash? ==> Onward(s, r.s)
  {
    hide Reaches, Good, Left, TypeFrom, StructKnown, StructFields, BindStruct, Untyped;
    var known := TypeFrom(s, s.current, name);
    var node := StructKnown(s, name);
    var ends := KindAt(s) == Semicolon;
    BindStructOnward(s, s.current, name, false);
    var s1 := if known.None? then BindStruct(s, s.current, name, false) else s;
    if known.Some? && node && known.value.complete && !ends then Failed(s)
    else if ends then PastOnward(s1); Made(StructTree(name, []), Past(s1))
    else if known.None? && !Free(s, s.current, name) then Crash // the type is null
    else if known.Some? && !node then Crash // the node is null
    else
      var fs := StructFields(name, s1);
      Made(StructTree(name, fs.0), fs.1)
  }

  /** Completes the type and reads its fields; after a panic those read so far are kept. */
  function StructFields(name: string, s: State): (r: (seq<FieldTree>, State))
    ensures Onward(s, r.1)
  {
    hide Reaches, Good, Left, ScopedFields, Recover, Complete, Untyped;
    CompleteOnward(s, name);
    var fs := ScopedFields(Complete(s, name));
    (fs.items, if fs.ok then fs.s else PastBrace(Recover(fs.s)))
  }

  function EnumAt(s: State): (r: Res<DeclTree>)
    ensures Onward(s, r.s) && (r.Done? ==> Left(r.s) < Left(s))
  {
    hide Reaches, Good, Left, NamedAfter, VariantsAt, Entered, Exited, Untyped, Enumerated, Bind, AddEnum;
    var (name, s1) :- NamedAfter(s, KwEnum);
    if !Free(s1, s1.current, name) then Panic(s1)
    else
      ByEnum(s);
      BindOnward(s, s1, s1.current, name, TypeSym("enum " + name, true));
      var s2 := Bind(s1, s1.current, name, TypeSym("enum " + name, true));
      if name in s1.scopes[s1.current].enums then Panic(s2)
      else
        AddEnumOnward(s2, s1.current, name);
        var s3 := AddEnum(s2, s1.current, name);
        var vs := VariantsAt(name, s1.current, Entered(s3));
        ExitOnward(s3, vs.s);
        match vs
        case Done(variants, s4) => Done(EnumTree(name, variants), Exited(s4))
        case Panic(s4) => Panic(Exited(s4))
  }

  /** `{ Variant, ... }`; payloads are structs of the scope the enum is declared in. */
  function VariantsAt(enum: string, scope: nat, s: State): (r: Res<seq<VariantTree>>)
    ensures Onward(s, r.s)
  {
    hide Reaches, Good, Left, VariantList;
    var (_, s1) :- Consume(s, LBrace);
    var (vs, s2) :- if KindAt(s1) == RBrace then Done([], s1) else VariantList(enum, scope, s1);
    var (_, s3) :- Consume(s2, RBrace);
    Done(vs, s3)
  }

  function VariantList(enum: string, scope: nat, s: State): (r: Res<seq<VariantTree>>)
    ensures Onward(s, r.s)
    decreases Left(s)
  {
    hide Reaches, Good, Left, VariantAt;
    var (v, s1) :- VariantAt(enum, scope, s);
    if KindAt(s1) == Comma then
      PastOnward(s1);
      var (vs, s2) :- VariantList(enum, scope, Past(s1));
      Done([v] + vs, s2)
    else Done([v], s1)
  }

  function TagAt(s: State): (r: Res<Option<string>>)
    ensures Onward(s, r.s)
  {
    hide Reaches, Good, Left;
    if KindAt(s) != Equal then Done(None, s)
    else
      PastOnward(s);
      var (tag, s1) :- Consume(Past(s), IntLiteral);
      Done(Some(tag), s1)
  }

  function VariantAt(enum: string, scope: nat, s: State): (r: Res<VariantTree>)
    ensures Onward(s, r.s) && (r.Done? ==> Left(r.s) < Left(s))
  {
    hide Reaches, Good, Left, TagAt, ScopedFields, BindStruct, Untyped;
    var (name, s1) :- Consume(s, Identifier);
    var (tag, s2) :- TagAt(s1);
    if KindAt(s2) != LBrace then Done(VariantTree(name, tag, None), s2)
    else
      var fs := ScopedFields(s2);
      if !fs.ok then Panic(fs.s)
      else
        BindStructOnward(fs.s, scope, enum + "::" + name, true);
        Done(VariantTree(name, tag, Some(fs.items)), BindStruct(fs.s, scope, enum + "::" + name, true))
  }

  function ParamAt(s: State): (r: Res<ParamTree>)
    ensures Onward(s, r.s) && (r.Done? ==> Left(r.s) < Left(s))
  {
    hide Reaches, Good, Left, FieldAt;
    var p := Prefix(s);
    var (f, s1) :- FieldAt(p.1);
    Done(ParamTree(p.0, f.name, f.typ), s1)
  }

  function ParamList(s: State): (r: Res<seq<ParamTree>>)
    ensures Onward(s, r.s)
    decreases Left(s)
  {
    hide Reaches, Good, Left, ParamAt;
    var (p, s1) :- ParamAt(s);
    if KindAt(s1) == Comma then
      PastOnward(s1);
      var (ps, s2) :- ParamList(Past(s1));
      Done([p] + ps, s2)
    else Done([p], s1)
  }

  /** `returns ( Name : Type )`; the variable is declared after the parenthesis. */
  function ReturnAt(s: State): (r: Res<FieldTree>)
    ensures Onward(s, r.s) && (r.Done? ==> Left(r.s) < Left(s))
  {
    hide Reaches, Good, Left, TypeAt, Untyped;
    var (_, s1) :- Consume(s, KwReturns);
    var (_, s2) :- Consume(s1, LParen);
    var (name, s3) :- Consume(s2, Identifier);
    var (_, s4) :- Consume(s3, Colon);
    var (t, s5) :- TypeAt(s4);
    var (_, s6) :- Consume(s5, RParen);
    if !Free(s6, s6.current, name) then Panic(s6)
    else
      VarOnward(s2, s6, Some(Printed(t)));
      Done(FieldTree(name, t), Bind(s6, s6.current, name, VarSym(Some(Printed(t)))))
  }

  function SignatureAt(s: State): (r: Res<Signature>)
    ensures Onward(s, r.s)
  {
    hide Reaches, Good, Left, ParamList, ReturnAt;
    var (_, s1) :- Consume(s, LParen);
    var (ps, s2) :- if KindAt(s1) == RParen then Done([], s1) else ParamList(s1);
    var (_, s3) :- Consume(s2, RParen);
    if KindAt(s3) != KwReturns then Done(Signature(ps, None), s3)
    else
      var (ret, s4) :- ReturnAt(s3);
      Done(Signature(ps, Some(ret)), s4)
  }

  /** A block, which recovers by itself, or a semicolon; after `extern` only a semicolon. */
  function FuncEnd(isExtern: bool, s: State): (r: Res<Option<seq<StmtTree>>>)
    ensures Onward(s, r.s) && (r.Panic? <==> isExtern && KindAt(s) != Semicolon)
  {
    hide Reaches, Good, Left, BlockAt;
    if KindAt(s) == Semicolon then PastOnward(s); Done(None, Past(s))
    else if isExtern then Panic(s)
    else
      var b := BlockAt(false, s);
      Done(Some(b.0), b.1)
  }

  /** Parameters, return type and body, in the function's own scope. */
  function FuncInside(isExtern: bool, s: State): (r: Res<(Signature, Option<seq<StmtTree>>)>)
    ensures Onward(s, r.s)
  {
    hide Reaches, Good, Left, SignatureAt, FuncEnd;
    var (sig, s1) :- SignatureAt(s);
    var (body, s2) :- FuncEnd(isExtern, s1);
    Done((sig, body), s2)
  }

  function ShowParams(ps: seq<ParamTree>): string {
    if ps == [] then ""
    else Quantified(ps[0].isMut) + ": " + Printed(ps[0].typ) + if |ps| == 1 then "" else ", " + ShowParams(ps[1..])
  }

  /** The printed type of a function; without `returns` it returns `u0`. */
  function ShowSignature(sig: Signature): (name: string)
    ensures !Plain(name)
  {
    FunctionName(ShowParams(sig.params), if sig.ret.Some? then Printed(sig.ret.value.typ) else "u0")
  }

  /** `func Name`, perhaps after `extern`. */
  function FuncHeader(s: State): (r: Res<(bool, string)>)
    ensures Onward(s, r.s) && (r.Done? ==> Left(r.s) < Left(s))
  {
    hide Reaches, Good, Left, NamedAfter;
    var isExtern := KindAt(s) == KwExtern;
    if isExtern then PastOnward(s);
      var (name, s1) :- NamedAfter(Past(s), KwFunc);
      Done((true, name), s1)
    else
      var (name, s1) :- NamedAfter(s, KwFunc);
      Done((false, name), s1)
  }

  function FuncAt(s: State): (r: DeclRes)
    ensures !r.Crash? ==> Onward(s, r.s)
    ensures r.Made? ==> Left(r.s) < Left(s)
  {
    hide Reaches, Good, Left, FuncHeader, FuncInside, Entered, Exited, Untyped, FuncDeclared;
    match FuncHeader(s)
    case Panic(s1) => Failed(s1)
    case Done(h, s1) =>
      EnterLeft(s1);
      var inside := FuncInside(h.0, Entered(s1));
      ExitOnward(s1, inside.s);
      match inside
      case Panic(s2) => Failed(Exited(s2))
      case Done(f, s2) => HeaderNames(s, s1, h); FuncDeclared(s, h, f.0, f.1, Exited(s2))
  }

  lemma HeaderNames(s: State, s1: State, h: (bool, string))
    requires FuncHeader(s) == Done(h, s1)
    ensures Typed(s.tokens, h.1)
  {
    hide Reaches, Good, Left, Onward;
    if KindAt(s) == KwExtern {
      ByFunc(Past(s));
    } else {
      ByFunc(s);
    }
  }

  predicate GlobalVar(s: State, name: string) {
    |s.scopes| > 0 && name in s.scopes[0].symbols && s.scopes[0].symbols[name].VarSym?
  }

  /** Declares a function that has been read to its end, or compares it with an earlier declaration. */
  function FuncDeclared(s: State, h: (bool, string), sig: Signature, body: Option<seq<StmtTree>>, t: State): (r: DeclRes)
    requires Onward(s, t) && Typed(s.tokens, h.1)
    ensures !r.Crash? ==> Onward(s, r.s) && Left(r.s) <= Left(t)
  {
    hide Reaches, Good, Left, Known, Untyped, Typed, ShowSignature;
    var shown := ShowSignature(sig);
    var t1 := Known(t, 0, shown);
    var tree := FuncTree(h.0, h.1, sig, body);
    if GlobalVar(t1, h.1) then
      var typ := t1.scopes[0].symbols[h.1].typ;
      if typ.None? then Crash // the type is null
      else if typ.value == shown then Made(tree, t1) else Failed(t1)
    else
      BindOnward(s, t1, 0, h.1, VarSym(Some(shown)));
      Made(tree, Bind(t1, 0, h.1, VarSym(Some(shown))))
  }

  // Programs

  datatype TopRes = Next(tree: DeclTree, s: State) | Stopped

  function FromRes(r: Res<DeclTree>): DeclRes {
    match r
    case Done(t, s1) => Made(t, s1)
    case Panic(s1) => Failed(s1)
  }

  /** A panic in a declaration leaves a poisoned one. */
  function Recovered(s: State, r: DeclRes): (t: TopRes)
    requires KindAt(s) != EofTok && (r.Crash? || Onward(s, r.s)) && (r.Made? ==> Left(r.s) < Left(s))
    ensures t.Stopped? <==> r.Crash?
    ensures t.Next? ==> Onward(s, t.s) && Left(t.s) < Left(s)
  {
    hide Reaches, Good, Left, Recover;
    match r
    case Made(t, s1) => Next(t, s1)
    case Failed(s1) => Next(StmtDecl(Poison), Recover(s1))
    case Crash => Stopped
  }

  function DeclAt(s: State): (r: DeclRes)
    ensures !r.Crash? ==> Onward(s, r.s)
    ensures r.Made? ==> Left(r.s) < Left(s)
  {
    hide Reaches, Good, Left, StructAt, EnumAt, FuncAt, Onward;
    if KindAt(s) == KwStruct then StructAt(s) else if KindAt(s) == KwEnum then FromRes(EnumAt(s)) else FuncAt(s)
  }

  predicate StartsDecl(k: Kind) {
    k == KwStruct || k == KwEnum || k == KwFunc || k == KwExtern
  }

  function TopAt(s: State): (r: TopRes)
    requires KindAt(s) != EofTok
    ensures r.Next? ==> Onward(s, r.s) && Left(r.s) < Left(s)
  {
    hide Reaches, Good, Left, DeclAt, Recovered, StmtAt, Onward;
    if StartsDecl(KindAt(s)) then Recovered(s, DeclAt(s))
    else
      var r := StmtAt(s);
      Next(StmtDecl(r.0), r.1)
  }

  datatype Run = Finished(decls: seq<DeclTree>, s: State) | Crashed(decls: seq<DeclTree>, at: State)

  function Preceded(d: DeclTree, r: Run): Run {
    r.(decls := [d] + r.decls)
  }

  /** Where a run ends: at the end of the file, or at the declaration that crashes. */
  function End(r: Run): State {
    if r.Finished? then r.s else r.at
  }

  function ProgramAt(s: State): (r: Run)
    ensures Onward(s, End(r)) && (r.Finished? ==> KindAt(r.s) == EofTok)
    decreases Left(s)
  {
    hide Reaches, Good, Left, TopAt;
    if KindAt(s) == EofTok then Finished([], s)
    else
      var r := TopAt(s);
      if r.Stopped? then Crashed([], s) else Preceded(r.tree, ProgramAt(r.s))
  }
}
