/** The recursive-descent parser: routines that move a position, rewrite tokens, enter and leave scopes, and panic. */
module ParserModel {
  import opened Options
  import opened Tokens
  import opened Scopes
  import opened ExprSyntax
  import opened ParserState
  import opened Grammar
  import opened ParserCrashes

  /** A routine that answered `r`, none for a panic, in state `s`. */
  function With<T>(r: Option<T>, s: State): Res<T> {
    match r
    case Some(v) => Done(v, s)
    case None => Panic(s)
  }

  // Lists whose first items have been read

  function After<T>(items: seq<T>, r: Res<seq<T>>): Res<seq<T>> {
    match r
    case Done(rest, s) => Done(items + rest, s)
    case Panic(s) => Panic(s)
  }

  lemma AfterMore<T>(items: seq<T>, x: T, rest: Res<seq<T>>)
    ensures After(items, After([x], rest)) == After(items + [x], rest)
  {
    if rest.Done? {
      assert items + ([x] + rest.value) == items + [x] + rest.value;
    }
  }

  lemma AfterNone<T>(r: Res<seq<T>>)
    ensures After([], r) == r
  {
    if r.Done? {
      assert [] + r.value == r.value;
    }
  }

  class Parser {
    var tokens: seq<Token>
    var pos: nat
    const symtab: SymTab

    constructor (symtab: SymTab, tokens: seq<Token>)
      ensures this.symtab == symtab && this.tokens == tokens && pos == 0
    {
      this.symtab := symtab;
      this.tokens := tokens;
      pos := 0;
    }

    ghost function S(): State
      reads this, symtab
    {
      State(tokens, pos, symtab.scopes, symtab.current)
    }

    function Cur(): Kind
      reads this
    {
      if pos < |tokens| then tokens[pos].kind else EofTok
    }

    function CurText(): string
      reads this
    {
      if pos < |tokens| then tokens[pos].text else ""
    }

    predicate Match(k: Kind)
      reads this
    {
      Cur() == k
    }

    predicate PeekNext(k: Kind)
      reads this
    {
      pos + 1 < |tokens| && tokens[pos + 1].kind == k
    }

    // Token movement

    method Advance()
      requires Good(S())
      modifies this
      ensures Good(S()) && S() == Grammar.Advance(old(S()))
    {
      hide Reaches, Left;
      if Cur() != EofTok {
        pos := pos + 1;
      }
    }

    method Consume(k: Kind) returns (r: Option<string>)
      requires Good(S()) && k != EofTok
      modifies this
      ensures Good(S()) && With(r, S()) == Grammar.Consume(old(S()), k)
    {
      hide Reaches, Left, Good;
      if Cur() != k {
        return None;
      }
      r := Some(CurText());
      Advance();
    }

    /** `>>` counts as two `>`, and `>=` as `>` followed by `=`: the token is rewritten, not passed. */
    method ConsumeRangle() returns (r: Option<()>)
      requires Good(S())
      modifies this
      ensures Good(S()) && With(r, S()) == Rangle(old(S()))
    {
      hide Reaches, Left, Good;
      if Match(RAngle) {
        Advance();
        return Some(());
      }
      if Match(GreaterGreater) {
        HalfOnward(S(), Token(RAngle, ">"));
        tokens := tokens[pos := Token(RAngle, ">")];
        return Some(());
      }
      if Match(GreaterEqual) {
        HalfOnward(S(), Token(Equal, "="));
        tokens := tokens[pos := Token(Equal, "=")];
        return Some(());
      }
      return None;
    }

    /** Skips at least one token and then to the next synchronization point. */
    method Synchronize()
      requires Good(S())
      modifies this
      ensures Good(S()) && S() == Recover(old(S()))
    {
      hide Reaches, Left, Good;
      if Cur() != EofTok {
        Advance();
      }
      while Cur() != EofTok
        invariant Good(S()) && SkipTo(S()) == Recover(old(S()))
        decreases Left(S())
      {
        if IsSyncPoint(Cur()) {
          return;
        }
        PastOnward(S());
        Advance();
      }
    }

    method ParseMutabilityPrefix() returns (isMut: bool)
      requires Good(S())
      modifies this
      ensures Good(S()) && (isMut, S()) == Prefix(old(S()))
    {
      hide Reaches, Left, Good;
      isMut := false;
      if Match(KwMut) {
        Advance();
        isMut := true;
      } else if Match(KwImm) {
        Advance();
      }
    }

    // Scopes and symbols

    method EnterScope()
      requires Good(S())
      modifies symtab
      ensures Good(S()) && S() == Entered(old(S()))
    {
      hide Reaches;
      EnterGood(S());
      symtab.EnterScope();
    }

    /** Leaves the scope entered at `s`. */
    method ExitScope(ghost s: State)
      requires Good(S()) && Good(s) && Onward(Entered(s), S())
      modifies symtab
      ensures Good(S()) && S() == Exited(old(S()))
    {
      hide Reaches;
      ExitOnward(s, S());
      symtab.ExitScope();
    }

    method Declare(name: string, sym: Sym, scope: nat) returns (ok: bool)
      requires Good(S()) && scope < |symtab.scopes|
      modifies symtab
      ensures Good(S()) && S() == Bind(old(S()), scope, name, sym) && ok == Free(old(S()), scope, name)
    {
      ok := symtab.Declare(name, sym, scope);
    }

    /** Binds a printed type in a scope from which it is not yet known. */
    method DeclareType(name: string, scope: nat)
      requires Good(S()) && scope < |symtab.scopes| && !Plain(name)
      modifies symtab
      ensures Good(S()) && S() == Known(old(S()), scope, name)
    {
      hide Reaches, Plain;
      var t := LookupType(name, scope);
      if t.None? {
        var ok := Declare(name, TypeSym(name, true), scope);
      }
    }

    method LookupType(name: string, start: nat) returns (t: Option<Sym>)
      requires Good(S())
      ensures t == TypeFrom(S(), start, name)
      ensures start == 0 && name in PRIMITIVES ==> t.Some?
    {
      hide Reaches;
      var s := symtab.Lookup(name, start);
      if start == 0 && name in PRIMITIVES {
        assert Chain(symtab.scopes, 0)[0] == symtab.scopes[0];
      }
      t := if s.Some? && s.value.TypeSym? then s else None;
    }

    method LookupStruct(name: string) returns (found: bool)
      requires Good(S())
      ensures found == StructKnown(S(), name)
    {
      found := symtab.LookupStruct(name, symtab.current);
    }

    method LookupEnum(name: string) returns (found: bool)
      requires Good(S())
      ensures found == EnumKnown(S(), name)
    {
      found := symtab.LookupEnum(name, symtab.current);
    }

    // Types

    method ParseType() returns (r: Option<TypeTree>)
      requires Good(S())
      modifies this, symtab
      ensures Good(S()) && With(r, S()) == TypeAt(old(S()))
      decreases Left(S()), 10
    {
      hide Reaches, Left, Good, Known, PointerAt, FunctionTypeAt, TypeFrom, Plain;
      var k := Cur();
      if IsBasicType(k) {
        Advance();
        if k == TyString {
          StringIsPrinted();
          SomeScope(S());
          DeclareType(BasicName(k), 0);
        } else {
          BasicIsPrimitive(k);
          var t := LookupType(BasicName(k), 0);
          assert t.Some?; // primitives are always bound
        }
        return Some(BasicType(k));
      }
      if k == Identifier {
        var name := CurText();
        ghost var s := S();
        Advance();
        SameTypes(s, S(), symtab.current, name);
        var t := LookupType(name, symtab.current);
        TypeIsType(S(), symtab.current, name);
        return if t.Some? then Some(NamedType(name, t.value.shown)) else None;
      } else if k == KwPtr {
        r := ParsePointerType();
      } else if k == KwFunc {
        r := ParseFunctionType();
      } else {
        r := None;
      }
    }

    static lemma SomeScope(s: State)
      requires Good(s)
      ensures s.current < |s.scopes|
    {
    }

    static lemma BasicIsPrimitive(k: Kind)
      requires IsBasicType(k) && k != TyString
      ensures BasicName(k) in PRIMITIVES
    {
    }

    static lemma SameTypes(s: State, t: State, start: nat, name: string)
      requires s.scopes == t.scopes
      ensures TypeFrom(s, start, name) == TypeFrom(t, start, name)
    {
    }

    static lemma TypeIsType(s: State, start: nat, name: string)
      ensures TypeFrom(s, start, name).Some? ==> TypeFrom(s, start, name).value.TypeSym?
    {
    }

    method ParsePointerType() returns (r: Option<TypeTree>)
      requires Good(S()) && Match(KwPtr)
      modifies this, symtab
      ensures Good(S()) && With(r, S()) == PointerAt(old(S()))
      decreases Left(S()), 9
    {
      hide Reaches, Left, Good, Known, TypeAt, Plain, PointerName, Printed;
      Advance();
      var open := Consume(LAngle);
      if open.None? {
        return None;
      }
      var isMut := ParseMutabilityPrefix();
      var pointee := ParseType();
      if pointee.None? {
        return None;
      }
      var close := ConsumeRangle();
      if close.None? {
        return None;
      }
      SomeScope(S());
      DeclareType(PointerName(isMut, Printed(pointee.value)), symtab.current);
      return Some(PointerType(isMut, pointee.value));
    }

    method ParseFunctionType() returns (r: Option<TypeTree>)
      requires Good(S()) && Match(KwFunc)
      modifies this, symtab
      ensures Good(S()) && With(r, S()) == FunctionTypeAt(old(S()))
      decreases Left(S()), 9
    {
      hide Reaches, Left, Good, TypeAt, TypeList, Printed, TypeFrom;
      Advance();
      var open := Consume(LParen);
      if open.None? {
        return None;
      }
      var params := Some(NoParams);
      if !Match(RParen) {
        params := ParseTypeList();
        if params.None? {
          return None;
        }
      }
      var close := Consume(RParen);
      if close.None? {
        return None;
      }
      var arrow := Consume(Arrow);
      if arrow.None? {
        return None;
      }
      var ret := ParseType();
      if ret.None? {
        return None;
      }
      var t := FunctionType(params.value, ret.value);
      var known := LookupType(Printed(t), 0);
      return if known.Some? then Some(t) else None;
    }

    method ParseTypeList() returns (r: Option<TypeParams>)
      requires Good(S())
      modifies this, symtab
      ensures Good(S()) && With(r, S()) == TypeList(old(S()))
      decreases Left(S()), 11
    {
      hide Reaches, Left, Good, TypeAt, TypeList, Onto;
      ghost var s := S();
      var params: seq<(bool, TypeTree)> := [];
      OntoNone(TypeList(s));
      var more := true;
      while more
        invariant Good(S()) && Left(S()) <= Left(s)
        invariant more ==> TypeList(s) == Listed(params, TypeList(S()))
        invariant !more ==> TypeList(s) == Done(Onto(params, NoParams), S())
        decreases Left(S()), more
      {
        ghost var t := S();
        TypeListStep(t);
        var before := pos;
        var isMut := ParseMutabilityPrefix();
        if pos != before {
          var colon := Consume(Colon);
          if colon.None? {
            return None;
          }
        }
        var one := ParseType();
        if one.None? {
          return None;
        }
        more := Match(Comma);
        if more {
          Advance();
          OntoMore(params, (isMut, one.value), TypeList(S()));
        } else {
          OntoMore(params, (isMut, one.value), Done(NoParams, S()));
        }
        params := params + [(isMut, one.value)];
      }
      r := Some(Onto(params, NoParams));
    }

    /** Parameters read so far before the others. */
    static function Onto(acc: seq<(bool, TypeTree)>, rest: TypeParams): TypeParams {
      if acc == [] then rest else ConsParam(acc[0].0, acc[0].1, Onto(acc[1..], rest))
    }

    static function Listed(acc: seq<(bool, TypeTree)>, r: Res<TypeParams>): Res<TypeParams> {
      match r
      case Done(rest, s) => Done(Onto(acc, rest), s)
      case Panic(s) => Panic(s)
    }

    static function Before(one: (bool, TypeTree), r: Res<TypeParams>): Res<TypeParams> {
      match r
      case Done(rest, s) => Done(ConsParam(one.0, one.1, rest), s)
      case Panic(s) => Panic(s)
    }

    static lemma OntoNone(r: Res<TypeParams>)
      ensures Listed([], r) == r
    {
    }

    static lemma {:induction false} OntoOne(acc: seq<(bool, TypeTree)>, one: (bool, TypeTree), rest: TypeParams)
      ensures Onto(acc + [one], rest) == Onto(acc, ConsParam(one.0, one.1, rest))
    {
      if acc != [] {
        assert (acc + [one])[1..] == acc[1..] + [one];
        OntoOne(acc[1..], one, rest);
      } else {
        assert ([] + [one])[1..] == [];
      }
    }

    static lemma OntoMore(acc: seq<(bool, TypeTree)>, one: (bool, TypeTree), r: Res<TypeParams>)
      ensures Listed(acc + [one], r) == Listed(acc, Before(one, r))
    {
      hide Onto;
      if r.Done? {
        OntoOne(acc, one, r.value);
      }
    }

    static lemma TypeListStep(s: State)
      ensures var p := Prefix(s);
        var c := if p.1 != s then Grammar.Consume(p.1, Colon) else Done("", s);
        if c.Panic? then TypeList(s) == Panic(c.s)
        else
          var t := TypeAt(c.s);
          if t.Panic? then TypeList(s) == Panic(t.s)
          else if KindAt(t.s) != Comma then TypeList(s) == Done(ConsParam(p.0, t.value, NoParams), t.s)
          else TypeList(s) == Before((p.0, t.value), TypeList(Past(t.s)))
    {
      hide Reaches, Left, Good, TypeAt;
    }

    // Expressions

    method ParseExpression() returns (r: Option<Tree>)
      requires Good(S())
      modifies this, symtab
      ensures Good(S()) && With(r, S()) == ExprAt(old(S()))
      decreases Left(S()), 41
    {
      r := ParseAssignment();
    }

    method ParseAssignment() returns (r: Option<Tree>)
      requires Good(S())
      modifies this, symtab
      ensures Good(S()) && With(r, S()) == ExprAt(old(S()))
      decreases Left(S()), 40
    {
      hide Reaches, Left, Good, LevelAt;
      var left := ParseBinary(1);
      if left.None? {
        return None;
      }
      if Match(Equal) {
        Advance();
        var right := ParseAssignment();
        return if right.Some? then Some(AssignTo(left.value, right.value)) else None;
      }
      return left;
    }

    /** One method for the ten levels, which differ only in their operators. */
    method ParseBinary(level: nat) returns (r: Option<Tree>)
      requires Good(S()) && 1 <= level <= 11
      modifies this, symtab
      ensures Good(S()) && With(r, S()) == LevelAt(level, old(S()))
      decreases Left(S()), 39 - level
    {
      hide Reaches, Left, Good, UnaryAt, OpAtLevel;
      if level == 11 {
        r := ParseUnary();
        return;
      }
      ghost var s := S();
      r := ParseBinary(level + 1);
      if r.None? {
        return;
      }
      var expr := r.value;
      while OpAtLevel(Cur(), level).Some?
        invariant Good(S()) && Left(S()) < Left(s) && LevelAt(level, s) == RestAt(level, expr, S())
        decreases Left(S())
      {
        var op := OpAtLevel(Cur(), level).value;
        NotEof(op, level, Cur());
        Advance();
        var right := ParseBinary(level + 1);
        if right.None? {
          return None;
        }
        expr := ExprSyntax.Binary(op, expr, right.value);
      }
      r := Some(expr);
    }

    static lemma NotEof(op: BinaryOp, level: nat, k: Kind)
      requires OpAtLevel(k, level) == Some(op)
      ensures k != EofTok
    {
    }

    method ParseUnary() returns (r: Option<Tree>)
      requires Good(S())
      modifies this, symtab
      ensures Good(S()) && With(r, S()) == UnaryAt(old(S()))
      decreases Left(S()), 20
    {
      hide Reaches, Left, Good, PostfixAt;
      var op;
      if Match(Ampersand) {
        Advance();
        op := AddressOf;
        if Match(KwMut) {
          Advance();
          op := AddressOfMut;
        } else if Match(KwImm) {
          Advance();
        }
      } else {
        var simple := SimpleUnary(Cur());
        if simple.None? {
          r := ParsePostfix();
          return;
        }
        Advance();
        op := simple.value;
      }
      var operand := ParseUnary();
      return if operand.Some? then Some(Unary(op, operand.value)) else None;
    }

    method ParsePostfix() returns (r: Option<Tree>)
      requires Good(S())
      modifies this, symtab
      ensures Good(S()) && With(r, S()) == PostfixAt(old(S()))
      decreases Left(S()), 19
    {
      hide Reaches, Left, Good, PrimaryAt, SuffixAt;
      ghost var s := S();
      r := ParsePrimary();
      if r.None? {
        return;
      }
      var expr := r.value;
      while StartsSuffix(Cur())
        invariant Good(S()) && Left(S()) < Left(s) && PostfixAt(s) == SuffixesAt(expr, S())
        decreases Left(S())
      {
        r := ParseSuffix(expr);
        if r.None? {
          return;
        }
        expr := r.value;
      }
      r := Some(expr);
    }

    /** One index, call or field suffix. */
    method ParseSuffix(base: Tree) returns (r: Option<Tree>)
      requires Good(S()) && StartsSuffix(Cur())
      modifies this, symtab
      ensures Good(S()) && With(r, S()) == SuffixAt(base, old(S()))
      decreases Left(S()), 18
    {
      hide Reaches, Left, Good, ExprAt, ArgsAt;
      if Match(LBrack) {
        Advance();
        var index := ParseExpression();
        if index.None? {
          return None;
        }
        var close := Consume(RBrack);
        return if close.Some? then Some(Index(base, index.value)) else None;
      } else if Match(LParen) {
        Advance();
        var args := ParseArgs();
        if args.None? {
          return None;
        }
        var close := Consume(RParen);
        return if close.Some? then Some(Invoke(base, args.value)) else None;
      } else {
        Advance();
        var name := Consume(Identifier);
        return if name.Some? then Some(FieldOf(base, name.value)) else None;
      }
    }

    method ParseArgs() returns (r: Option<Trees>)
      requires Good(S())
      modifies this, symtab
      ensures Good(S()) && With(r, S()) == ArgsAt(old(S()))
      decreases Left(S()), 46
    {
      hide Reaches, Left, Good, ExprsAt;
      if Match(RParen) {
        return Some(NoTrees);
      }
      r := ParseExprs();
    }

    /** At least one expression, then one more for each comma. */
    method ParseExprs() returns (r: Option<Trees>)
      requires Good(S())
      modifies this, symtab
      ensures Good(S()) && With(r, S()) == ExprsAt(old(S()))
      decreases Left(S()), 45
    {
      hide Reaches, Left, Good, ExprAt;
      var e := ParseExpression();
      if e.None? {
        return None;
      }
      if Match(Comma) {
        Advance();
        var rest := ParseExprs();
        return if rest.Some? then Some(ConsTree(e.value, rest.value)) else None;
      }
      return Some(ConsTree(e.value, NoTrees));
    }

    method ParsePrimary() returns (r: Option<Tree>)
      requires Good(S())
      modifies this, symtab
      ensures Good(S()) && With(r, S()) == PrimaryAt(old(S()))
      decreases Left(S()), 18
    {
      hide Reaches, Left, Good, ExprAt, NameAt, NewAt, CastAt, SizeofAt;
      var k := Cur();
      if IsLiteral(k) {
        var tok := tokens[pos];
        Advance();
        return Some(Literal(tok));
      } else if k == Identifier {
        r := ParseName();
      } else if k == LParen {
        Advance();
        var inner := ParseExpression();
        if inner.None? {
          return None;
        }
        var close := Consume(RParen);
        return if close.Some? then Some(Group(inner.value)) else None;
      } else if k == KwNew {
        r := ParseNew();
      } else if k == KwCast {
        r := ParseCast();
      } else if k == KwSizeof {
        r := ParseSizeof();
      } else {
        r := None;
      }
    }

    /** A variable, or the start of an enum or struct literal. */
    method ParseName() returns (r: Option<Tree>)
      requires Good(S()) && Match(Identifier)
      modifies this, symtab
      ensures Good(S()) && With(r, S()) == NameAt(old(S()))
      decreases Left(S()), 17
    {
      hide Reaches, Left, Good, EnumLitAt, StructLitAt, StructKnown, EnumKnown;
      var name := CurText();
      if PeekNext(ColonColon) {
        var isEnum := LookupEnum(name);
        if isEnum {
          r := ParseEnumLiteral();
          return;
        }
      }
      var isStruct := LookupStruct(name);
      if isStruct {
        r := ParseStructLiteral();
        return;
      }
      Advance();
      return Some(Ident(name));
    }

    /** `Name = Expr, ...` up to and with the closing brace. */
    method ParseInitializers() returns (r: Option<Inits>)
      requires Good(S())
      modifies this, symtab
      ensures Good(S()) && With(r, S()) == InitsAt(old(S()))
      decreases Left(S()), 44
    {
      hide Reaches, Left, Good, InitListAt;
      r := Some(Inits([], NoTrees));
      if !Match(RBrace) {
        r := ParseInitList();
        if r.None? {
          return;
        }
      }
      var close := Consume(RBrace);
      if close.None? {
        r := None;
      }
    }

    method ParseInitList() returns (r: Option<Inits>)
      requires Good(S())
      modifies this, symtab
      ensures Good(S()) && With(r, S()) == InitListAt(old(S()))
      decreases Left(S()), 43
    {
      hide Reaches, Left, Good, ExprAt;
      var name := Consume(Identifier);
      if name.None? {
        return None;
      }
      var equal := Consume(Equal);
      if equal.None? {
        return None;
      }
      var value := ParseExpression();
      if value.None? {
        return None;
      }
      if Match(Comma) {
        Advance();
        var rest := ParseInitList();
        return if rest.Some? then Some(Inits([name.value] + rest.value.names, ConsTree(value.value, rest.value.values))) else None;
      }
      return Some(Inits([name.value], ConsTree(value.value, NoTrees)));
    }

    method ParseStructLiteral() returns (r: Option<Tree>)
      requires Good(S())
      modifies this, symtab
      ensures Good(S()) && With(r, S()) == StructLitAt(old(S()))
      decreases Left(S()), 16
    {
      hide Reaches, Left, Good, InitsAt;
      var name := Consume(Identifier);
      if name.None? {
        return None;
      }
      var open := Consume(LBrace);
      if open.None? {
        return None;
      }
      var inits := ParseInitializers();
      return if inits.Some? then Some(StructLit(name.value, inits.value.names, inits.value.values)) else None;
    }

    method ParseEnumLiteral() returns (r: Option<Tree>)
      requires Good(S())
      modifies this, symtab
      ensures Good(S()) && With(r, S()) == EnumLitAt(old(S()))
      decreases Left(S()), 16
    {
      hide Reaches, Left, Good, InitsAt;
      var name := Consume(Identifier);
      if name.None? {
        return None;
      }
      var colons := Consume(ColonColon);
      if colons.None? {
        return None;
      }
      var variant := Consume(Identifier);
      if variant.None? {
        return None;
      }
      if !Match(LBrace) {
        return Some(EnumLit(name.value, variant.value, [], NoTrees));
      }
      Advance();
      var inits := ParseInitializers();
      return if inits.Some? then Some(EnumLit(name.value, variant.value, inits.value.names, inits.value.values)) else None;
    }

    /** `< Type >` after `cast` or `sizeof`. */
    method ParseAngledType() returns (r: Option<TypeTree>)
      requires Good(S())
      modifies this, symtab
      ensures Good(S()) && With(r, S()) == AngledAt(old(S()))
    {
      hide Reaches, Left, Good, TypeAt;
      var open := Consume(LAngle);
      if open.None? {
        return None;
      }
      r := ParseType();
      if r.None? {
        return;
      }
      var close := ConsumeRangle();
      if close.None? {
        r := None;
      }
    }

    method ParseNew() returns (r: Option<Tree>)
      requires Good(S()) && Match(KwNew)
      modifies this, symtab
      ensures Good(S()) && With(r, S()) == NewAt(old(S()))
      decreases Left(S()), 16
    {
      hide Reaches, Left, Good, TypeAt, NewRest;
      Advance();
      var open := Consume(LAngle);
      if open.None? {
        return None;
      }
      var isMut := ParseMutabilityPrefix();
      var t := ParseType();
      if t.None? {
        return None;
      }
      var close := ConsumeRangle();
      if close.None? {
        return None;
      }
      r := ParseNewRest(isMut, t.value);
    }

    /** A number of elements in brackets, or an initial value in parentheses. */
    method ParseNewRest(isMut: bool, typ: TypeTree) returns (r: Option<Tree>)
      requires Good(S())
      modifies this, symtab
      ensures Good(S()) && With(r, S()) == NewRest(isMut, typ, old(S()))
      decreases Left(S()), 50
    {
      hide Reaches, Left, Good, ExprAt, StructLitAt, StructKnown;
      if Match(LBrack) {
        Advance();
        var count := ParseExpression();
        if count.None? {
          return None;
        }
        var end := Consume(RBrack);
        return if end.Some? then Some(NewOf(isMut, true, typ, count)) else None;
      } else if Match(LParen) {
        Advance();
        var init := None;
        if !Match(RParen) {
          var isStruct := LookupStruct(CurText());
          if isStruct {
            init := ParseStructLiteral();
          } else {
            init := ParseExpression();
          }
          if init.None? {
            return None;
          }
        }
        var end := Consume(RParen);
        return if end.Some? then Some(NewOf(isMut, false, typ, init)) else None;
      }
      return None;
    }

    method ParseCast() returns (r: Option<Tree>)
      requires Good(S()) && Match(KwCast)
      modifies this, symtab
      ensures Good(S()) && With(r, S()) == CastAt(old(S()))
      decreases Left(S()), 16
    {
      hide Reaches, Left, Good, AngledAt, ExprAt;
      Advance();
      var t := ParseAngledType();
      if t.None? {
        return None;
      }
      var open := Consume(LParen);
      if open.None? {
        return None;
      }
      var e := ParseExpression();
      if e.None? {
        return None;
      }
      var close := Consume(RParen);
      return if close.Some? then Some(CastTo(t.value, e.value)) else None;
    }

    method ParseSizeof() returns (r: Option<Tree>)
      requires Good(S()) && Match(KwSizeof)
      modifies this, symtab
      ensures Good(S()) && With(r, S()) == SizeofAt(old(S()))
    {
      hide Reaches, Left, Good, AngledAt;
      Advance();
      var t := ParseAngledType();
      return if t.Some? then Some(SizeOf(t.value)) else None;
    }

    // Statements

    /** Isolates a panic to this one statement. */
    method ParseStatement() returns (t: StmtTree)
      requires Good(S())
      modifies this, symtab
      ensures Good(S()) && (t, S()) == StmtAt(old(S()))
      decreases Left(S()), 60
    {
      hide Reaches, Left, Good, BodyAt, Recover;
      var r := ParseStatementBody();
      if r.Some? {
        return r.value;
      }
      Synchronize();
      return Poison;
    }

    predicate IsNextVarDecl()
      reads this
    {
      Match(KwMut) || Match(KwImm) || (Match(Identifier) && (PeekNext(Colon) || PeekNext(Walrus)))
    }

    method ParseStatementBody() returns (r: Option<StmtTree>)
      requires Good(S())
      modifies this, symtab
      ensures Good(S()) && With(r, S()) == BodyAt(old(S()))
      decreases Left(S()), 59
    {
      hide Reaches, Left, Good, VarAt, IfAt, ForAt, WhileAt, SwitchAt, BlockAt, AsmAt, SimpleAt;
      var k := Cur();
      if IsNextVarDecl() {
        r := ParseVarDecl();
      } else if k == KwIf {
        r := ParseIf();
      } else if k == KwFor {
        r := ParseFor();
      } else if k == KwWhile {
        r := ParseWhile();
      } else if k == KwSwitch {
        r := ParseSwitch();
      } else if k == LBrace {
        var body := ParseBlock(true);
        r := Some(BlockTree(body));
      } else if k == KwAsm {
        r := ParseAsm();
      } else {
        r := ParseSimple();
      }
    }

    /** Statements without statements inside. */
    method ParseSimple() returns (r: Option<StmtTree>)
      requires Good(S())
      modifies this, symtab
      ensures Good(S()) && With(r, S()) == SimpleAt(old(S()))
    {
      hide Reaches, Left, Good, ExprThen, ExprsThen, MaybeThen;
      var k := Cur();
      if k == KwRead || k == KwFree {
        Advance();
        var e := ParseExprThen(Semicolon);
        return if e.None? then None else Some(if k == KwRead then ReadTree(e.value) else FreeTree(e.value));
      } else if k == KwPrint || k == KwError {
        Advance();
        var es := ParseExprsThen(Semicolon);
        return if es.None? then None else Some(if k == KwPrint then PrintTree(es.value) else ErrorTree(es.value));
      } else if k == KwReturn || k == KwExit {
        Advance();
        var e := ParseMaybeThen(Semicolon);
        return if e.None? then None else Some(if k == KwReturn then ReturnTree(e.value) else ExitTree(e.value));
      } else if k == KwBreak || k == KwContinue {
        Advance();
        var end := Consume(Semicolon);
        return if end.None? then None else Some(if k == KwBreak then BreakTree else ContinueTree);
      }
      var e := ParseExprThen(Semicolon);
      return if e.None? then None else Some(ExprTree(e.value));
    }

    /** An expression and one token after it. */
    method ParseExprThen(k: Kind) returns (r: Option<Tree>)
      requires Good(S()) && k != EofTok
      modifies this, symtab
      ensures Good(S()) && With(r, S()) == ExprThen(old(S()), k)
    {
      hide Reaches, Left, Good, ExprAt;
      r := ParseExpression();
      if r.Some? {
        var end := Consume(k);
        if end.None? {
          r := None;
        }
      }
    }

    method ParseExprsThen(k: Kind) returns (r: Option<Trees>)
      requires Good(S()) && k != EofTok
      modifies this, symtab
      ensures Good(S()) && With(r, S()) == ExprsThen(old(S()), k)
    {
      hide Reaches, Left, Good, ExprsAt;
      r := ParseExprs();
      if r.Some? {
        var end := Consume(k);
        if end.None? {
          r := None;
        }
      }
    }

    /** An expression that may be missing, and the token after it. */
    method ParseMaybeThen(k: Kind) returns (r: Option<Option<Tree>>)
      requires Good(S()) && k != EofTok
      modifies this, symtab
      ensures Good(S()) && With(r, S()) == MaybeThen(old(S()), k)
    {
      hide Reaches, Left, Good, ExprThen;
      if Match(k) {
        Advance();
        return Some(None);
      }
      var e := ParseExprThen(k);
      return if e.None? then None else Some(e);
    }

    method ParseVarDecl() returns (r: Option<StmtTree>)
      requires Good(S())
      modifies this, symtab
      ensures Good(S()) && With(r, S()) == VarAt(old(S()))
    {
      hide Reaches, Left, Good, VarRest;
      var isMut := ParseMutabilityPrefix();
      var name := Consume(Identifier);
      if name.None? {
        return None;
      }
      var rest := ParseVarRest();
      if rest.None? {
        return None;
      }
      var end := Consume(Semicolon);
      if end.None? {
        return None;
      }
      SomeScope(S());
      var ok := Declare(name.value, VarSym(PrintedOpt(rest.value.0)), symtab.current);
      return if ok then Some(VarTree(isMut, name.value, rest.value.0, rest.value.1)) else None;
    }

    /** `: Type`, `: Type = Expr` or `:= Expr`. */
    method ParseVarRest() returns (r: Option<(Option<TypeTree>, Option<Tree>)>)
      requires Good(S())
      modifies this, symtab
      ensures Good(S()) && With(r, S()) == VarRest(old(S()))
    {
      hide Reaches, Left, Good, TypeAt, ExprAt;
      if Match(Colon) {
        Advance();
        var t := ParseType();
        if t.None? {
          return None;
        }
        if !Match(Equal) {
          return Some((t, None));
        }
        Advance();
        var e := ParseExpression();
        return if e.None? then None else Some((t, e));
      } else if Match(Walrus) {
        Advance();
        var e := ParseExpression();
        return if e.None? then None else Some((None, e));
      }
      return None;
    }

    /** `( Expr )` after a keyword. */
    method ParseCondition(k: Kind) returns (r: Option<Tree>)
      requires Good(S()) && k != EofTok
      modifies this, symtab
      ensures Good(S()) && With(r, S()) == ConditionAt(old(S()), k)
    {
      hide Reaches, Left, Good, ExprThen;
      var keyword := Consume(k);
      if keyword.None? {
        return None;
      }
      var open := Consume(LParen);
      if open.None? {
        return None;
      }
      r := ParseExprThen(RParen);
    }

    method ParseIf() returns (r: Option<StmtTree>)
      requires Good(S())
      modifies this, symtab
      ensures Good(S()) && With(r, S()) == IfAt(old(S()))
      decreases Left(S()), 50
    {
      hide Reaches, Left, Good, ConditionAt, BlockAt;
      var cond := ParseCondition(KwIf);
      if cond.None? {
        return None;
      }
      var yes := ParseBlock(true);
      if !Match(KwElse) {
        return Some(IfTree(cond.value, yes, NoElse));
      }
      Advance();
      if Match(KwIf) {
        var elif := ParseIf();
        return if elif.None? then None else Some(IfTree(cond.value, yes, Else([elif.value])));
      }
      var no := ParseBlock(true);
      return Some(IfTree(cond.value, yes, Else(no)));
    }

    method ParseWhile() returns (r: Option<StmtTree>)
      requires Good(S())
      modifies this, symtab
      ensures Good(S()) && With(r, S()) == WhileAt(old(S()))
      decreases Left(S()), 50
    {
      hide Reaches, Left, Good, ConditionAt, BlockAt;
      var cond := ParseCondition(KwWhile);
      if cond.None? {
        return None;
      }
      var body := ParseBlock(true);
      return Some(WhileTree(cond.value, body));
    }

    method ParseFor() returns (r: Option<StmtTree>)
      requires Good(S())
      modifies this, symtab
      ensures Good(S()) && With(r, S()) == ForAt(old(S()))
      decreases Left(S()), 50
    {
      hide Reaches, Left, Good, ForInside, Entered, Exited, Untyped;
      var keyword := Consume(KwFor);
      if keyword.None? {
        return None;
      }
      ghost var s := S();
      EnterLeft(s);
      EnterScope();
      r := ParseForInside();
      ExitScope(s);
    }

    method ParseForInside() returns (r: Option<StmtTree>)
      requires Good(S())
      modifies this, symtab
      ensures Good(S()) && With(r, S()) == ForInside(old(S()))
      decreases Left(S()), 51
    {
      hide Reaches, Left, Good, ForStart, MaybeThen, BlockAt;
      var open := Consume(LParen);
      if open.None? {
        return None;
      }
      var start := ParseForStart();
      if start.None? {
        return None;
      }
      var test := ParseMaybeThen(Semicolon);
      if test.None? {
        return None;
      }
      var iter := ParseMaybeThen(RParen);
      if iter.None? {
        return None;
      }
      var body := ParseBlock(true);
      return Some(ForTree(start.value, test.value, iter.value, body));
    }

    method ParseForStart() returns (r: Option<Option<StmtTree>>)
      requires Good(S())
      modifies this, symtab
      ensures Good(S()) && With(r, S()) == ForStart(old(S()))
    {
      hide Reaches, Left, Good, VarAt, ExprThen;
      if Match(Semicolon) {
        Advance();
        return Some(None);
      } else if IsNextVarDecl() {
        var v := ParseVarDecl();
        return if v.None? then None else Some(v);
      }
      var e := ParseExprThen(Semicolon);
      return if e.None? then None else Some(Some(ExprTree(e.value)));
    }

    method ParseSwitch() returns (r: Option<StmtTree>)
      requires Good(S())
      modifies this, symtab
      ensures Good(S()) && With(r, S()) == SwitchAt(old(S()))
      decreases Left(S()), 50
    {
      hide Reaches, Left, Good, ConditionAt, CasesAt;
      var subject := ParseCondition(KwSwitch);
      if subject.None? {
        return None;
      }
      var open := Consume(LBrace);
      if open.None? {
        return None;
      }
      var cases := ParseCases();
      if cases.None? {
        return None;
      }
      var close := Consume(RBrace);
      return if close.None? then None else Some(SwitchTree(subject.value, cases.value));
    }

    method ParseCases() returns (r: Option<seq<CaseTree>>)
      requires Good(S())
      modifies this, symtab
      ensures Good(S()) && With(r, S()) == CasesAt(old(S()))
      decreases Left(S()), 51
    {
      hide Reaches, Left, Good, CaseAt, CasesAt;
      ghost var s := S();
      var cases: seq<CaseTree> := [];
      AfterNone(CasesAt(s));
      while !Match(RBrace)
        invariant Good(S()) && Left(S()) <= Left(s) && CasesAt(s) == After(cases, CasesAt(S()))
        decreases Left(S())
      {
        CasesStep(S());
        var c := ParseCase();
        if c.None? {
          return None;
        }
        AfterMore(cases, c.value, CasesAt(S()));
        cases := cases + [c.value];
      }
      CasesStep(S());
      assert cases + [] == cases;
      r := Some(cases);
    }

    static lemma {:induction false} CasesStep(s: State)
      ensures CasesAt(s) == if KindAt(s) == RBrace then Done([], s) else
        match CaseAt(s)
        case Panic(s1) => Panic(s1)
        case Done(c, s1) => After([c], CasesAt(s1))
    {
      hide Reaches, Left, Good, CaseAt;
    }

    method ParseCase() returns (r: Option<CaseTree>)
      requires Good(S())
      modifies this, symtab
      ensures Good(S()) && With(r, S()) == CaseAt(old(S()))
      decreases Left(S()), 49
    {
      hide Reaches, Left, Good, ExprThen, PatternAt, BlockAt;
      if Match(KwCase) {
        Advance();
        if Match(Identifier) && PeekNext(ColonColon) {
          var name := CurText();
          var p := ParseEnumPattern();
          if p.None? {
            return None;
          }
          var body := ParseBlock(true);
          return Some(EnumCase(name, p.value.0, p.value.1, body));
        }
        var e := ParseExprThen(Colon);
        if e.None? {
          return None;
        }
        var body := ParseBlock(true);
        return Some(ValueCase(e.value, body));
      } else if Match(KwDefault) {
        Advance();
        var colon := Consume(Colon);
        if colon.None? {
          return None;
        }
        var body := ParseBlock(true);
        return Some(DefaultCase(body));
      }
      return None;
    }

    method ParseEnumPattern() returns (r: Option<(string, Option<string>)>)
      requires Good(S()) && Match(Identifier) && PeekNext(ColonColon)
      modifies this, symtab
      ensures Good(S()) && With(r, S()) == PatternAt(old(S()))
    {
      hide Reaches, Left, Good;
      Advance();
      Advance();
      var variant := Consume(Identifier);
      if variant.None? {
        return None;
      }
      var payload := None;
      if Match(LParen) {
        Advance();
        payload := Consume(Identifier);
        if payload.None? {
          return None;
        }
        var close := Consume(RParen);
        if close.None? {
          return None;
        }
      }
      var colon := Consume(Colon);
      return if colon.None? then None else Some((variant.value, payload));
    }

    /** A block recovers from a panic inside it by itself. */
    method ParseBlock(createScope: bool) returns (body: seq<StmtTree>)
      requires Good(S())
      modifies this, symtab
      ensures Good(S()) && (body, S()) == BlockAt(createScope, old(S()))
      decreases Left(S()), 58
    {
      hide Reaches, Left, Good, InsideAt, Entered, Exited, Untyped, Recover;
      ghost var s := S();
      var ok;
      EnterLeft(s);
      if createScope {
        EnterScope();
        ok, body := ParseInside();
        ExitScope(s);
      } else {
        ok, body := ParseInside();
      }
      if !ok {
        Synchronize();
        if Match(RBrace) {
          Advance();
        }
      }
    }

    method ParseInside() returns (ok: bool, items: seq<StmtTree>)
      requires Good(S())
      modifies this, symtab
      ensures Good(S()) && Part(ok, items, S()) == InsideAt(old(S()))
      decreases Left(S()), 57
    {
      hide Reaches, Left, Good, StmtAt, StmtsAt;
      items := [];
      var open := Consume(LBrace);
      if open.None? {
        return false, [];
      }
      ghost var s := S();
      assert [] + StmtsAt(s).0 == StmtsAt(s).0;
      while !Match(EofTok) && !Match(RBrace)
        invariant Good(S()) && Left(S()) <= Left(s)
        invariant StmtsAt(s) == (items + StmtsAt(S()).0, StmtsAt(S()).1)
        decreases Left(S())
      {
        StmtsStep(S());
        var t := ParseStatement();
        assert items + ([t] + StmtsAt(S()).0) == items + [t] + StmtsAt(S()).0;
        items := items + [t];
      }
      StmtsStep(S());
      assert items + [] == items;
      var close := Consume(RBrace);
      ok := close.Some?;
    }

    static lemma {:induction false} StmtsStep(s: State)
      ensures StmtsAt(s) == if KindAt(s) == EofTok || KindAt(s) == RBrace then ([], s) else
        ([StmtAt(s).0] + StmtsAt(StmtAt(s).1).0, StmtsAt(StmtAt(s).1).1)
    {
      hide Reaches, Left, Good, StmtAt;
    }

    method ParseAsm() returns (r: Option<StmtTree>)
      requires Good(S())
      modifies this, symtab
      ensures Good(S()) && With(r, S()) == AsmAt(old(S()))
    {
      hide Reaches, Left, Good, AsmTokens;
      var keyword := Consume(KwAsm);
      if keyword.None? {
        return None;
      }
      var open := Consume(LBrace);
      if open.None? {
        return None;
      }
      var code := SkipAsm();
      var close := Consume(RBrace);
      if close.None? {
        return None;
      }
      var end := Consume(Semicolon);
      return if end.None? then None else Some(AsmTree(code));
    }

    method SkipAsm() returns (code: seq<Token>)
      requires Good(S())
      modifies this
      ensures Good(S()) && (code, S()) == AsmTokens(old(S()), 1)
    {
      hide Reaches, Left, Good, AsmTokens;
      ghost var s := S();
      code := [];
      var braces := 1;
      assert [] + AsmTokens(s, 1).0 == AsmTokens(s, 1).0;
      while !Match(EofTok)
        invariant Good(S()) && braces > 0
        invariant AsmTokens(s, 1) == (code + AsmTokens(S(), braces).0, AsmTokens(S(), braces).1)
        decreases Left(S())
      {
        AsmStep(S(), braces);
        if Match(LBrace) {
          braces := braces + 1;
        } else if Match(RBrace) {
          braces := braces - 1;
        }
        if braces == 0 {
          assert code + [] == code;
          return;
        }
        ghost var before := code;
        ghost var rest := AsmTokens(Past(S()), braces).0;
        code := code + [tokens[pos]];
        assert before + ([tokens[pos]] + rest) == code + rest;
        Advance();
      }
      AsmStep(S(), braces);
      assert code + [] == code;
    }

    static lemma AsmStep(s: State, braces: nat)
      requires braces > 0
      ensures var k := KindAt(s);
        AsmTokens(s, braces) == if k == EofTok || (k == RBrace && braces == 1) then ([], s) else
          var rest := AsmTokens(Past(s), if k == LBrace then braces + 1 else if k == RBrace then braces - 1 else braces);
          ([s.tokens[s.pos]] + rest.0, rest.1)
    {
      hide Reaches, Left, Good;
    }

    // Declarations

    /** `Name : Type`, declared in the current scope. */
    method ParseStructField() returns (r: Option<FieldTree>)
      requires Good(S())
      modifies this, symtab
      ensures Good(S()) && With(r, S()) == FieldAt(old(S()))
    {
      hide Reaches, Left, Good, TypeAt;
      var name := Consume(Identifier);
      if name.None? {
        return None;
      }
      var colon := Consume(Colon);
      if colon.None? {
        return None;
      }
      var t := ParseType();
      if t.None? {
        return None;
      }
      SomeScope(S());
      var ok := Declare(name.value, VarSym(Some(Printed(t.value))), symtab.current);
      return if ok then Some(FieldTree(name.value, t.value)) else None;
    }

    method ParseFieldList() returns (ok: bool, items: seq<FieldTree>)
      requires Good(S())
      modifies this, symtab
      ensures Good(S()) && Part(ok, items, S()) == FieldList(old(S()))
    {
      hide Reaches, Left, Good, FieldAt, FieldList;
      ghost var s := S();
      items := [];
      PartNone(FieldList(s));
      var more := true;
      while more
        invariant Good(S())
        invariant more ==> FieldList(s) == PartAfter(items, FieldList(S()))
        invariant !more ==> FieldList(s) == Part(true, items, S())
        decreases Left(S()), more
      {
        FieldListStep(S());
        var f := ParseStructField();
        if f.None? {
          assert items + [] == items;
          return false, items;
        }
        more := Match(Comma);
        if more {
          Advance();
          PartMore(items, f.value, FieldList(S()));
        }
        items := items + [f.value];
      }
      ok := true;
    }

    static function PartAfter<T>(items: seq<T>, p: Part<T>): Part<T> {
      p.(items := items + p.items)
    }

    static lemma PartNone<T>(p: Part<T>)
      ensures PartAfter([], p) == p
    {
      assert [] + p.items == p.items;
    }

    static lemma PartMore<T>(items: seq<T>, x: T, p: Part<T>)
      ensures PartAfter(items, PartAfter([x], p)) == PartAfter(items + [x], p)
    {
      assert items + ([x] + p.items) == items + [x] + p.items;
    }

    static lemma {:induction false} FieldListStep(s: State)
      ensures FieldList(s) == match FieldAt(s)
        case Panic(s1) => Part(false, [], s1)
        case Done(f, s1) => if KindAt(s1) != Comma then Part(true, [f], s1) else PartAfter([f], FieldList(Past(s1)))
    {
      hide Reaches, Left, Good, FieldAt;
    }

    /** `{ Field, ... }` */
    method ParseFields() returns (ok: bool, items: seq<FieldTree>)
      requires Good(S())
      modifies this, symtab
      ensures Good(S()) && Part(ok, items, S()) == FieldsAt(old(S()))
    {
      hide Reaches, Left, Good, FieldList;
      items := [];
      var open := Consume(LBrace);
      if open.None? {
        return false, [];
      }
      if !Match(RBrace) {
        ok, items := ParseFieldList();
        if !ok {
          return;
        }
      }
      var close := Consume(RBrace);
      ok := close.Some?;
    }

    /** Fields in their own scope. */
    method ParseScopedFields() returns (ok: bool, items: seq<FieldTree>)
      requires Good(S())
      modifies this, symtab
      ensures Good(S()) && Part(ok, items, S()) == ScopedFields(old(S()))
    {
      hide Reaches, Left, Good, FieldsAt, Entered, Exited, Untyped;
      ghost var s := S();
      EnterScope();
      ok, items := ParseFields();
      ExitScope(s);
    }

    /** `crashed`: the code dereferences null here; nothing it does afterwards is defined. */
    method ParseStructDecl() returns (r: Option<DeclTree>, crashed: bool)
      requires Good(S())
      modifies this, symtab
      ensures crashed <==> StructCrashes(old(S()))
      ensures !crashed ==> Good(S()) && FromRes(With(r, S())) == StructAt(old(S()))
    {
      hide Reaches, Left, Good, StructBody, StructCrashes;
      StructCrashExact(S());
      var keyword := Consume(KwStruct);
      if keyword.None? {
        return None, false;
      }
      var name := Consume(Identifier);
      if name.None? {
        return None, false;
      }
      r, crashed := ParseStructRest(name.value);
    }

    method ParseStructRest(name: string) returns (r: Option<DeclTree>, crashed: bool)
      requires Good(S())
      modifies this, symtab
      ensures crashed <==> StructBody(name, old(S())).Crash?
      ensures !crashed ==> Good(S()) && FromRes(With(r, S())) == StructBody(name, old(S()))
    {
      hide Reaches, Left, Good, StructFields, TypeFrom, StructKnown, Untyped;
      ghost var s := S();
      SomeScope(s);
      BindStructOnward(s, s.current, name, false);
      TypeIsType(s, s.current, name);
      var opaqueDecl := Match(Semicolon);
      var t := LookupType(name, symtab.current);
      var node := LookupStruct(name);
      if t.Some? && node && t.value.complete && !opaqueDecl {
        return None, false;
      }
      if t.None? {
        var ok := Declare(name, TypeSym(name, false), symtab.current);
        SomeScope(S());
        var added := symtab.DeclareStruct(name, symtab.current);
        if !opaqueDecl && !ok {
          return None, true; // the type is null
        }
      }
      if opaqueDecl {
        Advance();
        return Some(StructTree(name, [])), false;
      }
      if t.Some? && !node {
        return None, true; // the node is null
      }
      var fields := ParseStructFields(name);
      return Some(StructTree(name, fields)), false;
    }

    /** Completes the type and reads its fields; after a panic those read so far are kept. */
    method ParseStructFields(name: string) returns (fields: seq<FieldTree>)
      requires Good(S())
      modifies this, symtab
      ensures Good(S()) && (fields, S()) == StructFields(name, old(S()))
    {
      hide Reaches, Left, Good, ScopedFields, Recover, Untyped, Completed;
      CompleteOnward(S(), name);
      MarkComplete(name);
      var ok;
      ok, fields := ParseScopedFields();
      if !ok {
        Synchronize();
        if Match(RBrace) {
          Advance();
        }
      }
    }

    /** Marks the type complete, when the name means a type. */
    method MarkComplete(name: string)
      requires Good(S())
      modifies symtab
      ensures S() == Complete(old(S()), name)
    {
      symtab.Complete(name);
    }

    method ParseEnumDecl() returns (r: Option<DeclTree>)
      requires Good(S())
      modifies this, symtab
      ensures Good(S()) && With(r, S()) == EnumAt(old(S()))
    {
      hide Reaches, Left, Good, VariantsAt, Entered, Exited, Untyped;
      var keyword := Consume(KwEnum);
      if keyword.None? {
        return None;
      }
      var name := Consume(Identifier);
      if name.None? {
        return None;
      }
      SomeScope(S());
      var scope := symtab.current;
      var ok := Declare(name.value, TypeSym("enum " + name.value, true), scope);
      if !ok {
        return None;
      }
      if name.value in symtab.scopes[scope].enums {
        return None;
      }
      AddEnumOnward(S(), scope, name.value);
      ok := symtab.DeclareEnum(name.value, scope);
      ghost var s := S();
      EnterMore(s);
      EnterScope();
      var variants := ParseVariants(name.value, scope);
      ExitScope(s);
      return if variants.None? then None else Some(EnumTree(name.value, variants.value));
    }

    static lemma EnterMore(s: State)
      ensures |s.scopes| < |Entered(s).scopes|
    {
    }

    /** `{ Variant, ... }` */
    method ParseVariants(enum: string, scope: nat) returns (r: Option<seq<VariantTree>>)
      requires Good(S()) && scope < |symtab.scopes|
      modifies this, symtab
      ensures Good(S()) && With(r, S()) == VariantsAt(enum, scope, old(S()))
    {
      hide Reaches, Left, Good, VariantList;
      var open := Consume(LBrace);
      if open.None? {
        return None;
      }
      var variants := Some([]);
      if !Match(RBrace) {
        variants := ParseVariantList(enum, scope);
        if variants.None? {
          return None;
        }
      }
      var close := Consume(RBrace);
      return if close.None? then None else variants;
    }

    method ParseVariantList(enum: string, scope: nat) returns (r: Option<seq<VariantTree>>)
      requires Good(S()) && scope < |symtab.scopes|
      modifies this, symtab
      ensures Good(S()) && With(r, S()) == VariantList(enum, scope, old(S()))
    {
      hide Reaches, Left, Good, VariantAt, VariantList;
      ghost var s := S();
      var items: seq<VariantTree> := [];
      AfterNone(VariantList(enum, scope, s));
      var more := true;
      while more
        invariant Good(S()) && scope < |symtab.scopes|
        invariant more ==> VariantList(enum, scope, s) == After(items, VariantList(enum, scope, S()))
        invariant !more ==> VariantList(enum, scope, s) == Done(items, S())
        decreases Left(S()), more
      {
        ghost var t := S();
        VariantListStep(enum, scope, t);
        var v := ParseVariant(enum, scope);
        if v.None? {
          return None;
        }
        MoreScopes(t, S());
        more := Match(Comma);
        if more {
          Advance();
          AfterMore(items, v.value, VariantList(enum, scope, S()));
        }
        items := items + [v.value];
      }
      r := Some(items);
    }

    static lemma MoreScopes(s: State, t: State)
      requires Good(s) && Onward(s, t)
      ensures |s.scopes| <= |t.scopes|
    {
      ReachesSelf(s);
    }

    static lemma {:induction false} VariantListStep(enum: string, scope: nat, s: State)
      ensures VariantList(enum, scope, s) == match VariantAt(enum, scope, s)
        case Panic(s1) => Panic(s1)
        case Done(v, s1) => if KindAt(s1) == Comma then After([v], VariantList(enum, scope, Past(s1))) else Done([v], s1)
    {
      hide Reaches, Left, Good, VariantAt;
    }

    method ParseVariant(enum: string, scope: nat) returns (r: Option<VariantTree>)
      requires Good(S()) && scope < |symtab.scopes|
      modifies this, symtab
      ensures Good(S()) && With(r, S()) == VariantAt(enum, scope, old(S()))
    {
      hide Reaches, Left, Good, ScopedFields, Untyped;
      var name := Consume(Identifier);
      if name.None? {
        return None;
      }
      var tag := None;
      if Match(Equal) {
        Advance();
        tag := Consume(IntLiteral);
        if tag.None? {
          return None;
        }
      }
      if !Match(LBrace) {
        return Some(VariantTree(name.value, tag, None));
      }
      ghost var s := S();
      var ok, fields := ParseScopedFields();
      if !ok {
        return None;
      }
      MoreScopes(s, S());
      DeclarePayload(enum + "::" + name.value, scope);
      return Some(VariantTree(name.value, tag, Some(fields)));
    }

    /** The payload's struct is bound in the scope the enum is declared in. */
    method DeclarePayload(name: string, scope: nat)
      requires Good(S()) && scope < |symtab.scopes|
      modifies symtab
      ensures Good(S()) && S() == BindStruct(old(S()), scope, name, true)
    {
      hide Reaches;
      BindStructOnward(S(), scope, name, true);
      var ok := symtab.Declare(name, TypeSym(name, true), scope);
      ok := symtab.DeclareStruct(name, scope);
    }

    method ParseFunctionParam() returns (r: Option<ParamTree>)
      requires Good(S())
      modifies this, symtab
      ensures Good(S()) && With(r, S()) == ParamAt(old(S()))
    {
      hide Reaches, Left, Good, FieldAt;
      var isMut := ParseMutabilityPrefix();
      var f := ParseStructField();
      return if f.None? then None else Some(ParamTree(isMut, f.value.name, f.value.typ));
    }

    method ParseParamList() returns (r: Option<seq<ParamTree>>)
      requires Good(S())
      modifies this, symtab
      ensures Good(S()) && With(r, S()) == ParamList(old(S()))
    {
      hide Reaches, Left, Good, ParamAt, ParamList;
      ghost var s := S();
      var items: seq<ParamTree> := [];
      AfterNone(ParamList(s));
      var more := true;
      while more
        invariant Good(S())
        invariant more ==> ParamList(s) == After(items, ParamList(S()))
        invariant !more ==> ParamList(s) == Done(items, S())
        decreases Left(S()), more
      {
        ParamListStep(S());
        var p := ParseFunctionParam();
        if p.None? {
          return None;
        }
        more := Match(Comma);
        if more {
          Advance();
          AfterMore(items, p.value, ParamList(S()));
        }
        items := items + [p.value];
      }
      r := Some(items);
    }

    static lemma {:induction false} ParamListStep(s: State)
      ensures ParamList(s) == match ParamAt(s)
        case Panic(s1) => Panic(s1)
        case Done(p, s1) => if KindAt(s1) == Comma then After([p], ParamList(Past(s1))) else Done([p], s1)
    {
      hide Reaches, Left, Good, ParamAt;
    }

    method ParseReturnType() returns (r: Option<FieldTree>)
      requires Good(S())
      modifies this, symtab
      ensures Good(S()) && With(r, S()) == ReturnAt(old(S()))
    {
      hide Reaches, Left, Good, TypeAt;
      var keyword := Consume(KwReturns);
      if keyword.None? {
        return None;
      }
      var open := Consume(LParen);
      if open.None? {
        return None;
      }
      var name := Consume(Identifier);
      if name.None? {
        return None;
      }
      var colon := Consume(Colon);
      if colon.None? {
        return None;
      }
      var t := ParseType();
      if t.None? {
        return None;
      }
      var close := Consume(RParen);
      if close.None? {
        return None;
      }
      SomeScope(S());
      var ok := Declare(name.value, VarSym(Some(Printed(t.value))), symtab.current);
      return if ok then Some(FieldTree(name.value, t.value)) else None;
    }

    method ParseSignature() returns (r: Option<Signature>)
      requires Good(S())
      modifies this, symtab
      ensures Good(S()) && With(r, S()) == SignatureAt(old(S()))
    {
      hide Reaches, Left, Good, ParamList, ReturnAt;
      var open := Consume(LParen);
      if open.None? {
        return None;
      }
      var params := Some([]);
      if !Match(RParen) {
        params := ParseParamList();
        if params.None? {
          return None;
        }
      }
      var close := Consume(RParen);
      if close.None? {
        return None;
      }
      if Match(KwReturns) {
        var ret := ParseReturnType();
        return if ret.None? then None else Some(Signature(params.value, ret));
      }
      var u0 := LookupType("u0", 0);
      assert u0.Some?; // the return type is never missing
      return Some(Signature(params.value, None));
    }

    /** Parameters, return type and body, in the function's own scope. */
    method ParseFunctionInside(isExtern: bool) returns (r: Option<(Signature, Option<seq<StmtTree>>)>)
      requires Good(S())
      modifies this, symtab
      ensures Good(S()) && With(r, S()) == FuncInside(isExtern, old(S()))
    {
      hide Reaches, Left, Good, SignatureAt, BlockAt;
      var sig := ParseSignature();
      if sig.None? {
        return None;
      }
      if isExtern {
        var end := Consume(Semicolon);
        return if end.None? then None else Some((sig.value, None));
      } else if Match(Semicolon) {
        Advance();
        return Some((sig.value, None));
      }
      var body := ParseBlock(false);
      return Some((sig.value, Some(body)));
    }

    /** `crashed`: a global variable of the same name has no type yet, and the code dereferences it. */
    method ParseFunctionDecl() returns (r: Option<DeclTree>, crashed: bool)
      requires Good(S()) && (Match(KwFunc) || Match(KwExtern))
      modifies this, symtab
      ensures crashed <==> FunctionCrashes(old(S()))
      ensures !crashed ==> Good(S()) && FromRes(With(r, S())) == FuncAt(old(S()))
    {
      hide Reaches, Left, Good, FuncInside, FuncDeclared, Entered, Exited, Untyped, FunctionCrashes, Typed;
      ghost var start := S();
      FunctionCrashExact(start);
      var isExtern := Match(KwExtern);
      if isExtern {
        Advance();
      }
      var keyword := Consume(KwFunc);
      if keyword.None? {
        return None, false;
      }
      var name := Consume(Identifier);
      if name.None? {
        return None, false;
      }
      ghost var s := S();
      EnterLeft(s);
      EnterScope();
      var inside := ParseFunctionInside(isExtern);
      ExitOnward(s, S());
      ExitScope(s);
      if inside.None? {
        return None, false;
      }
      HeaderNames(start, s, (isExtern, name.value));
      r, crashed := DeclareFunction(start, isExtern, name.value, inside.value.0, inside.value.1);
    }

    /** Declares a function that has been read to its end, or compares it with an earlier declaration. */
    method DeclareFunction(ghost s: State, isExtern: bool, name: string, sig: Signature, body: Option<seq<StmtTree>>)
      returns (r: Option<DeclTree>, crashed: bool)
      requires Good(S()) && Onward(s, S()) && Typed(s.tokens, name)
      modifies this, symtab
      ensures crashed <==> FuncDeclared(s, (isExtern, name), sig, body, old(S())).Crash?
      ensures !crashed ==> Good(S()) && FromRes(With(r, S())) == FuncDeclared(s, (isExtern, name), sig, body, old(S()))
    {
      hide Reaches, Left, Known, ShowSignature, Typed, Untyped;
      var tree := FuncTree(isExtern, name, sig, body);
      var shown := ShowSignature(sig);
      DeclareType(shown, 0);
      var existing := symtab.Lookup(name, 0);
      assert Chain(symtab.scopes, 0) == [symtab.scopes[0]];
      assert existing == Innermost([symtab.scopes[0]], name);
      assert [symtab.scopes[0]][1..] == [];
      if existing.Some? && existing.value.VarSym? {
        if existing.value.typ.None? {
          return None, true;
        }
        return if existing.value.typ.value == shown then Some(tree) else None, false;
      }
      var ok := Declare(name, VarSym(Some(shown)), 0);
      return Some(tree), false;
    }

    // Programs

    method ParseToplevelDeclaration() returns (tree: DeclTree, crashed: bool)
      requires Good(S()) && Cur() != EofTok
      modifies this, symtab
      ensures crashed <==> Crashes(old(S()))
      ensures !crashed ==> Good(S()) && Next(tree, S()) == TopAt(old(S()))
    {
      hide Reaches, Left, Good, StructAt, EnumAt, FuncAt, StmtAt, Recover, StructCrashes, FunctionCrashes;
      ghost var s := S();
      TopCrashExact(s);
      OtherFamily(s);
      var r;
      crashed := false;
      if Match(KwStruct) {
        r, crashed := ParseStructDecl();
      } else if Match(KwEnum) {
        r := ParseEnumDecl();
      } else if Match(KwFunc) || Match(KwExtern) {
        r, crashed := ParseFunctionDecl();
      } else {
        var t := ParseStatement();
        return StmtDecl(t), false;
      }
      if crashed {
        return StmtDecl(Poison), true;
      }
      if r.Some? {
        return r.value, false;
      }
      Synchronize();
      return StmtDecl(Poison), false;
    }

    static lemma OtherFamily(s: State)
      ensures StructCrashes(s) ==> KindAt(s) == KwStruct
      ensures FunctionCrashes(s) ==> KindAt(s) == KwFunc || KindAt(s) == KwExtern
    {
    }

    /**
      Every token stream that ends in an end-of-file token is parsed to its end, unless one of
      the states the loop passes through is in one of the two families that dereference null.
     */
    method ParseProgram() returns (root: seq<DeclTree>, crashed: bool)
      requires Good(S())
      modifies this, symtab
      ensures crashed <==> exists i :: 0 <= i < |TopStates(old(S()))| && Crashes(TopStates(old(S()))[i])
      ensures Clean(old(S())) ==> !crashed
      ensures !crashed ==> Finished(root, S()) == ProgramAt(old(S())) && Match(EofTok) && Reaches(old(S()), S())
    {
      hide Reaches, Left, Good, TopAt, ProgramAt, Crashes, TopStates, Clean;
      ghost var s := S();
      CrashExact(s);
      ProgramEnds(s);
      if Clean(s) {
        CleanFinishes(s);
      }
      root := [];
      assert ProgramAt(s).decls == [] + ProgramAt(s).decls;
      while !Match(EofTok)
        invariant Good(S()) && ProgramAt(s) == ProgramAt(S()).(decls := root + ProgramAt(S()).decls)
        decreases Left(S())
      {
        ghost var t := S();
        ProgramStep(t);
        TopCrashExact(t);
        var tree;
        tree, crashed := ParseToplevelDeclaration();
        if crashed {
          return;
        }
        assert root + ([tree] + ProgramAt(S()).decls) == root + [tree] + ProgramAt(S()).decls;
        root := root + [tree];
      }
      ProgramDone(S());
      assert root + [] == root;
      crashed := false;
    }

    static lemma {:induction false} ProgramDone(s: State)
      requires KindAt(s) == EofTok
      ensures ProgramAt(s) == Finished([], s)
    {
      hide Reaches, Left, TopAt;
    }
  }
}
