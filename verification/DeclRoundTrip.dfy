/** Declarations and programs parse back. */
module DeclRoundTrip {
  import opened Options
  import opened Tokens
  import opened Scopes
  import opened ExprSyntax
  import opened ParserState
  import opened Grammar
  import opened Visibility
  import opened Rendering
  import opened TypeRoundTrip
  import opened ExprRoundTrip
  import opened StmtRendering
  import opened StmtRoundTrip
  import opened DeclRendering

  // Fields

  lemma FieldTokens(f: FieldTree, s: State)
    requires At(s.tokens, s.pos, RenderField(f))
    ensures KindAt(s) == Identifier && TextAt(s) == f.name && After(s, 1) == Colon && At(s.tokens, s.pos + 2, RenderType(f.typ))
    ensures |RenderField(f)| == 2 + |RenderType(f.typ)|
  {
    hide At, RenderType;
    AtTwo(s.tokens, s.pos, Token(Identifier, f.name), Tok(Colon), RenderType(f.typ));
  }

  lemma {:induction false} FieldParses(f: FieldTree, s: State, env: Names) returns (u: State)
    requires Sees(s.scopes, s.current, env) && ShapedField(f, env) && At(s.tokens, s.pos, RenderField(f))
    ensures FieldAt(s) == Done(f, u) && Ran(s, u, |RenderField(f)|, {f.name})
  {
    hide Sees, At, Ran, Went, FieldAt, TypeAt, Onward, TypeShaped, RenderField, RenderType, Fresh;
    FieldTokens(f, s);
    var n := |RenderType(f.typ)|;
    PassWent(s, 2, env);
    var s2 := s.(pos := s.pos + 2);
    var s3 := TypeParses(f.typ, s2, env);
    WentThen(s, s2, s3, 2, n);
    u := DeclareParses(s, s3, 2 + n, f.name, Some(Printed(f.typ)), env);
    FieldStep(f, s, s3);
  }

  lemma FieldStep(f: FieldTree, s: State, s3: State)
    requires KindAt(s) == Identifier && TextAt(s) == f.name && After(s, 1) == Colon && TypeAt(s.(pos := s.pos + 2)) == Done(f.typ, s3)
    requires Free(s3, s3.current, f.name)
    ensures FieldAt(s) == Done(f, Bind(s3, s3.current, f.name, VarSym(Some(Printed(f.typ)))))
  {
    hide TypeAt, Onward, Bind, Untyped, Printed;
  }

  lemma {:induction false} FieldsTokens(fs: seq<FieldTree>, s: State)
    requires fs != [] && At(s.tokens, s.pos, RenderFields(fs))
    ensures var n := |RenderField(fs[0])|;
      && At(s.tokens, s.pos, RenderField(fs[0]))
      && (if |fs| == 1 then |RenderFields(fs)| == n
          else |RenderFields(fs)| == n + 1 + |RenderFields(fs[1..])| && After(s, n) == Comma && At(s.tokens, s.pos + n + 1, RenderFields(fs[1..])))
  {
    hide At, RenderField;
    var f := RenderField(fs[0]);
    if |fs| == 1 {
      assert f + [] == f;
    } else {
      AtMiddle(s.tokens, s.pos, f, Tok(Comma), RenderFields(fs[1..]));
    }
  }

  lemma {:induction false} ShapedNext(fs: seq<FieldTree>, env: Names)
    requires fs != [] && ShapedFields(fs, env)
    ensures ShapedField(fs[0], env) && Fresh(env, {fs[0].name}) && ShapedFields(fs[1..], Declared(env, {fs[0].name}))
  {
    hide Fresh, TypeShaped;
  }

  lemma {:induction false} FieldListParses(fs: seq<FieldTree>, s: State, env: Names) returns (u: State)
    requires fs != [] && Sees(s.scopes, s.current, env) && ShapedFields(fs, env) && At(s.tokens, s.pos, RenderFields(fs))
    requires After(s, |RenderFields(fs)|) == RBrace
    ensures FieldList(s) == Part(true, fs, u) && Ran(s, u, |RenderFields(fs)|, FieldNames(fs))
    decreases |fs|
  {
    hide Sees, At, Ran, Went, FieldAt, FieldList, Onward, RenderField, RenderFields, ShapedField, ShapedFields, Fresh, Declared;
    FieldsTokens(fs, s);
    ShapedNext(fs, env);
    var n, x := |RenderField(fs[0])|, {fs[0].name};
    var v := FieldParses(fs[0], s, env);
    RanParts(s, v, n, x);
    if |fs| == 1 {
      u := v;
      assert FieldNames(fs[1..]) == {} && x + {} == x;
    } else {
      RanPast(s, v, n, 1, x);
      RanSees(s, Past(v), n + 1, x, env);
      u := FieldListParses(fs[1..], Past(v), Declared(env, x));
      RanThen(s, Past(v), u, n + 1, |RenderFields(fs[1..])|, x, FieldNames(fs[1..]));
    }
    FieldListStep(fs, s, v, u);
  }

  lemma {:induction false} FieldListStep(fs: seq<FieldTree>, s: State, v: State, u: State)
    requires fs != [] && FieldAt(s) == Done(fs[0], v)
    requires if |fs| == 1 then KindAt(v) != Comma && u == v else KindAt(v) == Comma && FieldList(Past(v)) == Part(true, fs[1..], u)
    ensures FieldList(s) == Part(true, fs, u)
  {
    hide FieldAt, Onward;
    if |fs| == 1 {
      assert fs == [fs[0]];
    } else {
      assert fs == [fs[0]] + fs[1..];
    }
  }

  lemma {:induction false} FieldBlockTokens(fs: seq<FieldTree>, s: State)
    requires At(s.tokens, s.pos, RenderFieldBlock(fs))
    ensures var n := |RenderFields(fs)|;
      && |RenderFieldBlock(fs)| == 1 + n + 1 && KindAt(s) == LBrace && At(s.tokens, s.pos + 1, RenderFields(fs)) && After(s, 1 + n) == RBrace
  {
    hide At, RenderFields;
    AtCons(s.tokens, s.pos, Tok(LBrace), RenderFields(fs) + [Tok(RBrace)]);
    AtLast(s.tokens, s.pos + 1, RenderFields(fs), Tok(RBrace));
  }

  lemma {:induction false} FieldBlockParses(fs: seq<FieldTree>, s: State, env: Names) returns (u: State)
    requires Sees(s.scopes, s.current, env) && ShapedFields(fs, env) && At(s.tokens, s.pos, RenderFieldBlock(fs))
    ensures FieldsAt(s) == Part(true, fs, u) && Ran(s, u, |RenderFieldBlock(fs)|, FieldNames(fs))
  {
    hide Sees, At, Ran, Went, FieldsAt, FieldList, Onward, RenderFields, RenderFieldBlock, ShapedFields;
    FieldBlockTokens(fs, s);
    var n, xs := |RenderFields(fs)|, FieldNames(fs);
    PassWent(s, 1, env);
    var s1 := Past(s);
    var v := s1;
    if fs != [] {
      FieldsTokens(fs, s1);
      FieldTokens(fs[0], s1);
      v := FieldListParses(fs, s1, env);
      RanWent(s, s1, v, 1, n, xs);
    } else {
      NoFieldTokens();
      WentIsRun(s, s1, 1);
    }
    RanParts(s, v, 1 + n, xs);
    RanPast(s, v, 1 + n, 1, xs);
    u := Past(v);
    FieldBlockStep(fs, s, v);
  }

  lemma NoFieldTokens()
    ensures RenderFields([]) == [] && FieldNames([]) == {}
  {
  }

  lemma FieldBlockStep(fs: seq<FieldTree>, s: State, v: State)
    requires KindAt(s) == LBrace && KindAt(v) == RBrace
    requires if fs == [] then v == Past(s) else KindAt(Past(s)) == Identifier && FieldList(Past(s)) == Part(true, fs, v)
    ensures FieldsAt(s) == Part(true, fs, Past(v))
  {
    hide FieldList, Onward;
  }

  /** Fields in a scope of their own. */
  lemma {:induction false} ScopedFieldsParse(fs: seq<FieldTree>, s: State, env: Names) returns (u: State)
    requires Sees(s.scopes, s.current, env) && ShapedFields(fs, Inner(env)) && At(s.tokens, s.pos, RenderFieldBlock(fs))
    ensures ScopedFields(s) == Part(true, fs, u) && Went(s, u, |RenderFieldBlock(fs)|)
  {
    hide Sees, At, Ran, Went, FieldsAt, Onward, RenderFieldBlock, ShapedFields, ScopedFields, Exited;
    EnterSees(s, env);
    var v := FieldBlockParses(fs, Entered(s), Inner(env));
    LeaveWent(s, v, |RenderFieldBlock(fs)|, FieldNames(fs), env);
    u := Exited(v);
    ScopedStep(fs, s, v);
  }

  lemma ScopedStep(fs: seq<FieldTree>, s: State, v: State)
    requires FieldsAt(Entered(s)) == Part(true, fs, v)
    ensures ScopedFields(s) == Part(true, fs, Exited(v))
  {
    hide FieldsAt, Onward, Entered, Exited, Untyped;
  }

  // The global scope

  ghost predicate GlobalSees(g: Scope, e: Names) {
    && (forall n :: Visible(n) ==> (n in e.bound <==> n in g.symbols))
    && (forall n :: Visible(n) ==> (n in e.types <==> n in g.symbols && g.symbols[n].TypeSym?))
    && (forall n :: Visible(n) && n in e.types ==> e.types[n] == g.symbols[n])
    && e.structs == g.structs && e.enums == g.enums
    && (forall n :: SignatureName(n) ==> (n in e.sigs <==> n in g.symbols) && (n in g.symbols ==> g.symbols[n].TypeSym?))
    && (forall n :: n in e.funcs ==> Visible(n) && n in g.symbols && g.symbols[n] == VarSym(Some(e.funcs[n])))
  }

  lemma {:induction false} GlobalMeaning(scopes: seq<Scope>, n: string)
    requires Nested(scopes)
    ensures Meant(scopes, 0, n) == if n in scopes[0].symbols && scopes[0].symbols[n].TypeSym? then Some(scopes[0].symbols[n]) else None
    ensures HasStruct(Chain(scopes, 0), n) <==> n in scopes[0].structs
    ensures HasEnum(Chain(scopes, 0), n) <==> n in scopes[0].enums
  {
    var c := Chain(scopes, 0);
    assert c == [scopes[0]] && c[1..] == [] && Innermost(c[1..], n) == None;
    TagsOne(scopes[0], n);
  }

  lemma {:induction false} GlobalView(scopes: seq<Scope>, e: Names)
    requires Sees(scopes, 0, e)
    ensures Nested(scopes) && GlobalSees(scopes[0], e)
  {
    hide Meant, Chain, HasStruct, HasEnum;
    forall n
      ensures Meant(scopes, 0, n) == if n in scopes[0].symbols && scopes[0].symbols[n].TypeSym? then Some(scopes[0].symbols[n]) else None
      ensures HasStruct(Chain(scopes, 0), n) <==> n in scopes[0].structs
      ensures HasEnum(Chain(scopes, 0), n) <==> n in scopes[0].enums
    {
      GlobalMeaning(scopes, n);
    }
  }

  lemma {:induction false} ViewGlobal(scopes: seq<Scope>, e: Names)
    requires Nested(scopes) && GlobalSees(scopes[0], e)
    ensures Sees(scopes, 0, e)
  {
    hide Meant, Chain, HasStruct, HasEnum;
    forall n
      ensures Meant(scopes, 0, n) == if n in scopes[0].symbols && scopes[0].symbols[n].TypeSym? then Some(scopes[0].symbols[n]) else None
      ensures HasStruct(Chain(scopes, 0), n) <==> n in scopes[0].structs
      ensures HasEnum(Chain(scopes, 0), n) <==> n in scopes[0].enums
    {
      GlobalMeaning(scopes, n);
    }
  }

  /** A change to the global scope that keeps its parent. */
  lemma GlobalChanges(a: seq<Scope>, b: seq<Scope>, e: Names)
    requires Nested(a) && |b| == |a| && b == a[0 := b[0]] && b[0].parent == 0 && GlobalSees(b[0], e)
    ensures Sees(b, 0, e)
  {
    hide Sees, GlobalSees;
    assert forall i :: 0 <= i < |b| ==> b[i].parent == a[i].parent;
    ViewGlobal(b, e);
  }

  lemma StructSees(s: State, e: Names, n: string, complete: bool)
    requires Sees(s.scopes, 0, e) && Visible(n) && '(' !in n
    ensures Sees(BindStruct(s, 0, n, complete).scopes, 0, WithStruct(e, n, complete))
  {
    hide Sees, GlobalSees, WithStruct;
    GlobalView(s.scopes, e);
    var t := BindStruct(s, 0, n, complete);
    StructGlobal(s.scopes[0], e, n, complete);
    GlobalChanges(s.scopes, t.scopes, WithStruct(e, n, complete));
  }

  lemma StructGlobal(g: Scope, e: Names, n: string, complete: bool)
    requires GlobalSees(g, e) && Visible(n) && '(' !in n
    ensures var symbols := if n in g.symbols then g.symbols else g.symbols[n := TypeSym(n, complete)];
      GlobalSees(g.(symbols := symbols, structs := g.structs + {n}), WithStruct(e, n, complete))
  {
  }

  // Structs

  /** What `StructBody` asks of the symbol table. */
  lemma StructAsks(s: State, e: Names, n: string)
    requires s.current == 0 && Sees(s.scopes, 0, e) && Visible(n)
    ensures TypeFrom(s, s.current, n) == if n in e.types then Some(e.types[n]) else None
    ensures StructKnown(s, n) <==> n in e.structs
    ensures Free(s, s.current, n) <==> n !in e.bound
    ensures n in e.types ==> n in e.bound && e.types[n].TypeSym?
  {
    hide Chain, HasStruct, HasEnum, Meant;
    TagsSeen(s, e, n);
    GlobalView(s.scopes, e);
    TypeAsks(s, n);
  }

  lemma TypeAsks(s: State, n: string)
    requires Nested(s.scopes) && s.current == 0
    ensures TypeFrom(s, s.current, n) == Meant(s.scopes, 0, n)
  {
    hide Chain;
  }

  lemma CompleteSees(s: State, e: Names, n: string)
    requires s.current == 0 && Sees(s.scopes, 0, e) && Visible(n) && '(' !in n && n in e.types
    ensures e.types[n].TypeSym? && Sees(Complete(s, n).scopes, 0, e.(types := e.types[n := e.types[n].(complete := true)]))
    ensures Complete(s, n) == s.(scopes := Complete(s, n).scopes)
  {
    hide Sees, GlobalSees;
    GlobalView(s.scopes, e);
    CompleteGlobal(s.scopes[0], e, n);
    var t := Complete(s, n);
    var f := e.(types := e.types[n := e.types[n].(complete := true)]);
    GlobalChanges(s.scopes, t.scopes, f);
  }

  lemma CompleteGlobal(g: Scope, e: Names, n: string)
    requires GlobalSees(g, e) && Visible(n) && '(' !in n && n in e.types
    ensures n in g.symbols && e.types[n].TypeSym? && g.symbols[n] == e.types[n]
    ensures var t := e.types[n].(complete := true);
      GlobalSees(g.(symbols := g.symbols[n := t]), e.(types := e.types[n := t]))
  {
  }

  /** A struct with its fields, new or declared before; also one without fields, in braces. */
  lemma {:induction false} StructBodyParses(n: string, fields: seq<FieldTree>, s: State, env: Names) returns (u: State)
    requires s.current == 0 && Sees(s.scopes, 0, env) && CanDefine(n, env) && ShapedFields(fields, Inner(WithBody(env, n)))
    requires At(s.tokens, s.pos, RenderFieldBlock(fields))
    ensures StructBody(n, s) == Made(StructTree(n, fields), u)
    ensures u == State(s.tokens, s.pos + |RenderFieldBlock(fields)|, u.scopes, 0) && Sees(u.scopes, 0, WithBody(env, n))
  {
    hide Sees, At, Went, RenderFieldBlock, ShapedFields, Onward, StructBody, BindStruct, ScopedFields, Complete, Visible, Plain;
    StructAsks(s, env, n);
    PlainParts(n);
    FieldBlockTokens(fields, s);
    var s1, e := s, env;
    if n !in env.types {
      s1 := BindStruct(s, 0, n, false);
      e := WithStruct(env, n, false);
      StructSees(s, env, n, false);
      BindMoves(s, n);
    }
    CompleteSees(s1, e, n);
    var s2 := Complete(s1, n);
    assert e.(types := e.types[n := e.types[n].(complete := true)]) == WithBody(env, n);
    u := ScopedFieldsParse(fields, s2, WithBody(env, n));
    WentParts(s2, u, |RenderFieldBlock(fields)|);
    WentSees(s2, u, |RenderFieldBlock(fields)|, WithBody(env, n));
    StructBodyStep(n, fields, s, s1, u);
  }

  lemma PlainParts(n: string)
    requires Plain(n)
    ensures '(' !in n
  {
  }

  lemma BindMoves(s: State, n: string)
    ensures BindStruct(s, 0, n, false) == s.(scopes := BindStruct(s, 0, n, false).scopes)
  {
  }

  lemma StructBodyStep(n: string, fields: seq<FieldTree>, s: State, s1: State, u: State)
    requires KindAt(s) == LBrace && s.current == 0
    requires var known := TypeFrom(s, s.current, n);
      if known.None? then Free(s, s.current, n) && s1 == BindStruct(s, s.current, n, false) else StructKnown(s, n) && known.value.TypeSym? && !known.value.complete && s1 == s
    requires ScopedFields(Complete(s1, n)) == Part(true, fields, u)
    ensures StructBody(n, s) == Made(StructTree(n, fields), u)
  {
    hide TypeFrom, StructKnown, BindStruct, Untyped, ScopedFields, Complete, Onward, Recover;
  }

  lemma HeaderStep(s: State, k: Kind, n: string)
    requires k != EofTok && KindAt(s) == k && After(s, 1) == Identifier && TextAt(s.(pos := s.pos + 1)) == n
    ensures NamedAfter(s, k) == Done(n, s.(pos := s.pos + 2))
  {
    hide Onward;
  }

  /** `struct Name ;` */
  lemma {:induction false} OpaqueParses(n: string, s: State, env: Names) returns (u: State)
    requires s.current == 0 && Sees(s.scopes, 0, env) && Plain(n) && Visible(n) && (n !in env.bound || n in env.types) && KindAt(s) == Semicolon
    ensures StructBody(n, s) == Made(StructTree(n, []), u)
    ensures u == State(s.tokens, s.pos + 1, u.scopes, 0) && Sees(u.scopes, 0, if n in env.types then env else WithStruct(env, n, false))
  {
    hide Sees, Onward, StructBody, BindStruct, Visible, Plain;
    StructAsks(s, env, n);
    PlainParts(n);
    u := Past(s);
    if n !in env.types {
      StructSees(s, env, n, false);
      BindMoves(s, n);
      u := Past(BindStruct(s, 0, n, false));
    }
    OpaqueStep(n, s);
  }

  lemma OpaqueStep(n: string, s: State)
    requires KindAt(s) == Semicolon && s.current == 0
    ensures StructBody(n, s) == Made(StructTree(n, []), Past(if TypeFrom(s, s.current, n).None? then BindStruct(s, s.current, n, false) else s))
  {
    hide TypeFrom, StructKnown, BindStruct, Untyped, StructFields, Onward;
  }

  lemma {:induction false} StructParses(d: DeclTree, s: State, env: Names) returns (u: State)
    requires d.StructTree? && s.current == 0 && Sees(s.scopes, 0, env) && ShapedDecl(d, env) && At(s.tokens, s.pos, RenderDecl(d))
    ensures KindAt(s) == KwStruct && DeclAt(s) == Made(d, u)
    ensures u == State(s.tokens, s.pos + |RenderDecl(d)|, u.scopes, 0) && Sees(u.scopes, 0, AfterDecl(env, d))
  {
    hide Sees, At, RenderFieldBlock, ShapedFields, Onward, DeclAt, StructBody, CanDefine, WithStruct, WithBody;
    var name := Token(Identifier, d.name);
    var s2 := s.(pos := s.pos + 2);
    if d.fields == [] {
      AtTwo(s.tokens, s.pos, Tok(KwStruct), name, [Tok(Semicolon)]);
      AtFirst(s.tokens, s.pos + 2, [Tok(Semicolon)]);
      u := OpaqueParses(d.name, s2, env);
    } else {
      AtTwo(s.tokens, s.pos, Tok(KwStruct), name, RenderFieldBlock(d.fields));
      u := StructBodyParses(d.name, d.fields, s2, env);
    }
    HeaderStep(s, KwStruct, d.name);
    StructStep(d, s, u);
  }

  lemma StructStep(d: DeclTree, s: State, u: State)
    requires d.StructTree? && KindAt(s) == KwStruct && NamedAfter(s, KwStruct) == Done(d.name, s.(pos := s.pos + 2))
    requires StructBody(d.name, s.(pos := s.pos + 2)) == Made(d, u)
    ensures DeclAt(s) == Made(d, u)
  {
    hide NamedAfter, StructBody, EnumAt, FuncAt, Onward;
  }

  // Enums

  /** A scope without names of its own, on top of the global one. */
  ghost predicate Hollow(scopes: seq<Scope>, k: nat) {
    && Nested(scopes) && 0 < k < |scopes| && scopes[k].parent == 0 && scopes[k].structs == {} && scopes[k].enums == {}
    && forall n :: Visible(n) ==> n !in scopes[k].symbols
  }

  lemma {:induction false} HollowSees(scopes: seq<Scope>, k: nat, e: Names)
    requires Sees(scopes, 0, e) && Hollow(scopes, k)
    ensures Sees(scopes, k, Inner(e))
  {
    hide HasStruct, HasEnum, Innermost;
    var c := Chain(scopes, 0);
    assert Chain(scopes, k) == [scopes[k]] + c;
    forall n | n !in scopes[k].symbols
      ensures Innermost([scopes[k]] + c, n) == Innermost(c, n)
    {
      EmptyOnTop(c, scopes[k], n);
    }
    forall n
      ensures HasStruct([scopes[k]] + c, n) == HasStruct(c, n) && HasEnum([scopes[k]] + c, n) == HasEnum(c, n)
    {
      EmptyOnTop(c, scopes[k].(symbols := map[]), n);
      SameTags([scopes[k]] + c, [scopes[k].(symbols := map[])] + c, n);
    }
  }

  lemma SameTags(a: seq<Scope>, b: seq<Scope>, n: string)
    requires |a| == |b| && forall i {:trigger a[i]} {:trigger b[i]} :: 0 <= i < |a| ==> a[i].structs == b[i].structs && a[i].enums == b[i].enums
    ensures HasStruct(a, n) == HasStruct(b, n) && HasEnum(a, n) == HasEnum(b, n)
  {
    if HasStruct(a, n) {
      var i :| 0 <= i < |a| && n in a[i].structs;
      assert n in b[i].structs;
    }
    if HasEnum(a, n) {
      var i :| 0 <= i < |a| && n in a[i].enums;
      assert n in b[i].enums;
    }
    if HasStruct(b, n) {
      var i :| 0 <= i < |b| && n in b[i].structs;
      assert n in a[i].structs;
    }
    if HasEnum(b, n) {
      var i :| 0 <= i < |b| && n in b[i].enums;
      assert n in a[i].enums;
    }
  }

  /** Inside an enum: what the global scope shows, and nothing in the scope of the enum. */
  ghost predicate InEnum(s: State, e: Names) {
    Sees(s.scopes, 0, e) && Hollow(s.scopes, s.current)
  }

  lemma WentInEnum(s: State, u: State, n: nat, e: Names)
    requires InEnum(s, e) && Went(s, u, n)
    ensures InEnum(u, e)
  {
    hide Sees, ScopeBecame, Nested;
    forall i | 0 <= i < |s.scopes|
      ensures ScopeBecame(s.scopes[i], u.scopes[i], {})
    {
      assert ScopeBecame(s.scopes[i], u.scopes[i], if i == s.current then {} else {});
    }
    SeesSame(s.scopes, u.scopes, 0, e);
    HollowKeeps(s.scopes, u.scopes, s.current);
  }

  lemma HollowKeeps(a: seq<Scope>, b: seq<Scope>, k: nat)
    requires Hollow(a, k) && Nested(b) && |a| <= |b| && ScopeBecame(a[k], b[k], {})
    ensures Hollow(b, k)
  {
  }

  lemma PayloadSees(s: State, e: Names, n: string)
    requires InEnum(s, e) && Visible(n) && '(' !in n
    ensures var t := BindStruct(s, 0, n, true); InEnum(t, WithStruct(e, n, true)) && t == s.(scopes := t.scopes)
  {
    hide Sees, Visible, WithStruct;
    StructSees(s, e, n, true);
    var t := BindStruct(s, 0, n, true);
    assert t.scopes[s.current] == s.scopes[s.current];
    SeesNested(t.scopes, WithStruct(e, n, true));
  }

  lemma SeesNested(scopes: seq<Scope>, e: Names)
    requires Sees(scopes, 0, e)
    ensures Nested(scopes)
  {
    hide Meant, Chain, HasStruct, HasEnum;
  }

  lemma PayloadVisible(enum: string, v: string)
    requires Visible(enum) && Plain(enum) && Plain(v)
    ensures Visible(enum + "::" + v) && '(' !in enum + "::" + v
  {
    var n := enum + "::" + v;
    if |enum| >= 4 {
      assert enum[..4] == n[..4];
    } else {
      assert n[|enum|] == ':' && ':' !in "ptr<";
    }
  }

  lemma VariantTokens(v: VariantTree, s: State)
    requires At(s.tokens, s.pos, RenderVariant(v))
    ensures KindAt(s) == Identifier && TextAt(s) == v.name
    ensures var t := |RenderTag(v.tag)|;
      && (if v.tag.None? then t == 0 else t == 2 && After(s, 1) == Equal && After(s, 2) == IntLiteral && TextAt(s.(pos := s.pos + 2)) == v.tag.value)
      && (if v.payload.None? then |RenderVariant(v)| == 1 + t
          else && |RenderVariant(v)| == 1 + t + |RenderFieldBlock(v.payload.value)|
               && At(s.tokens, s.pos + 1 + t, RenderFieldBlock(v.payload.value)))
  {
    hide At, RenderFieldBlock;
    var t, p := RenderTag(v.tag), if v.payload.Some? then RenderFieldBlock(v.payload.value) else [];
    AtCons(s.tokens, s.pos, Token(Identifier, v.name), t + p);
    AtSplit(s.tokens, s.pos + 1, t, p);
    if v.tag.Some? {
      AtTwo(s.tokens, s.pos + 1, Tok(Equal), Token(IntLiteral, v.tag.value), []);
    }
  }

  lemma TagStep(tag: Option<string>, s: State)
    requires if tag.None? then KindAt(s) != Equal else KindAt(s) == Equal && After(s, 1) == IntLiteral && TextAt(s.(pos := s.pos + 1)) == tag.value
    ensures TagAt(s) == Done(tag, s.(pos := s.pos + if tag.None? then 0 else 2))
  {
    hide Onward;
  }

  lemma {:induction false} VariantParses(enum: string, v: VariantTree, s: State, env: Names) returns (u: State)
    requires InEnum(s, env) && Plain(enum) && Visible(enum) && Plain(v.name) && (v.payload.Some? ==> ShapedFields(v.payload.value, Inner(env)))
    requires At(s.tokens, s.pos, RenderVariant(v)) && (After(s, |RenderVariant(v)|) == Comma || After(s, |RenderVariant(v)|) == RBrace)
    ensures VariantAt(enum, 0, s) == Done(v, u) && u == State(s.tokens, s.pos + |RenderVariant(v)|, u.scopes, s.current)
    ensures InEnum(u, WithVariant(env, enum, v))
  {
    hide InEnum, At, Went, Sees, ShapedFields, RenderVariant, RenderFieldBlock, RenderTag, Onward, VariantAt, TagAt, ScopedFields, BindStruct, WithStruct, Plain, Visible;
    VariantTokens(v, s);
    var t := |RenderTag(v.tag)|;
    var s2 := s.(pos := s.pos + (1 + t));
    EnumMoves(s, s2, 1 + t, env);
    if v.payload.None? {
      u := s2;
    } else {
      FieldBlockTokens(v.payload.value, s2);
      EnumInner(s2, env);
      var s3 := ScopedFieldsParse(v.payload.value, s2, Inner(env));
      WentParts(s2, s3, |RenderFieldBlock(v.payload.value)|);
      WentInEnum(s2, s3, |RenderFieldBlock(v.payload.value)|, env);
      PayloadVisible(enum, v.name);
      PayloadSees(s3, env, PayloadStruct(enum, v));
      u := BindStruct(s3, 0, PayloadStruct(enum, v), true);
    }
    TagStep(v.tag, Past(s));
    VariantStep(enum, v, s, s2, u);
  }

  lemma EnumMoves(s: State, t: State, n: nat, e: Names)
    requires InEnum(s, e) && t == s.(pos := s.pos + n)
    ensures InEnum(t, e)
  {
  }

  lemma EnumInner(s: State, e: Names)
    requires InEnum(s, e)
    ensures Sees(s.scopes, s.current, Inner(e)) && Inner(Inner(e)) == Inner(e)
  {
    hide Sees;
    HollowSees(s.scopes, s.current, e);
  }

  lemma VariantStep(enum: string, v: VariantTree, s: State, s2: State, u: State)
    requires KindAt(s) == Identifier && TextAt(s) == v.name && TagAt(Past(s)) == Done(v.tag, s2)
    requires if v.payload.None? then KindAt(s2) != LBrace && u == s2
             else && KindAt(s2) == LBrace && ScopedFields(s2).ok && ScopedFields(s2).items == v.payload.value
                  && u == BindStruct(ScopedFields(s2).s, 0, PayloadStruct(enum, v), true)
    ensures VariantAt(enum, 0, s) == Done(v, u)
  {
    hide TagAt, ScopedFields, BindStruct, Untyped, Onward;
  }

  lemma {:induction false} VariantsTokens(vs: seq<VariantTree>, s: State)
    requires vs != [] && At(s.tokens, s.pos, RenderVariants(vs))
    ensures var n := |RenderVariant(vs[0])|;
      && At(s.tokens, s.pos, RenderVariant(vs[0]))
      && (if |vs| == 1 then |RenderVariants(vs)| == n
          else |RenderVariants(vs)| == n + 1 + |RenderVariants(vs[1..])| && After(s, n) == Comma && At(s.tokens, s.pos + n + 1, RenderVariants(vs[1..])))
  {
    hide At, RenderVariant;
    var v := RenderVariant(vs[0]);
    if |vs| == 1 {
      assert v + [] == v;
    } else {
      AtMiddle(s.tokens, s.pos, v, Tok(Comma), RenderVariants(vs[1..]));
    }
  }

  lemma {:induction false} VariantListParses(enum: string, vs: seq<VariantTree>, s: State, env: Names) returns (u: State)
    requires vs != [] && InEnum(s, env) && Plain(enum) && Visible(enum) && ShapedVariants(enum, vs, env)
    requires At(s.tokens, s.pos, RenderVariants(vs)) && After(s, |RenderVariants(vs)|) == RBrace
    ensures VariantList(enum, 0, s) == Done(vs, u) && u == State(s.tokens, s.pos + |RenderVariants(vs)|, u.scopes, s.current)
    ensures InEnum(u, WithVariants(env, enum, vs))
    decreases |vs|
  {
    hide InEnum, At, ShapedFields, RenderVariant, RenderVariants, Onward, VariantAt, VariantList, WithVariant, Plain, Visible;
    VariantsTokens(vs, s);
    var n, e := |RenderVariant(vs[0])|, WithVariant(env, enum, vs[0]);
    var v := VariantParses(enum, vs[0], s, env);
    if |vs| == 1 {
      u := v;
      assert WithVariants(e, enum, vs[1..]) == e;
    } else {
      EnumMoves(v, Past(v), 1, e);
      u := VariantListParses(enum, vs[1..], Past(v), e);
    }
    VariantListStep(enum, vs, s, v, u);
  }

  lemma {:induction false} VariantListStep(enum: string, vs: seq<VariantTree>, s: State, v: State, u: State)
    requires vs != [] && VariantAt(enum, 0, s) == Done(vs[0], v)
    requires if |vs| == 1 then KindAt(v) != Comma && u == v else KindAt(v) == Comma && VariantList(enum, 0, Past(v)) == Done(vs[1..], u)
    ensures VariantList(enum, 0, s) == Done(vs, u)
  {
    hide VariantAt, Onward;
    if |vs| == 1 {
      assert vs == [vs[0]];
    } else {
      assert vs == [vs[0]] + vs[1..];
    }
  }

  lemma {:induction false} VariantsParse(enum: string, vs: seq<VariantTree>, s: State, env: Names) returns (u: State)
    requires InEnum(s, env) && Plain(enum) && Visible(enum) && ShapedVariants(enum, vs, env)
    requires At(s.tokens, s.pos, [Tok(LBrace)] + (RenderVariants(vs) + [Tok(RBrace)]))
    ensures VariantsAt(enum, 0, s) == Done(vs, u) && u == State(s.tokens, s.pos + (1 + |RenderVariants(vs)| + 1), u.scopes, s.current)
    ensures InEnum(u, WithVariants(env, enum, vs))
  {
    hide InEnum, At, ShapedVariants, RenderVariant, RenderVariants, Onward, VariantsAt, VariantList, WithVariant, Plain, Visible;
    var n := |RenderVariants(vs)|;
    AtCons(s.tokens, s.pos, Tok(LBrace), RenderVariants(vs) + [Tok(RBrace)]);
    AtLast(s.tokens, s.pos + 1, RenderVariants(vs), Tok(RBrace));
    EnumMoves(s, Past(s), 1, env);
    var v := Past(s);
    if vs != [] {
      VariantsTokens(vs, Past(s));
      VariantTokens(vs[0], Past(s));
      v := VariantListParses(enum, vs, Past(s), env);
    } else {
      NoVariantTokens();
    }
    EnumMoves(v, Past(v), 1, WithVariants(env, enum, vs));
    u := Past(v);
    VariantsStep(enum, vs, s, v);
  }

  lemma NoVariantTokens()
    ensures RenderVariants([]) == []
  {
  }

  lemma {:induction false} VariantsStep(enum: string, vs: seq<VariantTree>, s: State, v: State)
    requires KindAt(s) == LBrace && KindAt(v) == RBrace
    requires if vs == [] then v == Past(s) else KindAt(Past(s)) == Identifier && VariantList(enum, 0, Past(s)) == Done(vs, v)
    ensures VariantsAt(enum, 0, s) == Done(vs, Past(v))
  {
    hide VariantList, Onward;
  }

  /** The name of the enum bound and its own scope entered. */
  function Opened(s: State, n: string): State {
    Entered(AddEnum(Bind(s, 0, n, TypeSym("enum " + n, true)), 0, n))
  }

  lemma OpenedSees(s: State, n: string, e: Names)
    requires s.current == 0 && Sees(s.scopes, 0, e) && Fresh(e, {n}) && n !in e.enums
    ensures InEnum(Opened(s, n), WithEnum(e, n)) && Opened(s, n) == State(s.tokens, s.pos, Opened(s, n).scopes, Opened(s, n).current)
    ensures Free(s, 0, n) && n !in s.scopes[0].enums
  {
    hide Sees, GlobalSees, WithEnum;
    GlobalView(s.scopes, e);
    var f, u := WithEnum(e, n), Opened(s, n);
    assert n in {n};
    EnumGlobal(s.scopes[0], e, n);
    assert forall i :: 0 <= i < |s.scopes| ==> u.scopes[i].parent == s.scopes[i].parent;
    ViewGlobal(u.scopes, f);
  }

  lemma EnumGlobal(g: Scope, e: Names, n: string)
    requires GlobalSees(g, e) && Fresh(e, {n}) && n !in e.enums
    ensures n !in g.symbols && n !in g.enums
    ensures GlobalSees(g.(symbols := g.symbols[n := TypeSym("enum " + n, true)], enums := g.enums + {n}), WithEnum(e, n))
  {
    assert n in {n};
  }

  lemma LeaveEnum(s: State, e: Names)
    requires InEnum(s, e)
    ensures Exited(s) == s.(current := 0) && Sees(Exited(s).scopes, 0, e)
  {
    hide Sees;
  }

  lemma {:induction false} EnumParses(d: DeclTree, s: State, env: Names) returns (u: State)
    requires d.EnumTree? && s.current == 0 && Sees(s.scopes, 0, env) && ShapedDecl(d, env) && At(s.tokens, s.pos, RenderDecl(d))
    ensures KindAt(s) == KwEnum && DeclAt(s) == Made(d, u)
    ensures u == State(s.tokens, s.pos + |RenderDecl(d)|, u.scopes, 0) && Sees(u.scopes, 0, AfterDecl(env, d))
  {
    hide Sees, At, InEnum, RenderVariants, ShapedVariants, Onward, DeclAt, Opened, Exited, VariantsAt, WithEnum, WithVariants, Plain, Visible;
    var name, rest := Token(Identifier, d.name), [Tok(LBrace)] + (RenderVariants(d.variants) + [Tok(RBrace)]);
    AtTwo(s.tokens, s.pos, Tok(KwEnum), name, rest);
    HeaderStep(s, KwEnum, d.name);
    var s2 := s.(pos := s.pos + 2);
    assert d.name in {d.name};
    OpenedSees(s2, d.name, env);
    var v := VariantsParse(d.name, d.variants, Opened(s2, d.name), WithEnum(env, d.name));
    LeaveEnum(v, AfterDecl(env, d));
    u := Exited(v);
    EnumStep(d, s, v);
  }

  lemma EnumStep(d: DeclTree, s: State, v: State)
    requires d.EnumTree? && s.current == 0 && KindAt(s) == KwEnum && NamedAfter(s, KwEnum) == Done(d.name, s.(pos := s.pos + 2))
    requires Free(s, 0, d.name) && d.name !in s.scopes[0].enums
    requires VariantsAt(d.name, 0, Opened(s.(pos := s.pos + 2), d.name)) == Done(d.variants, v)
    ensures DeclAt(s) == Made(d, Exited(v))
  {
    hide NamedAfter, VariantsAt, StructAt, FuncAt, Onward, Entered, Exited, Untyped, Bind, AddEnum, Enumerated;
  }

  // Functions

  lemma {:induction false} ParamParses(p: ParamTree, s: State, env: Names) returns (u: State)
    requires Sees(s.scopes, s.current, env) && ShapedField(AsField(p), env) && At(s.tokens, s.pos, RenderParam(p))
    ensures KindAt(s) != RParen && ParamAt(s) == Done(p, u) && Ran(s, u, |RenderParam(p)|, {p.name})
  {
    hide Sees, At, Ran, Went, FieldAt, ParamAt, Prefix, Onward, ShapedField, RenderField, MutTokens;
    var m, f := MutTokens(p.isMut), RenderField(AsField(p));
    FieldFirst(AsField(p));
    PrefixAt(s, p.isMut, f);
    var s1 := s.(pos := s.pos + |m|);
    PassWent(s, |m|, env);
    u := FieldParses(AsField(p), s1, env);
    RanWent(s, s1, u, |m|, |f|, {p.name});
    ParamFirst(p, s);
    ParamStep(p, s, s1, u);
  }

  lemma FieldFirst(f: FieldTree)
    ensures RenderField(f)[0].kind == Identifier
  {
    hide RenderType;
  }

  lemma ParamFirst(p: ParamTree, s: State)
    requires At(s.tokens, s.pos, RenderParam(p))
    ensures KindAt(s) == KwMut || KindAt(s) == Identifier
  {
    hide At, RenderType;
    AtFirst(s.tokens, s.pos, RenderParam(p));
  }

  lemma ParamStep(p: ParamTree, s: State, s1: State, u: State)
    requires Prefix(s) == (p.isMut, s1) && FieldAt(s1) == Done(AsField(p), u)
    ensures ParamAt(s) == Done(p, u)
  {
    hide Prefix, FieldAt, Onward;
  }

  lemma {:induction false} ParamsTokens(ps: seq<ParamTree>, s: State)
    requires ps != [] && At(s.tokens, s.pos, RenderParams(ps))
    ensures var n := |RenderParam(ps[0])|;
      && At(s.tokens, s.pos, RenderParam(ps[0]))
      && (if |ps| == 1 then |RenderParams(ps)| == n
          else |RenderParams(ps)| == n + 1 + |RenderParams(ps[1..])| && After(s, n) == Comma && At(s.tokens, s.pos + n + 1, RenderParams(ps[1..])))
  {
    hide At, RenderParam;
    var p := RenderParam(ps[0]);
    if |ps| == 1 {
      assert p + [] == p;
    } else {
      AtMiddle(s.tokens, s.pos, p, Tok(Comma), RenderParams(ps[1..]));
    }
  }

  lemma {:induction false} ParamsShaped(ps: seq<ParamTree>, env: Names)
    requires ps != [] && ShapedFields(ParamFields(ps), env)
    ensures ShapedField(AsField(ps[0]), env) && Fresh(env, {ps[0].name}) && ShapedFields(ParamFields(ps[1..]), Declared(env, {ps[0].name}))
    ensures FieldNames(ParamFields(ps)) == {ps[0].name} + FieldNames(ParamFields(ps[1..]))
  {
    hide ShapedField, Declared, Fresh;
    var fs := ParamFields(ps);
    assert fs[0] == AsField(ps[0]) && fs[1..] == ParamFields(ps[1..]);
    ShapedNext(fs, env);
  }

  lemma {:induction false} ParamListParses(ps: seq<ParamTree>, s: State, env: Names) returns (u: State)
    requires ps != [] && Sees(s.scopes, s.current, env) && ShapedFields(ParamFields(ps), env) && At(s.tokens, s.pos, RenderParams(ps))
    requires After(s, |RenderParams(ps)|) == RParen
    ensures KindAt(s) != RParen && ParamList(s) == Done(ps, u) && Ran(s, u, |RenderParams(ps)|, FieldNames(ParamFields(ps)))
    decreases |ps|
  {
    hide Sees, At, Ran, Went, ParamAt, ParamList, Onward, RenderParam, RenderParams, ShapedField, ShapedFields, Fresh, Declared, FieldNames;
    ParamsTokens(ps, s);
    ParamsShaped(ps, env);
    var n, x := |RenderParam(ps[0])|, {ps[0].name};
    var v := ParamParses(ps[0], s, env);
    RanParts(s, v, n, x);
    if |ps| == 1 {
      u := v;
      NoFieldTokens();
      assert ParamFields(ps[1..]) == [] && x + {} == x;
    } else {
      RanPast(s, v, n, 1, x);
      RanSees(s, Past(v), n + 1, x, env);
      u := ParamListParses(ps[1..], Past(v), Declared(env, x));
      RanThen(s, Past(v), u, n + 1, |RenderParams(ps[1..])|, x, FieldNames(ParamFields(ps[1..])));
    }
    ParamListStep(ps, s, v, u);
  }

  lemma {:induction false} ParamListStep(ps: seq<ParamTree>, s: State, v: State, u: State)
    requires ps != [] && ParamAt(s) == Done(ps[0], v)
    requires if |ps| == 1 then KindAt(v) != Comma && u == v else KindAt(v) == Comma && ParamList(Past(v)) == Done(ps[1..], u)
    ensures ParamList(s) == Done(ps, u)
  {
    hide ParamAt, Onward;
    if |ps| == 1 {
      assert ps == [ps[0]];
    } else {
      assert ps == [ps[0]] + ps[1..];
    }
  }

  lemma {:induction false} ReturnParses(f: FieldTree, s: State, env: Names) returns (u: State)
    requires Sees(s.scopes, s.current, env) && ShapedField(f, env) && At(s.tokens, s.pos, RenderReturn(Some(f)))
    ensures KindAt(s) == KwReturns && ReturnAt(s) == Done(f, u) && Ran(s, u, |RenderReturn(Some(f))|, {f.name})
  {
    hide Sees, At, Ran, Went, ReturnAt, TypeAt, Onward, TypeShaped, RenderField, RenderType, Fresh;
    AtTwo(s.tokens, s.pos, Tok(KwReturns), Tok(LParen), RenderField(f) + [Tok(RParen)]);
    AtLast(s.tokens, s.pos + 2, RenderField(f), Tok(RParen));
    var s2 := s.(pos := s.pos + 2);
    FieldTokens(f, s2);
    var n := |RenderType(f.typ)|;
    PassWent(s, 4, env);
    var s4 := s.(pos := s.pos + 4);
    var s5 := TypeParses(f.typ, s4, env);
    WentParts(s4, s5, n);
    WentThen(s, s4, s5, 4, n);
    PassMore(s, s5, 4 + n, 1);
    u := DeclareParses(s, Past(s5), 4 + n + 1, f.name, Some(Printed(f.typ)), env);
    ReturnStep(f, s, s5);
  }

  lemma ReturnStep(f: FieldTree, s: State, s5: State)
    requires KindAt(s) == KwReturns && After(s, 1) == LParen && After(s, 2) == Identifier && TextAt(s.(pos := s.pos + 2)) == f.name && After(s, 3) == Colon
    requires TypeAt(s.(pos := s.pos + 4)) == Done(f.typ, s5) && KindAt(s5) == RParen && Free(Past(s5), s5.current, f.name)
    ensures ReturnAt(s) == Done(f, Bind(Past(s5), s5.current, f.name, VarSym(Some(Printed(f.typ)))))
  {
    hide TypeAt, Onward, Bind, Untyped, Printed;
  }

  lemma {:induction false} ShapedSplit(a: seq<FieldTree>, b: seq<FieldTree>, env: Names)
    requires ShapedFields(a + b, env)
    ensures ShapedFields(a, env) && Fresh(env, FieldNames(a)) && ShapedFields(b, Declared(env, FieldNames(a)))
    ensures FieldNames(a + b) == FieldNames(a) + FieldNames(b)
    decreases |a|
  {
    hide TypeShaped;
    if a == [] {
      assert a + b == b && Declared(env, {}) == env;
    } else {
      var x := {a[0].name};
      assert (a + b)[0] == a[0] && (a + b)[1..] == a[1..] + b;
      ShapedSplit(a[1..], b, Declared(env, x));
      DeclaredTwice(env, x, FieldNames(a[1..]));
    }
  }

  lemma DeclaredTwice(e: Names, xs: set<string>, ys: set<string>)
    ensures Declared(Declared(e, xs), ys) == Declared(e, xs + ys)
  {
    assert e.types - xs - ys == e.types - (xs + ys);
    assert e.bound + xs + ys == e.bound + (xs + ys);
  }

  lemma SignatureTokens(sig: Signature, s: State)
    requires At(s.tokens, s.pos, RenderSignature(sig))
    ensures var p, r := |RenderParams(sig.params)|, |RenderReturn(sig.ret)|;
      && |RenderSignature(sig)| == 1 + p + 1 + r && KindAt(s) == LParen && At(s.tokens, s.pos + 1, RenderParams(sig.params))
      && After(s, 1 + p) == RParen && At(s.tokens, s.pos + 1 + p + 1, RenderReturn(sig.ret))
  {
    hide At, RenderParams, RenderReturn;
    var p, r := RenderParams(sig.params), RenderReturn(sig.ret);
    AtCons(s.tokens, s.pos, Tok(LParen), p + ([Tok(RParen)] + r));
    AtMiddle(s.tokens, s.pos + 1, p, Tok(RParen), r);
  }

  lemma {:induction false} SignatureParses(sig: Signature, s: State, env: Names) returns (u: State)
    requires Sees(s.scopes, s.current, env) && ShapedFields(SignatureFields(sig), env) && At(s.tokens, s.pos, RenderSignature(sig))
    requires After(s, |RenderSignature(sig)|) != KwReturns
    ensures SignatureAt(s) == Done(sig, u) && Ran(s, u, |RenderSignature(sig)|, FieldNames(SignatureFields(sig)))
  {
    hide Sees, At, Ran, Went, SignatureAt, ParamList, ReturnAt, Onward, RenderParams, RenderReturn, RenderSignature, ShapedFields, Fresh, Declared, FieldNames;
    SignatureTokens(sig, s);
    var p, r := |RenderParams(sig.params)|, |RenderReturn(sig.ret)|;
    var a, b := ParamFields(sig.params), ReturnFields(sig.ret);
    var xs, ys := FieldNames(a), FieldNames(b);
    ShapedSplit(a, b, env);
    var s1 := Past(s);
    PassWent(s, 1, env);
    var v := s1;
    if sig.params != [] {
      v := ParamListParses(sig.params, s1, env);
      RanWent(s, s1, v, 1, p, xs);
    } else {
      NoFieldTokens();
      NoParamTokensAtAll();
      WentIsRun(s, s1, 1);
    }
    RanParts(s, v, 1 + p, xs);
    RanPast(s, v, 1 + p, 1, xs);
    RanSees(s, Past(v), 1 + p + 1, xs, env);
    u := MaybeReturnParses(sig.ret, Past(v), Declared(env, xs));
    RanThen(s, Past(v), u, 1 + p + 1, r, xs, ys);
    SignatureStep(sig, s, v, u);
  }

  lemma NoParamTokensAtAll()
    ensures RenderParams([]) == []
  {
  }

  lemma {:induction false} MaybeReturnParses(ret: Option<FieldTree>, s: State, env: Names) returns (u: State)
    requires Sees(s.scopes, s.current, env) && ShapedFields(ReturnFields(ret), env) && At(s.tokens, s.pos, RenderReturn(ret))
    requires After(s, |RenderReturn(ret)|) != KwReturns
    ensures if ret.None? then KindAt(s) != KwReturns && u == s else KindAt(s) == KwReturns && ReturnAt(s) == Done(ret.value, u)
    ensures Ran(s, u, |RenderReturn(ret)|, FieldNames(ReturnFields(ret)))
  {
    hide Sees, At, Ran, Went, ReturnAt, Onward, RenderField, Fresh, TypeShaped, Declared;
    if ret.None? {
      PassWent(s, 0, env);
      WentIsRun(s, s, 0);
      u := s;
    } else {
      ShapedNext([ret.value], env);
      u := ReturnParses(ret.value, s, env);
      assert FieldNames([ret.value]) == {ret.value.name} + FieldNames([]) == {ret.value.name};
    }
  }

  lemma SignatureStep(sig: Signature, s: State, v: State, u: State)
    requires KindAt(s) == LParen && KindAt(v) == RParen
    requires if sig.params == [] then v == Past(s) else KindAt(Past(s)) != RParen && ParamList(Past(s)) == Done(sig.params, v)
    requires if sig.ret.None? then KindAt(Past(v)) != KwReturns && u == Past(v) else KindAt(Past(v)) == KwReturns && ReturnAt(Past(v)) == Done(sig.ret.value, u)
    ensures SignatureAt(s) == Done(sig, u)
  {
    hide ParamList, ReturnAt, Onward;
  }

  lemma {:induction false} FuncEndParses(isExtern: bool, body: Option<seq<StmtTree>>, s: State, env: Names) returns (u: State, xs: set<string>)
    requires Sees(s.scopes, s.current, env) && (isExtern ==> body.None?) && (body.Some? ==> ShapedStmts(body.value, env))
    requires At(s.tokens, s.pos, RenderBody(body))
    ensures FuncEnd(isExtern, s) == Done(body, u) && Ran(s, u, |RenderBody(body)|, xs)
  {
    hide Sees, At, Ran, Went, FuncEnd, InsideAt, Onward, RenderBlock, ShapedStmts, DeclaresAll;
    if body.None? {
      AtFirst(s.tokens, s.pos, [Tok(Semicolon)]);
      PassWent(s, 1, env);
      u, xs := Past(s), {};
      WentIsRun(s, u, 1);
      EndStep(isExtern, s);
    } else {
      BlockTokens(body.value, s);
      u := InsideParses(body.value, s, env);
      xs := DeclaresAll(body.value);
      BodyStep(body.value, s, u);
    }
  }

  lemma EndStep(isExtern: bool, s: State)
    requires KindAt(s) == Semicolon
    ensures FuncEnd(isExtern, s) == Done(None, Past(s))
  {
    hide BlockAt, Onward;
  }

  lemma {:induction false} BodyStep(b: seq<StmtTree>, s: State, u: State)
    requires KindAt(s) == LBrace && InsideAt(s) == Part(true, b, u)
    ensures FuncEnd(false, s) == Done(Some(b), u)
  {
    hide InsideAt, Onward, Recover, Entered, Exited, Untyped;
  }

  /** Parameters, result and body in the scope of the function. */
  lemma {:induction false} InsideFuncParses(d: DeclTree, s: State, env: Names) returns (u: State, xs: set<string>)
    requires d.FuncTree? && ShapedDecl(d, env) && Sees(s.scopes, s.current, Inner(env))
    requires At(s.tokens, s.pos, RenderSignature(d.sig) + RenderBody(d.body))
    ensures FuncInside(d.isExtern, s) == Done((d.sig, d.body), u) && Ran(s, u, |RenderSignature(d.sig)| + |RenderBody(d.body)|, xs)
  {
    hide Sees, At, Ran, Went, SignatureAt, FuncEnd, FuncInside, Onward, RenderSignature, RenderBody, ShapedFields, ShapedStmts, Declared, FieldNames, SignatureFields, ShowSignature;
    var g, b, ns := |RenderSignature(d.sig)|, |RenderBody(d.body)|, FieldNames(SignatureFields(d.sig));
    AtSplit(s.tokens, s.pos, RenderSignature(d.sig), RenderBody(d.body));
    BodyStarts(d.body, s, g);
    var v := SignatureParses(d.sig, s, Inner(env));
    RanParts(s, v, g, ns);
    SignatureFresh(d.sig, Inner(env));
    RanSees(s, v, g, ns, Inner(env));
    var ys;
    u, ys := FuncEndParses(d.isExtern, d.body, v, Declared(Inner(env), ns));
    xs := ns + ys;
    RanThen(s, v, u, g, b, ns, ys);
    InsideFuncStep(d, s, v, u);
  }

  lemma {:induction false} SignatureFresh(sig: Signature, env: Names)
    requires ShapedFields(SignatureFields(sig), env)
    ensures Fresh(env, FieldNames(SignatureFields(sig)))
  {
    hide ShapedFields, Fresh, FieldNames;
    var fs := SignatureFields(sig);
    assert fs + [] == fs;
    ShapedSplit(fs, [], env);
  }

  lemma BodyStarts(body: Option<seq<StmtTree>>, s: State, n: nat)
    requires At(s.tokens, s.pos + n, RenderBody(body))
    ensures After(s, n) != KwReturns
  {
    hide At, RenderStmts;
    AtFirst(s.tokens, s.pos + n, RenderBody(body));
  }

  lemma InsideFuncStep(d: DeclTree, s: State, v: State, u: State)
    requires d.FuncTree? && SignatureAt(s) == Done(d.sig, v) && FuncEnd(d.isExtern, v) == Done(d.body, u)
    ensures FuncInside(d.isExtern, s) == Done((d.sig, d.body), u)
  {
    hide SignatureAt, FuncEnd, Onward;
  }

  // What a function leaves in the global scope

  lemma SignatureGlobal(g: Scope, e: Names, n: string)
    requires GlobalSees(g, e) && SignatureName(n)
    ensures n in g.symbols <==> n in e.types
    ensures n in g.symbols ==> g.symbols[n].TypeSym?
    ensures GlobalSees(if n in e.types then g else g.(symbols := g.symbols[n := TypeSym(n, true)]), WithSignature(e, n))
  {
  }

  lemma FuncGlobal(g: Scope, e: Names, n: string, shown: string)
    requires GlobalSees(g, e) && Plain(n) && Visible(n) && (n !in e.bound || (n in e.funcs && e.funcs[n] == shown))
    ensures n in e.funcs <==> n in g.symbols
    ensures n in g.symbols ==> g.symbols[n] == VarSym(Some(shown))
    ensures GlobalSees(if n in g.symbols then g else g.(symbols := g.symbols[n := VarSym(Some(shown))]), WithFunc(e, n, shown))
  {
  }

  lemma SignatureSees(s: State, e: Names, shown: string)
    requires Sees(s.scopes, 0, e) && SignatureName(shown) && !Plain(shown)
    ensures var t := Known(s, 0, shown); t == s.(scopes := t.scopes) && Sees(t.scopes, 0, WithSignature(e, shown))
  {
    hide Sees, GlobalSees, WithSignature, SignatureName, Meant, Onward, Plain, Untyped;
    GlobalView(s.scopes, e);
    SignatureGlobal(s.scopes[0], e, shown);
    GlobalMeaning(s.scopes, shown);
    GlobalType(s, shown);
    var t := Known(s, 0, shown);
    GlobalChanges(s.scopes, t.scopes, WithSignature(e, shown));
  }

  lemma GlobalType(s: State, n: string)
    requires Nested(s.scopes)
    ensures TypeFrom(s, 0, n) == Meant(s.scopes, 0, n)
  {
    hide Chain;
  }

  lemma FuncSees(s: State, e: Names, n: string, shown: string)
    requires Sees(s.scopes, 0, e) && Plain(n) && Visible(n) && (n !in e.bound || (n in e.funcs && e.funcs[n] == shown))
    ensures if GlobalVar(s, n) then s.scopes[0].symbols[n].typ == Some(shown) && Sees(s.scopes, 0, WithFunc(e, n, shown))
            else var t := Bind(s, 0, n, VarSym(Some(shown))); t == s.(scopes := t.scopes) && Sees(t.scopes, 0, WithFunc(e, n, shown))
  {
    hide Sees, GlobalSees, WithFunc, Plain, Visible;
    GlobalView(s.scopes, e);
    FuncGlobal(s.scopes[0], e, n, shown);
    if GlobalVar(s, n) {
      ViewGlobal(s.scopes, WithFunc(e, n, shown));
    } else {
      var t := Bind(s, 0, n, VarSym(Some(shown)));
      GlobalChanges(s.scopes, t.scopes, WithFunc(e, n, shown));
    }
  }

  lemma ShownIsSignature(sig: Signature)
    ensures SignatureName(ShowSignature(sig)) && !Plain(ShowSignature(sig))
  {
    var n := ShowSignature(sig);
    assert n[4] == '(' && n[0] == 'f';
    assert n[..4][0] != "ptr<"[0];
  }

  /** The function is bound, or was, with the same type. */
  lemma {:induction false} DeclaredParses(d: DeclTree, s: State, t: State, env: Names) returns (u: State)
    requires d.FuncTree? && ShapedDecl(d, env) && t.current == 0 && Sees(t.scopes, 0, env) && Onward(s, t) && Typed(s.tokens, d.name)
    ensures FuncDeclared(s, (d.isExtern, d.name), d.sig, d.body, t) == Made(d, u)
    ensures u == t.(scopes := u.scopes) && Sees(u.scopes, 0, AfterDecl(env, d))
  {
    hide Sees, Onward, Typed, Known, ShowSignature, ShapedFields, ShapedStmts, WithSignature, WithFunc, Visible, Plain, Bind;
    var shown := ShowSignature(d.sig);
    ShownIsSignature(d.sig);
    var t1 := Known(t, 0, shown);
    SignatureSees(t, env, shown);
    SignatureKeeps(env, shown, d.name);
    FuncSees(t1, WithSignature(env, shown), d.name, shown);
    u := if GlobalVar(t1, d.name) then t1 else Bind(t1, 0, d.name, VarSym(Some(shown)));
  }

  lemma SignatureKeeps(e: Names, shown: string, n: string)
    requires !Plain(shown) && Plain(n)
    ensures n in WithSignature(e, shown).bound <==> n in e.bound
    ensures WithSignature(e, shown).funcs == e.funcs
  {
  }

  lemma FuncTokens(d: DeclTree, s: State)
    requires d.FuncTree? && At(s.tokens, s.pos, RenderDecl(d))
    ensures var x := if d.isExtern then 1 else 0;
      && (d.isExtern ==> KindAt(s) == KwExtern) && After(s, x) == KwFunc && After(s, x + 1) == Identifier && TextAt(s.(pos := s.pos + (x + 1))) == d.name
      && |RenderDecl(d)| == x + 2 + (|RenderSignature(d.sig)| + |RenderBody(d.body)|)
      && At(s.tokens, s.pos + (x + 2), RenderSignature(d.sig) + RenderBody(d.body))
  {
    hide At, RenderSignature, RenderBody;
    var rest := RenderSignature(d.sig) + RenderBody(d.body);
    var f, name := Tok(KwFunc), Token(Identifier, d.name);
    if d.isExtern {
      AtCons(s.tokens, s.pos, Tok(KwExtern), [f, name] + rest);
      AtTwo(s.tokens, s.pos + 1, f, name, rest);
    } else {
      assert [] + ([f, name] + rest) == [f, name] + rest;
      AtTwo(s.tokens, s.pos, f, name, rest);
    }
  }

  lemma FuncHeaderStep(d: DeclTree, s: State)
    requires d.FuncTree?
    requires var x := if d.isExtern then 1 else 0;
      && (d.isExtern ==> KindAt(s) == KwExtern) && After(s, x) == KwFunc && After(s, x + 1) == Identifier && TextAt(s.(pos := s.pos + (x + 1))) == d.name
    ensures FuncHeader(s) == Done((d.isExtern, d.name), s.(pos := s.pos + ((if d.isExtern then 1 else 0) + 2)))
  {
    hide Onward, NamedAfter;
    HeaderStep(if d.isExtern then Past(s) else s, KwFunc, d.name);
  }

  lemma {:induction false} FuncParses(d: DeclTree, s: State, env: Names) returns (u: State)
    requires d.FuncTree? && s.current == 0 && Sees(s.scopes, 0, env) && ShapedDecl(d, env) && At(s.tokens, s.pos, RenderDecl(d))
    ensures (KindAt(s) == KwFunc || KindAt(s) == KwExtern) && DeclAt(s) == Made(d, u)
    ensures u == State(s.tokens, s.pos + |RenderDecl(d)|, u.scopes, 0) && Sees(u.scopes, 0, AfterDecl(env, d))
  {
    hide Sees, At, Ran, Went, Onward, RenderDecl, ShapedDecl, AfterDecl, Entered, Exited, FuncInside, FuncDeclared, DeclAt, FuncHeader, RenderSignature, RenderBody, Typed;
    FuncTokens(d, s);
    FuncHeaderStep(d, s);
    var n, x := |RenderSignature(d.sig)| + |RenderBody(d.body)|, if d.isExtern then 1 else 0;
    var s1 := s.(pos := s.pos + (x + 2));
    EnterSees(s1, env);
    EnteredPlace(s1);
    var v, xs := InsideFuncParses(d, Entered(s1), env);
    LeaveWent(s1, v, n, xs, env);
    WentParts(s1, Exited(v), n);
    WentSees(s1, Exited(v), n, env);
    FuncSteps(d, s, s1, v);
    u := DeclaredParses(d, s, Exited(v), env);
    FuncStep(d, s, s1, v, u);
  }

  lemma EnteredPlace(s: State)
    ensures Entered(s).tokens == s.tokens && Entered(s).pos == s.pos
  {
  }

  lemma FuncSteps(d: DeclTree, s: State, s1: State, v: State)
    requires d.FuncTree? && FuncHeader(s) == Done((d.isExtern, d.name), s1) && FuncInside(d.isExtern, Entered(s1)) == Done((d.sig, d.body), v)
    ensures Onward(s, Exited(v)) && Typed(s.tokens, d.name)
  {
    hide Reaches, Good, Left, FuncHeader, FuncInside, Entered, Exited, Untyped, Typed;
    EnterLeft(s1);
    ExitOnward(s1, v);
    HeaderNames(s, s1, (d.isExtern, d.name));
  }

  lemma FuncStep(d: DeclTree, s: State, s1: State, v: State, u: State)
    requires d.FuncTree? && (KindAt(s) == KwFunc || KindAt(s) == KwExtern)
    requires FuncHeader(s) == Done((d.isExtern, d.name), s1) && FuncInside(d.isExtern, Entered(s1)) == Done((d.sig, d.body), v)
    requires Onward(s, Exited(v)) && Typed(s.tokens, d.name) && FuncDeclared(s, (d.isExtern, d.name), d.sig, d.body, Exited(v)) == Made(d, u)
    ensures DeclAt(s) == Made(d, u)
  {
    hide StructAt, EnumAt, FuncHeader, FuncInside, Entered, Exited, Untyped, FuncDeclared, Onward, Typed;
  }

  // Programs

  /** Every declaration at the top level, wherever its tokens stand, unless an `else` follows. */
  lemma {:induction false} DeclParses(d: DeclTree, s: State, env: Names) returns (u: State)
    requires s.current == 0 && Sees(s.scopes, 0, env) && ShapedDecl(d, env) && At(s.tokens, s.pos, RenderDecl(d)) && After(s, |RenderDecl(d)|) != KwElse
    ensures KindAt(s) != EofTok && KindAt(s) != KwElse && TopAt(s) == Next(d, u)
    ensures u == State(s.tokens, s.pos + |RenderDecl(d)|, u.scopes, 0) && Sees(u.scopes, 0, AfterDecl(env, d))
  {
    hide Sees, At, Onward, RenderDecl, ShapedDecl, AfterDecl, DeclAt, TopAt;
    match d
    case StructTree(_, _) => u := StructParses(d, s, env); TopStep(d, s, u);
    case EnumTree(_, _) => u := EnumParses(d, s, env); TopStep(d, s, u);
    case FuncTree(_, _, _, _) => u := FuncParses(d, s, env); TopStep(d, s, u);
    case StmtDecl(t) => u := StmtDeclParses(d, s, env);
  }

  lemma TopStep(d: DeclTree, s: State, u: State)
    requires StartsDecl(KindAt(s)) && DeclAt(s) == Made(d, u)
    ensures TopAt(s) == Next(d, u)
  {
    hide DeclAt, StmtAt, Onward, Recover;
  }

  lemma {:induction false} StmtDeclParses(d: DeclTree, s: State, env: Names) returns (u: State)
    requires d.StmtDecl? && s.current == 0 && Sees(s.scopes, 0, env) && ShapedDecl(d, env) && At(s.tokens, s.pos, RenderDecl(d)) && After(s, |RenderDecl(d)|) != KwElse
    ensures KindAt(s) != EofTok && KindAt(s) != KwElse && TopAt(s) == Next(d, u)
    ensures u == State(s.tokens, s.pos + |RenderDecl(d)|, u.scopes, 0) && Sees(u.scopes, 0, AfterDecl(env, d))
  {
    hide Sees, At, Ran, Onward, RenderStmt, ShapedStmt, Declares, Declared, BodyAt, StmtAt, TopAt, Fresh;
    var n := |RenderStmt(d.stmt)|;
    StmtStarts(d.stmt, env);
    AtFirst(s.tokens, s.pos, RenderStmt(d.stmt));
    NoDeclStarts(d.stmt, env);
    u := StmtParses(d.stmt, s, env);
    RanParts(s, u, n, Declares(d.stmt));
    FreshStmt(d.stmt, env);
    RanSees(s, u, n, Declares(d.stmt), env);
    StmtTopStep(d.stmt, s, u);
  }

  lemma {:induction false} NoDeclStarts(t: StmtTree, env: Names)
    requires ShapedStmt(t, env)
    ensures |RenderStmt(t)| > 0 && !StartsDecl(RenderStmt(t)[0].kind)
  {
    hide Shaped, Render, RenderStmts, RenderElse, RenderCases, Balanced, ShapedStmts, ShapedCases;
    if t.ExprTree? {
      Starts(t.expr, env);
    }
  }

  lemma {:induction false} StmtTopStep(t: StmtTree, s: State, u: State)
    requires KindAt(s) != EofTok && !StartsDecl(KindAt(s)) && StmtAt(s) == (t, u)
    ensures TopAt(s) == Next(StmtDecl(t), u)
  {
    hide DeclAt, StmtAt, Onward, Recover;
  }

  /** Every program, wherever its tokens stand before the end of the file. */
  lemma {:induction false} ProgramParses(ds: seq<DeclTree>, s: State, env: Names) returns (u: State)
    requires s.current == 0 && Sees(s.scopes, 0, env) && ShapedProgram(ds, env) && At(s.tokens, s.pos, RenderProgram(ds)) && After(s, |RenderProgram(ds)|) == EofTok
    ensures ProgramAt(s) == Finished(ds, u) && KindAt(s) != KwElse
    ensures u == State(s.tokens, s.pos + |RenderProgram(ds)|, u.scopes, 0) && Sees(u.scopes, 0, AfterAll(env, ds))
    decreases |ds|
  {
    hide Sees, At, Onward, RenderDecl, ShapedDecl, AfterDecl, TopAt, ProgramAt;
    if ds == [] {
      u := s;
      ProgramEnds(s);
    } else {
      var d, n := ds[0], |RenderDecl(ds[0])|;
      AtSplit(s.tokens, s.pos, RenderDecl(d), RenderProgram(ds[1..]));
      NoElse(ds[1..], s.(pos := s.pos + n), AfterDecl(env, d));
      var v := DeclParses(d, s, env);
      u := ProgramParses(ds[1..], v, AfterDecl(env, d));
      ProgramStep(ds, s, v, u);
    }
  }

  lemma {:induction false} DeclStarts(d: DeclTree, env: Names)
    requires ShapedDecl(d, env)
    ensures |RenderDecl(d)| > 0 && RenderDecl(d)[0].kind != KwElse
  {
    hide ShapedFields, ShapedVariants, ShapedStmt, ShapedStmts, RenderStmt, RenderFieldBlock, RenderVariants, RenderSignature, RenderBody, CanDefine, ShowSignature;
    if d.StmtDecl? {
      StmtStarts(d.stmt, env);
    }
  }

  lemma {:induction false} NoElse(ds: seq<DeclTree>, s: State, env: Names)
    requires ShapedProgram(ds, env) && At(s.tokens, s.pos, RenderProgram(ds)) && After(s, |RenderProgram(ds)|) == EofTok
    ensures KindAt(s) != KwElse
  {
    hide At, RenderDecl, ShapedDecl, AfterDecl;
    if ds != [] {
      DeclStarts(ds[0], env);
      AtFirst(s.tokens, s.pos, RenderProgram(ds));
    }
  }

  lemma {:induction false} ProgramEnds(s: State)
    requires KindAt(s) == EofTok
    ensures ProgramAt(s) == Finished([], s)
  {
    hide TopAt, Onward;
  }

  lemma {:induction false} ProgramStep(ds: seq<DeclTree>, s: State, v: State, u: State)
    requires ds != [] && KindAt(s) != EofTok && TopAt(s) == Next(ds[0], v) && ProgramAt(v) == Finished(ds[1..], u)
    ensures ProgramAt(s) == Finished(ds, u)
  {
    hide TopAt, Onward;
    assert ds == [ds[0]] + ds[1..];
  }

  // Whole files

  function Primitives(): map<string, Sym> {
    map k | k in PRIMITIVES :: TypeSym(k, true)
  }

  /** What a program may use before it declares anything. */
  const AT_START: Names := Names(PRIMITIVES, Primitives(), {}, {}, {}, map[])

  lemma {:induction false} StartSees()
    ensures Sees([Scope(0, Primitives(), {}, {})], 0, AT_START)
  {
    var g := Scope(0, Primitives(), {}, {});
    forall n | n in PRIMITIVES
      ensures '(' !in n
    {
    }
    assert GlobalSees(g, AT_START);
    ViewGlobal([g], AT_START);
  }

  /** A file is read as exactly the program it was written from. */
  lemma {:induction false} ProgramRoundTrip(ds: seq<DeclTree>) returns (u: State)
    requires ShapedProgram(ds, AT_START)
    ensures ProgramAt(State(RenderProgram(ds) + [Tok(EofTok)], 0, [Scope(0, Primitives(), {}, {})], 0)) == Finished(ds, u)
    ensures u.pos == |RenderProgram(ds)|
  {
    hide Sees, ShapedProgram, RenderProgram, ProgramAt, Onward, AfterAll, Primitives;
    StartSees();
    var ts := RenderProgram(ds);
    var s := State(ts + [Tok(EofTok)], 0, [Scope(0, Primitives(), {}, {})], 0);
    assert s.tokens[0..0 + |ts|] == ts;
    u := ProgramParses(ds, s, AT_START);
  }

  /** Different programs are different files. */
  lemma {:induction false} ProgramsDiffer(a: seq<DeclTree>, b: seq<DeclTree>)
    requires ShapedProgram(a, AT_START) && ShapedProgram(b, AT_START) && RenderProgram(a) == RenderProgram(b)
    ensures a == b
  {
    hide ShapedProgram, RenderProgram, ProgramAt, Onward, Primitives;
    var u := ProgramRoundTrip(a);
    var v := ProgramRoundTrip(b);
  }
}
