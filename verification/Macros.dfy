/** What preprocessing writes. */
module Macros {
  import opened Options
  import opened Tokens
  import opened PreprocessorModel

  // A program as a list of events: files laid out in place of their includes, macros not yet replaced

  datatype Event = Def(name: string, body: seq<PToken>) | Use(token: PToken) | Bad

  /** The tokens from `k` on that stand on `row`. */
  function RowFrom(raw: seq<PToken>, k: nat, row: nat): (r: seq<PToken>)
    ensures k <= |raw| ==> k + |r| <= |raw| && raw[k..k + |r|] == r
    ensures forall t :: t in r ==> t.row == row && t.kind != EofTok
    ensures k + |r| < |raw| ==> raw[k + |r|].row != row || raw[k + |r|].kind == EofTok
    decreases |raw| - k
  {
    if k < |raw| && raw[k].kind != EofTok && raw[k].row == row then
      var rest := RowFrom(raw, k + 1, row);
      assert raw[k..k + 1 + |rest|] == [raw[k]] + raw[k + 1..k + 1 + |rest|];
      [raw[k]] + rest
    else []
  }

  predicate KindOf(raw: seq<PToken>, k: nat, kind: Kind) {
    k < |raw| && raw[k].kind == kind
  }

  predicate Written(raw: seq<PToken>, i: nat, name: string) {
    KindOf(raw, i, Hash) && KindOf(raw, i + 1, Identifier) && raw[i + 1].text == name
  }

  /** What one directive or token is, and where the next one starts; an include of a file is left open. */
  datatype Item = One(events: seq<Event>, next: nat) | Open(id: nat, next: nat)

  function ItemAt(ld: Loader, raw: seq<PToken>, i: nat, whole: bool): (r: Item)
    requires i < |raw|
    ensures r.next > i
  {
    if raw[i].kind != Hash then One(if raw[i].kind == EofTok && !whole then [] else [Use(raw[i])], i + 1)
    else if Written(raw, i, "define") then
      if !KindOf(raw, i + 2, Identifier) then One([Bad], i + 3)
      else
        var body := RowFrom(raw, i + 3, raw[i].row);
        One([Def(raw[i + 2].text, body)], i + 3 + |body|)
    else if Written(raw, i, "include") then
      if !KindOf(raw, i + 2, StringLiteral) then One([Bad], i + 3)
      else
        match ld.resolve(raw[i + 2].text, raw[i].file)
        case None => One([Bad], i + 3)
        case Some(id) => Open(id, i + 2 + |RowFrom(raw, i + 2, raw[i].row)|)
    else One([Bad], i + 1)
  }

  datatype Layout = Layout(events: seq<Event>, included: set<nat>)

  /** The events of a file from `i` on; an included file's end-of-file token is none. */
  function Events(ld: Loader, included: set<nat>, raw: seq<PToken>, i: nat, whole: bool): (r: Layout)
    ensures included <= r.included
    decreases |ld.files.Keys - included|, |raw| - i
  {
    if i >= |raw| then Layout([], included)
    else
      match ItemAt(ld, raw, i, whole)
      case One(es, n) =>
        var rest := Events(ld, included, raw, n, whole);
        Layout(es + rest.events, rest.included)
      case Open(id, n) =>
        if id == 0 || id !in ld.files || id in included then Events(ld, included, raw, n, whole)
        else
          Shrinks(ld.files.Keys, included, included + {id}, id);
          var inner := Events(ld, included + {id}, ld.files[id], 0, false);
          Shrinks(ld.files.Keys, included, inner.included, id);
          var rest := Events(ld, inner.included, raw, n, whole);
          Layout(inner.events + rest.events, rest.included)
  }

  // What the events write

  /** The body of the last definition of a name before position `k`, looking back. */
  function LastDef(es: seq<Event>, k: nat, name: string): Option<seq<PToken>>
    requires k <= |es|
  {
    if k == 0 then None
    else if es[k - 1].Def? && es[k - 1].name == name then Some(es[k - 1].body)
    else LastDef(es, k - 1, name)
  }

  /** A use of a defined name is replaced by the body of its last definition; other tokens stand as they are. */
  function Piece(es: seq<Event>, macros: map<string, seq<PToken>>, k: nat): seq<PToken>
    requires k < |es|
  {
    if !es[k].Use? then []
    else
      var t := es[k].token;
      if t.kind != Identifier then [t]
      else
        match LastDef(es, k, t.text)
        case Some(body) => body
        case None => if t.text in macros then macros[t.text] else [t]
  }

  /** The first `n` events, written one after another. */
  function Text(es: seq<Event>, macros: map<string, seq<PToken>>, n: nat): seq<PToken>
    requires n <= |es|
  {
    if n == 0 then [] else Text(es, macros, n - 1) + Piece(es, macros, n - 1)
  }

  function Learn(macros: map<string, seq<PToken>>, e: Event): map<string, seq<PToken>> {
    if e.Def? then macros[e.name := e.body] else macros
  }

  function LearnAll(macros: map<string, seq<PToken>>, es: seq<Event>): map<string, seq<PToken>>
    decreases |es|
  {
    if es == [] then macros else LearnAll(Learn(macros, es[0]), es[1..])
  }

  // Putting event lists together

  lemma {:induction false} LastDefCons(e: Event, es: seq<Event>, k: nat, name: string)
    requires k <= |es|
    ensures LastDef([e] + es, k + 1, name) ==
      if LastDef(es, k, name).Some? then LastDef(es, k, name) else if e.Def? && e.name == name then Some(e.body) else None
  {
    if k > 0 {
      LastDefCons(e, es, k - 1, name);
    } else {
      assert LastDef([e] + es, 0, name) == None;
    }
  }

  lemma PieceFirst(e: Event, es: seq<Event>, macros: map<string, seq<PToken>>)
    ensures Piece([e] + es, macros, 0) == Piece([e], macros, 0)
  {
  }

  lemma {:induction false} PieceCons(e: Event, es: seq<Event>, macros: map<string, seq<PToken>>, k: nat)
    requires k < |es|
    ensures Piece([e] + es, macros, k + 1) == Piece(es, Learn(macros, e), k)
  {
    hide LastDef;
    if es[k].Use? {
      LastDefCons(e, es, k, es[k].token.text);
    }
  }

  lemma {:induction false} TextStep(es: seq<Event>, macros: map<string, seq<PToken>>, n: nat)
    requires n < |es|
    ensures Text(es, macros, n + 1) == Text(es, macros, n) + Piece(es, macros, n)
    ensures n == 0 ==> Text(es, macros, n) == []
  {
    hide Piece;
  }

  lemma {:induction false} TextCons(e: Event, es: seq<Event>, macros: map<string, seq<PToken>>, n: nat)
    requires n <= |es|
    ensures Text([e] + es, macros, n + 1) == Piece([e], macros, 0) + Text(es, Learn(macros, e), n)
  {
    hide Text, Piece, Learn;
    TextStep([e] + es, macros, n);
    if n == 0 {
      PieceFirst(e, es, macros);
      TextEmpty(es, Learn(macros, e));
    } else {
      TextCons(e, es, macros, n - 1);
      PieceCons(e, es, macros, n - 1);
      TextStep(es, Learn(macros, e), n - 1);
    }
  }

  lemma {:induction false} TextEmpty(es: seq<Event>, macros: map<string, seq<PToken>>)
    ensures Text(es, macros, 0) == []
  {
  }

  function Whole(es: seq<Event>, macros: map<string, seq<PToken>>): seq<PToken> {
    Text(es, macros, |es|)
  }

  lemma {:induction false} TextConcat(es: seq<Event>, fs: seq<Event>, macros: map<string, seq<PToken>>)
    ensures Whole(es + fs, macros) == Whole(es, macros) + Whole(fs, LearnAll(macros, es))
    ensures LearnAll(macros, es + fs) == LearnAll(LearnAll(macros, es), fs)
    decreases |es|
  {
    hide Piece, Text;
    if es == [] {
      assert es + fs == fs;
      TextNone(macros);
    } else {
      var e, rest := es[0], es[1..];
      assert es == [e] + rest && es + fs == [e] + (rest + fs);
      TextConcat(rest, fs, Learn(macros, e));
      TextCons(e, rest + fs, macros, |rest + fs|);
      TextCons(e, rest, macros, |rest|);
    }
  }

  lemma TextNone(macros: map<string, seq<PToken>>)
    ensures Whole([], macros) == []
  {
  }

  lemma {:induction false} TextOne(e: Event, macros: map<string, seq<PToken>>)
    ensures Whole([e], macros) == Piece([e], macros, 0) && LearnAll(macros, [e]) == Learn(macros, e)
  {
    assert Text([e], macros, 0) == [];
    assert [e][1..] == [];
  }

  // The preprocessor, item by item

  lemma {:induction false} RowEnds(raw: seq<PToken>, k: nat, row: nat)
    requires k <= |raw|
    ensures LineEnd(raw, k, row) == k + |RowFrom(raw, k, row)|
    decreases |raw| - k
  {
    if k < |raw| {
      RowEnds(raw, k + 1, row);
    }
  }

  lemma SameDirective(raw: seq<PToken>, i: nat, name: string)
    ensures IsDirective(raw, i, name) <==> Written(raw, i, name)
  {
  }

  lemma ItemNext(ld: Loader, raw: seq<PToken>, i: nat, whole: bool)
    requires i < |raw|
    ensures ItemAt(ld, raw, i, whole).next == NextPos(ld, raw, i)
  {
    hide LineEnd, RowFrom, IsDirective, Written;
    SameDirective(raw, i, "define");
    SameDirective(raw, i, "include");
    OneDirective(raw, i);
    WrittenParts(raw, i);
    if i + 2 <= |raw| {
      RowEnds(raw, i + 2, raw[i].row);
    }
    if i + 3 <= |raw| {
      RowEnds(raw, i + 3, raw[i].row);
    }
  }

  lemma WrittenParts(raw: seq<PToken>, i: nat)
    ensures Written(raw, i, "define") || Written(raw, i, "include") ==> i + 2 <= |raw| && raw[i].kind == Hash
    ensures !(Written(raw, i, "define") && Written(raw, i, "include"))
  {
    assert "define"[0] != "include"[0];
  }

  function Taken(st: PState, e: Event): PState {
    match e
    case Def(name, body) => st.(macros := st.macros[name := body])
    case Use(_) => st
    case Bad => Report(st)
  }

  /** One token or directive that splices nothing in. */
  lemma {:induction false} ProcessItem(ld: Loader, st: PState, raw: seq<PToken>, i: nat, e: Event)
    requires i < |raw| && ItemAt(ld, raw, i, true).One? && ItemAt(ld, raw, i, true).events == [e]
    ensures Process(ld, st, raw, i) == After(Piece([e], st.macros, 0), Process(ld, Taken(st, e), raw, ItemAt(ld, raw, i, true).next))
  {
    hide Process, LineEnd, RowFrom, IsDirective, Written;
    assert ItemAt(ld, raw, i, true).events[0] == e;
    SameDirective(raw, i, "define");
    SameDirective(raw, i, "include");
    OneDirective(raw, i);
    WrittenParts(raw, i);
    var n := ItemAt(ld, raw, i, true).next;
    AfterNothing(Process(ld, Taken(st, e), raw, n));
    if raw[i].kind != Hash {
      ProcessPlain(ld, st, raw, i);
      assert LastDef([e], 0, raw[i].text) == None;
    } else if Written(raw, i, "define") {
      ProcessDefine(ld, st, raw, i);
      if KindOf(raw, i + 2, Identifier) {
        RowEnds(raw, i + 3, raw[i].row);
        BodyIsRow(raw, i + 3, raw[i].row);
      }
    } else if Written(raw, i, "include") {
      ProcessInclude(ld, st, raw, i);
    } else {
      ProcessHash(ld, st, raw, i);
    }
  }

  lemma {:induction false} BodyIsRow(raw: seq<PToken>, k: nat, row: nat)
    requires k <= |raw|
    ensures var r := RowFrom(raw, k, row); k + |r| <= |raw| && raw[k..k + |r|] == r
  {
  }

  /** An include that names a file. */
  lemma {:induction false} ProcessOpen(ld: Loader, st: PState, raw: seq<PToken>, i: nat)
    requires i < |raw| && ItemAt(ld, raw, i, true).Open?
    ensures var it := ItemAt(ld, raw, i, true);
      Process(ld, st, raw, i) ==
        if it.id == 0 || it.id !in ld.files || it.id in st.included then Process(ld, st, raw, it.next)
        else Splice(ld, st, raw, i, it.id, it.next)
  {
    hide Process, Splice, LineEnd, RowFrom, IsDirective, Written;
    SameDirective(raw, i, "define");
    SameDirective(raw, i, "include");
    WrittenParts(raw, i);
    ProcessInclude(ld, st, raw, i);
    RowEnds(raw, i + 2, raw[i].row);
  }

  // The end of an included file

  /** Left out of an included file is its end-of-file token, when reading comes to it. */
  lemma {:induction false} InnerEvents(ld: Loader, included: set<nat>, raw: seq<PToken>, i: nat)
    requires Ended(raw)
    ensures var a, b := Events(ld, included, raw, i, true), Events(ld, included, raw, i, false);
      && a.included == b.included
      && a.events == b.events + (if i >= |raw| || CutOff(ld, raw, i) then [] else [Use(raw[|raw| - 1])])
    decreases |ld.files.Keys - included|, |raw| - i
  {
    hide NextPos, AtCut, RowFrom, Written;
    if i < |raw| {
      var x, y := ItemAt(ld, raw, i, true), ItemAt(ld, raw, i, false);
      var n := x.next;
      ItemNext(ld, raw, i, true);
      ItemNext(ld, raw, i, false);
      if i + 1 < |raw| {
        NextInside(ld, raw, i);
      }
      SameItem(ld, raw, i);
      if x.One? {
        InnerEvents(ld, included, raw, n);
      } else if x.id == 0 || x.id !in ld.files || x.id in included {
        InnerEvents(ld, included, raw, n);
      } else {
        Shrinks(ld.files.Keys, included, included + {x.id}, x.id);
        var inner := Events(ld, included + {x.id}, ld.files[x.id], 0, false);
        Shrinks(ld.files.Keys, included, inner.included, x.id);
        InnerEvents(ld, inner.included, raw, n);
      }
    }
  }

  lemma {:induction false} SameItem(ld: Loader, raw: seq<PToken>, i: nat)
    requires i < |raw| && Ended(raw)
    ensures i + 1 < |raw| ==> ItemAt(ld, raw, i, true) == ItemAt(ld, raw, i, false)
    ensures i + 1 == |raw| ==> ItemAt(ld, raw, i, true) == One([Use(raw[i])], |raw|) && ItemAt(ld, raw, i, false) == One([], |raw|)
    ensures i + 1 == |raw| ==> !CutOff(ld, raw, i)
  {
    hide RowFrom;
  }

  // The law

  /** `r` is what the events of `l` come to, starting from `st`. */
  predicate ComesTo(st: PState, l: Layout, r: Result) {
    && r.out == Whole(l.events, st.macros)
    && r.st.macros == LearnAll(st.macros, l.events)
    && r.st.included == l.included
    && (r.st.reported <==> st.reported || Bad in l.events)
  }

  lemma {:induction false} ComesOne(st: PState, e: Event, l: Layout, r: Result)
    requires ComesTo(Taken(st, e), l, r)
    ensures ComesTo(st, Layout([e] + l.events, l.included), After(Piece([e], st.macros, 0), r))
  {
    hide Piece, Whole, LearnAll;
    TextConcat([e], l.events, st.macros);
    TextOne(e, st.macros);
    assert Bad in [e] + l.events <==> e == Bad || Bad in l.events;
  }

  lemma {:induction false} ComesThen(st: PState, a: Layout, r: Result, b: Layout, q: Result)
    requires ComesTo(st, a, r) && ComesTo(r.st, b, q)
    ensures ComesTo(st, Layout(a.events + b.events, b.included), After(r.out, q))
  {
    hide Whole, LearnAll;
    TextConcat(a.events, b.events, st.macros);
  }

  /** The part of an included file that stays. */
  lemma {:induction false} ComesInner(ld: Loader, st: PState, raw: seq<PToken>)
    requires FilesEnded(ld) && MacrosClean(st.macros) && Ended(raw)
    requires ComesTo(st, Events(ld, st.included, raw, 0, true), Process(ld, st, raw, 0))
    ensures var p := Process(ld, st, raw, 0);
      ComesTo(st, Events(ld, st.included, raw, 0, false), Result(DropEof(p.out), p.st))
  {
    hide Process, Events, CutOff, Whole, LearnAll;
    var a, b := Events(ld, st.included, raw, 0, true), Events(ld, st.included, raw, 0, false);
    InnerEvents(ld, st.included, raw, 0);
    EndOfFileExact(ld, st, raw, 0);
    if CutOff(ld, raw, 0) {
      assert a.events == b.events;
    } else {
      var e := Use(raw[|raw| - 1]);
      TextConcat(b.events, [e], st.macros);
      TextOne(e, LearnAll(st.macros, b.events));
      assert Whole(a.events, st.macros) == Whole(b.events, st.macros) + [e.token];
    }
  }

  /**
    The output of preprocessing: the tokens outside directives in order, included files in place of
    their includes and without their end, each use of a defined name replaced by the tokens after the
    name in its last definition before the use. It is reported exactly when a directive is bad.
   */
  lemma {:induction false} OutputLaw(ld: Loader, st: PState, raw: seq<PToken>, i: nat)
    requires FilesEnded(ld) && MacrosClean(st.macros) && Ended(raw)
    ensures ComesTo(st, Events(ld, st.included, raw, i, true), Process(ld, st, raw, i))
    decreases |ld.files.Keys - st.included|, |raw| - i, 1
  {
    hide Process, ComesTo, MacrosClean, Ended;
    if i >= |raw| {
      ProcessEnd(ld, st, raw, i);
      ComesNone(st);
    } else {
      var it := ItemAt(ld, raw, i, true);
      if it.One? {
        var e := it.events[0];
        assert it.events == [e];
        ProcessItem(ld, st, raw, i, e);
        TakenClean(ld, st, raw, i, e);
        OutputLaw(ld, Taken(st, e), raw, it.next);
        ComesOne(st, e, Events(ld, st.included, raw, it.next, true), Process(ld, Taken(st, e), raw, it.next));
      } else {
        ProcessOpen(ld, st, raw, i);
        if it.id == 0 || it.id !in ld.files || it.id in st.included {
          OutputLaw(ld, st, raw, it.next);
        } else {
          SpliceLaw(ld, st, raw, i, it.id, it.next);
        }
      }
    }
  }

  lemma ComesNone(st: PState)
    ensures ComesTo(st, Layout([], st.included), Result([], st))
  {
  }

  lemma {:induction false} TakenClean(ld: Loader, st: PState, raw: seq<PToken>, i: nat, e: Event)
    requires MacrosClean(st.macros) && i < |raw| && ItemAt(ld, raw, i, true).One? && ItemAt(ld, raw, i, true).events == [e]
    ensures MacrosClean(Taken(st, e).macros) && Taken(st, e).included == st.included
  {
    hide Written;
    assert ItemAt(ld, raw, i, true).events[0] == e;
  }

  lemma {:induction false} SpliceLaw(ld: Loader, st: PState, raw: seq<PToken>, i: nat, id: nat, n: nat)
    requires FilesEnded(ld) && MacrosClean(st.macros) && Ended(raw) && i < n && i < |raw| && id in ld.files && id !in st.included
    ensures var inner := Events(ld, st.included + {id}, ld.files[id], 0, false);
      var rest := Events(ld, inner.included, raw, n, true);
      ComesTo(st, Layout(inner.events + rest.events, rest.included), Splice(ld, st, raw, i, id, n))
    decreases |ld.files.Keys - st.included|, |raw| - i, 0
  {
    hide Process, Events, Splice, ComesTo, MacrosClean, Ended, DropEof;
    SpliceIs(ld, st, raw, i, id, n);
    Shrinks(ld.files.Keys, st.included, Enter(st, id).included, id);
    OutputLaw(ld, Enter(st, id), ld.files[id], 0);
    ComesInner(ld, Enter(st, id), ld.files[id]);
    var p := Process(ld, Enter(st, id), ld.files[id], 0);
    var inner := Events(ld, st.included + {id}, ld.files[id], 0, false);
    InnerIncluded(st, id, inner, Result(DropEof(p.out), p.st));
    Shrinks(ld.files.Keys, st.included, p.st.included, id);
    EndedNonEmpty(ld.files[id]);
    EndOfFileExact(ld, Enter(st, id), ld.files[id], 0);
    OutputLaw(ld, p.st, raw, n);
    ComesThen(st, inner, Result(DropEof(p.out), p.st), Events(ld, p.st.included, raw, n, true), Process(ld, p.st, raw, n));
  }

  /** Entering a file changes only which files have been entered. */
  lemma InnerIncluded(st: PState, id: nat, l: Layout, r: Result)
    requires ComesTo(Enter(st, id), l, r)
    ensures ComesTo(st, l, r) && r.st.included == l.included
  {
  }

  /** `#define N 5` on one row, then `N` on another: `5`. */
  lemma {:induction false} SmallestMacro(ld: Loader)
    ensures var n, five := PToken(Identifier, "N", 1, 1), PToken(IntLiteral, "5", 1, 1);
      var raw := [PToken(Hash, "#", 1, 1), PToken(Identifier, "define", 1, 1), n, five, n.(row := 2), PToken(EofTok, "", 2, 1)];
      Events(ld, {}, raw, 0, true).events == [Def("N", [five]), Use(n.(row := 2)), Use(raw[5])]
  {
    var n, five := PToken(Identifier, "N", 1, 1), PToken(IntLiteral, "5", 1, 1);
    var raw := [PToken(Hash, "#", 1, 1), PToken(Identifier, "define", 1, 1), n, five, n.(row := 2), PToken(EofTok, "", 2, 1)];
    assert RowFrom(raw, 4, 1) == [];
    assert RowFrom(raw, 3, 1) == [five];
    assert Events(ld, {}, raw, 6, true).events == [];
    assert Events(ld, {}, raw, 5, true).events == [Use(raw[5])];
    assert Events(ld, {}, raw, 4, true).events == [Use(raw[4]), Use(raw[5])];
  }
}
