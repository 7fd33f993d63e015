/** Macros and include-once. */
module PreprocessorModel {
  import opened Options
  import opened Tokens

  /** A token with the row and file it came from. */
  datatype PToken = PToken(kind: Kind, text: string, row: nat, file: nat)

  /** The tokens of every file, by number, and where an include leads: nowhere, or to a file (0 if it cannot be read). */
  datatype Loader = Loader(files: map<nat, seq<PToken>>, resolve: (string, nat) -> Option<nat>)

  /** `order` lists the files spliced in so far, in the order they were entered. */
  datatype PState = PState(macros: map<string, seq<PToken>>, included: set<nat>, order: seq<nat>, reported: bool)

  datatype Result = Result(out: seq<PToken>, st: PState)

  predicate IsDirective(raw: seq<PToken>, i: nat, name: string) {
    i + 1 < |raw| && raw[i].kind == Hash && raw[i + 1].kind == Identifier && raw[i + 1].text == name
  }

  /** First position from `i` on that is at the end of the file or on another row. */
  function LineEnd(raw: seq<PToken>, i: nat, row: nat): (e: nat)
    requires i <= |raw|
    ensures i <= e <= |raw| && (forall k :: i <= k < e ==> raw[k].kind != EofTok) && (e < |raw| ==> raw[e].kind == EofTok || raw[e].row != row)
    decreases |raw| - i
  {
    if i < |raw| && raw[i].kind != EofTok && raw[i].row == row then LineEnd(raw, i + 1, row) else i
  }

  function Report(st: PState): PState {
    st.(reported := true)
  }

  /** State after a `#define` at `i`, and where reading goes on. */
  function Define(st: PState, raw: seq<PToken>, i: nat): (r: (PState, nat))
    requires IsDirective(raw, i, "define")
    ensures r.1 > i && r.0.included == st.included && r.0.order == st.order && (st.reported ==> r.0.reported)
  {
    var j := i + 2;
    if j >= |raw| || raw[j].kind != Identifier then (Report(st), j + 1)
    else
      var e := LineEnd(raw, j + 1, raw[i].row);
      (st.(macros := st.macros[raw[j].text := raw[j + 1..e]]), e)
  }

  /** The file an `#include` at `i` splices in, if it has not been spliced in before. */
  function Splices(ld: Loader, st: PState, raw: seq<PToken>, i: nat): Option<nat>
    requires i + 2 < |raw|
  {
    match ld.resolve(raw[i + 2].text, raw[i].file)
    case Some(id) => if id != 0 && id in ld.files && id !in st.included then Some(id) else None
    case None => None
  }

  function DropEof(ts: seq<PToken>): seq<PToken> {
    if |ts| > 0 && ts[|ts| - 1].kind == EofTok then ts[..|ts| - 1] else ts
  }

  function Enter(st: PState, id: nat): PState {
    st.(included := st.included + {id}, order := st.order + [id])
  }

  lemma Shrinks(k: set<nat>, a: set<nat>, b: set<nat>, x: nat)
    requires a <= b
    ensures |k - b| <= |k - a|
    ensures x in k && x in b && x !in a ==> |k - b| < |k - a|
  {
    var s, t := k - b, k - a;
    SubsetSize(s, t);
    if x in k && x in b && x !in a {
      SubsetSize(s + {x}, t);
    }
  }

  lemma SubsetSize(s: set<nat>, t: set<nat>)
    requires s <= t
    ensures |s| <= |t|
  {
    if s != {} {
      var x :| x in s;
      SubsetSize(s - {x}, t - {x});
    }
  }

  /** An `#include` that names no file that can be found. */
  predicate BadInclude(ld: Loader, raw: seq<PToken>, i: nat)
    requires i < |raw|
  {
    i + 2 >= |raw| || raw[i + 2].kind != StringLiteral || ld.resolve(raw[i + 2].text, raw[i].file).None?
  }

  /** What a token that starts no directive becomes. */
  function Expansion(st: PState, t: PToken): seq<PToken> {
    if t.kind == Identifier && t.text in st.macros then st.macros[t.text] else [t]
  }

  /** The rest of a result when `out` has been produced already. */
  function After(out: seq<PToken>, r: Result): Result {
    Result(out + r.out, r.st)
  }

  /** Everything from position `i` of a file on. */
  function Process(ld: Loader, st: PState, raw: seq<PToken>, i: nat): (r: Result)
    ensures st.included <= r.st.included
    decreases |ld.files.Keys - st.included|, |raw| - i, 2
  {
    if i >= |raw| then Result([], st)
    else if IsDirective(raw, i, "define") then
      var d := Define(st, raw, i);
      Process(ld, d.0, raw, d.1)
    else if IsDirective(raw, i, "include") then Include(ld, st, raw, i)
    else if raw[i].kind == Hash then Process(ld, Report(st), raw, i + 1)
    else After(Expansion(st, raw[i]), Process(ld, st, raw, i + 1))
  }

  /** An `#include` at `i` and everything after it. */
  function Include(ld: Loader, st: PState, raw: seq<PToken>, i: nat): (r: Result)
    requires i < |raw|
    ensures st.included <= r.st.included
    decreases |ld.files.Keys - st.included|, |raw| - i, 1
  {
    if BadInclude(ld, raw, i) then Process(ld, Report(st), raw, i + 3)
    else
      var e := LineEnd(raw, i + 2, raw[i].row);
      var id := Splices(ld, st, raw, i);
      if id.None? then Process(ld, st, raw, e) else Splice(ld, st, raw, i, id.value, e)
  }

  /** The included file first, without its end-of-file token, then the rest of this one from `e`. */
  function Splice(ld: Loader, st: PState, raw: seq<PToken>, i: nat, id: nat, e: nat): (r: Result)
    requires i < e && i < |raw| && id in ld.files && id !in st.included
    ensures st.included <= r.st.included
    decreases |ld.files.Keys - st.included|, |raw| - i, 0
  {
    Shrinks(ld.files.Keys, st.included, Enter(st, id).included, id);
    var inner := Process(ld, Enter(st, id), ld.files[id], 0);
    Shrinks(ld.files.Keys, st.included, inner.st.included, id);
    var rest := Process(ld, inner.st, raw, e);
    Result(DropEof(inner.out) + rest.out, rest.st)
  }

  // One step of the expansion

  lemma {:induction false} ProcessEnd(ld: Loader, st: PState, raw: seq<PToken>, i: nat)
    requires i >= |raw|
    ensures Process(ld, st, raw, i) == Result([], st)
  {
    hide Splice, Define, IsDirective;
  }

  lemma ProcessPlain(ld: Loader, st: PState, raw: seq<PToken>, i: nat)
    requires i < |raw| && raw[i].kind != Hash
    ensures Process(ld, st, raw, i) == After(Expansion(st, raw[i]), Process(ld, st, raw, i + 1))
  {
    hide Splice, Define;
  }

  lemma ProcessHash(ld: Loader, st: PState, raw: seq<PToken>, i: nat)
    requires i < |raw| && raw[i].kind == Hash && !IsDirective(raw, i, "define") && !IsDirective(raw, i, "include")
    ensures Process(ld, st, raw, i) == Process(ld, Report(st), raw, i + 1)
  {
    hide Splice, Define, IsDirective;
  }

  lemma {:induction false} ProcessDefine(ld: Loader, st: PState, raw: seq<PToken>, i: nat)
    requires i < |raw| && IsDirective(raw, i, "define")
    ensures Process(ld, st, raw, i) == Process(ld, Define(st, raw, i).0, raw, Define(st, raw, i).1)
  {
    hide Splice, Define, IsDirective;
  }

  lemma ProcessInclude(ld: Loader, st: PState, raw: seq<PToken>, i: nat)
    requires i < |raw| && !IsDirective(raw, i, "define") && IsDirective(raw, i, "include")
    ensures BadInclude(ld, raw, i) ==> Process(ld, st, raw, i) == Process(ld, Report(st), raw, i + 3)
    ensures !BadInclude(ld, raw, i) ==>
      var e := LineEnd(raw, i + 2, raw[i].row);
      var id := Splices(ld, st, raw, i);
      Process(ld, st, raw, i) == if id.None? then Process(ld, st, raw, e) else Splice(ld, st, raw, i, id.value, e)
  {
    hide LineEnd, Splice, Define, IsDirective;
  }

  lemma {:induction false} SpliceIs(ld: Loader, st: PState, raw: seq<PToken>, i: nat, id: nat, e: nat)
    requires i < e && i < |raw| && id in ld.files && id !in st.included
    ensures var inner := Process(ld, Enter(st, id), ld.files[id], 0);
      Splice(ld, st, raw, i, id, e) == After(DropEof(inner.out), Process(ld, inner.st, raw, e))
  {
    hide Process, DropEof;
  }

  lemma OneDirective(raw: seq<PToken>, i: nat)
    requires i < |raw|
    ensures IsDirective(raw, i, "define") ==> !IsDirective(raw, i, "include")
    ensures IsDirective(raw, i, "define") || IsDirective(raw, i, "include") ==> raw[i].kind == Hash
  {
    assert "define"[0] != "include"[0];
  }

  // Each file once

  predicate NoRepeats(s: seq<nat>) {
    forall i, j :: 0 <= i < j < |s| ==> s[i] != s[j]
  }

  predicate Tracked(st: PState) {
    NoRepeats(st.order) && forall i :: 0 <= i < |st.order| ==> st.order[i] in st.included
  }

  lemma EnterTracked(st: PState, id: nat)
    requires Tracked(st) && id !in st.included
    ensures Tracked(Enter(st, id))
  {
  }

  lemma TrackedSame(a: PState, b: PState)
    requires Tracked(a) && b.order == a.order && b.included == a.included
    ensures Tracked(b)
  {
  }

  /** The files entered between two states: exactly those added to the included ones, none of them in it before. */
  predicate Grew(st: PState, r: PState) {
    && st.order <= r.order
    && r.included == st.included + (set k | |st.order| <= k < |r.order| :: r.order[k])
    && forall k :: |st.order| <= k < |r.order| ==> r.order[k] !in st.included
  }

  lemma GrewSame(a: PState, b: PState, r: PState)
    requires b.order == a.order && b.included == a.included && (b == r || Grew(b, r))
    ensures Grew(a, r)
  {
  }

  /** Facts about an include that leads somewhere. */
  lemma IncludePath(ld: Loader, st: PState, raw: seq<PToken>, i: nat)
    requires i < |raw| && !BadInclude(ld, raw, i)
    ensures i + 2 < |raw|
    ensures Splices(ld, st, raw, i).Some? ==> Splices(ld, st, raw, i).value in ld.files && Splices(ld, st, raw, i).value !in st.included
  {
  }

  /** However files include each other, no file is spliced in twice, and none that was included before. */
  lemma {:induction false} EachFileOnce(ld: Loader, st: PState, raw: seq<PToken>, i: nat)
    requires Tracked(st)
    ensures Tracked(Process(ld, st, raw, i).st) && Grew(st, Process(ld, st, raw, i).st)
    decreases |ld.files.Keys - st.included|, |raw| - i, 1
  {
    hide Process, LineEnd, Splice, IsDirective, Define, Splices, BadInclude, Tracked, Grew;
    if i >= |raw| {
      ProcessEnd(ld, st, raw, i);
      GrewSame(st, st, st);
    } else if IsDirective(raw, i, "define") {
      ProcessDefine(ld, st, raw, i);
      var d := Define(st, raw, i);
      TrackedSame(st, d.0);
      EachFileOnce(ld, d.0, raw, d.1);
      GrewSame(st, d.0, Process(ld, d.0, raw, d.1).st);
    } else if IsDirective(raw, i, "include") {
      ProcessInclude(ld, st, raw, i);
      if BadInclude(ld, raw, i) {
        TrackedSame(st, Report(st));
        EachFileOnce(ld, Report(st), raw, i + 3);
        GrewSame(st, Report(st), Process(ld, Report(st), raw, i + 3).st);
      } else {
        IncludePath(ld, st, raw, i);
        var e := LineEnd(raw, i + 2, raw[i].row);
        var id := Splices(ld, st, raw, i);
        if id.None? {
          EachFileOnce(ld, st, raw, e);
        } else {
          SpliceOnce(ld, st, raw, i, id.value, e);
        }
      }
    } else if raw[i].kind == Hash {
      ProcessHash(ld, st, raw, i);
      TrackedSame(st, Report(st));
      EachFileOnce(ld, Report(st), raw, i + 1);
      GrewSame(st, Report(st), Process(ld, Report(st), raw, i + 1).st);
    } else {
      ProcessPlain(ld, st, raw, i);
      EachFileOnce(ld, st, raw, i + 1);
    }
  }

  lemma {:induction false} SpliceOnce(ld: Loader, st: PState, raw: seq<PToken>, i: nat, id: nat, e: nat)
    requires Tracked(st) && i < e && i < |raw| && id in ld.files && id !in st.included
    ensures Tracked(Splice(ld, st, raw, i, id, e).st) && Grew(st, Splice(ld, st, raw, i, id, e).st)
    decreases |ld.files.Keys - st.included|, |raw| - i, 0
  {
    hide Process, Splice, Tracked, Grew, DropEof;
    SpliceIs(ld, st, raw, i, id, e);
    EnterTracked(st, id);
    Shrinks(ld.files.Keys, st.included, Enter(st, id).included, id);
    EachFileOnce(ld, Enter(st, id), ld.files[id], 0);
    var inner := Process(ld, Enter(st, id), ld.files[id], 0).st;
    Shrinks(ld.files.Keys, st.included, inner.included, id);
    EachFileOnce(ld, inner, raw, e);
    var r := Process(ld, inner, raw, e).st;
    OrderGrows(st, id, inner, r);
  }

  lemma OrderGrows(st: PState, id: nat, inner: PState, r: PState)
    requires id !in st.included && Grew(Enter(st, id), inner) && Grew(inner, r)
    ensures Grew(st, r)
  {
    var n := |st.order|;
    assert r.order[n] == Enter(st, id).order[n] == id;
    assert forall k :: 0 <= k < |inner.order| ==> r.order[k] == inner.order[k];
    forall x
      ensures x in r.included <==> x in st.included || x in (set k | n <= k < |r.order| :: r.order[k])
    {
      if x == id {
        assert r.order[n] == x;
      } else if x in inner.included && x !in st.included {
        var k :| n + 1 <= k < |inner.order| && inner.order[k] == x;
        assert r.order[k] == x;
      } else if x in r.included && x !in inner.included {
        var k :| |inner.order| <= k < |r.order| && r.order[k] == x;
      }
    }
  }

  /**
    Files are entered depth first: those an include enters stand together in the order, the
    included file first, then what it includes, before anything the including file includes next.
   */
  lemma {:induction false} DepthFirst(ld: Loader, st: PState, raw: seq<PToken>, i: nat, id: nat, e: nat)
    requires Tracked(st) && i < e && i < |raw| && id in ld.files && id !in st.included
    ensures var inner := Process(ld, Enter(st, id), ld.files[id], 0).st;
      var r := Splice(ld, st, raw, i, id, e).st;
      && st.order + [id] <= inner.order <= r.order
      && inner.included == st.included + {id} + (set k | |st.order| < k < |inner.order| :: inner.order[k])
      && r == Process(ld, inner, raw, e).st
  {
    hide Process, Splice, Tracked, DropEof;
    SpliceIs(ld, st, raw, i, id, e);
    EnterTracked(st, id);
    EachFileOnce(ld, Enter(st, id), ld.files[id], 0);
    var inner := Process(ld, Enter(st, id), ld.files[id], 0).st;
    EachFileOnce(ld, inner, raw, e);
    assert (set k | |st.order| < k < |inner.order| :: inner.order[k]) == (set k | |st.order| + 1 <= k < |inner.order| :: inner.order[k]);
  }

  // One end of file

  /** Exactly one end-of-file token, and it is the last. */
  predicate Ended(ts: seq<PToken>) {
    && |ts| > 0 && ts[|ts| - 1].kind == EofTok
    && forall k :: 0 <= k < |ts| - 1 ==> ts[k].kind != EofTok
  }

  predicate NoEof(ts: seq<PToken>) {
    forall k :: 0 <= k < |ts| ==> ts[k].kind != EofTok
  }

  predicate MacrosClean(macros: map<string, seq<PToken>>) {
    forall m :: m in macros ==> NoEof(macros[m])
  }

  predicate FilesEnded(ld: Loader) {
    forall id :: id in ld.files ==> Ended(ld.files[id])
  }

  lemma EndedConcat(a: seq<PToken>, b: seq<PToken>)
    requires NoEof(a) && Ended(b)
    ensures Ended(a + b)
  {
  }

  lemma NoEofConcat(a: seq<PToken>, b: seq<PToken>)
    requires NoEof(a) && NoEof(b)
    ensures NoEof(a + b)
  {
  }

  lemma DropLeavesNone(a: seq<PToken>)
    requires Ended(a) || NoEof(a)
    ensures NoEof(DropEof(a))
  {
  }

  /** In a file that ends, no line runs past the end-of-file token. */
  lemma {:induction false} LineEndInside(raw: seq<PToken>, i: nat, row: nat)
    requires Ended(raw) && i < |raw|
    ensures LineEnd(raw, i, row) < |raw|
  {
  }

  /** Where reading goes on after position `i`; neither macros nor earlier includes matter. */
  function NextPos(ld: Loader, raw: seq<PToken>, i: nat): (n: nat)
    requires i < |raw|
    ensures n > i
  {
    if IsDirective(raw, i, "define") then
      if i + 2 >= |raw| || raw[i + 2].kind != Identifier then i + 3 else LineEnd(raw, i + 3, raw[i].row)
    else if IsDirective(raw, i, "include") then
      if BadInclude(ld, raw, i) then i + 3 else LineEnd(raw, i + 2, raw[i].row)
    else i + 1
  }

  /** A `#define` or `#include` with nothing but the end of the file after it. */
  predicate AtCut(raw: seq<PToken>, i: nat) {
    i + 3 == |raw| && (IsDirective(raw, i, "define") || IsDirective(raw, i, "include"))
  }

  /** Reading from `i` on comes to such a directive. */
  predicate CutOff(ld: Loader, raw: seq<PToken>, i: nat)
    decreases |raw| - i
  {
    i < |raw| && (AtCut(raw, i) || CutOff(ld, raw, NextPos(ld, raw, i)))
  }

  lemma DefineClean(st: PState, raw: seq<PToken>, i: nat)
    requires MacrosClean(st.macros) && IsDirective(raw, i, "define")
    ensures MacrosClean(Define(st, raw, i).0.macros)
  {
    hide IsDirective;
  }

  lemma DefineNext(ld: Loader, st: PState, raw: seq<PToken>, i: nat)
    requires IsDirective(raw, i, "define")
    ensures Define(st, raw, i).1 == NextPos(ld, raw, i)
  {
    hide LineEnd;
  }

  lemma {:induction false} IncludeNext(ld: Loader, raw: seq<PToken>, i: nat)
    requires i < |raw| && !IsDirective(raw, i, "define") && IsDirective(raw, i, "include")
    ensures NextPos(ld, raw, i) == if BadInclude(ld, raw, i) then i + 3 else LineEnd(raw, i + 2, raw[i].row)
  {
  }

  /** Only a cut-off directive reads past the end-of-file token. */
  lemma NextInside(ld: Loader, raw: seq<PToken>, i: nat)
    requires Ended(raw) && i + 1 < |raw|
    ensures NextPos(ld, raw, i) < |raw| <==> !AtCut(raw, i)
    ensures AtCut(raw, i) ==> NextPos(ld, raw, i) == |raw|
  {
    if IsDirective(raw, i, "define") && i + 2 < |raw| && raw[i + 2].kind == Identifier {
      LineEndInside(raw, i + 3, raw[i].row);
    }
    if IsDirective(raw, i, "include") && !BadInclude(ld, raw, i) {
      LineEndInside(raw, i + 2, raw[i].row);
    }
  }

  lemma PlainEnded(st: PState, raw: seq<PToken>, i: nat)
    requires MacrosClean(st.macros) && Ended(raw) && i < |raw|
    ensures i + 1 < |raw| ==> NoEof(Expansion(st, raw[i]))
    ensures i + 1 == |raw| ==> Expansion(st, raw[i]) == [raw[i]] && Ended([raw[i]])
  {
  }

  lemma {:induction false} ReportStays(ld: Loader, st: PState, raw: seq<PToken>, i: nat)
    requires st.reported
    ensures Process(ld, st, raw, i).st.reported
    decreases |ld.files.Keys - st.included|, |raw| - i, 1
  {
    hide Process, LineEnd, Splice, IsDirective, Define, Splices, BadInclude;
    if i >= |raw| {
      ProcessEnd(ld, st, raw, i);
    } else if IsDirective(raw, i, "define") {
      ProcessDefine(ld, st, raw, i);
      var d := Define(st, raw, i);
      ReportStays(ld, d.0, raw, d.1);
    } else if IsDirective(raw, i, "include") {
      ProcessInclude(ld, st, raw, i);
      if BadInclude(ld, raw, i) {
        ReportStays(ld, Report(st), raw, i + 3);
      } else {
        IncludePath(ld, st, raw, i);
        var e := LineEnd(raw, i + 2, raw[i].row);
        var id := Splices(ld, st, raw, i);
        if id.None? {
          ReportStays(ld, st, raw, e);
        } else {
          SpliceReported(ld, st, raw, i, id.value, e);
        }
      }
    } else if raw[i].kind == Hash {
      ProcessHash(ld, st, raw, i);
      ReportStays(ld, Report(st), raw, i + 1);
    } else {
      ProcessPlain(ld, st, raw, i);
      ReportStays(ld, st, raw, i + 1);
    }
  }

  lemma {:induction false} SpliceReported(ld: Loader, st: PState, raw: seq<PToken>, i: nat, id: nat, e: nat)
    requires st.reported && i < e && i < |raw| && id in ld.files && id !in st.included
    ensures Splice(ld, st, raw, i, id, e).st.reported
    decreases |ld.files.Keys - st.included|, |raw| - i, 0
  {
    hide Process, Splice;
    SpliceIs(ld, st, raw, i, id, e);
    Shrinks(ld.files.Keys, st.included, Enter(st, id).included, id);
    ReportStays(ld, Enter(st, id), ld.files[id], 0);
    var inner := Process(ld, Enter(st, id), ld.files[id], 0);
    Shrinks(ld.files.Keys, st.included, inner.st.included, id);
    ReportStays(ld, inner.st, raw, e);
  }

  /** What the output `out` of the rest from `i` on must be. */
  predicate EndsAs(ld: Loader, raw: seq<PToken>, i: nat, out: seq<PToken>) {
    if CutOff(ld, raw, i) then NoEof(out) else Ended(out)
  }

  lemma {:induction false} EndsNext(ld: Loader, raw: seq<PToken>, i: nat, ts: seq<PToken>, out: seq<PToken>)
    requires Ended(raw) && i + 1 < |raw| && !AtCut(raw, i) && NoEof(ts) && EndsAs(ld, raw, NextPos(ld, raw, i), out)
    ensures EndsAs(ld, raw, i, ts + out)
  {
    hide NextPos, AtCut;
    if CutOff(ld, raw, i) {
      NoEofConcat(ts, out);
    } else {
      EndedConcat(ts, out);
    }
  }

  /**
    Whatever is reported: the output has exactly one end-of-file token, at its end, unless reading
    comes to a `#define` or `#include` cut off by the end of the file; then it has none.
   */
  lemma {:induction false} EndOfFileExact(ld: Loader, st: PState, raw: seq<PToken>, i: nat)
    requires FilesEnded(ld) && MacrosClean(st.macros) && Ended(raw) && i < |raw|
    ensures if CutOff(ld, raw, i) then NoEof(Process(ld, st, raw, i).out) else Ended(Process(ld, st, raw, i).out)
    ensures MacrosClean(Process(ld, st, raw, i).st.macros)
    decreases |ld.files.Keys - st.included|, |raw| - i, 2
  {
    hide Process, IsDirective, MacrosClean, Ended, NoEof, AtCut, NextPos;
    LastIsEof(ld, raw, i);
    if i + 1 == |raw| {
      ProcessPlain(ld, st, raw, i);
      PlainEnded(st, raw, i);
      ProcessEnd(ld, st, raw, i + 1);
      assert [raw[i]] + [] == [raw[i]];
    } else if AtCut(raw, i) {
      CutEnds(ld, st, raw, i);
      NoneInEmpty();
    } else {
      NextInside(ld, raw, i);
      StepEnds(ld, st, raw, i);
    }
  }

  lemma {:induction false} LastIsEof(ld: Loader, raw: seq<PToken>, i: nat)
    requires Ended(raw) && i < |raw|
    ensures i + 1 == |raw| ==> raw[i].kind == EofTok && !CutOff(ld, raw, i)
  {
  }

  lemma NoneInEmpty()
    ensures NoEof([])
  {
  }

  lemma {:induction false} CutEnds(ld: Loader, st: PState, raw: seq<PToken>, i: nat)
    requires Ended(raw) && i < |raw| && AtCut(raw, i)
    ensures Process(ld, st, raw, i) == Result([], Report(st))
  {
    hide Process;
    OneDirective(raw, i);
    if IsDirective(raw, i, "define") {
      ProcessDefine(ld, st, raw, i);
    } else {
      ProcessInclude(ld, st, raw, i);
    }
    ProcessEnd(ld, Report(st), raw, i + 3);
  }

  /** One step that stays inside the file, and the rest. */
  lemma {:induction false} StepEnds(ld: Loader, st: PState, raw: seq<PToken>, i: nat)
    requires FilesEnded(ld) && MacrosClean(st.macros) && Ended(raw) && i + 1 < |raw| && !AtCut(raw, i)
    requires i < NextPos(ld, raw, i) < |raw|
    ensures EndsAs(ld, raw, i, Process(ld, st, raw, i).out) && MacrosClean(Process(ld, st, raw, i).st.macros)
    decreases |ld.files.Keys - st.included|, |raw| - i, 1
  {
    hide Process, LineEnd, Splice, IsDirective, Define, Splices, BadInclude, MacrosClean, Ended, NextPos, AtCut, NoEof, CutOff;
    OneDirective(raw, i);
    NoneInEmpty();
    var n := NextPos(ld, raw, i);
    if IsDirective(raw, i, "define") {
      ProcessDefine(ld, st, raw, i);
      DefineNext(ld, st, raw, i);
      DefineClean(st, raw, i);
      EndOfFileExact(ld, Define(st, raw, i).0, raw, n);
      Nothing(ld, raw, i, Process(ld, Define(st, raw, i).0, raw, n).out);
    } else if IsDirective(raw, i, "include") {
      ProcessInclude(ld, st, raw, i);
      IncludeNext(ld, raw, i);
      var id := if BadInclude(ld, raw, i) then None else Splices(ld, st, raw, i);
      if id.Some? {
        IncludePath(ld, st, raw, i);
        SpliceEnds(ld, st, raw, i, id.value, n);
      } else {
        var st1 := if BadInclude(ld, raw, i) then Report(st) else st;
        EndOfFileExact(ld, st1, raw, n);
        Nothing(ld, raw, i, Process(ld, st1, raw, n).out);
      }
    } else {
      PlainNext(ld, raw, i);
      if raw[i].kind == Hash {
        ProcessHash(ld, st, raw, i);
        EndOfFileExact(ld, Report(st), raw, n);
        Nothing(ld, raw, i, Process(ld, Report(st), raw, n).out);
      } else {
        ProcessPlain(ld, st, raw, i);
        PlainEnded(st, raw, i);
        EndOfFileExact(ld, st, raw, n);
        EndsNext(ld, raw, i, Expansion(st, raw[i]), Process(ld, st, raw, n).out);
      }
    }
  }

  lemma PlainNext(ld: Loader, raw: seq<PToken>, i: nat)
    requires i < |raw| && !IsDirective(raw, i, "define") && !IsDirective(raw, i, "include")
    ensures NextPos(ld, raw, i) == i + 1
  {
  }

  lemma {:induction false} Nothing(ld: Loader, raw: seq<PToken>, i: nat, out: seq<PToken>)
    requires Ended(raw) && i + 1 < |raw| && !AtCut(raw, i) && EndsAs(ld, raw, NextPos(ld, raw, i), out)
    ensures EndsAs(ld, raw, i, out)
  {
    hide NextPos, AtCut, EndsAs, Ended;
    assert [] + out == out;
    NoneInEmpty();
    EndsNext(ld, raw, i, [], out);
  }

  lemma {:induction false} SpliceEnds(ld: Loader, st: PState, raw: seq<PToken>, i: nat, id: nat, e: nat)
    requires FilesEnded(ld) && MacrosClean(st.macros) && Ended(raw) && i + 1 < |raw| && !AtCut(raw, i)
    requires i < e < |raw| && e == NextPos(ld, raw, i) && id in ld.files && id !in st.included
    ensures EndsAs(ld, raw, i, Splice(ld, st, raw, i, id, e).out) && MacrosClean(Splice(ld, st, raw, i, id, e).st.macros)
    decreases |ld.files.Keys - st.included|, |raw| - i, 0
  {
    hide Process, Splice, Ended, NoEof, DropEof, MacrosClean, NextPos, AtCut, CutOff;
    SpliceIs(ld, st, raw, i, id, e);
    EndedNonEmpty(ld.files[id]);
    Shrinks(ld.files.Keys, st.included, Enter(st, id).included, id);
    var inner := Process(ld, Enter(st, id), ld.files[id], 0);
    EndOfFileExact(ld, Enter(st, id), ld.files[id], 0);
    Shrinks(ld.files.Keys, st.included, inner.st.included, id);
    EndOfFileExact(ld, inner.st, raw, e);
    DropLeavesNone(inner.out);
    EndsNext(ld, raw, i, DropEof(inner.out), Process(ld, inner.st, raw, e).out);
  }

  /** The cut-off directive is reported. */
  lemma {:induction false} CutOffReported(ld: Loader, st: PState, raw: seq<PToken>, i: nat)
    requires Ended(raw) && CutOff(ld, raw, i)
    ensures Process(ld, st, raw, i).st.reported
    decreases |ld.files.Keys - st.included|, |raw| - i, 1
  {
    hide Process, LineEnd, Splice, IsDirective, Define, Splices, BadInclude, NextPos, AtCut, Ended;
    OneDirective(raw, i);
    if AtCut(raw, i) {
      CutEnds(ld, st, raw, i);
    } else if IsDirective(raw, i, "define") {
      ProcessDefine(ld, st, raw, i);
      DefineNext(ld, st, raw, i);
      CutOffReported(ld, Define(st, raw, i).0, raw, NextPos(ld, raw, i));
    } else if IsDirective(raw, i, "include") {
      ProcessInclude(ld, st, raw, i);
      IncludeNext(ld, raw, i);
      var n := NextPos(ld, raw, i);
      if BadInclude(ld, raw, i) {
        CutOffReported(ld, Report(st), raw, n);
      } else if Splices(ld, st, raw, i).None? {
        CutOffReported(ld, st, raw, n);
      } else {
        IncludePath(ld, st, raw, i);
        var id := Splices(ld, st, raw, i).value;
        SpliceIs(ld, st, raw, i, id, n);
        var inner := Process(ld, Enter(st, id), ld.files[id], 0).st;
        Shrinks(ld.files.Keys, st.included, inner.included, id);
        CutOffReported(ld, inner, raw, n);
      }
    } else {
      PlainNext(ld, raw, i);
      if raw[i].kind == Hash {
        ProcessHash(ld, st, raw, i);
        CutOffReported(ld, Report(st), raw, i + 1);
      } else {
        ProcessPlain(ld, st, raw, i);
        CutOffReported(ld, st, raw, i + 1);
      }
    }
  }

  /** So when nothing is reported the output ends in the one end-of-file token it has. */
  lemma {:induction false} OneEndOfFile(ld: Loader, st: PState, raw: seq<PToken>, i: nat)
    requires FilesEnded(ld) && MacrosClean(st.macros) && Ended(raw) && i < |raw|
    requires !Process(ld, st, raw, i).st.reported
    ensures Ended(Process(ld, st, raw, i).out) && !CutOff(ld, raw, i)
  {
    hide Process, Ended, CutOff;
    EndOfFileExact(ld, st, raw, i);
    if CutOff(ld, raw, i) {
      CutOffReported(ld, st, raw, i);
    }
  }

  lemma EndedNonEmpty(ts: seq<PToken>)
    requires Ended(ts)
    ensures |ts| > 0
  {
  }

  /** The shortest such files: nothing is left of them. */
  lemma {:induction false} CutOffLosesTheEnd(ld: Loader, st: PState, name: string)
    requires name == "define" || name == "include"
    ensures var raw := [PToken(Hash, "#", 1, 1), PToken(Identifier, name, 1, 1), PToken(EofTok, "", 1, 1)];
      Ended(raw) && CutOff(ld, raw, 0) && Process(ld, st, raw, 0) == Result([], Report(st))
  {
    hide Process;
    var raw := [PToken(Hash, "#", 1, 1), PToken(Identifier, name, 1, 1), PToken(EofTok, "", 1, 1)];
    CutEnds(ld, st, raw, 0);
  }

  // The preprocessor as it works

  lemma AfterNothing(r: Result)
    ensures After([], r) == r
  {
    assert [] + r.out == r.out;
  }

  lemma AfterMore(out: seq<PToken>, ts: seq<PToken>, r: Result)
    ensures After(out, After(ts, r)) == After(out + ts, r)
  {
    assert out + (ts + r.out) == (out + ts) + r.out;
  }

  class Preprocessor {
    const loader: Loader
    var macros: map<string, seq<PToken>>
    var included: set<nat>
    ghost var order: seq<nat>
    var reported: bool

    constructor (loader: Loader)
      ensures this.loader == loader && S() == PState(map[], {}, [], false)
    {
      this.loader := loader;
      macros, included, order, reported := map[], {}, [], false;
    }

    ghost function S(): PState
      reads this
    {
      PState(macros, included, order, reported)
    }

    method ProcessTokens(raw: seq<PToken>) returns (out: seq<PToken>)
      modifies this
      ensures Result(out, S()) == Process(loader, old(S()), raw, 0)
      decreases |loader.files.Keys - included|, 1
    {
      hide Process, Define, After, IsDirective;
      out := [];
      var i := 0;
      ghost var s := S();
      AfterNothing(Process(loader, s, raw, 0));
      while i < |raw|
        invariant 0 <= i && s.included <= included
        invariant Process(loader, s, raw, 0) == After(out, Process(loader, S(), raw, i))
        decreases |raw| - i
      {
        Directive(raw, i);
        if raw[i].kind == Hash {
          if i + 1 < |raw| && raw[i + 1].kind == Identifier && raw[i + 1].text == "define" {
            ProcessDefine(loader, S(), raw, i);
            i := HandleDefine(raw, i);
          } else if i + 1 < |raw| && raw[i + 1].kind == Identifier && raw[i + 1].text == "include" {
            Shrinks(loader.files.Keys, s.included, included, 0);
            i, out := HandleInclude(raw, i, out);
          } else {
            ProcessHash(loader, S(), raw, i);
            reported := true;
            i := i + 1;
          }
        } else {
          ProcessPlain(loader, S(), raw, i);
          var ts := if raw[i].kind == Identifier && raw[i].text in macros then macros[raw[i].text] else [raw[i]];
          assert ts == Expansion(S(), raw[i]);
          AfterMore(out, ts, Process(loader, S(), raw, i + 1));
          out := out + ts;
          i := i + 1;
        }
      }
      ProcessEnd(loader, S(), raw, i);
      AfterAll(out, S());
    }

    static lemma Directive(raw: seq<PToken>, i: nat)
      requires i < |raw|
      ensures IsDirective(raw, i, "define") <==>
        i + 1 < |raw| && raw[i].kind == Hash && raw[i + 1].kind == Identifier && raw[i + 1].text == "define"
      ensures IsDirective(raw, i, "include") <==>
        i + 1 < |raw| && raw[i].kind == Hash && raw[i + 1].kind == Identifier && raw[i + 1].text == "include"
    {
    }

    static lemma AfterAll(out: seq<PToken>, st: PState)
      ensures After(out, Result([], st)) == Result(out, st)
    {
      assert out + [] == out;
    }

    method HandleDefine(raw: seq<PToken>, i: nat) returns (next: nat)
      requires IsDirective(raw, i, "define")
      modifies this
      ensures (S(), next) == Define(old(S()), raw, i)
    {
      var j := i + 2;
      if j >= |raw| || raw[j].kind == EofTok || raw[j].kind != Identifier {
        reported := true;
        return j + 1;
      }
      var name := raw[j].text;
      next := SkipLine(raw, j + 1, raw[i].row);
      macros := macros[name := raw[j + 1..next]];
    }

    /** Collects the tokens on one row, one at a time. */
    method SkipLine(raw: seq<PToken>, i: nat, row: nat) returns (e: nat)
      requires i <= |raw|
      ensures e == LineEnd(raw, i, row)
    {
      e := i;
      while e < |raw| && raw[e].kind != EofTok && raw[e].row == row
        invariant i <= e <= |raw| && LineEnd(raw, i, row) == LineEnd(raw, e, row)
      {
        e := e + 1;
      }
    }

    method HandleInclude(raw: seq<PToken>, i: nat, out: seq<PToken>) returns (next: nat, more: seq<PToken>)
      requires IsDirective(raw, i, "include")
      modifies this
      ensures next > i && old(included) <= included
      ensures After(out, Process(loader, old(S()), raw, i)) == After(more, Process(loader, S(), raw, next))
      decreases |loader.files.Keys - included|, 0
    {
      hide Process, After, DropEof, Splice, IsDirective;
      InRange(raw, i);
      OneDirective(raw, i);
      ProcessInclude(loader, S(), raw, i);
      var j := i + 2;
      if j >= |raw| || raw[j].kind == EofTok || raw[j].kind != StringLiteral {
        reported := true;
        return j + 1, out;
      }
      var path := loader.resolve(raw[j].text, raw[i].file);
      if path.None? {
        reported := true;
        return j + 1, out;
      }
      var id := path.value;
      next := SkipLine(raw, j, raw[i].row);
      more := out;
      if id != 0 && id in loader.files && id !in included {
        Shrinks(loader.files.Keys, included, included + {id}, id);
        SpliceIs(loader, S(), raw, i, id, next);
        included := included + {id};
        order := order + [id];
        ghost var s := S();
        var spliced := ProcessTokens(loader.files[id]);
        Dropped(spliced);
        if |spliced| > 0 && spliced[|spliced| - 1].kind == EofTok {
          spliced := spliced[..|spliced| - 1];
        }
        AfterMore(out, spliced, Process(loader, S(), raw, next));
        more := out + spliced;
      }
    }

    static lemma InRange(raw: seq<PToken>, i: nat)
      requires IsDirective(raw, i, "include")
      ensures i + 1 < |raw|
    {
    }

    static lemma Dropped(ts: seq<PToken>)
      ensures DropEof(ts) == if |ts| > 0 && ts[|ts| - 1].kind == EofTok then ts[..|ts| - 1] else ts
    {
    }
  }

  /** A whole program: one end-of-file token, at the end, unless the file is cut off, and no file spliced in twice. */
  method Run(loader: Loader, raw: seq<PToken>) returns (out: seq<PToken>, reported: bool, ghost order: seq<nat>)
    requires FilesEnded(loader) && Ended(raw)
    ensures if CutOff(loader, raw, 0) then reported && NoEof(out) else Ended(out)
    ensures NoRepeats(order)
    ensures Result(out, Process(loader, PState(map[], {}, [], false), raw, 0).st) == Process(loader, PState(map[], {}, [], false), raw, 0)
    ensures order == Process(loader, PState(map[], {}, [], false), raw, 0).st.order
  {
    hide Process;
    var p := new Preprocessor(loader);
    ghost var st := p.S();
    out := p.ProcessTokens(raw);
    reported := p.reported;
    order := p.order;
    EachFileOnce(loader, st, raw, 0);
    EndOfFileExact(loader, st, raw, 0);
    if CutOff(loader, raw, 0) {
      CutOffReported(loader, st, raw, 0);
    }
  }
}
