/** Escaping and lexing literals. */
module StringLiteral {
  import opened Options

  /** What one character becomes. */
  function EscapeChar(c: char): (s: string)
    ensures 1 <= |s| <= 2
  {
    match c
    case '\n' => "\\n"
    case '\t' => "\\t"
    case '\r' => "\\r"
    case '\\' => "\\\\"
    case '"' => "\\\""
    case _ => [c]
  }

  function Escape(s: string): string {
    if s == "" then "" else EscapeChar(s[0]) + Escape(s[1..])
  }

  lemma {:induction false} EscapeMore(s: string, c: char)
    ensures Escape(s + [c]) == Escape(s) + EscapeChar(c)
  {
    if s == "" {
      assert (s + [c])[1..] == "";
    } else {
      EscapeMore(s[1..], c);
      assert (s + [c])[1..] == s[1..] + [c];
    }
  }

  /** A character that may not stand in a quoted line as it is. */
  predicate Special(c: char) {
    c == '\n' || c == '\t' || c == '\r' || c == '\\' || c == '"'
  }

  predicate OneLine(s: string) {
    forall i :: 0 <= i < |s| ==> s[i] != '\n' && s[i] != '\t' && s[i] != '\r'
  }

  /** Escaped text is one line without tabs, longer by one for each special character and otherwise the same. */
  lemma {:induction false} EscapedLine(s: string)
    ensures OneLine(Escape(s)) && |Escape(s)| == |s| + Specials(s)
    ensures Specials(s) == 0 ==> Escape(s) == s
  {
    if s != "" {
      EscapedLine(s[1..]);
      var e := EscapeChar(s[0]);
      assert OneLine(e);
      assert s == [s[0]] + s[1..];
    }
  }

  function Specials(s: string): nat {
    if s == "" then 0 else (if Special(s[0]) then 1 else 0) + Specials(s[1..])
  }

  method EscapeString(s: string) returns (out: string)
    ensures out == Escape(s)
  {
    out := "";
    assert s[..0] == "";
    for i := 0 to |s|
      invariant out == Escape(s[..i])
    {
      EscapeMore(s[..i], s[i]);
      assert s[..i + 1] == s[..i] + [s[i]];
      out := out + EscapeChar(s[i]);
    }
    assert s[..|s|] == s;
  }

  // Lexing

  /** What an escape sequence stands for; `r` is not one, and stands for itself. */
  function Unescape(c: char): char {
    match c
    case 'n' => '\n'
    case 't' => '\t'
    case '"' => '"'
    case '\'' => '\''
    case '\\' => '\\'
    case _ => c
  }

  predicate KnownEscape(c: char) {
    c == 'n' || c == 't' || c == '"' || c == '\'' || c == '\\'
  }

  /** A finished literal: its value, the position after it, and whether an error was reported; or no literal. */
  datatype Lexed = Literal(value: string, end: nat, reported: bool) | Unterminated

  function More(c: char, bad: bool, r: Lexed): Lexed {
    match r
    case Literal(v, e, b) => Literal([c] + v, e, bad || b)
    case Unterminated => Unterminated
  }

  /** The rest of a literal from position `p` on. */
  function LexFrom(src: string, p: nat): Lexed
    decreases |src| - p
  {
    if p >= |src| || src[p] == '\n' then Unterminated
    else if src[p] == '"' then Literal("", p + 1, false)
    else if src[p] != '\\' then More(src[p], false, LexFrom(src, p + 1))
    else if p + 1 >= |src| then Unterminated
    else More(Unescape(src[p + 1]), !KnownEscape(src[p + 1]), LexFrom(src, p + 2))
  }

  /** The lexer's cursor over one literal. */
  class StringLexer {
    const source: string
    var pos: nat
    var row: nat
    var col: nat
    var reported: bool

    constructor (source: string, pos: nat)
      requires pos <= |source|
      ensures this.source == source && this.pos == pos && !reported
    {
      this.source := source;
      this.pos, row, col, reported := pos, 1, 1, false;
    }

    predicate IsAtEnd()
      reads this
    {
      pos >= |source|
    }

    /** The character under the cursor, NUL at the end. */
    function Peek(): char
      reads this
    {
      if pos < |source| then source[pos] else '\0'
    }

    method Advance() returns (c: char)
      modifies this
      ensures c == old(Peek()) && pos == (if old(pos) < |source| then old(pos) + 1 else old(pos)) && reported == old(reported)
      ensures old(pos) < |source| && c == '\n' ==> row == old(row) + 1 && col == 1
      ensures old(pos) < |source| && c != '\n' ==> row == old(row) && col == old(col) + 1
    {
      if IsAtEnd() {
        return '\0';
      }
      c := source[pos];
      pos := pos + 1;
      if c == '\n' {
        row := row + 1;
        col := 1;
      } else {
        col := col + 1;
      }
    }

    method HandleEscapeSequence() returns (c: char)
      modifies this
      ensures old(pos) < |source| ==> c == Unescape(old(Peek())) && pos == old(pos) + 1
      ensures old(pos) < |source| ==> reported == (old(reported) || !KnownEscape(old(Peek())))
      ensures old(pos) >= |source| ==> pos == old(pos) && reported && c == '\0'
    {
      if IsAtEnd() {
        reported := true;
        return '\0';
      }
      var esc := Advance();
      if !KnownEscape(esc) {
        reported := true;
      }
      return Unescape(esc);
    }

    /** After the opening quote: the value of the literal, or `None` and a report. */
    method LexString() returns (value: Option<string>)
      requires pos <= |source| && !reported
      modifies this
      ensures var r := LexFrom(source, old(pos));
        match r
        case Literal(v, e, bad) => value == Some(v) && pos == e && reported == bad
        case Unterminated => value == None && reported
    {
      hide LexFrom, Prefixed, More;
      var v := "";
      ghost var start := pos;
      PrefixedNone(LexFrom(source, pos));
      while Peek() != '"' && Peek() != '\n' && !IsAtEnd()
        invariant start <= pos <= |source|
        invariant LexFrom(source, start) == Prefixed(v, reported, LexFrom(source, pos))
        decreases |source| - pos
      {
        ghost var p, was, bad := pos, v, reported;
        LexStep(source, p);
        if Peek() == '\\' {
          var _ := Advance();
          var c := HandleEscapeSequence();
          v := v + [c];
          if p + 1 < |source| {
            PrefixedMore(was, bad, c, !KnownEscape(source[p + 1]), LexFrom(source, pos));
          } else {
            LexStep(source, pos);
            PrefixedLost(was, bad, v, reported);
          }
        } else {
          var c := Advance();
          v := v + [c];
          PrefixedMore(was, bad, c, false, LexFrom(source, pos));
        }
      }
      LexStep(source, pos);
      PrefixedEnd(v, reported, pos + 1);
      PrefixedLost(v, reported, v, reported);
      if IsAtEnd() || Peek() != '"' {
        reported := true;
        return None;
      }
      var _ := Advance();
      return Some(v);
    }
  }

  /** A literal whose first part `v` is already read. */
  function Prefixed(v: string, bad: bool, r: Lexed): Lexed {
    match r
    case Literal(w, e, b) => Literal(v + w, e, bad || b)
    case Unterminated => Unterminated
  }

  lemma PrefixedNone(r: Lexed)
    ensures Prefixed("", false, r) == r
  {
    if r.Literal? {
      assert "" + r.value == r.value;
    }
  }

  lemma PrefixedMore(v: string, bad: bool, c: char, unknown: bool, r: Lexed)
    ensures Prefixed(v, bad, More(c, unknown, r)) == Prefixed(v + [c], bad || unknown, r)
  {
    if r.Literal? {
      assert v + ([c] + r.value) == (v + [c]) + r.value;
    }
  }

  lemma PrefixedLost(v: string, bad: bool, w: string, worse: bool)
    ensures Prefixed(v, bad, Unterminated) == Unterminated == Prefixed(w, worse, Unterminated)
  {
  }

  lemma PrefixedEnd(v: string, bad: bool, end: nat)
    ensures Prefixed(v, bad, Literal("", end, false)) == Literal(v, end, bad)
  {
    assert v + "" == v;
  }

  lemma LexStep(src: string, p: nat)
    ensures LexFrom(src, p) ==
      if p >= |src| || src[p] == '\n' then Unterminated
      else if src[p] == '"' then Literal("", p + 1, false)
      else if src[p] != '\\' then More(src[p], false, LexFrom(src, p + 1))
      else if p + 1 >= |src| then Unterminated
      else More(Unescape(src[p + 1]), !KnownEscape(src[p + 1]), LexFrom(src, p + 2))
  {
    hide More;
  }

  // Round trip

  /** Characters that escaping and lexing bring back. */
  predicate NoReturn(s: string) {
    '\r' !in s
  }

  /** What comes back: the same string, with each carriage return turned into the letter r. */
  function Returned(s: string): string {
    if s == "" then "" else [if s[0] == '\r' then 'r' else s[0]] + Returned(s[1..])
  }

  /** One escaped character. */
  lemma LexChar(src: string, p: nat, c: char)
    requires p + |EscapeChar(c)| <= |src| && src[p..p + |EscapeChar(c)|] == EscapeChar(c)
    ensures LexFrom(src, p) == More(if c == '\r' then 'r' else c, c == '\r', LexFrom(src, p + |EscapeChar(c)|))
  {
    hide LexFrom, More;
    var e := EscapeChar(c);
    assert src[p] == src[p..p + |e|][0];
    if |e| == 2 {
      assert src[p + 1] == src[p..p + |e|][1];
    }
    LexStep(src, p);
  }

  lemma {:induction false} LexEscaped(src: string, p: nat, s: string)
    requires p + |Escape(s)| < |src| && src[p..p + |Escape(s)|] == Escape(s) && src[p + |Escape(s)|] == '"'
    ensures LexFrom(src, p) == Literal(Returned(s), p + |Escape(s)| + 1, !NoReturn(s))
    decreases |s|
  {
    hide EscapeChar, LexFrom;
    if s != "" {
      var e, rest := EscapeChar(s[0]), Escape(s[1..]);
      var r := src[p..p + |Escape(s)|];
      assert r == e + rest;
      assert src[p..p + |e|] == e by { assert r[..|e|] == e; }
      assert src[p + |e|..p + |e| + |rest|] == rest by { assert r[|e|..] == rest; }
      assert s == [s[0]] + s[1..];
      LexChar(src, p, s[0]);
      LexEscaped(src, p + |e|, s[1..]);
    } else {
      LexStep(src, p);
    }
  }

  lemma {:induction false} ReturnedSame(s: string)
    ensures Returned(s) == s <==> NoReturn(s)
  {
    if s != "" {
      ReturnedSame(s[1..]);
      assert s == [s[0]] + s[1..];
      if s[0] != '\r' && Returned(s) == s {
        assert Returned(s)[1..] == Returned(s[1..]);
      }
      if s[0] == '\r' {
        assert Returned(s)[0] == 'r';
      }
    }
  }

  /**
    Lexing the quoted escape of `s` finishes the literal at its closing quote, and gives back `s`
    without a report exactly when `s` has no carriage return: `escape_string` writes one as `\r`,
    which the lexer does not know.
   */
  lemma {:induction false} LiteralRoundTrip(s: string, before: string, after: string)
    ensures var src := before + "\"" + Escape(s) + "\"" + after;
      var r := LexFrom(src, |before| + 1);
      && r.Literal? && r.end == |before| + |Escape(s)| + 2
      && (r.value == s <==> NoReturn(s)) && (r.reported <==> !NoReturn(s))
  {
    hide LexFrom, Escape, Returned;
    var src := before + "\"" + Escape(s) + "\"" + after;
    var p := |before| + 1;
    assert src[p..p + |Escape(s)|] == Escape(s) && src[p + |Escape(s)|] == '"';
    LexEscaped(src, p, s);
    ReturnedSame(s);
  }

  /** What is written after a backslash, and what it stands for. */
  const ESCAPES: seq<(char, char)> := [('n', '\n'), ('t', '\t'), ('"', '"'), ('\'', '\''), ('\\', '\\')]

  /** Exactly these five are known; anything else is reported and stands for itself. */
  lemma {:induction false} EscapeTable(c: char, before: string, after: string)
    requires |after| > 0 && after[0] == '"'
    ensures var r := LexFrom(before + "\\" + [c] + after, |before|);
      if exists i :: 0 <= i < |ESCAPES| && ESCAPES[i].0 == c
      then forall i :: 0 <= i < |ESCAPES| && ESCAPES[i].0 == c ==> r == Literal([ESCAPES[i].1], |before| + 3, false)
      else r == Literal([c], |before| + 3, true)
  {
    hide LexFrom;
    var src := before + "\\" + [c] + after;
    LexStep(src, |before|);
    LexStep(src, |before| + 2);
    assert src[|before|] == '\\' && src[|before| + 1] == c && src[|before| + 2] == '"';
    assert ESCAPES[0].0 == 'n' && ESCAPES[1].0 == 't' && ESCAPES[2].0 == '"' && ESCAPES[3].0 == '\'' && ESCAPES[4].0 == '\\';
  }
}
