/** Decimal printing and parsing. */
module DecimalIo {
  import opened Options
  import opened Arith
  import opened Decimal

  const TWO63: int := 0x8000_0000_0000_0000

  type U64 = v: int | 0 <= v < TWO64
  type I64 = v: int | -TWO63 <= v < TWO63

  const BUFFER_SIZE: nat := 32

  /** Conversion of any integer to the signed 64-bit value with the same low bits. */
  function Signed(x: int): (v: I64)
    ensures (v - x) % TWO64 == 0
  {
    var r := x % TWO64;
    if r < TWO63 then r else r - TWO64
  }

  lemma SignedSame(x: int, y: int)
    requires (x - y) % TWO64 == 0
    ensures Signed(x) == Signed(y)
  {
    var q := (x - y) / TWO64;
    assert x == q * TWO64 + y;
    var p := y / TWO64;
    assert x == (q + p) * TWO64 + y % TWO64;
    DivUnique(x, TWO64, q + p, y % TWO64);
  }

  lemma SignedOf(v: I64)
    ensures Signed(v) == v
  {
    if v < 0 {
      DivUnique(v, TWO64, -1, v + TWO64);
    }
  }

  // Printing

  /** The digits of a positive number, least significant first. */
  function Backwards(n: nat): (s: string) {
    if n == 0 then "" else [DigitOf(n % 10)] + Backwards(n / 10)
  }

  function Reversed(s: string): (r: string)
    ensures |r| == |s|
  {
    if s == "" then "" else Reversed(s[1..]) + [s[0]]
  }

  lemma {:induction false} ReversedAt(s: string, k: nat)
    requires k < |s|
    ensures Reversed(s)[k] == s[|s| - 1 - k]
  {
    if k < |s| - 1 {
      ReversedAt(s[1..], k);
    }
  }

  lemma {:induction false} BackwardsReversed(n: nat)
    requires n > 0
    ensures Reversed(Backwards(n)) == ToString(n)
  {
    var s := Backwards(n);
    assert s[1..] == Backwards(n / 10);
    if n >= 10 {
      BackwardsReversed(n / 10);
    }
  }

  function Pow10(k: nat): nat {
    if k == 0 then 1 else 10 * Pow10(k - 1)
  }

  lemma {:induction false} BackwardsShort(n: nat, k: nat)
    requires n < Pow10(k)
    ensures |Backwards(n)| <= k
    decreases k
  {
    if n > 0 {
      BackwardsShort(n / 10, k - 1);
    }
  }

  lemma {:induction false} TwentyDigits(v: U64)
    ensures |Backwards(v)| <= 20
  {
    assert Pow10(5) == 100000;
    Pow10Add(5, 5);
    Pow10Add(10, 10);
    BackwardsShort(v, 20);
  }

  lemma {:induction false} Pow10Add(j: nat, k: nat)
    ensures Pow10(j + k) == Pow10(j) * Pow10(k)
  {
    if k > 0 {
      Pow10Add(j, k - 1);
      assert Pow10(j) * Pow10(k) == 10 * (Pow10(j) * Pow10(k - 1));
    }
  }

  /** Writes the digits of `v` backwards from the start of the buffer. */
  method PutDigits(buf: array<char>, v: U64) returns (i: nat)
    requires buf.Length == BUFFER_SIZE
    modifies buf
    ensures i <= 20 && buf[..i] == Backwards(v)
  {
    TwentyDigits(v);
    var val: int := v;
    i := 0;
    assert buf[..0] == "";
    while val > 0
      invariant 0 <= val && i <= |Backwards(v)| && Backwards(v) == buf[..i] + Backwards(val)
      decreases val
    {
      ghost var done := buf[..i];
      buf[i] := DigitOf(val % 10);
      assert buf[..i + 1] == done + [DigitOf(val % 10)];
      val := val / 10;
      i := i + 1;
    }
  }

  /** Reverses the first `n` characters by swapping from both ends. */
  method ReverseInPlace(buf: array<char>, n: nat)
    requires n <= buf.Length
    modifies buf
    ensures buf[..n] == Reversed(old(buf[..n])) && buf[n..] == old(buf[n..])
  {
    var start, end := 0, n - 1;
    while start < end
      invariant 0 <= start <= n && end == n - 1 - start
      invariant forall k :: 0 <= k < start ==> buf[k] == old(buf[n - 1 - k]) && buf[n - 1 - k] == old(buf[k])
      invariant forall k :: start <= k <= end ==> buf[k] == old(buf[k])
      invariant forall k :: n <= k < buf.Length ==> buf[k] == old(buf[k])
    {
      var temp := buf[start];
      buf[start] := buf[end];
      buf[end] := temp;
      start := start + 1;
      end := end - 1;
    }
    ghost var was := old(buf[..n]);
    forall k | 0 <= k < n
      ensures buf[..n][k] == Reversed(was)[k]
    {
      ReversedAt(was, k);
    }
  }

  /** `out` is what is written; the buffer is left holding it as a terminated string. */
  method PrintUint(buf: array<char>, v: U64) returns (out: string)
    requires buf.Length == BUFFER_SIZE
    modifies buf
    ensures out == ToString(v) && |out| < BUFFER_SIZE
    ensures v > 0 ==> buf[..|out| + 1] == out + ['\0']
  {
    if v == 0 {
      return "0";
    }
    var i := PutDigits(buf, v);
    ReverseInPlace(buf, i);
    BackwardsReversed(v);
    buf[i] := '\0';
    out := buf[..i];
    assert buf[..i + 1] == out + ['\0'];
  }

  /** A number with its sign. */
  function Shown(v: int): string {
    if v < 0 then "-" + ToString(0 - v) else ToString(v)
  }

  /** Magnitude in wrapping arithmetic: right even for the least value, whose negation is itself. */
  lemma Magnitude(v: I64)
    requires v < 0
    ensures Signed(0 - v) % TWO64 == 0 - v
  {
    if v == -TWO63 {
      assert (0 - v) % TWO64 == TWO63;
      DivUnique(-TWO63, TWO64, -1, TWO63);
    }
  }

  method PrintInt(buf: array<char>, v: I64) returns (out: string)
    requires buf.Length == BUFFER_SIZE
    modifies buf
    ensures out == Shown(v) && |out| < BUFFER_SIZE
    ensures v != 0 ==> buf[..|out| + 1] == out + ['\0']
  {
    hide Backwards, Reversed, Signed;
    if v == 0 {
      return "0";
    }
    var isNeg := v < 0;
    var uval: U64;
    if isNeg {
      Magnitude(v);
      uval := Signed(0 - v) % TWO64;
    } else {
      uval := v;
    }
    var i := PutDigits(buf, uval);
    ghost var digits := buf[..i];
    if isNeg {
      buf[i] := '-';
      i := i + 1;
      assert buf[..i] == digits + ['-'];
      SignLast(digits);
    }
    ReverseInPlace(buf, i);
    BackwardsReversed(uval);
    buf[i] := '\0';
    out := buf[..i];
    assert buf[..i + 1] == out + ['\0'];
  }

  lemma {:induction false} SignLast(s: string)
    ensures Reversed(s + ['-']) == ['-'] + Reversed(s)
  {
    if s == "" {
      assert (s + ['-'])[1..] == "";
      assert Reversed("") == "";
    } else {
      SignLast(s[1..]);
      assert (s + ['-'])[1..] == s[1..] + ['-'];
    }
  }

  // Parsing

  predicate Terminated(s: string) {
    '\0' in s
  }

  /** Where the digits from `i` on end. */
  function DigitsEnd(s: string, i: nat): (n: nat)
    requires i <= |s|
    ensures i <= n <= |s| && (forall k :: i <= k < n ==> IsDigit(s[k])) && (n < |s| ==> !IsDigit(s[n]))
    decreases |s| - i
  {
    if i < |s| && IsDigit(s[i]) then DigitsEnd(s, i + 1) else i
  }

  lemma ValueMore(s: string, i: nat, n: nat)
    requires i <= n < |s| && forall k :: i <= k <= n ==> IsDigit(s[k])
    ensures ValueOf(s[i..n + 1]) == 10 * ValueOf(s[i..n]) + (s[n] as int - 48)
  {
    var t := s[i..n + 1];
    assert t[..|t| - 1] == s[i..n];
  }

  lemma ModStep(r: int, x: int, d: int)
    requires r == x % TWO64
    ensures (r * 10 + d) % TWO64 == (10 * x + d) % TWO64
  {
    var q, y := x / TWO64, r * 10 + d;
    assert x == q * TWO64 + r;
    assert 10 * x + d == (10 * q) * TWO64 + y;
    var p := y / TWO64;
    assert (10 * q) * TWO64 + p * TWO64 == (10 * q + p) * TWO64;
    DivUnique(10 * x + d, TWO64, 10 * q + p, y % TWO64);
  }

  /** The value of the leading digits, modulo 2^64; nothing after them matters. */
  method ParseUint(str: Option<string>) returns (num: U64)
    requires str.Some? ==> Terminated(str.value)
    ensures str.None? ==> num == 0
    ensures str.Some? ==> num == ValueOf(str.value[..DigitsEnd(str.value, 0)]) % TWO64
  {
    hide ValueOf, DigitsEnd, EndsAfter;
    if str.None? {
      return 0;
    }
    var s := str.value;
    num := 0;
    var i := 0;
    ValueNone(s, 0);
    EndStarts(s);
    while s[i] != '\0'
      invariant 0 <= i < |s| && EndsAfter(s, i) && (forall k :: 0 <= k < i ==> IsDigit(s[k]))
      invariant num == ValueOf(s[0..i]) % TWO64 && DigitsEnd(s, 0) == DigitsEnd(s, i)
      decreases |s| - i
    {
      var c := s[i];
      DigitsStep(s, i);
      if c < '0' || c > '9' {
        break;
      }
      EndStep(s, i);
      ValueMore(s, 0, i);
      ModStep(num, ValueOf(s[0..i]), c as int - 48);
      num := (num * 10 + (c as int - 48)) % TWO64;
      i := i + 1;
    }
    DigitsStep(s, i);
    assert s[0..i] == s[..i];
  }

  /** The terminator is still ahead. */
  predicate EndsAfter(s: string, i: nat)
    requires i <= |s|
  {
    '\0' in s[i..]
  }

  lemma EndStarts(s: string)
    requires Terminated(s)
    ensures EndsAfter(s, 0) && |s| > 0
  {
    assert s[0..] == s;
  }

  lemma EndStep(s: string, i: nat)
    requires i < |s| && EndsAfter(s, i) && s[i] != '\0'
    ensures i + 1 < |s| && EndsAfter(s, i + 1)
  {
    assert s[i..] == [s[i]] + s[i + 1..];
  }

  lemma ValueNone(s: string, i: nat)
    requires i <= |s|
    ensures ValueOf(s[i..i]) == 0
  {
  }

  lemma DigitsStep(s: string, i: nat)
    requires i < |s|
    ensures DigitsEnd(s, i) == if IsDigit(s[i]) then DigitsEnd(s, i + 1) else i
  {
  }

  /** Digits from `i` on, accumulated in wrapping signed arithmetic. */
  method ParseDigits(s: string, from: nat) returns (res: I64)
    requires from < |s| && '\0' in s[from..]
    ensures res == Signed(ValueOf(s[from..DigitsEnd(s, from)]))
  {
    hide ValueOf, DigitsEnd, Signed;
    res := 0;
    var i := from;
    ValueNone(s, from);
    SignedOf(0);
    while s[i] != '\0'
      invariant from <= i < |s| && '\0' in s[i..] && (forall k :: from <= k < i ==> IsDigit(s[k]))
      invariant res == Signed(ValueOf(s[from..i])) && DigitsEnd(s, from) == DigitsEnd(s, i)
      decreases |s| - i
    {
      var c := s[i];
      DigitsStep(s, i);
      if c < '0' || c > '9' {
        break;
      }
      ValueMore(s, from, i);
      SignedStep(ValueOf(s[from..i]), c as int - 48);
      res := Signed(res * 10 + (c as int - 48));
      assert s[i..] == [c] + s[i + 1..];
      i := i + 1;
    }
    DigitsStep(s, i);
  }

  lemma SignedStep(x: int, d: int)
    ensures Signed(Signed(x) * 10 + d) == Signed(10 * x + d)
  {
    var r := Signed(x);
    var q := (r - x) / TWO64;
    assert r - x == q * TWO64;
    assert (r * 10 + d) - (10 * x + d) == (10 * q) * TWO64;
    MultipleMod(10 * q, TWO64);
    SignedSame(r * 10 + d, 10 * x + d);
  }

  /** What `ParseInt` answers: an optional sign, then the leading digits. */
  function IntMeaning(s: string): int
    requires |s| > 0
  {
    if s[0] == '-' then 0 - ValueOf(s[1..DigitsEnd(s, 1)])
    else if s[0] == '+' then ValueOf(s[1..DigitsEnd(s, 1)])
    else ValueOf(s[0..DigitsEnd(s, 0)])
  }

  method ParseInt(str: Option<string>) returns (num: I64)
    requires str.Some? ==> Terminated(str.value)
    ensures str.None? ==> num == 0
    ensures str.Some? ==> num == Signed(IntMeaning(str.value))
  {
    if str.None? {
      return 0;
    }
    var s := str.value;
    var isNeg, i := false, 0;
    assert s[0..] == s;
    if s[0] == '-' {
      isNeg := true;
      i := 1;
      assert s == [s[0]] + s[1..];
    } else if s[0] == '+' {
      i := 1;
      assert s == [s[0]] + s[1..];
    }
    num := ParseDigits(s, i);
    if isNeg {
      NegSigned(ValueOf(s[1..DigitsEnd(s, 1)]));
      num := Signed(0 - num);
    }
  }

  lemma NegSigned(x: int)
    ensures Signed(0 - Signed(x)) == Signed(0 - x)
  {
    var r := Signed(x);
    var q := (r - x) / TWO64;
    assert r - x == q * TWO64;
    assert (0 - r) - (0 - x) == (0 - q) * TWO64;
    MultipleMod(0 - q, TWO64);
    SignedSame(0 - r, 0 - x);
  }

  // Round trips

  lemma {:induction false} DigitsEndOf(s: string, d: string, i: nat, k: nat)
    requires k <= |d| && i + |d| < |s| && s[i..i + |d|] == d && (forall j :: 0 <= j < |d| ==> IsDigit(d[j])) && s[i + |d|] == '\0'
    ensures DigitsEnd(s, i + k) == i + |d|
    decreases |d| - k
  {
    if k < |d| {
      assert s[i + k] == s[i..i + |d|][k];
      DigitsEndOf(s, d, i, k + 1);
    }
  }

  /** Every unsigned number is read back from what is printed for it. */
  lemma {:induction false} UintRoundTrip(v: U64)
    ensures var s := ToString(v) + ['\0']; Terminated(s) && ValueOf(s[..DigitsEnd(s, 0)]) % TWO64 == v
  {
    hide ValueOf, DigitsEnd, ToString;
    var d := ToString(v);
    var s := d + ['\0'];
    assert s[|d|] == '\0';
    assert s[0..0 + |d|] == d;
    DigitsEndOf(s, d, 0, 0);
    assert s[..|d|] == d;
    ValueOfToString(v);
  }

  /** And every signed number, the least one included. */
  lemma {:induction false} IntRoundTrip(v: I64)
    ensures var s := Shown(v) + ['\0']; Terminated(s) && Signed(IntMeaning(s)) == v
  {
    hide ValueOf, DigitsEnd, ToString, Signed;
    var s := Shown(v) + ['\0'];
    var d, i := if v < 0 then ToString(0 - v) else ToString(v), if v < 0 then 1 else 0;
    assert s[i + |d|] == '\0';
    assert s[i..i + |d|] == d;
    DigitsEndOf(s, d, i, 0);
    ValueOfToString(if v < 0 then 0 - v else v);
    assert v >= 0 ==> s[0] == d[0] && IsDigit(d[0]);
    SignedOf(v);
  }

  /** What is printed, terminated, parses back. */
  method ThroughBuffer(buf: array<char>, v: I64) returns (w: I64)
    requires buf.Length == BUFFER_SIZE
    modifies buf
    ensures w == v
  {
    var out := PrintInt(buf, v);
    IntRoundTrip(v);
    w := ParseInt(Some(out + ['\0']));
  }

  /** A plus sign is read over. */
  lemma {:induction false} PlusRoundTrip(v: nat)
    requires v < TWO64 / 2
    ensures var s := "+" + ToString(v) + ['\0']; Terminated(s) && Signed(IntMeaning(s)) == v
  {
    hide ValueOf, DigitsEnd, ToString, Signed;
    var s, d := "+" + ToString(v) + ['\0'], ToString(v);
    assert s[1 + |d|] == '\0';
    assert s[1..1 + |d|] == d;
    DigitsEndOf(s, d, 1, 0);
    ValueOfToString(v);
    SignedOf(v);
  }
}
