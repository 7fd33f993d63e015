/** Tokens as the parser sees them. */
module Tokens {

  /** Token types, numbered in the order the lexer declares them. */
  newtype Kind = k: int | 0 <= k < 83

  // keywords
  const KwFunc: Kind := 0
  const KwExtern: Kind := 1
  const KwIf: Kind := 2
  const KwElse: Kind := 3
  const KwFor: Kind := 4
  const KwWhile: Kind := 5
  const KwReturn: Kind := 6
  const KwReturns: Kind := 7
  const KwBreak: Kind := 8
  const KwContinue: Kind := 9
  const KwTrue: Kind := 10
  const KwFalse: Kind := 11
  const KwNull: Kind := 12
  const KwAnd: Kind := 13
  const KwOr: Kind := 14
  const KwEnum: Kind := 15
  const KwStruct: Kind := 16
  const KwSwitch: Kind := 17
  const KwCase: Kind := 18
  const KwDefault: Kind := 19
  const KwImm: Kind := 20
  const KwMut: Kind := 21
  const KwPtr: Kind := 22
  const KwNew: Kind := 23
  const KwCast: Kind := 24
  const KwSizeof: Kind := 25
  const KwFree: Kind := 26
  const KwAsm: Kind := 27
  const KwError: Kind := 28
  const KwExit: Kind := 29
  const KwRead: Kind := 30
  const KwPrint: Kind := 31
  const Identifier: Kind := 32

  // primitive types
  const TyU0: Kind := 33
  const TyU8: Kind := 34
  const TyU16: Kind := 35
  const TyU32: Kind := 36
  const TyU64: Kind := 37
  const TyI8: Kind := 38
  const TyI16: Kind := 39
  const TyI32: Kind := 40
  const TyI64: Kind := 41
  const TyF64: Kind := 42
  const TyBool: Kind := 43
  const TyString: Kind := 44

  // literals
  const IntLiteral: Kind := 45
  const FloatLiteral: Kind := 46
  const StringLiteral: Kind := 47
  const CharLiteral: Kind := 48

  // punctuation
  const LParen: Kind := 49
  const RParen: Kind := 50
  const LBrace: Kind := 51
  const RBrace: Kind := 52
  const LBrack: Kind := 53
  const RBrack: Kind := 54
  const LAngle: Kind := 55
  const RAngle: Kind := 56
  const Comma: Kind := 57
  const Colon: Kind := 58
  const Semicolon: Kind := 59
  const Dot: Kind := 60
  const Hash: Kind := 61

  // operators
  const Bang: Kind := 62
  const Plus: Kind := 63
  const Minus: Kind := 64
  const Slash: Kind := 65
  const Star: Kind := 66
  const Equal: Kind := 67
  const Ampersand: Kind := 68
  const Pipe: Kind := 69
  const Caret: Kind := 70
  const Modulo: Kind := 71
  const Walrus: Kind := 72
  const ColonColon: Kind := 73
  const EqualEqual: Kind := 74
  const BangEqual: Kind := 75
  const LessEqual: Kind := 76
  const GreaterEqual: Kind := 77
  const LessLess: Kind := 78
  const GreaterGreater: Kind := 79
  const Arrow: Kind := 80
  const Unknown: Kind := 81
  const EofTok: Kind := 82

  datatype Token = Token(kind: Kind, text: string)

  predicate IsBasicType(k: Kind) {
    TyU0 <= k <= TyString
  }

  predicate IsLiteral(k: Kind) {
    IntLiteral <= k <= CharLiteral || k == KwTrue || k == KwFalse || k == KwNull
  }

  /** Spelling of a primitive type; `string` is a pointer to bytes. */
  function BasicName(k: Kind): string {
    if k == TyU0 then "u0"
    else if k == TyU8 then "u8"
    else if k == TyU16 then "u16"
    else if k == TyU32 then "u32"
    else if k == TyU64 then "u64"
    else if k == TyI8 then "i8"
    else if k == TyI16 then "i16"
    else if k == TyI32 then "i32"
    else if k == TyI64 then "i64"
    else if k == TyF64 then "f64"
    else if k == TyBool then "bool"
    else "ptr<imm u8>"
  }

  /** Where recovery stops. */
  predicate IsSyncPoint(k: Kind) {
    || k == EofTok || k == KwFunc || k == KwIf || k == KwStruct || k == KwEnum || k == KwWhile || k == KwFor
    || k == KwReturn || k == KwRead || k == KwPrint || k == LBrace || k == RBrace
  }

  /** `>>` and `>=` may be consumed in two halves, so they weigh two. */
  function Weight(k: Kind): nat {
    if k == GreaterGreater || k == GreaterEqual then 2 else 1
  }

  /** What is left to consume from position `p` on. */
  function Weigh(ts: seq<Token>, p: nat): nat
    requires p <= |ts|
    decreases |ts| - p
  {
    if p == |ts| then 0 else Weight(ts[p].kind) + Weigh(ts, p + 1)
  }

  /** Tokens from `p` on decide the weight. */
  lemma {:induction false} WeighSame(ts: seq<Token>, us: seq<Token>, p: nat)
    requires p <= |ts| == |us| && ts[p..] == us[p..]
    ensures Weigh(ts, p) == Weigh(us, p)
    decreases |ts| - p
  {
    if p < |ts| {
      assert ts[p..][0] == us[p..][0];
      assert ts[p + 1..] == ts[p..][1..] && us[p + 1..] == us[p..][1..];
      WeighSame(ts, us, p + 1);
    }
  }

  /** Replacing a token of weight two by one of weight one consumes half of it. */
  lemma {:induction false} WeighHalf(ts: seq<Token>, p: nat, t: Token)
    requires p < |ts| && Weight(ts[p].kind) == 2 && Weight(t.kind) == 1
    ensures Weigh(ts[p := t], p) == Weigh(ts, p) - 1
  {
    assert ts[p := t][p + 1..] == ts[p + 1..];
    WeighSame(ts[p := t], ts, p + 1);
  }
}
