// Python's UTF-8 codec as sanitize_slug uses it: `str.encode('utf-8', errors='replace')`
// followed by a strict `bytes.decode('utf-8')`. A Python string is a sequence of code
// points and may hold lone surrogates, which the encoder replaces by '?'.
module Utf8 {
  import opened Common

  newtype byte = b: int | 0 <= b < 256

  /** A Python code point, surrogates included. */
  type CodePoint = c: int | 0 <= c < 0x110000

  type PyText = seq<CodePoint>

  const QUESTION_MARK: CodePoint := 0x3F

  predicate IsSurrogate(c: CodePoint) { 0xD800 <= c <= 0xDFFF }

  /** What one code point becomes after encoding with errors='replace'. */
  function Replaced(c: CodePoint): CodePoint
  {
    if IsSurrogate(c) then QUESTION_MARK else c
  }

  function ReplaceSurrogates(s: PyText): (r: PyText)
    ensures |r| == |s|
    ensures forall i :: 0 <= i < |s| ==> r[i] == Replaced(s[i])
  {
    seq(|s|, i requires 0 <= i < |s| => Replaced(s[i]))
  }

  /** The bytes of one code point; a lone surrogate is replaced by '?'. */
  function EncodeChar(c: CodePoint): (b: seq<byte>)
    ensures 1 <= |b| <= 4
  {
    if IsSurrogate(c) then [QUESTION_MARK as byte]
    else if c < 0x80 then [c as byte]
    else if c < 0x800 then [(0xC0 + c / 64) as byte, (0x80 + c % 64) as byte]
    else if c < 0x10000 then
      [(0xE0 + c / 4096) as byte, (0x80 + (c / 64) % 64) as byte, (0x80 + c % 64) as byte]
    else
      [(0xF0 + c / 262144) as byte, (0x80 + (c / 4096) % 64) as byte,
       (0x80 + (c / 64) % 64) as byte, (0x80 + c % 64) as byte]
  }

  /** `s.encode('utf-8', errors='replace')`. */
  function Encode(s: PyText): seq<byte>
  {
    if |s| == 0 then [] else EncodeChar(s[0]) + Encode(s[1..])
  }

  predicate IsContinuation(b: byte) { 0x80 <= b < 0xC0 }

  /**
   * Strictly decodes the first character of `b`: its code point and byte length, or None
   * for a malformed, overlong, surrogate or out-of-range sequence.
   */
  function DecodeFirst(b: seq<byte>): (r: Option<(CodePoint, nat)>)
    requires |b| > 0
    ensures r.Some? ==> 1 <= r.value.1 <= |b|
  {
    var b0 := b[0] as int;
    if b0 < 0x80 then Some((b0 as CodePoint, 1))
    else if 0xC2 <= b0 <= 0xDF then
      if |b| >= 2 && IsContinuation(b[1]) then
        Some(((b0 - 0xC0) * 64 + (b[1] as int - 0x80), 2))
      else None
    else if 0xE0 <= b0 <= 0xEF then
      if |b| >= 3 && IsContinuation(b[1]) && IsContinuation(b[2]) then
        var v := (b0 - 0xE0) * 4096 + (b[1] as int - 0x80) * 64 + (b[2] as int - 0x80);
        if v < 0x800 || 0xD800 <= v <= 0xDFFF then None else Some((v as CodePoint, 3))
      else None
    else if 0xF0 <= b0 <= 0xF4 then
      if |b| >= 4 && IsContinuation(b[1]) && IsContinuation(b[2]) && IsContinuation(b[3]) then
        var v := (b0 - 0xF0) * 262144 + (b[1] as int - 0x80) * 4096
                 + (b[2] as int - 0x80) * 64 + (b[3] as int - 0x80);
        if v < 0x10000 || v >= 0x110000 then None else Some((v as CodePoint, 4))
      else None
    else None
  }

  /** `b.decode('utf-8')`: None when Python would raise UnicodeDecodeError. */
  function Decode(b: seq<byte>): Option<PyText>
    decreases |b|
  {
    if |b| == 0 then Some([])
    else
      match DecodeFirst(b)
      case None => None
      case Some(p) =>
        match Decode(b[p.1..])
        case None => None
        case Some(rest) => Some([p.0] + rest)
  }

  lemma TwoBytes(c: int)
    requires 0x80 <= c < 0x800
    ensures 0xC2 <= 0xC0 + c / 64 <= 0xDF
    ensures (c / 64) * 64 + c % 64 == c
  {
  }

  lemma ThreeBytes(c: int)
    requires 0x800 <= c < 0x10000
    ensures 0xE0 <= 0xE0 + c / 4096 <= 0xEF
    ensures (c / 4096) * 4096 + ((c / 64) % 64) * 64 + c % 64 == c
  {
    assert (c / 4096) * 64 + (c / 64) % 64 == c / 64;
  }

  lemma FourBytes(c: int)
    requires 0x10000 <= c < 0x110000
    ensures 0xF0 <= 0xF0 + c / 262144 <= 0xF4
    ensures (c / 262144) * 262144 + ((c / 4096) % 64) * 4096 + ((c / 64) % 64) * 64 + c % 64 == c
  {
    assert (c / 262144) * 64 + (c / 4096) % 64 == c / 4096;
    assert (c / 4096) * 64 + (c / 64) % 64 == c / 64;
  }

  /** Decoding the encoding of one code point reads back its replacement and nothing more. */
  lemma {:induction false} DecodeFirstOfEncoded(c: CodePoint, rest: seq<byte>)
    ensures DecodeFirst(EncodeChar(c) + rest) == Some((Replaced(c), |EncodeChar(c)|))
  {
    var b := EncodeChar(c) + rest;
    if IsSurrogate(c) || c < 0x80 {
    } else if c < 0x800 {
      TwoBytes(c);
      assert b[0] as int == 0xC0 + c / 64 && b[1] as int == 0x80 + c % 64;
    } else if c < 0x10000 {
      ThreeBytes(c);
      assert b[0] as int == 0xE0 + c / 4096;
      assert b[1] as int == 0x80 + (c / 64) % 64 && b[2] as int == 0x80 + c % 64;
    } else {
      FourBytes(c);
      assert b[0] as int == 0xF0 + c / 262144 && b[1] as int == 0x80 + (c / 4096) % 64;
      assert b[2] as int == 0x80 + (c / 64) % 64 && b[3] as int == 0x80 + c % 64;
    }
  }

  /**
   * The round trip sanitize_slug performs: decoding what the replacing encoder produced
   * never fails and gives the text with each lone surrogate replaced by '?'.
   */
  lemma {:induction false} RoundTrip(s: PyText)
    ensures Decode(Encode(s)) == Some(ReplaceSurrogates(s))
  {
    if |s| > 0 {
      var head := EncodeChar(s[0]);
      DecodeFirstOfEncoded(s[0], Encode(s[1..]));
      assert (head + Encode(s[1..]))[|head|..] == Encode(s[1..]);
      RoundTrip(s[1..]);
      assert ReplaceSurrogates(s) == [Replaced(s[0])] + ReplaceSurrogates(s[1..]);
    }
  }

  /** Text without lone surrogates survives the round trip unchanged. */
  lemma {:induction false} RoundTripIdentity(s: PyText)
    requires forall i :: 0 <= i < |s| ==> !IsSurrogate(s[i])
    ensures Decode(Encode(s)) == Some(s)
  {
    RoundTrip(s);
    assert ReplaceSurrogates(s) == s;
  }
}
