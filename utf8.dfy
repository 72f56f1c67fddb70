/** UTF-8, as `Buffer.from(text)` encodes a string and `toString("utf-8")`
    reads well-formed bytes back. */
module Utf8 {
  import opened Results
  import opened Bytes

  predicate IsContinuation(b: Byte) {
    0x80 <= b < 0xC0
  }

  /** The bytes of one code point: one byte below U+0080, two below U+0800,
      three below U+10000 and four above. */
  function EncodeChar(c: char): (r: seq<Byte>)
    ensures 1 <= |r| <= 4
    ensures (|r| == 1) <==> (c as int < 0x80)
    ensures forall i | 1 <= i < |r| :: IsContinuation(r[i])
  {
    var n := c as int;
    if n < 0x80 then [n as Byte]
    else if n < 0x800 then [(0xC0 + n / 64) as Byte, (0x80 + n % 64) as Byte]
    else if n < 0x10000 then
      [(0xE0 + n / 4096) as Byte, (0x80 + (n / 64) % 64) as Byte, (0x80 + n % 64) as Byte]
    else
      [(0xF0 + n / 262144) as Byte, (0x80 + (n / 4096) % 64) as Byte,
       (0x80 + (n / 64) % 64) as Byte, (0x80 + n % 64) as Byte]
  }

  function Encode(s: string): (r: seq<Byte>)
    ensures |r| >= |s|
  {
    if |s| == 0 then [] else EncodeChar(s[0]) + Encode(s[1..])
  }

  /** The number of bytes of the sequence that starts with `b`, or 0 when
      `b` cannot start one. */
  function SequenceLength(b: Byte): nat {
    if b < 0x80 then 1
    else if 0xC0 <= b < 0xE0 then 2
    else if 0xE0 <= b < 0xF0 then 3
    else if 0xF0 <= b < 0xF8 then 4
    else 0
  }

  predicate IsScalar(n: int) {
    (0 <= n < 0xD800) || (0xE000 <= n < 0x110000)
  }

  /** The code point encoded by one complete sequence; None for a malformed,
      overlong or out-of-range one. */
  function DecodeChar(b: seq<Byte>): (r: Option<char>)
  {
    if |b| == 0 || SequenceLength(b[0]) != |b| then None
    else if exists i | 1 <= i < |b| :: !IsContinuation(b[i]) then None
    else
      var n :=
        if |b| == 1 then b[0] as int
        else if |b| == 2 then (b[0] as int - 0xC0) * 64 + (b[1] as int - 0x80)
        else if |b| == 3 then (b[0] as int - 0xE0) * 4096 + (b[1] as int - 0x80) * 64 + (b[2] as int - 0x80)
        else (b[0] as int - 0xF0) * 262144 + (b[1] as int - 0x80) * 4096 + (b[2] as int - 0x80) * 64 + (b[3] as int - 0x80);
      var least := if |b| == 1 then 0 else if |b| == 2 then 0x80 else if |b| == 3 then 0x800 else 0x10000;
      if least <= n && IsScalar(n) then Some(n as char) else None
  }

  /** Strict decoding of a whole buffer; None for ill-formed input. */
  function Decode(b: seq<Byte>): (r: Option<string>)
    ensures b == [] ==> r == Some([])
    decreases |b|
  {
    if |b| == 0 then Some([])
    else
      var k := SequenceLength(b[0]);
      if k == 0 || k > |b| then None
      else
        match DecodeChar(b[..k])
        case None => None
        case Some(c) =>
          match Decode(b[k..])
          case None => None
          case Some(rest) => Some([c] + rest)
  }

  lemma DecodeEncodeChar(c: char)
    ensures SequenceLength(EncodeChar(c)[0]) == |EncodeChar(c)|
    ensures DecodeChar(EncodeChar(c)) == Some(c)
  {
    var n := c as int;
    if n < 0x80 {
    } else if n < 0x800 {
      DecodeTwo(c);
    } else if n < 0x10000 {
      DecodeThree(c);
    } else {
      DecodeFour(c);
    }
  }

  lemma DecodeTwo(c: char)
    requires 0x80 <= c as int < 0x800
    ensures SequenceLength(EncodeChar(c)[0]) == 2
    ensures DecodeChar(EncodeChar(c)) == Some(c)
  {
    var n := c as int;
    var q, r := n / 64, n % 64;
    assert q * 64 + r == n;
    var b := EncodeChar(c);
    assert b == [(0xC0 + q) as Byte, (0x80 + r) as Byte];
    assert (b[0] as int - 0xC0) * 64 + (b[1] as int - 0x80) == n;
  }

  lemma DecodeThree(c: char)
    requires 0x800 <= c as int < 0x10000
    ensures SequenceLength(EncodeChar(c)[0]) == 3
    ensures DecodeChar(EncodeChar(c)) == Some(c)
  {
    var n := c as int;
    var q2, q1, r := n / 4096, (n / 64) % 64, n % 64;
    assert (n / 64) == q2 * 64 + q1;
    assert q2 * 4096 + q1 * 64 + r == n;
    var b := EncodeChar(c);
    assert b == [(0xE0 + q2) as Byte, (0x80 + q1) as Byte, (0x80 + r) as Byte];
    assert (b[0] as int - 0xE0) * 4096 + (b[1] as int - 0x80) * 64 + (b[2] as int - 0x80) == n;
  }

  lemma DecodeFour(c: char)
    requires 0x10000 <= c as int
    ensures SequenceLength(EncodeChar(c)[0]) == 4
    ensures DecodeChar(EncodeChar(c)) == Some(c)
  {
    var n := c as int;
    var q3, q2, q1, r := n / 262144, (n / 4096) % 64, (n / 64) % 64, n % 64;
    assert n / 4096 == q3 * 64 + q2;
    assert n / 64 == (n / 4096) * 64 + q1;
    assert q3 * 262144 + q2 * 4096 + q1 * 64 + r == n;
    var b := EncodeChar(c);
    assert b == [(0xF0 + q3) as Byte, (0x80 + q2) as Byte, (0x80 + q1) as Byte, (0x80 + r) as Byte];
    assert (b[0] as int - 0xF0) * 262144 + (b[1] as int - 0x80) * 4096 + (b[2] as int - 0x80) * 64 + (b[3] as int - 0x80) == n;
  }

  /** Decoding the encoding of a string gives the string back. */
  lemma {:induction false} DecodeEncode(s: string)
    ensures Decode(Encode(s)) == Some(s)
  {
    if |s| > 0 {
      var e := EncodeChar(s[0]);
      var b := Encode(s);
      DecodeEncodeChar(s[0]);
      DecodeEncode(s[1..]);
      assert b == e + Encode(s[1..]);
      assert b[..|e|] == e;
      assert b[|e|..] == Encode(s[1..]);
      assert [s[0]] + s[1..] == s;
    }
  }

  /** ASCII text encodes to one byte per character. */
  lemma {:induction false} EncodeAscii(s: string)
    requires forall i | 0 <= i < |s| :: s[i] as int < 0x80
    ensures |Encode(s)| == |s|
    ensures forall i | 0 <= i < |s| :: Encode(s)[i] as int == s[i] as int
  {
    if |s| > 0 {
      EncodeAscii(s[1..]);
      assert Encode(s) == [s[0] as int as Byte] + Encode(s[1..]);
    }
  }
}
