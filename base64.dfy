/** The base64 encoding of section 4 of RFC 4648 ("base64" alphabet, with
    '=' padding), as `Buffer.toString("base64")` produces it and the
    `base64 -d` command reads it back. */
module Base64 {
  import opened Results
  import opened Bytes

  /** The character for a 6-bit value: A-Z, a-z, 0-9, '+', '/'. */
  function Symbol(v: nat): (c: char)
    requires v < 64
    ensures IsSymbol(c)
  {
    if v < 26 then ('A' as int + v) as char
    else if v < 52 then ('a' as int + (v - 26)) as char
    else if v < 62 then ('0' as int + (v - 52)) as char
    else if v == 62 then '+'
    else '/'
  }

  predicate IsSymbol(c: char) {
    ('A' <= c <= 'Z') || ('a' <= c <= 'z') || ('0' <= c <= '9') || c == '+' || c == '/'
  }

  /** The 6-bit value of an alphabet character. */
  function Value(c: char): (r: Option<nat>)
    ensures r.Some? <==> IsSymbol(c)
    ensures r.Some? ==> r.value < 64
  {
    if 'A' <= c <= 'Z' then Some(c as int - 'A' as int)
    else if 'a' <= c <= 'z' then Some(c as int - 'a' as int + 26)
    else if '0' <= c <= '9' then Some(c as int - '0' as int + 52)
    else if c == '+' then Some(62)
    else if c == '/' then Some(63)
    else None
  }

  /** Value inverts Symbol. */
  lemma ValueOfSymbol(v: nat)
    requires v < 64
    ensures Value(Symbol(v)) == Some(v)
  {
    if v < 26 {
      assert 'A' <= Symbol(v) <= 'Z';
    } else if v < 52 {
      assert 'a' <= Symbol(v) <= 'z';
    } else if v < 62 {
      assert '0' <= Symbol(v) <= '9';
    }
  }

  /** Three bytes as four 6-bit values, most significant bits first. */
  function Sextets(b0: Byte, b1: Byte, b2: Byte): (r: (nat, nat, nat, nat))
    ensures r.0 < 64 && r.1 < 64 && r.2 < 64 && r.3 < 64
  {
    (b0 as int / 4, (b0 as int % 4) * 16 + b1 as int / 16, (b1 as int % 16) * 4 + b2 as int / 64, b2 as int % 64)
  }

  /** Four 6-bit values as three bytes: the inverse of Sextets. */
  function Octets(v0: nat, v1: nat, v2: nat, v3: nat): (r: (Byte, Byte, Byte))
    requires v0 < 64 && v1 < 64 && v2 < 64 && v3 < 64
  {
    ((v0 * 4 + v1 / 16) as Byte, ((v1 % 16) * 16 + v2 / 4) as Byte, ((v2 % 4) * 64 + v3) as Byte)
  }

  lemma OctetsOfSextets(b0: Byte, b1: Byte, b2: Byte)
    ensures var v := Sextets(b0, b1, b2); Octets(v.0, v.1, v.2, v.3) == (b0, b1, b2)
  {
    var x0, x1, x2 := b0 as int, b1 as int, b2 as int;
    var v := Sextets(b0, b1, b2);
    assert v.1 / 16 == x0 % 4 && v.1 % 16 == x1 / 16;
    assert v.2 / 4 == x1 % 16 && v.2 % 4 == x2 / 64;
    assert v.0 * 4 + v.1 / 16 == x0;
    assert (v.1 % 16) * 16 + v.2 / 4 == x1;
    assert (v.2 % 4) * 64 + v.3 == x2;
  }

  function Group(b0: Byte, b1: Byte, b2: Byte): (g: string)
    ensures |g| == 4
  {
    var v := Sextets(b0, b1, b2);
    [Symbol(v.0), Symbol(v.1), Symbol(v.2), Symbol(v.3)]
  }

  /** The encoding: four characters per three bytes, and a last group padded
      with '=' when one or two bytes are left over. */
  function Encode(b: seq<Byte>): (s: string)
    ensures |s| == 4 * ((|b| + 2) / 3)
    ensures |s| % 4 == 0
  {
    if |b| == 0 then ""
    else if |b| == 1 then Group(b[0], 0, 0)[..2] + "=="
    else if |b| == 2 then Group(b[0], b[1], 0)[..3] + "="
    else
      var rest := Encode(b[3..]);
      var n := (|b[3..]| + 2) / 3;
      assert |rest| == 4 * n && (|b| + 2) / 3 == n + 1;
      Group(b[0], b[1], b[2]) + rest
  }

  /** Every character of an encoding is an alphabet character or the
      padding '='; in particular it holds no quote or other shell
      metacharacter besides '+' and '/'. */
  lemma {:induction false} EncodeAlphabet(b: seq<Byte>)
    ensures forall i | 0 <= i < |Encode(b)| :: IsSymbol(Encode(b)[i]) || Encode(b)[i] == '='
  {
    if |b| >= 3 {
      EncodeAlphabet(b[3..]);
      var g := Group(b[0], b[1], b[2]);
      assert Encode(b) == g + Encode(b[3..]);
      forall i | 0 <= i < |Encode(b)| ensures IsSymbol(Encode(b)[i]) || Encode(b)[i] == '=' {
        if i >= 4 { assert Encode(b)[i] == Encode(b[3..])[i - 4]; }
      }
    }
  }

  /** One group of four characters, of which the last `pad` may be '='. */
  function DecodeGroup(g: string, pad: nat): (r: Option<seq<Byte>>)
    requires |g| == 4 && pad <= 2
  {
    var a, b, c, d := Value(g[0]), Value(g[1]), Value(g[2]), Value(g[3]);
    if a.None? || b.None? then None
    else if pad >= 1 && g[2] == '=' && g[3] == '=' then
      var o := Octets(a.value, b.value, 0, 0); Some([o.0])
    else if c.None? then None
    else if pad >= 1 && g[3] == '=' then
      var o := Octets(a.value, b.value, c.value, 0); Some([o.0, o.1])
    else if d.None? then None
    else
      var o := Octets(a.value, b.value, c.value, d.value); Some([o.0, o.1, o.2])
  }

  /** Decoding: None for a length that is not a multiple of four, a
      character outside the alphabet, or padding before the last group. */
  function Decode(s: string): (r: Option<seq<Byte>>)
    ensures s == [] ==> r == Some([])
    ensures |s| % 4 != 0 ==> r.None?
  {
    if |s| == 0 then Some([])
    else if |s| < 4 then None
    else if |s| == 4 then DecodeGroup(s, 2)
    else
      match DecodeGroup(s[..4], 0)
      case None => None
      case Some(g) =>
        match Decode(s[4..])
        case None => None
        case Some(rest) => Some(g + rest)
  }

  lemma DecodeFullGroup(b0: Byte, b1: Byte, b2: Byte, pad: nat)
    requires pad <= 2
    ensures DecodeGroup(Group(b0, b1, b2), pad) == Some([b0, b1, b2])
  {
    var v := Sextets(b0, b1, b2);
    ValueOfSymbol(v.0); ValueOfSymbol(v.1); ValueOfSymbol(v.2); ValueOfSymbol(v.3);
    OctetsOfSextets(b0, b1, b2);
  }

  lemma DecodeOneByte(b0: Byte)
    ensures Decode(Encode([b0])) == Some([b0])
  {
    var v := Sextets(b0, 0, 0);
    ValueOfSymbol(v.0); ValueOfSymbol(v.1);
    OctetsOfSextets(b0, 0, 0);
    assert Encode([b0]) == [Symbol(v.0), Symbol(v.1), '=', '='];
  }

  lemma DecodeTwoBytes(b0: Byte, b1: Byte)
    ensures Decode(Encode([b0, b1])) == Some([b0, b1])
  {
    var v := Sextets(b0, b1, 0);
    ValueOfSymbol(v.0); ValueOfSymbol(v.1); ValueOfSymbol(v.2);
    OctetsOfSextets(b0, b1, 0);
    var s := [Symbol(v.0), Symbol(v.1), Symbol(v.2), '='];
    assert Encode([b0, b1]) == s;
    assert s[2] != '=';
  }

  /** Decoding an encoding gives back exactly the original bytes. */
  lemma {:induction false} DecodeEncode(b: seq<Byte>)
    ensures Decode(Encode(b)) == Some(b)
  {
    if |b| == 1 {
      DecodeOneByte(b[0]);
      assert b == [b[0]];
    } else if |b| == 2 {
      DecodeTwoBytes(b[0], b[1]);
      assert b == [b[0], b[1]];
    } else if |b| >= 3 {
      DecodeEncode(b[3..]);
      DecodeGroupThenRest(b);
    }
  }

  lemma DecodeGroupThenRest(b: seq<Byte>)
    requires |b| >= 3 && Decode(Encode(b[3..])) == Some(b[3..])
    ensures Decode(Encode(b)) == Some(b)
  {
    var g := Group(b[0], b[1], b[2]);
    var t := Encode(b[3..]);
    assert Encode(b) == g + t;
    SplitThree(b);
    if |t| == 0 {
      assert |b| == 3;
      DecodeFullGroup(b[0], b[1], b[2], 2);
      assert g + t == g;
      assert Decode(g) == Some([b[0], b[1], b[2]]);
      assert b == [b[0], b[1], b[2]];
    } else {
      DecodeFullGroup(b[0], b[1], b[2], 0);
      DecodeCons(g, t);
      assert Decode(g + t) == Some([b[0], b[1], b[2]] + b[3..]);
    }
  }

  lemma SplitThree(b: seq<Byte>)
    requires |b| >= 3
    ensures b == [b[0], b[1], b[2]] + b[3..]
  {
  }

  lemma DecodeCons(g: string, t: string)
    requires |g| == 4 && |t| >= 1
    ensures Decode(g + t) ==
      match DecodeGroup(g, 0)
      case None => None
      case Some(x) => (match Decode(t) case None => None case Some(y) => Some(x + y))
  {
    assert (g + t)[..4] == g;
    assert (g + t)[4..] == t;
  }
}
