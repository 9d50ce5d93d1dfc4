/**
 * The standard base 64 encoding of section 4 of RFC 4648, which Python's
 * `base64.b64encode(...).decode('utf-8')` produces: every 3 input octets become
 * 4 characters of the 64-character alphabet, and a final group of 1 or 2
 * octets is completed with `=` padding.
 */
module Base64 {
  import opened Wrappers

  /** The 64 letters of the standard alphabet (Table 1 of RFC 4648). */
  predicate IsAlphabetChar(c: char) {
    ('A' <= c <= 'Z') || ('a' <= c <= 'z') || ('0' <= c <= '9') || c == '+' || c == '/'
  }

  /** A character an encoding may contain: an alphabet letter or the pad `=`. */
  predicate IsEncodingChar(c: char) {
    IsAlphabetChar(c) || c == '='
  }

  /** The letter Table 1 of RFC 4648 assigns to a 6-bit value. */
  function Sextet(n: int): (c: char)
    requires 0 <= n < 64
    ensures IsAlphabetChar(c)
  {
    if n < 26 then ('A' as int + n) as char
    else if n < 52 then ('a' as int + n - 26) as char
    else if n < 62 then ('0' as int + n - 52) as char
    else if n == 62 then '+'
    else '/'
  }

  /** Three octets, 24 bits, as four letters. */
  function EncodeGroup(a: Byte, b: Byte, c: Byte): (r: string)
    ensures |r| == 4 && forall i :: 0 <= i < 4 ==> IsAlphabetChar(r[i])
  {
    [Sextet(a / 4), Sextet((a % 4) * 16 + b / 16), Sextet((b % 16) * 4 + c / 64), Sextet(c % 64)]
  }

  /** The last one or two octets, padded to four characters. */
  function EncodeTail(x: seq<Byte>): (r: string)
    requires 1 <= |x| <= 2
    ensures |r| == 4 && IsAlphabetChar(r[0]) && IsAlphabetChar(r[1]) && r[3] == '='
    ensures r[2] == '=' <==> |x| == 1
    ensures r[2] != '=' ==> IsAlphabetChar(r[2])
  {
    if |x| == 1 then [Sextet(x[0] / 4), Sextet((x[0] % 4) * 16), '=', '=']
    else [Sextet(x[0] / 4), Sextet((x[0] % 4) * 16 + x[1] / 16), Sextet((x[1] % 16) * 4), '=']
  }

  function Encode(x: seq<Byte>): (r: string)
    ensures |r| % 4 == 0 && (|x| == 0 <==> |r| == 0)
    ensures forall i :: 0 <= i < |r| ==> IsEncodingChar(r[i])
    ensures forall i :: 0 <= i < |r| && !IsAlphabetChar(r[i]) ==> |x| % 3 != 0 && |r| - 2 <= i
    decreases |x|
  {
    if |x| == 0 then ""
    else if |x| <= 2 then EncodeTail(x)
    else
      var rest := Encode(x[3..]);
      assert (4 + |rest|) % 4 == |rest| % 4;
      EncodeGroup(x[0], x[1], x[2]) + rest
  }

  /** Four characters for every started group of three octets. */
  lemma {:induction false} EncodeLength(x: seq<Byte>)
    ensures |Encode(x)| == 4 * ((|x| + 2) / 3)
    decreases |x|
  {
    if |x| > 2 {
      EncodeLength(x[3..]);
      assert (|x| + 2) / 3 == (|x[3..]| + 2) / 3 + 1;
    }
  }

  /** The 6-bit value of an alphabet letter: the inverse of `Sextet`. */
  function SextetValue(c: char): (r: Option<int>)
    ensures r.Some? <==> IsAlphabetChar(c)
    ensures r.Some? ==> 0 <= r.value < 64
  {
    if 'A' <= c <= 'Z' then Some(c as int - 'A' as int)
    else if 'a' <= c <= 'z' then Some(c as int - 'a' as int + 26)
    else if '0' <= c <= '9' then Some(c as int - '0' as int + 52)
    else if c == '+' then Some(62)
    else if c == '/' then Some(63)
    else None
  }

  lemma SextetRoundTrip(n: int)
    requires 0 <= n < 64
    ensures SextetValue(Sextet(n)) == Some(n)
  {
  }

  /** Four letters back to three octets. */
  function DecodeGroup(s: string): (r: Option<seq<Byte>>)
    requires |s| == 4
    ensures r.Some? ==> |r.value| == 3
  {
    var v0, v1, v2, v3 := SextetValue(s[0]), SextetValue(s[1]), SextetValue(s[2]), SextetValue(s[3]);
    if v0.None? || v1.None? || v2.None? || v3.None? then None
    else Some([v0.value * 4 + v1.value / 16, (v1.value % 16) * 16 + v2.value / 4, (v2.value % 4) * 64 + v3.value])
  }

  /** The last group: four letters, or two or three letters completed by `=`. */
  function DecodeLast(s: string): (r: Option<seq<Byte>>)
    requires |s| == 4
    ensures r.Some? ==> 1 <= |r.value| <= 3
  {
    if s[3] != '=' then DecodeGroup(s)
    else
      var v0, v1 := SextetValue(s[0]), SextetValue(s[1]);
      if v0.None? || v1.None? then None
      else if s[2] == '=' then Some([v0.value * 4 + v1.value / 16])
      else match SextetValue(s[2])
        case None => None
        case Some(v2) => Some([v0.value * 4 + v1.value / 16, (v1.value % 16) * 16 + v2 / 4])
  }

  /** Base 64 decoding of section 4 of RFC 4648: `None` for text that is not a padded encoding. */
  function Decode(s: string): (r: Option<seq<Byte>>)
    decreases |s|
  {
    if s == [] then Some([])
    else if |s| < 4 then None
    else if |s| == 4 then DecodeLast(s)
    else match DecodeGroup(s[..4])
      case None => None
      case Some(head) =>
        match Decode(s[4..])
        case None => None
        case Some(tail) => Some(head + tail)
  }

  /** Splitting `k * 16 + r` by 16 gives back `k` and `r`. */
  lemma DivMod16(k: int, r: int)
    requires 0 <= k && 0 <= r < 16
    ensures (k * 16 + r) / 16 == k && (k * 16 + r) % 16 == r
  {
  }

  /** Splitting `k * 4 + r` by 4 gives back `k` and `r`. */
  lemma DivMod4(k: int, r: int)
    requires 0 <= k && 0 <= r < 4
    ensures (k * 4 + r) / 4 == k && (k * 4 + r) % 4 == r
  {
  }

  /** The sextets of three octets recombine to those octets. */
  lemma GroupRoundTrip(a: Byte, b: Byte, c: Byte)
    ensures DecodeGroup(EncodeGroup(a, b, c)) == Some([a, b, c])
    ensures DecodeLast(EncodeGroup(a, b, c)) == Some([a, b, c])
  {
    var v0, v1, v2, v3 := a / 4, (a % 4) * 16 + b / 16, (b % 16) * 4 + c / 64, c % 64;
    DivMod16(a % 4, b / 16);
    DivMod4(b % 16, c / 64);
    SextetRoundTrip(v0);
    SextetRoundTrip(v1);
    SextetRoundTrip(v2);
    SextetRoundTrip(v3);
    assert EncodeGroup(a, b, c) == [Sextet(v0), Sextet(v1), Sextet(v2), Sextet(v3)];
    assert v0 * 4 + v1 / 16 == a;
    assert (v1 % 16) * 16 + v2 / 4 == b;
    assert (v2 % 4) * 64 + v3 == c;
  }

  /** The padded last group decodes to its one or two octets. */
  lemma TailRoundTrip(x: seq<Byte>)
    requires 1 <= |x| <= 2
    ensures DecodeLast(EncodeTail(x)) == Some(x)
  {
    SextetRoundTrip(x[0] / 4);
    if |x| == 1 {
      DivMod16(x[0] % 4, 0);
      SextetRoundTrip((x[0] % 4) * 16);
      assert (x[0] / 4) * 4 + ((x[0] % 4) * 16) / 16 == x[0];
      assert x == [x[0]];
    } else {
      var v1 := (x[0] % 4) * 16 + x[1] / 16;
      DivMod16(x[0] % 4, x[1] / 16);
      DivMod4(x[1] % 16, 0);
      SextetRoundTrip(v1);
      SextetRoundTrip((x[1] % 16) * 4);
      assert (x[0] / 4) * 4 + v1 / 16 == x[0];
      assert (v1 % 16) * 16 + ((x[1] % 16) * 4) / 4 == x[1];
      assert x == [x[0], x[1]];
    }
  }

  /** A full group in front of more text decodes to its octets followed by the rest's. */
  lemma DecodeCons(g: string, rest: string)
    requires |g| == 4 && rest != []
    ensures Decode(g + rest) ==
      if DecodeGroup(g).None? || Decode(rest).None? then None
      else Some(DecodeGroup(g).value + Decode(rest).value)
  {
    assert (g + rest)[..4] == g && (g + rest)[4..] == rest;
  }

  /** Three or more octets: the first group, then the encoding of the rest. */
  lemma EncodeCons(x: seq<Byte>)
    requires |x| >= 3
    ensures Encode(x) == EncodeGroup(x[0], x[1], x[2]) + Encode(x[3..])
  {
  }

  /** The first three octets, then the rest. */
  lemma SplitThree(x: seq<Byte>)
    requires |x| >= 3
    ensures x == [x[0], x[1], x[2]] + x[3..]
  {
    assert |[x[0], x[1], x[2]] + x[3..]| == |x|;
  }

  /** One or two octets: the padded group round-trips. */
  lemma DecodeEncodeTail(x: seq<Byte>)
    requires 1 <= |x| <= 2
    ensures Decode(Encode(x)) == Some(x)
  {
    var e := EncodeTail(x);
    assert Encode(x) == e;
    assert Decode(e) == DecodeLast(e);
    TailRoundTrip(x);
  }

  /** Exactly three octets: one full group round-trips. */
  lemma DecodeEncodeGroup(x: seq<Byte>)
    requires |x| == 3
    ensures Decode(Encode(x)) == Some(x)
  {
    var g := EncodeGroup(x[0], x[1], x[2]);
    EncodeCons(x);
    assert Encode(x[3..]) == [];
    assert Encode(x) == g;
    assert Decode(g) == DecodeLast(g);
    GroupRoundTrip(x[0], x[1], x[2]);
    SplitThree(x);
    assert [x[0], x[1], x[2]] + x[3..] == [x[0], x[1], x[2]];
  }

  /** Decoding an encoding gives back the octets: the encoding loses nothing. */
  lemma {:induction false} DecodeEncode(x: seq<Byte>)
    ensures Decode(Encode(x)) == Some(x)
    decreases |x|
  {
    if |x| == 0 {
    } else if |x| <= 2 {
      DecodeEncodeTail(x);
    } else if |x| == 3 {
      DecodeEncodeGroup(x);
    } else {
      var g := EncodeGroup(x[0], x[1], x[2]);
      var rest := Encode(x[3..]);
      EncodeCons(x);
      DecodeEncode(x[3..]);
      GroupRoundTrip(x[0], x[1], x[2]);
      DecodeCons(g, rest);
      SplitThree(x);
    }
  }
}
