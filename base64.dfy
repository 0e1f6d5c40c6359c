/**
 * Standard base64 with padding (section 4 of RFC 4648), as Go's
 * `base64.StdEncoding` encodes it, the shape test the ECS launcher applies
 * before decoding, and the decoder on the inputs that pass that test.
 */
module Base64 {
  import opened Common

  /** The padding character '='. */
  const Pad: byte := 61

  /** The character for a 6-bit value: A-Z, a-z, 0-9, '+', '/'. */
  function Char(v: int): (c: byte)
    requires 0 <= v < 64
    ensures IsAlphabet(c) && c != Pad
  {
    if v < 26 then 65 + v
    else if v < 52 then 71 + v
    else if v < 62 then v - 4
    else if v == 62 then 43
    else 47
  }

  /** The class `[A-Za-z0-9+/]`. */
  predicate IsAlphabet(c: byte)
  {
    (65 <= c <= 90) || (97 <= c <= 122) || (48 <= c <= 57) || c == 43 || c == 47
  }

  /** The 6-bit value of an alphabet character. */
  function Value(c: byte): (v: int)
    requires IsAlphabet(c)
    ensures 0 <= v < 64 && Char(v) == c
  {
    if 65 <= c <= 90 then c - 65
    else if 97 <= c <= 122 then c - 71
    else if 48 <= c <= 57 then c + 4
    else if c == 43 then 62
    else 63
  }

  lemma ValueOfChar(v: int)
    requires 0 <= v < 64
    ensures Value(Char(v)) == v
  {
  }

  /** The four characters of three bytes: their 24 bits as four 6-bit values. */
  function Group3(x: byte, y: byte, z: byte): (g: Bytes)
  {
    [Char(x / 4), Char((x % 4) * 16 + y / 16), Char((y % 16) * 4 + z / 64), Char(z % 64)]
  }

  /** A final two bytes: three characters (the last 2 bits zero) and one '='. */
  function Group2(x: byte, y: byte): (g: Bytes)
  {
    [Char(x / 4), Char((x % 4) * 16 + y / 16), Char((y % 16) * 4), Pad]
  }

  /** A final byte: two characters (the last 4 bits zero) and "==". */
  function Group1(x: byte): (g: Bytes)
  {
    [Char(x / 4), Char((x % 4) * 16), Pad, Pad]
  }

  /** `base64.StdEncoding.EncodeToString`: each 3 bytes become 4 characters; a final
      1 or 2 bytes become 2 or 3 characters followed by "==" or "=". */
  function Encode(b: Bytes): (r: Bytes)
    decreases |b|
  {
    if |b| == 0 then []
    else if |b| == 1 then Group1(b[0])
    else if |b| == 2 then Group2(b[0], b[1])
    else Group3(b[0], b[1], b[2]) + Encode(b[3..])
  }

  /** Four characters of the alphabet: one repetition of `(?:[A-Za-z0-9+/]{4})`. */
  predicate IsFullGroup(g: Bytes)
  {
    |g| == 4 && IsAlphabet(g[0]) && IsAlphabet(g[1]) && IsAlphabet(g[2]) && IsAlphabet(g[3])
  }

  /** The optional tail `(?:[A-Za-z0-9+/]{2}==|[A-Za-z0-9+/]{3}=)`. */
  predicate IsPaddedGroup(g: Bytes)
  {
    |g| == 4 && IsAlphabet(g[0]) && IsAlphabet(g[1]) &&
    ((g[2] == Pad && g[3] == Pad) || (IsAlphabet(g[2]) && g[3] == Pad))
  }

  /** The launcher's pattern `^(?:[A-Za-z0-9+/]{4})*(?:[A-Za-z0-9+/]{2}==|[A-Za-z0-9+/]{3}=)?$`:
      full groups, then at most one padded group, then the end of the text. */
  predicate IsShape(s: Bytes)
    decreases |s|
  {
    if |s| == 0 then true
    else if |s| < 4 then false
    else if |s| == 4 then IsFullGroup(s) || IsPaddedGroup(s)
    else IsFullGroup(s[..4]) && IsShape(s[4..])
  }

  /** The language of the launcher's pattern, character by character: a length that is
      a multiple of four, alphabet characters up to the last two, which are either alphabet
      characters, or an alphabet character and '=', or "==". */
  predicate ShapeByCharacters(s: Bytes)
  {
    && |s| % 4 == 0
    && (forall i :: 0 <= i < |s| - 2 ==> IsAlphabet(s[i]))
    && (|s| > 0 ==>
          && (IsAlphabet(s[|s| - 2]) || (s[|s| - 2] == Pad && s[|s| - 1] == Pad))
          && (IsAlphabet(s[|s| - 1]) || s[|s| - 1] == Pad))
  }

  /** The group-by-group matcher accepts exactly the pattern's language. */
  lemma {:induction false} ShapeLanguage(s: Bytes)
    ensures IsShape(s) <==> ShapeByCharacters(s)
    decreases |s|
  {
    if |s| > 4 {
      var t := s[4..];
      ShapeLanguage(t);
      assert forall i :: 0 <= i < |t| ==> t[i] == s[i + 4];
      if ShapeByCharacters(s) {
        assert IsAlphabet(s[0]) && IsAlphabet(s[1]) && IsAlphabet(s[2]) && IsAlphabet(s[3]);
        assert s[..4] == [s[0], s[1], s[2], s[3]];
        assert ShapeByCharacters(t);
      }
      if IsShape(s) {
        forall i | 0 <= i < |s| - 2
          ensures IsAlphabet(s[i])
        {
          if i < 4 {
            assert s[..4][i] == s[i];
          } else {
            assert t[i - 4] == s[i];
          }
        }
      }
    }
  }

  /** Three bytes from a full group. */
  function DecodeGroup(g: Bytes): (r: Bytes)
    requires IsFullGroup(g)
    ensures |r| == 3
  {
    var a, b, c, d := Value(g[0]), Value(g[1]), Value(g[2]), Value(g[3]);
    [a * 4 + b / 16, (b % 16) * 16 + c / 4, (c % 4) * 64 + d]
  }

  /** One or two bytes from a padded group; the bits the padding leaves over are
      ignored, as Go's non-strict decoder ignores them. */
  function DecodePadded(g: Bytes): (r: Bytes)
    requires IsPaddedGroup(g)
    ensures |r| == if g[2] == Pad then 1 else 2
  {
    var a, b := Value(g[0]), Value(g[1]);
    if g[2] == Pad then [a * 4 + b / 16]
    else [a * 4 + b / 16, (b % 16) * 16 + Value(g[2]) / 4]
  }

  /** `base64.StdEncoding.DecodeString` on an input of the launcher's shape. On such an
      input Go's decoder cannot fail, so the result is a plain value. */
  function Decode(s: Bytes): (r: Bytes)
    requires IsShape(s)
    decreases |s|
  {
    if |s| == 0 then []
    else if |s| == 4 && !IsFullGroup(s) then DecodePadded(s)
    else DecodeGroup(s[..4]) + Decode(s[4..])
  }

  lemma Group1RoundTrip(x: byte)
    ensures IsPaddedGroup(Group1(x)) && !IsFullGroup(Group1(x)) && DecodePadded(Group1(x)) == [x]
  {
    ValueOfChar(x / 4);
    ValueOfChar((x % 4) * 16);
  }

  lemma Group2RoundTrip(x: byte, y: byte)
    ensures IsPaddedGroup(Group2(x, y)) && !IsFullGroup(Group2(x, y)) && DecodePadded(Group2(x, y)) == [x, y]
  {
    ValueOfChar(x / 4);
    ValueOfChar((x % 4) * 16 + y / 16);
    ValueOfChar((y % 16) * 4);
    assert ((x % 4) * 16 + y / 16) / 16 == x % 4;
    assert ((x % 4) * 16 + y / 16) % 16 == y / 16;
    assert ((y % 16) * 4) / 4 == y % 16;
  }

  lemma Group3RoundTrip(x: byte, y: byte, z: byte)
    ensures IsFullGroup(Group3(x, y, z)) && DecodeGroup(Group3(x, y, z)) == [x, y, z]
  {
    ValueOfChar(x / 4);
    ValueOfChar((x % 4) * 16 + y / 16);
    ValueOfChar((y % 16) * 4 + z / 64);
    ValueOfChar(z % 64);
    assert ((x % 4) * 16 + y / 16) / 16 == x % 4;
    assert ((x % 4) * 16 + y / 16) % 16 == y / 16;
    assert ((y % 16) * 4 + z / 64) / 4 == y % 16;
    assert ((y % 16) * 4 + z / 64) % 4 == z / 64;
  }

  lemma DecodeLeadGroup(g: Bytes, rest: Bytes)
    requires IsFullGroup(g) && IsShape(rest)
    ensures IsShape(g + rest)
    ensures Decode(g + rest) == DecodeGroup(g) + Decode(rest)
  {
    var s := g + rest;
    assert s[..4] == g && s[4..] == rest;
    if rest == [] {
      assert s == g;
    }
  }

  lemma DecodePaddedGroup(g: Bytes)
    requires IsPaddedGroup(g) && !IsFullGroup(g)
    ensures IsShape(g) && Decode(g) == DecodePadded(g)
  {
  }

  /** Every encoding has the shape the launcher sniffs for, and decodes back to the input
      (section 4 of RFC 4648). */
  lemma {:induction false} RoundTrip(b: Bytes)
    ensures IsShape(Encode(b))
    ensures Decode(Encode(b)) == b
    decreases |b|
  {
    if |b| == 1 {
      Group1RoundTrip(b[0]);
      DecodePaddedGroup(Group1(b[0]));
    } else if |b| == 2 {
      Group2RoundTrip(b[0], b[1]);
      DecodePaddedGroup(Group2(b[0], b[1]));
    } else if |b| >= 3 {
      Group3RoundTrip(b[0], b[1], b[2]);
      RoundTrip(b[3..]);
      DecodeLeadGroup(Group3(b[0], b[1], b[2]), Encode(b[3..]));
      assert b == [b[0], b[1], b[2]] + b[3..];
    }
  }

  /** The encoding of n bytes has 4 * ceil(n / 3) characters. */
  lemma EncodeLength(b: Bytes)
    ensures |Encode(b)| == 4 * ((|b| + 2) / 3)
    decreases |b|
  {
    if |b| >= 3 {
      EncodeLength(b[3..]);
      assert |Encode(b)| == 4 + |Encode(b[3..])|;
      assert (|b| + 2) / 3 == (|b[3..]| + 2) / 3 + 1;
    }
  }
}
