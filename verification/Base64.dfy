/**
 Base64 with the standard alphabet and padding (section 4 of RFC 4648): Go's
 `base64.StdEncoding` on the writing side, `base64 -d` on the reading side.
 */
module Base64 {
  import opened Bytes

  datatype Decoded = Bad | Good(bytes: Bytes)

  const PAD: Byte := '='

  function Digit(n: int): (c: Byte)
    requires 0 <= n < 64
    ensures Value(c) == n && c != PAD
    ensures c != '\n' && c != ' ' && c != '\0'
  {
    if n < 26 then ByteOf('A' as int + n)
    else if n < 52 then ByteOf('a' as int + n - 26)
    else if n < 62 then ByteOf('0' as int + n - 52)
    else if n == 62 then '+' else '/'
  }

  /** The value of a digit, or -1. */
  function Value(c: Byte): int
  {
    if 'A' <= c <= 'Z' then c as int - 'A' as int
    else if 'a' <= c <= 'z' then c as int - 'a' as int + 26
    else if '0' <= c <= '9' then c as int - '0' as int + 52
    else if c == '+' then 62 else if c == '/' then 63 else -1
  }

  /** Three bytes as four digits. */
  function EncodeGroup(p: Byte, q: Byte, r: Byte): Bytes {
    var x, y, z := p as int, q as int, r as int;
    [Digit(x / 4), Digit(x % 4 * 16 + y / 16), Digit(y % 16 * 4 + z / 64), Digit(z % 64)]
  }

  const ZERO: Byte := '\0'

  function Encode(s: Bytes): Bytes {
    if |s| == 0 then []
    else if |s| == 1 then EncodeGroup(s[0], ZERO, ZERO)[..2] + [PAD, PAD]
    else if |s| == 2 then EncodeGroup(s[0], s[1], ZERO)[..3] + [PAD]
    else EncodeGroup(s[0], s[1], s[2]) + Encode(s[3..])
  }

  /** Four digits as three bytes. */
  function DecodeGroup(a: int, b: int, c: int, d: int): Bytes
    requires 0 <= a < 64 && 0 <= b < 64 && 0 <= c < 64 && 0 <= d < 64
  {
    [ByteOf(a * 4 + b / 16), ByteOf(b % 16 * 16 + c / 4), ByteOf(c % 4 * 64 + d)]
  }

  /** Padding only at the very end, and only over zero bits' digits. */
  function Decode(t: Bytes): Decoded {
    if |t| == 0 then Good([])
    else if |t| < 4 || Value(t[0]) < 0 || Value(t[1]) < 0 then Bad
    else if t[2] == PAD then
      if t[3] == PAD && |t| == 4 then Good(DecodeGroup(Value(t[0]), Value(t[1]), 0, 0)[..1]) else Bad
    else if Value(t[2]) < 0 then Bad
    else if t[3] == PAD then
      if |t| == 4 then Good(DecodeGroup(Value(t[0]), Value(t[1]), Value(t[2]), 0)[..2]) else Bad
    else if Value(t[3]) < 0 then Bad
    else
      var rest := Decode(t[4..]);
      if rest.Bad? then Bad
      else Good(DecodeGroup(Value(t[0]), Value(t[1]), Value(t[2]), Value(t[3])) + rest.bytes)
  }

  lemma GroupRoundTrip(p: Byte, q: Byte, r: Byte)
    ensures var g := EncodeGroup(p, q, r);
            DecodeGroup(Value(g[0]), Value(g[1]), Value(g[2]), Value(g[3])) == [p, q, r]
  {
    var x, y, z := p as int, q as int, r as int;
    assert (x % 4 * 16 + y / 16) / 16 == x % 4 && (x % 4 * 16 + y / 16) % 16 == y / 16;
    assert (y % 16 * 4 + z / 64) / 4 == y % 16 && (y % 16 * 4 + z / 64) % 4 == z / 64;
  }

  lemma DecodeFull(s: Bytes, whole: Bytes, tail: Bytes)
    requires |s| > 2 && whole == EncodeGroup(s[0], s[1], s[2]) + tail && Decode(tail) == Good(s[3..])
    ensures Decode(whole) == Good(s)
  {
    assert whole[4..] == tail;
    GroupRoundTrip(s[0], s[1], s[2]);
    assert s == [s[0], s[1], s[2]] + s[3..];
  }

  lemma DecodeShort(p: Byte, q: Byte)
    ensures Decode(EncodeGroup(p, ZERO, ZERO)[..2] + [PAD, PAD]) == Good([p])
    ensures Decode(EncodeGroup(p, q, ZERO)[..3] + [PAD]) == Good([p, q])
  {
    GroupRoundTrip(p, ZERO, ZERO);
    GroupRoundTrip(p, q, ZERO);
  }

  /** Every byte string survives the trip. */
  lemma {:induction false} RoundTrip(s: Bytes)
    ensures Decode(Encode(s)) == Good(s)
  {
    if |s| == 1 {
      DecodeShort(s[0], s[0]);
      assert s == [s[0]];
    } else if |s| == 2 {
      DecodeShort(s[0], s[1]);
      assert s == [s[0], s[1]];
    } else if |s| > 2 {
      RoundTrip(s[3..]);
      DecodeFull(s, Encode(s), Encode(s[3..]));
    }
  }

  /** The encoding is one line of visible text, and empty only for the empty string. */
  lemma {:induction false} EncodeIsOneLine(s: Bytes)
    ensures '\n' !in Encode(s) && ' ' !in Encode(s) && '\0' !in Encode(s)
    ensures Encode(s) == [] <==> s == []
  {
    if |s| > 2 {
      EncodeIsOneLine(s[3..]);
    }
  }

  // ----- what it stands for ------------------------------------------------------------------------

  const UPPER := "ABCDEFGHIJKLMNOPQRSTUVWXYZ"
  const LOWER := "abcdefghijklmnopqrstuvwxyz"
  const DECIMAL := "0123456789"

  /** The digits are the letters of the standard alphabet, in its order. */
  lemma DigitsAreTheAlphabet(n: int)
    requires 0 <= n < 64
    ensures n < 26 ==> Digit(n) == UPPER[n]
    ensures 26 <= n < 52 ==> Digit(n) == LOWER[n - 26]
    ensures 52 <= n < 62 ==> Digit(n) == DECIMAL[n - 52]
    ensures n == 62 ==> Digit(n) == '+'
    ensures n == 63 ==> Digit(n) == '/'
  {}

  function ByteAt(s: Bytes, k: nat): int {
    if k < |s| then s[k] as int else 0
  }

  function DigitAt(t: Bytes, k: nat): int {
    if k < |t| && t[k] != PAD then Value(t[k]) else 0
  }

  /** The number the i-th three bytes are to base 256; missing ones count as zero. */
  function BytesNumber(s: Bytes, i: nat): int {
    ByteAt(s, 3 * i) * 65536 + ByteAt(s, 3 * i + 1) * 256 + ByteAt(s, 3 * i + 2)
  }

  /** The number the i-th four digits are to base 64; padding counts as zero. */
  function DigitsNumber(t: Bytes, i: nat): int {
    DigitAt(t, 4 * i) * 262144 + DigitAt(t, 4 * i + 1) * 4096 + DigitAt(t, 4 * i + 2) * 64 + DigitAt(t, 4 * i + 3)
  }

  lemma GroupIsPositional(p: Byte, q: Byte, r: Byte)
    ensures var g := EncodeGroup(p, q, r);
            Value(g[0]) * 262144 + Value(g[1]) * 4096 + Value(g[2]) * 64 + Value(g[3])
            == p as int * 65536 + q as int * 256 + r as int
    ensures q == ZERO && r == ZERO ==> Value(EncodeGroup(p, q, r)[2]) == 0
    ensures r == ZERO ==> Value(EncodeGroup(p, q, r)[3]) == 0
  {
    var x, y, z := p as int, q as int, r as int;
    assert x == x / 4 * 4 + x % 4 && y == y / 16 * 16 + y % 16 && z == z / 64 * 64 + z % 64;
  }

  /** The four digits of the first group, with its padding, and the rest. */
  lemma FirstGroup(s: Bytes) returns (g: Bytes)
    requires s != []
    ensures |g| == 4 && Encode(s) == g + (if |s| > 3 then Encode(s[3..]) else [])
    ensures g[0] != PAD && g[1] != PAD && (g[2] == PAD <==> |s| == 1) && (g[3] == PAD <==> |s| < 3)
    ensures DigitsNumber(g, 0) == BytesNumber(s, 0)
  {
    if |s| < 3 {
      GroupIsPositional(s[0], if |s| == 2 then s[1] else ZERO, ZERO);
      g := Encode(s);
    } else {
      GroupIsPositional(s[0], s[1], s[2]);
      g := EncodeGroup(s[0], s[1], s[2]);
      if |s| == 3 { assert s[3..] == []; }
    }
  }

  /** Only what is missing of the last three bytes is padded. */
  lemma {:induction false} PaddingIsExact(s: Bytes, n: nat, r: nat)
    requires |s| == 3 * n + r && r < 3
    ensures |Encode(s)| == 4 * n + (if r == 0 then 0 else 4)
    ensures forall k :: 0 <= k < |Encode(s)| ==>
              (Encode(s)[k] == PAD <==> (r == 1 && k >= 4 * n + 2) || (r == 2 && k == 4 * n + 3))
  {
    if s != [] {
      var g := FirstGroup(s);
      if |s| > 3 {
        PaddingIsExact(s[3..], n - 1, r);
        ShiftPadding(g, Encode(s[3..]), n, r);
      }
    }
  }

  lemma ShiftPadding(g: Bytes, t: Bytes, n: nat, r: nat)
    requires |g| == 4 && PAD !in g && n > 0
    requires forall k :: 0 <= k < |t| ==> (t[k] == PAD <==> (r == 1 && k >= 4 * (n - 1) + 2) || (r == 2 && k == 4 * (n - 1) + 3))
    ensures forall k :: 0 <= k < |g + t| ==> ((g + t)[k] == PAD <==> (r == 1 && k >= 4 * n + 2) || (r == 2 && k == 4 * n + 3))
  {}

  /** Every three bytes and their four digits are the same number: with the alphabet and
      the padding, this is the encoding. */
  lemma {:induction false} EncodeIsPositional(s: Bytes, i: nat)
    requires 3 * i < |s|
    ensures DigitsNumber(Encode(s), i) == BytesNumber(s, i)
  {
    var g := FirstGroup(s);
    if i == 0 {
      FirstNumber(g, if |s| > 3 then Encode(s[3..]) else []);
    } else {
      EncodeIsPositional(s[3..], i - 1);
      TailNumbers(s, g, Encode(s[3..]), i);
    }
  }

  lemma FirstNumber(g: Bytes, t: Bytes)
    requires |g| == 4
    ensures DigitsNumber(g + t, 0) == DigitsNumber(g, 0)
  {}

  lemma TailNumbers(s: Bytes, g: Bytes, t: Bytes, i: nat)
    requires |s| > 3 && |g| == 4 && i > 0
    ensures BytesNumber(s, i) == BytesNumber(s[3..], i - 1) && DigitsNumber(g + t, i) == DigitsNumber(t, i - 1)
  {}
}
