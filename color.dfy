/**
 * The median-colour text of the JSON engine (thumbor/engines/json_engine.py):
 * the RGB triple the pixel reducer returns, written as `'#%02x%02x%02x'`.
 *
 * Python's `%02x` writes a non-negative number in lower-case hexadecimal,
 * padded on the left with `0` to two characters; a negative number gets a
 * `-` sign followed by the digits of its magnitude (the sign counts towards
 * the width of two, so no padding is ever added after it).
 */
module Color {
  import opened Wrappers

  datatype Rgb = Rgb(red: int, green: int, blue: int)

  /** The range the pixel reducer is expected to produce for each channel. */
  predicate InByteRange(c: Rgb) {
    0 <= c.red < 256 && 0 <= c.green < 256 && 0 <= c.blue < 256
  }

  /** `0`-`9` and `a`-`f`: the digits `%x` writes. */
  predicate IsLowerHexDigit(ch: char) {
    '0' <= ch <= '9' || 'a' <= ch <= 'f'
  }

  /** The lower-case digit for `d`. */
  function HexDigit(d: nat): (ch: char)
    requires d < 16
    ensures IsLowerHexDigit(ch)
  {
    if d < 10 then ('0' as int + d) as char else ('a' as int + d - 10) as char
  }

  /** Python's `'%x' % n` for `n >= 0`: most significant digit first, no padding. */
  function Hex(n: nat): string
    decreases n
  {
    if n < 16 then [HexDigit(n)] else Hex(n / 16) + [HexDigit(n % 16)]
  }

  /** Python's `'%02x' % n`. */
  function Hex02(n: int): string {
    if n < 0 then "-" + Hex(-n)
    else if n < 16 then "0" + Hex(n)
    else Hex(n)
  }

  /** `get_median_color`: the triple as `#rrggbb`. */
  function MedianHex(c: Rgb): string {
    "#" + Hex02(c.red) + Hex02(c.green) + Hex02(c.blue)
  }

  // ---- Reading the text back: the inverse used to state the round trips ----

  function DigitValue(ch: char): (d: nat)
    requires IsLowerHexDigit(ch)
    ensures d < 16
  {
    if ch <= '9' then ch as int - '0' as int else ch as int - 'a' as int + 10
  }

  predicate IsHexText(s: string) {
    forall k :: 0 <= k < |s| ==> IsLowerHexDigit(s[k])
  }

  /** The value of a run of lower-case hexadecimal digits. */
  function HexValue(s: string): nat
    requires IsHexText(s)
    decreases |s|
  {
    if s == [] then 0 else 16 * HexValue(s[..|s| - 1]) + DigitValue(s[|s| - 1])
  }

  /** The value of a non-empty run of digits; nothing for anything else. */
  function ParseHex(s: string): Option<nat> {
    if s != [] && IsHexText(s) then Some(HexValue(s)) else None
  }

  /** The value of one `%02x` field, with its optional sign. */
  function ParseHex02(s: string): Option<int> {
    if s != [] && s[0] == '-' then
      match ParseHex(s[1..])
      case None => None
      case Some(m) => Some(-(m as int))
    else
      match ParseHex(s)
      case None => None
      case Some(m) => Some(m)
  }

  /** The triple written in a seven-character `#rrggbb` text. */
  function ParseMedianHex(s: string): Option<Rgb> {
    if |s| != 7 || s[0] != '#' then None
    else
      match (ParseHex(s[1..3]), ParseHex(s[3..5]), ParseHex(s[5..7]))
      case (Some(r), Some(g), Some(b)) => Some(Rgb(r, g, b))
      case _ => None
  }

  /** `%x` writes at least one digit, all of them lower-case hexadecimal,
      and at most two below 256. */
  lemma {:induction false} HexShape(n: nat)
    ensures 1 <= |Hex(n)|
    ensures n < 16 <==> |Hex(n)| == 1
    ensures n < 256 ==> |Hex(n)| <= 2
    ensures IsHexText(Hex(n))
    decreases n
  {
    if n >= 16 {
      HexShape(n / 16);
    }
  }

  /** Reading the digits `%x` wrote gives the number back. */
  lemma {:induction false} HexRoundTrip(n: nat)
    ensures IsHexText(Hex(n)) && HexValue(Hex(n)) == n
    decreases n
  {
    HexShape(n);
    if n >= 16 {
      var q, r := n / 16, n % 16;
      HexRoundTrip(q);
      var s := Hex(n);
      assert s[..|s| - 1] == Hex(q);
      assert DigitValue(s[|s| - 1]) == r;
    }
  }

  /** `%02x` of a value in 0..255 is exactly two lower-case hexadecimal digits. */
  lemma Hex02Shape(n: int)
    requires 0 <= n < 256
    ensures |Hex02(n)| == 2 && IsHexText(Hex02(n))
  {
    HexShape(n);
  }

  /** A field without a sign reads as its digits. */
  lemma ParseUnsigned(s: string, m: nat)
    requires s != [] && s[0] != '-' && ParseHex(s) == Some(m)
    ensures ParseHex02(s) == Some(m)
  {
  }

  /** A field with a sign reads as the negated value of the digits after it. */
  lemma ParseSigned(s: string, m: nat)
    requires s != [] && s[0] == '-' && ParseHex(s[1..]) == Some(m)
    ensures ParseHex02(s) == Some(-(m as int))
  {
  }

  /** Every `%02x` field, whatever the sign, reads back as the number written. */
  lemma Hex02RoundTrip(n: int)
    ensures ParseHex02(Hex02(n)) == Some(n)
  {
    if n < 0 {
      NegativeRoundTrip(n);
    } else {
      UnsignedRoundTrip(n);
    }
  }

  /** `%x` of a positive number never starts with `0`. */
  lemma {:induction false} HexNoLeadingZero(m: nat)
    requires m >= 1
    ensures Hex(m)[0] != '0'
    decreases m
  {
    if m >= 16 {
      HexNoLeadingZero(m / 16);
      HexShape(m / 16);
      assert Hex(m)[0] == Hex(m / 16)[0];
    }
  }

  /** A negative `%02x` field is `-` followed directly by the magnitude's
      digits, with no `0` padded after the sign (the sign counts towards the
      width of two), and it reads back as the number written. */
  lemma NegativeRoundTrip(n: int)
    requires n < 0
    ensures Hex02(n)[0] == '-' && Hex02(n)[1..] == Hex(-n) && Hex02(n)[1] != '0'
    ensures -16 < n <==> |Hex02(n)| == 2
    ensures ParseHex02(Hex02(n)) == Some(n)
  {
    HexShape(-n);
    HexNoLeadingZero(-n);
    var s := "-" + Hex(-n);
    HexRoundTrip(-n);
    assert s[1..] == Hex(-n);
    ParseSigned(s, -n);
  }

  lemma UnsignedRoundTrip(n: int)
    requires n >= 0
    ensures ParseHex02(Hex02(n)) == Some(n)
  {
    HexRoundTrip(n);
    var s := Hex02(n);
    if n < 16 {
      var t := Hex(n);
      assert s == "0" + t;
      assert s[..1] == "0" && s[..|s| - 1] == "0";
      assert HexValue(s[..1]) == 0;
      assert HexValue(s) == DigitValue(t[0]);
    }
    ParseUnsigned(s, n);
  }

  /** For channels in 0..255 the median colour is `#` and six lower-case
      hexadecimal digits, two per channel. */
  lemma MedianHexShape(c: Rgb)
    requires InByteRange(c)
    ensures |MedianHex(c)| == 7 && MedianHex(c)[0] == '#'
    ensures forall k :: 1 <= k < 7 ==> IsLowerHexDigit(MedianHex(c)[k])
    ensures MedianHex(c)[1..3] == Hex02(c.red)
    ensures MedianHex(c)[3..5] == Hex02(c.green)
    ensures MedianHex(c)[5..7] == Hex02(c.blue)
  {
    Hex02Shape(c.red);
    Hex02Shape(c.green);
    Hex02Shape(c.blue);
    var s := MedianHex(c);
    assert s == "#" + Hex02(c.red) + Hex02(c.green) + Hex02(c.blue);
  }

  /** For channels in 0..255 the median colour text determines the triple. */
  lemma MedianHexRoundTrip(c: Rgb)
    requires InByteRange(c)
    ensures ParseMedianHex(MedianHex(c)) == Some(c)
  {
    MedianHexShape(c);
    Hex02RoundTrip(c.red);
    Hex02RoundTrip(c.green);
    Hex02RoundTrip(c.blue);
  }
}
