/**
 * addAlpha: a `#RRGGBB` colour to the channels of an `rgba(r, g, b, alpha)`
 * string, each channel read with JavaScript's `parseInt(..., 16)`.
 */
module Colour {
  import opened Values

  /** The characters `parseInt` skips before a number: JavaScript white space and line terminators. */
  predicate IsJsWhitespace(c: char) {
    var n := c as int;
    (0x09 <= n <= 0x0D) || n == 0x20 || n == 0xA0 || n == 0x1680 || (0x2000 <= n <= 0x200A)
    || n == 0x2028 || n == 0x2029 || n == 0x202F || n == 0x205F || n == 0x3000 || n == 0xFEFF
  }

  predicate IsHexDigit(c: char) {
    ('0' <= c <= '9') || ('a' <= c <= 'f') || ('A' <= c <= 'F')
  }

  function DigitValue(c: char): (d: nat)
    requires IsHexDigit(c)
    ensures d < 16
  {
    if '0' <= c <= '9' then (c - '0') as nat
    else if 'a' <= c <= 'f' then (c - 'a') as nat + 10
    else (c - 'A') as nat + 10
  }

  predicate AllHexDigits(s: string) {
    forall i :: 0 <= i < |s| ==> IsHexDigit(s[i])
  }

  /** The value of a string of hex digits, most significant first. */
  function HexValue(z: string): nat
    requires AllHexDigits(z)
    decreases |z|
  {
    if z == [] then 0 else HexValue(z[..|z| - 1]) * 16 + DigitValue(z[|z| - 1])
  }

  /** One hex digit is worth at most 15, two at most 255. */
  lemma HexValueBound(z: string)
    requires AllHexDigits(z) && |z| <= 2
    ensures |z| <= 1 ==> HexValue(z) <= 15
    ensures HexValue(z) <= 255
  {
    if |z| == 2 {
      assert AllHexDigits(z[..1]);
    }
  }

  function TrimStart(s: string): (r: string)
    ensures |r| <= |s|
    ensures r == [] || !IsJsWhitespace(r[0])
    ensures s != [] && !IsJsWhitespace(s[0]) ==> r == s
    ensures r == s[|s| - |r|..]
  {
    if s != [] && IsJsWhitespace(s[0]) then
      var r := TrimStart(s[1..]);
      assert s[1..][|s| - 1 - |r|..] == s[|s| - |r|..];
      r
    else s
  }

  /** Everything TrimStart drops is white space. */
  lemma {:induction false} TrimStartDropsOnlyWhitespace(s: string)
    ensures forall i :: 0 <= i < |s| - |TrimStart(s)| ==> IsJsWhitespace(s[i])
  {
    if s != [] && IsJsWhitespace(s[0]) {
      TrimStartDropsOnlyWhitespace(s[1..]);
      forall i | 0 < i < |s| - |TrimStart(s)|
        ensures IsJsWhitespace(s[i])
      {
        assert s[i] == s[1..][i - 1];
      }
    }
  }

  /** The length of the longest prefix of `s` made of hex digits. */
  function DigitRun(s: string): (n: nat)
    ensures n <= |s| && AllHexDigits(s[..n])
    ensures n < |s| ==> !IsHexDigit(s[n])
    ensures AllHexDigits(s) ==> n == |s|
  {
    if s != [] && IsHexDigit(s[0]) then
      var n := 1 + DigitRun(s[1..]);
      assert s[..n] == [s[0]] + s[1..][..n - 1];
      n
    else 0
  }

  /**
   * `parseInt(s, 16)`: skip leading white space, take an optional sign, drop
   * a `0x`/`0X` prefix, and read the longest run of hex digits; `None` is
   * `NaN`, returned when there is no digit to read.
   */
  function ParseIntHex(s: string): (r: Option<int>)
    ensures s == [] ==> r == None
    ensures TrimStart(s) != [] && TrimStart(s)[0] == '-' && r.Some? ==> r.value <= 0
    ensures !(TrimStart(s) != [] && TrimStart(s)[0] == '-') && r.Some? ==> r.value >= 0
  {
    var t := TrimStart(s);
    var negative := t != [] && t[0] == '-';
    var unsigned := if t != [] && (t[0] == '-' || t[0] == '+') then t[1..] else t;
    var digits := if |unsigned| >= 2 && unsigned[0] == '0' && (unsigned[1] == 'x' || unsigned[1] == 'X')
                  then unsigned[2..] else unsigned;
    var n := DigitRun(digits);
    if n == 0 then None
    else Some(if negative then -(HexValue(digits[..n]) as int) else HexValue(digits[..n]))
  }

  /** `String.prototype.substr(start, length)` for non-negative arguments. */
  function Substr(s: string, start: nat, length: nat): (r: string)
    ensures |r| <= length
  {
    var from := if start <= |s| then start else |s|;
    var to := if start + length <= |s| then start + length else |s|;
    s[from..to]
  }

  /** `s.replace('#', '')`: only the first `#` is removed, wherever it is. */
  function RemoveFirstHash(s: string): (r: string)
    ensures '#' !in s ==> r == s
    ensures '#' in s ==> |r| == |s| - 1
    ensures s != [] && s[0] == '#' ==> r == s[1..]
  {
    if s == [] then []
    else if s[0] == '#' then s[1..]
    else [s[0]] + RemoveFirstHash(s[1..])
  }

  /** The `#` removed is the first one, wherever it stands; everything around it is kept in order. */
  lemma {:induction false} RemoveFirstHashAt(s: string, k: nat)
    requires k < |s| && s[k] == '#' && '#' !in s[..k]
    ensures RemoveFirstHash(s) == s[..k] + s[k + 1..]
  {
    if k > 0 {
      assert s[0] in s[..k];
      assert s[1..][..k - 1] == s[1..k];
      RemoveFirstHashAt(s[1..], k - 1);
      assert s[..k] == [s[0]] + s[1..][..k - 1];
      assert s[k + 1..] == s[1..][k..];
    }
  }

  /** The parts of `rgba(r, g, b, alpha)`; a channel that is `NaN` is `None`. */
  datatype Rgba = Rgba(r: Option<int>, g: Option<int>, b: Option<int>, alpha: real)

  predicate ChannelInRange(c: Option<int>) {
    c.Some? ==> -15 <= c.value <= 255
  }

  function AddAlpha(color: string, alpha: real): (c: Rgba)
    ensures c.alpha == alpha
  {
    var hex := RemoveFirstHash(color);
    Rgba(ParseIntHex(Substr(hex, 0, 2)), ParseIntHex(Substr(hex, 2, 2)), ParseIntHex(Substr(hex, 4, 2)), alpha)
  }

  /**
   * `parseInt` of at most two characters is NaN or lies in -15..255: a minus
   * sign leaves room for one digit only.
   */
  lemma ParseTwoInRange(s: string)
    requires |s| <= 2
    ensures ChannelInRange(ParseIntHex(s))
  {
    var t := TrimStart(s);
    var unsigned := if t != [] && (t[0] == '-' || t[0] == '+') then t[1..] else t;
    var digits := if |unsigned| >= 2 && unsigned[0] == '0' && (unsigned[1] == 'x' || unsigned[1] == 'X')
                  then unsigned[2..] else unsigned;
    var n := DigitRun(digits);
    if n > 0 {
      HexValueBound(digits[..n]);
    }
  }

  /** Whatever the colour string, every channel addAlpha produces is NaN or in -15..255. */
  lemma AddAlphaChannelsInRange(color: string, alpha: real)
    ensures ChannelInRange(AddAlpha(color, alpha).r)
    ensures ChannelInRange(AddAlpha(color, alpha).g)
    ensures ChannelInRange(AddAlpha(color, alpha).b)
  {
    var hex := RemoveFirstHash(color);
    ParseTwoInRange(Substr(hex, 0, 2));
    ParseTwoInRange(Substr(hex, 2, 2));
    ParseTwoInRange(Substr(hex, 4, 2));
  }

  /** A non-empty string of hex digits parses to its value. */
  lemma ParseHexDigits(s: string)
    requires s != [] && AllHexDigits(s)
    ensures ParseIntHex(s) == Some(HexValue(s))
  {
    assert TrimStart(s) == s;
    assert DigitRun(s) == |s|;
    assert s[..|s|] == s;
  }

  lemma PairIsHex(digits: string, k: nat)
    requires |digits| == 6 && AllHexDigits(digits) && k < 3
    ensures AllHexDigits(digits[2 * k..2 * k + 2])
  {
    var pair := digits[2 * k..2 * k + 2];
    forall i | 0 <= i < |pair|
      ensures IsHexDigit(pair[i])
    {
      assert pair[i] == digits[2 * k + i];
    }
  }

  /** The value of the `k`-th pair of hex digits of a six-digit colour, which is at most 255. */
  function HexPair(digits: string, k: nat): (v: nat)
    requires |digits| == 6 && AllHexDigits(digits) && k < 3
    ensures v <= 255
  {
    PairIsHex(digits, k);
    HexValueBound(digits[2 * k..2 * k + 2]);
    HexValue(digits[2 * k..2 * k + 2])
  }

  /** addAlpha's `parseInt(hex.substr(2k, 2), 16)` on six hex digits reads the `k`-th pair. */
  lemma PairParses(digits: string, k: nat)
    requires |digits| == 6 && AllHexDigits(digits) && k < 3
    ensures ParseIntHex(Substr(digits, 2 * k, 2)) == Some(HexPair(digits, k))
  {
    assert Substr(digits, 2 * k, 2) == digits[2 * k..2 * k + 2];
    PairIsHex(digits, k);
    ParseHexDigits(digits[2 * k..2 * k + 2]);
  }

  /**
   * On `#RRGGBB` with six hex digits (either case), addAlpha decodes each
   * pair into its channel, each in 0..255, and keeps the alpha.
   */
  lemma AddAlphaDecodesPairs(digits: string, alpha: real)
    requires |digits| == 6 && AllHexDigits(digits)
    ensures AddAlpha("#" + digits, alpha) ==
      Rgba(Some(HexPair(digits, 0)), Some(HexPair(digits, 1)), Some(HexPair(digits, 2)), alpha)
  {
    assert RemoveFirstHash("#" + digits) == digits;
    PairParses(digits, 0);
    PairParses(digits, 1);
    PairParses(digits, 2);
  }

  /** The lower-case hex digit of `d`. */
  function HexChar(d: nat): (c: char)
    requires d < 16
    ensures IsHexDigit(c) && DigitValue(c) == d
  {
    if d < 10 then ('0' as int + d) as char else ('a' as int + d - 10) as char
  }

  /** A channel written as two lower-case hex digits, as colours are written in the charts. */
  function Hex2(n: nat): (s: string)
    requires n < 256
    ensures |s| == 2 && AllHexDigits(s) && HexValue(s) == n
  {
    var s := [HexChar(n / 16), HexChar(n % 16)];
    assert s[..1] == [HexChar(n / 16)];
    assert HexValue(s[..1]) == n / 16 by {
      assert s[..1][..0] == [];
    }
    s
  }

  /** Writing three channels as `#rrggbb` and reading them back with addAlpha gives the channels. */
  lemma AddAlphaRoundTrip(r: nat, g: nat, b: nat, alpha: real)
    requires r < 256 && g < 256 && b < 256
    ensures AddAlpha("#" + Hex2(r) + Hex2(g) + Hex2(b), alpha) == Rgba(Some(r), Some(g), Some(b), alpha)
  {
    var digits := Hex2(r) + Hex2(g) + Hex2(b);
    assert "#" + Hex2(r) + Hex2(g) + Hex2(b) == "#" + digits;
    assert digits[0..2] == Hex2(r) && digits[2..4] == Hex2(g) && digits[4..6] == Hex2(b);
    AddAlphaDecodesPairs(digits, alpha);
  }

  /** The chart's green, `#4caf50`, becomes `rgba(76, 175, 80, alpha)`. */
  lemma AddAlphaOfNormalZoneGreen(alpha: real)
    ensures AddAlpha("#4caf50", alpha) == Rgba(Some(76), Some(175), Some(80), alpha)
  {
    assert Hex2(76) == "4c";
    assert Hex2(175) == "af";
    assert Hex2(80) == "50";
    assert "#4caf50" == "#" + Hex2(76) + Hex2(175) + Hex2(80);
    AddAlphaRoundTrip(76, 175, 80, alpha);
  }


}
