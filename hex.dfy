/**
 * Colour strings with an alpha suffix: `Math.floor(alpha * 255)` rendered by
 * `toString(16)` and left-padded with '0' to two characters.
 */
module Hex {
  /** A lower-case hexadecimal digit for a value below 16. */
  function Digit(d: nat): (c: char)
    requires d < 16
    ensures IsHexDigit(c)
  {
    if d < 10 then ('0' as int + d) as char else ('a' as int + d - 10) as char
  }

  predicate IsHexDigit(c: char) {
    '0' <= c <= '9' || 'a' <= c <= 'f'
  }

  /** The value of a lower-case hexadecimal digit. */
  function DigitValue(c: char): (d: nat)
    requires IsHexDigit(c)
    ensures d < 16
  {
    if c <= '9' then c as int - '0' as int else c as int - 'a' as int + 10
  }

  lemma DigitRoundTrip(d: nat)
    requires d < 16
    ensures DigitValue(Digit(d)) == d
  {
  }

  /** `n.toString(16)` for a non-negative integer: no sign, no leading zeros. */
  function ToHex(n: nat): (s: string)
    ensures 1 <= |s|
    ensures forall k :: 0 <= k < |s| ==> IsHexDigit(s[k])
    ensures n < 16 <==> |s| == 1
    ensures 16 <= n < 256 ==> |s| == 2
    decreases n
  {
    if n < 16 then [Digit(n)] else ToHex(n / 16) + [Digit(n % 16)]
  }

  /** The value of a string of hexadecimal digits, most significant first. */
  function ParseHex(s: string): nat
    requires forall k :: 0 <= k < |s| ==> IsHexDigit(s[k])
  {
    if s == [] then 0 else ParseHex(s[..|s| - 1]) * 16 + DigitValue(s[|s| - 1])
  }

  lemma {:induction false} ParseToHex(n: nat)
    ensures ParseHex(ToHex(n)) == n
    decreases n
  {
    if n < 16 {
      DigitRoundTrip(n);
    } else {
      var s := ToHex(n);
      assert s[..|s| - 1] == ToHex(n / 16);
      ParseToHex(n / 16);
      DigitRoundTrip(n % 16);
    }
  }

  /** `s.padStart(len, fill)`. */
  function PadStart(s: string, len: nat, fill: char): (r: string)
    ensures |r| == if |s| >= len then |s| else len
    ensures r[|r| - |s|..] == s
    ensures forall k :: 0 <= k < |r| - |s| ==> r[k] == fill
  {
    if |s| >= len then s else seq(len - |s|, _ => fill) + s
  }

  /** The two-character alpha suffix for an alpha byte. */
  function AlphaHex(b: nat): string {
    PadStart(ToHex(b), 2, '0')
  }

  /**
   * Every byte in [0, 255] formats as exactly two hexadecimal digits that
   * read back as the byte.
   */
  lemma AlphaHexTwoDigits(b: nat)
    requires b < 256
    ensures |AlphaHex(b)| == 2
    ensures forall k :: 0 <= k < 2 ==> IsHexDigit(AlphaHex(b)[k])
    ensures ParseHex(AlphaHex(b)) == b
  {
    var h := AlphaHex(b);
    ParseToHex(b);
    if b < 16 {
      assert h == ['0'] + ToHex(b);
      assert h[..1] == ['0'];
      assert ParseHex(h[..1]) == 0;
    } else {
      assert h == ToHex(b);
    }
  }

  /** `Math.floor(alpha * 255)`. */
  function AlphaByte(alpha: real): (b: int)
    ensures 0.0 <= alpha ==> 0 <= b
    ensures alpha <= 1.0 ==> b <= 255
    ensures alpha == 1.0 ==> b == 255
    ensures b as real <= alpha * 255.0 < b as real + 1.0
  {
    (alpha * 255.0).Floor
  }

  /** The style string `${color}${hex}` given to the drawing surface. */
  function FillStyle(color: string, b: nat): (r: string)
    requires b < 256
    ensures |r| == |color| + 2 && r[..|color|] == color
    ensures forall k :: |color| <= k < |r| ==> IsHexDigit(r[k])
    ensures ParseHex(r[|color|..]) == b
  {
    AlphaHexTwoDigits(b);
    assert (color + AlphaHex(b))[|color|..] == AlphaHex(b);
    color + AlphaHex(b)
  }
}
