/** How the JavaScript source turns integers into text (`Number.prototype.toString`,
    template literals, `padStart`, `repeat`) and the integer arithmetic it relies on
    (`Math.ceil` of a quotient, the truncating `%`). */
module Numbers {

  predicate IsDigit(c: char) { '0' <= c <= '9' }

  predicate IsDigits(s: string) {
    forall i :: 0 <= i < |s| ==> IsDigit(s[i])
  }

  function DigitChar(d: nat): (c: char)
    requires d < 10
    ensures IsDigit(c)
  {
    (d + '0' as int) as char
  }

  function DigitValue(c: char): (d: nat)
    requires IsDigit(c)
    ensures d < 10
  {
    c as int - '0' as int
  }

  /** The decimal text of a non-negative integer, without leading zeros. */
  function NatToString(n: nat): (s: string)
    ensures |s| >= 1 && IsDigits(s)
    ensures |s| > 1 ==> s[0] != '0'
    ensures n < 10 <==> |s| == 1
  {
    if n < 10 then [DigitChar(n)] else NatToString(n / 10) + [DigitChar(n % 10)]
  }

  /** The decimal text of any integer, with a leading '-' when negative. */
  function IntToString(i: int): (s: string)
    ensures i >= 0 ==> s == NatToString(i)
    ensures i < 0 ==> s == "-" + NatToString(-i)
  {
    if i >= 0 then NatToString(i) else "-" + NatToString(-i)
  }

  /** The value of a string of decimal digits (the empty string reads as 0). */
  function ParseDigits(s: string): nat
    requires IsDigits(s)
  {
    if s == [] then 0 else ParseDigits(s[..|s| - 1]) * 10 + DigitValue(s[|s| - 1])
  }

  lemma {:induction false} ParseNatToString(n: nat)
    ensures ParseDigits(NatToString(n)) == n
  {
    var s := NatToString(n);
    if n >= 10 {
      ParseNatToString(n / 10);
      assert s[..|s| - 1] == NatToString(n / 10);
    }
  }

  /** `c.repeat(n)` for a one-character string `c`. */
  function Repeat(c: char, n: nat): (r: string)
    ensures |r| == n
    ensures forall i :: 0 <= i < n ==> r[i] == c
  {
    if n == 0 then [] else [c] + Repeat(c, n - 1)
  }

  /** `s.padStart(width, c)`: `s` itself when it is long enough, otherwise `s`
      preceded by as many `c` as make it `width` long. */
  function PadStart(s: string, width: int, c: char): (r: string)
    ensures |s| >= width ==> r == s
    ensures |s| < width ==> |r| == width
    ensures |r| >= |s| && r[|r| - |s|..] == s
    ensures forall i :: 0 <= i < |r| - |s| ==> r[i] == c
  {
    if |s| >= width then s else Repeat(c, width - |s|) + s
  }

  lemma {:induction false} ParseLeadingZeros(k: nat, s: string)
    requires IsDigits(s)
    ensures IsDigits(Repeat('0', k) + s)
    ensures ParseDigits(Repeat('0', k) + s) == ParseDigits(s)
  {
    if s == [] {
      ParseZeros(k);
      assert Repeat('0', k) + s == Repeat('0', k);
    } else {
      var init := s[..|s| - 1];
      ParseLeadingZeros(k, init);
      var t := Repeat('0', k) + s;
      assert t[..|t| - 1] == Repeat('0', k) + init;
    }
  }

  lemma {:induction false} ParseZeros(k: nat)
    ensures IsDigits(Repeat('0', k)) && ParseDigits(Repeat('0', k)) == 0
  {
    if k > 0 {
      ParseZeros(k - 1);
      var z := Repeat('0', k);
      assert z[..k - 1] == Repeat('0', k - 1);
    }
  }

  /** A zero-padded decimal reads back as the number it was made from. */
  lemma ParsePadded(n: nat, width: int)
    ensures IsDigits(PadStart(NatToString(n), width, '0'))
    ensures ParseDigits(PadStart(NatToString(n), width, '0')) == n
  {
    var s := NatToString(n);
    ParseNatToString(n);
    if |s| < width {
      assert PadStart(s, width, '0') == Repeat('0', width - |s|) + s;
      ParseLeadingZeros(width - |s|, s);
    } else {
      assert PadStart(s, width, '0') == s;
    }
  }

  /** `Math.ceil(a / b)` for a positive divisor. */
  function CeilDiv(a: int, b: int): (q: int)
    requires b > 0
    ensures (q - 1) * b < a <= q * b
  {
    -((-a) / b)
  }

  /** The JavaScript remainder `a % b` for a positive divisor: it truncates toward
      zero, so it takes the sign of `a`, unlike Dafny's `%`. */
  function JsRem(a: int, b: int): (r: int)
    requires b > 0
    ensures a >= 0 ==> r == a % b
    ensures -b < r < b
    ensures a == b * (if a >= 0 then a / b else -((-a) / b)) + r
  {
    if a >= 0 then a % b else -((-a) % b)
  }
}
