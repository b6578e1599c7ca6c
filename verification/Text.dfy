/**
  Decimal numerals and separators, as produced by string formatting, with the readers
  that undo them.
 */
module Text {
  import opened Prelude

  predicate IsDigit(c: char) {
    '0' <= c <= '9'
  }

  predicate AllDigits(s: string) {
    forall i :: 0 <= i < |s| ==> IsDigit(s[i])
  }

  function Digit(d: nat): (c: char)
    requires d < 10
    ensures IsDigit(c)
  {
    '0' + d as char
  }

  function DigitValue(c: char): (d: nat)
    requires IsDigit(c)
    ensures d < 10
  {
    c as int - '0' as int
  }

  /** The decimal numeral of n, left-padded with zeros to at least `width` digits. */
  function Fixed(n: nat, width: nat): (s: string)
    ensures |s| >= 1 && AllDigits(s)
    decreases n, width
  {
    if n < 10 && width <= 1 then [Digit(n)]
    else Fixed(n / 10, if width == 0 then 0 else width - 1) + [Digit(n % 10)]
  }

  function Numeral(n: int): string {
    if n < 0 then "-" + Fixed(-n, 0) else Fixed(n, 0)
  }

  function ReadNat(s: string): nat
    requires AllDigits(s)
  {
    if s == [] then 0 else ReadNat(s[..|s| - 1]) * 10 + DigitValue(s[|s| - 1])
  }

  lemma {:induction false} ReadFixed(n: nat, width: nat)
    ensures ReadNat(Fixed(n, width)) == n
    decreases n, width
  {
    if n < 10 && width <= 1 {
      assert Fixed(n, width)[..0] == "";
    } else {
      var w := if width == 0 then 0 else width - 1;
      ReadFixed(n / 10, w);
      assert Fixed(n, width)[..|Fixed(n / 10, w)|] == Fixed(n / 10, w);
    }
  }

  function Pow10(k: nat): (p: nat)
    ensures p >= 1
  {
    if k == 0 then 1 else 10 * Pow10(k - 1)
  }

  /** A number that fits has exactly the requested width; a larger one simply takes more room. */
  lemma {:induction false} FixedLength(n: nat, width: nat)
    requires width >= 1
    ensures |Fixed(n, width)| >= width
    ensures n < Pow10(width) ==> |Fixed(n, width)| == width
    decreases n, width
  {
    if n < 10 && width <= 1 {
    } else if width == 1 {
      assert Pow10(1) == 10 * Pow10(0);
    } else {
      FixedLength(n / 10, width - 1);
      assert Pow10(width) == 10 * Pow10(width - 1);
    }
  }

  lemma NumeralInjective(m: int, n: int)
    ensures Numeral(m) == Numeral(n) ==> m == n
  {
    var a := if m < 0 then -m else m;
    var b := if n < 0 then -n else n;
    ReadFixed(a, 0);
    ReadFixed(b, 0);
    if Numeral(m) == Numeral(n) {
      assert Numeral(m)[0] == Numeral(n)[0];
      assert IsDigit(Fixed(a, 0)[0]) && IsDigit(Fixed(b, 0)[0]);
      if m < 0 {
        assert Numeral(m)[1..] == Fixed(a, 0) && Numeral(n)[1..] == Fixed(b, 0);
      }
    }
  }

  // ---------------------------------------------------------------- whitespace

  predicate IsSpace(c: char) {
    c in {' ', '\t', '\n', '\r'} || c == 11 as char || c == 12 as char
  }

  predicate NoSpace(s: string) {
    forall i :: 0 <= i < |s| ==> !IsSpace(s[i])
  }

  function Spaces(n: nat): (s: string)
    ensures |s| == n && forall i :: 0 <= i < n ==> s[i] == ' '
  {
    seq(n, _ => ' ')
  }

  function TrimLeft(s: string): string {
    if s != [] && IsSpace(s[0]) then TrimLeft(s[1..]) else s
  }

  function TrimRight(s: string): string {
    if s != [] && IsSpace(s[|s| - 1]) then TrimRight(s[..|s| - 1]) else s
  }

  function Strip(s: string): string {
    TrimRight(TrimLeft(s))
  }

  /** Text that neither starts nor ends with a blank is left alone. */
  lemma StripTight(s: string)
    requires s != [] ==> !IsSpace(s[0]) && !IsSpace(s[|s| - 1])
    ensures Strip(s) == s
  {
  }

  lemma {:induction false} TrimRightPadding(s: string, pad: nat)
    requires s != [] && !IsSpace(s[|s| - 1])
    ensures TrimRight(s + Spaces(pad)) == s
  {
    if pad == 0 {
      assert s + Spaces(0) == s;
    } else {
      TrimRightPadding(s, pad - 1);
      assert (s + Spaces(pad))[..|s| + pad - 1] == s + Spaces(pad - 1);
    }
  }

  lemma StripPadding(s: string, pad: nat)
    requires s != [] && NoSpace(s)
    ensures Strip(s + Spaces(pad)) == s
  {
    assert (s + Spaces(pad))[0] == s[0];
    TrimRightPadding(s, pad);
  }
}
