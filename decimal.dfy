/** Decimal digits: the zero-padded fields of `%Y-%m-%d` / `%H:%M:%S`, their parsing by
    `strptime`, and Python's `str()` of an integer. Fields are read in place, by position,
    so that parsing a timestamp takes no slices. */
module Decimal {

  predicate IsDigit(c: char) { '0' <= c <= '9' }

  function Pow10(width: nat): (p: nat)
    ensures p >= 1
  {
    if width == 0 then 1 else 10 * Pow10(width - 1)
  }

  function DigitChar(d: nat): (c: char)
    requires d < 10
    ensures IsDigit(c)
  {
    ('0' as int + d) as char
  }

  function DigitValue(c: char): (d: nat)
    requires IsDigit(c)
    ensures d < 10 && DigitChar(d) == c
  {
    c as int - '0' as int
  }

  /** `n` written with exactly `width` digits, leading zeros added (`%02d`, `%04d`). */
  function Pad(n: nat, width: nat): (s: string)
    requires n < Pow10(width)
    ensures |s| == width
  {
    if width == 0 then "" else Pad(n / 10, width - 1) + [DigitChar(n % 10)]
  }

  /** The `width` characters of `s` from position `lo` are all digits. */
  predicate DigitsAt(s: string, lo: nat, width: nat)
    requires lo + width <= |s|
  {
    width == 0 || (IsDigit(s[lo + width - 1]) && DigitsAt(s, lo, width - 1))
  }

  /** The value of the `width` digits of `s` from position `lo`. */
  function FieldValue(s: string, lo: nat, width: nat): (n: nat)
    requires lo + width <= |s| && DigitsAt(s, lo, width)
    ensures n < Pow10(width)
  {
    if width == 0 then 0 else 10 * FieldValue(s, lo, width - 1) + DigitValue(s[lo + width - 1])
  }

  /** Python's `str()` of a non-negative integer: shortest decimal form. */
  function NatToString(n: nat): (s: string)
    ensures |s| >= 1 && IsDigit(s[0])
    ensures s[0] == '0' ==> n == 0
  {
    if n < 10 then [DigitChar(n)] else NatToString(n / 10) + [DigitChar(n % 10)]
  }

  /** Python's `str()` of an integer. */
  function IntToString(i: int): (s: string)
    ensures |s| >= 1
    ensures s[0] == '-' <==> i < 0
  {
    if i < 0 then "-" + NatToString(-i) else NatToString(i)
  }

  lemma LastDigit(a: nat, d: nat)
    requires d < 10
    ensures (10 * a + d) / 10 == a && (10 * a + d) % 10 == d
  {
  }

  /** Reading back a padded field, wherever it stands, gives the number that was written. */
  lemma {:induction false} FieldOfPad(s: string, lo: nat, n: nat, width: nat)
    requires n < Pow10(width) && lo + width <= |s| && s[lo..lo + width] == Pad(n, width)
    ensures DigitsAt(s, lo, width) && FieldValue(s, lo, width) == n
  {
    if width > 0 {
      var p := Pad(n, width);
      assert s[lo + width - 1] == p[width - 1];
      assert s[lo..lo + width - 1] == p[..width - 1] == Pad(n / 10, width - 1);
      FieldOfPad(s, lo, n / 10, width - 1);
    }
  }

  /** A field of digits is exactly the padded form of its value: reading loses nothing. */
  lemma {:induction false} PadOfField(s: string, lo: nat, width: nat)
    requires lo + width <= |s| && DigitsAt(s, lo, width)
    ensures Pad(FieldValue(s, lo, width), width) == s[lo..lo + width]
  {
    if width > 0 {
      PadOfField(s, lo, width - 1);
      LastDigit(FieldValue(s, lo, width - 1), DigitValue(s[lo + width - 1]));
      assert s[lo..lo + width] == s[lo..lo + width - 1] + [s[lo + width - 1]];
    }
  }

  /** Reading Python's rendering of a natural number gives the number back. */
  lemma {:induction false} ReadNatToString(n: nat)
    ensures DigitsAt(NatToString(n), 0, |NatToString(n)|)
    ensures FieldValue(NatToString(n), 0, |NatToString(n)|) == n
  {
    var s := NatToString(n);
    if n >= 10 {
      var s' := NatToString(n / 10);
      ReadNatToString(n / 10);
      assert s == s' + [DigitChar(n % 10)];
      DigitsPrefix(s, s', |s'|);
    }
  }

  /** A field only depends on the characters it covers. */
  lemma {:induction false} DigitsPrefix(s: string, t: string, width: nat)
    requires width <= |s| && width <= |t| && s[..width] == t[..width] && DigitsAt(t, 0, width)
    ensures DigitsAt(s, 0, width) && FieldValue(s, 0, width) == FieldValue(t, 0, width)
  {
    if width > 0 {
      assert s[width - 1] == s[..width][width - 1] == t[width - 1];
      assert s[..width - 1] == s[..width][..width - 1] == t[..width][..width - 1] == t[..width - 1];
      DigitsPrefix(s, t, width - 1);
    }
  }
}
