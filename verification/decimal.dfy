/** Python's `float(text)` for the plain decimal forms a price takes:
    optional surrounding whitespace, an optional sign, digits with at most
    one decimal point and at least one digit. Values are exact reals. */
module Decimal {
  import opened Wrappers
  import opened Strings

  /** The whitespace `float` ignores around its argument (ASCII only). */
  const Whitespace: set<char> := {' ', '\t', '\n', '\r', '\U{000B}', '\U{000C}'}

  predicate IsDigit(c: char) {
    '0' <= c <= '9'
  }

  predicate AllDigits(s: string) {
    forall i :: 0 <= i < |s| ==> IsDigit(s[i])
  }

  function DigitValue(c: char): nat
    requires IsDigit(c)
  {
    c as int - '0' as int
  }

  /** The number a run of decimal digits spells, most significant first. */
  function DigitsValue(s: string): nat
    requires AllDigits(s)
  {
    if |s| == 0 then 0 else DigitsValue(s[..|s| - 1]) * 10 + DigitValue(s[|s| - 1])
  }

  function Pow10(n: nat): (r: nat)
    ensures r > 0
  {
    if n == 0 then 1 else 10 * Pow10(n - 1)
  }

  /** The value of `w.f` where the fraction f has k digits. */
  function PointValue(w: nat, f: nat, k: nat): real {
    w as real + f as real / Pow10(k) as real
  }

  /** An unsigned decimal: digits, or digits around one '.', with at least
      one digit in all. */
  function Unsigned(t: string): Option<real> {
    match Find(t, ".")
    case None =>
      if |t| > 0 && AllDigits(t) then Some(DigitsValue(t) as real) else None
    case Some(i) =>
      var whole, frac := t[..i], t[i + 1..];
      if |whole| + |frac| > 0 && AllDigits(whole) && AllDigits(frac)
      then Some(PointValue(DigitsValue(whole), DigitsValue(frac), |frac|))
      else None
  }

  /** `float(s)`: None where Python raises `ValueError`. A number is read
      only from text with at least one digit. */
  function ParseDecimal(s: string): (r: Option<real>)
    ensures r.Some? ==> exists i :: 0 <= i < |s| && IsDigit(s[i])
  {
    SignedHasDigit(Strip(s, Whitespace));
    StripDigit(s);
    Signed(Strip(s, Whitespace))
  }

  /** A digit left after stripping was a digit of the text. */
  lemma StripDigit(s: string)
    ensures var t := Strip(s, Whitespace);
      (exists i :: 0 <= i < |t| && IsDigit(t[i])) ==> exists i :: 0 <= i < |s| && IsDigit(s[i])
  {
    var t := Strip(s, Whitespace);
    StripIsMiddleSlice(s, Whitespace);
    var lo :| IsStripOf(s, Whitespace, lo, t);
    SliceDigit(s, lo, t);
  }

  /** A digit of a slice is a digit of the whole. */
  lemma SliceDigit(s: string, lo: int, t: string)
    requires 0 <= lo && lo + |t| <= |s| && t == s[lo..lo + |t|]
    ensures (exists i :: 0 <= i < |t| && IsDigit(t[i])) ==> exists i :: 0 <= i < |s| && IsDigit(s[i])
  {
    if exists i :: 0 <= i < |t| && IsDigit(t[i]) {
      var i :| 0 <= i < |t| && IsDigit(t[i]);
      assert s[lo + i] == t[i];
    }
  }

  /** An unsigned decimal has a digit. */
  lemma UnsignedHasDigit(t: string)
    ensures Unsigned(t).Some? ==> exists i :: 0 <= i < |t| && IsDigit(t[i])
  {
    if Unsigned(t).Some? {
      match Find(t, ".")
      case None =>
        assert IsDigit(t[0]);
      case Some(k) =>
        if k > 0 {
          assert t[..k][0] == t[0];
          assert IsDigit(t[0]);
        } else {
          assert t[k + 1..][0] == t[k + 1];
          assert IsDigit(t[k + 1]);
        }
    }
  }

  /** So does a signed one. */
  lemma SignedHasDigit(t: string)
    ensures Signed(t).Some? ==> exists i :: 0 <= i < |t| && IsDigit(t[i])
  {
    if |t| > 0 && (t[0] == '+' || t[0] == '-') {
      UnsignedHasDigit(t[1..]);
      SliceDigit(t, 1, t[1..]);
    } else {
      UnsignedHasDigit(t);
    }
  }

  /** An unsigned decimal with an optional leading sign. */
  function Signed(t: string): Option<real> {
    if |t| > 0 && (t[0] == '+' || t[0] == '-') then
      match Unsigned(t[1..])
      case None => None
      case Some(v) => Some(if t[0] == '-' then -v else v)
    else Unsigned(t)
  }

  function Digit(d: nat): char
    requires d < 10
  {
    ('0' as int + d) as char
  }

  /** `str(n)` for a natural number. */
  function NatDigits(n: nat): (s: string)
    ensures |s| > 0 && AllDigits(s)
  {
    if n < 10 then [Digit(n)] else NatDigits(n / 10) + [Digit(n % 10)]
  }

  /** The two digits of a number of cents, with a leading zero. */
  function Cents(c: nat): (s: string)
    requires c < 100
    ensures |s| == 2 && AllDigits(s)
  {
    [Digit(c / 10), Digit(c % 10)]
  }

  /** Reading back the digits of a number gives the number. */
  lemma {:induction false} DigitsRoundTrip(n: nat)
    ensures DigitsValue(NatDigits(n)) == n
  {
    if n >= 10 {
      var s := NatDigits(n);
      assert s[..|s| - 1] == NatDigits(n / 10);
      DigitsRoundTrip(n / 10);
    }
  }

  lemma DigitRoundTrip(d: nat)
    requires d < 10
    ensures DigitValue(Digit(d)) == d
  {
  }

  lemma CentsRoundTrip(c: nat)
    requires c < 100
    ensures DigitsValue(Cents(c)) == c
  {
    var s := Cents(c);
    assert s[..1][..0] == [];
    assert s[..|s| - 1] == s[..1];
    DigitRoundTrip(c / 10);
    DigitRoundTrip(c % 10);
    assert DigitsValue(s[..1]) == c / 10;
  }

  /** `float(str(n)) == n`: a whole number's digits parse back to it. */
  lemma ParseNat(n: nat)
    ensures ParseDecimal(NatDigits(n)) == Some(n as real)
  {
    var s := NatDigits(n);
    StripKeeps(s, Whitespace);
    NoChar(s, '.', 0);
    DigitsRoundTrip(n);
  }

  /** A leading minus sign negates. */
  lemma ParseNegative(n: nat)
    ensures ParseDecimal(['-'] + NatDigits(n)) == Some(-(n as real))
  {
    var s := ['-'] + NatDigits(n);
    StripKeeps(s, Whitespace);
    assert s[1..] == NatDigits(n);
    NoChar(NatDigits(n), '.', 0);
    DigitsRoundTrip(n);
  }

  /** Digits, a '.', then digits: the whole part plus the fraction. */
  lemma UnsignedPoint(whole: string, frac: string)
    requires |whole| > 0 && AllDigits(whole) && AllDigits(frac)
    ensures Unsigned(whole + ['.'] + frac) == Some(PointValue(DigitsValue(whole), DigitsValue(frac), |frac|))
  {
    var s := whole + ['.'] + frac;
    assert forall j :: 0 <= j < |whole| ==> s[j] == whole[j];
    FindChar(s, '.', |whole|, 0);
    assert s[..|whole|] == whole;
    assert s[|whole| + 1..] == frac;
  }

  lemma UnsignedPrice(n: nat, c: nat)
    requires c < 100
    ensures Unsigned(NatDigits(n) + ['.'] + Cents(c)) == Some(n as real + c as real / 100.0)
  {
    UnsignedPoint(NatDigits(n), Cents(c));
    DigitsRoundTrip(n);
    CentsRoundTrip(c);
    assert Pow10(2) == 100;
    assert PointValue(n, c, 2) == n as real + c as real / 100.0;
  }

  /** A price written with two decimals, as in "1.50", parses to the
      whole part plus the cents. */
  lemma ParsePrice(n: nat, c: nat)
    requires c < 100
    ensures ParseDecimal(NatDigits(n) + ['.'] + Cents(c)) == Some(n as real + c as real / 100.0)
  {
    var s := NatDigits(n) + ['.'] + Cents(c);
    StripKeeps(s, Whitespace);
    assert s[0] == NatDigits(n)[0];
    UnsignedPrice(n, c);
  }

  /** "1.50" reads as 1.5. */
  lemma PriceExample()
    ensures ParseDecimal("1.50") == Some(1.5)
  {
    PriceText();
    ParsePrice(1, 50);
  }

  lemma PriceText()
    ensures NatDigits(1) + ['.'] + Cents(50) == "1.50"
  {
    assert NatDigits(1) == "1";
    assert Cents(50) == "50";
  }

  lemma UnsignedEmpty()
    ensures Unsigned([]).None?
  {
    NoChar([], '.', 0);
  }

  /** Empty text does not convert. */
  lemma ParseEmpty()
    ensures ParseDecimal("").None?
  {
    assert Strip("", Whitespace) == [];
    UnsignedEmpty();
  }

  /** A sign without digits does not convert. */
  lemma ParseSignOnly(sign: char)
    requires sign == '+' || sign == '-'
    ensures ParseDecimal([sign]).None?
  {
    SignAlone(sign);
    SignKept(sign);
  }

  lemma SignAlone(sign: char)
    requires sign == '+' || sign == '-'
    ensures Signed([sign]).None?
  {
    assert [sign][1..] == [];
    UnsignedEmpty();
  }

  lemma SignKept(sign: char)
    requires sign == '+' || sign == '-'
    ensures Strip([sign], Whitespace) == [sign]
  {
    assert sign !in Whitespace;
    StripKeeps([sign], Whitespace);
  }
}
