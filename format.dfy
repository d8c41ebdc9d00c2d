/**
 Number-to-text conversions used in the cart and in the order message:
 plain decimal for quantities, and the Indonesian locale's grouping for
 rupiah amounts, where thousands are separated by '.' (150000 is shown as
 "150.000"). Each rendering is paired with a reading back that recovers
 the number.
 */
module Format {

  datatype Option<T> = None | Some(value: T)

  predicate IsDigit(c: char)
  {
    '0' <= c <= '9'
  }

  function DigitChar(d: nat): (c: char)
    requires d < 10
    ensures IsDigit(c)
  {
    (d + '0' as int) as char
  }

  function DigitValue(c: char): nat
    requires IsDigit(c)
  {
    c as int - '0' as int
  }

  predicate AllDigits(s: string)
  {
    forall k :: 0 <= k < |s| ==> IsDigit(s[k])
  }

  /** The decimal digits of `n`, most significant first, without leading zeros. */
  function Decimal(n: nat): (r: string)
    ensures |r| >= 1 && AllDigits(r)
    ensures |r| > 1 ==> r[0] != '0'
  {
    if n < 10 then [DigitChar(n)]
    else
      var h := Decimal(n / 10);
      assert AllDigits(h + [DigitChar(n % 10)]) by {
        forall k | 0 <= k < |h| + 1 ensures IsDigit((h + [DigitChar(n % 10)])[k]) {
          if k < |h| {
            assert (h + [DigitChar(n % 10)])[k] == h[k];
          }
        }
      }
      h + [DigitChar(n % 10)]
  }

  /** The number a string of decimal digits denotes. */
  function DigitsValue(s: string): nat
    requires AllDigits(s)
  {
    if s == [] then 0
    else DigitsValue(s[..|s| - 1]) * 10 + DigitValue(s[|s| - 1])
  }

  /** Reading back the decimal digits of `n` gives `n`. */
  lemma {:induction false} DecimalRoundTrip(n: nat)
    ensures DigitsValue(Decimal(n)) == n
  {
    if n >= 10 {
      var d := Decimal(n);
      DecimalRoundTrip(n / 10);
      assert d[..|d| - 1] == Decimal(n / 10);
    }
  }

  /** A digit string with a '.' inserted before every group of three digits
      counted from the right, the leading group being one to three digits. */
  function Grouped(d: string): string
  {
    if |d| <= 3 then d
    else Grouped(d[..|d| - 3]) + "." + d[|d| - 3..]
  }

  /** The string with every '.' taken out. */
  function StripDots(s: string): string
  {
    if s == [] then []
    else (if s[0] == '.' then [] else [s[0]]) + StripDots(s[1..])
  }

  lemma {:induction false} StripDotsConcat(a: string, b: string)
    ensures StripDots(a + b) == StripDots(a) + StripDots(b)
  {
    if a != [] {
      assert (a + b)[1..] == a[1..] + b;
      StripDotsConcat(a[1..], b);
    } else {
      assert a + b == b;
    }
  }

  lemma {:induction false} StripDotsOfDigits(d: string)
    requires AllDigits(d)
    ensures StripDots(d) == d
  {
    if d != [] {
      StripDotsOfDigits(d[1..]);
      assert [d[0]] + d[1..] == d;
    }
  }

  /** Taking the separators out of a grouped digit string gives the digits back. */
  lemma {:induction false} GroupedRoundTrip(d: string)
    requires AllDigits(d)
    ensures StripDots(Grouped(d)) == d
  {
    if |d| <= 3 {
      StripDotsOfDigits(d);
    } else {
      var h, t := d[..|d| - 3], d[|d| - 3..];
      GroupedRoundTrip(h);
      StripDotsConcat(Grouped(h) + ".", t);
      StripDotsConcat(Grouped(h), ".");
      StripDotsOfDigits(t);
      assert h + t == d;
    }
  }

  /** A grouped digit string holds only digits and separators and starts with a digit. */
  lemma {:induction false} GroupedShape(d: string)
    requires |d| >= 1 && AllDigits(d)
    ensures var g := Grouped(d);
      |g| >= 1 && IsDigit(g[0]) && forall k :: 0 <= k < |g| ==> IsDigit(g[k]) || g[k] == '.'
  {
    if |d| > 3 {
      GroupedShape(d[..|d| - 3]);
      var g, t := Grouped(d[..|d| - 3]), d[|d| - 3..];
      assert forall k :: 0 <= k < |t| ==> IsDigit(t[k]);
      assert forall k :: 0 <= k < |g| ==> (g + "." + t)[k] == g[k];
      assert forall k :: |g| + 1 <= k < |g| + 1 + |t| ==> (g + "." + t)[k] == t[k - |g| - 1];
    }
  }

  /** An integer amount as the Indonesian locale shows it: a leading '-' for
      negative amounts, then the grouped digits. */
  function FormatAmount(n: int): string
  {
    if n < 0 then "-" + Grouped(Decimal(-n)) else Grouped(Decimal(n))
  }

  /** An integer as plain decimal text, as a template literal shows it. */
  function IntText(n: int): string
  {
    if n < 0 then "-" + Decimal(-n) else Decimal(n)
  }

  /** Reads a shown amount back: an optional '-', then digits and separators.
      Characters other than digits and separators make it `None`. */
  function ParseAmount(s: string): (r: Option<int>)
  {
    var neg := |s| > 0 && s[0] == '-';
    var digits := StripDots(if neg then s[1..] else s);
    if !AllDigits(digits) then None
    else
      var v: int := DigitsValue(digits);
      Some(if neg then -v else v)
  }

  /** Reading a shown amount back gives the amount. */
  lemma FormatAmountRoundTrip(n: int)
    ensures ParseAmount(FormatAmount(n)) == Some(n)
  {
    var m: nat := if n < 0 then -n else n;
    GroupedRoundTrip(Decimal(m));
    GroupedShape(Decimal(m));
    DecimalRoundTrip(m);
    if n < 0 {
      assert ("-" + Grouped(Decimal(m)))[1..] == Grouped(Decimal(m));
    }
  }

  /** Plain decimal text reads back the same way. */
  lemma IntTextRoundTrip(n: int)
    ensures ParseAmount(IntText(n)) == Some(n)
  {
    var m: nat := if n < 0 then -n else n;
    StripDotsOfDigits(Decimal(m));
    DecimalRoundTrip(m);
    if n < 0 {
      assert ("-" + Decimal(m))[1..] == Decimal(m);
    }
  }
}
