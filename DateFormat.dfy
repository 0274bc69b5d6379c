/** Decimal rendering of numbers as java.text.SimpleDateFormat writes its
    numeric fields ("yyyy", "MM", "dd", "HH", "mm", "ss"): the decimal digits
    of the value, zero-padded on the left to the field's minimum width, and
    wider when the value needs more digits.  `Value` reads such a field back;
    the lemmas below show that no information is lost, which is what makes
    comparing formatted dates the same as comparing their fields. */
module DateFormat {

  predicate IsDigit(c: char) {
    '0' <= c <= '9'
  }

  function DigitChar(d: nat): (c: char)
    requires d < 10
    ensures IsDigit(c) && c as int - '0' as int == d
  {
    ('0' as int + d) as char
  }

  /** Decimal digits of `n`, most significant first, with no leading zero. */
  function Digits(n: nat): (s: string)
    ensures 1 <= |s|
    ensures forall i :: 0 <= i < |s| ==> IsDigit(s[i])
    ensures n < 10 <==> |s| == 1
    ensures n > 0 ==> s[0] != '0'
  {
    if n < 10 then [DigitChar(n)] else Digits(n / 10) + [DigitChar(n % 10)]
  }

  /** The number a string of decimal digits denotes; leading zeros add nothing. */
  function Value(s: string): int
  {
    if s == [] then 0 else Value(s[..|s| - 1]) * 10 + (s[|s| - 1] as int - '0' as int)
  }

  function Zeros(k: nat): (s: string)
  {
    seq(k, _ => '0')
  }

  /** A numeric SimpleDateFormat field of minimum width `width`. */
  function Padded(n: nat, width: nat): (s: string)
    ensures |s| == if |Digits(n)| < width then width else |Digits(n)|
    ensures forall i :: 0 <= i < |s| ==> IsDigit(s[i])
  {
    if |Digits(n)| < width then Zeros(width - |Digits(n)|) + Digits(n) else Digits(n)
  }

  lemma {:induction false} ValueOfDigits(n: nat)
    ensures Value(Digits(n)) == n
  {
    if n >= 10 {
      var s := Digits(n);
      assert s[..|s| - 1] == Digits(n / 10);
      ValueOfDigits(n / 10);
    }
  }

  lemma {:induction false} ValueOfZeros(k: nat)
    ensures Value(Zeros(k)) == 0
  {
    if k > 0 {
      assert Zeros(k)[..k - 1] == Zeros(k - 1);
      ValueOfZeros(k - 1);
    }
  }

  lemma {:induction false} LeadingZeros(k: nat, s: string)
    ensures Value(Zeros(k) + s) == Value(s)
    decreases |s|
  {
    if s == [] {
      assert Zeros(k) + s == Zeros(k);
      ValueOfZeros(k);
    } else {
      var t := Zeros(k) + s;
      assert t[..|t| - 1] == Zeros(k) + s[..|s| - 1];
      LeadingZeros(k, s[..|s| - 1]);
    }
  }

  /** Reading a padded field back gives the number that was written. */
  lemma PaddedRoundTrip(n: nat, width: nat)
    ensures Value(Padded(n, width)) == n
  {
    ValueOfDigits(n);
    if |Digits(n)| < width {
      LeadingZeros(width - |Digits(n)|, Digits(n));
    }
  }

  /** Below 100 a two-wide field is exactly two characters long. */
  lemma TwoWide(n: nat)
    requires n < 100
    ensures |Padded(n, 2)| == 2
  {
  }
}
