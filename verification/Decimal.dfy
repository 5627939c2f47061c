/** Decimal numerals as Go's strconv and Python's format print and read them. */
module Decimal {
  import opened Wrappers

  predicate IsDigit(c: char) {
    '0' <= c <= '9'
  }

  predicate AllDigits(s: string) {
    forall i :: 0 <= i < |s| ==> IsDigit(s[i])
  }

  function Digit(n: nat): char
    requires n < 10
  {
    '0' + n as char
  }

  /** The shortest decimal numeral of n. */
  function Format(n: nat): (s: string)
    ensures |s| > 0 && AllDigits(s)
  {
    if n < 10 then [Digit(n)] else Format(n / 10) + [Digit(n % 10)]
  }

  /** The number a digit string denotes. */
  function Value(s: string): nat
    requires AllDigits(s)
  {
    if s == "" then 0
    else 10 * Value(s[..|s| - 1]) + (s[|s| - 1] - '0') as nat
  }

  lemma {:induction false} ValueOfFormat(n: nat)
    ensures Value(Format(n)) == n
  {
    if n >= 10 {
      ValueOfFormat(n / 10);
      assert Format(n)[..|Format(n)| - 1] == Format(n / 10);
    } else {
      assert Format(n)[..0] == "";
    }
  }

  /** Python's '{:012d}': the numeral padded with zeros to at least width digits. */
  function Padded(n: nat, width: nat): (s: string)
    ensures AllDigits(s)
  {
    ZeroFill(Format(n), width)
  }

  function ZeroFill(s: string, width: nat): (r: string)
    requires AllDigits(s)
    ensures AllDigits(r)
    decreases width - |s|
  {
    if |s| >= width then s else ZeroFill("0" + s, width)
  }

  lemma {:induction false} ValueOfLeadingZero(s: string)
    requires AllDigits(s)
    ensures AllDigits("0" + s) && Value("0" + s) == Value(s)
  {
    if s == "" {
      assert ("0" + s)[..0] == "";
    } else {
      var t := s[..|s| - 1];
      ValueOfLeadingZero(t);
      assert ("0" + s)[..|s|] == "0" + t;
    }
  }

  lemma {:induction false} ValueOfZeroFill(s: string, width: nat)
    requires AllDigits(s)
    ensures Value(ZeroFill(s, width)) == Value(s)
    decreases width - |s|
  {
    if |s| < width {
      ValueOfLeadingZero(s);
      ValueOfZeroFill("0" + s, width);
    }
  }

  /** Zero padding loses nothing: equal padded numerals denote equal numbers. */
  lemma {:induction false} PaddedInjective(m: nat, n: nat, width: nat)
    requires Padded(m, width) == Padded(n, width)
    ensures m == n
  {
    ValueOfFormat(m);
    ValueOfFormat(n);
    ValueOfZeroFill(Format(m), width);
    ValueOfZeroFill(Format(n), width);
  }
}
