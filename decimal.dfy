/** Decimal text of an integer, as a template literal `${n}` writes a
    JavaScript number that holds an integer, and its inverse. */
module Decimal {
  import opened Js

  predicate IsDigit(c: char)
  {
    '0' <= c <= '9'
  }

  predicate AllDigits(s: string)
  {
    forall i | 0 <= i < |s| :: IsDigit(s[i])
  }

  /** A digit string in canonical form: non-empty, no leading zero unless it is "0". */
  predicate Canonical(s: string)
  {
    |s| >= 1 && AllDigits(s) && (s[0] == '0' ==> |s| == 1)
  }

  function DigitChar(d: nat): char
    requires d < 10
  {
    ('0' as int + d) as char
  }

  /** The decimal digits of a natural number, most significant first. */
  function NatString(n: nat): (s: string)
    ensures Canonical(s)
    ensures |s| == 1 <==> n < 10
    decreases n
  {
    if n < 10 then [DigitChar(n)] else NatString(n / 10) + [DigitChar(n % 10)]
  }

  /** The text of an integer: a minus sign before the digits of a negative one. */
  function IntString(n: int): (s: string)
    ensures |s| >= 1
    ensures s[0] == '-' <==> n < 0
    ensures n >= 0 ==> Canonical(s)
    ensures n < 0 ==> Canonical(s[1..]) && s[1] != '0'
  {
    if n < 0 then "-" + NatString(-n) else NatString(n)
  }

  /** The value of a string of decimal digits. */
  function DigitsValue(s: string): nat
    requires AllDigits(s)
    decreases |s|
  {
    if s == [] then 0 else DigitsValue(s[..|s| - 1]) * 10 + (s[|s| - 1] as int - '0' as int)
  }

  /** Reads integer text in the form IntString writes; anything else is None. */
  function ParseInt(s: string): Option<int>
  {
    if |s| >= 2 && s[0] == '-' && Canonical(s[1..]) && s[1] != '0' then Some(0 - DigitsValue(s[1..]) as int)
    else if Canonical(s) then Some(DigitsValue(s) as int)
    else None
  }

  lemma {:induction false} NatStringValue(n: nat)
    ensures DigitsValue(NatString(n)) == n
    decreases n
  {
    if n >= 10 {
      var s := NatString(n);
      NatStringValue(n / 10);
      assert s[..|s| - 1] == NatString(n / 10);
    }
  }

  /** A canonical digit string that is not "0" has a positive value. */
  lemma {:induction false} DigitsValuePositive(s: string)
    requires Canonical(s) && s[0] != '0'
    ensures DigitsValue(s) >= 1
    decreases |s|
  {
    if |s| > 1 {
      DigitsValuePositive(s[..|s| - 1]);
    }
  }

  lemma {:induction false} CanonicalDigits(s: string)
    requires Canonical(s)
    ensures NatString(DigitsValue(s)) == s
    decreases |s|
  {
    if |s| > 1 {
      var init := s[..|s| - 1];
      DigitsValuePositive(init);
      CanonicalDigits(init);
      var d := s[|s| - 1] as int - '0' as int;
      assert DigitsValue(s) / 10 == DigitsValue(init) && DigitsValue(s) % 10 == d;
      assert s == init + [DigitChar(d)];
    }
  }

  /** Reading the text of an integer gives the integer back. */
  lemma IntStringRoundTrip(n: int)
    ensures ParseInt(IntString(n)) == Some(n)
  {
    var s := IntString(n);
    if n < 0 {
      assert s[1..] == NatString(-n);
      NatStringValue(-n);
    } else {
      NatStringValue(n);
    }
  }

  /** ParseInt accepts exactly the texts IntString writes. */
  lemma ParseIntString(s: string, n: int)
    ensures ParseInt(s) == Some(n) <==> s == IntString(n)
  {
    if s == IntString(n) {
      IntStringRoundTrip(n);
    }
    if ParseInt(s) == Some(n) {
      if |s| >= 2 && s[0] == '-' && Canonical(s[1..]) && s[1] != '0' {
        CanonicalDigits(s[1..]);
        DigitsValuePositive(s[1..]);
        assert s == "-" + s[1..];
      } else {
        CanonicalDigits(s);
      }
    }
  }
}
