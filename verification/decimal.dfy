/**
 * Decimal text of an integer, as PHP writes an int when it is interpolated
 * into a double-quoted string ("{$sales}", "{$lesson['duration']}"): an
 * optional '-' followed by the digits, with no leading zeros.
 */
module Decimal {
  import opened Wrappers

  predicate IsDigit(c: char) { '0' <= c <= '9' }

  predicate AllDigits(s: string) { forall i :: 0 <= i < |s| ==> IsDigit(s[i]) }

  function DigitChar(d: nat): (c: char)
    requires d < 10
    ensures IsDigit(c) && (c as int) - ('0' as int) == d
  {
    "0123456789"[d]
  }

  /** The digits of n, most significant first. */
  function NatDigits(n: nat): (s: string)
    decreases n
  {
    if n < 10 then [DigitChar(n)] else NatDigits(n / 10) + [DigitChar(n % 10)]
  }

  /** PHP's rendering of an int as text. */
  function Render(n: int): (s: string)
  {
    if n < 0 then "-" + NatDigits(-n) else NatDigits(n)
  }

  /** The value of a non-empty string of digits. */
  function DigitsValue(s: string): (n: nat)
    requires AllDigits(s)
  {
    if s == [] then 0
    else
      assert IsDigit(s[|s| - 1]);
      DigitsValue(s[..|s| - 1]) * 10 + ((s[|s| - 1] as int) - ('0' as int))
  }

  /** Digits with no leading zero, unless the digit string is "0" itself. */
  predicate Canonical(s: string)
  {
    |s| > 0 && AllDigits(s) && (|s| == 1 || s[0] != '0')
  }

  /** Reads back the text Render produces; None for anything else. */
  function Parse(s: string): Option<int>
  {
    if s == [] then None
    else if s[0] == '-' then
      (if Canonical(s[1..]) && s[1] != '0' then Some(0 - DigitsValue(s[1..]) as int) else None)
    else if Canonical(s) then Some(DigitsValue(s))
    else None
  }

  lemma {:induction false} NatDigitsShape(n: nat)
    ensures |NatDigits(n)| > 0 && AllDigits(NatDigits(n))
    ensures DigitsValue(NatDigits(n)) == n
    ensures n > 0 ==> NatDigits(n)[0] != '0'
    ensures Canonical(NatDigits(n))
    decreases n
  {
    if n >= 10 {
      NatDigitsShape(n / 10);
      var s := NatDigits(n);
      assert s[..|s| - 1] == NatDigits(n / 10);
      assert s[0] == NatDigits(n / 10)[0];
    } else {
      assert DigitChar(n) == "0123456789"[n];
    }
  }

  /** A digit string that does not start with '0' has a positive value. */
  lemma {:induction false} DigitsValuePositive(s: string)
    requires |s| > 0 && AllDigits(s) && s[0] != '0'
    ensures DigitsValue(s) > 0
    decreases |s|
  {
    if |s| > 1 {
      DigitsValuePositive(s[..|s| - 1]);
    }
  }

  /** Rendering the value of a canonical digit string gives the string back. */
  lemma {:induction false} CanonicalDigits(s: string)
    requires Canonical(s)
    ensures NatDigits(DigitsValue(s)) == s
    decreases |s|
  {
    var t := s[..|s| - 1];
    var c := s[|s| - 1];
    assert IsDigit(c);
    var d := (c as int) - ('0' as int);
    if |s| == 1 {
      assert DigitChar(d) == c;
    } else {
      assert t[0] == s[0];
      CanonicalDigits(t);
      DigitsValuePositive(t);
      var n := DigitsValue(s);
      assert n == DigitsValue(t) * 10 + d;
      assert n / 10 == DigitsValue(t) && n % 10 == d;
      assert DigitChar(d) == c;
      assert s == t + [c];
    }
  }

  /** Render is non-empty, and its text reads back as the same integer. */
  lemma ParseRender(n: int)
    ensures |Render(n)| > 0
    ensures Parse(Render(n)) == Some(n)
  {
    if n < 0 {
      NatDigitsShape(-n);
      assert Render(n)[1..] == NatDigits(-n);
    } else {
      NatDigitsShape(n);
    }
  }

  /** The only text Parse reads as n is Render(n): Parse rejects leading zeros and "-0". */
  lemma RenderParse(s: string, n: int)
    ensures Parse(s) == Some(n) <==> s == Render(n)
  {
    ParseRender(n);
    if Parse(s) == Some(n) {
      if s[0] == '-' {
        CanonicalDigits(s[1..]);
        DigitsValuePositive(s[1..]);
        assert s == "-" + s[1..];
      } else {
        CanonicalDigits(s);
      }
    }
  }

  /** Distinct integers are rendered as distinct texts. */
  lemma RenderInjective(m: int, n: int)
    requires Render(m) == Render(n)
    ensures m == n
  {
    ParseRender(m);
    ParseRender(n);
  }
}
