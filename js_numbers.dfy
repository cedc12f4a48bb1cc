/**
  The two JavaScript number operations the rate handler applies to a courier
  price: `Math.round` and `Number.prototype.toString` on the integer it yields.
  Numbers are exact (`real` and `int`); see README for what that idealises.
 */
module JsNumbers {
  import opened Wrappers

  predicate IsDigit(c: char) { '0' <= c <= '9' }

  predicate AllDigits(s: string) { forall i :: 0 <= i < |s| ==> IsDigit(s[i]) }

  /** A non-empty run of digits with no leading zero, unless it is "0" itself. */
  predicate Canonical(s: string) { |s| >= 1 && AllDigits(s) && (s[0] == '0' ==> |s| == 1) }

  function DigitValue(c: char): (d: nat)
    requires IsDigit(c)
    ensures d < 10
  {
    c as int - '0' as int
  }

  function DigitChar(d: nat): (c: char)
    requires d < 10
    ensures IsDigit(c) && DigitValue(c) == d
  {
    ('0' as int + d) as char
  }

  /** Decimal rendering of a natural number, most significant digit first. */
  function NatToString(n: nat): (s: string)
    ensures Canonical(s)
    ensures s[0] == '0' <==> n == 0
    decreases n
  {
    if n < 10 then [DigitChar(n)] else NatToString(n / 10) + [DigitChar(n % 10)]
  }

  /** `String(n)` / `n.toString()` for an integer-valued JavaScript number. */
  function IntToString(n: int): (s: string)
    ensures n < 0 ==> |s| >= 2 && s[0] == '-' && Canonical(s[1..]) && s[1] != '0'
    ensures n >= 0 ==> Canonical(s)
  {
    if n < 0 then "-" + NatToString(-n) else NatToString(n)
  }

  /** Value of a run of digits read as a decimal numeral. */
  function DigitsValue(s: string): nat
    requires AllDigits(s)
    decreases |s|
  {
    if s == [] then 0 else 10 * DigitsValue(s[..|s| - 1]) + DigitValue(s[|s| - 1])
  }

  /**
    The exact inverse of IntToString: it accepts only the strings IntToString
    produces, an optional minus sign followed by a canonical digit run (and no
    "-0"). It is not JavaScript's `parseInt`, which also takes "007", "+5" or
    "12px".
   */
  function ParseCanonicalInt(s: string): (r: Option<int>)
    ensures r.Some? ==> Canonical(s) || (|s| >= 2 && s[0] == '-' && Canonical(s[1..]))
  {
    if |s| >= 2 && s[0] == '-' && Canonical(s[1..]) && s[1] != '0' then Some(-(DigitsValue(s[1..]) as int))
    else if Canonical(s) then Some(DigitsValue(s))
    else None
  }

  lemma {:induction false} NatToStringRoundTrip(n: nat)
    ensures DigitsValue(NatToString(n)) == n
    decreases n
  {
    if n >= 10 {
      var prefix := NatToString(n / 10);
      var s := prefix + [DigitChar(n % 10)];
      assert s[..|s| - 1] == prefix;
      NatToStringRoundTrip(n / 10);
    }
  }

  lemma {:induction false} LeadingNonZeroPositive(s: string)
    requires |s| >= 1 && AllDigits(s) && s[0] != '0'
    ensures DigitsValue(s) > 0
    decreases |s|
  {
    if |s| > 1 {
      var prefix := s[..|s| - 1];
      assert prefix[0] == s[0];
      LeadingNonZeroPositive(prefix);
    }
  }

  lemma {:induction false} CanonicalRoundTrip(s: string)
    requires Canonical(s)
    ensures NatToString(DigitsValue(s)) == s
    decreases |s|
  {
    var d := DigitValue(s[|s| - 1]);
    if |s| == 1 {
      assert DigitChar(d) == s[0];
    } else {
      var prefix := s[..|s| - 1];
      assert prefix[0] == s[0];
      LeadingNonZeroPositive(prefix);
      CanonicalRoundTrip(prefix);
      var v := DigitsValue(s);
      assert v == 10 * DigitsValue(prefix) + d;
      assert v / 10 == DigitsValue(prefix) && v % 10 == d;
      assert DigitChar(d) == s[|s| - 1];
      assert s == prefix + [s[|s| - 1]];
    }
  }

  /** Rendering an integer and reading it back gives the integer again. */
  lemma IntToStringRoundTrip(n: int)
    ensures ParseCanonicalInt(IntToString(n)) == Some(n)
  {
    var s := IntToString(n);
    if n < 0 {
      var digits := NatToString(-n);
      assert s == "-" + digits && s[1..] == digits;
      assert digits[0] != '0';
      NatToStringRoundTrip(-n);
      assert ParseCanonicalInt(s) == Some(-(DigitsValue(digits) as int));
    } else {
      assert IsDigit(s[0]);
      assert s[0] != '-';
      NatToStringRoundTrip(n);
      assert ParseCanonicalInt(s) == Some(DigitsValue(s));
    }
  }

  /** Every string ParseCanonicalInt accepts is the rendering of the integer it reads. */
  lemma ParseCanonicalIntRoundTrip(s: string)
    ensures ParseCanonicalInt(s).Some? ==> IntToString(ParseCanonicalInt(s).value) == s
  {
    if |s| >= 2 && s[0] == '-' && Canonical(s[1..]) && s[1] != '0' {
      LeadingNonZeroPositive(s[1..]);
      CanonicalRoundTrip(s[1..]);
      assert s == "-" + s[1..];
    } else if Canonical(s) {
      CanonicalRoundTrip(s);
    }
  }

  /** Distinct integers never render to the same string. */
  lemma IntToStringInjective(m: int, n: int)
    ensures IntToString(m) == IntToString(n) ==> m == n
  {
    IntToStringRoundTrip(m);
    IntToStringRoundTrip(n);
  }

  /**
    `Math.round`: the nearest integer, with halves going toward +infinity
    (`Math.round(2.5) == 3`, `Math.round(-2.5) == -2`).
   */
  function MathRound(x: real): (r: int)
    ensures x - 0.5 < r as real <= x + 0.5
  {
    (x + 0.5).Floor
  }

  /** The bounds in MathRound's contract single out its result. */
  lemma MathRoundUnique(x: real, n: int)
    requires x - 0.5 < n as real <= x + 0.5
    ensures n == MathRound(x)
  {
  }

  /** A value exactly halfway between two integers rounds up. */
  lemma MathRoundHalfUp(n: int)
    ensures MathRound(n as real + 0.5) == n + 1
    ensures MathRound(n as real - 0.5) == n
  {
  }
}
