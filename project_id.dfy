/**
 * The project id of the detail page, `parseInt(id || '1')`: a missing or empty
 * route parameter defaults to "1", and the string is read as the longest
 * prefix of decimal digits; no digits at all give `NaN` (here `None`).
 */
module ProjectId {
  import opened Wrappers

  predicate IsDigit(c: char)
  {
    '0' <= c <= '9'
  }

  predicate AllDigits(s: string)
  {
    forall i :: 0 <= i < |s| ==> IsDigit(s[i])
  }

  /** The leading run of decimal digits of `s`. */
  function DigitPrefix(s: string): (p: string)
    ensures p <= s && AllDigits(p)
    ensures |p| < |s| ==> !IsDigit(s[|p|])
  {
    if |s| > 0 && IsDigit(s[0]) then [s[0]] + DigitPrefix(s[1..]) else ""
  }

  function DigitValue(c: char): (n: nat)
    requires IsDigit(c)
    ensures n < 10
  {
    c as int - '0' as int
  }

  function DigitChar(n: nat): (c: char)
    requires n < 10
    ensures IsDigit(c) && DigitValue(c) == n
  {
    ('0' as int + n) as char
  }

  /** The number a string of decimal digits denotes, most significant digit first. */
  function DecimalValue(d: string): nat
    requires AllDigits(d)
  {
    if d == [] then 0 else 10 * DecimalValue(d[..|d| - 1]) + DigitValue(d[|d| - 1])
  }

  /** The decimal rendering of `n` without leading zeros (a template literal writes a safe integer this way). */
  function ToDecimal(n: nat): (s: string)
    ensures s != [] && AllDigits(s)
    ensures s[0] == '0' <==> n == 0
    ensures n == 0 ==> s == "0"
  {
    if n < 10 then [DigitChar(n)] else ToDecimal(n / 10) + [DigitChar(n % 10)]
  }

  /** `parseInt` restricted to strings without leading blanks, sign or radix prefix. */
  function ParseInt(s: string): (r: Option<nat>)
    ensures r.Some? <==> s != [] && IsDigit(s[0])
    ensures s != [] && AllDigits(s) ==> r == Some(DecimalValue(s))
  {
    var p := DigitPrefix(s);
    assert AllDigits(s) ==> p == s by {
      if AllDigits(s) {
        DigitPrefixOfDigits(s);
      }
    }
    if p == [] then None else Some(DecimalValue(p))
  }

  /** `parseInt(id || '1')`, where `id` is the optional route parameter. */
  function ParseId(id: Option<string>): (r: Option<nat>)
    ensures id == None || id == Some("") ==> r == Some(1)
  {
    var s := if id == None || id.value == "" then "1" else id.value;
    ParseInt(s)
  }

  /** The decimal rendering is read back as the number it renders. */
  lemma {:induction false} DecimalRoundTrip(n: nat)
    ensures DecimalValue(ToDecimal(n)) == n
  {
    if n >= 10 {
      var s := ToDecimal(n);
      assert s[..|s| - 1] == ToDecimal(n / 10);
      DecimalRoundTrip(n / 10);
    }
  }

  /** A string made only of digits is parsed whole. */
  lemma {:induction false} DigitPrefixOfDigits(s: string)
    requires AllDigits(s)
    ensures DigitPrefix(s) == s
  {
    if s != [] {
      DigitPrefixOfDigits(s[1..]);
    }
  }

  /** A digit string whose first digit is not '0' denotes a positive number. */
  lemma {:induction false} LeadingDigitPositive(d: string)
    requires d != [] && AllDigits(d) && d[0] != '0'
    ensures DecimalValue(d) > 0
  {
    if |d| > 1 {
      LeadingDigitPositive(d[..|d| - 1]);
    }
  }

  /** A digit string without a leading zero is the rendering of the number it denotes, and so the only one. */
  lemma {:induction false} CanonicalDecimal(d: string)
    requires d != [] && AllDigits(d) && (|d| == 1 || d[0] != '0')
    ensures ToDecimal(DecimalValue(d)) == d
  {
    var c := d[|d| - 1];
    if |d| == 1 {
      assert DigitChar(DigitValue(c)) == c;
    } else {
      var init := d[..|d| - 1];
      LeadingDigitPositive(init);
      CanonicalDecimal(init);
      var v := DecimalValue(d);
      assert v / 10 == DecimalValue(init) && v % 10 == DigitValue(c);
      assert DigitChar(DigitValue(c)) == c;
      assert d == init + [c];
    }
  }

  /** A non-empty all-digit id yields its decimal value. */
  lemma ParseDigitsId(s: string)
    requires s != [] && AllDigits(s)
    ensures ParseId(Some(s)) == Some(DecimalValue(s))
  {
    DigitPrefixOfDigits(s);
  }

  /** Every project number survives being written into the route and parsed back. */
  lemma ParseIdRoundTrip(n: nat)
    ensures ParseId(Some(ToDecimal(n))) == Some(n)
  {
    DecimalRoundTrip(n);
    ParseDigitsId(ToDecimal(n));
  }

  /** Digits followed by other characters are cut at the first non-digit. */
  lemma {:induction false} ParseStopsAtNonDigit(d: string, rest: string)
    requires d != [] && AllDigits(d)
    requires rest != [] && !IsDigit(rest[0])
    ensures ParseId(Some(d + rest)) == Some(DecimalValue(d))
  {
    DigitPrefixSplit(d, rest);
  }

  lemma {:induction false} DigitPrefixSplit(d: string, rest: string)
    requires AllDigits(d)
    requires rest != [] && !IsDigit(rest[0])
    ensures DigitPrefix(d + rest) == d
  {
    if d != [] {
      assert (d + rest)[1..] == d[1..] + rest;
      DigitPrefixSplit(d[1..], rest);
    } else {
      assert d + rest == rest;
    }
  }

  /** An id that does not start with a digit parses to `NaN`, not to the default 1. */
  lemma NonNumericIdIsNaN(s: string)
    requires s != [] && !IsDigit(s[0])
    ensures ParseId(Some(s)) == None
  {
  }
}
