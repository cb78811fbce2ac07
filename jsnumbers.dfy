/**
 * The integer side of the `/hotels` parameter check: `parseInt(value, 10)`,
 * `Number.prototype.toString()` on integers, and `isValidIntegerString`,
 * which accepts a value only when parsing and printing it gives it back.
 */
module JsNumbers {
  import opened Wrappers
  import opened JsStrings

  predicate IsDigit(c: char) {
    '0' <= c <= '9'
  }

  predicate AllDigits(s: string) {
    forall i :: 0 <= i < |s| ==> IsDigit(s[i])
  }

  function DigitValue(c: char): (d: nat)
    requires IsDigit(c)
    ensures d < 10
  {
    (c as int) - ('0' as int)
  }

  function DigitChar(d: nat): (c: char)
    requires d < 10
    ensures IsDigit(c) && DigitValue(c) == d
  {
    (('0' as int) + d) as char
  }

  /** The value of a string of decimal digits, most significant first. */
  function DigitsValue(s: string): (n: nat)
    requires AllDigits(s)
  {
    if |s| == 0 then 0 else DigitsValue(s[..|s| - 1]) * 10 + DigitValue(s[|s| - 1])
  }

  function Pow10(k: nat): (p: nat)
    ensures p > 0
  {
    if k == 0 then 1 else 10 * Pow10(k - 1)
  }

  /** A string of `k` digits denotes a number below `10^k`. */
  lemma {:induction false} DigitsValueBound(s: string)
    requires AllDigits(s)
    ensures DigitsValue(s) < Pow10(|s|)
  {
    if |s| > 0 {
      DigitsValueBound(s[..|s| - 1]);
    }
  }

  /** The decimal numeral of `n`, without leading zeros. */
  function NatToString(n: nat): (s: string)
    ensures |s| > 0 && AllDigits(s)
  {
    if n < 10 then [DigitChar(n)] else NatToString(n / 10) + [DigitChar(n % 10)]
  }

  /** `Number.prototype.toString()` on an integer. */
  function IntToString(n: int): (s: string) {
    if n < 0 then "-" + NatToString(-n) else NatToString(n)
  }

  /** The longest prefix of `s` made of decimal digits. */
  function LeadingDigits(s: string): (r: string)
    ensures |r| <= |s| && r == s[..|r|] && AllDigits(r)
    ensures |r| < |s| ==> !IsDigit(s[|r|])
  {
    if |s| > 0 && IsDigit(s[0]) then [s[0]] + LeadingDigits(s[1..]) else []
  }

  /**
   * `parseInt(s, 10)`: skips leading whitespace, takes an optional sign and the
   * longest run of digits after it; `None` stands for NaN (no digit found).
   */
  function ParseInt(s: string): (r: Option<int>)
    ensures r.None? <==> |LeadingDigits(Unsigned(TrimStart(s)))| == 0
  {
    var t := TrimStart(s);
    var digits := LeadingDigits(Unsigned(t));
    if |digits| == 0 then None
    else if |t| > 0 && t[0] == '-' then Some(0 - DigitsValue(digits) as int)
    else Some(DigitsValue(digits))
  }

  /**
   * The value `parseInt` gives on every input it accepts: leading whitespace,
   * an optional sign, a run of digits and anything not starting with a digit.
   */
  lemma ParseIntValue(ws: string, sg: string, d: string, rest: string)
    requires forall i :: 0 <= i < |ws| ==> IsWhitespace(ws[i])
    requires sg == "" || sg == "+" || sg == "-"
    requires |d| > 0 && AllDigits(d)
    requires rest == [] || !IsDigit(rest[0])
    ensures ParseInt(ws + sg + d + rest) == Some(if sg == "-" then 0 - DigitsValue(d) else DigitsValue(d))
  {
    var t := sg + (d + rest);
    Regroup(ws, sg, d, rest);
    SignedText(sg, d + rest);
    SkipWhitespace(ws, t);
    LeadingDigitsRun(d, rest);
    ParseIntOf(ws + t, t, d);
  }

  /** `parseInt(" -7px")` skips the space, keeps the sign and stops at the letters. */
  lemma ParseIntExample()
    ensures ParseInt(" " + "-" + "7" + "px") == Some(-7)
  {
    ParseIntValue(" ", "-", "7", "px");
  }

  lemma Regroup(a: string, b: string, c: string, e: string)
    ensures a + b + c + e == a + (b + (c + e))
  {
  }

  /** A sign, or none, in front of a text that starts with a digit. */
  lemma SignedText(sg: string, u: string)
    requires sg == "" || sg == "+" || sg == "-"
    requires |u| > 0 && IsDigit(u[0])
    ensures |sg + u| > 0 && !IsWhitespace((sg + u)[0])
    ensures Unsigned(sg + u) == u
    ensures (sg + u)[0] == '-' <==> sg == "-"
  {
    if sg == "" {
      assert sg + u == u;
    } else {
      assert (sg + u)[1..] == u;
    }
  }

  /** `parseInt` once the whitespace is skipped and the digit run is known. */
  lemma ParseIntOf(x: string, t: string, d: string)
    requires TrimStart(x) == t && LeadingDigits(Unsigned(t)) == d && |d| > 0
    ensures ParseInt(x) == Some(if t[0] == '-' then 0 - DigitsValue(d) else DigitsValue(d))
  {
    assert LeadingDigits(Unsigned(TrimStart(x))) == d;
  }

  /** Leading whitespace is skipped up to the first other character. */
  lemma {:induction false} SkipWhitespace(ws: string, t: string)
    requires forall i :: 0 <= i < |ws| ==> IsWhitespace(ws[i])
    requires |t| > 0 && !IsWhitespace(t[0])
    ensures TrimStart(ws + t) == t
  {
    if |ws| > 0 {
      assert (ws + t)[1..] == ws[1..] + t;
      SkipWhitespace(ws[1..], t);
    } else {
      assert ws + t == t;
    }
  }

  /** The digit run of `d + rest` is `d` when `rest` does not start with a digit. */
  lemma {:induction false} LeadingDigitsRun(d: string, rest: string)
    requires AllDigits(d)
    requires rest == [] || !IsDigit(rest[0])
    ensures LeadingDigits(d + rest) == d
  {
    if |d| > 0 {
      assert (d + rest)[1..] == d[1..] + rest;
      LeadingDigitsRun(d[1..], rest);
      assert d == [d[0]] + d[1..];
    } else {
      assert d + rest == rest;
    }
  }

  /** The part of `t` after an optional leading sign. */
  function Unsigned(t: string): (u: string) {
    if |t| > 0 && (t[0] == '-' || t[0] == '+') then t[1..] else t
  }

  /**
   * `isValidIntegerString`: the value is falsy, or parsing it as a decimal
   * integer and printing the result gives back the same string.
   */
  predicate IsValidIntegerString(v: Option<string>) {
    || (v.Some? && ParseInt(v.value).Some? && IntToString(ParseInt(v.value).value) == v.value)
    || !Truthy(v)
  }

  /**
   * A canonical decimal integer: `0`, or a non-zero digit followed by digits,
   * optionally preceded by `-`.
   */
  predicate CanonicalInt(s: string) {
    || s == "0"
    || (|s| > 0 && AllDigits(s) && s[0] != '0')
    || (|s| > 1 && s[0] == '-' && AllDigits(s[1..]) && s[1] != '0')
  }

  /** `isValidIntegerString` accepts exactly the falsy values and the canonical integers. */
  lemma ValidIntegerStringIsCanonical(v: Option<string>)
    ensures IsValidIntegerString(v) <==> (!Truthy(v) || CanonicalInt(v.value))
  {
    if Truthy(v) {
      var s := v.value;
      if CanonicalInt(s) {
        CanonicalRoundTrip(s);
      }
      if ParseInt(s).Some? && IntToString(ParseInt(s).value) == s {
        IntToStringCanonical(ParseInt(s).value);
      }
    }
  }

  /** Every printed integer is canonical. */
  lemma IntToStringCanonical(n: int)
    ensures CanonicalInt(IntToString(n))
  {
    if n < 0 {
      NatToStringNoLeadingZero(-n);
      assert ("-" + NatToString(-n))[1..] == NatToString(-n);
    } else {
      NatToStringNoLeadingZero(n);
    }
  }

  lemma {:induction false} NatToStringNoLeadingZero(n: nat)
    ensures n == 0 <==> NatToString(n) == "0"
    ensures n != 0 ==> NatToString(n)[0] != '0'
  {
    if n >= 10 {
      NatToStringNoLeadingZero(n / 10);
      assert NatToString(n)[0] == NatToString(n / 10)[0];
    }
  }

  /** A canonical integer is parsed and printed back unchanged. */
  lemma CanonicalRoundTrip(s: string)
    requires CanonicalInt(s)
    ensures ParseInt(s).Some? && IntToString(ParseInt(s).value) == s
  {
    if s[0] == '-' {
      NegativeRoundTrip(s);
    } else {
      NonNegativeRoundTrip(s);
    }
  }

  /** A string starting with a digit or a sign has no leading whitespace. */
  lemma NoLeadingWhitespace(s: string)
    requires |s| > 0 && (IsDigit(s[0]) || s[0] == '-')
    ensures TrimStart(s) == s
  {
    assert !IsWhitespace(s[0]);
  }

  lemma NonNegativeRoundTrip(s: string)
    requires |s| > 0 && AllDigits(s) && (s[0] != '0' || |s| == 1)
    ensures ParseInt(s) == Some(DigitsValue(s)) && IntToString(DigitsValue(s)) == s
  {
    NoLeadingWhitespace(s);
    assert Unsigned(s) == s;
    AllDigitsLeading(s);
    DigitsRoundTrip(s);
  }

  lemma NegativeRoundTrip(s: string)
    requires |s| > 1 && s[0] == '-' && AllDigits(s[1..]) && s[1] != '0'
    ensures ParseInt(s) == Some(0 - DigitsValue(s[1..])) && IntToString(ParseInt(s).value) == s
  {
    var ds := s[1..];
    var n: int := DigitsValue(ds);
    NoLeadingWhitespace(s);
    assert Unsigned(s) == ds;
    AllDigitsLeading(ds);
    assert ParseInt(s) == Some(0 - n);
    LeadingNonZeroPositive(ds);
    DigitsRoundTrip(ds);
    assert IntToString(0 - n) == "-" + ds;
    assert s == "-" + ds;
  }

  lemma {:induction false} AllDigitsLeading(s: string)
    requires AllDigits(s)
    ensures LeadingDigits(s) == s
  {
    if |s| > 0 {
      AllDigitsLeading(s[1..]);
      assert s == [s[0]] + s[1..];
    }
  }

  lemma {:induction false} LeadingNonZeroPositive(s: string)
    requires |s| > 0 && AllDigits(s) && s[0] != '0'
    ensures DigitsValue(s) > 0
  {
    if |s| > 1 {
      LeadingNonZeroPositive(s[..|s| - 1]);
    }
  }

  /** Printing the value of a digit string without leading zeros gives the string back. */
  lemma {:induction false} DigitsRoundTrip(s: string)
    requires |s| > 0 && AllDigits(s) && (s[0] != '0' || |s| == 1)
    ensures NatToString(DigitsValue(s)) == s
  {
    if |s| > 1 {
      var p := s[..|s| - 1];
      DigitsRoundTrip(p);
      LeadingNonZeroPositive(p);
      var n := DigitsValue(s);
      assert n / 10 == DigitsValue(p) && n % 10 == DigitValue(s[|s| - 1]);
      assert DigitChar(n % 10) == s[|s| - 1];
      assert s == p + [s[|s| - 1]];
    } else {
      assert DigitChar(DigitValue(s[0])) == s[0];
    }
  }
}
