/**
 * Check-in and check-out dates: the `YYYY-MM-DD` shape test of `isValidDate`,
 * the comparison `new Date(checkin) < new Date(checkout)` of `validInAndOut`,
 * and SQLite's `DATETIME(...)` text used by the availability query.
 */
module Dates {
  import opened Wrappers
  import opened JsStrings
  import opened JsNumbers

  /** The regular expression `^\d{4}-\d{2}-\d{2}$`. */
  predicate DateShaped(s: string) {
    && |s| == 10
    && IsDigit(s[0]) && IsDigit(s[1]) && IsDigit(s[2]) && IsDigit(s[3])
    && s[4] == '-'
    && IsDigit(s[5]) && IsDigit(s[6])
    && s[7] == '-'
    && IsDigit(s[8]) && IsDigit(s[9])
  }

  /**
   * Whether `Date.parse` returns a number (not NaN) for a string. How strictly
   * an engine rejects impossible calendar dates varies, so the model takes it
   * as a parameter.
   */
  type DateParser = string -> bool

  /** `isValidDate`: `Date.parse` accepts the string and it has the shape `YYYY-MM-DD`. */
  predicate IsValidDate(s: string, parses: DateParser) {
    parses(s) && DateShaped(s)
  }

  function Year(s: string): (y: nat)
    requires DateShaped(s)
  {
    DigitsValue(s[..4])
  }

  function Month(s: string): (m: nat)
    requires DateShaped(s)
    ensures m < 100
  {
    DigitsValueBound(s[5..7]);
    DigitsValue(s[5..7])
  }

  function Day(s: string): (d: nat)
    requires DateShaped(s)
    ensures d < 100
  {
    DigitsValueBound(s[8..]);
    DigitsValue(s[8..])
  }

  /**
   * A number that orders shaped dates as `(year, month, day)`; the time value
   * `new Date(s)` gives for a calendar date (UTC midnight) is ordered the same way.
   */
  function DateKey(s: string): (k: nat)
    requires DateShaped(s)
  {
    Year(s) * 10000 + Month(s) * 100 + Day(s)
  }

  /** The key of a shaped date, digit by digit. */
  lemma DateKeyByDigits(s: string)
    requires DateShaped(s)
    ensures DateKey(s) == DigitValue(s[0]) * 10000000 + DigitValue(s[1]) * 1000000
      + DigitValue(s[2]) * 100000 + DigitValue(s[3]) * 10000
      + DigitValue(s[5]) * 1000 + DigitValue(s[6]) * 100
      + DigitValue(s[8]) * 10 + DigitValue(s[9])
  {
    var y := s[..4];
    assert y[..3] == s[..3] && s[..3][..2] == s[..2] && s[..2][..1] == s[..1] && s[..1][..0] == [];
    assert DigitsValue(s[..1]) == DigitValue(s[0]);
    assert DigitsValue(s[..2]) == DigitValue(s[0]) * 10 + DigitValue(s[1]);
    assert DigitsValue(s[..3]) == DigitsValue(s[..2]) * 10 + DigitValue(s[2]);
    assert DigitsValue(y) == DigitsValue(s[..3]) * 10 + DigitValue(s[3]);
    var m, d := s[5..7], s[8..];
    assert m[..1][..0] == [] && d[..1][..0] == [];
    assert DigitsValue(m) == DigitValue(s[5]) * 10 + DigitValue(s[6]);
    assert DigitsValue(d) == DigitValue(s[8]) * 10 + DigitValue(s[9]);
  }

  /** `validInAndOut`: both dates are valid and the check-in comes strictly first. */
  predicate ValidInAndOut(checkin: string, checkout: string, parses: DateParser) {
    && IsValidDate(checkin, parses)
    && IsValidDate(checkout, parses)
    && DateKey(checkin) < DateKey(checkout)
  }

  /** What `validInAndOut` demands, stated on the strings alone. */
  lemma ValidInAndOutIsStringOrder(checkin: string, checkout: string, parses: DateParser)
    ensures ValidInAndOut(checkin, checkout, parses) <==>
      (IsValidDate(checkin, parses) && IsValidDate(checkout, parses) && StrLt(checkin, checkout))
  {
    if DateShaped(checkin) && DateShaped(checkout) {
      DateOrderIsStringOrder(checkin, checkout);
    }
  }

  /** A day is never strictly before itself, and the wrong shapes are refused, whatever `Date.parse` does. */
  lemma RejectedDates(parses: DateParser)
    ensures forall d :: !ValidInAndOut(d, d, parses)
    ensures !IsValidDate("01-01-2024", parses)
    ensures !IsValidDate("2024-1-01", parses)
    ensures !IsValidDate("2024-01-01 ", parses)
  {
  }

  /** SQLite `DATETIME(s)`: the text `YYYY-MM-DD 00:00:00` for a shaped date, NULL otherwise. */
  function SqlDateTime(s: string): (r: Option<string>)
    ensures r.Some? <==> DateShaped(s)
  {
    if DateShaped(s) then Some(s + " 00:00:00") else None
  }

  /** `x < y` in SQL on text values; a comparison with NULL is not true. */
  predicate SqlLt(x: Option<string>, y: Option<string>) {
    x.Some? && y.Some? && StrLt(x.value, y.value)
  }

  /** `x <= y` in SQL on text values; a comparison with NULL is not true. */
  predicate SqlLe(x: Option<string>, y: Option<string>) {
    x.Some? && y.Some? && StrLe(x.value, y.value)
  }

  /** Comparing the `DATETIME` texts of two shaped dates orders them by date. */
  lemma SqlDateOrder(a: string, b: string)
    requires DateShaped(a) && DateShaped(b)
    ensures SqlLt(SqlDateTime(a), SqlDateTime(b)) <==> DateKey(a) < DateKey(b)
    ensures SqlLe(SqlDateTime(a), SqlDateTime(b)) <==> DateKey(a) <= DateKey(b)
  {
    var t := " 00:00:00";
    StrLtConcat(a, t, b, t);
    StrLtIrreflexive(t);
    DateOrderIsStringOrder(a, b);
    if a + t == b + t {
      assert a == (a + t)[..10] && b == (b + t)[..10];
    }
  }

  /** On shaped dates, the string order is the order by `(year, month, day)`. */
  lemma DateOrderIsStringOrder(a: string, b: string)
    requires DateShaped(a) && DateShaped(b)
    ensures StrLt(a, b) <==> DateKey(a) < DateKey(b)
    ensures a == b <==> DateKey(a) == DateKey(b)
  {
    var ya, ma, da := a[..4], a[5..7], a[8..];
    var yb, mb, db := b[..4], b[5..7], b[8..];
    DateSplit(a);
    DateSplit(b);
    DigitsOrder(ya, yb);
    DigitsOrder(ma, mb);
    DigitsOrder(da, db);
    DashedOrder(ma, da, mb, db);
    DashedOrder(ya, ma + ("-" + da), yb, mb + ("-" + db));
    KeyOrder(Year(a), Month(a), Day(a), Year(b), Month(b), Day(b));
  }

  /** A shaped date is its year, month and day joined by dashes. */
  lemma DateSplit(a: string)
    requires DateShaped(a)
    ensures a == a[..4] + ("-" + (a[5..7] + ("-" + a[8..])))
    ensures AllDigits(a[..4]) && AllDigits(a[5..7]) && AllDigits(a[8..])
  {
    var t := "-" + a[8..];
    assert a[7..] == t;
    assert a[5..] == a[5..7] + t;
    assert a[4..] == "-" + a[5..];
  }

  /** Two dashed pairs whose heads have equal lengths compare head first, then tail. */
  lemma DashedOrder(x1: string, r1: string, x2: string, r2: string)
    requires |x1| == |x2|
    ensures StrLt(x1 + ("-" + r1), x2 + ("-" + r2)) <==> StrLt(x1, x2) || (x1 == x2 && StrLt(r1, r2))
    ensures x1 + ("-" + r1) == x2 + ("-" + r2) <==> x1 == x2 && r1 == r2
  {
    StrLtConcat(x1, "-" + r1, x2, "-" + r2);
    StrLtConcat("-", r1, "-", r2);
    StrLtIrreflexive("-");
    var a, b := x1 + ("-" + r1), x2 + ("-" + r2);
    if a == b {
      assert x1 == a[..|x1|] && x2 == b[..|x1|];
      assert r1 == a[|x1| + 1..] && r2 == b[|x1| + 1..];
    }
  }

  /** The key `y * 10000 + m * 100 + d` orders triples with `m, d < 100` lexicographically. */
  lemma KeyOrder(y1: nat, m1: nat, d1: nat, y2: nat, m2: nat, d2: nat)
    requires m1 < 100 && d1 < 100 && m2 < 100 && d2 < 100
    ensures y1 * 10000 + m1 * 100 + d1 < y2 * 10000 + m2 * 100 + d2 <==>
      y1 < y2 || (y1 == y2 && (m1 < m2 || (m1 == m2 && d1 < d2)))
    ensures y1 * 10000 + m1 * 100 + d1 == y2 * 10000 + m2 * 100 + d2 <==> y1 == y2 && m1 == m2 && d1 == d2
  {
  }

  /** Equal-length digit strings compare as the numbers they denote. */
  lemma {:induction false} DigitsOrder(a: string, b: string)
    requires |a| == |b| && AllDigits(a) && AllDigits(b)
    ensures StrLt(a, b) <==> DigitsValue(a) < DigitsValue(b)
    ensures a == b <==> DigitsValue(a) == DigitsValue(b)
  {
    if |a| > 0 {
      var n := |a| - 1;
      var p, q := a[..n], b[..n];
      DigitsOrder(p, q);
      assert a == p + [a[n]] && b == q + [b[n]];
      StrLtConcat(p, [a[n]], q, [b[n]]);
      assert StrLt([a[n]], [b[n]]) <==> a[n] < b[n];
    }
  }
}
