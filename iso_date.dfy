/**
  Calendar dates written as `YYYY-MM-DD`, the `full-date` form of section 5.6 of
  RFC 3339, which is what an HTML date input holds and what
  `new Date().toISOString().split('T')[0]` yields. Section 5.1 of RFC 3339 notes
  that such strings sort chronologically when compared as strings; the lemma
  `LessIsChronological` proves that for the JavaScript string comparison.
 */
module IsoDate {
  import JsString

  predicate IsDigit(c: char)
  {
    '0' <= c <= '9'
  }

  function DigitValue(c: char): (d: nat)
    requires IsDigit(c)
    ensures d <= 9
  {
    c as int - '0' as int
  }

  predicate AllDigits(s: string)
  {
    forall i :: 0 <= i < |s| ==> IsDigit(s[i])
  }

  function Pow10(n: nat): (p: nat)
    ensures p >= 1
  {
    if n == 0 then 1 else 10 * Pow10(n - 1)
  }

  /** The number a string of decimal digits denotes, most significant digit first. */
  function Value(s: string): (v: nat)
    requires AllDigits(s)
    ensures v < Pow10(|s|)
    decreases |s|
  {
    if s == [] then 0
    else
      var d, p, rest := DigitValue(s[0]), Pow10(|s| - 1), Value(s[1..]);
      LeadingDigitDecides(d, 10, p, rest, 0);
      d * p + rest
  }

  /** A smaller leading digit wins whatever follows it. */
  lemma LeadingDigitDecides(x: nat, y: nat, p: nat, r: nat, r': nat)
    requires x < y && r < p
    ensures x * p + r < y * p + r'
  {
    var k: nat := y - x - 1;
    calc {
      y * p;
      (x + 1 + k) * p;
      x * p + p + k * p;
    }
    assert k * p >= 0;
  }

  /** For digit strings of one length, string order is numeric order. */
  lemma {:induction false} DigitsLessIsNumeric(a: string, b: string)
    requires AllDigits(a) && AllDigits(b) && |a| == |b|
    ensures JsString.Less(a, b) <==> Value(a) < Value(b)
    decreases |a|
  {
    if a != [] {
      var p := Pow10(|a| - 1);
      var da, db := DigitValue(a[0]), DigitValue(b[0]);
      var ra, rb := Value(a[1..]), Value(b[1..]);
      assert Value(a) == da * p + ra && Value(b) == db * p + rb;
      if da < db {
        LeadingDigitDecides(da, db, p, ra, rb);
        assert a[0] < b[0];
      } else if db < da {
        LeadingDigitDecides(db, da, p, rb, ra);
        assert b[0] < a[0];
      } else {
        assert a[0] == b[0];
        DigitsLessIsNumeric(a[1..], b[1..]);
        var q := da * p;
        assert Value(a) == q + ra && Value(b) == q + rb;
      }
    }
  }

  /** Digit strings of one length denote the same number only when they are the same string. */
  lemma DigitsValueInjective(a: string, b: string)
    requires AllDigits(a) && AllDigits(b) && |a| == |b|
    ensures Value(a) == Value(b) <==> a == b
  {
    JsString.LessConnected(a, b);
    DigitsLessIsNumeric(a, b);
    DigitsLessIsNumeric(b, a);
  }

  predicate IsLeapYear(year: nat)
  {
    year % 4 == 0 && (year % 100 != 0 || year % 400 == 0)
  }

  /** The largest `date-mday` for a month (RFC 3339 section 5.7). */
  function MaxDay(year: nat, month: nat): (m: nat)
    requires 1 <= month <= 12
    ensures 28 <= m <= 31
    ensures m == 29 <==> month == 2 && IsLeapYear(year)
  {
    if month == 2 then (if IsLeapYear(year) then 29 else 28)
    else if month == 4 || month == 6 || month == 9 || month == 11 then 30
    else 31
  }

  /** The `full-date` production: `date-fullyear "-" date-month "-" date-mday`. */
  predicate IsFullDate(s: string)
  {
    && |s| == 10
    && AllDigits(s[0..4]) && s[4] == '-'
    && AllDigits(s[5..7]) && s[7] == '-'
    && AllDigits(s[8..10])
    && 1 <= Value(s[5..7]) <= 12
    && 1 <= Value(s[8..10]) <= MaxDay(Value(s[0..4]), Value(s[5..7]))
  }

  datatype Date = Date(year: nat, month: nat, day: nat)

  function Parse(s: string): (d: Date)
    requires IsFullDate(s)
    ensures d.year <= 9999 && 1 <= d.month <= 12 && 1 <= d.day <= 31
  {
    Date(Value(s[0..4]), Value(s[5..7]), Value(s[8..10]))
  }

  /** `d1` is an earlier calendar day than `d2`. */
  predicate Before(d1: Date, d2: Date)
  {
    || d1.year < d2.year
    || (d1.year == d2.year && d1.month < d2.month)
    || (d1.year == d2.year && d1.month == d2.month && d1.day < d2.day)
  }

  lemma FullDateSplit(s: string)
    requires |s| == 10
    ensures s == s[0..4] + ([s[4]] + (s[5..7] + ([s[7]] + s[8..10])))
  {
  }

  /** Two full-dates are equal as strings exactly when they name the same day. */
  lemma ParseInjective(a: string, b: string)
    requires IsFullDate(a) && IsFullDate(b)
    ensures Parse(a) == Parse(b) <==> a == b
  {
    DigitsValueInjective(a[0..4], b[0..4]);
    DigitsValueInjective(a[5..7], b[5..7]);
    DigitsValueInjective(a[8..10], b[8..10]);
    FullDateSplit(a);
    FullDateSplit(b);
  }

  /** JavaScript's `a < b` on two full-dates holds exactly when `a` is the earlier day. */
  lemma LessIsChronological(a: string, b: string)
    requires IsFullDate(a) && IsFullDate(b)
    ensures JsString.Less(a, b) <==> Before(Parse(a), Parse(b))
  {
    FullDateSplit(a);
    FullDateSplit(b);
    var ya, yb := a[0..4], b[0..4];
    var ma, mb := a[5..7], b[5..7];
    var da, db := a[8..10], b[8..10];
    var ta, tb := [a[7]] + da, [b[7]] + db;
    var ua, ub := ma + ta, mb + tb;
    var va, vb := [a[4]] + ua, [b[4]] + ub;
    JsString.LessConcat(ya, va, yb, vb);
    JsString.LessConcat([a[4]], ua, [b[4]], ub);
    JsString.LessConcat(ma, ta, mb, tb);
    JsString.LessConcat([a[7]], da, [b[7]], db);
    JsString.LessIrreflexive([a[4]]);
    DigitsLessIsNumeric(ya, yb);
    DigitsLessIsNumeric(ma, mb);
    DigitsLessIsNumeric(da, db);
    DigitsValueInjective(ya, yb);
    DigitsValueInjective(ma, mb);
  }

  /**
    A valid date string as an HTML date input holds it: a year of four or more
    digits that is greater than zero, then `-MM-DD`. Years past 9999 are allowed,
    which the `full-date` production does not allow.
   */
  predicate IsDateValue(s: string)
  {
    && |s| >= 10
    && AllDigits(s[..|s| - 6]) && s[|s| - 6] == '-'
    && AllDigits(s[|s| - 5..|s| - 3]) && s[|s| - 3] == '-'
    && AllDigits(s[|s| - 2..])
    && Value(s[..|s| - 6]) > 0
    && 1 <= Value(s[|s| - 5..|s| - 3]) <= 12
    && 1 <= Value(s[|s| - 2..]) <= MaxDay(Value(s[..|s| - 6]), Value(s[|s| - 5..|s| - 3]))
  }

  /** The day a valid date string names. */
  function ParseValue(s: string): (d: Date)
    requires IsDateValue(s)
    ensures d.year > 0 && 1 <= d.month <= 12 && 1 <= d.day <= MaxDay(d.year, d.month)
  {
    Date(Value(s[..|s| - 6]), Value(s[|s| - 5..|s| - 3]), Value(s[|s| - 2..]))
  }

  /** A full-date with a year after 0000 is a valid date string naming the same day. */
  lemma FullDateIsDateValue(s: string)
    requires IsFullDate(s) && Parse(s).year > 0
    ensures IsDateValue(s) && ParseValue(s) == Parse(s)
  {
    assert s[..|s| - 6] == s[0..4] && s[|s| - 5..|s| - 3] == s[5..7] && s[|s| - 2..] == s[8..10];
  }
}
