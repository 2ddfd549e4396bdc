/**
 * JavaScript string comparison and the `YYYY-MM-DD` date format.
 *
 * The wizard compares dates as strings (`endDate < startDate`). This module
 * defines that comparison and proves that, on dates written in the fixed
 * width `YYYY-MM-DD` form a date input produces, it is calendar order.
 */
module DateOrder {

  /**
   * JavaScript's `a < b` on strings: lexicographic character by character, a
   * proper prefix first. JavaScript compares UTF-16 code units; this
   * definition compares characters, which agrees on every string without
   * characters above U+FFFF (a date input's value is ASCII).
   */
  predicate LexLess(a: string, b: string)
    decreases |a|
    ensures LexLess(a, b) ==> a != b
  {
    if a == [] then b != []
    else if b == [] then false
    else if a[0] != b[0] then a[0] < b[0]
    else LexLess(a[1..], b[1..])
  }

  function Pow10(n: nat): (p: nat)
    ensures p >= 1
  {
    if n == 0 then 1 else 10 * Pow10(n - 1)
  }

  function DigitChar(d: nat): char
    requires d < 10
  {
    ('0' as int + d) as char
  }

  /** `n` in exactly `w` decimal digits, zero-padded on the left. */
  function Digits(n: nat, w: nat): (s: string)
    requires n < Pow10(w)
    ensures |s| == w
  {
    if w == 0 then []
    else Digits(n / 10, w - 1) + [DigitChar(n % 10)]
  }

  /** At most one of two strings is less than the other. */
  lemma {:induction false} LexLessAsymmetric(a: string, b: string)
    ensures !(LexLess(a, b) && LexLess(b, a))
  {
    if a != [] && b != [] && a[0] == b[0] {
      LexLessAsymmetric(a[1..], b[1..]);
    }
  }

  /** Comparing two concatenations whose first parts have the same length. */
  lemma {:induction false} LexLessAppend(a: string, c: string, b: string, d: string)
    requires |a| == |b|
    ensures LexLess(a + c, b + d) <==> LexLess(a, b) || (a == b && LexLess(c, d))
  {
    if a == [] {
      assert a + c == c && b + d == d;
    } else {
      assert (a + c)[0] == a[0] && (b + d)[0] == b[0];
      assert (a + c)[1..] == a[1..] + c && (b + d)[1..] == b[1..] + d;
      LexLessAppend(a[1..], c, b[1..], d);
      if a[0] == b[0] {
        assert a == b <==> a[1..] == b[1..] by {
          if a[1..] == b[1..] {
            assert a == [a[0]] + a[1..] && b == [b[0]] + b[1..];
          }
        }
      }
    }
  }

  /** Fixed-width decimal strings compare as the numbers they write. */
  lemma {:induction false} DigitsOrder(n: nat, m: nat, w: nat)
    requires n < Pow10(w) && m < Pow10(w)
    ensures LexLess(Digits(n, w), Digits(m, w)) <==> n < m
  {
    if w > 0 {
      var hn, hm := Digits(n / 10, w - 1), Digits(m / 10, w - 1);
      var ln, lm := [DigitChar(n % 10)], [DigitChar(m % 10)];
      LexLessAppend(hn, ln, hm, lm);
      DigitsOrder(n / 10, m / 10, w - 1);
      if hn == hm {
        DigitsOrder(m / 10, n / 10, w - 1);
      }
    }
  }

  lemma DigitsInjective(n: nat, m: nat, w: nat)
    requires n < Pow10(w) && m < Pow10(w)
    requires Digits(n, w) == Digits(m, w)
    ensures n == m
  {
    DigitsOrder(n, m, w);
    DigitsOrder(m, n, w);
  }

  // ---------------------------------------------------------------------
  // Calendar dates

  datatype CalendarDate = CalendarDate(year: nat, month: nat, day: nat)

  predicate WellFormed(d: CalendarDate) {
    d.year < 10000 && 1 <= d.month <= 12 && 1 <= d.day <= 31
  }

  /** The value a date input holds: `YYYY-MM-DD`. */
  function Format(d: CalendarDate): (s: string)
    requires WellFormed(d)
    ensures |s| == 10
  {
    Digits(d.year, 4) + ("-" + (Digits(d.month, 2) + ("-" + Digits(d.day, 2))))
  }

  /** Calendar order. */
  predicate Before(a: CalendarDate, b: CalendarDate) {
    || a.year < b.year
    || (a.year == b.year && a.month < b.month)
    || (a.year == b.year && a.month == b.month && a.day < b.day)
  }

  /** Digits of equal numbers are equal strings, and conversely. */
  lemma DigitsEqual(n: nat, m: nat, w: nat)
    requires n < Pow10(w) && m < Pow10(w)
    ensures Digits(n, w) == Digits(m, w) <==> n == m
  {
    if Digits(n, w) == Digits(m, w) {
      DigitsInjective(n, m, w);
    }
  }

  /**
   * The agreement stops at four-digit years: a date input may hold a year
   * of five or more digits, and then string order puts `10000-01-01`
   * before `9999-12-31`.
   */
  lemma WideYearMisordered()
    ensures Before(CalendarDate(9999, 12, 31), CalendarDate(10000, 1, 1))
    ensures LexLess("10000-01-01", "9999-12-31")
  {
  }

  /** String order on formatted dates is calendar order. */
  lemma FormatOrder(a: CalendarDate, b: CalendarDate)
    requires WellFormed(a) && WellFormed(b)
    ensures LexLess(Format(a), Format(b)) <==> Before(a, b)
  {
    var ya, yb := Digits(a.year, 4), Digits(b.year, 4);
    var ma, mb := Digits(a.month, 2), Digits(b.month, 2);
    var da, db := Digits(a.day, 2), Digits(b.day, 2);
    DigitsOrder(a.year, b.year, 4);
    DigitsOrder(a.month, b.month, 2);
    DigitsOrder(a.day, b.day, 2);
    DigitsEqual(a.year, b.year, 4);
    DigitsEqual(a.month, b.month, 2);
    LexLessAppend("-", da, "-", db);
    LexLessAppend(ma, "-" + da, mb, "-" + db);
    LexLessAppend("-", ma + ("-" + da), "-", mb + ("-" + db));
    LexLessAppend(ya, "-" + (ma + ("-" + da)), yb, "-" + (mb + ("-" + db)));
  }
}
