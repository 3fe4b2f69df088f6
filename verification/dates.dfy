/**
 * Calendar dates as the sidebar's date pickers deliver them, and their `%Y-%m-%d` text form.
 * The text form is what the query compares against the stored `finishDate`; its fixed width
 * is what makes string order agree with calendar order.
 */
module Dates {
  import opened Collation

  datatype Date = Date(year: int, month: int, day: int)

  predicate IsLeapYear(y: int)
  {
    y % 4 == 0 && (y % 100 != 0 || y % 400 == 0)
  }

  function DaysInMonth(y: int, m: int): int
  {
    if m == 2 then (if IsLeapYear(y) then 29 else 28)
    else if m == 4 || m == 6 || m == 9 || m == 11 then 30
    else 31
  }

  /** The dates a Python `date` object can hold (years 1 through 9999). */
  predicate ValidDate(d: Date)
  {
    1 <= d.year <= 9999 && 1 <= d.month <= 12 && 1 <= d.day <= DaysInMonth(d.year, d.month)
  }

  type CalendarDate = d: Date | ValidDate(d) witness Date(2000, 1, 1)

  /** Calendar order: `a` is on or before `b`. */
  predicate OnOrBefore(a: Date, b: Date)
  {
    a.year < b.year || (a.year == b.year && (a.month < b.month || (a.month == b.month && a.day <= b.day)))
  }

  function Pow10(n: nat): (p: nat)
    ensures p >= 1
  {
    if n == 0 then 1 else 10 * Pow10(n - 1)
  }

  function DigitChar(d: int): char
    requires 0 <= d < 10
  {
    (48 + d) as char
  }

  /** `n` written in decimal with exactly `w` digits, zero-padded on the left. */
  function Digits(n: nat, w: nat): (s: string)
    requires n < Pow10(w)
    ensures |s| == w
    ensures forall i :: 0 <= i < |s| ==> '0' <= s[i] <= '9'
  {
    if w == 0 then [] else Digits(n / 10, w - 1) + [DigitChar(n % 10)]
  }

  /** `date.strftime('%Y-%m-%d')`. */
  function Format(d: CalendarDate): (s: string)
    ensures |s| == 10 && s[4] == '-' && s[7] == '-'
  {
    Digits(d.year, 4) + "-" + Digits(d.month, 2) + "-" + Digits(d.day, 2)
  }

  /** Fixed-width decimal strings compare as the numbers they spell. */
  lemma {:induction false} DigitsOrder(a: nat, b: nat, w: nat)
    requires a < Pow10(w) && b < Pow10(w)
    ensures LexLe(Digits(a, w), Digits(b, w)) <==> a <= b
    ensures Digits(a, w) == Digits(b, w) <==> a == b
  {
    if w == 0 {
      assert Pow10(0) == 1;
    } else {
      var A, B := Digits(a / 10, w - 1), Digits(b / 10, w - 1);
      var ca, cb := DigitChar(a % 10), DigitChar(b % 10);
      DigitsOrder(a / 10, b / 10, w - 1);
      LexLeAppend(A, [ca], B, [cb]);
      assert LexLe([ca], [cb]) <==> ca <= cb by {
        assert [ca][1..] == [] && [cb][1..] == [];
      }
      assert (A == B) <==> a / 10 == b / 10;
      assert a == 10 * (a / 10) + a % 10 && b == 10 * (b / 10) + b % 10;
      assert Digits(a, w) == A + [ca] && Digits(b, w) == B + [cb];
      if Digits(a, w) == Digits(b, w) {
        assert A == Digits(a, w)[..w - 1] && ca == Digits(a, w)[w - 1];
      }
    }
  }

  /** A leading dash is skipped by the comparison. */
  lemma DashPrefix(x: string, y: string)
    ensures LexLe("-" + x, "-" + y) <==> LexLe(x, y)
  {
  }

  /** Three dash-separated fields of fixed widths compare field by field. */
  lemma {:induction false} FieldsOrder(ya: string, ma: string, da: string, yb: string, mb: string, db: string)
    requires |ya| == |yb| && |ma| == |mb|
    ensures LexLe(ya + "-" + ma + "-" + da, yb + "-" + mb + "-" + db) <==>
              LexLess(ya, yb) || (ya == yb && (LexLess(ma, mb) || (ma == mb && LexLe(da, db))))
  {
    assert ya + "-" + ma + "-" + da == ya + ("-" + (ma + ("-" + da)));
    assert yb + "-" + mb + "-" + db == yb + ("-" + (mb + ("-" + db)));
    LexLeAppend(ya, "-" + (ma + ("-" + da)), yb, "-" + (mb + ("-" + db)));
    DashPrefix(ma + ("-" + da), mb + ("-" + db));
    LexLeAppend(ma, "-" + da, mb, "-" + db);
    DashPrefix(da, db);
  }

  /** Text order of formatted dates is calendar order: the property that lets a string range
      on `finishDate` select a range of days. */
  lemma FormatOrder(a: CalendarDate, b: CalendarDate)
    ensures LexLe(Format(a), Format(b)) <==> OnOrBefore(a, b)
  {
    assert Pow10(2) == 100 && Pow10(4) == 10000;
    DigitsOrder(a.year, b.year, 4);
    DigitsOrder(a.month, b.month, 2);
    DigitsOrder(a.day, b.day, 2);
    FieldsOrder(Digits(a.year, 4), Digits(a.month, 2), Digits(a.day, 2),
                Digits(b.year, 4), Digits(b.month, 2), Digits(b.day, 2));
  }

  /** Distinct dates have distinct text forms. */
  lemma FormatInjective(a: CalendarDate, b: CalendarDate)
    ensures Format(a) == Format(b) <==> a == b
  {
    FormatOrder(a, b);
    FormatOrder(b, a);
    if Format(a) == Format(b) {
      LexLeReflexive(Format(a));
    }
  }
}
