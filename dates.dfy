/**
 * Calendar dates as Python's `datetime.date` holds them: the day numbers of
 * `date.toordinal()`, the numeric `strptime` layouts that the schema and the
 * extractor try, and `date.isoformat()` (the ISO 8601 extended calendar date
 * `YYYY-MM-DD`, section 5.2.1.1 of ISO 8601:2004).
 */
module Dates {
  import opened Wrappers
  import opened Text

  datatype Date = Date(year: int, month: int, day: int)

  predicate IsLeapYear(y: int) {
    y % 4 == 0 && (y % 100 != 0 || y % 400 == 0)
  }

  function DaysInMonth(y: int, m: int): int
    requires 1 <= m <= 12
  {
    if m == 2 then (if IsLeapYear(y) then 29 else 28)
    else if m == 4 || m == 6 || m == 9 || m == 11 then 30
    else 31
  }

  /** The dates `datetime.date` can represent (years 1 to 9999). */
  predicate ValidDate(d: Date) {
    1 <= d.year <= 9999 && 1 <= d.month <= 12 && 1 <= d.day <= DaysInMonth(d.year, d.month)
  }

  type CalendarDate = d: Date | ValidDate(d) witness Date(1, 1, 1)

  /** Python's `a < b` on dates: year, then month, then day. */
  predicate Before(a: Date, b: Date) {
    a.year < b.year
    || (a.year == b.year && (a.month < b.month || (a.month == b.month && a.day < b.day)))
  }

  // ----------------------------------------------------------------------
  // Day numbers
  // ----------------------------------------------------------------------

  function DaysInYear(y: int): int {
    if IsLeapYear(y) then 366 else 365
  }

  function DaysBeforeYear(y: int): int {
    var p := y - 1;
    p * 365 + p / 4 - p / 100 + p / 400
  }

  function DaysBeforeMonth(y: int, m: int): int
    requires 1 <= m <= 12
  {
    var table := [0, 31, 59, 90, 120, 151, 181, 212, 243, 273, 304, 334];
    table[m - 1] + (if m > 2 && IsLeapYear(y) then 1 else 0)
  }

  /** `date.toordinal()`: 1 January of year 1 is day 1. Date arithmetic with
      `timedelta(days=n)` moves this number by `n`. */
  function Ordinal(d: CalendarDate): int {
    DaysBeforeYear(d.year) + DaysBeforeMonth(d.year, d.month) + d.day
  }

  lemma DaysBeforeYearStep(y: int)
    requires y >= 1
    ensures DaysBeforeYear(y + 1) == DaysBeforeYear(y) + DaysInYear(y)
  {
    assert y / 4 - (y - 1) / 4 == if y % 4 == 0 then 1 else 0;
    assert y / 100 - (y - 1) / 100 == if y % 100 == 0 then 1 else 0;
    assert y / 400 - (y - 1) / 400 == if y % 400 == 0 then 1 else 0;
  }

  lemma {:induction false} DaysBeforeYearMonotone(a: int, b: int)
    requires 1 <= a < b
    ensures DaysBeforeYear(a) + DaysInYear(a) <= DaysBeforeYear(b)
    decreases b - a
  {
    DaysBeforeYearStep(a);
    if a + 1 < b {
      DaysBeforeYearMonotone(a + 1, b);
    }
  }

  lemma OrdinalWithinYear(d: CalendarDate)
    ensures DaysBeforeYear(d.year) < Ordinal(d) <= DaysBeforeYear(d.year) + DaysInYear(d.year)
  {
  }

  lemma OrdinalMonotone(a: CalendarDate, b: CalendarDate)
    requires Before(a, b)
    ensures Ordinal(a) < Ordinal(b)
  {
    if a.year < b.year {
      OrdinalWithinYear(a);
      OrdinalWithinYear(b);
      DaysBeforeYearMonotone(a.year, b.year);
    }
  }

  /** Comparing two dates as Python does is comparing their day numbers, so
      rules stated on day numbers (a window of `timedelta` days around today)
      agree with the source's date comparisons. */
  lemma OrdinalOrder(a: CalendarDate, b: CalendarDate)
    ensures Before(a, b) <==> Ordinal(a) < Ordinal(b)
    ensures a == b <==> Ordinal(a) == Ordinal(b)
  {
    if Before(a, b) {
      OrdinalMonotone(a, b);
    } else if Before(b, a) {
      OrdinalMonotone(b, a);
    }
  }

  // ----------------------------------------------------------------------
  // strptime with a numeric layout
  // ----------------------------------------------------------------------

  /** What `%d` accepts: `3[01]|[12]\d|0[1-9]|[1-9]| [1-9]`. */
  predicate IsDayToken(t: string) {
    (|t| == 1 && '1' <= t[0] <= '9')
    || (|t| == 2 && ((t[0] == '3' && (t[1] == '0' || t[1] == '1'))
                     || ((t[0] == '1' || t[0] == '2') && IsDigit(t[1]))
                     || (t[0] == '0' && '1' <= t[1] <= '9')
                     || (t[0] == ' ' && '1' <= t[1] <= '9')))
  }

  /** What `%m` accepts: `1[0-2]|0[1-9]|[1-9]`. */
  predicate IsMonthToken(t: string) {
    (|t| == 1 && '1' <= t[0] <= '9')
    || (|t| == 2 && ((t[0] == '1' && '0' <= t[1] <= '2') || (t[0] == '0' && '1' <= t[1] <= '9')))
  }

  /** What `%Y` accepts: exactly four digits. */
  predicate IsYearToken(t: string) {
    |t| == 4 && AllDigits(t)
  }

  /** The number a token stands for (`%d` allows one leading space). */
  function TokenValue(t: string): int
    requires IsDayToken(t) || IsMonthToken(t) || IsYearToken(t)
  {
    if t[0] == ' ' then DigitValue(t[1]) else DigitsValue(t)
  }

  datatype FieldOrder = DayMonthYear | MonthDayYear | YearMonthDay

  /** A numeric `strptime` format such as `%d.%m.%Y`: its field order and its
      separator. */
  datatype Layout = Layout(order: FieldOrder, sep: char)

  /** The text before and after the first `c`. */
  function SplitOnce(s: string, c: char): (r: Option<(string, string)>)
    ensures r.Some? ==> s == r.value.0 + [c] + r.value.1 && c !in r.value.0
    ensures r.None? ==> c !in s
  {
    match IndexOf(s, c)
    case None => None
    case Some(i) =>
      assert s == s[..i] + [c] + s[i + 1..];
      Some((s[..i], s[i + 1..]))
  }

  /**
   * `datetime.strptime(s, layout).date()`, or `None` where it raises
   * `ValueError`. With a separator that no token contains (`.`, `-`, `/`), the
   * whole-string match of `strptime` is exactly: cut at the first two
   * separators, each piece a token of its field, and the three numbers a real
   * calendar date.
   */
  function ParseWith(s: string, layout: Layout): Option<CalendarDate> {
    match SplitOnce(s, layout.sep)
    case None => None
    case Some(first) =>
      match SplitOnce(first.1, layout.sep)
      case None => None
      case Some(second) => ParseFields(first.0, second.0, second.1, layout.order)
  }

  /** The date three pieces stand for, taken in the layout's field order:
      each piece a token of its field and the numbers a real calendar date. */
  function ParseFields(a: string, b: string, c: string, order: FieldOrder): Option<CalendarDate> {
    var fields :=
      match order
      case DayMonthYear => (c, b, a)
      case MonthDayYear => (c, a, b)
      case YearMonthDay => (a, b, c);
    var yt, mt, dt := fields.0, fields.1, fields.2;
    if IsYearToken(yt) && IsMonthToken(mt) && IsDayToken(dt) then
      var d := Date(TokenValue(yt), TokenValue(mt), TokenValue(dt));
      if ValidDate(d) then Some(d) else None
    else None
  }

  /** Text made of three separator-free pieces is read piece by piece. */
  lemma ParsePieces(a: string, b: string, c: string, layout: Layout)
    requires layout.sep !in a && layout.sep !in b
    ensures ParseWith(a + [layout.sep] + b + [layout.sep] + c, layout) == ParseFields(a, b, c, layout.order)
  {
    SplitFields(a, b, c, layout.sep);
  }

  /** The result of the source's loop `for fmt in formats: try: return
      strptime(s, fmt) ...`: the date read by the first layout that accepts
      `s`. */
  function FirstLayout(s: string, layouts: seq<Layout>): Option<CalendarDate> {
    if layouts == [] then None
    else match ParseWith(s, layouts[0])
      case Some(d) => Some(d)
      case None => FirstLayout(s, layouts[1..])
  }

  /** The loop yields nothing exactly when every layout rejects `s`, and
      otherwise the date of the first layout that accepts it. */
  lemma {:induction false} FirstLayoutIff(s: string, layouts: seq<Layout>)
    ensures FirstLayout(s, layouts).None? <==> forall i :: 0 <= i < |layouts| ==> ParseWith(s, layouts[i]).None?
    ensures FirstLayout(s, layouts).Some? ==>
      exists i :: 0 <= i < |layouts| && ParseWith(s, layouts[i]) == FirstLayout(s, layouts)
                  && forall j :: 0 <= j < i ==> ParseWith(s, layouts[j]).None?
  {
    if layouts != [] && ParseWith(s, layouts[0]).None? {
      var tail := layouts[1..];
      FirstLayoutIff(s, tail);
      assert forall i :: 1 <= i < |layouts| ==> tail[i - 1] == layouts[i];
      if FirstLayout(s, tail).Some? {
        var i :| 0 <= i < |tail| && ParseWith(s, tail[i]) == FirstLayout(s, tail)
                 && forall j :: 0 <= j < i ==> ParseWith(s, tail[j]).None?;
        assert ParseWith(s, layouts[i + 1]) == FirstLayout(s, layouts);
        assert forall j :: 0 <= j < i + 1 ==> ParseWith(s, layouts[j]).None? by {
          forall j | 0 <= j < i + 1 ensures ParseWith(s, layouts[j]).None? {
            if j > 0 { assert layouts[j] == tail[j - 1]; }
          }
        }
      }
    }
  }

  /** When every layout before position `k` rejects `s` and layout `k`
      accepts it, the loop yields what layout `k` reads. */
  lemma {:induction false} FirstLayoutAt(s: string, layouts: seq<Layout>, k: nat)
    requires k < |layouts| && ParseWith(s, layouts[k]).Some?
    requires forall j :: 0 <= j < k ==> ParseWith(s, layouts[j]).None?
    ensures FirstLayout(s, layouts) == ParseWith(s, layouts[k])
  {
    if k > 0 {
      assert ParseWith(s, layouts[0]).None?;
      assert forall j :: 0 <= j < k - 1 ==> layouts[1..][j] == layouts[j + 1];
      FirstLayoutAt(s, layouts[1..], k - 1);
    }
  }

  lemma FirstLayoutHead(s: string, layouts: seq<Layout>)
    requires layouts != [] && ParseWith(s, layouts[0]).Some?
    ensures FirstLayout(s, layouts) == ParseWith(s, layouts[0])
  {
  }

  lemma FirstLayoutSkip(s: string, layouts: seq<Layout>)
    requires layouts != [] && ParseWith(s, layouts[0]).None?
    ensures FirstLayout(s, layouts) == FirstLayout(s, layouts[1..])
  {
  }

  lemma SeparatorAbsent(s: string, layout: Layout)
    requires forall i :: 0 <= i < |s| ==> s[i] != layout.sep
    ensures ParseWith(s, layout) == None
  {
  }

  /** Cutting `a·b·c` at its first two separators gives the three pieces. */
  lemma SplitFields(a: string, b: string, c: string, sep: char)
    requires sep !in a && sep !in b
    ensures SplitOnce(a + [sep] + b + [sep] + c, sep) == Some((a, b + [sep] + c))
    ensures SplitOnce(b + [sep] + c, sep) == Some((b, c))
  {
    var s := a + [sep] + b + [sep] + c;
    var rest := b + [sep] + c;
    assert s == a + [sep] + rest;
    IndexOfAfterFree(a, sep, rest);
    assert s[..|a|] == a && s[|a| + 1..] == rest;
    IndexOfAfterFree(b, sep, c);
    assert rest[..|b|] == b && rest[|b| + 1..] == c;
  }

  /** The early-return loop over a list of layouts, as both the schema and
      the extractor write it. */
  method TryLayouts(s: string, layouts: seq<Layout>) returns (r: Option<CalendarDate>)
    ensures r == FirstLayout(s, layouts)
  {
    var i := 0;
    while i < |layouts|
      invariant 0 <= i <= |layouts|
      invariant FirstLayout(s, layouts) == FirstLayout(s, layouts[i..])
    {
      var parsed := ParseWith(s, layouts[i]);
      if parsed.Some? {
        return parsed;
      }
      assert layouts[i..][1..] == layouts[i + 1..];
      i := i + 1;
    }
    return None;
  }

  /** No layout reads a year written with two digits, whatever the day and
      month pieces are. */
  lemma ShortYearRejected(a: string, b: string, y: string, c: char, layout: Layout)
    requires AllDigits(a) && AllDigits(b) && AllDigits(y)
    requires |a| <= 2 && |y| == 2 && !IsDigit(c) && !IsDigit(layout.sep)
    ensures ParseWith(a + [c] + b + [c] + y, layout) == None
  {
    var s := a + [c] + b + [c] + y;
    if layout.sep == c {
      IndexOfAfterFree(a, c, b + [c] + y);
      assert s == a + [c] + (b + [c] + y);
      IndexOfAfterFree(b, c, y);
    } else {
      assert forall i :: 0 <= i < |s| ==> s[i] != layout.sep by {
        forall i | 0 <= i < |s| ensures s[i] != layout.sep {
          if i < |a| { assert s[i] == a[i]; }
          else if i == |a| || i == |a| + 1 + |b| { assert s[i] == c; }
          else if i <= |a| + |b| { assert s[i] == b[i - |a| - 1]; }
          else { assert s[i] == y[i - |a| - |b| - 2]; }
        }
      }
    }
  }

  // ----------------------------------------------------------------------
  // isoformat
  // ----------------------------------------------------------------------

  function Pad2(n: nat): string
    requires n < 100
  {
    [DigitChar(n / 10), DigitChar(n % 10)]
  }

  function Pad4(n: nat): string
    requires n < 10000
  {
    Pad2(n / 100) + Pad2(n % 100)
  }

  /** `date.isoformat()`, which is also `str(date)`: `YYYY-MM-DD`. */
  function IsoFormat(d: CalendarDate): (s: string)
    ensures |s| == 10 && s[4] == '-' && s[7] == '-'
    ensures forall i :: 0 <= i < 10 && i != 4 && i != 7 ==> IsDigit(s[i])
  {
    Pad4(d.year) + "-" + Pad2(d.month) + "-" + Pad2(d.day)
  }

  lemma Pad2Value(n: nat)
    requires n < 100
    ensures AllDigits(Pad2(n)) && DigitsValue(Pad2(n)) == n
  {
    var s := Pad2(n);
    assert s[..1] == [s[0]];
    assert DigitsValue(s[..1]) == DigitValue(s[0]);
  }

  /** Two more digits shift the value of the digits before them by 100. */
  lemma DigitsValueTwoMore(a: string, b: string)
    requires AllDigits(a) && AllDigits(b) && |b| == 2
    ensures AllDigits(a + b) && DigitsValue(a + b) == 100 * DigitsValue(a) + DigitsValue(b)
  {
    var s := a + b;
    assert s[..|s| - 1] == a + [b[0]];
    assert (a + [b[0]])[..|a|] == a;
    assert b[..1] == [b[0]];
    assert DigitsValue(b[..1]) == DigitValue(b[0]);
  }

  lemma Pad4Value(n: nat)
    requires n < 10000
    ensures AllDigits(Pad4(n)) && DigitsValue(Pad4(n)) == n
  {
    Pad2Value(n / 100);
    Pad2Value(n % 100);
    DigitsValueTwoMore(Pad2(n / 100), Pad2(n % 100));
  }

  /** A month or a day of the month, written with two digits, is a token of
      `%m` or `%d`. */
  lemma Pad2Tokens(n: nat)
    requires 1 <= n <= 31
    ensures IsDayToken(Pad2(n))
    ensures n <= 12 ==> IsMonthToken(Pad2(n))
  {
  }

  /** `%Y-%m-%d` reads the text `isoformat` writes back as the same date. */
  lemma {:induction false} IsoRoundTrip(d: CalendarDate)
    ensures ParseWith(IsoFormat(d), Layout(YearMonthDay, '-')) == Some(d)
  {
    var y, m, dd := Pad4(d.year), Pad2(d.month), Pad2(d.day);
    Pad4Value(d.year);
    Pad2Value(d.month);
    Pad2Value(d.day);
    Pad2Tokens(d.month);
    Pad2Tokens(d.day);
    assert IsoFormat(d) == y + ['-'] + m + ['-'] + dd;
    assert '-' !in y && '-' !in m by {
      assert forall i :: 0 <= i < |y| ==> IsDigit(y[i]);
      assert forall i :: 0 <= i < |m| ==> IsDigit(m[i]);
    }
    ParsePieces(y, m, dd, Layout(YearMonthDay, '-'));
  }
}
