/** Calendar dates as (year, month, day) triples, with the month arithmetic
    of JavaScript's `Date.prototype.setMonth` and the `YYYY-MM-DD` text form
    that `toISOString().split('T')[0]` produces and date inputs deliver. */
module Calendar {
  import opened Wrappers
  import opened Text

  /** A proleptic Gregorian date; `month` runs 1..12. */
  datatype Date = Date(year: int, month: int, day: int)

  predicate IsLeapYear(y: int) {
    y % 4 == 0 && (y % 100 != 0 || y % 400 == 0)
  }

  function DaysInMonth(y: int, m: int): (n: int)
    requires 1 <= m <= 12
    ensures 28 <= n <= 31
    ensures n == 29 <==> m == 2 && IsLeapYear(y)
  {
    if m == 2 then (if IsLeapYear(y) then 29 else 28)
    else if m == 4 || m == 6 || m == 9 || m == 11 then 30
    else 31
  }

  predicate Valid(d: Date) {
    1 <= d.month <= 12 && 1 <= d.day <= DaysInMonth(d.year, d.month)
  }

  /** Chronological order: lexicographic on (year, month, day). */
  predicate Before(a: Date, b: Date) {
    a.year < b.year
    || (a.year == b.year && a.month < b.month)
    || (a.year == b.year && a.month == b.month && a.day < b.day)
  }

  lemma BeforeTransitive(a: Date, b: Date, c: Date)
    requires Before(a, b) && Before(b, c)
    ensures Before(a, c)
  {
  }

  /** The first day of the month after (y, m). */
  function NextMonthStart(y: int, m: int): (r: Date)
    requires 1 <= m <= 12
    ensures Valid(r) && r.day == 1
    ensures Before(Date(y, m, DaysInMonth(y, m)), r)
  {
    if m == 12 then Date(y + 1, 1, 1) else Date(y, m + 1, 1)
  }

  /** Day `day` (>= 1, possibly past the month's end) of month (y, m),
      counted on into the following months: `new Date(y, m - 1, day)`. */
  function Overflow(y: int, m: int, day: int): (r: Date)
    requires 1 <= m <= 12 && day >= 1
    ensures Valid(r)
    ensures day <= DaysInMonth(y, m) ==> r == Date(y, m, day)
    decreases day
  {
    if day <= DaysInMonth(y, m) then Date(y, m, day)
    else
      var next := NextMonthStart(y, m);
      Overflow(next.year, next.month, day - DaysInMonth(y, m))
  }

  /** The date `setMonth(getMonth() + k)` yields: the month index is
      normalised into a year and a month, and the day of the month is kept
      and, when the target month is too short, carried over into the next
      month rather than clamped. */
  function AddMonths(d: Date, k: int): Date
    requires 1 <= d.month <= 12 && d.day >= 1
  {
    var index := d.month - 1 + k;
    Overflow(d.year + index / 12, index % 12 + 1, d.day)
  }

  /** The year and month `AddMonths` lands in before any day overflow. */
  function TargetMonth(d: Date, k: int): (r: Date)
    requires 1 <= d.month <= 12
    ensures 1 <= r.month <= 12 && r.day == 1
  {
    var index := d.month - 1 + k;
    Date(d.year + index / 12, index % 12 + 1, 1)
  }

  /** Every date `AddMonths` produces is a real calendar date; the day of the
      month is kept when the target month has it, and otherwise the excess
      days spill into the following month (no clamping). */
  lemma AddMonthsShape(d: Date, k: int)
    requires Valid(d)
    ensures Valid(AddMonths(d, k))
    ensures var t := TargetMonth(d, k);
      if d.day <= DaysInMonth(t.year, t.month) then
        AddMonths(d, k) == Date(t.year, t.month, d.day)
      else
        var n := NextMonthStart(t.year, t.month);
        AddMonths(d, k) == Date(n.year, n.month, d.day - DaysInMonth(t.year, t.month))
  {
    var t := TargetMonth(d, k);
    if d.day > DaysInMonth(t.year, t.month) {
      var n := NextMonthStart(t.year, t.month);
      assert d.day - DaysInMonth(t.year, t.month) <= 3;
      assert Overflow(t.year, t.month, d.day) == Overflow(n.year, n.month, d.day - DaysInMonth(t.year, t.month));
    }
  }

  lemma TargetMonthStep(d: Date, k: int)
    requires 1 <= d.month <= 12
    ensures var t := TargetMonth(d, k);
      TargetMonth(d, k + 1) == NextMonthStart(t.year, t.month)
  {
  }

  /** Advancing one more month always gives a strictly later date. */
  lemma AddMonthsStep(d: Date, k: int)
    requires Valid(d)
    ensures Before(AddMonths(d, k), AddMonths(d, k + 1))
  {
    AddMonthsShape(d, k);
    AddMonthsShape(d, k + 1);
    TargetMonthStep(d, k);
    var t := TargetMonth(d, k);
    var t' := TargetMonth(d, k + 1);
    var n' := NextMonthStart(t'.year, t'.month);
    assert Before(t', n');
  }

  /** Dates advanced by more months are strictly later. */
  lemma {:induction false} AddMonthsIncreasing(d: Date, i: int, j: int)
    requires Valid(d) && i < j
    ensures Before(AddMonths(d, i), AddMonths(d, j))
    decreases j - i
  {
    AddMonthsStep(d, i);
    if i + 1 < j {
      AddMonthsIncreasing(d, i + 1, j);
      BeforeTransitive(AddMonths(d, i), AddMonths(d, i + 1), AddMonths(d, j));
    }
  }

  /** The overflow case spelled out: one month after January 31st is March
      2nd in a leap year and March 3rd otherwise. */
  lemma JanuaryThirtyFirstPlusOneMonth()
    ensures AddMonths(Date(2024, 1, 31), 1) == Date(2024, 3, 2)
    ensures AddMonths(Date(2023, 1, 31), 1) == Date(2023, 3, 3)
    ensures AddMonths(Date(2024, 1, 31), 2) == Date(2024, 3, 31)
  {
    AddMonthsShape(Date(2024, 1, 31), 1);
    AddMonthsShape(Date(2023, 1, 31), 1);
    AddMonthsShape(Date(2024, 1, 31), 2);
  }

  // ---- text form ----

  /** `s` left-padded with zeros to width `w`. */
  function PadZeros(s: string, w: nat): (r: string)
    ensures |r| == if |s| < w then w else |s|
    ensures r == Zeros(|r| - |s|) + s
  {
    if |s| < w then Zeros(w - |s|) + s else s
  }

  function Zeros(n: nat): (r: string)
    ensures |r| == n && forall i :: 0 <= i < n ==> r[i] == '0'
  {
    if n == 0 then [] else Zeros(n - 1) + "0"
  }

  /** The year as `toISOString` writes it: four digits for 0..9999, else a
      sign and six digits. */
  function FormatYear(y: int): string {
    if 0 <= y <= 9999 then PadZeros(NatToString(y), 4)
    else if y > 9999 then "+" + PadZeros(NatToString(y), 6)
    else "-" + PadZeros(NatToString(-y), 6)
  }

  /** `toISOString().split('T')[0]` of a date at midnight UTC. */
  function FormatIso(d: Date): string
    requires Valid(d)
  {
    FormatYear(d.year) + "-" + PadZeros(NatToString(d.month), 2) + "-" + PadZeros(NatToString(d.day), 2)
  }

  /** The pieces of the text of a date. */
  lemma FormatIsoText(d: Date, year: string, month: string, day: string)
    requires Valid(d)
    requires FormatYear(d.year) == year
    requires PadZeros(NatToString(d.month), 2) == month && PadZeros(NatToString(d.day), 2) == day
    ensures FormatIso(d) == year + "-" + month + "-" + day
  {
  }

  lemma YearText()
    ensures FormatYear(2024) == "2024"
  {
    assert NatToString(2) == "2";
    assert NatToString(20) == NatToString(2) + "0";
    assert NatToString(202) == NatToString(20) + "2";
    assert NatToString(2024) == NatToString(202) + "4";
  }

  lemma DayTexts()
    ensures PadZeros(NatToString(1), 2) == "01"
    ensures PadZeros(NatToString(2), 2) == "02"
    ensures PadZeros(NatToString(3), 2) == "03"
    ensures PadZeros(NatToString(31), 2) == "31"
  {
    assert Zeros(1) == "0";
    assert NatToString(31) == "31" by { assert NatToString(3) == "3"; }
  }

  /** The three dates of a recurring entry started on 2024-01-31, as text. */
  lemma FormatIsoExamples()
    ensures FormatIso(Date(2024, 1, 31)) == "2024-01-31"
    ensures FormatIso(Date(2024, 3, 2)) == "2024-03-02"
    ensures FormatIso(Date(2024, 3, 31)) == "2024-03-31"
  {
    YearText();
    DayTexts();
    FormatIsoText(Date(2024, 1, 31), "2024", "01", "31");
    FormatIsoText(Date(2024, 3, 2), "2024", "03", "02");
    FormatIsoText(Date(2024, 3, 31), "2024", "03", "31");
  }

  /** "2024-01-31" reads as January 31st, 2024. */
  lemma ParseJanuaryThirtyFirst()
    ensures ParseIso("2024-01-31") == Some(Date(2024, 1, 31))
  {
    FormatIsoExamples();
    FormatParseRoundTrip(Date(2024, 1, 31));
  }

  /** The text shape `^\d{4}-\d{2}-\d{2}$`. */
  predicate IsIsoDateShape(s: string) {
    && |s| == 10
    && IsDigit(s[0]) && IsDigit(s[1]) && IsDigit(s[2]) && IsDigit(s[3])
    && s[4] == '-' && IsDigit(s[5]) && IsDigit(s[6])
    && s[7] == '-' && IsDigit(s[8]) && IsDigit(s[9])
  }

  /** `new Date(s)` for the value of a date input, which is either a
      `YYYY-MM-DD` text or empty; `None` stands for the Invalid Date. Texts
      of any other shape, and out-of-range days that JavaScript would roll
      over, are read as `None` too. */
  function ParseIso(s: string): (r: Option<Date>)
    ensures r.Some? ==> IsIsoDateShape(s) && Valid(r.value) && 0 <= r.value.year <= 9999
  {
    if !IsIsoDateShape(s) then None
    else
      var d := Date(DigitsValue(s[0..4]), DigitsValue(s[5..7]), DigitsValue(s[8..10]));
      assert d.year <= 9999 by { DigitsBound(s[0..4]); }
      if Valid(d) then Some(d) else None
  }

  lemma {:induction false} DigitsBound(s: string)
    requires forall i :: 0 <= i < |s| ==> IsDigit(s[i])
    ensures DigitsValue(s) < Pow10(|s|)
  {
    if s != [] { DigitsBound(s[..|s| - 1]); }
  }

  function Pow10(n: nat): (r: nat)
    ensures r >= 1
  {
    if n == 0 then 1 else 10 * Pow10(n - 1)
  }

  /** Leading zeros do not change the value of a digit string. */
  lemma {:induction false} DigitsValueZeros(n: nat, s: string)
    requires forall i :: 0 <= i < |s| ==> IsDigit(s[i])
    ensures DigitsValue(Zeros(n) + s) == DigitsValue(s)
    decreases |s|
  {
    var z := Zeros(n) + s;
    if s == [] {
      ZerosValue(n);
      assert z == Zeros(n);
    } else {
      assert z[..|z| - 1] == Zeros(n) + s[..|s| - 1];
      DigitsValueZeros(n, s[..|s| - 1]);
    }
  }

  lemma {:induction false} ZerosValue(n: nat)
    ensures DigitsValue(Zeros(n)) == 0
  {
    if n > 0 {
      assert Zeros(n)[..n - 1] == Zeros(n - 1);
      ZerosValue(n - 1);
    }
  }

  lemma PaddedValue(n: nat, w: nat)
    ensures forall i :: 0 <= i < |PadZeros(NatToString(n), w)| ==> IsDigit(PadZeros(NatToString(n), w)[i])
    ensures DigitsValue(PadZeros(NatToString(n), w)) == n
  {
    var s := NatToString(n);
    DigitsValueZeros(|PadZeros(s, w)| - |s|, s);
    NatToStringValue(n);
  }

  lemma PaddedLength(n: nat, w: nat)
    requires w >= 1 && n < Pow10(w)
    ensures |PadZeros(NatToString(n), w)| == w
  {
    NatToStringBound(n, w);
  }

  lemma {:induction false} NatToStringBound(n: nat, w: nat)
    requires w >= 1 && n < Pow10(w)
    ensures |NatToString(n)| <= w
  {
    if n >= 10 {
      assert w >= 2;
      assert n / 10 < Pow10(w - 1);
      NatToStringBound(n / 10, w - 1);
    }
  }

  predicate AllDigits(s: string) {
    forall i :: 0 <= i < |s| ==> IsDigit(s[i])
  }

  lemma ShapeOfParts(y: string, m: string, d: string)
    requires |y| == 4 && |m| == 2 && |d| == 2
    requires AllDigits(y) && AllDigits(m) && AllDigits(d)
    ensures IsIsoDateShape(y + "-" + m + "-" + d)
  {
    var s := y + "-" + m + "-" + d;
    assert s[0] == y[0] && s[1] == y[1] && s[2] == y[2] && s[3] == y[3];
    assert s[5] == m[0] && s[6] == m[1] && s[8] == d[0] && s[9] == d[1];
  }

  /** A date of a four-digit year prints in the `YYYY-MM-DD` shape. */
  lemma FormatIsoShape(d: Date)
    requires Valid(d) && 0 <= d.year <= 9999
    ensures IsIsoDateShape(FormatIso(d))
  {
    PaddedLength(d.year, 4);
    PaddedLength(d.month, 2);
    PaddedLength(d.day, 2);
    PaddedValue(d.year, 4);
    PaddedValue(d.month, 2);
    PaddedValue(d.day, 2);
    ShapeOfParts(PadZeros(NatToString(d.year), 4), PadZeros(NatToString(d.month), 2), PadZeros(NatToString(d.day), 2));
  }

  /** Printing a date and parsing the text back gives the same date. */
  lemma FormatParseRoundTrip(d: Date)
    requires Valid(d) && 0 <= d.year <= 9999
    ensures ParseIso(FormatIso(d)) == Some(d)
  {
    FormatIsoShape(d);
    var y := PadZeros(NatToString(d.year), 4);
    var m := PadZeros(NatToString(d.month), 2);
    var dd := PadZeros(NatToString(d.day), 2);
    PaddedLength(d.year, 4);
    PaddedLength(d.month, 2);
    PaddedLength(d.day, 2);
    PaddedValue(d.year, 4);
    PaddedValue(d.month, 2);
    PaddedValue(d.day, 2);
    var s := FormatIso(d);
    assert s == y + "-" + m + "-" + dd;
    assert s[0..4] == y;
    assert s[5..7] == m;
    assert s[8..10] == dd;
  }

  /** Digit strings of the same length compare as text exactly as their
      values compare, and are equal exactly when their values are. */
  lemma {:induction false} DigitsOrder(x: string, y: string)
    requires |x| == |y| && AllDigits(x) && AllDigits(y)
    ensures LexLess(x, y) <==> DigitsValue(x) < DigitsValue(y)
    ensures x == y <==> DigitsValue(x) == DigitsValue(y)
  {
    if |x| > 0 {
      var n := |x|;
      var px, py := x[..n - 1], y[..n - 1];
      var a, b := x[n - 1], y[n - 1];
      DigitsOrder(px, py);
      assert x == px + [a] && y == py + [b];
      LexConcat(px, [a], py, [b]);
      assert LexLess([a], [b]) <==> a < b;
      assert DigitsValue(x) == DigitsValue(px) * 10 + (a as int - '0' as int);
      assert DigitsValue(y) == DigitsValue(py) * 10 + (b as int - '0' as int);
    }
  }

  /** Text order of `Y-M-D` strings whose parts have fixed widths is
      lexicographic on the parts. */
  lemma PartsOrder(y1: string, m1: string, d1: string, y2: string, m2: string, d2: string)
    requires |y1| == |y2| && |m1| == |m2|
    ensures LexLess(y1 + "-" + m1 + "-" + d1, y2 + "-" + m2 + "-" + d2)
        <==> LexLess(y1, y2) || (y1 == y2 && (LexLess(m1, m2) || (m1 == m2 && LexLess(d1, d2))))
  {
    var r1, r2 := "-" + m1 + "-" + d1, "-" + m2 + "-" + d2;
    assert y1 + "-" + m1 + "-" + d1 == y1 + r1;
    assert y2 + "-" + m2 + "-" + d2 == y2 + r2;
    LexConcat(y1, r1, y2, r2);
    assert r1 == "-" + (m1 + "-" + d1) && r2 == "-" + (m2 + "-" + d2);
    LexConcat("-", m1 + "-" + d1, "-", m2 + "-" + d2);
    LexIrreflexive("-");
    assert m1 + "-" + d1 == m1 + ("-" + d1) && m2 + "-" + d2 == m2 + ("-" + d2);
    LexConcat(m1, "-" + d1, m2, "-" + d2);
    LexConcat("-", d1, "-", d2);
  }

  /** For two texts that read as dates, string order is chronological
      order: this is why sorting `YYYY-MM-DD` keys as text sorts them by
      date. */
  lemma IsoTextOrder(a: string, b: string)
    requires ParseIso(a).Some? && ParseIso(b).Some?
    ensures LexLess(a, b) <==> Before(ParseIso(a).value, ParseIso(b).value)
    ensures a == b <==> ParseIso(a).value == ParseIso(b).value
  {
    var ya, ma, da := a[0..4], a[5..7], a[8..10];
    var yb, mb, db := b[0..4], b[5..7], b[8..10];
    assert a == ya + "-" + ma + "-" + da;
    assert b == yb + "-" + mb + "-" + db;
    DigitsOrder(ya, yb);
    DigitsOrder(ma, mb);
    DigitsOrder(da, db);
    PartsOrder(ya, ma, da, yb, mb, db);
  }

  /** A run of digits is the zero-padded decimal spelling of its own
      value, at its own width. */
  lemma PaddedDigits(s: string)
    requires |s| >= 1 && AllDigits(s)
    ensures PadZeros(NatToString(DigitsValue(s)), |s|) == s
  {
    var n := DigitsValue(s);
    DigitsBound(s);
    PaddedLength(n, |s|);
    PaddedValue(n, |s|);
    DigitsOrder(PadZeros(NatToString(n), |s|), s);
  }

  /** The three digit runs of a `YYYY-MM-DD` text. */
  lemma PartsOfShape(s: string)
    requires IsIsoDateShape(s)
    ensures AllDigits(s[0..4]) && AllDigits(s[5..7]) && AllDigits(s[8..10])
    ensures s == s[0..4] + "-" + s[5..7] + "-" + s[8..10]
  {
    assert forall i :: 0 <= i < 4 ==> s[0..4][i] == s[i];
    assert forall i :: 0 <= i < 2 ==> s[5..7][i] == s[5 + i] && s[8..10][i] == s[8 + i];
  }

  /** A `YYYY-MM-DD` text parses exactly when its month and day form a real
      date of the year it names. */
  lemma ShapedTextParses(s: string)
    requires IsIsoDateShape(s)
    ensures ParseIso(s).Some? <==>
      var y, m := DigitsValue(s[0..4]), DigitsValue(s[5..7]);
      1 <= m <= 12 && 1 <= DigitsValue(s[8..10]) <= DaysInMonth(y, m)
  {
  }

  /** A text that parses prints back as itself, so the stored date of a
      first record is exactly the date that was typed. */
  lemma ParseFormatRoundTrip(s: string)
    requires ParseIso(s).Some?
    ensures FormatIso(ParseIso(s).value) == s
  {
    var d := ParseIso(s).value;
    PartsOfShape(s);
    var y, m, dd := s[0..4], s[5..7], s[8..10];
    PaddedDigits(y);
    PaddedDigits(m);
    PaddedDigits(dd);
    assert d == Date(DigitsValue(y), DigitsValue(m), DigitsValue(dd));
    assert FormatYear(d.year) == y;
    FormatIsoText(d, y, m, dd);
  }
}
