/** The calendar helpers of the client: `fmtYMD`, `startOfWeek`, `weekDays`,
    `labelShort` and `labelLong`. A local date-time is a day number counted
    from 1970-01-01 (a Thursday) plus the milliseconds into that day; the
    year, month and day of the month come from the proleptic Gregorian
    calendar, so `getDay`, `getMonth`, `getDate` and `getFullYear` are
    functions of the day number. */
module DateHelpers {
  import opened Values
  import opened Text

  /** A `Date` as the helpers see it, in local time. */
  datatype Moment = Moment(day: int, ms: int)

  /** `getDay()`: 0 for Sunday up to 6 for Saturday. */
  function Weekday(day: int): (w: int)
    ensures 0 <= w < 7
  {
    (day + 4) % 7
  }

  /** Seven days later is the same weekday. */
  lemma {:induction false} WeekdayPeriodic(day: int, k: int)
    ensures Weekday(day + 7 * k) == Weekday(day)
  {
    var q := (day + 4) / 7;
    assert day + 4 == 7 * q + Weekday(day);
    assert day + 7 * k + 4 == 7 * (q + k) + Weekday(day);
  }

  // ---------------------------------------------------------------------
  // The civil calendar

  predicate IsLeap(y: int) {
    y % 4 == 0 && (y % 100 != 0 || y % 400 == 0)
  }

  function YearLen(y: int): int {
    if IsLeap(y) then 366 else 365
  }

  function MonthLen(y: int, m: int): (n: int)
    requires 0 <= m < 12
    ensures 28 <= n <= 31
  {
    if m == 1 then (if IsLeap(y) then 29 else 28)
    else if m == 3 || m == 5 || m == 8 || m == 10 then 30
    else 31
  }

  /** The days of the year before month `m` (0-based): each earlier month
      adds between 28 and 31 days. */
  function DaysBefore(y: int, m: int): (n: int)
    requires 0 <= m <= 12
    ensures 28 * m <= n <= 31 * m
  {
    if m == 0 then 0 else DaysBefore(y, m - 1) + MonthLen(y, m - 1)
  }

  /** The twelve months fill the year. */
  lemma {:induction false} MonthsFillYear(y: int)
    ensures DaysBefore(y, 12) == YearLen(y)
  {
    assert DaysBefore(y, 1) == 31;
    assert DaysBefore(y, 2) == 31 + MonthLen(y, 1);
    assert DaysBefore(y, 3) == 62 + MonthLen(y, 1);
    assert DaysBefore(y, 4) == 92 + MonthLen(y, 1);
    assert DaysBefore(y, 5) == 123 + MonthLen(y, 1);
    assert DaysBefore(y, 6) == 153 + MonthLen(y, 1);
    assert DaysBefore(y, 7) == 184 + MonthLen(y, 1);
    assert DaysBefore(y, 8) == 215 + MonthLen(y, 1);
    assert DaysBefore(y, 9) == 245 + MonthLen(y, 1);
    assert DaysBefore(y, 10) == 276 + MonthLen(y, 1);
    assert DaysBefore(y, 11) == 306 + MonthLen(y, 1);
  }

  /** The day number of January 1st of `y`. */
  function YearStart(y: int): int
    decreases if y < 1970 then 1970 - y else y - 1970
  {
    if y == 1970 then 0
    else if y > 1970 then YearStart(y - 1) + YearLen(y - 1)
    else YearStart(y + 1) - YearLen(y)
  }

  /** Walks from day `d` of year `y` (which may run outside that year) to
      the year that holds it. */
  function SplitYear(y: int, d: int): (r: (int, int))
    ensures 0 <= r.1 < YearLen(r.0)
    ensures YearStart(r.0) + r.1 == YearStart(y) + d
    decreases if d < 0 then 400 - d else d
  {
    if d < 0 then SplitYear(y - 1, d + YearLen(y - 1))
    else if d < YearLen(y) then (y, d)
    else SplitYear(y + 1, d - YearLen(y))
  }

  /** The month, searching down from `m`, whose days hold day `doy` of the year. */
  function MonthFrom(y: int, doy: int, m: int): (r: int)
    requires 0 <= doy && 0 <= m < 12
    ensures 0 <= r <= m
    ensures DaysBefore(y, r) <= doy
    ensures r < m ==> doy < DaysBefore(y, r + 1)
  {
    if DaysBefore(y, m) <= doy then m else MonthFrom(y, doy, m - 1)
  }

  /** `getFullYear()`, `getMonth()` and `getDate()` together. */
  datatype Civil = Civil(year: int, month0: int, date: int)

  /** The calendar date a day number falls on; `DayNumber` reads it back. */
  function CivilOf(day: int): (c: Civil)
    ensures 0 <= c.month0 < 12
    ensures 1 <= c.date <= MonthLen(c.year, c.month0)
    ensures DayNumber(c) == day
  {
    var (y, doy) := SplitYear(1970, day);
    var m := MonthFrom(y, doy, 11);
    MonthsFillYear(y);
    Civil(y, m, doy - DaysBefore(y, m) + 1)
  }

  /** The day number of a calendar date. */
  function DayNumber(c: Civil): int
    requires 0 <= c.month0 < 12
  {
    YearStart(c.year) + DaysBefore(c.year, c.month0) + c.date - 1
  }

  // ---------------------------------------------------------------------
  // Formatting

  /** `fmtYMD(d)`: the year, a dash, the 1-based month on two digits, a
      dash and the day of the month on two digits. */
  function FmtYMD(t: Moment): (r: string)
    ensures var c := CivilOf(t.day);
            var y := ShowInt(c.year);
            && |r| == |y| + 6
            && r[..|y|] == y && ToNumber(r[..|y|]) == Some(c.year)
            && r[|y|] == '-' && r[|y| + 3] == '-'
            && AllDigits(r[|y| + 1..|y| + 3]) && DigitsValue(r[|y| + 1..|y| + 3]) == c.month0 + 1
            && AllDigits(r[|y| + 4..]) && DigitsValue(r[|y| + 4..]) == c.date
  {
    var c := CivilOf(t.day);
    Dashed(c.year, c.month0 + 1, c.date)
  }

  /** `${year}-${month}-${date}` with month and date padded to two digits. */
  function Dashed(year: int, month: nat, date: nat): (r: string)
    requires month < 100 && date < 100
    ensures var y := ShowInt(year);
            && |r| == |y| + 6
            && r[..|y|] == y && ToNumber(r[..|y|]) == Some(year)
            && r[|y|] == '-' && r[|y| + 3] == '-'
            && AllDigits(r[|y| + 1..|y| + 3]) && DigitsValue(r[|y| + 1..|y| + 3]) == month
            && AllDigits(r[|y| + 4..]) && DigitsValue(r[|y| + 4..]) == date
  {
    var y, m, d := ShowInt(year), Pad2(month), Pad2(date);
    ToNumberShowInt(year);
    DashedParts(y, m, d);
    y + "-" + m + "-" + d
  }

  /** The parts of `${y}-${m}-${d}` with two-character month and day. */
  lemma {:induction false} DashedParts(y: string, m: string, d: string)
    requires |m| == 2 && |d| == 2
    ensures var r := y + "-" + m + "-" + d;
            && |r| == |y| + 6
            && r[..|y|] == y
            && r[|y|] == '-' && r[|y| + 3] == '-'
            && r[|y| + 1..|y| + 3] == m
            && r[|y| + 4..] == d
  {
    var r := y + "-" + m + "-" + d;
    assert r[..|y|] == y;
    assert r[|y| + 1..|y| + 3] == m;
    assert r[|y| + 4..] == d;
  }

  /** Two moments on different days format differently. */
  lemma {:induction false} FmtYMDInjective(a: Moment, b: Moment)
    requires FmtYMD(a) == FmtYMD(b)
    ensures a.day == b.day
  {
    var ca, cb := CivilOf(a.day), CivilOf(b.day);
    DashedInjective(ca.year, ca.month0 + 1, ca.date, cb.year, cb.month0 + 1, cb.date);
    assert ca == cb;
  }

  /** The dashed spelling determines its year, month and date. */
  lemma {:induction false} DashedInjective(y1: int, m1: nat, d1: nat, y2: int, m2: nat, d2: nat)
    requires m1 < 100 && d1 < 100 && m2 < 100 && d2 < 100
    requires Dashed(y1, m1, d1) == Dashed(y2, m2, d2)
    ensures y1 == y2 && m1 == m2 && d1 == d2
  {
    var r := Dashed(y1, m1, d1);
    var n := |ShowInt(y1)|;
    assert n == |ShowInt(y2)|;
    assert ToNumber(r[..n]) == Some(y1) && ToNumber(r[..n]) == Some(y2);
  }

  // ---------------------------------------------------------------------
  // Weeks

  /** `d.setDate(d.getDate() + n)`: the same time of day, `n` days on. */
  function AddDays(t: Moment, n: int): (r: Moment)
    ensures r.day - t.day == n && r.ms == t.ms
  {
    Moment(t.day + n, t.ms)
  }

  /** `startOfWeek(d, weekStartsOn = 1)`: a copy of `d` moved back by `diff`
      days to the week's first day and set to midnight. */
  function StartOfWeek(t: Moment, weekStartsOn: int := 1): (r: Moment)
    ensures r.ms == 0
    ensures 0 <= weekStartsOn < 7 ==> 0 <= t.day - r.day <= 6 && Weekday(r.day) == weekStartsOn
  {
    var day := Weekday(t.day);
    var diff := (if day < weekStartsOn then 7 else 0) + day - weekStartsOn;
    var q := (t.day + 4) / 7;
    assert t.day + 4 == 7 * q + day;
    assert 0 <= weekStartsOn < 7 ==>
      t.day - diff + 4 == 7 * (if day < weekStartsOn then q - 1 else q) + weekStartsOn;
    Moment(t.day - diff, 0)
  }

  /** Starting a week again from its first day stays there. */
  lemma {:induction false} StartOfWeekIdempotent(t: Moment, weekStartsOn: int)
    requires 0 <= weekStartsOn < 7
    ensures StartOfWeek(StartOfWeek(t, weekStartsOn), weekStartsOn) == StartOfWeek(t, weekStartsOn)
  {
  }

  /** Every moment lies in the seven days that start at its week's start. */
  lemma {:induction false} StartOfWeekCovers(t: Moment, weekStartsOn: int)
    requires 0 <= weekStartsOn < 7
    ensures exists i :: 0 <= i < 7 && AddDays(StartOfWeek(t, weekStartsOn), i).day == t.day
  {
    var s := StartOfWeek(t, weekStartsOn);
    var i := t.day - s.day;
    assert AddDays(s, i).day == t.day;
  }

  /** `weekDays(fromDate)`: seven dates, the i-th `fromDate` plus i days. */
  method WeekDays(from: Moment) returns (arr: seq<Moment>)
    ensures |arr| == 7
    ensures forall i :: 0 <= i < 7 ==> arr[i] == AddDays(from, i)
  {
    arr := [];
    var i := 0;
    while i < 7
      invariant 0 <= i <= 7
      invariant |arr| == i
      invariant forall j :: 0 <= j < i ==> arr[j] == AddDays(from, j)
    {
      var d := Moment(from.day + i, from.ms);
      arr := arr + [d];
      i := i + 1;
    }
  }

  // ---------------------------------------------------------------------
  // Labels

  const Dias: seq<string> := ["dom", "seg", "ter", "qua", "qui", "sex", "sáb"]
  const Meses: seq<string> := ["jan", "fev", "mar", "abr", "mai", "jun", "jul", "ago", "set", "out", "nov", "dez"]

  /** `labelShort(d)`: the weekday's name, a space and the day of the month
      on two digits, as in "seg 26". */
  function LabelShort(t: Moment): (r: string)
    ensures |r| == 6 && r[3] == ' '
    ensures r[..3] == Dias[Weekday(t.day)]
    ensures AllDigits(r[4..]) && DigitsValue(r[4..]) == CivilOf(t.day).date
  {
    var name := Dias[Weekday(t.day)];
    var r := name + " " + Pad2(CivilOf(t.day).date);
    assert r[..3] == name && r[4..] == Pad2(CivilOf(t.day).date);
    r
  }

  /** A week later the short label names the same weekday. */
  lemma {:induction false} LabelShortWeekly(t: Moment)
    ensures LabelShort(AddDays(t, 7))[..3] == LabelShort(t)[..3]
  {
    WeekdayPeriodic(t.day, 1);
  }

  /** The parts of a long label read back: the day, the month's name and
      the year. */
  lemma {:induction false} LongLabelParts(day: string, month: string, year: int)
    requires |day| == 2 && |month| == 3
    ensures var r := day + (" " + month + " ") + ShowInt(year);
            && |r| == 7 + |ShowInt(year)|
            && r[..2] == day && r[2..7] == " " + month + " "
            && ToNumber(r[7..]) == Some(year)
  {
    ToNumberShowInt(year);
    Join3(day, " " + month + " ", ShowInt(year));
  }

  /** `labelLong(d)`: the day of the month on two digits, the month's name
      and the year, separated by spaces, as in "26 ago 2025". */
  function LabelLong(t: Moment): (r: string)
    ensures var c := CivilOf(t.day);
            && |r| == 7 + |ShowInt(c.year)|
            && AllDigits(r[..2]) && DigitsValue(r[..2]) == c.date
            && r[2..7] == " " + Meses[c.month0] + " "
            && ToNumber(r[7..]) == Some(c.year)
  {
    var c := CivilOf(t.day);
    LongLabelParts(Pad2(c.date), Meses[c.month0], c.year);
    Pad2(c.date) + (" " + Meses[c.month0] + " ") + ShowInt(c.year)
  }
}
