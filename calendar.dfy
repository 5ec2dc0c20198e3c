/** The part of Python's `datetime.date` the schedule crawler relies on:
    proleptic Gregorian dates, their ordinals (day 1 is 0001-01-01),
    `weekday()` (Monday is 0), subtracting days, and `strftime("%Y%m%d")`. */
module Calendar {
  import opened Wrappers
  import opened Strings

  datatype Date = Date(year: int, month: int, day: int)

  predicate IsLeap(y: int) {
    y % 4 == 0 && (y % 100 != 0 || y % 400 == 0)
  }

  function DaysInYear(y: int): nat {
    if IsLeap(y) then 366 else 365
  }

  function DaysInMonth(y: int, m: int): (n: nat)
    requires 1 <= m <= 12
    ensures 28 <= n <= 31
  {
    if m == 2 then (if IsLeap(y) then 29 else 28)
    else if m == 4 || m == 6 || m == 9 || m == 11 then 30
    else 31
  }

  /** A date Python can represent: years 1 to 9999. */
  predicate Valid(d: Date) {
    1 <= d.year <= 9999 && 1 <= d.month <= 12 && 1 <= d.day <= DaysInMonth(d.year, d.month)
  }

  /** Days in the years before `y`. */
  function DaysBeforeYear(y: int): nat
    requires y >= 1
    decreases y
  {
    if y == 1 then 0 else DaysBeforeYear(y - 1) + DaysInYear(y - 1)
  }

  /** Days in the months of year `y` before month `m`, as
      `_days_before_month` counts them from a table of cumulative month
      lengths, plus one after February of a leap year. */
  function DaysBeforeMonth(y: int, m: int): nat
    requires 1 <= m <= 12
  {
    [0, 31, 59, 90, 120, 151, 181, 212, 243, 273, 304, 334][m - 1]
      + (if m > 2 && IsLeap(y) then 1 else 0)
  }

  /** `date.toordinal()`: day 1 is 0001-01-01, and every date of a year
      is numbered after all dates of the years before it and before all
      dates of the years after it. */
  function Ordinal(d: Date): (o: int)
    requires Valid(d)
    ensures o >= 1
    ensures DaysBeforeYear(d.year) < o <= DaysBeforeYear(d.year + 1)
  {
    DaysBeforeYear(d.year) + DaysBeforeMonth(d.year, d.month) + d.day
  }

  /** The day of the week of an ordinal: 0 for Monday up to 6 for Sunday;
      day 1 was a Monday. */
  function DayOfWeek(o: int): (w: nat)
    ensures w < 7
  {
    (o + 6) % 7
  }

  /** `date.weekday()`, `(toordinal() + 6) % 7`: stepping back `w` day
      numbers lands on a Monday, a day number one more than a multiple of
      seven. */
  function Weekday(d: Date): (w: nat)
    requires Valid(d)
    ensures w < 7 && (Ordinal(d) - w) % 7 == 1
  {
    DayOfWeek(Ordinal(d))
  }

  /** The closed form's count of leap years up to `n`. */
  function LeapYearsThrough(n: int): int {
    n / 4 - n / 100 + n / 400
  }

  lemma DivStep4(n: int)
    ensures n / 4 - (n - 1) / 4 == (if n % 4 == 0 then 1 else 0)
  {
  }

  lemma DivStep100(n: int)
    ensures n / 100 - (n - 1) / 100 == (if n % 100 == 0 then 1 else 0)
  {
  }

  lemma DivStep400(n: int)
    ensures n / 400 - (n - 1) / 400 == (if n % 400 == 0 then 1 else 0)
  {
  }

  /** Every 400th year is a century and every century a fourth year. */
  lemma DivisorChain(n: int)
    ensures n % 400 == 0 ==> n % 100 == 0
    ensures n % 100 == 0 ==> n % 4 == 0
  {
    if n % 400 == 0 {
      var k := n / 400;
      assert n == 100 * (4 * k);
    }
    if n % 100 == 0 {
      var k := n / 100;
      assert n == 4 * (25 * k);
    }
  }

  /** The closed form counts year `n` exactly when it is a leap year. */
  lemma LeapYearsStep(n: int)
    ensures LeapYearsThrough(n) == LeapYearsThrough(n - 1) + (if IsLeap(n) then 1 else 0)
  {
    DivStep4(n);
    DivStep100(n);
    DivStep400(n);
    DivisorChain(n);
  }

  /** The count agrees with the closed form `_days_before_year` uses:
      365 days a year plus one for every fourth year, except centuries
      not divisible by 400. */
  lemma {:induction false} DaysBeforeYearClosedForm(y: int)
    requires y >= 1
    ensures DaysBeforeYear(y) == 365 * (y - 1) + LeapYearsThrough(y - 1)
    decreases y
  {
    if y > 1 {
      DaysBeforeYearClosedForm(y - 1);
      LeapYearsStep(y - 1);
    }
  }

  /** The table adds up the month lengths. */
  lemma DaysBeforeMonthStep(y: int, m: int)
    requires 2 <= m <= 12
    ensures DaysBeforeMonth(y, m) == DaysBeforeMonth(y, m - 1) + DaysInMonth(y, m - 1)
  {
  }

  lemma DaysBeforeDecember(y: int)
    ensures DaysBeforeMonth(y, 12) + 31 == DaysInYear(y)
  {
  }

  /** The day before `d`. */
  function PrevDay(d: Date): (p: Date)
    requires Valid(d) && Ordinal(d) > 1
    ensures Valid(p)
  {
    if d.day > 1 then Date(d.year, d.month, d.day - 1)
    else if d.month > 1 then Date(d.year, d.month - 1, DaysInMonth(d.year, d.month - 1))
    else
      assert d.year > 1;
      Date(d.year - 1, 12, 31)
  }

  /** The day before has the ordinal one less. */
  lemma PrevDayOrdinal(d: Date)
    requires Valid(d) && Ordinal(d) > 1
    ensures Ordinal(PrevDay(d)) == Ordinal(d) - 1
  {
    var y, m := d.year, d.month;
    if d.day > 1 {
      assert PrevDay(d) == Date(y, m, d.day - 1);
    } else if m > 1 {
      assert PrevDay(d) == Date(y, m - 1, DaysInMonth(y, m - 1));
      FirstOfMonthOrdinal(y, m);
    } else {
      assert PrevDay(d) == Date(y - 1, 12, 31);
      NewYearOrdinal(y);
    }
  }

  lemma NewYearOrdinal(y: int)
    requires 2 <= y <= 9999
    ensures Ordinal(Date(y, 1, 1)) == Ordinal(Date(y - 1, 12, 31)) + 1
  {
    assert DaysBeforeYear(y) == DaysBeforeYear(y - 1) + DaysInYear(y - 1);
    DaysBeforeDecember(y - 1);
  }

  lemma FirstOfMonthOrdinal(y: int, m: int)
    requires 1 <= y <= 9999 && 2 <= m <= 12
    ensures Ordinal(Date(y, m, 1)) == Ordinal(Date(y, m - 1, DaysInMonth(y, m - 1))) + 1
  {
    DaysBeforeMonthStep(y, m);
  }

  /** `d - timedelta(days=k)`, one day at a time. */
  function StepBack(d: Date, k: nat): (r: Date)
    requires Valid(d) && Ordinal(d) > k
    ensures Valid(r) && Ordinal(r) == Ordinal(d) - k
    decreases k
  {
    if k == 0 then d
    else
      PrevDayOrdinal(d);
      StepBack(PrevDay(d), k - 1)
  }

  /** `TODAY - timedelta(days=TODAY.weekday())`: this week's Monday. It
      never steps before 0001-01-01, which was itself a Monday. */
  function Monday(today: Date): (m: Date)
    requires Valid(today)
    ensures Valid(m) && Ordinal(m) == Ordinal(today) - Weekday(today)
  {
    StepBack(today, Weekday(today))
  }

  /** MONDAY is a Monday, 0 to 6 days before or on TODAY. */
  lemma MondayIsThisWeeksMonday(today: Date)
    requires Valid(today)
    ensures Weekday(Monday(today)) == 0
    ensures 0 <= Ordinal(today) - Ordinal(Monday(today)) <= 6
  {
    OnMonday(Ordinal(today));
  }

  /** No Monday after MONDAY comes on or before TODAY. */
  lemma MondayIsLatest(today: Date, d: Date)
    requires Valid(today) && Valid(d)
    requires Weekday(d) == 0 && Ordinal(d) <= Ordinal(today)
    ensures Ordinal(d) <= Ordinal(Monday(today))
  {
    MondayGap(Ordinal(d), Ordinal(today));
  }

  /** The numbering agrees with the civil calendar: 1 January 2024 was a
      Monday and 14 October 2026 a Wednesday. */
  lemma WeekdayOfKnownDates()
    ensures Ordinal(Date(2024, 1, 1)) == 738886 && Weekday(Date(2024, 1, 1)) == 0
    ensures Weekday(Date(2026, 10, 14)) == 2
  {
    DaysBeforeYearClosedForm(2024);
    DaysBeforeYearClosedForm(2026);
  }

  /** Going back as many days as the day of the week lands on a Monday. */
  lemma OnMonday(o: int)
    ensures DayOfWeek(o - DayOfWeek(o)) == 0
  {
    var p := (o + 6) / 7;
    assert o + 6 == 7 * p + (o + 6) % 7;
    assert o - (o + 6) % 7 + 6 == 7 * p;
  }

  /** A Monday not after `o` is not after the Monday of the week of `o`. */
  lemma MondayGap(od: int, o: int)
    requires od <= o && DayOfWeek(od) == 0
    ensures od <= o - DayOfWeek(o)
  {
    var q := (od + 6) / 7;
    var p := (o + 6) / 7;
    assert od + 6 == 7 * q;
    assert o + 6 == 7 * p + (o + 6) % 7;
    assert q <= p;
  }

  // ---------------------------------------------------------------------
  // strftime("%Y%m%d")

  /** `n` in decimal, padded with zeros on the left to `width` digits. */
  function ZeroPad(n: nat, width: nat): (s: string)
    ensures |s| == Max(width, |NatToString(n)|)
    ensures AllDigits(s) && DigitsValue(s) == n
  {
    var digits := NatToString(n);
    NatToStringValue(n);
    if |digits| >= width then digits
    else
      LeadingZeros(width - |digits|, digits);
      Zeros(width - |digits|) + digits
  }

  function Zeros(k: nat): (s: string)
    ensures |s| == k && AllDigits(s)
  {
    if k == 0 then "" else "0" + Zeros(k - 1)
  }

  lemma {:induction false} LeadingZero(s: string)
    requires AllDigits(s)
    ensures AllDigits("0" + s) && DigitsValue("0" + s) == DigitsValue(s)
    decreases |s|
  {
    if s != [] {
      var t := "0" + s;
      assert t[..|t| - 1] == "0" + s[..|s| - 1];
      assert t[|t| - 1] == s[|s| - 1];
      LeadingZero(s[..|s| - 1]);
    }
  }

  lemma {:induction false} LeadingZeros(k: nat, s: string)
    requires AllDigits(s)
    ensures AllDigits(Zeros(k) + s) && DigitsValue(Zeros(k) + s) == DigitsValue(s)
    decreases k
  {
    if k > 0 {
      LeadingZeros(k - 1, s);
      assert Zeros(k) == "0" + Zeros(k - 1);
      assert Zeros(k) + s == "0" + (Zeros(k - 1) + s);
      LeadingZero(Zeros(k - 1) + s);
    } else {
      assert Zeros(k) + s == s;
    }
  }

  lemma {:induction false} NatToStringLength(n: nat, bound: nat)
    requires n < Pow10(bound)
    ensures |NatToString(n)| <= Max(bound, 1)
    decreases n
  {
    if n >= 10 {
      assert bound >= 2;
      NatToStringLength(n / 10, bound - 1);
    }
  }

  function Pow10(k: nat): (p: nat)
    ensures p >= 1
  {
    if k == 0 then 1 else 10 * Pow10(k - 1)
  }

  /** `date.strftime("%Y%m%d")`, the four-digit year, the month and the
      day, each zero-padded. */
  function FormatYmd(d: Date): (s: string)
    requires Valid(d)
    ensures |s| == 8 && AllDigits(s)
  {
    assert Pow10(4) == 10000 && Pow10(2) == 100;
    NatToStringLength(d.year, 4);
    NatToStringLength(d.month, 2);
    NatToStringLength(d.day, 2);
    ZeroPad(d.year, 4) + ZeroPad(d.month, 2) + ZeroPad(d.day, 2)
  }

  /** Reading eight digits back as `YYYYMMDD`. */
  function ParseYmd(s: string): Option<Date> {
    if |s| == 8 && AllDigits(s) then
      Some(Date(DigitsValue(s[..4]), DigitsValue(s[4..6]), DigitsValue(s[6..])))
    else None
  }

  /** The formatted date reads back as the same date: the eight digits
      are exactly year, month and day. */
  lemma FormatYmdRoundTrip(d: Date)
    requires Valid(d)
    ensures ParseYmd(FormatYmd(d)) == Some(d)
  {
    var s := FormatYmd(d);
    assert Pow10(4) == 10000 && Pow10(2) == 100;
    NatToStringLength(d.year, 4);
    NatToStringLength(d.month, 2);
    NatToStringLength(d.day, 2);
    var y, m, dd := ZeroPad(d.year, 4), ZeroPad(d.month, 2), ZeroPad(d.day, 2);
    assert s[..4] == y;
    assert s[4..6] == m;
    assert s[6..] == dd;
  }
}
