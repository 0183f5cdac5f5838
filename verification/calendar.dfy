/**
 * Calendar dates and date-times as the clinic stores them, their ordering,
 * and the `%Y-%m-%d` date parser the appointment list uses for its `date`
 * query parameter.
 *
 * All date-times are taken to be in one time zone, so a date-time's calendar
 * date, year and month are read off its fields.
 */
module Calendar {
  import opened Wrappers

  datatype Date = Date(year: int, month: int, day: int)

  /** A date and a time of day, in microseconds since midnight. */
  datatype DateTime = DateTime(date: Date, micros: int)

  const MICROS_PER_DAY: int := 86_400_000_000

  predicate IsLeapYear(y: int) {
    y % 4 == 0 && (y % 100 != 0 || y % 400 == 0)
  }

  function DaysInMonth(y: int, m: int): (n: int)
    requires 1 <= m <= 12
    ensures 28 <= n <= 31
    ensures n == 29 <==> m == 2 && IsLeapYear(y)
  {
    if m == 2 then (if IsLeapYear(y) then 29 else 28)
    else if m == 4 || m == 6 || m == 9 || m == 11 then 30
    else 31
  }

  /** A date the proleptic Gregorian calendar has, in years 1 to 9999. */
  predicate ValidDate(d: Date) {
    && 1 <= d.year <= 9999
    && 1 <= d.month <= 12
    && 1 <= d.day <= DaysInMonth(d.year, d.month)
  }

  predicate ValidDateTime(t: DateTime) {
    ValidDate(t.date) && 0 <= t.micros < MICROS_PER_DAY
  }

  function DateOf(t: DateTime): Date { t.date }
  function YearOf(t: DateTime): int { t.date.year }
  function MonthOf(t: DateTime): int { t.date.month }

  /** `a` is a strictly earlier calendar date than `b`. */
  predicate DateBefore(a: Date, b: Date) {
    || a.year < b.year
    || (a.year == b.year && a.month < b.month)
    || (a.year == b.year && a.month == b.month && a.day < b.day)
  }

  /** `a` is a strictly earlier instant than `b`. */
  predicate Before(a: DateTime, b: DateTime) {
    DateBefore(a.date, b.date) || (a.date == b.date && a.micros < b.micros)
  }

  /** `Before` is a strict total order, so `!Before(now, t)` reads as `t <= now`. */
  lemma BeforeIsStrictTotalOrder(a: DateTime, b: DateTime, c: DateTime)
    ensures !Before(a, a)
    ensures Before(a, b) && Before(b, c) ==> Before(a, c)
    ensures a == b || Before(a, b) || Before(b, a)
  {
  }

  // ---------------------------------------------------------------------
  // Parsing `%Y-%m-%d` the way Python's `datetime.strptime` does.
  //
  // `%Y` is exactly four digits, `%m` tries `1[0-2]`, then `0[1-9]`, then
  // `[1-9]`, and `%d` tries `3[01]`, `[12][0-9]`, `0[1-9]`, `[1-9]`, then a
  // space followed by `[1-9]`; the first alternative that matches is taken,
  // the whole text must be consumed, and the date must exist in the calendar.
  // ---------------------------------------------------------------------

  predicate IsDigit(c: char) { '0' <= c <= '9' }

  function DigitValue(c: char): (n: int)
    requires IsDigit(c)
    ensures 0 <= n <= 9
  {
    c as int - '0' as int
  }

  function DigitChar(n: int): (c: char)
    requires 0 <= n <= 9
    ensures IsDigit(c) && DigitValue(c) == n
  {
    ('0' as int + n) as char
  }

  /** A number of the text, and how many characters spell it. */
  datatype Field = Field(value: int, width: nat)

  function FourDigitValue(s: string): (n: int)
    requires |s| >= 4 && IsDigit(s[0]) && IsDigit(s[1]) && IsDigit(s[2]) && IsDigit(s[3])
    ensures 0 <= n <= 9999
  {
    1000 * DigitValue(s[0]) + 100 * DigitValue(s[1]) + 10 * DigitValue(s[2]) + DigitValue(s[3])
  }

  /** The `%m` directive at the start of `s`. */
  function MonthField(s: string): (r: Option<Field>)
    ensures r.Some? ==> 1 <= r.value.width <= |s| && 1 <= r.value.value <= 12
  {
    if 2 <= |s| && s[0] == '1' && '0' <= s[1] <= '2' then Some(Field(10 + DigitValue(s[1]), 2))
    else if 2 <= |s| && s[0] == '0' && '1' <= s[1] <= '9' then Some(Field(DigitValue(s[1]), 2))
    else if 1 <= |s| && '1' <= s[0] <= '9' then Some(Field(DigitValue(s[0]), 1))
    else None
  }

  /** The `%d` directive at the start of `s`. */
  function DayField(s: string): (r: Option<Field>)
    ensures r.Some? ==> 1 <= r.value.width <= |s| && 1 <= r.value.value <= 31
  {
    if 2 <= |s| && s[0] == '3' && '0' <= s[1] <= '1' then Some(Field(30 + DigitValue(s[1]), 2))
    else if 2 <= |s| && '1' <= s[0] <= '2' && IsDigit(s[1]) then Some(Field(10 * DigitValue(s[0]) + DigitValue(s[1]), 2))
    else if 2 <= |s| && s[0] == '0' && '1' <= s[1] <= '9' then Some(Field(DigitValue(s[1]), 2))
    else if 1 <= |s| && '1' <= s[0] <= '9' then Some(Field(DigitValue(s[0]), 1))
    else if 2 <= |s| && s[0] == ' ' && '1' <= s[1] <= '9' then Some(Field(DigitValue(s[1]), 2))
    else None
  }

  /** `datetime.strptime(s, "%Y-%m-%d").date()`, or None where it raises ValueError. */
  function ParseIsoDate(s: string): (r: Option<Date>)
    ensures r.Some? ==> ValidDate(r.value)
  {
    if |s| < 5 || !(IsDigit(s[0]) && IsDigit(s[1]) && IsDigit(s[2]) && IsDigit(s[3])) || s[4] != '-' then None
    else
      match MonthField(s[5..])
      case None => None
      case Some(m) =>
        var rest := s[5 + m.width..];
        if |rest| == 0 || rest[0] != '-' then None
        else
          match DayField(rest[1..])
          case None => None
          case Some(d) =>
            var date := Date(FourDigitValue(s), m.value, d.value);
            if d.width == |rest| - 1 && ValidDate(date) then Some(date) else None
  }

  // ---------------------------------------------------------------------
  // The texts that spell a date: a four-digit year, then the month with or
  // without a leading zero, then the day with a leading zero, none, or a
  // leading space.
  // ---------------------------------------------------------------------

  function Year4(y: int): (s: string)
    requires 0 <= y <= 9999
    ensures |s| == 4
  {
    [DigitChar(y / 1000), DigitChar(y / 100 % 10), DigitChar(y / 10 % 10), DigitChar(y % 10)]
  }

  function Pad2(n: int): (s: string)
    requires 0 <= n <= 99
    ensures |s| == 2
  {
    [DigitChar(n / 10), DigitChar(n % 10)]
  }

  predicate MonthSpelling(ms: string, m: int) {
    || (1 <= m <= 12 && ms == Pad2(m))
    || (1 <= m <= 9 && ms == [DigitChar(m)])
  }

  predicate DaySpelling(ds: string, d: int) {
    || (1 <= d <= 31 && ds == Pad2(d))
    || (1 <= d <= 9 && ds == [DigitChar(d)])
    || (1 <= d <= 9 && ds == [' ', DigitChar(d)])
  }

  /** `s[5..5 + w]` spells the month of `d`, and what follows the next '-' its day. */
  predicate MonthSplit(s: string, d: Date, w: nat) {
    && 5 + w < |s|
    && s[5 + w] == '-'
    && MonthSpelling(s[5..5 + w], d.month)
    && DaySpelling(s[6 + w..], d.day)
  }

  /** `s` is one of the texts that spell the valid date `d`. */
  predicate SpelledAs(s: string, d: Date) {
    && ValidDate(d)
    && |s| >= 8
    && s[..4] == Year4(d.year)
    && s[4] == '-'
    && (MonthSplit(s, d, 1) || MonthSplit(s, d, 2))
  }

  /** The canonical spelling, zero-padded: `YYYY-MM-DD`. */
  function FormatIsoDate(d: Date): (s: string)
    requires ValidDate(d)
    ensures |s| == 10 && SpelledAs(s, d)
  {
    var s := Year4(d.year) + "-" + Pad2(d.month) + "-" + Pad2(d.day);
    assert s[..4] == Year4(d.year);
    assert s[5..7] == Pad2(d.month) && s[8..] == Pad2(d.day);
    s
  }

  lemma DivMod10(n: int, q: int, r: int)
    requires 0 <= r < 10 && n == 10 * q + r
    ensures n / 10 == q && n % 10 == r
  {
  }

  lemma DivMod100(n: int, q: int, r: int)
    requires 0 <= r < 100 && n == 100 * q + r
    ensures n / 100 == q && n % 100 == r
  {
  }

  lemma DivMod1000(n: int, q: int, r: int)
    requires 0 <= r < 1000 && n == 1000 * q + r
    ensures n / 1000 == q && n % 1000 == r
  {
  }

  lemma Year4Value(s: string)
    requires |s| >= 4 && IsDigit(s[0]) && IsDigit(s[1]) && IsDigit(s[2]) && IsDigit(s[3])
    ensures Year4(FourDigitValue(s)) == s[..4]
  {
    var a, b, c, e := DigitValue(s[0]), DigitValue(s[1]), DigitValue(s[2]), DigitValue(s[3]);
    var n := 1000 * a + 100 * b + 10 * c + e;
    DivMod1000(n, a, 100 * b + 10 * c + e);
    DivMod100(n, 10 * a + b, 10 * c + e);
    DivMod10(10 * a + b, a, b);
    DivMod10(n, 100 * a + 10 * b + c, e);
    DivMod10(100 * a + 10 * b + c, 10 * a + b, c);
    assert DigitChar(a) == s[0] && DigitChar(b) == s[1] && DigitChar(c) == s[2] && DigitChar(e) == s[3];
  }

  lemma Year4Digits(y: int)
    requires 0 <= y <= 9999
    ensures var s := Year4(y); IsDigit(s[0]) && IsDigit(s[1]) && IsDigit(s[2]) && IsDigit(s[3])
    ensures FourDigitValue(Year4(y)) == y
  {
    var a, b, c, e := y / 1000, y / 100 % 10, y / 10 % 10, y % 10;
    DivMod10(y, y / 10, e);
    DivMod10(y / 10, y / 100, c);
    DivMod10(y / 100, a, b);
  }

  lemma MonthFieldOfSpelling(t: string, m: int, w: nat)
    requires w < |t| && t[w] == '-' && MonthSpelling(t[..w], m)
    ensures MonthField(t) == Some(Field(m, w))
  {
  }

  lemma MonthFieldSpelled(t: string)
    requires MonthField(t).Some?
    ensures MonthSpelling(t[..MonthField(t).value.width], MonthField(t).value.value)
  {
  }

  lemma DayFieldOfSpelling(ds: string, d: int)
    requires DaySpelling(ds, d)
    ensures DayField(ds) == Some(Field(d, |ds|))
  {
  }

  lemma DayFieldSpelled(t: string)
    requires DayField(t).Some? && DayField(t).value.width == |t|
    ensures DaySpelling(t, DayField(t).value.value)
  {
  }

  /**
   * The parser accepts exactly the spellings of valid dates, and reads each
   * spelling as the date it spells.
   */
  lemma {:induction false} ParseIsoDateSpelling(s: string, d: Date)
    ensures ParseIsoDate(s) == Some(d) <==> SpelledAs(s, d)
  {
    if ParseIsoDate(s) == Some(d) {
      Year4Value(s);
      var m := MonthField(s[5..]).value;
      MonthFieldSpelled(s[5..]);
      assert s[5..][..m.width] == s[5..5 + m.width];
      var rest := s[5 + m.width..];
      DayFieldSpelled(rest[1..]);
      assert rest[1..] == s[6 + m.width..];
      assert MonthSplit(s, d, m.width);
    }
    if SpelledAs(s, d) {
      Year4Digits(d.year);
      assert s[..4] == Year4(d.year);
      assert IsDigit(s[0]) && IsDigit(s[1]) && IsDigit(s[2]) && IsDigit(s[3]);
      assert FourDigitValue(s) == FourDigitValue(Year4(d.year));
      var w: nat := if MonthSplit(s, d, 1) then 1 else 2;
      assert MonthSplit(s, d, w);
      assert s[5..][..w] == s[5..5 + w];
      MonthFieldOfSpelling(s[5..], d.month, w);
      var rest := s[5 + w..];
      assert rest[1..] == s[6 + w..];
      DayFieldOfSpelling(rest[1..], d.day);
    }
  }

  /** Formatting a valid date and parsing the text gives the date back. */
  lemma ParseFormatRoundTrip(d: Date)
    requires ValidDate(d)
    ensures ParseIsoDate(FormatIsoDate(d)) == Some(d)
  {
    ParseIsoDateSpelling(FormatIsoDate(d), d);
  }
}
