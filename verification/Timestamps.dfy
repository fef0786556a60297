/** UTC instants as text: section 5.6 of RFC 3339, with `Z` and up to six fractional digits. */
module Timestamps {
  import opened Common
  import opened RunContract

  // -- the calendar ----------------------------------------------------------

  const MICROSECONDS_PER_DAY: nat := 86_400_000_000
  const LAST_YEAR: nat := 9999

  predicate IsLeap(year: nat) {
    year % 4 == 0 && (year % 100 != 0 || year % 400 == 0)
  }

  function DaysBeforeYear(year: nat): nat
    requires year >= 1
  {
    var past := year - 1;
    past * 365 + past / 4 - past / 100 + past / 400
  }

  function DaysInMonth(year: nat, month: nat): nat {
    if month == 2 then (if IsLeap(year) then 29 else 28)
    else if month == 4 || month == 6 || month == 9 || month == 11 then 30
    else 31
  }

  function DaysBeforeMonth(year: nat, month: nat): nat
    requires month >= 1
  {
    if month == 1 then 0 else DaysBeforeMonth(year, month - 1) + DaysInMonth(year, month - 1)
  }

  datatype Date = Date(year: nat, month: nat, day: nat) {
    predicate Valid() {
      1 <= year <= LAST_YEAR && 1 <= month <= 12 && 1 <= day <= DaysInMonth(year, month)
    }
  }

  /** Days since the first day of year 1. */
  function DayNumber(d: Date): nat
    requires d.Valid()
  {
    DaysBeforeYear(d.year) + DaysBeforeMonth(d.year, d.month) + d.day - 1
  }

  function FindYear(days: nat, year: nat): (found: nat)
    requires 1 <= year <= LAST_YEAR && DaysBeforeYear(year) <= days < DaysBeforeYear(LAST_YEAR + 1)
    ensures year <= found <= LAST_YEAR
    ensures DaysBeforeYear(found) <= days < DaysBeforeYear(found + 1)
    decreases LAST_YEAR - year
  {
    if days < DaysBeforeYear(year + 1) then year else FindYear(days, year + 1)
  }

  function FindMonth(year: nat, dayOfYear: nat, month: nat): (found: nat)
    requires 1 <= month <= 12 && DaysBeforeMonth(year, month) <= dayOfYear < DaysBeforeMonth(year, 13)
    ensures month <= found <= 12
    ensures DaysBeforeMonth(year, found) <= dayOfYear < DaysBeforeMonth(year, found) + DaysInMonth(year, found)
    decreases 12 - month
  {
    if dayOfYear < DaysBeforeMonth(year, month + 1) then month else FindMonth(year, dayOfYear, month + 1)
  }

  lemma QuotientStep(past: nat, n: nat)
    requires n > 0
    ensures (past + 1) / n == past / n + if (past + 1) % n == 0 then 1 else 0
  {
    var q, r := past / n, past % n;
    assert past == q * n + r;
    if r == n - 1 {
      assert past + 1 == (q + 1) * n;
      QuotientIs(past + 1, n, q + 1, 0);
    } else {
      QuotientIs(past + 1, n, q, r + 1);
    }
  }

  lemma MultiplesAreFarApart(d: int, n: nat)
    requires d != 0
    ensures d * n >= n || d * n <= -1 * n
  {
    if d > 0 {
      assert (d - 1) * n >= 0;
    } else {
      assert (-d - 1) * n >= 0;
    }
  }

  lemma QuotientIs(a: nat, n: nat, q: nat, r: nat)
    requires n > 0 && r < n && a == q * n + r
    ensures a / n == q && a % n == r
  {
    var d := a / n - q;
    assert d * n == r - a % n;
    if d != 0 {
      MultiplesAreFarApart(d, n);
    }
  }

  lemma LeapYearsNest(year: nat)
    ensures year % 400 == 0 ==> year % 100 == 0
    ensures year % 100 == 0 ==> year % 4 == 0
  {
    if year % 400 == 0 {
      QuotientIs(year, 100, 4 * (year / 400), 0);
    }
    if year % 100 == 0 {
      QuotientIs(year, 4, 25 * (year / 100), 0);
    }
  }

  lemma LeapYearsAreCounted(year: nat)
    requires year >= 1
    ensures DaysBeforeYear(year + 1) == DaysBeforeYear(year) + if IsLeap(year) then 366 else 365
  {
    var past := year - 1;
    LeapYearsNest(year);
    QuotientStep(past, 4);
    QuotientStep(past, 100);
    QuotientStep(past, 400);
    var fours, hundreds, fourHundreds := past / 4, past / 100, past / 400;
    assert DaysBeforeYear(year) == past * 365 + fours - hundreds + fourHundreds;
    assert DaysBeforeYear(year + 1) == year * 365 + year / 4 - year / 100 + year / 400;
  }

  lemma MonthsUpTo(year: nat)
    ensures DaysBeforeMonth(year, 7) == 181 + if IsLeap(year) then 1 else 0
    ensures DaysBeforeMonth(year, 13) == DaysBeforeMonth(year, 7) + 184
  {
    hide IsLeap;
    assert DaysBeforeMonth(year, 2) == 31;
    assert DaysBeforeMonth(year, 3) == 31 + DaysInMonth(year, 2);
    assert DaysBeforeMonth(year, 4) == DaysBeforeMonth(year, 3) + 31;
    assert DaysBeforeMonth(year, 5) == DaysBeforeMonth(year, 4) + 30;
    assert DaysBeforeMonth(year, 6) == DaysBeforeMonth(year, 5) + 31;
    assert DaysBeforeMonth(year, 7) == DaysBeforeMonth(year, 6) + 30;
    assert DaysBeforeMonth(year, 8) == DaysBeforeMonth(year, 7) + 31;
    assert DaysBeforeMonth(year, 9) == DaysBeforeMonth(year, 8) + 31;
    assert DaysBeforeMonth(year, 10) == DaysBeforeMonth(year, 9) + 30;
    assert DaysBeforeMonth(year, 11) == DaysBeforeMonth(year, 10) + 31;
    assert DaysBeforeMonth(year, 12) == DaysBeforeMonth(year, 11) + 30;
    assert DaysBeforeMonth(year, 13) == DaysBeforeMonth(year, 12) + 31;
  }

  lemma MonthsFillTheYear(year: nat)
    requires year >= 1
    ensures DaysBeforeMonth(year, 13) == DaysBeforeYear(year + 1) - DaysBeforeYear(year)
  {
    hide DaysBeforeYear, DaysBeforeMonth, IsLeap;
    LeapYearsAreCounted(year);
    MonthsUpTo(year);
  }

  function DateOf(days: nat): (date: Date)
    requires days < DaysBeforeYear(LAST_YEAR + 1)
    ensures date.Valid() && DayNumber(date) == days
  {
    var year := FindYear(days, 1);
    var dayOfYear := days - DaysBeforeYear(year);
    MonthsFillTheYear(year);
    var month := FindMonth(year, dayOfYear, 1);
    Date(year, month, dayOfYear - DaysBeforeMonth(year, month) + 1)
  }

  // -- digits ----------------------------------------------------------------

  function Pow10(width: nat): nat {
    if width == 0 then 1 else 10 * Pow10(width - 1)
  }

  predicate IsDigit(c: char) {
    '0' <= c <= '9'
  }

  function DigitChar(d: nat): (c: char)
    requires d < 10
    ensures IsDigit(c) && c as int - '0' as int == d
  {
    ('0' as int + d) as char
  }

  function Digits(n: nat, width: nat): (text: string)
    ensures |text| == width
  {
    if width == 0 then "" else Digits(n / 10, width - 1) + [DigitChar(n % 10)]
  }

  predicate AllDigits(text: string) {
    forall c :: c in text ==> IsDigit(c)
  }

  function ValueOf(text: string): nat
    requires AllDigits(text)
  {
    if text == "" then 0
    else
      assert text[|text| - 1] in text;
      ValueOf(text[..|text| - 1]) * 10 + (text[|text| - 1] as int - '0' as int)
  }

  lemma {:induction false} DigitsSayTheNumber(n: nat, width: nat)
    requires n < Pow10(width)
    ensures AllDigits(Digits(n, width)) && ValueOf(Digits(n, width)) == n
  {
    if width > 0 {
      DigitsSayTheNumber(n / 10, width - 1);
      var text := Digits(n, width);
      assert text[..|text| - 1] == Digits(n / 10, width - 1);
      assert text[|text| - 1] == DigitChar(n % 10);
    }
  }

  function TakeDigits(text: string, width: nat): Option<(nat, string)> {
    if |text| < width || !AllDigits(text[..width]) then None else Some((ValueOf(text[..width]), text[width..]))
  }

  function TakeChar(text: string, c: char): Option<string> {
    if text == "" || text[0] != c then None else Some(text[1..])
  }

  lemma TakeWrittenDigits(n: nat, width: nat, rest: string)
    requires n < Pow10(width)
    ensures TakeDigits(Digits(n, width) + rest, width) == Some((n, rest))
  {
    DigitsSayTheNumber(n, width);
    var text := Digits(n, width) + rest;
    assert text[..width] == Digits(n, width) && text[width..] == rest;
  }

  lemma TakeWrittenChar(c: char, rest: string)
    ensures TakeChar([c] + rest, c) == Some(rest)
  {
  }

  // -- the text --------------------------------------------------------------

  datatype Clock = Clock(hour: nat, minute: nat, second: nat, microsecond: nat) {
    predicate Valid() {
      hour < 24 && minute < 60 && second < 60 && microsecond < 1_000_000
    }

    function InMicroseconds(): nat {
      ((hour * 60 + minute) * 60 + second) * 1_000_000 + microsecond
    }
  }

  function ClockOf(microseconds: nat): (time: Clock)
    requires microseconds < MICROSECONDS_PER_DAY
    ensures time.Valid() && time.InMicroseconds() == microseconds
  {
    var seconds := microseconds / 1_000_000;
    var minutes := seconds / 60;
    Clock(minutes / 60, minutes % 60, seconds % 60, microseconds % 1_000_000)
  }

  /** The fraction is left out when it is zero. */
  function FormatFraction(microsecond: nat): string {
    if microsecond == 0 then "Z" else "." + (Digits(microsecond, 6) + "Z")
  }

  function FormatClock(time: Clock): string {
    Digits(time.hour, 2) + (":" + (Digits(time.minute, 2) + (":" + (Digits(time.second, 2)
    + FormatFraction(time.microsecond)))))
  }

  function FormatDate(date: Date, rest: string): string {
    Digits(date.year, 4) + ("-" + (Digits(date.month, 2) + ("-" + (Digits(date.day, 2) + rest))))
  }

  lemma InstantsAreInRange(t: Instant)
    ensures t / MICROSECONDS_PER_DAY < DaysBeforeYear(LAST_YEAR + 1)
  {
    assert DaysBeforeYear(LAST_YEAR + 1) == 3_652_059;
  }

  function FormatInstant(t: Instant): string {
    InstantsAreInRange(t);
    FormatDate(DateOf(t / MICROSECONDS_PER_DAY), "T" + FormatClock(ClockOf(t % MICROSECONDS_PER_DAY)))
  }

  function ParseFraction(text: string): Option<nat> {
    if text == "Z" then Some(0)
    else
      var digits :- TakeChar(text, '.');
      var (microsecond, rest) :- TakeDigits(digits, 6);
      if rest == "Z" then Some(microsecond) else None
  }

  function ParseClock(text: string): Option<Clock> {
    var (hour, afterHour) :- TakeDigits(text, 2);
    var minutes :- TakeChar(afterHour, ':');
    var (minute, afterMinute) :- TakeDigits(minutes, 2);
    var seconds :- TakeChar(afterMinute, ':');
    var (second, fraction) :- TakeDigits(seconds, 2);
    var microsecond :- ParseFraction(fraction);
    Some(Clock(hour, minute, second, microsecond))
  }

  function ParseDate(text: string): Option<(Date, string)> {
    var (year, afterYear) :- TakeDigits(text, 4);
    var months :- TakeChar(afterYear, '-');
    var (month, afterMonth) :- TakeDigits(months, 2);
    var days :- TakeChar(afterMonth, '-');
    var (day, rest) :- TakeDigits(days, 2);
    Some((Date(year, month, day), rest))
  }

  function ParseInstant(text: string): Option<Instant> {
    var (date, afterDate) :- ParseDate(text);
    var clockText :- TakeChar(afterDate, 'T');
    var time :- ParseClock(clockText);
    if !date.Valid() || !time.Valid() then None
    else
      var t := DayNumber(date) * MICROSECONDS_PER_DAY + time.InMicroseconds();
      if t < END_OF_TIME then Some(t) else None
  }

  lemma FractionsRoundTrip(microsecond: nat)
    requires microsecond < 1_000_000
    ensures ParseFraction(FormatFraction(microsecond)) == Some(microsecond)
  {
    if microsecond > 0 {
      assert Pow10(6) == 1_000_000;
      TakeWrittenDigits(microsecond, 6, "Z");
      TakeWrittenChar('.', Digits(microsecond, 6) + "Z");
    }
  }

  lemma ClocksRoundTrip(time: Clock)
    requires time.Valid()
    ensures ParseClock(FormatClock(time)) == Some(time)
  {
    hide FormatFraction, ParseFraction, TakeDigits, TakeChar, Digits;
    assert Pow10(2) == 100;
    var fraction := FormatFraction(time.microsecond);
    var seconds := Digits(time.second, 2) + fraction;
    var minutes := Digits(time.minute, 2) + (":" + seconds);
    TakeWrittenDigits(time.hour, 2, ":" + minutes);
    TakeWrittenChar(':', minutes);
    TakeWrittenDigits(time.minute, 2, ":" + seconds);
    TakeWrittenChar(':', seconds);
    TakeWrittenDigits(time.second, 2, fraction);
    FractionsRoundTrip(time.microsecond);
  }

  lemma DatesRoundTrip(date: Date, rest: string)
    requires date.Valid()
    ensures ParseDate(FormatDate(date, rest)) == Some((date, rest))
  {
    hide TakeDigits, TakeChar, Digits;
    assert Pow10(2) == 100 && Pow10(4) == 10000;
    hide Pow10;
    var days := Digits(date.day, 2) + rest;
    var months := Digits(date.month, 2) + ("-" + days);
    TakeWrittenDigits(date.year, 4, "-" + months);
    TakeWrittenChar('-', months);
    TakeWrittenDigits(date.month, 2, "-" + days);
    TakeWrittenChar('-', days);
    TakeWrittenDigits(date.day, 2, rest);
  }

  lemma WrittenPartsAreRead(date: Date, time: Clock)
    requires date.Valid() && time.Valid()
    ensures var t := DayNumber(date) * MICROSECONDS_PER_DAY + time.InMicroseconds();
      ParseInstant(FormatDate(date, "T" + FormatClock(time))) == if t < END_OF_TIME then Some(t) else None
  {
    hide FormatDate, FormatClock, ParseDate, ParseClock, TakeChar, DayNumber, Clock.InMicroseconds, Date.Valid,
      Clock.Valid;
    DatesRoundTrip(date, "T" + FormatClock(time));
    TakeWrittenChar('T', FormatClock(time));
    assert ['T'] + FormatClock(time) == "T" + FormatClock(time);
    ClocksRoundTrip(time);
  }

  lemma PartsMakeTheInstant(t: Instant)
    ensures t / MICROSECONDS_PER_DAY < DaysBeforeYear(LAST_YEAR + 1)
    ensures DayNumber(DateOf(t / MICROSECONDS_PER_DAY)) * MICROSECONDS_PER_DAY
      + ClockOf(t % MICROSECONDS_PER_DAY).InMicroseconds() == t
  {
    hide DateOf, ClockOf, DayNumber, DaysBeforeYear;
    InstantsAreInRange(t);
  }

  /** A written instant is read back as itself, to the microsecond. */
  lemma InstantsRoundTrip(t: Instant)
    ensures ParseInstant(FormatInstant(t)) == Some(t)
  {
    hide FormatDate, FormatClock, ParseInstant, DateOf, ClockOf, DayNumber;
    PartsMakeTheInstant(t);
    WrittenPartsAreRead(DateOf(t / MICROSECONDS_PER_DAY), ClockOf(t % MICROSECONDS_PER_DAY));
  }

  // -- the calendar and the text, day by day and character by character ------

  /** The lengths of the twelve months. */
  function MonthLengths(year: nat): (lengths: seq<nat>)
    ensures |lengths| == 12
  {
    var february := if year % 400 == 0 || (year % 4 == 0 && year % 100 != 0) then 29 else 28;
    [31, february, 31, 30, 31, 30, 31, 31, 30, 31, 30, 31]
  }

  /** A date exists when its month does and has that day. */
  lemma ValidDatesAre(d: Date)
    ensures d.Valid() <==>
      1 <= d.year <= 9999 && 1 <= d.month <= 12 && 1 <= d.day <= MonthLengths(d.year)[d.month - 1]
  {
    if d.year % 400 == 0 {
      LeapYearsNest(d.year);
    }
  }

  function Tomorrow(d: Date): Date
    requires 1 <= d.month <= 12
  {
    if d.day < MonthLengths(d.year)[d.month - 1] then Date(d.year, d.month, d.day + 1)
    else if d.month < 12 then Date(d.year, d.month + 1, 1)
    else Date(d.year + 1, 1, 1)
  }

  /** The calendar starts on the first day of year 1, counts one for each day, and ends with year 9999. */
  lemma DaysAreCounted(d: Date)
    requires d.Valid()
    ensures DayNumber(Date(1, 1, 1)) == 0
    ensures d == Date(9999, 12, 31) <==> !Tomorrow(d).Valid()
    ensures Tomorrow(d).Valid() ==> DayNumber(Tomorrow(d)) == DayNumber(d) + 1
  {
    ValidDatesAre(d);
    ValidDatesAre(Tomorrow(d));
    assert DaysInMonth(d.year, d.month) == MonthLengths(d.year)[d.month - 1] by {
      if d.year % 400 == 0 {
        LeapYearsNest(d.year);
      }
    }
    if d.day == MonthLengths(d.year)[d.month - 1] && d.month == 12 {
      hide DaysBeforeYear;
      MonthsFillTheYear(d.year);
      MonthsUpTo(d.year);
      assert DaysBeforeMonth(d.year, 13) == DaysBeforeMonth(d.year, 12) + 31;
    }
  }

  function Numeral(n: nat): char
    requires n < 10
  {
    "0123456789"[n]
  }

  function Two(n: nat): string
    requires n < 100
  {
    [Numeral(n / 10), Numeral(n % 10)]
  }

  lemma TwoDigitsAre(n: nat)
    requires n < 100
    ensures Digits(n, 2) == Two(n)
  {
    assert Digits(n / 10 / 10, 0) == "";
    assert Digits(n / 10, 1) == [DigitChar(n / 10 % 10)];
    NumeralsAreDigits(n / 10);
    NumeralsAreDigits(n % 10);
  }

  lemma NumeralsAreDigits(n: nat)
    requires n < 10
    ensures DigitChar(n) == Numeral(n)
  {
  }

  lemma DigitsByTwo(n: nat, width: nat)
    ensures Digits(n, width + 2) == Digits(n / 100, width) + Digits(n % 100, 2)
  {
    assert n / 10 / 10 == n / 100 && n % 100 / 10 == n / 10 % 10 && n % 100 % 10 == n % 10;
    assert Digits(n, width + 2) == Digits(n / 10, width + 1) + [DigitChar(n % 10)];
    assert Digits(n / 10, width + 1) == Digits(n / 10 / 10, width) + [DigitChar(n / 10 % 10)];
    assert Digits(n % 100, 2) == Digits(n % 100 / 10, 1) + [DigitChar(n % 100 % 10)];
    assert Digits(n % 100 / 10, 1) == Digits(n % 100 / 10 / 10, 0) + [DigitChar(n % 100 / 10 % 10)];
  }

  lemma LongNumbersAreDigits(n: nat)
    requires n < 1_000_000
    ensures Digits(n, 6) == Two(n / 10_000) + Two(n / 100 % 100) + Two(n % 100)
    ensures n < 10_000 ==> Digits(n, 4) == Two(n / 100) + Two(n % 100)
  {
    DigitsByTwo(n, 4);
    DigitsByTwo(n / 100, 2);
    DigitsByTwo(n, 2);
    assert n / 100 / 100 == n / 10_000;
    TwoDigitsAre(n / 10_000);
    TwoDigitsAre(n / 100 % 100);
    TwoDigitsAre(n % 100);
    if n < 10_000 {
      TwoDigitsAre(n / 100);
    }
  }

  function DateText(date: Date): string
    requires date.Valid()
  {
    Two(date.year / 100) + Two(date.year % 100) + "-" + Two(date.month) + "-" + Two(date.day)
  }

  function ClockText(time: Clock): string
    requires time.Valid()
  {
    Two(time.hour) + ":" + Two(time.minute) + ":" + Two(time.second)
  }

  /** Six digits for the microseconds, unless there are none. */
  function FractionText(microsecond: nat): string
    requires microsecond < 1_000_000
  {
    if microsecond == 0 then "Z"
    else "." + Two(microsecond / 10_000) + Two(microsecond / 100 % 100) + Two(microsecond % 100) + "Z"
  }

  lemma WrittenDatesAre(date: Date, rest: string)
    requires date.Valid()
    ensures FormatDate(date, rest) == DateText(date) + rest
  {
    hide Digits, Two, IsLeap;
    LongNumbersAreDigits(date.year);
    TwoDigitsAre(date.month);
    TwoDigitsAre(date.day);
  }

  lemma WrittenClocksAre(time: Clock)
    requires time.Valid()
    ensures FormatClock(time) == ClockText(time) + FractionText(time.microsecond)
  {
    hide Digits, Two;
    TwoDigitsAre(time.hour);
    TwoDigitsAre(time.minute);
    TwoDigitsAre(time.second);
    LongNumbersAreDigits(time.microsecond);
  }

  /** A written instant, digit by digit. */
  lemma WrittenInstantsAre(t: Instant, date: Date, time: Clock)
    requires date.Valid() && time.Valid()
    requires t == DayNumber(date) * MICROSECONDS_PER_DAY
      + ((time.hour * 60 + time.minute) * 60 + time.second) * 1_000_000 + time.microsecond
    ensures FormatInstant(t) == DateText(date) + "T" + ClockText(time) + FractionText(time.microsecond)
  {
    hide DayNumber, DateOf, ClockOf, FormatDate, FormatClock, DateText, ClockText, FractionText;
    DayAndTimeAre(t, date, time);
    WrittenDatesAre(date, "T" + FormatClock(time));
    WrittenClocksAre(time);
  }

  lemma {:induction false} YearsAreInOrder(a: nat, b: nat)
    requires 1 <= a <= b
    ensures DaysBeforeYear(a) <= DaysBeforeYear(b)
    decreases b
  {
    if a < b {
      YearsAreInOrder(a, b - 1);
      LeapYearsAreCounted(b - 1);
    }
  }

  lemma {:induction false} MonthsAreInOrder(year: nat, a: nat, b: nat)
    requires 1 <= a <= b
    ensures DaysBeforeMonth(year, a) <= DaysBeforeMonth(year, b)
    decreases b
  {
    if a < b {
      MonthsAreInOrder(year, a, b - 1);
    }
  }

  lemma EarlierDatesCountLess(a: Date, b: Date)
    requires a.Valid() && b.Valid()
    requires a.year < b.year || (a.year == b.year && (a.month < b.month || (a.month == b.month && a.day < b.day)))
    ensures DayNumber(a) < DayNumber(b)
  {
    hide DaysBeforeYear, IsLeap;
    if a.year < b.year {
      MonthsFillTheYear(a.year);
      MonthsAreInOrder(a.year, a.month + 1, 13);
      YearsAreInOrder(a.year + 1, b.year);
    } else if a.month < b.month {
      MonthsAreInOrder(a.year, a.month + 1, b.month);
    }
  }

  /** No two dates have the same number. */
  lemma NumbersTellDatesApart(a: Date, b: Date)
    requires a.Valid() && b.Valid() && DayNumber(a) == DayNumber(b)
    ensures a == b
  {
    hide DayNumber, Date.Valid;
    if a.year < b.year || (a.year == b.year && (a.month < b.month || (a.month == b.month && a.day < b.day))) {
      EarlierDatesCountLess(a, b);
    } else if a != b {
      EarlierDatesCountLess(b, a);
    }
  }

  /** The day and the time of day that make an instant are the ones that are written. */
  lemma DayAndTimeAre(t: Instant, date: Date, time: Clock)
    requires date.Valid() && time.Valid()
    requires t == DayNumber(date) * MICROSECONDS_PER_DAY + time.InMicroseconds()
    ensures t / MICROSECONDS_PER_DAY < DaysBeforeYear(LAST_YEAR + 1)
    ensures DateOf(t / MICROSECONDS_PER_DAY) == date && ClockOf(t % MICROSECONDS_PER_DAY) == time
  {
    hide DayNumber, DateOf;
    InstantsAreInRange(t);
    QuotientIs(t, MICROSECONDS_PER_DAY, DayNumber(date), time.InMicroseconds());
    NumbersTellDatesApart(date, DateOf(t / MICROSECONDS_PER_DAY));
  }
}
