/**
 UTC date and time from seconds since 1970, by division alone. For every day number the
 result is the calendar date that many days after 1 January 1970.
 */
module Calendar {
  datatype Date = Date(year: int, month: int, day: int)

  // ----- The calendar -----

  predicate IsLeap(y: int) {
    y % 4 == 0 && (y % 100 != 0 || y % 400 == 0)
  }

  function DaysInMonth(y: int, m: int): int {
    if m == 2 then if IsLeap(y) then 29 else 28
    else if m == 4 || m == 6 || m == 9 || m == 11 then 30
    else 31
  }

  predicate IsDate(t: Date) {
    1 <= t.month <= 12 && 1 <= t.day <= DaysInMonth(t.year, t.month)
  }

  function NextDay(t: Date): Date {
    if t.day < DaysInMonth(t.year, t.month) then t.(day := t.day + 1)
    else if t.month < 12 then Date(t.year, t.month + 1, 1)
    else Date(t.year + 1, 1, 1)
  }

  /** The date `n` days after 1 January 1970, one day at a time. */
  function DateAfter(n: nat): Date {
    if n == 0 then Date(1970, 1, 1) else NextDay(DateAfter(n - 1))
  }

  // ----- The computation -----

  /** Days from 1 March of year 0 to 1 January 1970. */
  const EPOCH_SHIFT := 719468
  const DAYS_PER_ERA := 146097

  function YearOfEra(doe: int): int {
    (doe - doe / 1460 + doe / 36524 - doe / 146096) / 365
  }

  /** Days of the era before its year `yoe`, which begins on 1 March. */
  function YearStart(yoe: int): int {
    365 * yoe + yoe / 4 - yoe / 100
  }

  function MonthIndex(doy: int): int {
    (5 * doy + 2) / 153
  }

  /** The date on day `doy` of the year that begins on 1 March of year `y`. */
  function FromMarch(y: int, doy: int): Date {
    var mp := MonthIndex(doy);
    var d := doy - (153 * mp + 2) / 5 + 1;
    var m := if mp < 10 then mp + 3 else mp - 9;
    Date(if m <= 2 then y + 1 else y, m, d)
  }

  /** The civil date of a day number, counted from 1 January 1970. */
  function Civil(days: nat): Date {
    var z := days + EPOCH_SHIFT;
    var era := z / DAYS_PER_ERA;
    var doe := z - era * DAYS_PER_ERA;
    var yoe := YearOfEra(doe);
    FromMarch(yoe + era * 400, doe - YearStart(yoe))
  }

  // ----- The year of an era -----

  /** Day `e` of year `100 * c + 4 * q + k` of the era. */
  predicate InEra(c: int, q: int, k: int, e: int) {
    && 0 <= c < 4 && 0 <= q < 25 && 0 <= k < 4
    && 0 <= e < (if k == 3 && (q < 24 || c == 3) then 366 else 365)
  }

  function EraStart(era: int): int {
    era * DAYS_PER_ERA
  }

  function DayOfEra(c: int, q: int, k: int, e: int): int {
    36524 * c + 1461 * q + 365 * k + e
  }

  lemma Quotients(c: int, q: int, k: int, e: int)
    requires InEra(c, q, k, e)
    ensures
      var doe := DayOfEra(c, q, k, e);
      && 0 <= doe < DAYS_PER_ERA
      && doe / 36524 - doe / 146096 == c
      && doe / 1460 == 25 * c + q + if k == 3 && 24 * c + q + e >= 365 then 1 else 0
  {
    var doe := DayOfEra(c, q, k, e);
    var rest := 24 * c + q + 365 * k + e;
    assert doe == 1460 * (25 * c + q) + rest && 0 <= rest < 2920;
  }

  /** The dense formula finds the year. */
  lemma YearIsFound(c: int, q: int, k: int, e: int)
    requires InEra(c, q, k, e)
    ensures YearOfEra(DayOfEra(c, q, k, e)) == 100 * c + 4 * q + k
    ensures DayOfEra(c, q, k, e) - YearStart(100 * c + 4 * q + k) == e
  {
    Quotients(c, q, k, e);
    var doe := DayOfEra(c, q, k, e);
    var late := if k == 3 && 24 * c + q + e >= 365 then 1 else 0;
    WholeYears(doe - doe / 1460 + doe / 36524 - doe / 146096, 100 * c + 4 * q + k, e - late);
    YearStartIs(c, q, k);
  }

  lemma WholeYears(n: int, years: int, rest: int)
    requires 0 <= rest < 365 && n == 365 * years + rest
    ensures n / 365 == years
  {
  }

  lemma YearStartIs(c: int, q: int, k: int)
    requires 0 <= c < 4 && 0 <= q < 25 && 0 <= k < 4
    ensures YearStart(100 * c + 4 * q + k) == DayOfEra(c, q, k, 0)
  {
    assert (100 * c + 4 * q + k) / 4 == 25 * c + q;
    assert (100 * c + 4 * q + k) / 100 == c;
  }

  /** Every day of the era is in one of its years. */
  lemma Locate(doe: int) returns (c: int, q: int, k: int, e: int)
    requires 0 <= doe < DAYS_PER_ERA
    ensures InEra(c, q, k, e) && DayOfEra(c, q, k, e) == doe
  {
    c := if doe == 146096 then 3 else doe / 36524;
    var inCentury := doe - 36524 * c;
    q := if inCentury == 36524 then 24 else inCentury / 1461;
    var inCycle := inCentury - 1461 * q;
    k := if inCycle == 1460 then 3 else inCycle / 365;
    e := inCycle - 365 * k;
  }

  // ----- Days and successors -----

  /** The date on day `e` of a year of an era. */
  function DateIn(era: int, c: int, q: int, k: int, e: int): Date {
    FromMarch(YearIn(era, c, q, k), e)
  }

  function YearIn(era: int, c: int, q: int, k: int): int {
    100 * c + 4 * q + k + era * 400
  }

  lemma CivilIs(days: nat, era: int, c: int, q: int, k: int, e: int)
    requires InEra(c, q, k, e) && days + EPOCH_SHIFT == EraStart(era) + DayOfEra(c, q, k, e)
    ensures Civil(days) == DateIn(era, c, q, k, e)
  {
    hide YearOfEra;
    hide YearStart;
    hide FromMarch;
    Quotients(c, q, k, e);
    YearIsFound(c, q, k, e);
    EraIs(days + EPOCH_SHIFT, era, DayOfEra(c, q, k, e));
  }

  /** The months from March on, with the day of the year they begin on. */
  lemma MonthIsFound(doy: int)
    requires 0 <= doy < 366
    ensures
      var mp := MonthIndex(doy);
      var first := (153 * mp + 2) / 5;
      var next := (153 * (mp + 1) + 2) / 5;
      && 0 <= mp < 12 && first <= doy < next
      && (mp != 11 ==> next - first == DaysInMonth(0, if mp < 10 then mp + 3 else mp - 9))
      && (mp == 11 ==> first == 337)
  {
  }

  /** Leap years end on day 365 of the year that begins on the March before. */
  predicate LastDay(y: int, doy: int) {
    doy == if IsLeap(y + 1) then 365 else 364
  }

  lemma FromMarchIsDate(y: int, doy: int)
    requires 0 <= doy <= if IsLeap(y + 1) then 365 else 364
    ensures IsDate(FromMarch(y, doy))
  {
    MonthIsFound(doy);
  }

  lemma FromMarchNext(y: int, doy: int)
    requires 0 <= doy < if IsLeap(y + 1) then 365 else 364
    ensures FromMarch(y, doy + 1) == NextDay(FromMarch(y, doy))
  {
    MonthIsFound(doy);
    MonthIsFound(doy + 1);
  }

  lemma FromMarchNextYear(y: int, doy: int)
    requires LastDay(y, doy)
    ensures FromMarch(y + 1, 0) == NextDay(FromMarch(y, doy))
  {
  }

  /** Leap years of the calendar are the long years of the era. */
  lemma LongYears(era: int, c: int, q: int, k: int)
    requires 0 <= c < 4 && 0 <= q < 25 && 0 <= k < 4
    ensures IsLeap(YearIn(era, c, q, k) + 1) <==> k == 3 && (q < 24 || c == 3)
  {
    var y := 100 * c + 4 * q + k + era * 400 + 1;
    if k < 3 {
      Mod4(y, 25 * c + q + 100 * era, k + 1);
    } else {
      Mod4(y, 25 * c + q + 100 * era + 1, 0);
      if q < 24 {
        Mod100(y, c + 4 * era, 4 * (q + 1));
      } else if c < 3 {
        Mod400(y, era, 100 * (c + 1));
        Mod100(y, c + 4 * era + 1, 0);
      } else {
        Mod400(y, era + 1, 0);
      }
    }
  }

  lemma Mod4(n: int, quotient: int, r: int)
    requires 0 <= r < 4 && n == quotient * 4 + r
    ensures n % 4 == r
  {
  }

  lemma Mod100(n: int, quotient: int, r: int)
    requires 0 <= r < 100 && n == quotient * 100 + r
    ensures n % 100 == r
  {
  }

  lemma Mod400(n: int, quotient: int, r: int)
    requires 0 <= r < 400 && n == quotient * 400 + r
    ensures n % 400 == r
  {
  }

  lemma EraIs(n: int, era: int, doe: int)
    requires 0 <= doe < DAYS_PER_ERA && n == EraStart(era) + doe
    ensures n / DAYS_PER_ERA == era
  {
  }

  // ----- The theorem -----

  /** How many days a year of the era has. */
  function YearLength(c: int, q: int, k: int): int {
    if k == 3 && (q < 24 || c == 3) then 366 else 365
  }

  /** Where the year after a year of the era is, in all four ways it can carry. */
  function After(era: int, c: int, q: int, k: int): (int, int, int, int) {
    if k < 3 then (era, c, q, k + 1)
    else if q < 24 then (era, c, q + 1, 0)
    else if c < 3 then (era, c + 1, 0, 0)
    else (era + 1, 0, 0, 0)
  }

  lemma AfterInEra(era: int, c: int, q: int, k: int)
    requires InEra(c, q, k, 0)
    ensures
      var next := After(era, c, q, k);
      InEra(next.1, next.2, next.3, 0) && YearIn(next.0, next.1, next.2, next.3) == YearIn(era, c, q, k) + 1
  {
  }

  lemma AfterStarts(era: int, c: int, q: int, k: int)
    requires InEra(c, q, k, 0)
    ensures
      var next := After(era, c, q, k);
      EraStart(next.0) + DayOfEra(next.1, next.2, next.3, 0) == EraStart(era) + DayOfEra(c, q, k, YearLength(c, q, k))
  {
    NextEra(era);
  }

  lemma NextEra(era: int)
    ensures EraStart(era + 1) == EraStart(era) + DAYS_PER_ERA
  {
  }

  lemma LastDayOfYear(era: int, c: int, q: int, k: int, e: int)
    requires InEra(c, q, k, e)
    ensures
      var y := YearIn(era, c, q, k);
      && 0 <= e <= (if IsLeap(y + 1) then 365 else 364)
      && (InEra(c, q, k, e + 1) <==> !LastDay(y, e))
      && (LastDay(y, e) ==> e + 1 == YearLength(c, q, k))
      && InEra(c, q, k, 0)
  {
    LongYears(era, c, q, k);
  }

  /** The day after a day of the era. */
  lemma Carry(days: nat, era: int, c: int, q: int, k: int, e: int)
    requires InEra(c, q, k, e) && days + EPOCH_SHIFT == EraStart(era) + DayOfEra(c, q, k, e)
    ensures IsDate(DateIn(era, c, q, k, e)) && Civil(days + 1) == NextDay(DateIn(era, c, q, k, e))
  {
    hide Civil;
    hide FromMarch;
    hide IsLeap;
    hide NextDay;
    hide IsDate;
    hide YearIn;
    hide InEra;
    hide After;
    hide YearLength;
    var y := YearIn(era, c, q, k);
    LastDayOfYear(era, c, q, k, e);
    FromMarchIsDate(y, e);
    if InEra(c, q, k, e + 1) {
      CivilIs(days + 1, era, c, q, k, e + 1);
      FromMarchNext(y, e);
    } else {
      var next := After(era, c, q, k);
      AfterInEra(era, c, q, k);
      AfterStarts(era, c, q, k);
      CivilIs(days + 1, next.0, next.1, next.2, next.3, 0);
      FromMarchNextYear(y, e);
    }
  }

  /** Consecutive days have consecutive dates, across months, leap years and centuries. */
  lemma CivilNext(days: nat)
    ensures IsDate(Civil(days)) && Civil(days + 1) == NextDay(Civil(days))
  {
    hide Civil;
    hide FromMarch;
    hide NextDay;
    hide IsDate;
    var z := days + EPOCH_SHIFT;
    var era := z / DAYS_PER_ERA;
    var c, q, k, e := Locate(z - era * DAYS_PER_ERA);
    CivilIs(days, era, c, q, k, e);
    Carry(days, era, c, q, k, e);
  }

  /** The computed date is the one that many days after 1 January 1970. */
  lemma {:induction false} CivilIsDateAfter(days: nat)
    ensures Civil(days) == DateAfter(days) && IsDate(Civil(days))
  {
    hide Civil;
    hide NextDay;
    if days == 0 {
      assert Civil(0) == Date(1970, 1, 1) by { EpochIsCivil(); }
    } else {
      CivilIsDateAfter(days - 1);
      CivilNext(days - 1);
    }
    CivilNext(days);
  }

  lemma EpochIsCivil()
    ensures Civil(0) == Date(1970, 1, 1)
  {
  }

  // ----- Counting days -----

  function DaysBeforeYear(y: int): int
    requires y >= 1970
    decreases y
  {
    if y == 1970 then 0 else DaysBeforeYear(y - 1) + if IsLeap(y - 1) then 366 else 365
  }

  function DaysBeforeMonth(y: int, m: int): int
    requires 1 <= m <= 13
    decreases m
  {
    if m == 1 then 0 else DaysBeforeMonth(y, m - 1) + DaysInMonth(y, m - 1)
  }

  /** Days from 1 January 1970 to a date, counting whole years, whole months and days. */
  function DayCount(t: Date): int
    requires IsDate(t) && t.year >= 1970
  {
    DaysBeforeYear(t.year) + DaysBeforeMonth(t.year, t.month) + t.day - 1
  }

  lemma DaysInYear(y: int)
    ensures DaysBeforeMonth(y, 13) == if IsLeap(y) then 366 else 365
  {
    hide IsLeap;
    assert DaysBeforeMonth(y, 3) == 59 + if IsLeap(y) then 1 else 0;
    assert DaysBeforeMonth(y, 5) == DaysBeforeMonth(y, 3) + 61;
    assert DaysBeforeMonth(y, 7) == DaysBeforeMonth(y, 5) + 61;
    assert DaysBeforeMonth(y, 9) == DaysBeforeMonth(y, 7) + 62;
    assert DaysBeforeMonth(y, 11) == DaysBeforeMonth(y, 9) + 61;
    assert DaysBeforeMonth(y, 13) == DaysBeforeMonth(y, 11) + 61;
  }

  lemma DayCountNext(t: Date)
    requires IsDate(t) && t.year >= 1970
    ensures IsDate(NextDay(t)) && DayCount(NextDay(t)) == DayCount(t) + 1
  {
    hide IsLeap;
    if t.month == 12 && t.day == 31 {
      DaysInYear(t.year);
    }
  }

  /** The computed date counts back to the day number it came from. */
  lemma {:induction false} CivilCountsBack(days: nat)
    ensures IsDate(Civil(days)) && Civil(days).year >= 1970 && DayCount(Civil(days)) == days
  {
    hide Civil;
    hide IsDate;
    hide DayCount;
    CivilNext(days);
    if days == 0 {
      EpochIsCivil();
      assert DayCount(Date(1970, 1, 1)) == 0 by { EpochCounts(); }
    } else {
      CivilCountsBack(days - 1);
      CivilNext(days - 1);
      DayCountNext(Civil(days - 1));
    }
  }

  lemma EpochCounts()
    ensures IsDate(Date(1970, 1, 1)) && DayCount(Date(1970, 1, 1)) == 0
  {
  }

  // ----- Seconds -----

  lemma TimeRecomposes(secs: nat)
    ensures
      var t := secs % 86400;
      && 0 <= t / 3600 < 24 && 0 <= t % 3600 / 60 < 60
      && secs / 86400 * 86400 + t / 3600 * 3600 + t % 3600 / 60 * 60 + t % 60 == secs
  {
    var t := secs % 86400;
    assert t == t / 3600 * 3600 + t % 3600;
    assert t % 3600 == t % 3600 / 60 * 60 + t % 3600 % 60;
    assert t % 3600 % 60 == t % 60;
  }

  datatype Stamp = Stamp(date: Date, hours: int, minutes: int, seconds: int)

  /** The parts recompose to the seconds they came from, and are in range. */
  function UtcNow(secs: nat): (s: Stamp)
    ensures IsDate(s.date) && s.date.year >= 1970
    ensures 0 <= s.hours < 24 && 0 <= s.minutes < 60 && 0 <= s.seconds < 60
    ensures DayCount(s.date) * 86400 + s.hours * 3600 + s.minutes * 60 + s.seconds == secs
  {
    hide *;
    CivilCountsBack(secs / 86400);
    TimeRecomposes(secs);
    var timeOfDay := secs % 86400;
    Stamp(Civil(secs / 86400), timeOfDay / 3600, (timeOfDay % 3600) / 60, timeOfDay % 60)
  }

  // ----- Text -----

  function Digit(n: int): char
    requires 0 <= n < 10
  {
    "0123456789"[n]
  }

  /** At least two digits, padded with a zero. */
  function Pad2(n: int): string
    requires 0 <= n < 100
  {
    [Digit(n / 10), Digit(n % 10)]
  }

  /** The digits of a number, at least four of them. */
  function Pad4(n: nat): (s: string)
    ensures |s| >= 4 && (|s| == 4 <==> n < 10000)
  {
    if n < 10000 then Pad2(n / 100) + Pad2(n % 100)
    else Pad4(n / 10) + [Digit(n % 10)]
  }

  /** The date-time of section 5.6 of RFC 3339, in UTC. */
  function IsoText(s: Stamp): string
    requires IsDate(s.date) && s.date.year >= 0
    requires 0 <= s.hours < 24 && 0 <= s.minutes < 60 && 0 <= s.seconds < 60
  {
    Pad4(s.date.year) + "-" + Pad2(s.date.month) + "-" + Pad2(s.date.day)
    + "T" + Pad2(s.hours) + ":" + Pad2(s.minutes) + ":" + Pad2(s.seconds) + "Z"
  }

  function DigitValue(c: char): int {
    c as int - '0' as int
  }

  function Value2(s: string): int
    requires |s| == 2
  {
    10 * DigitValue(s[0]) + DigitValue(s[1])
  }

  lemma Pad2Reads(n: int)
    requires 0 <= n < 100
    ensures Value2(Pad2(n)) == n
  {
    DigitReads(n / 10);
    DigitReads(n % 10);
  }

  lemma DigitReads(n: int)
    requires 0 <= n < 10
    ensures DigitValue(Digit(n)) == n
  {
    assert "0123456789" == ['0', '1', '2', '3', '4', '5', '6', '7', '8', '9'];
  }

  /** Reads a date-time of twenty characters back by position. */
  function ReadIso(s: string): Stamp
    requires |s| == 20
  {
    Stamp(
      Date(100 * Value2(s[0..2]) + Value2(s[2..4]), Value2(s[5..7]), Value2(s[8..10])),
      Value2(s[11..13]), Value2(s[14..16]), Value2(s[17..19]))
  }

  /** The separators of the fixed form, with digits everywhere else. */
  ghost predicate Separated(s: string) {
    && |s| == 20 && s[4] == s[7] == '-' && s[10] == 'T' && s[13] == s[16] == ':' && s[19] == 'Z'
    && forall i :: 0 <= i < 20 && i !in {4, 7, 10, 13, 16, 19} ==> '0' <= s[i] <= '9'
  }

  /** Up to the year 9999 the text has the fixed form of the standard and reads back; later it is longer. */
  lemma IsoTextReads(s: Stamp)
    requires IsDate(s.date) && s.date.year >= 0
    requires 0 <= s.hours < 24 && 0 <= s.minutes < 60 && 0 <= s.seconds < 60
    ensures |IsoText(s)| == 20 <==> s.date.year < 10000
    ensures s.date.year < 10000 ==> ReadIso(IsoText(s)) == s && Separated(IsoText(s))
  {
    hide Pad2;
    hide Value2;
    Pad2Length();
    if s.date.year < 10000 {
      Pad2Reads(s.date.year / 100);
      Pad2Reads(s.date.year % 100);
      Pad2Reads(s.date.month);
      Pad2Reads(s.date.day);
      Pad2Reads(s.hours);
      Pad2Reads(s.minutes);
      Pad2Reads(s.seconds);
      Slices(Pad2(s.date.year / 100), Pad2(s.date.year % 100), Pad2(s.date.month), Pad2(s.date.day),
        Pad2(s.hours), Pad2(s.minutes), Pad2(s.seconds));
    }
  }

  lemma Pad2Length()
    ensures forall n :: 0 <= n < 100 ==> |Pad2(n)| == 2 && AreDigits(Pad2(n))
  {
    forall n | 0 <= n < 100 ensures AreDigits(Pad2(n)) {
      DigitReads(n / 10);
      DigitReads(n % 10);
    }
  }

  ghost predicate AreDigits(s: string) {
    forall i :: 0 <= i < |s| ==> '0' <= s[i] <= '9'
  }

  lemma Slices(a: string, b: string, c: string, d: string, e: string, f: string, g: string)
    requires |a| == |b| == |c| == |d| == |e| == |f| == |g| == 2
    ensures
      AreDigits(a) && AreDigits(b) && AreDigits(c) && AreDigits(d) && AreDigits(e) && AreDigits(f) && AreDigits(g) ==>
        Separated(a + b + "-" + c + "-" + d + "T" + e + ":" + f + ":" + g + "Z")
    ensures
      var t := a + b + "-" + c + "-" + d + "T" + e + ":" + f + ":" + g + "Z";
      && t[0..2] == a && t[2..4] == b && t[5..7] == c && t[8..10] == d
      && t[11..13] == e && t[14..16] == f && t[17..19] == g
  {
  }
}
