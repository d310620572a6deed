/**
 * `getTodayUtcRange`: the calendar day (in UTC) that contains an instant,
 * as the half-open interval [UTC midnight, next UTC midnight).
 *
 * Instants are integer milliseconds since 1970-01-01T00:00:00Z, as in
 * ECMAScript time values. The UTC date components of an instant are
 * computed with the proleptic Gregorian calendar, and `Date.UTC` turns
 * components back into an instant, including its rule that a two-digit
 * year 0..99 means 1900..1999.
 */
module Dates {

  const MsPerDay: int := 86400000

  /** A proleptic Gregorian date: month 1..12, day of month 1..31. */
  datatype Civil = Civil(year: int, month: int, day: int)

  /** The half-open interval [start, end) of instants. */
  datatype Range = Range(start: int, end: int)

  /** Days from 1970-01-01 to the given date (month 1..12; the day may overflow the month). */
  function DaysFromCivil(year: int, month: int, day: int): int
    requires 1 <= month <= 12
  {
    var y := if month <= 2 then year - 1 else year;
    var era := y / 400;
    var yoe := y - era * 400;
    var mp := if month > 2 then month - 3 else month + 9;
    var doy := (153 * mp + 2) / 5 + day - 1;
    var doe := yoe * 365 + yoe / 4 - yoe / 100 + doy;
    era * 146097 + doe - 719468
  }

  /** Position of a day inside a 400-year era that starts on 1 March:
      year of era, and day of that (March-based) year. */
  datatype EraDay = EraDay(yoe: int, doy: int)

  /** Splits a day of era into centuries, four-year groups and years. */
  function SplitEraDay(doe: int): (r: EraDay)
    requires 0 <= doe <= 146096
    ensures 0 <= r.yoe <= 399 && 0 <= r.doy <= 365
    ensures r.yoe * 365 + r.yoe / 4 - r.yoe / 100 + r.doy == doe
  {
    var c := if doe / 36524 < 3 then doe / 36524 else 3;
    var doc := doe - 36524 * c;
    var g := doc / 1461;
    var dog := doc - 1461 * g;
    var yog := if dog / 365 < 3 then dog / 365 else 3;
    var yoe := 100 * c + 4 * g + yog;
    assert yoe / 4 == 25 * c + g;
    assert yoe / 100 == c;
    EraDay(yoe, dog - 365 * yog)
  }

  /** The date at day `ed.doy` of year `ed.yoe` of the 400-year era `era`. */
  function CivilOfEraDay(era: int, ed: EraDay): (date: Civil)
    requires 0 <= ed.doy <= 365
    ensures 1 <= date.month <= 12 && 1 <= date.day <= 31
  {
    var mp := (5 * ed.doy + 2) / 153;
    var d := ed.doy - (153 * mp + 2) / 5 + 1;
    var m := if mp < 10 then mp + 3 else mp - 9;
    Civil(ed.yoe + era * 400 + (if m <= 2 then 1 else 0), m, d)
  }

  /** The date of the day that lies `days` days after 1970-01-01. */
  function CivilFromDays(days: int): (date: Civil)
    ensures 1 <= date.month <= 12 && 1 <= date.day <= 31
  {
    var z := days + 719468;
    var era := z / 146097;
    CivilOfEraDay(era, SplitEraDay(z - era * 146097))
  }

  /** Dividing `r + e * 400` by 400 gives back `e` when `0 <= r < 400`. */
  lemma DivOfEra(r: int, e: int)
    requires 0 <= r < 400
    ensures (r + e * 400) / 400 == e
  {
  }

  /** `DaysFromCivil` in terms of the era, the year of era and the March-based month. */
  lemma DaysFromCivilParts(year: int, month: int, day: int, era: int, yoe: int, mp: int)
    requires 1 <= month <= 12 && 0 <= yoe < 400
    requires (if month <= 2 then year - 1 else year) == yoe + era * 400
    requires mp == if month > 2 then month - 3 else month + 9
    ensures DaysFromCivil(year, month, day)
         == era * 146097 + yoe * 365 + yoe / 4 - yoe / 100 + (153 * mp + 2) / 5 + day - 1 - 719468
  {
    DivOfEra(yoe, era);
  }

  /** The March-based month `mp` that a day of year falls in is 0..11, and its
      day of month is at least 1. */
  lemma MonthOfYear(doy: int)
    requires 0 <= doy <= 365
    ensures 0 <= (5 * doy + 2) / 153 <= 11
    ensures (153 * ((5 * doy + 2) / 153) + 2) / 5 <= doy
  {
  }

  /** Composing a date from its era position and converting it back gives the
      day number of that position. */
  lemma CivilOfEraDayRoundTrip(era: int, ed: EraDay)
    requires 0 <= ed.yoe <= 399 && 0 <= ed.doy <= 365
    ensures var date := CivilOfEraDay(era, ed);
      DaysFromCivil(date.year, date.month, date.day)
        == era * 146097 + ed.yoe * 365 + ed.yoe / 4 - ed.yoe / 100 + ed.doy - 719468
  {
    var mp := (5 * ed.doy + 2) / 153;
    MonthOfYear(ed.doy);
    var date := CivilOfEraDay(era, ed);
    var m := if mp < 10 then mp + 3 else mp - 9;
    assert date == Civil(ed.yoe + era * 400 + (if m <= 2 then 1 else 0), m, ed.doy - (153 * mp + 2) / 5 + 1);
    DaysFromCivilParts(date.year, date.month, date.day, era, ed.yoe, mp);
  }

  /** Converting a day number to its date and back gives the day number. */
  lemma CivilRoundTrip(days: int)
    ensures DaysFromCivil(CivilFromDays(days).year, CivilFromDays(days).month, CivilFromDays(days).day) == days
  {
    var z := days + 719468;
    var era := z / 146097;
    var ed := SplitEraDay(z - era * 146097);
    CivilOfEraDayRoundTrip(era, ed);
  }

  /** Different day numbers have different dates. */
  lemma CivilInjective(a: int, b: int)
    ensures CivilFromDays(a) == CivilFromDays(b) <==> a == b
  {
    CivilRoundTrip(a);
    CivilRoundTrip(b);
  }

  /** `getUTCFullYear`, `getUTCMonth() + 1` and `getUTCDate()` of an instant. */
  function UtcDate(now: int): Civil {
    CivilFromDays(now / MsPerDay)
  }

  /** ECMAScript MakeDay: the day number of (year, month0, date), with the month
      normalised into the year and the date allowed to run past the month. */
  function MakeDay(year: int, month0: int, date: int): int {
    DaysFromCivil(year + month0 / 12, month0 % 12 + 1, 1) + date - 1
  }

  /** `Date.UTC(year, month0, date)` at midnight, including the two-digit-year rule. */
  function DateUtc(year: int, month0: int, date: int): int {
    var y := if 0 <= year <= 99 then 1900 + year else year;
    MakeDay(y, month0, date) * MsPerDay
  }

  /** `getTodayUtcRange()` with the clock reading passed in as `now`. */
  function TodayUtcRange(now: int): Range {
    var d := UtcDate(now);
    Range(DateUtc(d.year, d.month - 1, d.day), DateUtc(d.year, d.month - 1, d.day + 1))
  }

  /** The day of month enters the day number linearly. */
  lemma DaysFromCivilShift(year: int, month: int, day: int)
    requires 1 <= month <= 12
    ensures DaysFromCivil(year, month, day) == DaysFromCivil(year, month, 1) + day - 1
  {
  }

  /** `Date.UTC` of a date is a UTC midnight, and the next date is one day later. */
  lemma DateUtcNextDay(year: int, month0: int, date: int)
    ensures DateUtc(year, month0, date) % MsPerDay == 0
    ensures DateUtc(year, month0, date + 1) == DateUtc(year, month0, date) + MsPerDay
  {
    var y := if 0 <= year <= 99 then 1900 + year else year;
    var k := MakeDay(y, month0, date);
    assert DateUtc(year, month0, date) == k * MsPerDay;
    assert DateUtc(year, month0, date + 1) == (k + 1) * MsPerDay;
  }

  /** The range is one whole UTC day: it starts at a UTC midnight and lasts exactly
      86 400 000 ms; outside the years 0..99 it is the day that contains `now`. */
  lemma TodayUtcRangeIsDay(now: int)
    ensures TodayUtcRange(now).start % MsPerDay == 0
    ensures TodayUtcRange(now).end - TodayUtcRange(now).start == MsPerDay
    ensures !(0 <= UtcDate(now).year <= 99) ==> TodayUtcRange(now).start == (now / MsPerDay) * MsPerDay
    ensures !(0 <= UtcDate(now).year <= 99) ==> TodayUtcRange(now).start <= now < TodayUtcRange(now).end
  {
    var day := now / MsPerDay;
    var d := UtcDate(now);
    DateUtcNextDay(d.year, d.month - 1, d.day);
    if !(0 <= d.year <= 99) {
      MakeDayOfDate(day);
      var k := MakeDay(d.year, d.month - 1, d.day);
      assert TodayUtcRange(now).start == DateUtc(d.year, d.month - 1, d.day) == k * MsPerDay;
    }
  }

  /** MakeDay of a date's components is its day number. */
  lemma MakeDayOfCivil(year: int, month: int, day: int)
    requires 1 <= month <= 12
    ensures MakeDay(year, month - 1, day) == DaysFromCivil(year, month, day)
  {
    assert (month - 1) / 12 == 0 && (month - 1) % 12 + 1 == month;
    DaysFromCivilShift(year, month, day);
  }

  /** MakeDay of the components of a day number's date is that day number. */
  lemma MakeDayOfDate(day: int)
    ensures var d := CivilFromDays(day); MakeDay(d.year, d.month - 1, d.day) == day
  {
    var d := CivilFromDays(day);
    MakeDayOfCivil(d.year, d.month, d.day);
    CivilRoundTrip(day);
  }

  /** Two instants get the same range exactly when they fall on the same UTC date
      (for dates outside the years 0..99). */
  lemma SameRangeIffSameUtcDate(a: int, b: int)
    requires !(0 <= UtcDate(a).year <= 99) && !(0 <= UtcDate(b).year <= 99)
    ensures TodayUtcRange(a) == TodayUtcRange(b) <==> UtcDate(a) == UtcDate(b)
  {
    TodayUtcRangeIsDay(a);
    TodayUtcRangeIsDay(b);
    CivilInjective(a / MsPerDay, b / MsPerDay);
  }

  /** `Date.UTC` reads years 0..99 as 1900..1999, so for an instant in such a
      year the range is a day in the twentieth century: 01:00 UTC on 15 June
      of the year 50 gets the range of 15 June 1950. */
  lemma TwoDigitYearRange()
    ensures UtcDate(-60575036400000) == Civil(50, 6, 15)
    ensures TodayUtcRange(-60575036400000) == Range(-616896000000, -616896000000 + MsPerDay)
  {
    assert -60575036400000 / MsPerDay == -701100;
    assert 18368 / 146097 == 0;
    assert 18368 / 36524 == 0 && 18368 / 1461 == 12 && 836 / 365 == 2;
    assert 50 / 4 == 12 && 50 / 100 == 0;
    assert SplitEraDay(18368) == EraDay(50, 106);
    assert (5 * 106 + 2) / 153 == 3 && (153 * 3 + 2) / 5 == 92;
    assert CivilFromDays(-701100) == Civil(50, 6, 15);
    assert 1950 / 400 == 4 && 350 / 4 == 87 && 350 / 100 == 3;
    assert DaysFromCivil(1950, 6, 1) == -7154;
    assert MakeDay(1950, 5, 15) == -7140;
    DateUtcNextDay(50, 5, 15);
  }
}
