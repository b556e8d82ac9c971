/** From a day number to a date of the proleptic Gregorian calendar (RFC 3339,
    section 5.7 and Appendix C); day zero is 1970-01-01. */
module CivilDate {

  datatype Date = Date(year: int, month: int, day: int)

  const I64_MIN := -0x8000_0000_0000_0000
  const I64_MAX := 0x7fff_ffff_ffff_ffff

  /** Division that truncates toward zero. */
  function TruncDiv(a: int, b: int): int
    requires b > 0
  {
    if a >= 0 then a / b else -((-a) / b)
  }

  function Era(days: int): int {
    TruncDiv(if days >= 0 then days else days - 146_096, 146_097)
  }

  function YearOfEra(dayOfEra: int): int {
    TruncDiv(dayOfEra - TruncDiv(dayOfEra, 1_460) + TruncDiv(dayOfEra, 36_524) - TruncDiv(dayOfEra, 146_096), 365)
  }

  function DayOfYear(dayOfEra: int, yearOfEra: int): int {
    dayOfEra - (365 * yearOfEra + TruncDiv(yearOfEra, 4) - TruncDiv(yearOfEra, 100))
  }

  /** Month, counting from March as 0, and day of a day of the March year. */
  function MonthPrime(dayOfYear: int): int {
    TruncDiv(5 * dayOfYear + 2, 153)
  }

  function DayOfMonth(dayOfYear: int): int {
    dayOfYear - TruncDiv(153 * MonthPrime(dayOfYear) + 2, 5) + 1
  }

  function MonthOf(monthPrime: int): int {
    monthPrime + if monthPrime < 10 then 3 else -9
  }

  function CivilFromDays(daysSinceEpoch: int): Date {
    var days := daysSinceEpoch + 719_468;
    var era := Era(days);
    var dayOfEra := days - era * 146_097;
    var yearOfEra := YearOfEra(dayOfEra);
    var dayOfYear := DayOfYear(dayOfEra, yearOfEra);
    var month := MonthOf(MonthPrime(dayOfYear));
    var year := yearOfEra + era * 400;
    Date(if month <= 2 then year + 1 else year, month, DayOfMonth(dayOfYear))
  }

  // ----- The calendar -----

  predicate Leap(year: int) {
    year % 4 == 0 && (year % 100 != 0 || year % 400 == 0)
  }

  function MonthLength(year: int, month: int): int {
    if month == 2 then if Leap(year) then 29 else 28
    else if month == 4 || month == 6 || month == 9 || month == 11 then 30
    else 31
  }

  predicate Valid(d: Date) {
    1 <= d.month <= 12 && 1 <= d.day <= MonthLength(d.year, d.month)
  }

  function Next(d: Date): Date {
    if d.day < MonthLength(d.year, d.month) then d.(day := d.day + 1)
    else if d.month < 12 then Date(d.year, d.month + 1, 1)
    else Date(d.year + 1, 1, 1)
  }

  // ----- The inverse -----

  /** Days of the era before a March year, and of the March year before a month. */
  function YearStart(yearOfEra: int): int {
    365 * yearOfEra + yearOfEra / 4 - yearOfEra / 100
  }

  function MonthStart(monthPrime: int): int {
    (153 * monthPrime + 2) / 5
  }

  function MarchYear(d: Date): int {
    if d.month <= 2 then d.year - 1 else d.year
  }

  function MarchMonth(d: Date): int {
    if d.month <= 2 then d.month + 9 else d.month - 3
  }

  function MarchDay(d: Date): int {
    MonthStart(MarchMonth(d)) + d.day - 1
  }

  function DaysFromCivil(d: Date): int {
    MarchYear(d) / 400 * 146_097 + YearStart(MarchYear(d) % 400) + MarchDay(d) - 719_468
  }

  /** Day 365 exists only in a March year that ends in a leap February. */
  predicate InYear(yearOfEra: int, dayOfYear: int) {
    0 <= dayOfYear < 365 || (dayOfYear == 365 && Leap(yearOfEra + 1))
  }

  /** A year of the era by century, leap cycle and year within the cycle. */
  lemma SplitYear(y: int) returns (c: int, q: int, r: int)
    requires 0 <= y < 400
    ensures y == 100 * c + 4 * q + r && 0 <= c <= 3 && 0 <= q <= 24 && 0 <= r <= 3
    ensures y / 4 == 25 * c + q && y / 100 == c
    ensures Leap(y + 1) <==> r == 3 && (q < 24 || c == 3)
  {
    c := y / 100;
    q := y % 100 / 4;
    r := y % 4;
  }

  lemma YearFormula(c: int, q: int, r: int, k: int)
    requires 0 <= c <= 3 && 0 <= q <= 24 && 0 <= r <= 3
    requires 0 <= k < 365 || (k == 365 && r == 3 && (q < 24 || c == 3))
    ensures YearOfEra(36_524 * c + 1_461 * q + 365 * r + k) == 100 * c + 4 * q + r
  {
    var doe := 36_524 * c + 1_461 * q + 365 * r + k;
    var e := if 24 * c + q + 365 * r + k >= 1_460 then 1 else 0;
    assert doe / 1_460 == 25 * c + q + e;
    if doe == 146_096 {
      assert c == 3 && q == 24 && r == 3 && k == 365;
    } else {
      assert doe / 36_524 == c;
      assert doe / 146_096 == 0;
      assert doe - doe / 1_460 + c == 365 * (100 * c + 4 * q + r) + (k - e);
      assert 0 <= k - e < 365;
    }
  }

  /** A day of a year of the era is found again. */
  lemma YearFound(y: int, k: int)
    requires 0 <= y < 400 && InYear(y, k)
    ensures 0 <= YearStart(y) + k < 146_097
    ensures YearOfEra(YearStart(y) + k) == y && DayOfYear(YearStart(y) + k, y) == k
  {
    var c, q, r := SplitYear(y);
    YearFormula(c, q, r, k);
  }

  /** Every day of the era is a day of one of its years. */
  lemma DaySplits(doe: int) returns (y: int, k: int)
    requires 0 <= doe < 146_097
    ensures 0 <= y < 400 && InYear(y, k) && doe == YearStart(y) + k
  {
    var c := if doe == 146_096 then 3 else doe / 36_524;
    var rest := doe - 36_524 * c;
    var q := if rest / 1_461 == 25 then 24 else rest / 1_461;
    var left := rest - 1_461 * q;
    var r := if left / 365 == 4 then 3 else left / 365;
    y := 100 * c + 4 * q + r;
    k := left - 365 * r;
    var c', q', r' := SplitYear(y);
    assert c' == c && q' == q && r' == r;
  }

  lemma MonthFound(m: int, day: int)
    requires 0 <= m <= 11 && 1 <= day <= MonthStart(m + 1) - MonthStart(m) && MonthStart(m) + day - 1 <= 365
    ensures MonthPrime(MonthStart(m) + day - 1) == m && DayOfMonth(MonthStart(m) + day - 1) == day
  {
  }

  lemma MonthSplits(k: int)
    requires 0 <= k <= 365
    ensures 0 <= MonthPrime(k) <= 11 && MonthStart(MonthPrime(k)) + DayOfMonth(k) - 1 == k
    ensures 1 <= DayOfMonth(k) <= 31
    ensures MonthPrime(k) in {1, 3, 6, 8} ==> DayOfMonth(k) <= 30
    ensures MonthPrime(k) == 11 ==> DayOfMonth(k) <= 29 && (DayOfMonth(k) == 29 <==> k == 365)
  {
  }

  lemma EraOf(days: int)
    ensures Era(days) == days / 146_097 && 0 <= days - Era(days) * 146_097 < 146_097
  {
  }

  lemma LeapShift(y: int, era: int)
    ensures Leap(y + 400 * era) <==> Leap(y)
  {
    Mod4(y + 400 * era, y / 4 + 100 * era, y % 4);
    Mod100(y + 400 * era, y / 100 + 4 * era, y % 100);
    Mod400(y + 400 * era, y / 400 + era, y % 400);
  }

  lemma Mod4(x: int, q: int, r: int)
    requires x == 4 * q + r && 0 <= r < 4
    ensures x % 4 == r
  {
  }

  lemma Mod100(x: int, q: int, r: int)
    requires x == 100 * q + r && 0 <= r < 100
    ensures x % 100 == r
  {
  }

  lemma Mod400(x: int, q: int, r: int)
    requires x == 400 * q + r && 0 <= r < 400
    ensures x % 400 == r && x / 400 == q
  {
  }

  lemma EraUnique(days: int, era: int, doe: int)
    requires days == era * 146_097 + doe && 0 <= doe < 146_097
    ensures Era(days) == era
  {
    EraOf(days);
  }

  /** The date of day `k` of year `y` of an era. */
  function DateOf(era: int, y: int, k: int): Date {
    var month := MonthOf(MonthPrime(k));
    Date(if month <= 2 then y + era * 400 + 1 else y + era * 400, month, DayOfMonth(k))
  }

  lemma Converted(n: int, era: int, y: int, k: int)
    requires 0 <= y < 400 && InYear(y, k) && n + 719_468 == era * 146_097 + YearStart(y) + k
    ensures CivilFromDays(n) == DateOf(era, y, k)
  {
    hide YearOfEra, DayOfYear, MonthPrime, DayOfMonth, MonthOf, YearStart, InYear, Era;
    YearFound(y, k);
    EraUnique(n + 719_468, era, YearStart(y) + k);
  }

  /** Every day number has such parts. */
  lemma Parts(n: int) returns (era: int, y: int, k: int)
    ensures 0 <= y < 400 && InYear(y, k) && n + 719_468 == era * 146_097 + YearStart(y) + k
  {
    hide YearStart, InYear, Era;
    era := Era(n + 719_468);
    EraOf(n + 719_468);
    y, k := DaySplits(n + 719_468 - era * 146_097);
  }

  /** What the conversion computes, by era, year and day of the year. */
  lemma Computed(n: int) returns (era: int, y: int, k: int)
    ensures 0 <= y < 400 && InYear(y, k) && n + 719_468 == era * 146_097 + YearStart(y) + k
    ensures CivilFromDays(n) == DateOf(era, y, k)
  {
    hide *;
    era, y, k := Parts(n);
    Converted(n, era, y, k);
  }

  /** The result is a date of the calendar. */
  lemma CivilValid(n: int)
    ensures Valid(CivilFromDays(n))
  {
    var era, y, k := Computed(n);
    MonthSplits(k);
    LeapShift(y + 1, era);
  }

  /** Day zero is 1970-01-01. */
  lemma CivilEpoch()
    ensures CivilFromDays(0) == Date(1970, 1, 1)
  {
    assert Era(719_468) == 4;
    assert YearOfEra(135_080) == 369;
    assert DayOfYear(135_080, 369) == 306;
  }

  /** Counting the days of the date gives the day number back. */
  lemma DaysOfCivil(n: int)
    ensures DaysFromCivil(CivilFromDays(n)) == n
  {
    var era, y, k := Computed(n);
    MonthSplits(k);
    var d := CivilFromDays(n);
    assert MarchYear(d) == y + era * 400 && MarchMonth(d) == MonthPrime(k);
    assert (y + era * 400) / 400 == era && (y + era * 400) % 400 == y;
  }

  /** Every date of the calendar is the date of its day number. */
  lemma CivilOfDays(d: Date)
    requires Valid(d)
    ensures CivilFromDays(DaysFromCivil(d)) == d
  {
    hide YearStart, InYear, MonthPrime, DayOfMonth, MarchDay, CivilFromDays, MonthStart, Leap;
    var era, y, k := MarchYear(d) / 400, MarchYear(d) % 400, MarchDay(d);
    ValidInYear(d);
    Converted(DaysFromCivil(d), era, y, k);
    MonthOfDate(d);
  }

  lemma ValidInYear(d: Date)
    requires Valid(d)
    ensures InYear(MarchYear(d) % 400, MarchDay(d))
  {
    LeapShift(MarchYear(d) % 400 + 1, MarchYear(d) / 400);
    assert MarchYear(d) + 1 == MarchYear(d) % 400 + 1 + 400 * (MarchYear(d) / 400);
  }

  lemma MonthOfDate(d: Date)
    requires Valid(d)
    ensures MonthPrime(MarchDay(d)) == MarchMonth(d) && DayOfMonth(MarchDay(d)) == d.day
  {
    MonthFound(MarchMonth(d), d.day);
  }

  lemma YearLength(z: int)
    requires 0 <= z < 400
    ensures (if z == 399 then 146_097 + YearStart(0) else YearStart(z + 1)) == YearStart(z) + if Leap(z + 1) then 366 else 365
  {
    var c, q, r := SplitYear(z);
    if z < 399 {
      var c', q', r' := SplitYear(z + 1);
    }
  }

  lemma YearAdvances(y: int)
    ensures (y + 1) / 400 * 146_097 + YearStart((y + 1) % 400) ==
      y / 400 * 146_097 + YearStart(y % 400) + if Leap(y + 1) then 366 else 365
  {
    hide YearStart, Leap;
    var e, z := y / 400, y % 400;
    LeapShift(z + 1, e);
    YearLength(z);
    assert y + 1 == z + 1 + 400 * e;
    if z == 399 {
      Mod400(y + 1, e + 1, 0);
    } else {
      Mod400(y + 1, e, z + 1);
    }
  }

  lemma NextInMonth(d: Date)
    requires Valid(d) && d.day < MonthLength(d.year, d.month)
    ensures Valid(Next(d)) && DaysFromCivil(Next(d)) == DaysFromCivil(d) + 1
  {
    hide YearStart, MonthStart, Leap;
  }

  lemma MonthLengths(year: int, month: int)
    requires 1 <= month <= 12 && month != 2
    ensures var m := MarchMonth(Date(year, month, 1)); MonthStart(m + 1) == MonthStart(m) + MonthLength(year, month)
  {
  }

  lemma NextMonth(d: Date)
    requires Valid(d) && d.day == MonthLength(d.year, d.month) && d.month != 2
    ensures Valid(Next(d)) && DaysFromCivil(Next(d)) == DaysFromCivil(d) + 1
  {
    hide YearStart, MonthStart, Leap;
    MonthLengths(d.year, d.month);
    assert MarchYear(Next(d)) == MarchYear(d) && MarchMonth(Next(d)) == MarchMonth(d) + 1;
  }

  lemma NextYear(d: Date)
    requires Valid(d) && d.day == MonthLength(d.year, 2) && d.month == 2
    ensures Valid(Next(d)) && DaysFromCivil(Next(d)) == DaysFromCivil(d) + 1
  {
    hide YearStart, Leap;
    YearAdvances(MarchYear(d));
    assert MarchYear(Next(d)) == MarchYear(d) + 1 && MarchMonth(Next(d)) == 0 && MarchMonth(d) == 11;
  }

  /** The day after a date is one day later. */
  lemma DaysOfNext(d: Date)
    requires Valid(d)
    ensures Valid(Next(d)) && DaysFromCivil(Next(d)) == DaysFromCivil(d) + 1
  {
    hide DaysFromCivil, Next;
    if d.day < MonthLength(d.year, d.month) {
      NextInMonth(d);
    } else if d.month == 2 {
      NextYear(d);
    } else {
      NextMonth(d);
    }
  }

  /** Consecutive day numbers are consecutive dates. */
  lemma CivilNext(n: int)
    ensures CivilFromDays(n + 1) == Next(CivilFromDays(n))
  {
    hide *;
    var d := CivilFromDays(n);
    CivilValid(n);
    DaysOfCivil(n);
    DaysOfNext(d);
    CivilOfDays(Next(d));
  }

  /** The conversion is a bijection between day numbers and dates. */
  lemma CivilBijective(d: Date, n: int)
    requires Valid(d)
    ensures CivilFromDays(n) == d <==> n == DaysFromCivil(d)
  {
    DaysOfCivil(n);
    CivilOfDays(d);
  }

  predicate Fits(x: int) {
    I64_MIN <= x <= I64_MAX
  }

  /** Every value the conversion computes on the way, in order. */
  function Computes(n: int): seq<int> {
    var days := n + 719_468;
    var era := Era(days);
    var doe := days - era * 146_097;
    var yoe := YearOfEra(doe);
    var year := yoe + era * 400;
    [days, if days >= 0 then days else days - 146_096, era, era * 146_097] + EraValues(doe) + [era * 400, year] +
    YearValues(doe, yoe) + [CivilFromDays(n).year]
  }

  function EraValues(doe: int): seq<int> {
    var a, b, c := TruncDiv(doe, 1_460), TruncDiv(doe, 36_524), TruncDiv(doe, 146_096);
    [doe, a, doe - a, b, doe - a + b, c, doe - a + b - c, YearOfEra(doe)]
  }

  function YearValues(doe: int, yoe: int): seq<int> {
    var q, c, doy := TruncDiv(yoe, 4), TruncDiv(yoe, 100), DayOfYear(doe, yoe);
    [365 * yoe, q, 365 * yoe + q, c, 365 * yoe + q - c, doy] + MonthValues(doy)
  }

  function MonthValues(doy: int): seq<int> {
    var mp := MonthPrime(doy);
    [5 * doy, 5 * doy + 2, mp, 153 * mp, 153 * mp + 2, TruncDiv(153 * mp + 2, 5),
     doy - TruncDiv(153 * mp + 2, 5), DayOfMonth(doy), MonthOf(mp)]
  }

  ghost predicate AllFit(values: seq<int>) {
    forall i :: 0 <= i < |values| ==> Fits(values[i])
  }

  lemma FitConcat(a: seq<int>, b: seq<int>)
    ensures AllFit(a + b) <==> AllFit(a) && AllFit(b)
  {
    hide Fits;
    assert forall i :: 0 <= i < |a| ==> (a + b)[i] == a[i];
    assert forall i :: 0 <= i < |b| ==> (a + b)[|a| + i] == b[i];
  }

  lemma EraValuesFit(doe: int)
    requires 0 <= doe < 146_097
    ensures AllFit(EraValues(doe))
  {
  }

  lemma MonthValuesFit(doy: int)
    requires 0 <= doy <= 365
    ensures AllFit(MonthValues(doy))
  {
    MonthSplits(doy);
  }

  lemma YearValuesFit(doe: int, yoe: int)
    requires 0 <= yoe < 400 && 0 <= DayOfYear(doe, yoe) <= 365
    ensures AllFit(YearValues(doe, yoe))
  {
    hide MonthValues;
    var q, c, doy := TruncDiv(yoe, 4), TruncDiv(yoe, 100), DayOfYear(doe, yoe);
    MonthValuesFit(doy);
    FitConcat([365 * yoe, q, 365 * yoe + q, c, 365 * yoe + q - c, doy], MonthValues(doy));
  }

  /** The era, year and day of the year the conversion goes through. */
  lemma Steps(n: int) returns (era: int, y: int, k: int)
    ensures var days := n + 719_468; var doe := days - era * 146_097;
      && era == Era(days) && 0 <= doe < 146_097
      && y == YearOfEra(doe) && 0 <= y < 400
      && k == DayOfYear(doe, y) && 0 <= k <= 365
    ensures CivilFromDays(n).year == y + era * 400 || CivilFromDays(n).year == y + era * 400 + 1
  {
    hide Era, YearOfEra, DayOfYear, CivilFromDays, YearStart, Leap;
    var days := n + 719_468;
    era, y, k := Computed(n);
    YearFound(y, k);
    EraUnique(days, era, YearStart(y) + k);
  }

  /** The first addition is the only one that can leave 64 bits: nothing
      overflows if and only if it does not. */
  lemma OverflowIff(n: int)
    requires Fits(n)
    ensures AllFit(Computes(n)) <==> n <= I64_MAX - 719_468
  {
    hide EraValues, YearValues, AllFit, Era, YearOfEra, DayOfYear, CivilFromDays;
    var era, y, k := Steps(n);
    var days := n + 719_468;
    var doe, year, last := days - era * 146_097, y + era * 400, CivilFromDays(n).year;
    var first := [days, if days >= 0 then days else days - 146_096, era, era * 146_097];
    FirstFit(n, era);
    EraValuesFit(doe);
    YearValuesFit(doe, y);
    YearFits([era * 400, year], [last]);
    FitConcat(first, EraValues(doe));
    FitConcat(first + EraValues(doe), [era * 400, year]);
    FitConcat(first + EraValues(doe) + [era * 400, year], YearValues(doe, y));
    FitConcat(first + EraValues(doe) + [era * 400, year] + YearValues(doe, y), [last]);
  }

  lemma FirstFit(n: int, era: int)
    requires Fits(n) && 0 <= n + 719_468 - era * 146_097 < 146_097
    ensures var days := n + 719_468;
      AllFit([days, if days >= 0 then days else days - 146_096, era, era * 146_097]) <==> n <= I64_MAX - 719_468
    ensures I64_MIN < 400 * era - 1 && 400 * era + 401 < I64_MAX
  {
    var days := n + 719_468;
    assert [days, if days >= 0 then days else days - 146_096, era, era * 146_097][0] == days;
  }

  lemma YearFits(a: seq<int>, b: seq<int>)
    requires forall x :: x in a || x in b ==> Fits(x)
    ensures AllFit(a) && AllFit(b)
  {
  }

  /** The last day numbers do overflow. */
  lemma LastDayOverflows()
    ensures Fits(I64_MAX) && !AllFit(Computes(I64_MAX))
  {
    OverflowIff(I64_MAX);
  }
}
