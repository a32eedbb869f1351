/** The proleptic Gregorian calendar, and the civil-date algorithm of the on-chain program
    (programs/fs_allowlist/programs/fs_allowlist/src/kyc.rs, `civil_from_unix`) against it. */
module Civil {

  datatype Date = Date(y: int, m: int, d: int)

  const SECONDS_PER_DAY: nat := 86_400

  // ------------------------------------------------------------------ the calendar itself

  predicate IsLeap(y: int) {
    (y % 4 == 0 && y % 100 != 0) || y % 400 == 0
  }

  function DaysInMonth(y: int, m: int): int {
    if m == 2 then (if IsLeap(y) then 29 else 28)
    else if m == 4 || m == 6 || m == 9 || m == 11 then 30
    else 31
  }

  predicate Valid(x: Date) {
    1 <= x.m <= 12 && 1 <= x.d <= DaysInMonth(x.y, x.m)
  }

  /** The day after. */
  function Successor(x: Date): Date {
    if x.d < DaysInMonth(x.y, x.m) then Date(x.y, x.m, x.d + 1)
    else if x.m < 12 then Date(x.y, x.m + 1, 1)
    else Date(x.y + 1, 1, 1)
  }

  /** Year, then month, then day. */
  predicate Before(a: Date, b: Date) {
    a.y < b.y || (a.y == b.y && (a.m < b.m || (a.m == b.m && a.d < b.d)))
  }

  predicate NotAfter(a: Date, b: Date) {
    a == b || Before(a, b)
  }

  /** Days of the year before the first of month `m`. */
  function DaysBeforeMonth(y: int, m: int): int
    requires 1 <= m <= 12
  {
    if m == 1 then 0 else DaysBeforeMonth(y, m - 1) + DaysInMonth(y, m - 1)
  }

  /** Days from 0001-01-01 to January 1 of year `y`. */
  function DaysBeforeYear(y: int): int {
    365 * (y - 1) + (y - 1) / 4 - (y - 1) / 100 + (y - 1) / 400
  }

  /** Days from 1970-01-01, negative before it. */
  function DayNumber(x: Date): int
    requires 1 <= x.m <= 12
  {
    DaysBeforeYear(x.y) + DaysBeforeMonth(x.y, x.m) + x.d - 1 - 719_162
  }

  lemma Divides400(y: int)
    ensures y % 400 == 0 ==> y % 100 == 0
  {
    if y % 400 == 0 { assert y == 100 * (4 * (y / 400)); }
  }

  lemma Divides100(y: int)
    ensures y % 100 == 0 ==> y % 4 == 0
  {
    if y % 100 == 0 { assert y == 4 * (25 * (y / 100)); }
  }

  lemma DivStep(y: int, k: int)
    requires k == 4 || k == 100 || k == 400
    ensures y / k - (y - 1) / k == if y % k == 0 then 1 else 0
  {
  }

  lemma YearLength(y: int)
    ensures DaysBeforeYear(y + 1) - DaysBeforeYear(y) == if IsLeap(y) then 366 else 365
  {
    DivStep(y, 4);
    DivStep(y, 100);
    DivStep(y, 400);
    Divides400(y);
    Divides100(y);
    var a, b, c := y / 4, y / 100, y / 400;
    var a', b', c' := (y - 1) / 4, (y - 1) / 100, (y - 1) / 400;
    assert DaysBeforeYear(y + 1) == 365 * y + a - b + c;
    assert DaysBeforeYear(y) == 365 * (y - 1) + a' - b' + c';
  }

  lemma MonthTable(y: int)
    ensures var leap := if IsLeap(y) then 1 else 0;
      && DaysBeforeMonth(y, 1) == 0 && DaysBeforeMonth(y, 2) == 31 && DaysBeforeMonth(y, 3) == 59 + leap
      && DaysBeforeMonth(y, 4) == 90 + leap && DaysBeforeMonth(y, 5) == 120 + leap
      && DaysBeforeMonth(y, 6) == 151 + leap && DaysBeforeMonth(y, 7) == 181 + leap
      && DaysBeforeMonth(y, 8) == 212 + leap && DaysBeforeMonth(y, 9) == 243 + leap
      && DaysBeforeMonth(y, 10) == 273 + leap && DaysBeforeMonth(y, 11) == 304 + leap
      && DaysBeforeMonth(y, 12) == 334 + leap
  {
    assert DaysBeforeMonth(y, 3) == DaysBeforeMonth(y, 2) + DaysInMonth(y, 2);
    assert DaysBeforeMonth(y, 5) == DaysBeforeMonth(y, 4) + 30;
    assert DaysBeforeMonth(y, 7) == DaysBeforeMonth(y, 6) + 30;
    assert DaysBeforeMonth(y, 9) == DaysBeforeMonth(y, 8) + 31;
    assert DaysBeforeMonth(y, 11) == DaysBeforeMonth(y, 10) + 31;
  }

  /** Day numbers count calendar days one by one, from 1970-01-01. */
  lemma DayNumberCounts(x: Date)
    requires Valid(x)
    ensures Valid(Successor(x)) && DayNumber(Successor(x)) == DayNumber(x) + 1
    ensures DayNumber(Date(1970, 1, 1)) == 0
  {
    MonthTable(x.y);
    YearLength(x.y);
    if x.d == DaysInMonth(x.y, x.m) && x.m < 12 {
      assert DaysBeforeMonth(x.y, x.m + 1) == DaysBeforeMonth(x.y, x.m) + DaysInMonth(x.y, x.m);
    }
  }

  lemma {:induction false} MonthsIncrease(y: int, m: int, n: int)
    requires 1 <= m < n <= 12
    ensures DaysBeforeMonth(y, m) + DaysInMonth(y, m) <= DaysBeforeMonth(y, n)
    decreases n
  {
    if m < n - 1 { MonthsIncrease(y, m, n - 1); }
  }

  lemma YearsIncrease(y: int, z: int)
    requires y < z
    ensures DaysBeforeYear(y) + (if IsLeap(y) then 366 else 365) <= DaysBeforeYear(z)
  {
    YearLength(y);
    assert DaysBeforeYear(y + 1) <= DaysBeforeYear(z);
  }

  lemma WithinYear(x: Date)
    requires Valid(x)
    ensures 0 <= DaysBeforeMonth(x.y, x.m) + x.d - 1 < if IsLeap(x.y) then 366 else 365
  {
    MonthTable(x.y);
  }

  /** Day numbers order dates as the calendar does. */
  lemma DayNumberOrders(a: Date, b: Date)
    requires Valid(a) && Valid(b)
    ensures DayNumber(a) < DayNumber(b) <==> Before(a, b)
    ensures DayNumber(a) == DayNumber(b) ==> a == b
  {
    if Before(a, b) { DayNumberMonotone(a, b); }
    if Before(b, a) { DayNumberMonotone(b, a); }
  }

  lemma DayNumberMonotone(a: Date, b: Date)
    requires Valid(a) && Valid(b) && Before(a, b)
    ensures DayNumber(a) < DayNumber(b)
  {
    if a.y < b.y {
      YearsIncrease(a.y, b.y);
      WithinYear(a);
      WithinYear(b);
    } else if a.m < b.m {
      MonthsIncrease(a.y, a.m, b.m);
    }
  }

  /** The date of a day, by the calendar alone: the only valid date with that number. */
  ghost function DateOfDay(day: int): (x: Date)
    ensures Valid(x) && DayNumber(x) == day
  {
    CivilFromDaysCorrect(day);
    var x :| Valid(x) && DayNumber(x) == day;
    x
  }

  lemma DateOfDayInverts(x: Date)
    requires Valid(x)
    ensures DateOfDay(DayNumber(x)) == x
  {
    DayNumberOrders(x, DateOfDay(DayNumber(x)));
  }

  /** The date of a Unix timestamp in UTC. */
  ghost function DateAt(ts: int): Date {
    DateOfDay(ts / SECONDS_PER_DAY)
  }

  // ------------------------------------------------------------------ the algorithm

  function YearOfEra(doe: int): int {
    (doe - doe / 1460 + doe / 36_524 - doe / 146_096) / 365
  }

  function DayOfYear(doe: int, yoe: int): int {
    doe - (365 * yoe + yoe / 4 - yoe / 100)
  }

  /** The body of `civil_from_unix` after the division by the seconds of a day. */
  function CivilFromDays(days: int): Date {
    var z := days + 719_468;
    var era := z / 146_097;
    var doe := z % 146_097;
    var yoe := YearOfEra(doe);
    var y := yoe + era * 400;
    var doy := DayOfYear(doe, yoe);
    var mp := (5 * doy + 2) / 153;
    var d := doy - (153 * mp + 2) / 5 + 1;
    var m := if mp < 10 then mp + 3 else mp - 9;
    Date(if m <= 2 then y + 1 else y, m, d)
  }

  /** `civil_from_unix`: Rust's `div_euclid` by a positive constant is `/` here. */
  function CivilFromUnix(ts: int): (x: Date)
    ensures x == DateAt(ts)
  {
    CivilInverts(DateAt(ts));
    CivilFromDays(ts / SECONDS_PER_DAY)
  }

  /** A day of the 400-year era splits into century, four-year cycle, year and day. */
  lemma SplitEra(doe: int) returns (c: int, k: int, j: int, r: int)
    requires 0 <= doe < 146_097
    ensures 0 <= c <= 3 && 0 <= k <= 24 && 0 <= j <= 3 && 0 <= r <= 365
    ensures doe == 36_524 * c + 1461 * k + 365 * j + r
    ensures r == 365 ==> j == 3 && (k == 24 ==> c == 3)
  {
    c := if doe / 36_524 > 3 then 3 else doe / 36_524;
    var inCentury := doe - 36_524 * c;
    k := inCentury / 1461;
    var inCycle := inCentury - 1461 * k;
    j := if inCycle / 365 > 3 then 3 else inCycle / 365;
    r := inCycle - 365 * j;
  }

  /** The closed form finds the year, and the day left over fits in it. */
  lemma YearOfEraCorrect(doe: int)
    requires 0 <= doe < 146_097
    ensures 0 <= YearOfEra(doe) <= 399
    ensures 0 <= DayOfYear(doe, YearOfEra(doe)) <= (if IsLeap(YearOfEra(doe) + 1) then 365 else 364)
  {
    var c, k, j, r := SplitEra(doe);
    var y := 100 * c + 4 * k + j;
    var carry := if 24 * c + k + 365 * j + r >= 1460 then 1 else 0;
    FourYears(doe, 25 * c + k, 24 * c + k + 365 * j + r);
    Centuries(doe, c, 1461 * k + 365 * j + r);
    assert doe - doe / 1460 + doe / 36_524 - doe / 146_096 == 365 * y + (r - carry);
    assert 0 <= r - carry < 365;
    assert YearOfEra(doe) == y;
    assert y / 4 == 25 * c + k && y / 100 == c;
    assert DayOfYear(doe, y) == r;
  }

  lemma FourYears(doe: int, q: int, rest: int)
    requires doe == 1460 * q + rest && 0 <= rest < 2920
    ensures doe / 1460 == q + if rest >= 1460 then 1 else 0
  {
  }

  lemma Centuries(doe: int, c: int, rest: int)
    requires doe == 36_524 * c + rest && 0 <= c <= 3 && 0 <= rest <= 36_524 && (rest == 36_524 ==> c == 3)
    ensures doe / 36_524 - doe / 146_096 == c
  {
  }

  /** The March-based month table: mp is the month, the rest the day in it. */
  lemma MonthFromDay(doy: int)
    requires 0 <= doy <= 365
    ensures var mp := (5 * doy + 2) / 153;
      && 0 <= mp <= 11 && 1 <= doy - (153 * mp + 2) / 5 + 1
      && doy - (153 * mp + 2) / 5 + 1
         <= (if mp == 11 then 29 else if mp == 1 || mp == 3 || mp == 6 || mp == 8 then 30 else 31)
      && (mp == 11 && doy - (153 * mp + 2) / 5 + 1 == 29 ==> doy == 365)
  {
    var mp := (5 * doy + 2) / 153;
    assert 153 * mp <= 5 * doy + 2 < 153 * (mp + 1);
  }

  lemma EraYears(era: int, n: int, yoe: int)
    requires 0 <= n <= 400 && n == yoe
    ensures (era * 400 + n) / 4 == era * 100 + n / 4
    ensures (era * 400 + n) / 100 == era * 4 + n / 100
    ensures (era * 400 + n) / 400 == era + n / 400
    ensures IsLeap(era * 400 + n) == IsLeap(n)
  {
  }

  /** The date of a March-based year of an era and a day in it. */
  function MarchDate(era: int, yoe: int, doy: int): Date {
    var mp := (5 * doy + 2) / 153;
    var m := if mp < 10 then mp + 3 else mp - 9;
    Date(yoe + era * 400 + (if m <= 2 then 1 else 0), m, doy - (153 * mp + 2) / 5 + 1)
  }

  /** It is the day it counts to. */
  lemma MarchYear(era: int, yoe: int, doy: int)
    requires 0 <= yoe <= 399 && 0 <= doy <= (if IsLeap(yoe + 1) then 365 else 364)
    ensures Valid(MarchDate(era, yoe, doy))
    ensures DayNumber(MarchDate(era, yoe, doy)) == era * 146_097 + 365 * yoe + yoe / 4 - yoe / 100 + doy - 719_468
  {
    var y := era * 400 + yoe;
    MonthFromDay(doy);
    MonthTable(y);
    MonthTable(y + 1);
    EraYears(era, yoe + 1, yoe + 1);
    YearLength(y);
    EraStart(era, yoe);
    hide DaysBeforeYear, IsLeap, DaysBeforeMonth;
  }

  lemma EraStart(era: int, yoe: int)
    requires 0 <= yoe <= 399
    ensures DaysBeforeYear(era * 400 + yoe + 1) == era * 146_097 + 365 * yoe + yoe / 4 - yoe / 100
  {
    EraYears(era, yoe, yoe);
    assert yoe / 400 == 0;
  }

  /** `civil_from_unix` yields a real date whose day number is the day it was asked for. */
  lemma CivilFromDaysCorrect(days: int)
    ensures Valid(CivilFromDays(days)) && DayNumber(CivilFromDays(days)) == days
  {
    hide CivilFromDays, MarchDate, YearOfEra, Valid, DayNumber;
    var z := days + 719_468;
    var era, doe := z / 146_097, z % 146_097;
    assert z == era * 146_097 + doe && 0 <= doe < 146_097;
    YearOfEraCorrect(doe);
    MarchYear(era, YearOfEra(doe), DayOfYear(doe, YearOfEra(doe)));
    CivilIsMarch(days);
  }

  lemma CivilIsMarch(days: int)
    ensures var z := days + 719_468; var era, doe := z / 146_097, z % 146_097;
      CivilFromDays(days) == MarchDate(era, YearOfEra(doe), DayOfYear(doe, YearOfEra(doe)))
  {
    hide YearOfEra, DayOfYear;
  }

  // ------------------------------------------------------------------ what it means for timestamps

  /** The only valid date with that day number. */
  lemma CivilInverts(x: Date)
    requires Valid(x)
    ensures CivilFromDays(DayNumber(x)) == x
  {
    CivilFromDaysCorrect(DayNumber(x));
    DayNumberOrders(x, CivilFromDays(DayNumber(x)));
  }

  /** For every timestamp, negative ones included, the one valid date with the floored day number. */
  lemma CivilCorrect(ts: int, x: Date)
    ensures Valid(x) ==> (x == CivilFromUnix(ts) <==> DayNumber(x) == ts / SECONDS_PER_DAY)
    ensures Valid(CivilFromUnix(ts))
  {
    if Valid(x) { DateOfDayInverts(x); }
  }

  /** One day later is the calendar's next day, and day 0 is 1970-01-01. */
  lemma CivilAdvances(ts: int)
    ensures DateAt(ts + SECONDS_PER_DAY) == Successor(DateAt(ts))
    ensures DateAt(0) == Date(1970, 1, 1)
  {
    assert (ts + SECONDS_PER_DAY) / SECONDS_PER_DAY == ts / SECONDS_PER_DAY + 1;
    DayNumberCounts(DateAt(ts));
    DateOfDayInverts(Successor(DateAt(ts)));
    DayNumberCounts(Date(1970, 1, 1));
    DateOfDayInverts(Date(1970, 1, 1));
  }

  /** Later days have later dates, and only they do. */
  lemma CivilOrders(s: int, t: int)
    ensures s / SECONDS_PER_DAY < t / SECONDS_PER_DAY <==> Before(DateAt(s), DateAt(t))
    ensures s <= t ==> NotAfter(DateAt(s), DateAt(t))
  {
    DayNumberOrders(DateAt(s), DateAt(t));
    if s <= t { assert s / SECONDS_PER_DAY <= t / SECONDS_PER_DAY; }
  }
}
