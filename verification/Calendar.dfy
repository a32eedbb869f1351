/** Reporting periods (packages/core/src/calendar/index.ts) over the civil calendar. Instants are
    milliseconds since 1970-01-01 UTC. */
module Calendar {
  import opened Wrappers
  import opened Text
  import opened Civil
  import Money

  const MS_PER_DAY: nat := 86_400_000

  datatype Frequency = Quarterly | Monthly

  datatype Period = Period(frequency: Frequency, name: string, start: int, recordDate: int)

  function MonthsPerPeriod(f: Frequency): (m: nat)
    ensures m == 1 || m == 3
  {
    if f == Quarterly then 3 else 1
  }

  // ------------------------------------------------------------------ JavaScript dates

  ghost function UtcDate(ms: int): Date {
    DateOfDay(ms / MS_PER_DAY)
  }

  /** The years `Date.UTC` takes for the nineteen hundreds. */
  predicate TwoDigitYear(y: int) {
    0 <= y <= 99
  }

  /** The year `Date.UTC` reads. */
  function Reading(y: int): int {
    if TwoDigitYear(y) then 1900 + y else y
  }

  /** The first day of the month `month` months after January of a year. */
  function MonthStart(year: int, month: nat): Date {
    Date(year + month / 12, month % 12 + 1, 1)
  }

  /** `Date.UTC(year, month, 1)`: month 12 is next January. */
  function FirstOfMonth(year: int, month: nat): int {
    DayNumber(MonthStart(Reading(year), month)) * MS_PER_DAY
  }

  function YearText(y: int): string {
    if y < 0 then "-" + Numeral(-y) else Numeral(y)
  }

  // ------------------------------------------------------------------ periods

  function Label(f: Frequency, year: int, index: nat): string {
    if f == Quarterly then YearText(year) + "-Q" + Numeral(index + 1)
    else YearText(year) + "-" + Money.PadStart(Numeral(index + 1), 2)
  }

  /** `periodAt` */
  function PeriodAt(f: Frequency, year: int, index: nat): Period {
    var months := MonthsPerPeriod(f);
    var start := index * months;
    Period(f, Label(f, year, index), FirstOfMonth(year, start), FirstOfMonth(year, start + months) - 1)
  }

  /** Period `i` of a year. */
  predicate InYear(f: Frequency, i: nat) {
    i * MonthsPerPeriod(f) + MonthsPerPeriod(f) <= 12
  }

  function IndexOf(f: Frequency, x: Date): (i: nat)
    requires 1 <= x.m <= 12
    ensures InYear(f, i)
  {
    (x.m - 1) / MonthsPerPeriod(f)
  }

  /** `periodContaining` */
  ghost function PeriodContaining(ms: int, f: Frequency): Period {
    PeriodAt(f, UtcDate(ms).y, IndexOf(f, UtcDate(ms)))
  }

  /** `nextPeriod` */
  ghost function NextPeriod(p: Period): Period {
    PeriodContaining(p.recordDate + 1, p.frequency)
  }

  /** `recordDateAfter` */
  ghost function RecordDateAfter(distributed: Period, current: Option<int>): int {
    var next := NextPeriod(distributed).recordDate;
    if current.Some? && current.value > next then current.value else next
  }

  /** `/^(\d{4})-Q([1-4])$/i` and `/^(\d{4})-(0[1-9]|1[0-2])$/` on the trimmed label. */
  function ParsePeriodLabel(text: string, f: Frequency): Option<Period> {
    var s := Money.Trim(text);
    if |s| != 7 || !AllDigits(s[..4]) || s[4] != '-' then None
    else if f == Quarterly then
      if s[5] !in "Qq" || !('1' <= s[6] <= '4') then None
      else Some(PeriodAt(f, NumeralValue(s[..4]), DigitValue(s[6]) - 1))
    else if AllDigits(s[5..]) && 1 <= NumeralValue(s[5..]) <= 12 then
      Some(PeriodAt(f, NumeralValue(s[..4]), NumeralValue(s[5..]) - 1))
    else None
  }

  // ------------------------------------------------------------------ tiling

  predicate Within(p: Period, ms: int) {
    p.start <= ms <= p.recordDate
  }

  lemma DayOfInstant(ms: int, x: Date)
    requires Valid(x)
    ensures DayNumber(x) * MS_PER_DAY <= ms <==> NotAfter(x, UtcDate(ms))
  {
    var day := ms / MS_PER_DAY;
    DayNumberOrders(x, UtcDate(ms));
    DayNumberOrders(UtcDate(ms), x);
    InstantAfterDay(DayNumber(x), ms);
  }

  lemma InstantAfterDay(d: int, ms: int)
    ensures d * MS_PER_DAY <= ms <==> d <= ms / MS_PER_DAY
  {
  }

  lemma ValidFirst(year: int, month: nat)
    requires month <= 12
    ensures Valid(MonthStart(year, month))
  {
  }

  lemma IndexIs(f: Frequency, x: Date, i: nat)
    requires 1 <= x.m <= 12
    ensures IndexOf(f, x) == i <==> i * MonthsPerPeriod(f) < x.m <= i * MonthsPerPeriod(f) + MonthsPerPeriod(f)
  {
    if f == Quarterly {
      assert (x.m - 1) / 3 == i <==> 3 * i <= x.m - 1 < 3 * i + 3;
    }
  }

  /** The months of a period, as the calendar orders them. */
  lemma MonthsOfPeriod(f: Frequency, y: int, i: nat, x: Date)
    requires InYear(f, i) && Valid(x)
    ensures var m := MonthsPerPeriod(f);
      NotAfter(MonthStart(y, i * m), x) && !NotAfter(MonthStart(y, i * m + m), x) <==> x.y == y && IndexOf(f, x) == i
  {
    hide IndexOf, MonthsPerPeriod;
    var m := MonthsPerPeriod(f);
    IndexIs(f, x, i);
    FirstNotAfter(y, i * m, x);
    FirstNotAfter(y, i * m + m, x);
  }

  lemma FirstNotAfter(y: int, month: nat, x: Date)
    requires month <= 12 && Valid(x)
    ensures NotAfter(MonthStart(y, month), x) <==> y < x.y || (y == x.y && month < x.m)
  {
  }

  /** The period of index `i` of the year `y` spans the months it names, in the year `Date.UTC` reads. */
  lemma SpanOf(f: Frequency, y: int, i: nat, u: int)
    requires InYear(f, i)
    ensures Valid(UtcDate(u))
    ensures Within(PeriodAt(f, y, i), u) <==> UtcDate(u).y == Reading(y) && IndexOf(f, UtcDate(u)) == i
  {
    hide DayNumber, Label, NotAfter, Reading;
    var m, c := MonthsPerPeriod(f), Reading(y);
    MonthsOfPeriod(f, c, i, UtcDate(u));
    ValidFirst(c, i * m);
    ValidFirst(c, i * m + m);
    DayOfInstant(u, MonthStart(c, i * m));
    DayOfInstant(u, MonthStart(c, i * m + m));
  }

  /** Which months: three in a quarter, one in a month; four and twelve of them make up the year. */
  lemma PeriodHoldsMonths(f: Frequency, y: int, i: nat, u: int)
    requires i < if f == Quarterly then 4 else 12
    ensures Within(PeriodAt(f, y, i), u) <==>
      && UtcDate(u).y == (if 0 <= y <= 99 then 1900 + y else y)
      && if f == Quarterly then 3 * i < UtcDate(u).m <= 3 * i + 3 else UtcDate(u).m == i + 1
  {
    hide PeriodAt, UtcDate, IndexOf, Within;
    SpanOf(f, y, i, u);
    IndexIs(f, UtcDate(u), i);
  }

  predicate SameSpan(p: Period, q: Period) {
    p.start == q.start && p.recordDate == q.recordDate
  }

  lemma SpanReads(f: Frequency, y: int, i: nat)
    ensures SameSpan(PeriodAt(f, y, i), PeriodAt(f, Reading(y), i))
  {
    hide DayNumber, Label;
  }

  lemma ReadingOf(y: int, z: int)
    ensures Reading(y) == z <==> (y == z && !TwoDigitYear(z)) || (TwoDigitYear(y) && y + 1900 == z)
  {
  }

  /** Which periods hold an instant, of all that can be named: its own, unless its UTC year is 0 to
      99, and the one of the same months named by the last two digits of a year from 1900 to 1999. */
  lemma PeriodsTile(f: Frequency, y: int, i: nat, u: int)
    requires InYear(f, i)
    ensures Valid(UtcDate(u))
    ensures var x := UtcDate(u);
      && (Within(PeriodContaining(u, f), u) <==> !TwoDigitYear(x.y))
      && (Within(PeriodAt(f, y, i), u) <==> !TwoDigitYear(x.y) && SameSpan(PeriodAt(f, y, i), PeriodContaining(u, f)))
      && (Within(PeriodAt(f, y, i), u) <==>
            i == IndexOf(f, x) && ((y == x.y && !TwoDigitYear(x.y)) || (TwoDigitYear(y) && y + 1900 == x.y)))
  {
    hide PeriodAt, Reading, UtcDate, IndexOf, InYear;
    SpanOf(f, y, i, u);
    var x := UtcDate(u);
    SpanOf(f, x.y, IndexOf(f, x), u);
    ReadingOf(y, x.y);
    ReadingOf(x.y, x.y);
    SpanReads(f, y, i);
    SpanReads(f, x.y, IndexOf(f, x));
  }

  /** Some other year and index name a period that holds the instant too. */
  ghost predicate NamedTwice(f: Frequency, u: int) {
    exists y: int, i: nat ::
      InYear(f, i) && (y != UtcDate(u).y || i != IndexOf(f, UtcDate(u))) && Within(PeriodAt(f, y, i), u)
  }

  /** That happens exactly in the years 1900 to 1999. */
  lemma NamedTwiceIff(f: Frequency, u: int)
    ensures NamedTwice(f, u) <==> 1900 <= UtcDate(u).y <= 1999
  {
    hide UtcDate, IndexOf, PeriodAt;
    PeriodsTile(f, 0, 0, u);
    var x := UtcDate(u);
    if NamedTwice(f, u) {
      var y: int, i: nat :| InYear(f, i) && (y != x.y || i != IndexOf(f, x)) && Within(PeriodAt(f, y, i), u);
      PeriodsTile(f, y, i, u);
    }
    if 1900 <= x.y <= 1999 {
      PeriodsTile(f, x.y - 1900, IndexOf(f, x), u);
      assert Within(PeriodAt(f, x.y - 1900, IndexOf(f, x)), u);
    }
  }

  /** Two periods share an instant exactly when they are the same months of the same year as read. */
  lemma PeriodsMeetIff(f: Frequency, y: int, i: nat, z: int, j: nat)
    requires InYear(f, i) && InYear(f, j)
    ensures (exists u :: Within(PeriodAt(f, y, i), u) && Within(PeriodAt(f, z, j), u))
       <==> Reading(y) == Reading(z) && i == j
  {
    hide PeriodAt, Reading, UtcDate, IndexOf, InYear;
    var p, q := PeriodAt(f, y, i), PeriodAt(f, z, j);
    if u :| Within(p, u) && Within(q, u) {
      SpanOf(f, y, i, u);
      SpanOf(f, z, j, u);
    }
    if Reading(y) == Reading(z) && i == j {
      SpanReads(f, y, i);
      SpanReads(f, z, j);
      PeriodNotEmpty(f, y, i);
      assert Within(p, p.start) && Within(q, p.start);
    }
  }

  /** New Year of the year 50 does not lie in its own period. */
  lemma YearFiftyIsMisplaced()
    ensures var t := DayNumber(Date(50, 1, 1)) * MS_PER_DAY;
      UtcDate(t) == Date(50, 1, 1) && !Within(PeriodContaining(t, Quarterly), t)
  {
    hide DayNumber, Within, PeriodContaining, UtcDate;
    StartOfDay(Date(50, 1, 1));
    PeriodsTile(Quarterly, 50, 0, DayNumber(Date(50, 1, 1)) * MS_PER_DAY);
  }

  // ------------------------------------------------------------------ the next period

  /** The day after a period's last. */
  function DayAfter(f: Frequency, y: int, i: nat): Date {
    MonthStart(Reading(y), i * MonthsPerPeriod(f) + MonthsPerPeriod(f))
  }

  /** It is the first of a month that starts a period. */
  lemma DayAfterStarts(f: Frequency, y: int, i: nat)
    requires InYear(f, i)
    ensures var x := DayAfter(f, y, i);
      Valid(x) && x.d == 1 && IndexOf(f, x) * MonthsPerPeriod(f) == x.m - 1 && MonthStart(x.y, x.m - 1) == x
  {
    if f == Quarterly { assert 3 * i + 3 == 12 || (3 * i + 3) / 3 == i + 1; }
  }

  lemma StartOfDay(x: Date)
    requires Valid(x)
    ensures UtcDate(DayNumber(x) * MS_PER_DAY) == x
  {
    assert DayNumber(x) * MS_PER_DAY / MS_PER_DAY == DayNumber(x);
    DateOfDayInverts(x);
  }

  /** The next period starts one millisecond after the record date, exactly when that instant's
      year is not taken for 19xx. */
  lemma NextFollows(f: Frequency, y: int, i: nat)
    requires InYear(f, i)
    ensures var p := PeriodAt(f, y, i);
      NextPeriod(p).start == p.recordDate + 1 <==> !TwoDigitYear(UtcDate(p.recordDate + 1).y)
  {
    hide UtcDate, DayNumber, Label, IndexOf, MonthsPerPeriod, Valid;
    var first, t := DayAfter(f, y, i), PeriodAt(f, y, i).recordDate + 1;
    DayAfterStarts(f, y, i);
    StartOfDay(first);
    RecordDateIs(f, y, i);
    IndexFits(f, first);
    PeriodsTile(f, first.y, IndexOf(f, first), t);
    PeriodNotEmpty(f, first.y, IndexOf(f, first));
    if !TwoDigitYear(first.y) { StartIs(f, first.y, IndexOf(f, first)); }
  }

  lemma RecordDateIs(f: Frequency, y: int, i: nat)
    requires InYear(f, i)
    ensures var x := DayAfter(f, y, i); 1 <= x.m <= 12 && PeriodAt(f, y, i).recordDate + 1 == DayNumber(x) * MS_PER_DAY
  {
    hide DayNumber, Label;
  }

  lemma StartIs(f: Frequency, y: int, i: nat)
    requires InYear(f, i) && !TwoDigitYear(y)
    ensures PeriodAt(f, y, i).start == DayNumber(MonthStart(y, i * MonthsPerPeriod(f))) * MS_PER_DAY
  {
    hide DayNumber, Label;
  }

  lemma IndexFits(f: Frequency, x: Date)
    requires Valid(x)
    ensures 1 <= x.m <= 12 && InYear(f, IndexOf(f, x))
  {
  }

  /** No period is empty. */
  lemma PeriodNotEmpty(f: Frequency, y: int, i: nat)
    requires InYear(f, i)
    ensures PeriodAt(f, y, i).start < PeriodAt(f, y, i).recordDate
  {
    hide DayNumber, Label;
    var m := MonthsPerPeriod(f);
    var c := Reading(y);
    ValidFirst(c, i * m);
    ValidFirst(c, i * m + m);
    FirstNotAfter(c, i * m + m, MonthStart(c, i * m));
    DayNumberOrders(MonthStart(c, i * m), MonthStart(c, i * m + m));
  }

  // ------------------------------------------------------------------ labels

  lemma TrimLabel(s: string)
    requires s != "" && (IsDigit(s[0]) || s[0] == '-') && IsDigit(s[|s| - 1])
    ensures Money.Trim(s) == s
  {
    Money.TrimKeeps(s);
  }

  lemma {:induction false} NumeralDigits(n: nat, k: nat)
    requires k > 0 && Pow10(k - 1) <= n
    ensures |Numeral(n)| >= k
  {
    if k > 1 {
      assert Pow10(k - 1) >= 10;
      NumeralDigits(n / 10, k - 1);
    }
  }

  /** Four digits exactly for the years 1000 to 9999. */
  lemma FourDigits(y: nat)
    ensures |Numeral(y)| == 4 <==> 1000 <= y <= 9999
  {
    assert Pow10(3) == 1000 && Pow10(4) == 10_000;
    if y < 1000 { NumeralLength(y, 3); } else { NumeralDigits(y, 4); }
    if y <= 9999 { NumeralLength(y, 4); } else { NumeralDigits(y, 5); }
  }

  lemma SmallNumeral(n: nat)
    requires n < 100
    ensures n < 10 ==> Numeral(n) == [DigitChar(n)]
    ensures n >= 10 ==> Numeral(n) == [DigitChar(n / 10), DigitChar(n % 10)]
    ensures |Money.PadStart(Numeral(n), 2)| == 2 && AllDigits(Money.PadStart(Numeral(n), 2))
    ensures NumeralValue(Money.PadStart(Numeral(n), 2)) == n
  {
    NumeralRoundTrip(n);
    if n < 10 {
      ZerosAreZero(1);
      NumeralValueConcat(Zeros(1), Numeral(n));
    } else {
      assert Numeral(n) == Numeral(n / 10) + [DigitChar(n % 10)];
    }
  }

  /** The text after the year. */
  function Tail(f: Frequency, i: nat): string {
    if f == Quarterly then "-Q" + Numeral(i + 1) else "-" + Money.PadStart(Numeral(i + 1), 2)
  }

  lemma LabelShape(f: Frequency, y: int, i: nat)
    requires InYear(f, i)
    ensures Label(f, y, i) == YearText(y) + Tail(f, i) && |Tail(f, i)| == 3
    ensures Money.Trim(Label(f, y, i)) == Label(f, y, i)
  {
    SmallNumeral(i + 1);
    var s := Label(f, y, i);
    assert s == YearText(y) + Tail(f, i);
    assert s[0] == YearText(y)[0] && s[|s| - 1] == Tail(f, i)[2];
    TrimLabel(s);
  }

  /** A period's label reads back as that period exactly for the years 1000 to 9999. */
  lemma LabelsRoundTrip(f: Frequency, y: int, i: nat)
    requires InYear(f, i)
    ensures ParsePeriodLabel(Label(f, y, i), f) == Some(PeriodAt(f, y, i)) <==> 1000 <= y <= 9999
  {
    LabelShape(f, y, i);
    var s := Label(f, y, i);
    if y >= 0 {
      FourDigits(y);
      if 1000 <= y <= 9999 { LabelReads(f, y, i); }
    } else if |s| == 7 {
      assert s[..4][0] == '-' && !IsDigit(s[..4][0]);
    }
  }

  lemma LabelReads(f: Frequency, y: nat, i: nat)
    requires InYear(f, i) && 1000 <= y <= 9999
    ensures ParsePeriodLabel(Label(f, y, i), f) == Some(PeriodAt(f, y, i))
  {
    hide PeriodAt;
    LabelShape(f, y, i);
    FourDigits(y);
    NumeralRoundTrip(y);
    SmallNumeral(i + 1);
    var s := Label(f, y, i);
    assert s[..4] == Numeral(y) && s[4..] == Tail(f, i);
    assert s[4] == Tail(f, i)[0] && s[5] == Tail(f, i)[1] && s[6] == Tail(f, i)[2];
    if f == Monthly { assert s[5..] == Money.PadStart(Numeral(i + 1), 2); }
  }

  predicate YearDigits(s: string) {
    |s| == 7 && IsDigit(s[0]) && IsDigit(s[1]) && IsDigit(s[2]) && IsDigit(s[3]) && s[4] == '-'
  }

  /** Which labels are read, by their characters: "2026-Q3", in either case, and "2026-07". */
  lemma ParsesIff(text: string, f: Frequency)
    ensures ParsePeriodLabel(text, f).Some? <==>
      var s := Money.Trim(text);
      && YearDigits(s)
      && match f
         case Quarterly => (s[5] == 'Q' || s[5] == 'q') && '1' <= s[6] <= '4'
         case Monthly => (s[5] == '0' && '1' <= s[6] <= '9') || (s[5] == '1' && '0' <= s[6] <= '2')
  {
    hide PeriodAt, Money.Trim;
    var s := Money.Trim(text);
    if |s| == 7 {
      assert AllDigits(s[..4]) <==> IsDigit(s[0]) && IsDigit(s[1]) && IsDigit(s[2]) && IsDigit(s[3]) by {
        FourAre(s[..4]);
      }
      TwoAre(s[5..]);
    }
  }

  lemma FourAre(s: string)
    requires |s| == 4
    ensures AllDigits(s) <==> IsDigit(s[0]) && IsDigit(s[1]) && IsDigit(s[2]) && IsDigit(s[3])
  {
  }

  lemma TwoAre(s: string)
    requires |s| == 2
    ensures AllDigits(s) <==> IsDigit(s[0]) && IsDigit(s[1])
    ensures AllDigits(s) ==> NumeralValue(s) == 10 * DigitValue(s[0]) + DigitValue(s[1])
  {
    if AllDigits(s) {
      assert s[..1] == [s[0]] && s[..1][..0] == [] && s[..|s| - 1] == s[..1];
      assert NumeralValue(s[..1]) == DigitValue(s[0]);
    }
  }

  /** The second name a caller can use: "0050-Q1" is read as the first quarter of the year 50, which
      is the span of 1950-Q1. */
  lemma TwoDigitLabelReads(f: Frequency, y: nat, i: nat)
    requires InYear(f, i) && TwoDigitYear(y)
    ensures ParsePeriodLabel(Money.PadStart(Numeral(y), 4) + Tail(f, i), f) == Some(PeriodAt(f, y, i))
    ensures SameSpan(PeriodAt(f, y, i), PeriodAt(f, 1900 + y, i))
  {
    hide PeriodAt;
    PaddedYear(y);
    SmallNumeral(i + 1);
    SpanReads(f, y, i);
    var digits, tail := Money.PadStart(Numeral(y), 4), Tail(f, i);
    var s := digits + tail;
    TrimLabel(s);
    assert s[..4] == digits && s[4..] == tail && s[4] == tail[0] && s[5] == tail[1] && s[6] == tail[2];
    if f == Monthly { assert s[5..] == Money.PadStart(Numeral(i + 1), 2); }
  }

  lemma PaddedYear(y: nat)
    requires y < 100
    ensures var s := Money.PadStart(Numeral(y), 4); |s| == 4 && AllDigits(s) && NumeralValue(s) == y
  {
    assert Pow10(2) == 100;
    NumeralLength(y, 2);
    NumeralRoundTrip(y);
    var k := 4 - |Numeral(y)|;
    ZerosAreZero(k);
    NumeralValueConcat(Zeros(k), Numeral(y));
  }

  // ------------------------------------------------------------------ record dates

  /** The record date an issuance is left with after a sequence of paid periods. */
  ghost function RecordDates(paid: seq<Period>, current: Option<int>): Option<int> {
    if paid == [] then current
    else Some(RecordDateAfter(paid[|paid| - 1], RecordDates(paid[..|paid| - 1], current)))
  }

  /** It never moves backwards, whatever was paid in whatever order, and ends at the latest of the
      date it had and the dates due after the paid periods. */
  lemma {:induction false} RecordDateNeverMovesBack(paid: seq<Period>, current: Option<int>)
    ensures current.Some? ==> RecordDates(paid, current).Some? && RecordDates(paid, current).value >= current.value
    ensures forall k :: 0 <= k < |paid| ==>
      RecordDates(paid, current).Some? && RecordDates(paid, current).value >= NextPeriod(paid[k]).recordDate
    ensures RecordDates(paid, current) == current
      || exists k :: 0 <= k < |paid| && RecordDates(paid, current) == Some(NextPeriod(paid[k]).recordDate)
  {
    hide NextPeriod;
    if paid != [] {
      var n := |paid| - 1;
      RecordDateNeverMovesBack(paid[..n], current);
      if RecordDates(paid[..n], current) != current {
        var k :| 0 <= k < n && RecordDates(paid[..n], current) == Some(NextPeriod(paid[..n][k]).recordDate);
        assert paid[k] == paid[..n][k];
      }
      forall k | 0 <= k < |paid| ensures RecordDates(paid, current).value >= NextPeriod(paid[k]).recordDate {
        if k < n { assert paid[k] == paid[..n][k]; }
      }
    }
  }
}
