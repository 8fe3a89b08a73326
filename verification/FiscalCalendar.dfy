/** The fiscal calendar: years of twelve months, made from any first of a month, and
    why their periods tile time. */
module FiscalCalendar {
  import opened Basics
  import opened LedgerTables
  import opened Ledger

  datatype Date = Date(year: int, month: int, day: int)

  predicate Leap(year: int) {
    year % 4 == 0 && (year % 100 != 0 || year % 400 == 0)
  }

  /** `calendar.monthrange`. */
  function DaysIn(year: int, month: int): int {
    if month == 2 then (if Leap(year) then 29 else 28)
    else if month == 4 || month == 6 || month == 9 || month == 11 then 30
    else 31
  }

  /** The lengths of the months, and of February in leap years, common years, and centuries. */
  lemma MonthLengths()
    ensures seq(12, i => DaysIn(2023, i + 1)) == [31, 28, 31, 30, 31, 30, 31, 31, 30, 31, 30, 31]
    ensures DaysIn(2024, 2) == 29 && DaysIn(1900, 2) == 28 && DaysIn(2000, 2) == 29
    ensures forall year, month :: month != 2 ==> DaysIn(year, month) == DaysIn(2023, month)
  {
  }

  predicate OnCalendar(d: Date) {
    1 <= d.month <= 12 && 1 <= d.day <= DaysIn(d.year, d.month)
  }

  function MonthOf(d: Date): int {
    12 * d.year + d.month - 1
  }

  /** A date's place in time, as the ledger orders days. */
  function DayOf(d: Date): Day {
    32 * MonthOf(d) + d.day
  }

  /** Days are ordered by month and then within it, and no two dates share one. */
  lemma DaysInOrder(a: Date, b: Date)
    requires OnCalendar(a) && OnCalendar(b)
    ensures DayOf(a) <= DayOf(b) <==> MonthOf(a) < MonthOf(b) || (MonthOf(a) == MonthOf(b) && a.day <= b.day)
    ensures DayOf(a) == DayOf(b) <==> a == b
  {
  }

  /** `_add_months`: the first of the month so many later. */
  function AddMonths(anchor: Date, months: int): Date {
    var total := anchor.month - 1 + months;
    Date(anchor.year + total / 12, total % 12 + 1, 1)
  }

  lemma MonthsAdd(anchor: Date, months: int)
    ensures OnCalendar(AddMonths(anchor, months)) && MonthOf(AddMonths(anchor, months)) == MonthOf(anchor) + months
  {
  }

  /** `_month_end`. */
  function MonthEnd(d: Date): Date {
    Date(d.year, d.month, DaysIn(d.year, d.month))
  }

  /** The next day of the calendar. */
  function NextDay(d: Date): Date {
    if d.day < DaysIn(d.year, d.month) then d.(day := d.day + 1) else AddMonths(d, 1)
  }

  predicate MonthStart(d: Date) {
    OnCalendar(d) && d.day == 1
  }

  // -------------------------------------------------------------------- years

  datatype PeriodRow = PeriodRow(number: int, starts: Date, ends: Date)

  datatype YearRow = YearRow(starts: Date, ends: Date, periods: seq<PeriodRow>)

  function PeriodOf(starts: Date, index: int): PeriodRow {
    PeriodRow(index + 1, AddMonths(starts, index), MonthEnd(AddMonths(starts, index)))
  }

  /** `create_fiscal_year`, as the row it makes. */
  function MadeYear(starts: Date): YearRow {
    YearRow(starts, MonthEnd(AddMonths(starts, 11)), seq(12, i => PeriodOf(starts, i)))
  }

  /** A year as it is made. */
  predicate IsYear(y: YearRow) {
    && MonthStart(y.starts)
    && y.ends == MonthEnd(AddMonths(y.starts, 11))
    && |y.periods| == 12
    && forall i :: 0 <= i < 12 ==> y.periods[i] == PeriodOf(y.starts, i)
  }

  predicate InYear(y: YearRow, d: Date) {
    DayOf(y.starts) <= DayOf(d) <= DayOf(y.ends)
  }

  predicate InPeriod(p: PeriodRow, d: Date) {
    DayOf(p.starts) <= DayOf(d) <= DayOf(p.ends)
  }

  lemma SameMonth(a: Date, b: Date)
    requires OnCalendar(a) && OnCalendar(b) && MonthOf(a) == MonthOf(b)
    ensures a.year == b.year && a.month == b.month
  {
  }

  /** From the first of one month to the end of another lie the months between. */
  lemma MonthsCover(first: Date, last: Date, d: Date)
    requires MonthStart(first) && OnCalendar(last) && OnCalendar(d)
    ensures DayOf(first) <= DayOf(d) <= DayOf(MonthEnd(last)) <==> MonthOf(first) <= MonthOf(d) <= MonthOf(last)
  {
    DaysInOrder(first, d);
    DaysInOrder(d, MonthEnd(last));
    if MonthOf(d) == MonthOf(last) {
      SameMonth(d, last);
    }
  }

  /** A year covers its twelve months, and each period its own. */
  lemma YearCoversMonths(y: YearRow, d: Date)
    requires IsYear(y) && OnCalendar(d)
    ensures InYear(y, d) <==> MonthOf(y.starts) <= MonthOf(d) < MonthOf(y.starts) + 12
    ensures forall i :: 0 <= i < 12 ==> (InPeriod(y.periods[i], d) <==> MonthOf(d) == MonthOf(y.starts) + i)
  {
    MonthsAdd(y.starts, 11);
    MonthsCover(y.starts, AddMonths(y.starts, 11), d);
    forall i | 0 <= i < 12 ensures InPeriod(y.periods[i], d) <==> MonthOf(d) == MonthOf(y.starts) + i {
      var first := AddMonths(y.starts, i);
      MonthsAdd(y.starts, i);
      assert y.periods[i] == PeriodOf(y.starts, i);
      MonthsCover(first, first, d);
    }
  }

  /** The twelve periods tile the year: a date in it is in exactly one of them, each
      begins the day after the one before, and they begin and end with the year. */
  lemma PeriodsTile(y: YearRow, d: Date)
    requires IsYear(y) && OnCalendar(d)
    ensures InYear(y, d) <==> exists i :: 0 <= i < 12 && InPeriod(y.periods[i], d)
    ensures forall i, j :: 0 <= i < 12 && 0 <= j < 12 && InPeriod(y.periods[i], d) && InPeriod(y.periods[j], d) ==> i == j
    ensures forall i :: 0 <= i < 11 ==> NextDay(y.periods[i].ends) == y.periods[i + 1].starts
    ensures y.periods[0].starts == y.starts && y.periods[11].ends == y.ends
  {
    YearCoversMonths(y, d);
    if InYear(y, d) {
      assert InPeriod(y.periods[MonthOf(d) - MonthOf(y.starts)], d);
    }
    forall i | 0 <= i < 11 ensures NextDay(y.periods[i].ends) == y.periods[i + 1].starts {
      assert y.periods[i] == PeriodOf(y.starts, i) && y.periods[i + 1] == PeriodOf(y.starts, i + 1);
      MonthsAdd(y.starts, i);
      MonthsAdd(y.starts, i + 1);
      NextMonthStarts(AddMonths(y.starts, i), AddMonths(y.starts, i + 1));
    }
    assert y.periods[0] == PeriodOf(y.starts, 0) && y.periods[11] == PeriodOf(y.starts, 11);
  }

  lemma NextMonthStarts(d: Date, next: Date)
    requires MonthStart(d) && MonthStart(next) && MonthOf(next) == MonthOf(d) + 1
    ensures NextDay(MonthEnd(d)) == next
  {
    MonthsAdd(MonthEnd(d), 1);
  }

  // ---------------------------------------------------------- years together

  predicate AllYears(years: seq<YearRow>) {
    forall i :: 0 <= i < |years| ==> IsYear(years[i])
  }

  /** Two firsts of a month at least a year from each other. */
  predicate YearApart(a: Date, b: Date) {
    MonthOf(a) - MonthOf(b) >= 12 || MonthOf(b) - MonthOf(a) >= 12
  }

  ghost predicate ShareDay(a: YearRow, b: YearRow) {
    exists d :: OnCalendar(d) && InYear(a, d) && InYear(b, d)
  }

  /** Two years share a day exactly when they begin less than a year from each other. */
  lemma YearsShareDayIff(a: YearRow, b: YearRow)
    requires IsYear(a) && IsYear(b)
    ensures ShareDay(a, b) <==> !YearApart(a.starts, b.starts)
  {
    if d :| OnCalendar(d) && InYear(a, d) && InYear(b, d) {
      YearCoversMonths(a, d);
      YearCoversMonths(b, d);
    }
    if !YearApart(a.starts, b.starts) {
      var later := if MonthOf(a.starts) < MonthOf(b.starts) then b.starts else a.starts;
      YearCoversMonths(a, later);
      YearCoversMonths(b, later);
    }
  }

  /** No date is in two years. */
  ghost predicate NoDayTwice(years: seq<YearRow>) {
    forall i, j :: 0 <= i < j < |years| ==> !ShareDay(years[i], years[j])
  }

  predicate AllApart(years: seq<YearRow>) {
    forall i, j :: 0 <= i < j < |years| ==> YearApart(years[i].starts, years[j].starts)
  }

  lemma NoDayTwiceIff(years: seq<YearRow>)
    requires AllYears(years)
    ensures NoDayTwice(years) <==> AllApart(years)
  {
    forall i, j | 0 <= i < j < |years| ensures ShareDay(years[i], years[j]) <==> !YearApart(years[i].starts, years[j].starts) {
      YearsShareDayIff(years[i], years[j]);
    }
  }

  /** While no date is in two years, no date is in two periods either. */
  lemma OnePeriodAtMost(years: seq<YearRow>, d: Date, i: nat, j: nat, p: nat, q: nat)
    requires AllYears(years) && NoDayTwice(years) && OnCalendar(d) && i < |years| && j < |years| && p < 12 && q < 12
    ensures InPeriod(years[i].periods[p], d) && InPeriod(years[j].periods[q], d) ==> i == j && p == q
  {
    YearCoversMonths(years[i], d);
    YearCoversMonths(years[j], d);
    assert InYear(years[i], d) && InYear(years[j], d) ==> ShareDay(years[i], years[j]) && ShareDay(years[j], years[i]);
  }

  /** A new year keeps the days apart exactly when it begins a year or more from each of
      the others. */
  lemma NewYearFitsIff(years: seq<YearRow>, y: YearRow)
    requires AllYears(years) && IsYear(y)
    ensures NoDayTwice(years + [y]) <==> NoDayTwice(years) && forall i :: 0 <= i < |years| ==> YearApart(years[i].starts, y.starts)
  {
    var all := years + [y];
    NoDayTwiceIff(years);
    NoDayTwiceIff(all);
    if AllApart(all) {
      forall i, j | 0 <= i < j < |years| ensures YearApart(years[i].starts, years[j].starts) {
        assert all[i] == years[i] && all[j] == years[j];
      }
      forall i | 0 <= i < |years| ensures YearApart(years[i].starts, y.starts) {
        assert all[i] == years[i] && all[|years|] == y;
      }
    }
  }

  /** Every year of an organization begins in the same month, and no two together. */
  predicate Aligned(years: seq<YearRow>, month: int) {
    && (forall i :: 0 <= i < |years| ==> IsYear(years[i]) && years[i].starts.month == month)
    && (forall i, j :: 0 <= i < j < |years| ==> years[i].starts != years[j].starts)
  }

  /** Then no two years share a day. */
  lemma YearsDisjoint(years: seq<YearRow>, month: int)
    requires Aligned(years, month)
    ensures NoDayTwice(years)
  {
    forall i, j | 0 <= i < j < |years| ensures YearApart(years[i].starts, years[j].starts) {
      assert MonthOf(years[i].starts) - MonthOf(years[j].starts) == 12 * (years[i].starts.year - years[j].starts.year);
    }
    NoDayTwiceIff(years);
  }

  // --------------------------------------------------------------- the calls

  /** The first of the fiscal year a date belongs to. */
  function StartFor(target: Date, month: int): Date {
    Date(if target.month >= month then target.year else target.year - 1, month, 1)
  }

  lemma StartForCovers(target: Date, month: int, y: YearRow)
    requires OnCalendar(target) && 1 <= month <= 12 && IsYear(y) && y.starts == StartFor(target, month)
    ensures InYear(y, target)
  {
    YearCoversMonths(y, target);
  }

  /** The day after a fiscal year is the first of one that begins in the same month. */
  lemma NextYearStarts(y: YearRow)
    requires IsYear(y)
    ensures NextDay(y.ends) == Date(y.starts.year + 1, y.starts.month, 1)
  {
    MonthsAdd(y.starts, 11);
    MonthsAdd(y.starts, 12);
    NextMonthStarts(AddMonths(y.starts, 11), AddMonths(y.starts, 12));
  }

  predicate Covered(years: seq<YearRow>, target: Date) {
    exists i :: 0 <= i < |years| && InYear(years[i], target)
  }

  /** `seed_fiscal_calendar`. */
  function Seeded(years: seq<YearRow>, month: int, today: Date): seq<YearRow> {
    if years != [] then years else [MadeYear(StartFor(today, month))]
  }

  /** `ensure_fiscal_year_for`. */
  function Ensured(years: seq<YearRow>, target: Date, month: int): seq<YearRow> {
    if Covered(years, target) then years else years + [MadeYear(StartFor(target, month))]
  }

  /** The year that ends last. */
  function Latest(years: seq<YearRow>): (y: YearRow)
    requires years != []
    ensures y in years && forall i :: 0 <= i < |years| ==> DayOf(years[i].ends) <= DayOf(y.ends)
  {
    if |years| == 1 then years[0]
    else
      var front := Latest(years[..|years| - 1]);
      if DayOf(front.ends) < DayOf(years[|years| - 1].ends) then years[|years| - 1] else front
  }

  /** `create_next_fiscal_year`. */
  function Extended(years: seq<YearRow>): seq<YearRow> {
    if years == [] then years else years + [MadeYear(NextDay(Latest(years).ends))]
  }

  lemma MadeIsYear(starts: Date)
    requires MonthStart(starts)
    ensures IsYear(MadeYear(starts))
  {
  }

  lemma OnlyMade(y: YearRow)
    requires IsYear(y)
    ensures y == MadeYear(y.starts)
  {
    assert y.periods == MadeYear(y.starts).periods;
  }

  /** The day after a year begins a year or more after any year that ends no later. */
  lemma NextYearApart(y: YearRow, last: YearRow)
    requires IsYear(y) && IsYear(last) && DayOf(y.ends) <= DayOf(last.ends)
    ensures MonthStart(NextDay(last.ends)) && DayOf(y.ends) < DayOf(NextDay(last.ends)) && YearApart(y.starts, NextDay(last.ends))
  {
    NextYearStarts(last);
    MonthsAdd(y.starts, 11);
    MonthsAdd(last.starts, 11);
    DaysInOrder(y.ends, last.ends);
  }

  lemma NextIsApart(years: seq<YearRow>)
    requires AllYears(years) && years != []
    ensures IsYear(MadeYear(NextDay(Latest(years).ends)))
    ensures forall i :: 0 <= i < |years| ==> YearApart(years[i].starts, MadeYear(NextDay(Latest(years).ends)).starts)
  {
    var last := Latest(years);
    assert IsYear(last);
    NextYearApart(last, last);
    MadeIsYear(NextDay(last.ends));
    forall i | 0 <= i < |years| ensures YearApart(years[i].starts, NextDay(last.ends)) {
      NextYearApart(years[i], last);
    }
  }

  lemma NextIsAfter(years: seq<YearRow>)
    requires AllYears(years) && years != []
    ensures MonthStart(NextDay(Latest(years).ends))
    ensures forall i :: 0 <= i < |years| ==> DayOf(years[i].ends) < DayOf(NextDay(Latest(years).ends))
  {
    var last := Latest(years);
    assert IsYear(last);
    NextYearApart(last, last);
    forall i | 0 <= i < |years| ensures DayOf(years[i].ends) < DayOf(NextDay(last.ends)) {
      NextYearApart(years[i], last);
    }
  }

  lemma AddedApart(years: seq<YearRow>, y: YearRow)
    requires AllYears(years) && IsYear(y) && forall i :: 0 <= i < |years| ==> YearApart(years[i].starts, y.starts)
    ensures AllYears(years + [y]) && (NoDayTwice(years + [y]) <==> NoDayTwice(years))
  {
    NewYearFitsIff(years, y);
  }

  /** The next year comes a year or more after every other, whatever their months. */
  lemma ExtendedFits(years: seq<YearRow>)
    requires AllYears(years) && years != []
    ensures MonthStart(NextDay(Latest(years).ends)) && AllYears(Extended(years))
    ensures forall i :: 0 <= i < |years| ==> DayOf(years[i].ends) < DayOf(NextDay(Latest(years).ends))
    ensures NoDayTwice(Extended(years)) <==> NoDayTwice(years)
  {
    NextIsAfter(years);
    NextIsApart(years);
    AddedApart(years, MadeYear(NextDay(Latest(years).ends)));
  }

  /** Making sure of a date keeps the days apart exactly when the date is covered, or the
      year it belongs to begins a year or more from each of the others. */
  predicate Fits(years: seq<YearRow>, target: Date, month: int) {
    Covered(years, target) || forall i :: 0 <= i < |years| ==> YearApart(years[i].starts, StartFor(target, month))
  }

  lemma EnsuredFitsIff(years: seq<YearRow>, target: Date, month: int)
    requires AllYears(years) && OnCalendar(target) && 1 <= month <= 12
    ensures AllYears(Ensured(years, target, month))
    ensures NoDayTwice(Ensured(years, target, month)) <==> NoDayTwice(years) && Fits(years, target, month)
  {
    MadeIsYear(StartFor(target, month));
    NewYearFitsIff(years, MadeYear(StartFor(target, month)));
  }

  /** With the month the others have it always fits. */
  lemma AlignedFits(years: seq<YearRow>, target: Date, month: int)
    requires Aligned(years, month) && OnCalendar(target) && 1 <= month <= 12
    ensures Fits(years, target, month) && Aligned(Ensured(years, target, month), month)
  {
    var starts := StartFor(target, month);
    MadeIsYear(starts);
    forall i | 0 <= i < |years| && !Covered(years, target) ensures years[i].starts != starts && YearApart(years[i].starts, starts) {
      if years[i].starts == starts {
        StartForCovers(target, month, years[i]);
      }
      assert MonthOf(years[i].starts) - MonthOf(starts) == 12 * (years[i].starts.year - starts.year);
    }
  }

  /** A change of start month can make it not fit: an organization that covered a
      September with a year from July, and then, its year moved to January, the March
      before, has two years for that September. */
  lemma ChangedMonthOverlaps()
    ensures var once := Ensured([], Date(2024, 9, 1), 7);
            var twice := Ensured(once, Date(2024, 3, 15), 1);
            && NoDayTwice(once) && !Fits(once, Date(2024, 3, 15), 1) && !NoDayTwice(twice)
            && |twice| == 2 && InYear(twice[0], Date(2024, 9, 1)) && InYear(twice[1], Date(2024, 9, 1))
  {
    var september, march := Date(2024, 9, 1), Date(2024, 3, 15);
    var once := Ensured([], september, 7);
    EnsuredFitsIff([], september, 7);
    YearCoversMonths(once[0], march);
    EnsuredFitsIff(once, march, 1);
    var twice := Ensured(once, march, 1);
    YearCoversMonths(twice[0], september);
    YearCoversMonths(twice[1], september);
  }

  // ------------------------------------------------------------- whole calendars

  /** `delete_fiscal_year`: a year goes with its periods, unless it has postings or is the
      only one. */
  function Removed(years: seq<YearRow>, index: nat, used: bool): seq<YearRow> {
    if used || |years| <= 1 || index >= |years| then years else years[..index] + years[index + 1..]
  }

  /** Where a year that remains was before. */
  function WasAt(index: nat, i: nat): nat {
    if i < index then i else i + 1
  }

  /** What remains shares no day exactly when no two of the years but the deleted one do. */
  lemma RemovedFitsIff(years: seq<YearRow>, index: nat)
    requires AllYears(years) && |years| > 1 && index < |years|
    ensures AllYears(Removed(years, index, false))
    ensures NoDayTwice(Removed(years, index, false)) <==>
              forall i, j :: 0 <= i < j < |years| && i != index && j != index ==> YearApart(years[i].starts, years[j].starts)
  {
    var rest := Removed(years, index, false);
    assert forall i :: 0 <= i < |rest| ==> rest[i] == years[WasAt(index, i)];
    NoDayTwiceIff(rest);
    if AllApart(rest) {
      forall i, j | 0 <= i < j < |years| && i != index && j != index ensures YearApart(years[i].starts, years[j].starts) {
        var x, y := if i < index then i else i - 1, if j < index then j else j - 1;
        assert rest[x] == years[i] && rest[y] == years[j];
      }
    }
  }

  /** The calls that make years, each with the start month of its moment, and the one that
      deletes one, which has postings or not. */
  datatype CalendarOp = SeedOp(month: int, today: Date) | NextOp | EnsureOp(target: Date, month: int) | DeleteOp(index: nat, used: bool)

  predicate Callable(op: CalendarOp) {
    match op
    case SeedOp(month, today) => OnCalendar(today) && 1 <= month <= 12
    case NextOp => true
    case EnsureOp(target, month) => OnCalendar(target) && 1 <= month <= 12
    case DeleteOp(_, _) => true
  }

  function CalendarStep(years: seq<YearRow>, op: CalendarOp): seq<YearRow> {
    match op
    case SeedOp(month, today) => Seeded(years, month, today)
    case NextOp => Extended(years)
    case EnsureOp(target, month) => Ensured(years, target, month)
    case DeleteOp(index, used) => Removed(years, index, used)
  }

  function CalendarRun(years: seq<YearRow>, ops: seq<CalendarOp>): seq<YearRow> {
    if ops == [] then years else CalendarStep(CalendarRun(years, ops[..|ops| - 1]), ops[|ops| - 1])
  }

  /** What a caller can check before each call. */
  predicate FitsNow(years: seq<YearRow>, op: CalendarOp) {
    op.EnsureOp? ==> Fits(years, op.target, op.month)
  }

  lemma StepFitsIff(years: seq<YearRow>, op: CalendarOp)
    requires AllYears(years) && Callable(op) && !op.DeleteOp?
    ensures AllYears(CalendarStep(years, op))
    ensures NoDayTwice(CalendarStep(years, op)) <==> NoDayTwice(years) && FitsNow(years, op)
  {
    match op
    case SeedOp(month, today) => MadeIsYear(StartFor(today, month));
    case NextOp => if years != [] { ExtendedFits(years); }
    case EnsureOp(target, month) => EnsuredFitsIff(years, target, month);
  }

  /** A call of a run fitted when it was made. */
  predicate FittedAt(ops: seq<CalendarOp>, n: nat)
    requires n < |ops|
  {
    FitsNow(CalendarRun([], ops[..n]), ops[n])
  }

  predicate AllFitted(ops: seq<CalendarOp>) {
    forall n: nat :: n < |ops| ==> FittedAt(ops, n)
  }

  lemma AllFittedLast(ops: seq<CalendarOp>)
    requires ops != []
    ensures var last := |ops| - 1;
            AllFitted(ops) <==> AllFitted(ops[..last]) && FitsNow(CalendarRun([], ops[..last]), ops[last])
  {
    var last := |ops| - 1;
    forall n: nat | n < last ensures FittedAt(ops[..last], n) == FittedAt(ops, n) {
      assert ops[..last][..n] == ops[..n];
    }
    assert FittedAt(ops, last) == FitsNow(CalendarRun([], ops[..last]), ops[last]);
  }

  /** Where no year is deleted, the years made over any run of these calls and any changes
      of the start month share no day exactly when every call that made sure of a date
      fitted. */
  lemma {:induction false} RunFitsIff(ops: seq<CalendarOp>)
    requires forall n :: 0 <= n < |ops| ==> Callable(ops[n]) && !ops[n].DeleteOp?
    ensures AllYears(CalendarRun([], ops))
    ensures NoDayTwice(CalendarRun([], ops)) <==> AllFitted(ops)
  {
    if ops != [] {
      var last := |ops| - 1;
      RunFitsIff(ops[..last]);
      StepFitsIff(CalendarRun([], ops[..last]), ops[last]);
      AllFittedLast(ops);
    }
  }

  /** Which call made each of the years that remain. */
  function Makers(ops: seq<CalendarOp>): seq<nat> {
    if ops == [] then []
    else
      var n := |ops| - 1;
      var was, makers := CalendarRun([], ops[..n]), Makers(ops[..n]);
      if |CalendarRun([], ops)| > |was| then makers + [n]
      else if |CalendarRun([], ops)| < |was| && ops[n].DeleteOp? && ops[n].index < |makers| then makers[..ops[n].index] + makers[ops[n].index + 1..]
      else makers
  }

  /** A year made to cover a date begins where that says, and any other a year or more
      from those made before it. */
  predicate MadeAt(ops: seq<CalendarOp>, years: seq<YearRow>, makers: seq<nat>, i: nat, j: nat)
    requires i < j < |years| == |makers| && makers[j] < |ops|
  {
    if ops[makers[j]].EnsureOp? then years[j].starts == StartFor(ops[makers[j]].target, ops[makers[j]].month)
    else YearApart(years[i].starts, years[j].starts)
  }

  predicate MadeBy(ops: seq<CalendarOp>, years: seq<YearRow>, makers: seq<nat>) {
    && AllYears(years) && |makers| == |years| && (forall j :: 0 <= j < |makers| ==> makers[j] < |ops|)
    && forall i, j :: 0 <= i < j < |years| ==> MadeAt(ops, years, makers, i, j)
  }

  lemma OneMoreMade(ops: seq<CalendarOp>, years: seq<YearRow>, makers: seq<nat>, op: CalendarOp, y: YearRow)
    requires MadeBy(ops, years, makers) && IsYear(y)
    requires if op.EnsureOp? then y.starts == StartFor(op.target, op.month)
             else forall i :: 0 <= i < |years| ==> YearApart(years[i].starts, y.starts)
    ensures MadeBy(ops + [op], years + [y], makers + [|ops|])
  {
    var all, now, who := ops + [op], years + [y], makers + [|ops|];
    forall i, j | 0 <= i < j < |now| ensures MadeAt(all, now, who, i, j) {
      if j < |years| {
        assert MadeAt(ops, years, makers, i, j);
        assert all[makers[j]] == ops[makers[j]];
      }
    }
  }

  lemma OneLessMade(ops: seq<CalendarOp>, years: seq<YearRow>, makers: seq<nat>, op: CalendarOp, index: nat)
    requires MadeBy(ops, years, makers) && index < |years|
    ensures MadeBy(ops + [op], years[..index] + years[index + 1..], makers[..index] + makers[index + 1..])
  {
    var all, now, who := ops + [op], years[..index] + years[index + 1..], makers[..index] + makers[index + 1..];
    forall i, j | 0 <= i < j < |now| ensures MadeAt(all, now, who, i, j) {
      assert MadeAt(ops, years, makers, WasAt(index, i), WasAt(index, j));
      assert all[makers[WasAt(index, j)]] == ops[makers[WasAt(index, j)]];
    }
    forall j | 0 <= j < |who| ensures who[j] < |all| {
      assert who[j] == makers[WasAt(index, j)];
    }
  }

  lemma NothingMade(ops: seq<CalendarOp>, years: seq<YearRow>, makers: seq<nat>, op: CalendarOp)
    requires MadeBy(ops, years, makers)
    ensures MadeBy(ops + [op], years, makers)
  {
    forall i, j | 0 <= i < j < |years| ensures MadeAt(ops + [op], years, makers, i, j) {
      assert MadeAt(ops, years, makers, i, j);
      assert (ops + [op])[makers[j]] == ops[makers[j]];
    }
  }

  lemma {:induction false} RunMadeBy(ops: seq<CalendarOp>)
    requires forall n :: 0 <= n < |ops| ==> Callable(ops[n])
    ensures MadeBy(ops, CalendarRun([], ops), Makers(ops))
  {
    if ops != [] {
      var last := |ops| - 1;
      var before, op, years, makers := ops[..last], ops[last], CalendarRun([], ops[..last]), Makers(ops[..last]);
      RunMadeBy(before);
      assert ops == before + [op];
      match op
      case SeedOp(month, today) =>
        if years == [] {
          MadeIsYear(StartFor(today, month));
          OneMoreMade(before, years, makers, op, MadeYear(StartFor(today, month)));
        } else {
          NothingMade(before, years, makers, op);
        }
      case NextOp =>
        if years != [] {
          ExtendedFits(years);
          NextIsApart(years);
          OneMoreMade(before, years, makers, op, MadeYear(NextDay(Latest(years).ends)));
        } else {
          NothingMade(before, years, makers, op);
        }
      case EnsureOp(target, month) =>
        if Covered(years, target) {
          NothingMade(before, years, makers, op);
        } else {
          MadeIsYear(StartFor(target, month));
          OneMoreMade(before, years, makers, op, MadeYear(StartFor(target, month)));
        }
      case DeleteOp(index, used) =>
        if used || |years| <= 1 || index >= |years| {
          NothingMade(before, years, makers, op);
        } else {
          OneLessMade(before, years, makers, op, index);
        }
    }
  }

  /** A year that remains keeps clear of one made before it: it was not made to cover a
      date, or the year computed for that date begins a year or more from the other. */
  predicate KeepsClear(ops: seq<CalendarOp>, years: seq<YearRow>, makers: seq<nat>, i: nat, j: nat)
    requires i < j < |years| == |makers| && makers[j] < |ops|
  {
    ops[makers[j]].EnsureOp? ==> YearApart(years[i].starts, StartFor(ops[makers[j]].target, ops[makers[j]].month))
  }

  predicate AllKeepClear(ops: seq<CalendarOp>, years: seq<YearRow>, makers: seq<nat>)
    requires |makers| == |years| && forall j :: 0 <= j < |makers| ==> makers[j] < |ops|
  {
    forall i, j :: 0 <= i < j < |years| ==> KeepsClear(ops, years, makers, i, j)
  }

  lemma KeepClearIff(ops: seq<CalendarOp>, years: seq<YearRow>, makers: seq<nat>)
    requires MadeBy(ops, years, makers)
    ensures NoDayTwice(years) <==> AllKeepClear(ops, years, makers)
  {
    NoDayTwiceIff(years);
    forall i, j | 0 <= i < j < |years| ensures KeepsClear(ops, years, makers, i, j) <==> YearApart(years[i].starts, years[j].starts) {
      assert MadeAt(ops, years, makers, i, j);
    }
  }

  /** Over any run of making and deleting years, the start month changing at will, the
      years that remain share no day exactly when each of them keeps clear of those made
      before it. */
  lemma RemainingFitIff(ops: seq<CalendarOp>)
    requires forall n :: 0 <= n < |ops| ==> Callable(ops[n])
    ensures MadeBy(ops, CalendarRun([], ops), Makers(ops))
    ensures NoDayTwice(CalendarRun([], ops)) <==> AllKeepClear(ops, CalendarRun([], ops), Makers(ops))
  {
    RunMadeBy(ops);
    KeepClearIff(ops, CalendarRun([], ops), Makers(ops));
  }

  lemma RemovedAligned(years: seq<YearRow>, index: nat, month: int)
    requires Aligned(years, month) && index < |years|
    ensures Aligned(years[..index] + years[index + 1..], month)
  {
    var rest := years[..index] + years[index + 1..];
    assert forall i :: 0 <= i < |rest| ==> rest[i] == years[WasAt(index, i)];
  }

  /** A start month that never changes always fits, whatever is deleted. */
  lemma {:induction false} FixedMonthRuns(ops: seq<CalendarOp>, month: int)
    requires forall n :: 0 <= n < |ops| ==> Callable(ops[n]) && (ops[n].SeedOp? || ops[n].EnsureOp? ==> ops[n].month == month)
    ensures Aligned(CalendarRun([], ops), month) && NoDayTwice(CalendarRun([], ops))
  {
    if ops != [] {
      var last := |ops| - 1;
      var years := CalendarRun([], ops[..last]);
      FixedMonthRuns(ops[..last], month);
      match ops[last]
      case SeedOp(_, today) => MadeIsYear(StartFor(today, month));
      case NextOp => if years != [] { ExtendedAligned(years, month); }
      case EnsureOp(target, _) => AlignedFits(years, target, month);
      case DeleteOp(index, used) => if index < |years| { RemovedAligned(years, index, month); }
    }
    YearsDisjoint(CalendarRun([], ops), month);
  }

  lemma ExtendedAligned(years: seq<YearRow>, month: int)
    requires Aligned(years, month) && years != []
    ensures Aligned(Extended(years), month)
  {
    var last, starts := Latest(years), NextDay(Latest(years).ends);
    assert IsYear(last) && last.starts.month == month;
    NextYearStarts(last);
    MadeIsYear(starts);
    forall i | 0 <= i < |years| ensures years[i].starts != starts {
      NextYearApart(years[i], last);
    }
  }

  /** The accounting setup of one organization. */
  class SetupService {
    var years: seq<YearRow>

    /** Rows are only ever made by these calls. */
    predicate Valid()
      reads this
    {
      AllYears(years)
    }

    constructor ()
      ensures Valid() && years == []
    {
      years := [];
    }

    /** `create_fiscal_year`: the year, and a period for each of its months. */
    method CreateYear(starts: Date) returns (y: YearRow)
      requires Valid() && MonthStart(starts)
      modifies this
      ensures Valid() && IsYear(y) && y == MadeYear(starts) && years == old(years) + [y]
    {
      var ends := MonthEnd(AddMonths(starts, 11));
      var periods: seq<PeriodRow> := [];
      for index := 0 to 12
        invariant |periods| == index && forall i :: 0 <= i < index ==> periods[i] == PeriodOf(starts, i)
      {
        var first := AddMonths(starts, index);
        periods := periods + [PeriodRow(index + 1, first, MonthEnd(first))];
      }
      y := YearRow(starts, ends, periods);
      OnlyMade(y);
      years := years + [y];
    }

    /** `seed_fiscal_calendar`: the first year, if there is none yet. */
    method Seed(month: int, today: Date) returns (y: YearRow)
      requires Valid() && OnCalendar(today) && 1 <= month <= 12
      modifies this
      ensures Valid() && y in years && years == Seeded(old(years), month, today)
      ensures old(years) == [] ==> InYear(y, today)
    {
      if years != [] {
        return years[0];
      }
      y := CreateYear(StartFor(today, month));
      StartForCovers(today, month, y);
    }

    /** `create_next_fiscal_year`: from the day after the latest one ends. It comes after
        all the others, so it never costs a calendar its disjointness. */
    method CreateNext() returns (r: Result<YearRow>)
      requires Valid()
      modifies this
      ensures Valid() && years == Extended(old(years))
      ensures if old(years) == [] then r == Failure(BadRequest) else r.Success? && years == old(years) + [r.value]
      ensures r.Success? ==> forall i :: 0 <= i < |old(years)| ==> DayOf(old(years)[i].ends) < DayOf(r.value.starts)
      ensures NoDayTwice(years) <==> NoDayTwice(old(years))
    {
      if years == [] {
        return Failure(BadRequest);
      }
      var latest := years[0];
      for i := 1 to |years|
        invariant latest == Latest(years[..i])
      {
        assert years[..i + 1][..i] == years[..i];
        if DayOf(latest.ends) < DayOf(years[i].ends) {
          latest := years[i];
        }
      }
      assert years[..|years|] == years;
      ExtendedFits(years);
      var y := CreateYear(NextDay(latest.ends));
      r := Success(y);
    }

    /** `ensure_fiscal_year_for`: a year that covers the date, made if there is none. The
        row with the computed start, looked for before making one, never exists then: it
        would have covered the date. */
    method EnsureFor(target: Date, month: int) returns (y: YearRow)
      requires Valid() && OnCalendar(target) && 1 <= month <= 12
      modifies this
      ensures Valid() && y in years && InYear(y, target)
      ensures years == Ensured(old(years), target, month)
      ensures years != old(years) ==> y.starts == StartFor(target, month)
      ensures NoDayTwice(years) <==> NoDayTwice(old(years)) && Fits(old(years), target, month)
    {
      for i := 0 to |years|
        invariant forall j :: 0 <= j < i ==> !InYear(years[j], target)
      {
        if InYear(years[i], target) {
          EnsuredFitsIff(years, target, month);
          return years[i];
        }
      }
      var starts := StartFor(target, month);
      for i := 0 to |years|
        invariant forall j :: 0 <= j < i ==> years[j].starts != starts
      {
        if years[i].starts == starts {
          StartForCovers(target, month, years[i]);
          assert false;
        }
      }
      y := CreateYear(starts);
      StartForCovers(target, month, y);
      EnsuredFitsIff(old(years), target, month);
    }
  }

  // ------------------------------------------------------------ in the ledger

  /** A year's periods as rows of the books. */
  function BookPeriods(id: nat, periods: seq<PeriodRow>): (r: seq<Period>)
    ensures |r| == |periods|
    ensures forall i :: 0 <= i < |r| ==> r[i] == Period(id, DayOf(periods[i].starts), DayOf(periods[i].ends), Open)
  {
    if periods == [] then []
    else BookPeriods(id, periods[..|periods| - 1]) + [Period(id, DayOf(periods[|periods| - 1].starts), DayOf(periods[|periods| - 1].ends), Open)]
  }

  /** A search past periods that do not cover the day. */
  lemma {:induction false} SearchPasses(before: seq<Period>, rows: seq<Period>, day: Day)
    requires forall p :: p in before ==> !Covers(p, day)
    ensures PeriodFor(before + rows, day) == PeriodFor(rows, day)
    decreases |before|
  {
    if before == [] {
      assert before + rows == rows;
    } else {
      SearchPasses(before[1..], rows, day);
      assert (before + rows)[1..] == before[1..] + rows;
    }
  }

  /** The only period that covers a day is the one found. */
  lemma OnlyOneFound(rows: seq<Period>, day: Day, i: nat)
    requires i < |rows| && Covers(rows[i], day) && forall j :: 0 <= j < |rows| && Covers(rows[j], day) ==> j == i
    ensures PeriodFor(rows, day) == Some(rows[i])
  {
    assert rows[i] in rows;
  }

  /** Once a year's rows are added to books that had no period for a date in it, the
      ledger finds that date's own month open. */
  lemma AddedYearOpens(b: Books, id: nat, y: YearRow, d: Date)
    requires IsYear(y) && OnCalendar(d) && InYear(y, d) && id !in b.years
    requires forall p :: p in b.periods ==> !Covers(p, DayOf(d))
    ensures var added := AddYear(b, id, FiscalYear(DayOf(y.starts), DayOf(y.ends), true), BookPeriods(id, y.periods));
            added.Success? && OpenPeriod(added.value, DayOf(d)) ==
              Success(Period(id, DayOf(Date(d.year, d.month, 1)), DayOf(MonthEnd(d)), Open))
  {
    var rows, i := BookPeriods(id, y.periods), MonthOf(d) - MonthOf(y.starts);
    YearCoversMonths(y, d);
    MonthsAdd(y.starts, i);
    assert y.periods[i] == PeriodOf(y.starts, i);
    SameMonth(AddMonths(y.starts, i), d);
    forall j | 0 <= j < |rows| && Covers(rows[j], DayOf(d)) ensures j == i {
      assert InPeriod(y.periods[j], d);
    }
    assert InPeriod(y.periods[i], d);
    OnlyOneFound(rows, DayOf(d), i);
    SearchPasses(b.periods, rows, DayOf(d));
  }
}
