/** Account and party statements and the general ledger: entries in date order with
    a running balance. */
module AccountStatements {
  import opened Basics
  import opened LedgerTables
  import opened Ledger
  import opened LedgerSums

  function Select(es: seq<Entry>, f: Filter): seq<Entry> {
    if es == [] then []
    else
      var rest := Select(es[..|es| - 1], f);
      if Matches(es[|es| - 1], f) then rest + [es[|es| - 1]] else rest
  }

  /** Inserted after every entry of the same day or earlier. */
  function Insert(e: Entry, es: seq<Entry>): seq<Entry> {
    if es == [] || es[|es| - 1].day <= e.day then es + [e]
    else Insert(e, es[..|es| - 1]) + [es[|es| - 1]]
  }

  /** Entries by date, and in posting order within a day. */
  function ByDay(es: seq<Entry>): seq<Entry> {
    if es == [] then [] else Insert(es[|es| - 1], ByDay(es[..|es| - 1]))
  }

  lemma {:induction false} InsertSums(e: Entry, es: seq<Entry>, f: Filter)
    ensures SumDebit(Insert(e, es), f) == SumDebit(es + [e], f)
    ensures SumCredit(Insert(e, es), f) == SumCredit(es + [e], f)
  {
    if es != [] && es[|es| - 1].day > e.day {
      var front, last := es[..|es| - 1], es[|es| - 1];
      InsertSums(e, front, f);
      SumsAppend(Insert(e, front), last, f);
      SumsAppend(front, e, f);
      SumsAppend(es, e, f);
    }
  }

  predicate InDayOrder(es: seq<Entry>) {
    forall i, j :: 0 <= i < j < |es| ==> es[i].day <= es[j].day
  }

  lemma {:induction false} InsertOrdered(e: Entry, es: seq<Entry>)
    requires InDayOrder(es)
    ensures InDayOrder(Insert(e, es))
    ensures forall x :: x in Insert(e, es) <==> x == e || x in es
  {
    if es != [] && es[|es| - 1].day > e.day {
      var front, last := es[..|es| - 1], es[|es| - 1];
      InsertOrdered(e, front);
      assert es == front + [last];
      forall i | 0 <= i < |Insert(e, front)| ensures Insert(e, front)[i].day <= last.day {
        assert Insert(e, front)[i] in Insert(e, front);
      }
    }
  }

  lemma {:induction false} ByDayOrdered(es: seq<Entry>)
    ensures InDayOrder(ByDay(es))
  {
    if es != [] {
      ByDayOrdered(es[..|es| - 1]);
      InsertOrdered(es[|es| - 1], ByDay(es[..|es| - 1]));
    }
  }

  /** Sorting selected entries by date keeps every sum. */
  lemma {:induction false} ByDayKeepsSums(es: seq<Entry>, f: Filter)
    ensures SumDebit(ByDay(es), f) == SumDebit(es, f) && SumCredit(ByDay(es), f) == SumCredit(es, f)
  {
    if es != [] {
      var front, last := es[..|es| - 1], es[|es| - 1];
      ByDayKeepsSums(front, f);
      InsertSums(last, ByDay(front), f);
      SumsAppend(ByDay(front), last, f);
    }
  }

  lemma {:induction false} SelectSums(es: seq<Entry>, f: Filter)
    ensures SumDebit(Select(es, f), Everything) == SumDebit(es, f)
    ensures SumCredit(Select(es, f), Everything) == SumCredit(es, f)
  {
    if es != [] {
      var front, last := es[..|es| - 1], es[|es| - 1];
      var rest := Select(front, f);
      SelectSums(front, f);
      assert SumDebit(es, f) == SumDebit(front, f) + if Matches(last, f) then last.debit else 0;
      assert SumCredit(es, f) == SumCredit(front, f) + if Matches(last, f) then last.credit else 0;
      if Matches(last, f) {
        SumsAppend(rest, last, Everything);
        assert Select(es, f) == rest + [last];
      } else {
        assert Select(es, f) == rest;
      }
    }
  }

  function OfDay(es: seq<Entry>, day: Day): seq<Entry> {
    if es == [] then []
    else if es[|es| - 1].day == day then OfDay(es[..|es| - 1], day) + [es[|es| - 1]]
    else OfDay(es[..|es| - 1], day)
  }

  lemma OfDayAppend(es: seq<Entry>, e: Entry, day: Day)
    ensures OfDay(es + [e], day) == if e.day == day then OfDay(es, day) + [e] else OfDay(es, day)
  {
    assert (es + [e])[..|es|] == es;
  }

  lemma {:induction false} InsertKeepsDays(e: Entry, es: seq<Entry>, day: Day)
    ensures OfDay(Insert(e, es), day) == OfDay(es + [e], day)
  {
    if es != [] && es[|es| - 1].day > e.day {
      var front, last := es[..|es| - 1], es[|es| - 1];
      InsertKeepsDays(e, front, day);
      OfDayAppend(Insert(e, front), last, day);
      OfDayAppend(front, e, day);
      OfDayAppend(es, e, day);
    }
  }

  /** Ordered by date, every day keeps exactly its entries, in the order they were posted. */
  lemma {:induction false} ByDayKeepsDays(es: seq<Entry>, day: Day)
    ensures OfDay(ByDay(es), day) == OfDay(es, day)
  {
    if es != [] {
      var front, last := es[..|es| - 1], es[|es| - 1];
      ByDayKeepsDays(front, day);
      InsertKeepsDays(last, ByDay(front), day);
      OfDayAppend(ByDay(front), last, day);
    }
  }

  // ---------------------------------------------------------------- statements

  datatype StatementRow = StatementRow(entry: Entry, balance: int)

  /** The rows of a statement: each entry with the balance after it. */
  function RunningRows(es: seq<Entry>, opening: int, sign: int): seq<StatementRow> {
    if es == [] then []
    else RunningRows(es[..|es| - 1], opening, sign) + [StatementRow(es[|es| - 1], opening + sign * Net(es, Everything))]
  }

  /** `_statement_rows`. */
  method StatementRows(es: seq<Entry>, opening: int, sign: int) returns (rows: seq<StatementRow>, closing: int)
    ensures rows == RunningRows(es, opening, sign)
    ensures closing == opening + sign * Net(es, Everything)
  {
    var running := opening;
    rows := [];
    for i := 0 to |es|
      invariant rows == RunningRows(es[..i], opening, sign)
      invariant running == opening + sign * Net(es[..i], Everything)
    {
      var entry := es[i];
      assert es[..i + 1][..i] == es[..i];
      assert Net(es[..i + 1], Everything) == Net(es[..i], Everything) + (entry.debit - entry.credit);
      running := running + (entry.debit - entry.credit) * sign;
      rows := rows + [StatementRow(entry, running)];
    }
    assert es[..|es|] == es;
    closing := running;
  }

  /** Row by row the balance moves by what the row's entry was debited over credited, or the
      other way round. */
  lemma {:induction false} RowsRun(es: seq<Entry>, opening: int, sign: int, i: nat)
    requires i < |es|
    ensures var rows := RunningRows(es, opening, sign);
            && |rows| == |es| && rows[i].entry == es[i]
            && rows[i].balance == (if i == 0 then opening else rows[i - 1].balance) + sign * (es[i].debit - es[i].credit)
  {
    var front, last := es[..|es| - 1], es[|es| - 1];
    if i < |front| {
      RowsRun(front, opening, sign, i);
    } else {
      LastRow(es, opening, sign);
      if front != [] {
        RowsRun(front, opening, sign, |front| - 1);
        LastRow(front, opening, sign);
      }
    }
  }

  lemma LastRow(es: seq<Entry>, opening: int, sign: int)
    requires es != []
    ensures var rows, last := RunningRows(es, opening, sign), es[|es| - 1];
            && rows == RunningRows(es[..|es| - 1], opening, sign) + [StatementRow(last, opening + sign * Net(es, Everything))]
            && sign * Net(es, Everything) == sign * Net(es[..|es| - 1], Everything) + sign * (last.debit - last.credit)
  {
    var front, last := es[..|es| - 1], es[|es| - 1];
    assert Net(es, Everything) == Net(front, Everything) + (last.debit - last.credit);
    Distributes(sign, Net(front, Everything), last.debit - last.credit);
  }

  function Sign(kind: AccountType): int {
    if kind.Liability? || kind.Equity? || kind.Income? then -1 else 1
  }

  /** The entries one statement is about: an account's or a party's, over any dates. */
  function InPeriod(whose: Filter, start: Day, end: Day): Filter {
    whose.(from := Some(start), to := Some(end))
  }

  function OpeningBefore(whose: Filter, start: Day): Filter {
    whose.(from := None, to := Some(start - 1))
  }

  datatype Statement = Statement(opening: int, closing: int, rows: seq<StatementRow>)

  function StatementOf(es: seq<Entry>, whose: Filter, sign: int, start: Day, end: Day): Statement {
    var ordered := ByDay(Select(es, InPeriod(whose, start, end)));
    var opening := Net(es, OpeningBefore(whose, start)) * sign;
    Statement(opening, opening + sign * Net(ordered, Everything), RunningRows(ordered, opening, sign))
  }

  /** `account_statement` and `party_statement`, given what they select and their sign. */
  method MakeStatement(es: seq<Entry>, whose: Filter, sign: int, start: Day, end: Day) returns (s: Statement)
    ensures s == StatementOf(es, whose, sign, start, end)
  {
    var opening := Net(es, OpeningBefore(whose, start)) * sign;
    var rows, closing := StatementRows(ByDay(Select(es, InPeriod(whose, start, end))), opening, sign);
    s := Statement(opening, closing, rows);
  }

  /** A statement closes at the balance of everything up to its last day, so the next
      period's statement opens where this one closed. */
  lemma StatementCarriesForward(es: seq<Entry>, whose: Filter, sign: int, start: Day, end: Day, nextEnd: Day)
    requires start <= end + 1
    ensures StatementOf(es, whose, sign, start, end).closing == sign * Net(es, whose.(from := None, to := Some(end)))
    ensures StatementOf(es, whose, sign, end + 1, nextEnd).opening == StatementOf(es, whose, sign, start, end).closing
    ensures InDayOrder(ByDay(Select(es, InPeriod(whose, start, end))))
  {
    ClosingIsBalance(es, whose, sign, start, end);
    ByDayOrdered(Select(es, InPeriod(whose, start, end)));
    assert OpeningBefore(whose, end + 1) == whose.(from := None, to := Some(end));
  }

  lemma ClosingIsBalance(es: seq<Entry>, whose: Filter, sign: int, start: Day, end: Day)
    requires start <= end + 1
    ensures StatementOf(es, whose, sign, start, end).closing == sign * Net(es, whose.(from := None, to := Some(end)))
  {
    var f := InPeriod(whose, start, end);
    var before, upto := OpeningBefore(whose, start), whose.(from := None, to := Some(end));
    PeriodSplits(es, whose, start, end);
    ByDayKeepsSums(Select(es, f), Everything);
    SelectSums(es, f);
    Distributes(sign, Net(es, before), Net(es, f));
  }

  lemma PeriodSplits(es: seq<Entry>, whose: Filter, start: Day, end: Day)
    requires start <= end + 1
    ensures Net(es, whose.(from := None, to := Some(end))) == Net(es, OpeningBefore(whose, start)) + Net(es, InPeriod(whose, start, end))
  {
    SumsSplit(es, whose.(from := None, to := Some(end)), OpeningBefore(whose, start), InPeriod(whose, start, end));
  }

  // ------------------------------------------------------------ general ledger

  predicate Active(es: seq<Entry>, f: Filter) {
    exists e :: e in es && Matches(e, f)
  }

  datatype Section = Section(account: nat, statement: Statement)

  function SectionOf(es: seq<Entry>, accounts: map<nat, Account>, account: nat, start: Day, end: Day): Section
    requires account in accounts
  {
    Section(account, StatementOf(es, OnAccount(Everything, account), Sign(accounts[account].kind), start, end))
  }

  function Sections(es: seq<Entry>, accounts: map<nat, Account>, chart: seq<nat>, start: Day, end: Day): seq<Section>
    requires forall a :: a in chart ==> a in accounts
  {
    if chart == [] then []
    else
      var a := chart[|chart| - 1];
      var rest := Sections(es, accounts, chart[..|chart| - 1], start, end);
      if Active(es, OnAccount(Dated(Some(start), Some(end)), a)) then rest + [SectionOf(es, accounts, a, start, end)] else rest
  }

  /** An account's statement opens and closes at its balance on its own side: what it was
      credited over debited for liabilities, equity and income, and the other way round for
      assets and expenses. */
  lemma SectionBalances(es: seq<Entry>, accounts: map<nat, Account>, account: nat, start: Day, end: Day)
    requires account in accounts && start <= end + 1
    ensures var s := SectionOf(es, accounts, account, start, end).statement;
            var before, upto := OnAccount(Dated(None, Some(start - 1)), account), OnAccount(Dated(None, Some(end)), account);
            match accounts[account].kind
            case Asset => s.opening == SumDebit(es, before) - SumCredit(es, before) && s.closing == SumDebit(es, upto) - SumCredit(es, upto)
            case Expense => s.opening == SumDebit(es, before) - SumCredit(es, before) && s.closing == SumDebit(es, upto) - SumCredit(es, upto)
            case _ => s.opening == SumCredit(es, before) - SumDebit(es, before) && s.closing == SumCredit(es, upto) - SumDebit(es, upto)
  {
    var whose := OnAccount(Everything, account);
    ClosingIsBalance(es, whose, Sign(accounts[account].kind), start, end);
    assert OpeningBefore(whose, start) == OnAccount(Dated(None, Some(start - 1)), account);
    assert whose.(from := None, to := Some(end)) == OnAccount(Dated(None, Some(end)), account);
  }

  /** The general ledger has a section for exactly the accounts with entries in the range. */
  lemma {:induction false} SectionIff(es: seq<Entry>, accounts: map<nat, Account>, chart: seq<nat>, start: Day, end: Day, section: Section)
    requires forall a :: a in chart ==> a in accounts
    ensures section in Sections(es, accounts, chart, start, end) <==>
              section.account in chart && (exists e :: e in es && e.account == section.account && start <= e.day <= end)
              && section == SectionOf(es, accounts, section.account, start, end)
  {
    if chart != [] {
      var front, a := chart[..|chart| - 1], chart[|chart| - 1];
      SectionIff(es, accounts, front, start, end, section);
      assert chart == front + [a];
      ActiveIff(es, a, start, end);
    }
  }

  lemma ActiveIff(es: seq<Entry>, account: nat, start: Day, end: Day)
    ensures Active(es, OnAccount(Dated(Some(start), Some(end)), account)) <==> exists e :: e in es && e.account == account && start <= e.day <= end
  {
    forall e | e in es ensures Matches(e, OnAccount(Dated(Some(start), Some(end)), account)) <==> e.account == account && start <= e.day <= end {
    }
  }

  function DebitOver(es: seq<Entry>, f: Filter, chart: seq<nat>): int {
    if chart == [] then 0 else DebitOver(es, f, chart[..|chart| - 1]) + SumDebit(es, OnAccount(f, chart[|chart| - 1]))
  }

  function CreditOver(es: seq<Entry>, f: Filter, chart: seq<nat>): int {
    if chart == [] then 0 else CreditOver(es, f, chart[..|chart| - 1]) + SumCredit(es, OnAccount(f, chart[|chart| - 1]))
  }

  function RowDebits(rows: seq<StatementRow>): int {
    if rows == [] then 0 else RowDebits(rows[..|rows| - 1]) + rows[|rows| - 1].entry.debit
  }

  function RowCredits(rows: seq<StatementRow>): int {
    if rows == [] then 0 else RowCredits(rows[..|rows| - 1]) + rows[|rows| - 1].entry.credit
  }

  lemma {:induction false} RowSums(es: seq<Entry>, opening: int, sign: int)
    ensures RowDebits(RunningRows(es, opening, sign)) == SumDebit(es, Everything)
    ensures RowCredits(RunningRows(es, opening, sign)) == SumCredit(es, Everything)
  {
    if es != [] {
      var front := RunningRows(es[..|es| - 1], opening, sign);
      RowSums(es[..|es| - 1], opening, sign);
      assert RunningRows(es, opening, sign)[..|front|] == front;
    }
  }

  /** The rows of a statement carry exactly the debits and credits of its period. */
  lemma StatementRowSums(es: seq<Entry>, whose: Filter, sign: int, start: Day, end: Day)
    ensures var rows := StatementOf(es, whose, sign, start, end).rows;
            RowDebits(rows) == SumDebit(es, InPeriod(whose, start, end)) && RowCredits(rows) == SumCredit(es, InPeriod(whose, start, end))
  {
    var f := InPeriod(whose, start, end);
    ByDayKeepsSums(Select(es, f), Everything);
    SelectSums(es, f);
    RowSums(ByDay(Select(es, f)), Net(es, OpeningBefore(whose, start)) * sign, sign);
  }

  /** `general_ledger`. */
  method MakeGeneralLedger(es: seq<Entry>, accounts: map<nat, Account>, chart: seq<nat>, start: Day, end: Day)
    returns (sections: seq<Section>, totalDebit: int, totalCredit: int)
    requires IsChart(accounts, chart)
    ensures sections == Sections(es, accounts, chart, start, end)
    ensures totalDebit == DebitOver(es, Dated(Some(start), Some(end)), chart)
    ensures totalCredit == CreditOver(es, Dated(Some(start), Some(end)), chart)
  {
    var f := Dated(Some(start), Some(end));
    sections, totalDebit, totalCredit := [], 0, 0;
    for i := 0 to |chart|
      invariant forall a :: a in chart[..i] ==> a in accounts
      invariant sections == Sections(es, accounts, chart[..i], start, end)
      invariant totalDebit == DebitOver(es, f, chart[..i])
      invariant totalCredit == CreditOver(es, f, chart[..i])
    {
      var a := chart[i];
      assert a in accounts;
      assert chart[..i + 1][..i] == chart[..i];
      if Active(es, OnAccount(f, a)) {
        var statement := MakeStatement(es, OnAccount(Everything, a), Sign(accounts[a].kind), start, end);
        StatementRowSums(es, OnAccount(Everything, a), Sign(accounts[a].kind), start, end);
        totalDebit := totalDebit + RowDebits(statement.rows);
        totalCredit := totalCredit + RowCredits(statement.rows);
        sections := sections + [Section(a, statement)];
      } else {
        SumsNone(es, OnAccount(f, a));
      }
    }
    assert chart[..|chart|] == chart;
  }

  lemma {:induction false} OverChart(es: seq<Entry>, f: Filter, chart: seq<nat>)
    requires f.accounts.Any? && forall i, j :: 0 <= i < j < |chart| ==> chart[i] != chart[j]
    ensures DebitOver(es, f, chart) == SumDebit(es, f.(accounts := In(set a | a in chart)))
    ensures CreditOver(es, f, chart) == SumCredit(es, f.(accounts := In(set a | a in chart)))
  {
    var listed := set a | a in chart;
    if chart == [] {
      SumsNone(es, f.(accounts := In(listed)));
    } else {
      var front, last := chart[..|chart| - 1], chart[|chart| - 1];
      var before := set a | a in front;
      OverChart(es, f, front);
      assert last !in front && chart == front + [last];
      SumsSplit(es, f.(accounts := In(listed)), f.(accounts := In(before)), OnAccount(f, last));
    }
  }

  /** The general ledger's debits equal its credits over any range of dates. */
  lemma GeneralLedgerTies(b: Books, chart: seq<nat>, start: Day, end: Day)
    requires BooksInv(b) && IsChart(b.accounts, chart)
    ensures DebitOver(b.entries, Dated(Some(start), Some(end)), chart) == CreditOver(b.entries, Dated(Some(start), Some(end)), chart)
  {
    var f := Dated(Some(start), Some(end));
    OverChart(b.entries, f, chart);
    forall e | e in b.entries ensures e.account in chart {
      EntryFacts(b, e);
    }
    SumsCong(b.entries, f, f.(accounts := In(set a | a in chart)));
    RangeBalances(b, Some(start), Some(end));
  }
}
