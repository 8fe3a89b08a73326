/** The cash book and the cash flow statement, and why both arrive at the balance of
    the cash accounts. */
module CashReports {
  import opened Basics
  import opened LedgerTables
  import opened Ledger
  import opened LedgerSums

  // ------------------------------------------------------------------ cash book

  datatype DayRow = DayRow(day: Day, opening: int, received: int, paid: int, closing: int)

  datatype AccountBook = AccountBook(account: nat, opening: int, received: int, paid: int, closing: int, rows: seq<DayRow>)

  /** A day put in its place, once. */
  function InsertDay(day: Day, days: seq<Day>): seq<Day> {
    if days == [] || days[|days| - 1] < day then days + [day]
    else if days[|days| - 1] == day then days
    else InsertDay(day, days[..|days| - 1]) + [days[|days| - 1]]
  }

  /** The days of the selected entries, in order, each once. */
  function DaysOf(es: seq<Entry>, f: Filter): seq<Day> {
    if es == [] then []
    else
      var rest := DaysOf(es[..|es| - 1], f);
      if Matches(es[|es| - 1], f) then InsertDay(es[|es| - 1].day, rest) else rest
  }

  predicate Increasing(days: seq<Day>) {
    forall i, j :: 0 <= i < j < |days| ==> days[i] < days[j]
  }

  lemma {:induction false} InsertDayOrdered(day: Day, days: seq<Day>)
    requires Increasing(days)
    ensures Increasing(InsertDay(day, days))
    ensures forall d :: d in InsertDay(day, days) <==> d == day || d in days
  {
    if days != [] {
      var front, last := days[..|days| - 1], days[|days| - 1];
      assert days == front + [last];
      if last > day {
        InsertDayOrdered(day, front);
        forall i | 0 <= i < |InsertDay(day, front)| ensures InsertDay(day, front)[i] < last {
          assert InsertDay(day, front)[i] in InsertDay(day, front);
        }
      }
    }
  }

  lemma {:induction false} DaysOrdered(es: seq<Entry>, f: Filter)
    ensures Increasing(DaysOf(es, f))
    ensures forall e :: e in es && Matches(e, f) ==> e.day in DaysOf(es, f)
  {
    if es != [] {
      DaysOrdered(es[..|es| - 1], f);
      assert es == es[..|es| - 1] + [es[|es| - 1]];
      InsertDayOrdered(es[|es| - 1].day, DaysOf(es[..|es| - 1], f));
    }
  }

  function OnDay(account: nat, day: Day): Filter {
    OnAccount(Dated(Some(day), Some(day)), account)
  }

  function OpeningCash(es: seq<Entry>, account: nat, start: Day): int {
    Net(es, OnAccount(Dated(None, Some(start - 1)), account))
  }

  function Moves(es: seq<Entry>, account: nat, days: seq<Day>): int {
    if days == [] then 0 else Moves(es, account, days[..|days| - 1]) + Net(es, OnDay(account, days[|days| - 1]))
  }

  function DayRows(es: seq<Entry>, account: nat, opening: int, days: seq<Day>): seq<DayRow> {
    if days == [] then []
    else
      var day := days[|days| - 1];
      var debit, credit := SumDebit(es, OnDay(account, day)), SumCredit(es, OnDay(account, day));
      var running := opening + Moves(es, account, days);
      DayRows(es, account, opening, days[..|days| - 1]) + [DayRow(day, running - debit + credit, debit, credit, running)]
  }

  function Received(rows: seq<DayRow>): int {
    if rows == [] then 0 else Received(rows[..|rows| - 1]) + rows[|rows| - 1].received
  }

  function Paid(rows: seq<DayRow>): int {
    if rows == [] then 0 else Paid(rows[..|rows| - 1]) + rows[|rows| - 1].paid
  }

  function BookOf(es: seq<Entry>, account: nat, start: Day, end: Day): AccountBook {
    var days := DaysOf(es, OnAccount(Dated(Some(start), Some(end)), account));
    var opening := OpeningCash(es, account, start);
    var rows := DayRows(es, account, opening, days);
    AccountBook(account, opening, Received(rows), Paid(rows), opening + Moves(es, account, days), rows)
  }

  /** One more day of the book. */
  lemma NextDay(es: seq<Entry>, account: nat, opening: int, days: seq<Day>, day: Day, rows: seq<DayRow>, row: DayRow)
    requires rows == DayRows(es, account, opening, days)
    requires var debit, credit := SumDebit(es, OnDay(account, day)), SumCredit(es, OnDay(account, day));
             row == DayRow(day, opening + Moves(es, account, days), debit, credit, opening + Moves(es, account, days) + debit - credit)
    ensures rows + [row] == DayRows(es, account, opening, days + [day])
    ensures opening + Moves(es, account, days + [day]) == row.closing
    ensures Received(rows + [row]) == Received(rows) + row.received && Paid(rows + [row]) == Paid(rows) + row.paid
  {
    assert (days + [day])[..|days|] == days;
    assert (rows + [row])[..|rows|] == rows;
  }

  /** A row for each day, with what the account was debited and credited that day. */
  lemma {:induction false} DayRowIs(es: seq<Entry>, account: nat, opening: int, days: seq<Day>, i: nat)
    requires i < |days|
    ensures |DayRows(es, account, opening, days)| == |days|
    ensures var row := DayRows(es, account, opening, days)[i];
            && row.day == days[i] && row.closing - row.opening == row.received - row.paid
            && row.received == SumDebit(es, OnDay(account, days[i])) && row.paid == SumCredit(es, OnDay(account, days[i]))
  {
    var front := days[..|days| - 1];
    if i < |front| {
      DayRowIs(es, account, opening, front, i);
    } else if front != [] {
      DayRowIs(es, account, opening, front, 0);
    }
  }

  /** The days of a book are exactly those in its range with an entry on its account. */
  lemma {:induction false} DaysIff(es: seq<Entry>, account: nat, start: Day, end: Day, day: Day)
    ensures day in DaysOf(es, OnAccount(Dated(Some(start), Some(end)), account)) <==>
              exists e :: e in es && e.account == account && e.day == day && start <= day <= end
  {
    if es != [] {
      var front, last := es[..|es| - 1], es[|es| - 1];
      var f := OnAccount(Dated(Some(start), Some(end)), account);
      DaysIff(front, account, start, end, day);
      DaysOrdered(front, f);
      InsertDayOrdered(last.day, DaysOf(front, f));
      assert es == front + [last];
      assert Matches(last, f) <==> last.account == account && start <= last.day <= end;
    }
  }

  /** One account of `cash_book`, day by day; with no days it closes as it opened. */
  method MakeAccountBook(es: seq<Entry>, account: nat, start: Day, end: Day) returns (book: AccountBook)
    ensures book == BookOf(es, account, start, end)
  {
    var days := DaysOf(es, OnAccount(Dated(Some(start), Some(end)), account));
    var opening := OpeningCash(es, account, start);
    var running, received, paid := opening, 0, 0;
    var rows: seq<DayRow> := [];
    for i := 0 to |days|
      invariant rows == DayRows(es, account, opening, days[..i])
      invariant running == opening + Moves(es, account, days[..i])
      invariant received == Received(rows) && paid == Paid(rows)
    {
      var debit, credit := SumDebit(es, OnDay(account, days[i])), SumCredit(es, OnDay(account, days[i]));
      var row := DayRow(days[i], running, debit, credit, running + debit - credit);
      NextDay(es, account, opening, days[..i], days[i], rows, row);
      assert days[..i + 1] == days[..i] + [days[i]];
      running := running + debit - credit;
      received := received + debit;
      paid := paid + credit;
      rows := rows + [row];
    }
    assert days[..|days|] == days;
    book := AccountBook(account, opening, received, paid, running, rows);
  }

  /** The listed days are all those from the start to the last of them with entries
      on the account. */
  ghost predicate DaysComplete(es: seq<Entry>, account: nat, days: seq<Day>, start: Day) {
    && Increasing(days)
    && (forall d :: d in days ==> start <= d)
    && (days != [] ==> forall e :: e in es && e.account == account && start <= e.day <= days[|days| - 1] ==> e.day in days)
  }

  /** Day by day or all at once, an account moves by the same amount. */
  lemma {:induction false} MovesIsNet(es: seq<Entry>, account: nat, days: seq<Day>, start: Day)
    requires DaysComplete(es, account, days, start) && days != []
    ensures Moves(es, account, days) == Net(es, OnAccount(Dated(Some(start), Some(days[|days| - 1])), account))
  {
    var front, last := days[..|days| - 1], days[|days| - 1];
    if front == [] {
      OneDay(es, account, days, start);
    } else {
      FrontComplete(es, account, days, start);
      MovesIsNet(es, account, front, start);
      LastDay(es, account, days, start);
    }
  }

  lemma OneDay(es: seq<Entry>, account: nat, days: seq<Day>, start: Day)
    requires DaysComplete(es, account, days, start) && |days| == 1
    ensures Net(es, OnDay(account, days[0])) == Net(es, OnAccount(Dated(Some(start), Some(days[0])), account))
  {
    var whole := OnAccount(Dated(Some(start), Some(days[0])), account);
    assert days[0] in days && days == [days[0]];
    forall e | e in es && Matches(e, whole) ensures e.day == days[0] {
      assert e.day in days;
    }
    SumsCong(es, whole, OnDay(account, days[0]));
  }

  lemma LastDay(es: seq<Entry>, account: nat, days: seq<Day>, start: Day)
    requires DaysComplete(es, account, days, start) && |days| > 1
    ensures Net(es, OnAccount(Dated(Some(start), Some(days[|days| - 1])), account)) ==
              Net(es, OnAccount(Dated(Some(start), Some(days[|days| - 2])), account)) + Net(es, OnDay(account, days[|days| - 1]))
  {
    var front, last := days[..|days| - 1], days[|days| - 1];
    var whole := OnAccount(Dated(Some(start), Some(last)), account);
    assert days == front + [last] && front[|front| - 1] == days[|days| - 2];
    forall e | e in es && Matches(e, whole) ensures e.day == last || e.day <= front[|front| - 1] {
      assert e.day in days;
    }
    assert front[|front| - 1] in days && last in days;
    SumsSplit(es, whole, OnAccount(Dated(Some(start), Some(front[|front| - 1])), account), OnDay(account, last));
  }

  lemma FrontComplete(es: seq<Entry>, account: nat, days: seq<Day>, start: Day)
    requires DaysComplete(es, account, days, start) && |days| > 1
    ensures DaysComplete(es, account, days[..|days| - 1], start)
  {
    var front, last := days[..|days| - 1], days[|days| - 1];
    assert days == front + [last];
    assert days[|days| - 2] < days[|days| - 1];
    assert forall d :: d in front ==> d in days;
    forall e | e in es && e.account == account && start <= e.day <= front[|front| - 1] ensures e.day in front {
      assert e.day in days;
    }
  }

  /** A book closes at what it opened with, what came in added and what went out taken off. */
  lemma BookAddsUp(es: seq<Entry>, account: nat, start: Day, end: Day)
    ensures var book := BookOf(es, account, start, end); book.closing == book.opening + book.received - book.paid
  {
    var book := BookOf(es, account, start, end);
    RowsAddUp(es, account, book.opening, DaysOf(es, OnAccount(Dated(Some(start), Some(end)), account)));
  }

  lemma {:induction false} RowsAddUp(es: seq<Entry>, account: nat, opening: int, days: seq<Day>)
    ensures var rows := DayRows(es, account, opening, days); Moves(es, account, days) == Received(rows) - Paid(rows)
  {
    if days != [] {
      var front, day := days[..|days| - 1], days[|days| - 1];
      RowsAddUp(es, account, opening, front);
      var rows := DayRows(es, account, opening, front);
      assert DayRows(es, account, opening, days)[..|rows|] == rows;
    }
  }

  /** An account's cash book closes at its balance as of the last day, and each day
      opens where the one before it closed. */
  lemma BookCloses(es: seq<Entry>, account: nat, start: Day, end: Day)
    requires start <= end
    ensures BookOf(es, account, start, end).closing == Net(es, OnAccount(Dated(None, Some(end)), account))
    ensures BookOf(es, account, start, end).rows == DayRows(es, account, OpeningCash(es, account, start), DaysOf(es, OnAccount(Dated(Some(start), Some(end)), account)))
  {
    var f := OnAccount(Dated(Some(start), Some(end)), account);
    var days := DaysOf(es, f);
    DaysOrdered(es, f);
    DaysWithin(es, f, start, end);
    if days == [] {
      SumsNone(es, f);
    } else {
      forall e | e in es && e.account == account && start <= e.day <= days[|days| - 1] ensures e.day in days {
        assert days[|days| - 1] in days && Matches(e, f);
      }
      MovesIsNet(es, account, days, start);
      SumsCong(es, f, OnAccount(Dated(Some(start), Some(days[|days| - 1])), account));
    }
    SumsSplit(es, OnAccount(Dated(None, Some(end)), account), OnAccount(Dated(None, Some(start - 1)), account), f);
  }

  lemma {:induction false} DaysWithin(es: seq<Entry>, f: Filter, start: Day, end: Day)
    requires f.from == Some(start) && f.to == Some(end)
    ensures forall d :: d in DaysOf(es, f) ==> start <= d <= end
  {
    if es != [] {
      DaysWithin(es[..|es| - 1], f, start, end);
      DaysOrdered(es[..|es| - 1], f);
      InsertDayOrdered(es[|es| - 1].day, DaysOf(es[..|es| - 1], f));
    }
  }

  lemma {:induction false} DaysChain(es: seq<Entry>, account: nat, opening: int, days: seq<Day>, i: nat)
    requires i < |days|
    ensures |DayRows(es, account, opening, days)| == |days|
    ensures var rows := DayRows(es, account, opening, days);
            rows[i].opening == (if i == 0 then opening else rows[i - 1].closing) && rows[i].closing == rows[i].opening + rows[i].received - rows[i].paid
  {
    var front := days[..|days| - 1];
    if i < |front| {
      DaysChain(es, account, opening, front, i);
    } else if i > 0 {
      DaysChain(es, account, opening, front, i - 1);
    }
  }

  /** The cash accounts a book lists: those used in the range, and the postable rest. */
  predicate Listed(es: seq<Entry>, accounts: map<nat, Account>, cash: set<nat>, a: nat, start: Day, end: Day)
    requires a in accounts
  {
    a in cash && (DaysOf(es, OnAccount(Dated(Some(start), Some(end)), a)) != [] || accounts[a].postable)
  }

  function Books(es: seq<Entry>, accounts: map<nat, Account>, chart: seq<nat>, cash: set<nat>, start: Day, end: Day): seq<AccountBook>
    requires forall a :: a in chart ==> a in accounts
  {
    if chart == [] then []
    else
      var a := chart[|chart| - 1];
      var rest := Books(es, accounts, chart[..|chart| - 1], cash, start, end);
      if Listed(es, accounts, cash, a, start, end) then rest + [BookOf(es, a, start, end)] else rest
  }

  function Closings(books: seq<AccountBook>): int {
    if books == [] then 0 else Closings(books[..|books| - 1]) + books[|books| - 1].closing
  }

  /** `cash_book`, in the order of account codes. */
  method MakeCashBook(es: seq<Entry>, accounts: map<nat, Account>, chart: seq<nat>, cash: set<nat>, start: Day, end: Day)
    returns (books: seq<AccountBook>)
    requires IsChart(accounts, chart)
    ensures books == Books(es, accounts, chart, cash, start, end)
  {
    books := [];
    for i := 0 to |chart|
      invariant forall a :: a in chart[..i] ==> a in accounts
      invariant books == Books(es, accounts, chart[..i], cash, start, end)
    {
      assert chart[i] in accounts;
      assert chart[..i + 1][..i] == chart[..i];
      if Listed(es, accounts, cash, chart[i], start, end) {
        var book := MakeAccountBook(es, chart[i], start, end);
        books := books + [book];
      }
    }
    assert chart[..|chart|] == chart;
  }

  /** The cash book has a book for exactly the cash accounts of the chart that are postable,
      or have an entry in the range. */
  lemma {:induction false} BookIff(es: seq<Entry>, accounts: map<nat, Account>, chart: seq<nat>, cash: set<nat>, start: Day, end: Day, book: AccountBook)
    requires forall a :: a in chart ==> a in accounts
    ensures book in Books(es, accounts, chart, cash, start, end) <==>
              && book.account in chart && book.account in cash && book == BookOf(es, book.account, start, end)
              && (accounts[book.account].postable || exists e :: e in es && e.account == book.account && start <= e.day <= end)
  {
    if chart != [] {
      var front, a := chart[..|chart| - 1], chart[|chart| - 1];
      BookIff(es, accounts, front, cash, start, end, book);
      assert chart == front + [a];
      UsedIff(es, a, start, end);
    }
  }

  lemma UsedIff(es: seq<Entry>, account: nat, start: Day, end: Day)
    ensures DaysOf(es, OnAccount(Dated(Some(start), Some(end)), account)) != [] <==> exists e :: e in es && e.account == account && start <= e.day <= end
  {
    var days := DaysOf(es, OnAccount(Dated(Some(start), Some(end)), account));
    if days != [] {
      DaysIff(es, account, start, end, days[0]);
    }
    if e :| e in es && e.account == account && start <= e.day <= end {
      DaysIff(es, account, start, end, e.day);
    }
  }

  lemma {:induction false} ClosingsAreNets(b: LedgerTables.Books, chart: seq<nat>, cash: set<nat>, start: Day, end: Day)
    requires BooksInv(b) && start <= end && forall a :: a in chart ==> a in b.accounts
    ensures Closings(Books(b.entries, b.accounts, chart, cash, start, end)) == NetOver(b.entries, Dated(None, Some(end)), chart, cash)
  {
    if chart != [] {
      var front, a := chart[..|chart| - 1], chart[|chart| - 1];
      ClosingsAreNets(b, front, cash, start, end);
      BookCloses(b.entries, a, start, end);
      var rest := Books(b.entries, b.accounts, front, cash, start, end);
      if Listed(b.entries, b.accounts, cash, a, start, end) {
        assert (rest + [BookOf(b.entries, a, start, end)])[..|rest|] == rest;
      } else if a in cash {
        forall e | e in b.entries ensures e.account != a {
          EntryFacts(b, e);
        }
        SumsNone(b.entries, OnAccount(Dated(None, Some(end)), a));
      }
    }
  }

  // ------------------------------------------------------------------ cash flow

  datatype Bucket = Operating | Investing | Financing

  function StartsWith(code: string, prefix: string): bool {
    prefix <= code
  }

  /** `_cash_flow_bucket`. */
  function BucketOf(kind: AccountType, code: string): Bucket {
    if kind.Equity? then Financing
    else if kind.Asset? && !StartsWith(code, "11") then Investing
    else if kind.Liability? && !StartsWith(code, "21") then Financing
    else Operating
  }

  datatype FlowRow = FlowRow(account: nat, amount: int)

  datatype CashFlow = CashFlow(opening: int, operating: seq<FlowRow>, investing: seq<FlowRow>, financing: seq<FlowRow>,
                               netChange: int, closing: int)

  function FlowTotal(rows: seq<FlowRow>): int {
    if rows == [] then 0 else FlowTotal(rows[..|rows| - 1]) + rows[|rows| - 1].amount
  }

  /** The vouchers that touched cash in the range. */
  function Moved(es: seq<Entry>, cash: set<nat>, start: Day, end: Day): set<nat> {
    set e | e in es && e.account in cash && start <= e.day <= end :: e.voucher
  }

  function Counterpart(es: seq<Entry>, moved: set<nat>, account: nat): int {
    -Net(es, Filter(In({account}), Any, In(moved), None, None))
  }

  function FlowRows(es: seq<Entry>, accounts: map<nat, Account>, chart: seq<nat>, cash: set<nat>, moved: set<nat>, bucket: Bucket): seq<FlowRow>
    requires forall a :: a in chart ==> a in accounts
  {
    if chart == [] then []
    else
      var a := chart[|chart| - 1];
      var rest := FlowRows(es, accounts, chart[..|chart| - 1], cash, moved, bucket);
      if a !in cash && Counterpart(es, moved, a) != 0 && BucketOf(accounts[a].kind, accounts[a].code) == bucket
      then rest + [FlowRow(a, Counterpart(es, moved, a))] else rest
  }

  function CashBefore(es: seq<Entry>, cash: set<nat>, start: Day): int {
    Net(es, Filter(In(cash), Any, Any, None, Some(start - 1)))
  }

  function FlowOf(es: seq<Entry>, accounts: map<nat, Account>, chart: seq<nat>, cash: set<nat>, start: Day, end: Day): CashFlow
    requires forall a :: a in chart ==> a in accounts
  {
    if cash == {} then CashFlow(0, [], [], [], 0, 0)
    else
      var moved := Moved(es, cash, start, end);
      var operating := FlowRows(es, accounts, chart, cash, moved, Operating);
      var investing := FlowRows(es, accounts, chart, cash, moved, Investing);
      var financing := FlowRows(es, accounts, chart, cash, moved, Financing);
      var change := FlowTotal(operating) + FlowTotal(investing) + FlowTotal(financing);
      CashFlow(CashBefore(es, cash, start), operating, investing, financing, change, CashBefore(es, cash, start) + change)
  }

  /** `cash_flow`. */
  method MakeCashFlow(es: seq<Entry>, accounts: map<nat, Account>, chart: seq<nat>, cash: set<nat>, start: Day, end: Day)
    returns (flow: CashFlow)
    requires IsChart(accounts, chart)
    ensures flow == FlowOf(es, accounts, chart, cash, start, end)
  {
    if cash == {} {
      return CashFlow(0, [], [], [], 0, 0);
    }
    var opening := CashBefore(es, cash, start);
    var moved := Moved(es, cash, start, end);
    var operating, investing, financing: seq<FlowRow> := [], [], [];
    for i := 0 to |chart|
      invariant forall a :: a in chart[..i] ==> a in accounts
      invariant operating == FlowRows(es, accounts, chart[..i], cash, moved, Operating)
      invariant investing == FlowRows(es, accounts, chart[..i], cash, moved, Investing)
      invariant financing == FlowRows(es, accounts, chart[..i], cash, moved, Financing)
    {
      var a := chart[i];
      assert a in accounts;
      assert chart[..i + 1][..i] == chart[..i];
      var amount := if a in cash then 0 else Counterpart(es, moved, a);
      if amount == 0 {
        continue;
      }
      match BucketOf(accounts[a].kind, accounts[a].code)
      case Operating => operating := operating + [FlowRow(a, amount)];
      case Investing => investing := investing + [FlowRow(a, amount)];
      case Financing => financing := financing + [FlowRow(a, amount)];
    }
    assert chart[..|chart|] == chart;
    var change := FlowTotal(operating) + FlowTotal(investing) + FlowTotal(financing);
    flow := CashFlow(opening, operating, investing, financing, change, opening + change);
  }

  /** The three buckets together hold every non-cash counterpart, once. */
  lemma {:induction false} BucketsCover(es: seq<Entry>, accounts: map<nat, Account>, chart: seq<nat>, cash: set<nat>, moved: set<nat>)
    requires forall a :: a in chart ==> a in accounts
    ensures FlowTotal(FlowRows(es, accounts, chart, cash, moved, Operating))
              + FlowTotal(FlowRows(es, accounts, chart, cash, moved, Investing))
              + FlowTotal(FlowRows(es, accounts, chart, cash, moved, Financing))
            == -NetOver(es, Filter(Any, Any, In(moved), None, None), chart, accounts.Keys - cash)
  {
    if chart != [] {
      var front, a := chart[..|chart| - 1], chart[|chart| - 1];
      BucketsCover(es, accounts, front, cash, moved);
      FlowAppend(FlowRows(es, accounts, front, cash, moved, BucketOf(accounts[a].kind, accounts[a].code)), FlowRow(a, Counterpart(es, moved, a)));
      assert a in chart;
    }
  }

  /** Where an account's money belongs: current assets and liabilities, incomes and
      expenses are the trade itself; other assets are what is bought for it; and other
      liabilities and equity are where money is raised. */
  predicate BelongsIn(kind: AccountType, code: string, bucket: Bucket) {
    var asset, debt := StartsWith(code, "11"), StartsWith(code, "21");
    match bucket
    case Operating => kind.Income? || kind.Expense? || (kind.Asset? && asset) || (kind.Liability? && debt)
    case Investing => kind.Asset? && !asset
    case Financing => kind.Equity? || (kind.Liability? && !debt)
  }

  /** The rows of a bucket are exactly the accounts that belong in it, outside cash, with
      what they were credited over debited by the vouchers that moved cash, where that is
      something. */
  lemma {:induction false} FlowRowIff(es: seq<Entry>, accounts: map<nat, Account>, chart: seq<nat>, cash: set<nat>, moved: set<nat>, bucket: Bucket, row: FlowRow)
    requires forall a :: a in chart ==> a in accounts
    ensures row in FlowRows(es, accounts, chart, cash, moved, bucket) <==>
              && row.account in chart && row.account !in cash && row.amount != 0
              && row.amount == -Net(es, Filter(In({row.account}), Any, In(moved), None, None))
              && BelongsIn(accounts[row.account].kind, accounts[row.account].code, bucket)
  {
    if chart != [] {
      var front, a := chart[..|chart| - 1], chart[|chart| - 1];
      FlowRowIff(es, accounts, front, cash, moved, bucket, row);
      assert chart == front + [a];
      assert BucketOf(accounts[a].kind, accounts[a].code) == bucket <==> BelongsIn(accounts[a].kind, accounts[a].code, bucket);
    }
  }

  lemma FlowAppend(rows: seq<FlowRow>, row: FlowRow)
    ensures FlowTotal(rows + [row]) == FlowTotal(rows) + row.amount
  {
    assert (rows + [row])[..|rows|] == rows;
  }

  /** The non-cash side of the vouchers that moved cash is exactly the cash they moved. */
  lemma CounterpartsAreCash(b: LedgerTables.Books, chart: seq<nat>, cash: set<nat>, start: Day, end: Day)
    requires BooksInv(b) && IsChart(b.accounts, chart)
    ensures -NetOver(b.entries, Filter(Any, Any, In(Moved(b.entries, cash, start, end)), None, None), chart, b.accounts.Keys - cash)
            == Net(b.entries, Filter(In(cash), Any, Any, Some(start), Some(end)))
  {
    var es, moved := b.entries, Moved(b.entries, cash, start, end);
    var whole := Filter(Any, Any, In(moved), None, None);
    var others := set a | a in chart && a in b.accounts.Keys - cash;
    NetOverIsNet(es, whole, chart, b.accounts.Keys - cash);
    VouchersNetZero(b, moved, None, None);
    assert whole == OfVouchersIn(moved, None, None);
    forall e | e in es ensures e.account in chart && (e.voucher in moved && e.account in cash <==> e.account in cash && start <= e.day <= end) {
      EntryFacts(b, e);
      if e.voucher in moved {
        var x :| x in es && x.account in cash && start <= x.day <= end && x.voucher == e.voucher;
        EntryFacts(b, x);
      }
    }
    SumsSplit(es, whole, whole.(accounts := In(others)), whole.(accounts := In(cash)));
    SumsCong(es, whole.(accounts := In(cash)), Filter(In(cash), Any, Any, Some(start), Some(end)));
  }

  /** Closing cash is the balance of the cash accounts as of the last day, and the sum
      of the cash book's closings. */
  lemma CashFlowTies(b: LedgerTables.Books, chart: seq<nat>, cash: set<nat>, start: Day, end: Day)
    requires BooksInv(b) && IsChart(b.accounts, chart) && start <= end
    ensures FlowOf(b.entries, b.accounts, chart, cash, start, end).closing == Net(b.entries, Filter(In(cash), Any, Any, None, Some(end)))
    ensures FlowOf(b.entries, b.accounts, chart, cash, start, end).closing == Closings(Books(b.entries, b.accounts, chart, cash, start, end))
  {
    var es, upto := b.entries, Filter(In(cash), Any, Any, None, Some(end));
    if cash == {} {
      SumsNone(es, upto);
    } else {
      var moved := Moved(es, cash, start, end);
      BucketsCover(es, b.accounts, chart, cash, moved);
      CounterpartsAreCash(b, chart, cash, start, end);
      SumsSplit(es, upto, Filter(In(cash), Any, Any, None, Some(start - 1)), Filter(In(cash), Any, Any, Some(start), Some(end)));
    }
    ClosingsAreNets(b, chart, cash, start, end);
    NetOverIsNet(es, Dated(None, Some(end)), chart, cash);
    forall e | e in es ensures e.account in chart {
      EntryFacts(b, e);
    }
    SumsCong(es, upto, Filter(In(set a | a in chart && a in cash), Any, Any, None, Some(end)));
  }
}
