/** Trial balance, profit and loss, and balance sheet, and why they always tie. */
module Statements {
  import opened Basics
  import opened LedgerTables
  import opened Ledger
  import opened LedgerSums

  /** An account, or none for current-period earnings, with its figure. */
  datatype Row = Row(account: Option<nat>, amount: int)

  function TotalOf(rows: seq<Row>): int {
    if rows == [] then 0 else TotalOf(rows[..|rows| - 1]) + rows[|rows| - 1].amount
  }

  lemma TotalAppend(rows: seq<Row>, row: Row)
    ensures TotalOf(rows + [row]) == TotalOf(rows) + row.amount
  {
    assert (rows + [row])[..|rows|] == rows;
  }

  /** The rows of the accounts a condition selects, in chart order, leaving out
      zeros; a sign of -1 shows credit balances as positive. */
  function Rows(es: seq<Entry>, f: Filter, chart: seq<nat>, chosen: set<nat>, sign: int): seq<Row> {
    if chart == [] then []
    else
      var a := chart[|chart| - 1];
      var amount := sign * AccountNet(es, f, a);
      var rest := Rows(es, f, chart[..|chart| - 1], chosen, sign);
      if a in chosen && amount != 0 then rest + [Row(Some(a), amount)] else rest
  }

  lemma {:induction false} RowsTotal(es: seq<Entry>, f: Filter, chart: seq<nat>, chosen: set<nat>, sign: int)
    ensures TotalOf(Rows(es, f, chart, chosen, sign)) == sign * NetOver(es, f, chart, chosen)
  {
    if chart != [] {
      var front, a := chart[..|chart| - 1], chart[|chart| - 1];
      var amount := sign * AccountNet(es, f, a);
      RowsTotal(es, f, front, chosen, sign);
      TotalAppend(Rows(es, f, front, chosen, sign), Row(Some(a), amount));
      Distributes(sign, NetOver(es, f, front, chosen), AccountNet(es, f, a));
    }
  }

  lemma NextRow(es: seq<Entry>, f: Filter, chart: seq<nat>, i: nat, chosen: set<nat>, sign: int)
    requires i < |chart|
    ensures Rows(es, f, chart[..i + 1], chosen, sign) ==
              Rows(es, f, chart[..i], chosen, sign)
              + if chart[i] in chosen && sign * AccountNet(es, f, chart[i]) != 0 then [Row(Some(chart[i]), sign * AccountNet(es, f, chart[i]))] else []
  {
    assert chart[..i + 1][..i] == chart[..i];
  }

  /** The rows are exactly the chosen accounts that come to something, each with what it
      comes to on the side shown. */
  lemma {:induction false} RowIff(es: seq<Entry>, f: Filter, chart: seq<nat>, chosen: set<nat>, sign: int, row: Row)
    ensures row in Rows(es, f, chart, chosen, sign) <==>
              row.account.Some? && row.account.value in chart && row.account.value in chosen
              && row.amount == sign * Net(es, OnAccount(f, row.account.value)) && row.amount != 0
  {
    if chart != [] {
      RowIff(es, f, chart[..|chart| - 1], chosen, sign, row);
      assert chart == chart[..|chart| - 1] + [chart[|chart| - 1]];
    }
  }

  // ----------------------------------------------------------- trial balance

  datatype TrialLine = TrialLine(account: nat, debit: int, credit: int)

  datatype TrialBalance = TrialBalance(lines: seq<TrialLine>, totalDebit: int, totalCredit: int, balanced: bool)

  function Positive(x: int): int {
    if x > 0 then x else 0
  }

  function TrialLines(es: seq<Entry>, f: Filter, chart: seq<nat>): seq<TrialLine> {
    if chart == [] then []
    else
      var a := chart[|chart| - 1];
      var net := AccountNet(es, f, a);
      var rest := TrialLines(es, f, chart[..|chart| - 1]);
      if net != 0 then rest + [TrialLine(a, Positive(net), Positive(-net))] else rest
  }

  function DebitSide(es: seq<Entry>, f: Filter, chart: seq<nat>): int {
    if chart == [] then 0 else DebitSide(es, f, chart[..|chart| - 1]) + Positive(AccountNet(es, f, chart[|chart| - 1]))
  }

  function CreditSide(es: seq<Entry>, f: Filter, chart: seq<nat>): int {
    if chart == [] then 0 else CreditSide(es, f, chart[..|chart| - 1]) + Positive(-AccountNet(es, f, chart[|chart| - 1]))
  }

  /** `trial_balance`. */
  method MakeTrialBalance(es: seq<Entry>, chart: seq<nat>, asOf: Day) returns (t: TrialBalance)
    ensures t.lines == TrialLines(es, Dated(None, Some(asOf)), chart)
    ensures t.totalDebit == DebitSide(es, Dated(None, Some(asOf)), chart)
    ensures t.totalCredit == CreditSide(es, Dated(None, Some(asOf)), chart)
    ensures t.balanced <==> t.totalDebit == t.totalCredit
  {
    var f := Dated(None, Some(asOf));
    var lines, totalDebit, totalCredit := [], 0, 0;
    for i := 0 to |chart|
      invariant lines == TrialLines(es, f, chart[..i])
      invariant totalDebit == DebitSide(es, f, chart[..i])
      invariant totalCredit == CreditSide(es, f, chart[..i])
    {
      var net := AccountNet(es, f, chart[i]);
      assert chart[..i + 1][..i] == chart[..i];
      if net == 0 {
        continue;
      }
      var rowDebit := if net > 0 then net else 0;
      var rowCredit := if net < 0 then -net else 0;
      totalDebit := totalDebit + rowDebit;
      totalCredit := totalCredit + rowCredit;
      lines := lines + [TrialLine(chart[i], rowDebit, rowCredit)];
    }
    assert chart[..|chart|] == chart;
    t := TrialBalance(lines, totalDebit, totalCredit, totalDebit == totalCredit);
  }

  lemma {:induction false} SidesDifferByNet(es: seq<Entry>, f: Filter, chart: seq<nat>, all: set<nat>)
    requires forall a :: a in chart ==> a in all
    ensures DebitSide(es, f, chart) - CreditSide(es, f, chart) == NetOver(es, f, chart, all)
  {
    if chart != [] {
      assert chart[|chart| - 1] in chart;
      SidesDifferByNet(es, f, chart[..|chart| - 1], all);
    }
  }

  /** The lines are exactly the accounts with a balance, each with all of it on its side. */
  lemma {:induction false} TrialLineIff(es: seq<Entry>, f: Filter, chart: seq<nat>, line: TrialLine)
    ensures line in TrialLines(es, f, chart) <==>
              line.account in chart && Net(es, OnAccount(f, line.account)) != 0 && line.debit >= 0 && line.credit >= 0
              && (line.debit == 0 || line.credit == 0) && line.debit - line.credit == Net(es, OnAccount(f, line.account))
  {
    if chart != [] {
      TrialLineIff(es, f, chart[..|chart| - 1], line);
      assert chart == chart[..|chart| - 1] + [chart[|chart| - 1]];
    }
  }

  /** The trial balance of sound books ties as of every date. */
  lemma TrialBalanceTies(b: Books, chart: seq<nat>, asOf: Day)
    requires BooksInv(b) && IsChart(b.accounts, chart)
    ensures DebitSide(b.entries, Dated(None, Some(asOf)), chart) == CreditSide(b.entries, Dated(None, Some(asOf)), chart)
  {
    ChartBalances(b, chart, b.accounts.Keys, {}, None, Some(asOf));
    NobodyNets(b.entries, Dated(None, Some(asOf)), chart);
    SidesDifferByNet(b.entries, Dated(None, Some(asOf)), chart, b.accounts.Keys);
  }

  lemma {:induction false} NobodyNets(es: seq<Entry>, f: Filter, chart: seq<nat>)
    ensures NetOver(es, f, chart, {}) == 0
  {
    if chart != [] {
      NobodyNets(es, f, chart[..|chart| - 1]);
    }
  }

  // --------------------------------------------------------- profit and loss

  function OfKind(accounts: map<nat, Account>, kinds: set<AccountType>): set<nat> {
    set a | a in accounts && accounts[a].kind in kinds
  }

  datatype ProfitAndLoss = ProfitAndLoss(income: seq<Row>, costOfSales: seq<Row>, operating: seq<Row>,
                                         totalIncome: int, totalCost: int, grossProfit: int, totalOperating: int, netProfit: int)

  /** `profit_and_loss`; `costs` is the cost-of-sales subtree. */
  method MakeProfitAndLoss(es: seq<Entry>, accounts: map<nat, Account>, chart: seq<nat>, costs: set<nat>, from: Option<Day>, to: Day)
    returns (p: ProfitAndLoss)
    requires IsChart(accounts, chart)
    ensures p.income == Rows(es, Dated(from, Some(to)), chart, OfKind(accounts, {Income}), -1)
    ensures p.costOfSales == Rows(es, Dated(from, Some(to)), chart, OfKind(accounts, {Expense}) * costs, 1)
    ensures p.operating == Rows(es, Dated(from, Some(to)), chart, OfKind(accounts, {Expense}) - costs, 1)
    ensures p.totalIncome == TotalOf(p.income) && p.totalCost == TotalOf(p.costOfSales) && p.totalOperating == TotalOf(p.operating)
    ensures p.grossProfit == p.totalIncome - p.totalCost
    ensures p.netProfit == -NetOver(es, Dated(from, Some(to)), chart, OfKind(accounts, {Income, Expense}))
  {
    var f := Dated(from, Some(to));
    var income, cost, operating: seq<Row> := [], [], [];
    for i := 0 to |chart|
      invariant income == Rows(es, f, chart[..i], OfKind(accounts, {Income}), -1)
      invariant cost == Rows(es, f, chart[..i], OfKind(accounts, {Expense}) * costs, 1)
      invariant operating == Rows(es, f, chart[..i], OfKind(accounts, {Expense}) - costs, 1)
    {
      var a := chart[i];
      assert a in accounts;
      assert chart[..i + 1][..i] == chart[..i];
      if accounts[a].kind.Income? {
        var amount := SumCredit(es, OnAccount(f, a)) - SumDebit(es, OnAccount(f, a));
        if amount != 0 {
          income := income + [Row(Some(a), amount)];
        }
      } else if accounts[a].kind.Expense? {
        var amount := SumDebit(es, OnAccount(f, a)) - SumCredit(es, OnAccount(f, a));
        if amount != 0 {
          if a in costs {
            cost := cost + [Row(Some(a), amount)];
          } else {
            operating := operating + [Row(Some(a), amount)];
          }
        }
      }
    }
    assert chart[..|chart|] == chart;
    var gross := TotalOf(income) - TotalOf(cost);
    p := ProfitAndLoss(income, cost, operating, TotalOf(income), TotalOf(cost), gross, TotalOf(operating), gross - TotalOf(operating));
    ProfitIsNet(es, accounts, chart, costs, f);
  }

  lemma {:induction false} NetOverUnion(es: seq<Entry>, f: Filter, chart: seq<nat>, one: set<nat>, two: set<nat>)
    requires one !! two
    ensures NetOver(es, f, chart, one + two) == NetOver(es, f, chart, one) + NetOver(es, f, chart, two)
  {
    if chart != [] {
      NetOverUnion(es, f, chart[..|chart| - 1], one, two);
    }
  }

  /** Income less costs less operating expenses is the net of all of them. */
  lemma ProfitIsNet(es: seq<Entry>, accounts: map<nat, Account>, chart: seq<nat>, costs: set<nat>, f: Filter)
    ensures var income, expense := OfKind(accounts, {Income}), OfKind(accounts, {Expense});
            TotalOf(Rows(es, f, chart, income, -1)) - TotalOf(Rows(es, f, chart, expense * costs, 1))
              - TotalOf(Rows(es, f, chart, expense - costs, 1))
            == -NetOver(es, f, chart, OfKind(accounts, {Income, Expense}))
  {
    var income, expense := OfKind(accounts, {Income}), OfKind(accounts, {Expense});
    RowsTotal(es, f, chart, income, -1);
    RowsTotal(es, f, chart, expense * costs, 1);
    RowsTotal(es, f, chart, expense - costs, 1);
    NetOverUnion(es, f, chart, expense * costs, expense - costs);
    NetOverUnion(es, f, chart, income, expense);
    assert expense * costs + (expense - costs) == expense;
    assert income + expense == OfKind(accounts, {Income, Expense});
  }

  // ------------------------------------------------------------ balance sheet

  datatype BalanceSheet = BalanceSheet(assets: seq<Row>, liabilities: seq<Row>, equity: seq<Row>,
                                       totalAssets: int, totalLiabilities: int, totalEquity: int, balanced: bool)

  function EarningsRow(earnings: int): seq<Row> {
    if earnings != 0 then [Row(None, earnings)] else []
  }

  /** `balance_sheet`. */
  method MakeBalanceSheet(es: seq<Entry>, accounts: map<nat, Account>, chart: seq<nat>, asOf: Day) returns (s: BalanceSheet)
    requires IsChart(accounts, chart)
    ensures var f := Dated(None, Some(asOf));
            && s.assets == Rows(es, f, chart, OfKind(accounts, {Asset}), 1)
            && s.liabilities == Rows(es, f, chart, OfKind(accounts, {Liability}), -1)
            && s.equity == Rows(es, f, chart, OfKind(accounts, {Equity}), -1)
                 + EarningsRow(-NetOver(es, f, chart, OfKind(accounts, {Income, Expense})))
    ensures s.totalAssets == TotalOf(s.assets) && s.totalLiabilities == TotalOf(s.liabilities) && s.totalEquity == TotalOf(s.equity)
    ensures s.balanced <==> s.totalAssets == s.totalLiabilities + s.totalEquity
  {
    var f := Dated(None, Some(asOf));
    var assets, liabilities, equity: seq<Row> := [], [], [];
    var earnings := 0;
    for i := 0 to |chart|
      invariant assets == Rows(es, f, chart[..i], OfKind(accounts, {Asset}), 1)
      invariant liabilities == Rows(es, f, chart[..i], OfKind(accounts, {Liability}), -1)
      invariant equity == Rows(es, f, chart[..i], OfKind(accounts, {Equity}), -1)
      invariant earnings == -NetOver(es, f, chart[..i], OfKind(accounts, {Income, Expense}))
    {
      var a := chart[i];
      assert a in accounts;
      assert chart[..i + 1][..i] == chart[..i];
      var debit, credit := SumDebit(es, OnAccount(f, a)), SumCredit(es, OnAccount(f, a));
      NextRow(es, f, chart, i, OfKind(accounts, {Asset}), 1);
      NextRow(es, f, chart, i, OfKind(accounts, {Liability}), -1);
      NextRow(es, f, chart, i, OfKind(accounts, {Equity}), -1);
      match accounts[a].kind
      case Asset =>
        if debit - credit != 0 { assets := assets + [Row(Some(a), debit - credit)]; }
      case Liability =>
        if credit - debit != 0 { liabilities := liabilities + [Row(Some(a), credit - debit)]; }
      case Equity =>
        if credit - debit != 0 { equity := equity + [Row(Some(a), credit - debit)]; }
      case _ =>
        earnings := earnings + credit - debit;
    }
    assert chart[..|chart|] == chart;
    if earnings != 0 {
      equity := equity + [Row(None, earnings)];
    }
    s := BalanceSheet(assets, liabilities, equity, TotalOf(assets), TotalOf(liabilities), TotalOf(equity),
                      TotalOf(assets) == TotalOf(liabilities) + TotalOf(equity));
  }

  /** Assets equal liabilities and equity, earnings folded in, as of every date; and
      those earnings are the net profit of everything posted up to then. */
  lemma BalanceSheetTies(b: Books, chart: seq<nat>, costs: set<nat>, asOf: Day)
    requires BooksInv(b) && IsChart(b.accounts, chart)
    ensures var f := Dated(None, Some(asOf));
            var earnings := -NetOver(b.entries, f, chart, OfKind(b.accounts, {Income, Expense}));
            && TotalOf(Rows(b.entries, f, chart, OfKind(b.accounts, {Asset}), 1)) ==
               TotalOf(Rows(b.entries, f, chart, OfKind(b.accounts, {Liability}), -1))
               + TotalOf(Rows(b.entries, f, chart, OfKind(b.accounts, {Equity}), -1) + EarningsRow(earnings))
            && earnings == TotalOf(Rows(b.entries, f, chart, OfKind(b.accounts, {Income}), -1))
                 - TotalOf(Rows(b.entries, f, chart, OfKind(b.accounts, {Expense}) * costs, 1))
                 - TotalOf(Rows(b.entries, f, chart, OfKind(b.accounts, {Expense}) - costs, 1))
  {
    var f := Dated(None, Some(asOf));
    var es, accounts := b.entries, b.accounts;
    var assets, liabilities, equity := OfKind(accounts, {Asset}), OfKind(accounts, {Liability}), OfKind(accounts, {Equity});
    var results := OfKind(accounts, {Income, Expense});
    var earnings := -NetOver(es, f, chart, results);
    RowsTotal(es, f, chart, assets, 1);
    RowsTotal(es, f, chart, liabilities, -1);
    RowsTotal(es, f, chart, equity, -1);
    if earnings != 0 {
      TotalAppend(Rows(es, f, chart, equity, -1), Row(None, earnings));
    } else {
      assert Rows(es, f, chart, equity, -1) + EarningsRow(earnings) == Rows(es, f, chart, equity, -1);
    }
    NetOverUnion(es, f, chart, liabilities, equity);
    NetOverUnion(es, f, chart, liabilities + equity, results);
    forall a | a in chart ensures a in assets || a in liabilities + equity + results {
      match accounts[a].kind
      case Asset =>
      case Liability =>
      case Equity =>
      case Income =>
      case Expense =>
    }
    ChartBalances(b, chart, assets, liabilities + equity + results, None, Some(asOf));
    ProfitIsNet(es, accounts, chart, costs, f);
  }
}
