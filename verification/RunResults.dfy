/** What every state a new organization can reach has in common: the results that hold
    over whole runs, each in the terms of one part of the system. */
module RunResults {
  import opened Basics
  import opened StockTables
  import opened DocumentTables
  import opened Pricing
  import opened DocumentStock
  import opened GoodsMoved
  import opened LedgerTables
  import opened Ledger
  import opened LedgerSums
  import opened ReversalChains
  import opened Statements
  import AccountStatements
  import opened CashReports
  import opened Documents
  import opened Lifecycle
  import opened DocumentMoney
  import opened DocumentVouchers
  import opened DocumentFacts
  import opened CreditSettlement
  import opened GoodsInvariant
  import opened GoodsOnce
  import opened OrgInvariant

  lemma Reached(o: Org, ops: seq<OrgOp>) returns (r: Org)
    requires IsNew(o)
    ensures r == OrgRun(o, ops) && OrgInv(r)
  {
    NewOrgOk(o);
    RunKeepsOrg(o, ops);
    r := OrgRun(o, ops);
  }

  /** Stock and tracking: each level is the sum of its movements and never negative; for
      serial goods it is the number of units in stock there; and a unit has a place
      exactly when it is in stock. */
  lemma StockAgreesInRuns(o: Org, ops: seq<OrgOp>, k: Key, id: UnitId)
    requires IsNew(o)
    ensures var s, c := OrgRun(o, ops).stock, OrgRun(o, ops).catalog;
            && Level(s, k) == OnHand(s.movements, k) && Level(s, k) >= 0
            && (ModeOf(c, k.product).SerialTracked? && k.lot.None? ==> Level(s, k) == 1000 * |UnitsAt(s.units, k.product, k.location, k.bin)|)
            && (ModeOf(c, k.product).SerialTracked? && k.lot.Some? ==> Level(s, k) == 0)
            && (id in s.units ==> (s.units[id].status.InStock? <==> s.units[id].location.Some?))
  {
    var r := Reached(o, ops);
    assert k == Key(k.product, k.location, k.bin, k.lot);
    assert Level(r.stock, k) != 0 ==> (k.lot.Some? <==> ModeOf(r.catalog, k.product).LotTracked?);
  }

  /** Documents: at most one live dependent each; none behind a draft or a void one; and
      an order is closed exactly when its one live dependent is sent. */
  lemma ChainsInRuns(o: Org, ops: seq<OrgOp>, id: nat)
    requires IsNew(o) && id in OrgRun(o, ops).docs
    ensures var docs := OrgRun(o, ops).docs;
            var dependents := ActiveDependents(docs, id, None);
            && |dependents| <= 1
            && (docs[id].status.DraftDoc? || docs[id].status.VoidDoc? ==> dependents == {})
            && (docs[id].kind.SalesOrder? || docs[id].kind.PurchaseOrder? ==> (docs[id].status.ClosedDoc? <==> exists i :: dependents == {i} && docs[i].status.SentDoc?))
  {
    var r := Reached(o, ops);
    var dependents := ActiveDependents(r.docs, id, None);
    assert Linked(r.docs, id);
    if i :| i in dependents {
      assert dependents == {i};
    }
    if r.docs[id].status.DraftDoc? || r.docs[id].status.VoidDoc? {
      DraftsHaveNoDependents(r.docs, r.next, id);
    }
  }

  /** Settlement: an invoice was credited with what its sent credit notes settled, each
      of them its whole, positive total, and its payment status says how much of its total
      is settled, and by what. */
  lemma CreditsInRuns(o: Org, ops: seq<OrgOp>, id: nat)
    requires IsNew(o) && id in OrgRun(o, ops).docs
    ensures var docs, next := OrgRun(o, ops).docs, OrgRun(o, ops).next;
            var d := docs[id];
            && d.credited == CreditedBy(docs, id, next) && d.credited >= 0 && d.paid >= 0
            && StatusByColumns(d)
            && (d.settled != 0 ==> d.kind.CreditNote? && d.status.SentDoc? && d.source.Some? && d.settled == d.total && d.total > 0)
  {
    var r := Reached(o, ops);
    assert Settled(r.docs, r.next, id);
    CreditedNonNegative(r.docs, r.next, id, r.next);
  }

  /** Money: every line is priced as its own columns say, at its rate's current
      percentage, and every total is the sum of its lines' columns. */
  lemma MoneyInRuns(o: Org, ops: seq<OrgOp>, id: nat, i: nat)
    requires IsNew(o) && id in OrgRun(o, ops).docs
    ensures var r := OrgRun(o, ops);
            var d := r.docs[id];
            && TotalsByColumns(d)
            && (i < |d.lines| ==>
                  && PricedByColumns(d.lines[i], r.rates)
                  && (d.lines[i].input.taxRate.Some? ==> d.lines[i].input.taxRate.value in r.rates))
  {
    var r := Reached(o, ops);
    assert MoneySound(r.docs[id], r.rates);
    SoundByColumns(r.docs[id], r.rates, i);
    assert i < |r.docs[id].lines| ==> LineSound(r.docs[id].lines[i], r.rates);
  }

  /** What a balance sheet lists comes to: assets, and liabilities and equity with the
      earnings folded in. */
  function Assets(b: Books, chart: seq<nat>, asOf: Day): int {
    TotalOf(Rows(b.entries, Dated(None, Some(asOf)), chart, OfKind(b.accounts, {Asset}), 1))
  }

  function Claims(b: Books, chart: seq<nat>, asOf: Day): int {
    var f := Dated(None, Some(asOf));
    TotalOf(Rows(b.entries, f, chart, OfKind(b.accounts, {Liability}), -1))
      + TotalOf(Rows(b.entries, f, chart, OfKind(b.accounts, {Equity}), -1)
                + EarningsRow(-NetOver(b.entries, f, chart, OfKind(b.accounts, {Income, Expense}))))
  }

  /** The trial balance and the balance sheet tie as of the last day, the general ledger
      over the range, and the cash flow with the balance of the cash accounts and with
      the cash book. */
  ghost predicate ReportsTie(b: Books, chart: seq<nat>, cash: set<nat>, start: Day, end: Day)
    requires IsChart(b.accounts, chart)
  {
    var upTo, during := Dated(None, Some(end)), Dated(Some(start), Some(end));
    var closing := FlowOf(b.entries, b.accounts, chart, cash, start, end).closing;
    && DebitSide(b.entries, upTo, chart) == CreditSide(b.entries, upTo, chart)
    && Assets(b, chart, end) == Claims(b, chart, end)
    && AccountStatements.DebitOver(b.entries, during, chart) == AccountStatements.CreditOver(b.entries, during, chart)
    && closing == Net(b.entries, Filter(In(cash), Any, Any, None, Some(end)))
    && closing == Closings(CashReports.Books(b.entries, b.accounts, chart, cash, start, end))
  }

  lemma SoundBooksTie(b: Books, chart: seq<nat>, cash: set<nat>, start: Day, end: Day)
    requires BooksInv(b) && IsChart(b.accounts, chart) && start <= end
    ensures ReportsTie(b, chart, cash, start, end)
  {
    TrialBalanceTies(b, chart, end);
    BalanceSheetTies(b, chart, {}, end);
    AccountStatements.GeneralLedgerTies(b, chart, start, end);
    CashFlowTies(b, chart, cash, start, end);
  }

  /** Reports: so it is for every ledger a run can reach, every day and every range. */
  lemma ReportsTieInRuns(o: Org, ops: seq<OrgOp>, chart: seq<nat>, cash: set<nat>, start: Day, end: Day)
    requires IsNew(o) && IsChart(OrgRun(o, ops).books.accounts, chart) && start <= end
    ensures ReportsTie(OrgRun(o, ops).books, chart, cash, start, end)
  {
    var r := Reached(o, ops);
    SoundBooksTie(r.books, chart, cash, start, end);
  }

  /** Reversals: each voucher was reversed at most once, so the reversals of a posted one
      form a chain, of which only the last still stands; on any account and party the
      chain nets to nothing if it is even and to its first voucher if it is odd. */
  lemma ReversalsInRuns(o: Org, ops: seq<OrgOp>, root: nat, n: nat, account: nat, party: Option<nat>)
    requires IsNew(o) && root < |OrgRun(o, ops).books.vouchers| && IsPosted(OrgRun(o, ops).books.vouchers[root])
    requires n < |Chain(OrgRun(o, ops).books.vouchers, root)|
    ensures var vs, ids := OrgRun(o, ops).books.vouchers, Chain(OrgRun(o, ops).books.vouchers, root);
            && (vs[ids[n]].status.Posted? <==> n == |ids| - 1)
            && ChainNet(vs, ids, account, party) == if |ids| % 2 == 0 then 0 else LineNet(vs[root].lines, account, party)
  {
    var r := Reached(o, ops);
    OnlyLastStands(r.books.vouchers, root, n);
    ChainNets(r.books.vouchers, root, account, party);
  }
}
