/** The ledger tables: chart of accounts, fiscal years and periods, vouchers and
    the immutable entries they post, and sums over selected entries. Amounts are
    ten-thousandths; a day is its position in the calendar. */
module LedgerTables {
  import opened Basics

  type Day = int

  datatype AccountType = Asset | Liability | Equity | Income | Expense

  datatype Account = Account(parent: Option<nat>, code: string, kind: AccountType, control: bool, postable: bool, active: bool)

  datatype FiscalYear = FiscalYear(starts: Day, ends: Day, active: bool)

  datatype PeriodStatus = Open | Locked | Closed

  datatype Period = Period(year: nat, starts: Day, ends: Day, status: PeriodStatus)

  datatype VoucherType =
    Journal | OpeningVoucher | Reversal | SalesInvoice | DeliveryVoucher | CustomerReceipt | CreditVoucher | BillVoucher |
    VendorPayment | ReceiptVoucher | ExpenseVoucher | StockVoucher

  datatype VoucherStatus = Draft | Posted | Reversed | Cancelled

  datatype SourceKind =
    DocumentKind | PaymentReceivedKind | PaymentMadeKind | ExpenseKind | AdjustmentKind | OpeningStockKind |
    PartyOpeningKind | OpeningBalancesKind | CommissionKind

  datatype Source = NoSource | Source(kind: SourceKind, id: nat)

  datatype Line = Line(account: nat, party: Option<nat>, debit: int, credit: int)

  /** A voucher row. Its id is its position; lines never change once it is posted. */
  datatype Voucher = Voucher(kind: VoucherType, day: Day, status: VoucherStatus, source: Source, lines: seq<Line>,
                             reversedFrom: Option<nat>, year: nat)

  datatype Entry = Entry(account: nat, party: Option<nat>, voucher: nat, day: Day, kind: VoucherType, debit: int, credit: int, year: nat)

  datatype Books = Books(accounts: map<nat, Account>, parties: set<nat>, years: map<nat, FiscalYear>, periods: seq<Period>,
                         vouchers: seq<Voucher>, entries: seq<Entry>)

  // -------------------------------------------------------- voucher line totals

  function TotalDebit(lines: seq<Line>): int {
    if lines == [] then 0 else TotalDebit(lines[..|lines| - 1]) + lines[|lines| - 1].debit
  }

  function TotalCredit(lines: seq<Line>): int {
    if lines == [] then 0 else TotalCredit(lines[..|lines| - 1]) + lines[|lines| - 1].credit
  }

  lemma TotalsAppend(lines: seq<Line>, line: Line)
    ensures TotalDebit(lines + [line]) == TotalDebit(lines) + line.debit
    ensures TotalCredit(lines + [line]) == TotalCredit(lines) + line.credit
  {
    assert (lines + [line])[..|lines|] == lines;
  }

  /** Debit minus credit of the lines on one account and party. */
  function LineNet(lines: seq<Line>, account: nat, party: Option<nat>): int {
    if lines == [] then 0
    else
      var line := lines[|lines| - 1];
      LineNet(lines[..|lines| - 1], account, party)
      + (if line.account == account && line.party == party then line.debit - line.credit else 0)
  }

  // -------------------------------------------------------- entries and sums

  /** The entries a voucher posts, one for each line. */
  function EntriesFrom(id: nat, v: Voucher, lines: seq<Line>): seq<Entry> {
    if lines == [] then []
    else
      var line := lines[|lines| - 1];
      EntriesFrom(id, v, lines[..|lines| - 1])
      + [Entry(line.account, line.party, id, v.day, v.kind, line.debit, line.credit, v.year)]
  }

  function EntriesOf(es: seq<Entry>, voucher: nat): seq<Entry> {
    if es == [] then []
    else EntriesOf(es[..|es| - 1], voucher) + (if es[|es| - 1].voucher == voucher then [es[|es| - 1]] else [])
  }

  /** A condition on one column of a query. */
  datatype Pick<T(==)> = Any | In(members: set<T>) | NotIn(members: set<T>) {
    predicate Has(x: T) {
      match this
      case Any => true
      case In(members) => x in members
      case NotIn(members) => x !in members
    }
  }

  /** Which entries a query selects; a missing bound leaves that side open. */
  datatype Filter = Filter(accounts: Pick<nat>, parties: Pick<Option<nat>>, vouchers: Pick<nat>, from: Option<Day>, to: Option<Day>)

  const Everything: Filter := Filter(Any, Any, Any, None, None)

  predicate Matches(e: Entry, f: Filter) {
    && f.accounts.Has(e.account)
    && f.parties.Has(e.party)
    && f.vouchers.Has(e.voucher)
    && (f.from.Some? ==> f.from.value <= e.day)
    && (f.to.Some? ==> e.day <= f.to.value)
  }

  function SumDebit(es: seq<Entry>, f: Filter): int {
    if es == [] then 0
    else SumDebit(es[..|es| - 1], f) + (if Matches(es[|es| - 1], f) then es[|es| - 1].debit else 0)
  }

  function SumCredit(es: seq<Entry>, f: Filter): int {
    if es == [] then 0
    else SumCredit(es[..|es| - 1], f) + (if Matches(es[|es| - 1], f) then es[|es| - 1].credit else 0)
  }

  /** Debit minus credit of the selected entries. */
  function Net(es: seq<Entry>, f: Filter): int {
    SumDebit(es, f) - SumCredit(es, f)
  }

  lemma SumsAppend(es: seq<Entry>, e: Entry, f: Filter)
    ensures SumDebit(es + [e], f) == SumDebit(es, f) + if Matches(e, f) then e.debit else 0
    ensures SumCredit(es + [e], f) == SumCredit(es, f) + if Matches(e, f) then e.credit else 0
  {
    assert (es + [e])[..|es|] == es;
  }

  /** Two filters that select the same entries have the same sums. */
  lemma {:induction false} SumsCong(es: seq<Entry>, f: Filter, g: Filter)
    requires forall e :: e in es ==> (Matches(e, f) <==> Matches(e, g))
    ensures SumDebit(es, f) == SumDebit(es, g) && SumCredit(es, f) == SumCredit(es, g)
  {
    if es != [] {
      assert es[|es| - 1] in es;
      SumsCong(es[..|es| - 1], f, g);
    }
  }

  /** A filter that is two disjoint ones together sums to their sums. */
  lemma {:induction false} SumsSplit(es: seq<Entry>, f: Filter, g: Filter, h: Filter)
    requires forall e :: e in es ==> (Matches(e, f) <==> Matches(e, g) || Matches(e, h)) && !(Matches(e, g) && Matches(e, h))
    ensures SumDebit(es, f) == SumDebit(es, g) + SumDebit(es, h) && SumCredit(es, f) == SumCredit(es, g) + SumCredit(es, h)
  {
    if es != [] {
      assert es[|es| - 1] in es;
      SumsSplit(es[..|es| - 1], f, g, h);
    }
  }

  lemma {:induction false} SumsNone(es: seq<Entry>, f: Filter)
    requires forall e :: e in es ==> !Matches(e, f)
    ensures SumDebit(es, f) == 0 && SumCredit(es, f) == 0
  {
    if es != [] {
      assert es[|es| - 1] in es;
      SumsNone(es[..|es| - 1], f);
    }
  }

  lemma {:induction false} SumsConcat(es: seq<Entry>, more: seq<Entry>, f: Filter)
    ensures SumDebit(es + more, f) == SumDebit(es, f) + SumDebit(more, f)
    ensures SumCredit(es + more, f) == SumCredit(es, f) + SumCredit(more, f)
  {
    if more == [] {
      assert es + more == es;
    } else {
      SumsConcat(es, more[..|more| - 1], f);
      assert es + more == es + more[..|more| - 1] + [more[|more| - 1]];
      SumsAppend(es + more[..|more| - 1], more[|more| - 1], f);
    }
  }

  /** Selecting one voucher's entries and then filtering is filtering on the voucher. */
  lemma {:induction false} SumsOfVoucher(es: seq<Entry>, voucher: nat, f: Filter)
    requires f.vouchers.Any?
    ensures var g := f.(vouchers := In({voucher}));
            SumDebit(es, g) == SumDebit(EntriesOf(es, voucher), f) && SumCredit(es, g) == SumCredit(EntriesOf(es, voucher), f)
  {
    if es != [] {
      SumsOfVoucher(es[..|es| - 1], voucher, f);
      var last, g := es[|es| - 1], f.(vouchers := In({voucher}));
      SumsAppend(EntriesOf(es[..|es| - 1], voucher), last, f);
      assert Matches(last, g) <==> Matches(last, f) && last.voucher == voucher;
      assert last.voucher != voucher ==> EntriesOf(es, voucher) == EntriesOf(es[..|es| - 1], voucher);
    }
  }

  lemma {:induction false} EntriesOfConcat(es: seq<Entry>, more: seq<Entry>, voucher: nat)
    ensures EntriesOf(es + more, voucher) == EntriesOf(es, voucher) + EntriesOf(more, voucher)
  {
    if more == [] {
      assert es + more == es;
    } else {
      var front, last := more[..|more| - 1], more[|more| - 1];
      EntriesOfConcat(es, front, voucher);
      assert es + more == (es + front) + [last];
      assert ((es + front) + [last])[..|es + front|] == es + front;
    }
  }

  lemma {:induction false} EntriesFromShape(id: nat, v: Voucher, lines: seq<Line>)
    ensures |EntriesFrom(id, v, lines)| == |lines|
    ensures forall i :: 0 <= i < |lines| ==>
              EntriesFrom(id, v, lines)[i] == Entry(lines[i].account, lines[i].party, id, v.day, v.kind, lines[i].debit, lines[i].credit, v.year)
  {
    if lines != [] {
      EntriesFromShape(id, v, lines[..|lines| - 1]);
    }
  }

  lemma {:induction false} EntriesOfBlock(id: nat, v: Voucher, lines: seq<Line>, voucher: nat)
    ensures EntriesOf(EntriesFrom(id, v, lines), voucher) == if voucher == id then EntriesFrom(id, v, lines) else []
  {
    if lines != [] {
      var front := EntriesFrom(id, v, lines[..|lines| - 1]);
      EntriesOfBlock(id, v, lines[..|lines| - 1], voucher);
      assert EntriesFrom(id, v, lines)[..|front|] == front;
    }
  }

  /** A voucher's entries sum to its lines. */
  lemma {:induction false} SumsOfBlock(id: nat, v: Voucher, lines: seq<Line>)
    ensures SumDebit(EntriesFrom(id, v, lines), Everything) == TotalDebit(lines)
    ensures SumCredit(EntriesFrom(id, v, lines), Everything) == TotalCredit(lines)
  {
    if lines != [] {
      var front := EntriesFrom(id, v, lines[..|lines| - 1]);
      SumsOfBlock(id, v, lines[..|lines| - 1]);
      assert EntriesFrom(id, v, lines)[..|front|] == front;
    }
  }

  /** One account and party, up to a day. */
  function OfParty(account: nat, party: Option<nat>, day: Day): Filter {
    Filter(In({account}), In({party}), Any, None, Some(day))
  }

  lemma {:induction false} NetOfBlock(id: nat, v: Voucher, lines: seq<Line>, account: nat, party: Option<nat>, day: Day)
    ensures Net(EntriesFrom(id, v, lines), OfParty(account, party, day)) == if v.day <= day then LineNet(lines, account, party) else 0
  {
    if lines != [] {
      var front := EntriesFrom(id, v, lines[..|lines| - 1]);
      NetOfBlock(id, v, lines[..|lines| - 1], account, party, day);
      assert EntriesFrom(id, v, lines)[..|front|] == front;
    }
  }
}
