/** Sums over the ledger of sound books: any set of whole vouchers nets to zero, so
    any range of dates does, and the accounts of the chart share the rest out. */
module LedgerSums {
  import opened Basics
  import opened LedgerTables
  import opened Ledger

  /** Whole vouchers, optionally within a range of dates. */
  function OfVouchersIn(ids: set<nat>, from: Option<Day>, to: Option<Day>): Filter {
    Filter(Any, Any, In(ids), from, to)
  }

  function Dated(from: Option<Day>, to: Option<Day>): Filter {
    Filter(Any, Any, Any, from, to)
  }

  /** Every entry of a posted voucher carries the voucher's date. */
  lemma {:induction false} EntryOfItsVoucher(es: seq<Entry>, i: nat)
    requires i < |es|
    ensures es[i] in EntriesOf(es, es[i].voucher)
  {
    if i < |es| - 1 {
      EntryOfItsVoucher(es[..|es| - 1], i);
    }
  }

  lemma EntryFacts(b: Books, e: Entry)
    requires BooksInv(b) && e in b.entries
    ensures e.voucher < |b.vouchers| && e.day == b.vouchers[e.voucher].day
    ensures e.account in b.accounts && b.accounts[e.account].postable
  {
    var i :| 0 <= i < |b.entries| && b.entries[i] == e;
    EntryOfItsVoucher(b.entries, i);
    var v := b.vouchers[e.voucher];
    EntriesFromShape(e.voucher, v, v.lines);
    assert IsPosted(v) && SoundLines(b.accounts, v.lines);
  }

  /** One balanced voucher's entries net to zero over any range: they share a date. */
  lemma BlockNetsZero(id: nat, v: Voucher, from: Option<Day>, to: Option<Day>)
    requires TotalDebit(v.lines) == TotalCredit(v.lines)
    ensures Net(EntriesFrom(id, v, v.lines), Dated(from, to)) == 0
  {
    var block := EntriesFrom(id, v, v.lines);
    EntriesFromShape(id, v, v.lines);
    if (from.Some? ==> from.value <= v.day) && (to.Some? ==> v.day <= to.value) {
      SumsCong(block, Dated(from, to), Everything);
      SumsOfBlock(id, v, v.lines);
    } else {
      SumsNone(block, Dated(from, to));
    }
  }

  lemma VoucherNetsZero(b: Books, id: nat, from: Option<Day>, to: Option<Day>)
    requires EntriesMatch(b) && VouchersSound(b) && id < |b.vouchers|
    ensures Net(b.entries, OfVouchersIn({id}, from, to)) == 0
  {
    SumsOfVoucher(b.entries, id, Dated(from, to));
    if IsPosted(b.vouchers[id]) {
      assert SoundLines(b.accounts, b.vouchers[id].lines);
      BlockNetsZero(id, b.vouchers[id], from, to);
    }
  }

  /** Any vouchers, taken whole, net to zero. */
  lemma {:induction false} VouchersNetZero(b: Books, ids: set<nat>, from: Option<Day>, to: Option<Day>)
    requires BooksInv(b)
    ensures Net(b.entries, OfVouchersIn(ids, from, to)) == 0
    decreases ids
  {
    if ids == {} {
      SumsNone(b.entries, OfVouchersIn(ids, from, to));
    } else {
      var id :| id in ids;
      var rest := ids - {id};
      VouchersNetZero(b, rest, from, to);
      if id < |b.vouchers| {
        VoucherNetsZero(b, id, from, to);
      } else {
        SumsNone(b.entries, OfVouchersIn({id}, from, to));
      }
      SumsSplit(b.entries, OfVouchersIn(ids, from, to), OfVouchersIn({id}, from, to), OfVouchersIn(rest, from, to));
    }
  }

  /** The whole ledger balances over any range of dates. */
  lemma RangeBalances(b: Books, from: Option<Day>, to: Option<Day>)
    requires BooksInv(b)
    ensures SumDebit(b.entries, Dated(from, to)) == SumCredit(b.entries, Dated(from, to))
  {
    var ids := set e | e in b.entries :: e.voucher;
    VouchersNetZero(b, ids, from, to);
    SumsCong(b.entries, Dated(from, to), OfVouchersIn(ids, from, to));
  }

  // --------------------------------------------------------------- by account

  function OnAccount(f: Filter, account: nat): Filter {
    f.(accounts := In({account}))
  }

  function AccountNet(es: seq<Entry>, f: Filter, account: nat): int {
    Net(es, OnAccount(f, account))
  }

  /** The accounts of the books, each once, in the order of their codes. */
  predicate IsChart(accounts: map<nat, Account>, chart: seq<nat>) {
    && (forall i, j :: 0 <= i < j < |chart| ==> chart[i] != chart[j])
    && (forall a :: a in chart ==> a in accounts)
    && (forall a :: a in accounts ==> a in chart)
  }

  /** The nets of the listed accounts that a condition selects, added up. */
  function NetOver(es: seq<Entry>, f: Filter, chart: seq<nat>, chosen: set<nat>): int {
    if chart == [] then 0
    else
      var a := chart[|chart| - 1];
      var rest := NetOver(es, f, chart[..|chart| - 1], chosen);
      if a in chosen then rest + AccountNet(es, f, a) else rest
  }

  /** Account by account or all at once, the sum is the same. */
  lemma {:induction false} NetOverIsNet(es: seq<Entry>, f: Filter, chart: seq<nat>, chosen: set<nat>)
    requires f.accounts.Any? && forall i, j :: 0 <= i < j < |chart| ==> chart[i] != chart[j]
    ensures NetOver(es, f, chart, chosen) == Net(es, f.(accounts := In(set a | a in chart && a in chosen)))
  {
    var listed := set a | a in chart && a in chosen;
    if chart == [] {
      SumsNone(es, f.(accounts := In(listed)));
    } else {
      var front, last := chart[..|chart| - 1], chart[|chart| - 1];
      var before := set a | a in front && a in chosen;
      NetOverIsNet(es, f, front, chosen);
      assert last !in front;
      assert chart == front + [last];
      if last in chosen {
        assert listed == before + {last};
        SumsSplit(es, f.(accounts := In(listed)), f.(accounts := In(before)), OnAccount(f, last));
      } else {
        assert listed == before;
      }
    }
  }

  /** Over sound books the accounts of a chart, some and the others, net to opposite
      sums in any range of dates. */
  lemma ChartBalances(b: Books, chart: seq<nat>, chosen: set<nat>, others: set<nat>, from: Option<Day>, to: Option<Day>)
    requires BooksInv(b) && IsChart(b.accounts, chart)
    requires chosen !! others && forall a :: a in chart ==> a in chosen || a in others
    ensures NetOver(b.entries, Dated(from, to), chart, chosen) == -NetOver(b.entries, Dated(from, to), chart, others)
  {
    var f := Dated(from, to);
    NetOverIsNet(b.entries, f, chart, chosen);
    NetOverIsNet(b.entries, f, chart, others);
    var g := f.(accounts := In(set a | a in chart && a in chosen));
    var h := f.(accounts := In(set a | a in chart && a in others));
    forall e | e in b.entries ensures e.account in chart {
      EntryFacts(b, e);
    }
    SumsSplit(b.entries, f, g, h);
    RangeBalances(b, from, to);
  }
}
