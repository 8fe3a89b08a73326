/** Locked books are frozen: what no open period covers, no service call touches. */
module PeriodLocks {
  import opened Basics
  import opened LedgerTables
  import opened Ledger

  /** The entries dated in a range, in order. */
  function EntriesBetween(es: seq<Entry>, from: Day, to: Day): seq<Entry> {
    if es == [] then []
    else EntriesBetween(es[..|es| - 1], from, to) + (if from <= es[|es| - 1].day <= to then [es[|es| - 1]] else [])
  }

  /** No open period of an active year covers any day of the range. */
  ghost predicate Frozen(b: Books, from: Day, to: Day) {
    forall p :: p in b.periods && p.starts <= to && from <= p.ends ==>
      !(p.status.Open? && p.year in b.years && b.years[p.year].active)
  }

  lemma {:induction false} BetweenConcat(es: seq<Entry>, more: seq<Entry>, from: Day, to: Day)
    requires forall e :: e in more ==> !(from <= e.day <= to)
    ensures EntriesBetween(es + more, from, to) == EntriesBetween(es, from, to)
    decreases |more|
  {
    if more == [] {
      assert es + more == es;
    } else {
      var front, last := more[..|more| - 1], more[|more| - 1];
      assert last in more;
      BetweenConcat(es, front, from, to);
      assert es + more == es + front + [last];
      assert (es + front + [last])[..|es + front|] == es + front;
    }
  }

  lemma OpenDayOutside(b: Books, day: Day, from: Day, to: Day)
    requires Frozen(b, from, to) && OpenPeriod(b, day).Success?
    ensures !(from <= day <= to)
  {
  }

  lemma BlockOutside(es: seq<Entry>, id: nat, v: Voucher, lines: seq<Line>, from: Day, to: Day)
    requires !(from <= v.day <= to)
    ensures EntriesBetween(es + EntriesFrom(id, v, lines), from, to) == EntriesBetween(es, from, to)
  {
    EntriesFromShape(id, v, lines);
    BetweenConcat(es, EntriesFrom(id, v, lines), from, to);
  }

  /** No service call changes what is dated in a frozen range. */
  lemma StepKeepsFrozen(b: Books, op: BooksOp, from: Day, to: Day)
    requires Frozen(b, from, to) && Step(b, op).Success?
    ensures EntriesBetween(Step(b, op).value.entries, from, to) == EntriesBetween(b.entries, from, to)
  {
    match op
    case PostDraftOp(id) =>
      OpenDayOutside(b, b.vouchers[id].day, from, to);
      BlockOutside(b.entries, id, PostDraft(b, id, false).value.vouchers[id], b.vouchers[id].lines, from, to);
    case PostOp(kind, day, lines, source, allowControl) =>
      PostVoucherEffect(b, kind, day, lines, source, allowControl);
      OpenDayOutside(b, day, from, to);
      var year :| var v := Voucher(kind, day, Posted, source, lines, None, year);
        Step(b, op).value == b.(vouchers := b.vouchers + [v], entries := b.entries + EntriesFrom(|b.vouchers|, v, lines));
      BlockOutside(b.entries, |b.vouchers|, Voucher(kind, day, Posted, source, lines, None, year), lines, from, to);
    case ReverseOp(id, day) =>
      var v := ReverseEffect(b, id, day);
      OpenDayOutside(b, v.day, from, to);
      BlockOutside(b.entries, |b.vouchers|, v, v.lines, from, to);
    case _ =>
  }

  /** A reversal leaves the locks as they are. */
  lemma ReversingKeepsLocks(b: Books, id: nat, to: Option<Day>, from: Day, to': Day)
    requires Frozen(b, from, to') && id < |b.vouchers| && ReverseVoucher(b, id, to).Success?
    ensures Frozen(ReverseVoucher(b, id, to).value, from, to')
  {
    var v := ReverseEffect(b, id, to);
  }

  /** While a range stays frozen through a run, its entries never change. */
  lemma {:induction false} LockedBooksAreFrozen(b: Books, ops: seq<BooksOp>, from: Day, to: Day)
    requires forall n :: 0 <= n < |ops| ==> Frozen(Run(b, ops[..n]), from, to)
    ensures EntriesBetween(Run(b, ops).entries, from, to) == EntriesBetween(b.entries, from, to)
    decreases |ops|
  {
    if ops != [] {
      assert Frozen(Run(b, ops[..0]), from, to);
      var next := if Step(b, ops[0]).Success? then Step(b, ops[0]).value else b;
      if Step(b, ops[0]).Success? {
        StepKeepsFrozen(b, ops[0], from, to);
      }
      forall n | 0 <= n < |ops[1..]| ensures Frozen(Run(next, ops[1..][..n]), from, to) {
        assert ops[..n + 1][1..] == ops[1..][..n];
        assert Frozen(Run(b, ops[..n + 1]), from, to);
      }
      LockedBooksAreFrozen(next, ops[1..], from, to);
    }
  }

  /** Every sum a report takes over a range depends only on the entries in it, so a
      frozen range has the same profit and loss and the same statement rows forever. */
  lemma {:induction false} SumsReadOnlyRange(es: seq<Entry>, f: Filter)
    requires f.from.Some? && f.to.Some?
    ensures SumDebit(es, f) == SumDebit(EntriesBetween(es, f.from.value, f.to.value), f)
    ensures SumCredit(es, f) == SumCredit(EntriesBetween(es, f.from.value, f.to.value), f)
  {
    if es != [] {
      var last := es[|es| - 1];
      SumsReadOnlyRange(es[..|es| - 1], f);
      SumsAppend(EntriesBetween(es[..|es| - 1], f.from.value, f.to.value), last, f);
      assert f.from.value <= last.day <= f.to.value || EntriesBetween(es, f.from.value, f.to.value) == EntriesBetween(es[..|es| - 1], f.from.value, f.to.value);
    }
  }
}
