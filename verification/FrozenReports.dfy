/** What a locked range means for the reports: its profit and loss and its statement
    rows are settled for good. */
module FrozenReports {
  import opened Basics
  import opened LedgerTables
  import opened Ledger
  import opened LedgerSums
  import opened Statements
  import opened AccountStatements
  import opened PeriodLocks
  import opened Documents
  import opened OrgInvariant

  lemma FrozenNet(es: seq<Entry>, es': seq<Entry>, f: Filter)
    requires f.from.Some? && f.to.Some?
    requires EntriesBetween(es, f.from.value, f.to.value) == EntriesBetween(es', f.from.value, f.to.value)
    ensures Net(es', f) == Net(es, f)
  {
    SumsReadOnlyRange(es, f);
    SumsReadOnlyRange(es', f);
  }

  lemma {:induction false} FrozenRows(es: seq<Entry>, es': seq<Entry>, from: Day, to: Day, chart: seq<nat>, chosen: set<nat>, sign: int)
    requires EntriesBetween(es, from, to) == EntriesBetween(es', from, to)
    ensures Rows(es', Dated(Some(from), Some(to)), chart, chosen, sign) == Rows(es, Dated(Some(from), Some(to)), chart, chosen, sign)
    ensures NetOver(es', Dated(Some(from), Some(to)), chart, chosen) == NetOver(es, Dated(Some(from), Some(to)), chart, chosen)
  {
    if chart != [] {
      FrozenRows(es, es', from, to, chart[..|chart| - 1], chosen, sign);
      FrozenNet(es, es', OnAccount(Dated(Some(from), Some(to)), chart[|chart| - 1]));
    }
  }

  /** Selecting within a range reads only the entries of the range, in their order. */
  lemma {:induction false} SelectReadsRange(es: seq<Entry>, f: Filter)
    requires f.from.Some? && f.to.Some?
    ensures Select(es, f) == Select(EntriesBetween(es, f.from.value, f.to.value), f)
  {
    if es != [] {
      var front, last := es[..|es| - 1], es[|es| - 1];
      var between := EntriesBetween(front, f.from.value, f.to.value);
      SelectReadsRange(front, f);
      assert (between + [last])[..|between|] == between;
      assert f.from.value <= last.day <= f.to.value || EntriesBetween(es, f.from.value, f.to.value) == between;
    }
  }

  /** Through any run in which the range stays locked, its profit and loss rows, its net
      profit, and the entries every statement of it lists stay what they were. */
  lemma LockedReportsAreConstant(o: Org, ops: seq<OrgOp>, chart: seq<nat>, chosen: set<nat>, sign: int, f: Filter)
    requires f.from.Some? && f.to.Some?
    requires forall n :: 0 <= n < |ops| ==> Frozen(OrgRun(o, ops[..n]).books, f.from.value, f.to.value)
    ensures var es, es' := o.books.entries, OrgRun(o, ops).books.entries;
            var range := Dated(f.from, f.to);
            && Rows(es', range, chart, chosen, sign) == Rows(es, range, chart, chosen, sign)
            && NetOver(es', range, chart, chosen) == NetOver(es, range, chart, chosen)
            && ByDay(Select(es', f)) == ByDay(Select(es, f))
  {
    var es, es' := o.books.entries, OrgRun(o, ops).books.entries;
    LockedOrgIsFrozen(o, ops, f.from.value, f.to.value);
    FrozenRows(es, es', f.from.value, f.to.value, chart, chosen, sign);
    SelectReadsRange(es, f);
    SelectReadsRange(es', f);
  }
}
