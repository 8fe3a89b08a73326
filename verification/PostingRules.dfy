/** What the ledger accepts: dates that are open, and lines in order; which posted vouchers
    can be reversed, in every run; and what is closed for good. */
module PostingRules {
  import opened Basics
  import opened LedgerTables
  import opened Ledger
  import opened PartyOpenings
  import opened Documents
  import opened OrgInvariant
  import opened LedgerFacts

  // -------------------------------------------------------------------- open dates

  /** The first of the periods that covers a date. */
  predicate IsFirst(periods: seq<Period>, day: Day, i: nat) {
    && i < |periods| && periods[i].starts <= day <= periods[i].ends
    && forall j :: 0 <= j < i ==> day < periods[j].starts || periods[j].ends < day
  }

  /** A date is open when the first period that covers it is, in a year that is active. */
  ghost predicate DayIsOpen(b: Books, day: Day) {
    exists i: nat :: IsFirst(b.periods, day, i) && PeriodIsOpen(b, b.periods[i])
  }

  predicate PeriodIsOpen(b: Books, p: Period) {
    p.status.Open? && p.year in b.years && b.years[p.year].active
  }

  lemma {:induction false} FirstIsFound(periods: seq<Period>, day: Day, i: nat)
    requires IsFirst(periods, day, i)
    ensures PeriodFor(periods, day) == Some(periods[i])
    decreases i
  {
    if i > 0 {
      assert !Covers(periods[0], day);
      FirstIsFound(periods[1..], day, i - 1);
    }
  }

  lemma {:induction false} FoundIsFirst(periods: seq<Period>, day: Day) returns (i: nat)
    requires PeriodFor(periods, day).Some?
    ensures IsFirst(periods, day, i) && periods[i] == PeriodFor(periods, day).value
  {
    if Covers(periods[0], day) {
      i := 0;
    } else {
      var j := FoundIsFirst(periods[1..], day);
      i := j + 1;
    }
  }

  lemma OpenIff(b: Books, day: Day)
    ensures OpenPeriod(b, day).Success? <==> DayIsOpen(b, day)
  {
    if OpenPeriod(b, day).Success? {
      var i := FoundIsFirst(b.periods, day);
      assert IsFirst(b.periods, day, i) && PeriodIsOpen(b, b.periods[i]);
    }
    if DayIsOpen(b, day) {
      var i: nat :| IsFirst(b.periods, day, i) && PeriodIsOpen(b, b.periods[i]);
      FirstIsFound(b.periods, day, i);
    }
  }

  // ------------------------------------------------------------------- lines in order

  /** A line on an account in use, of a party that is known, with one side filled. */
  predicate LineInOrder(b: Books, line: Line, allowControl: bool) {
    && line.account in b.accounts && b.accounts[line.account].active && b.accounts[line.account].postable
    && (b.accounts[line.account].control ==> allowControl)
    && (line.party.Some? ==> line.party.value in b.parties)
    && ((line.debit > 0 && line.credit == 0) || (line.debit == 0 && line.credit > 0))
  }

  predicate LinesInOrder(b: Books, lines: seq<Line>, allowControl: bool) {
    lines != [] && TotalDebit(lines) == TotalCredit(lines) && forall i :: 0 <= i < |lines| ==> LineInOrder(b, lines[i], allowControl)
  }

  /** Filled on one side each, lines come to no less than nothing, and to something as soon
      as one of them does. */
  lemma {:induction false} TotalsPositive(b: Books, lines: seq<Line>, allowControl: bool)
    requires forall i :: 0 <= i < |lines| ==> LineInOrder(b, lines[i], allowControl)
    ensures TotalDebit(lines) >= 0 && TotalCredit(lines) >= 0
    ensures lines != [] ==> TotalDebit(lines) + TotalCredit(lines) > 0
  {
    if lines != [] {
      TotalsPositive(b, lines[..|lines| - 1], allowControl);
    }
  }

  lemma LinesIff(b: Books, lines: seq<Line>, allowControl: bool)
    ensures ValidateLines(b, lines, allowControl).Pass? <==> LinesInOrder(b, lines, allowControl)
  {
    if LinesInOrder(b, lines, allowControl) {
      TotalsPositive(b, lines, allowControl);
    }
  }

  /** A posting is accepted exactly on an open date, of lines in order that balance. */
  lemma PostAcceptedIff(b: Books, kind: VoucherType, day: Day, lines: seq<Line>, source: Source, allowControl: bool)
    ensures PostVoucher(b, kind, day, lines, source, allowControl).Success? <==> DayIsOpen(b, day) && LinesInOrder(b, lines, allowControl)
  {
    OpenIff(b, day);
    LinesIff(b, lines, allowControl);
    if CreateVoucher(b, kind, day, lines, source, allowControl).Success? {
      var drafted := CreateVoucher(b, kind, day, lines, source, allowControl).value;
      SameRules(b, drafted, day, lines, allowControl);
    }
  }

  lemma SameRules(b: Books, c: Books, day: Day, lines: seq<Line>, allowControl: bool)
    requires b.periods == c.periods && b.years == c.years && b.accounts == c.accounts && b.parties == c.parties
    ensures OpenPeriod(c, day) == OpenPeriod(b, day) && ValidateLines(c, lines, allowControl) == ValidateLines(b, lines, allowControl)
  {
  }

  /** A journal that was edited and is then posted posts what it was last edited to. */
  lemma EditedJournalPosts(b: Books, id: nat, day: Day, lines: seq<Line>, i: nat)
    requires UpdateJournal(b, id, day, lines).Success? && i < |lines|
    requires PostDraft(UpdateJournal(b, id, day, lines).value, id, false).Success?
    ensures var es := PostDraft(UpdateJournal(b, id, day, lines).value, id, false).value.entries;
            && |es| == |b.entries| + |lines| && b.entries <= es && DayIsOpen(b, day)
            && var e := es[|b.entries| + i];
               && e.account == lines[i].account && e.party == lines[i].party && e.voucher == id && e.day == day
               && e.debit == lines[i].debit && e.credit == lines[i].credit
  {
    var edited := UpdateJournal(b, id, day, lines).value;
    OpenIff(b, day);
    SameRules(b, edited, day, lines, false);
    var posted := PostDraft(edited, id, false).value.vouchers[id];
    EntriesFromShape(id, posted, lines);
  }

  lemma CallKeepsCancelled(b: Books, op: BooksOp, id: nat)
    requires id < |b.vouchers| && b.vouchers[id].status.Cancelled? && Step(b, op).Success?
    ensures var vs := Step(b, op).value.vouchers; id < |vs| && vs[id] == b.vouchers[id]
  {
    match op
    case PostOp(kind, day, lines, source, allowControl) => PostVoucherEffect(b, kind, day, lines, source, allowControl);
    case ReverseOp(n, to) => ReversedKeepsCancelled(b, n, to, id);
    case _ =>
  }

  lemma ReversedKeepsCancelled(b: Books, n: nat, to: Option<Day>, id: nat)
    requires id < |b.vouchers| && b.vouchers[id].status.Cancelled? && n < |b.vouchers| && ReverseVoucher(b, n, to).Success?
    ensures var vs := ReverseVoucher(b, n, to).value.vouchers; id < |vs| && vs[id] == b.vouchers[id]
  {
    var v := ReverseEffect(b, n, to);
    assert n != id;
  }

  /** A journal that was cancelled stays so, through any run: it is never edited, posted or
      reversed. */
  lemma {:induction false} CancelledForGood(o: Org, ops: seq<OrgOp>, id: nat)
    requires id < |o.books.vouchers| && o.books.vouchers[id].status.Cancelled?
    ensures var vs := OrgRun(o, ops).books.vouchers; id < |vs| && vs[id] == o.books.vouchers[id]
    decreases |ops|
  {
    if ops != [] {
      var r := OrgStep(o, ops[0]);
      if r.Success? {
        var clearing, cleared, call := StepCallsBooks(o, ops[0]);
        if clearing.Some? {
          CallKeepsCancelled(o.books, clearing.value, id);
        }
        if call.Some? {
          CallKeepsCancelled(cleared, call.value, id);
        }
      }
      CancelledForGood(if r.Success? then r.value else o, ops[1..], id);
    }
  }

  // ---------------------------------------------------------------------- reversing

  /** What was posted has lines. */
  ghost predicate NoneEmpty(vs: seq<Voucher>) {
    forall i :: 0 <= i < |vs| && IsPosted(vs[i]) ==> vs[i].lines != []
  }

  lemma CallNoneEmpty(b: Books, op: BooksOp)
    requires NoneEmpty(b.vouchers) && Step(b, op).Success?
    ensures NoneEmpty(Step(b, op).value.vouchers)
  {
    match op
    case PostOp(kind, day, lines, source, allowControl) => PostVoucherEffect(b, kind, day, lines, source, allowControl);
    case ReverseOp(id, to) => ReversedNoneEmpty(b, id, to);
    case _ =>
  }

  lemma ReversedNoneEmpty(b: Books, id: nat, to: Option<Day>)
    requires NoneEmpty(b.vouchers) && id < |b.vouchers| && ReverseVoucher(b, id, to).Success?
    ensures NoneEmpty(ReverseVoucher(b, id, to).value.vouchers)
  {
    var v := ReverseEffect(b, id, to);
    MirrorLines(b.vouchers[id].lines);
  }

  /** What a posted voucher's entries can rely on, its lines can. */
  lemma PostedLineInOrder(b: Books, id: nat, i: nat)
    requires EntriesSound(b) && EntriesMatch(b) && id < |b.vouchers| && IsPosted(b.vouchers[id]) && i < |b.vouchers[id].lines|
    ensures LineInOrder(b, b.vouchers[id].lines[i], true)
  {
    var v := b.vouchers[id];
    EntriesFromShape(id, v, v.lines);
    var e := EntriesFrom(id, v, v.lines)[i];
    assert e in EntriesOf(b.entries, id);
    AmongAll(b.entries, id, e);
    var n :| 0 <= n < |b.entries| && b.entries[n] == e;
    assert EntrySound(b, b.entries[n]);
  }

  lemma {:induction false} AmongAll(es: seq<Entry>, voucher: nat, e: Entry)
    requires e in EntriesOf(es, voucher)
    ensures e in es
  {
    if e != es[|es| - 1] {
      AmongAll(es[..|es| - 1], voucher, e);
    }
  }

  lemma MirrorInOrder(b: Books, lines: seq<Line>)
    requires LinesInOrder(b, lines, true)
    ensures LinesInOrder(b, Mirror(lines), true)
  {
    MirrorLines(lines);
    forall i | 0 <= i < |lines| ensures LineInOrder(b, Mirror(lines)[i], true) {
      assert LineInOrder(b, lines[i], true);
    }
  }

  lemma ReversedIff(b: Books, id: nat, to: Option<Day>)
    requires BooksInv(b) && EntriesSound(b) && NoneEmpty(b.vouchers) && id < |b.vouchers|
    ensures ReverseVoucher(b, id, to).Success? <==>
              b.vouchers[id].status.Posted? && DayIsOpen(b, if to.Some? then to.value else b.vouchers[id].day)
  {
    var v := b.vouchers[id];
    if v.status.Posted? {
      forall i | 0 <= i < |v.lines| ensures LineInOrder(b, v.lines[i], true) {
        PostedLineInOrder(b, id, i);
      }
      MirrorInOrder(b, v.lines);
      PostAcceptedIff(b, Reversal, to.GetOr(v.day), Mirror(v.lines), v.source, true);
    }
  }

  lemma {:induction false} RunNoneEmpty(o: Org, ops: seq<OrgOp>)
    requires NoneEmpty(o.books.vouchers)
    ensures NoneEmpty(OrgRun(o, ops).books.vouchers)
    decreases |ops|
  {
    if ops != [] {
      var r := OrgStep(o, ops[0]);
      if r.Success? {
        StepNoneEmpty(o, ops[0]);
      }
      RunNoneEmpty(if r.Success? then r.value else o, ops[1..]);
    }
  }

  lemma StepNoneEmpty(o: Org, op: OrgOp)
    requires NoneEmpty(o.books.vouchers) && OrgStep(o, op).Success?
    ensures NoneEmpty(OrgStep(o, op).value.books.vouchers)
  {
    var clearing, cleared, call := StepCallsBooks(o, op);
    if clearing.Some? {
      CallNoneEmpty(o.books, clearing.value);
    }
    if call.Some? {
      CallNoneEmpty(cleared, call.value);
    }
  }

  /** In every run, a voucher can be reversed exactly when it is posted and the date is
      open: nothing done since to its accounts or parties stands in the way. */
  lemma ReversedIffInRuns(o: Org, ops: seq<OrgOp>, id: nat, to: Option<Day>)
    requires IsNew(o) && id < |OrgRun(o, ops).books.vouchers|
    ensures var b := OrgRun(o, ops).books;
            ReverseVoucher(b, id, to).Success? <==>
              b.vouchers[id].status.Posted? && DayIsOpen(b, if to.Some? then to.value else b.vouchers[id].day)
  {
    NewOrgOk(o);
    RunKeepsOrg(o, ops);
    NewEntriesSound(o);
    EntriesSoundInRuns(o, ops);
    RunNoneEmpty(o, ops);
    ReversedIff(OrgRun(o, ops).books, id, to);
  }

  // -------------------------------------------------------------------- closed for good

  /** A closed period of a year that has entries. */
  ghost predicate ClosedWithin(b: Books, p: Period) {
    p in b.periods && p.status.Closed? && exists e :: e in b.entries && e.year == p.year
  }

  lemma StatusKeepsClosed(b: Books, index: nat, status: PeriodStatus, p: Period)
    requires p in b.periods && p.status.Closed? && SetPeriodStatus(b, index, status).Success?
    ensures p in SetPeriodStatus(b, index, status).value.periods
  {
    var i :| 0 <= i < |b.periods| && b.periods[i] == p;
    assert SetPeriodStatus(b, index, status).value.periods[i] == p;
  }

  lemma DeleteKeepsUsed(b: Books, id: nat, p: Period, e: Entry)
    requires p in b.periods && e in b.entries && e.year == p.year && DeleteYear(b, id).Success?
    ensures p in DeleteYear(b, id).value.periods
  {
    var i :| 0 <= i < |b.entries| && b.entries[i] == e;
    OtherYearsStay(b.periods, id, p);
  }

  lemma CallKeepsPeriod(b: Books, op: BooksOp, p: Period, e: Entry)
    requires p in b.periods && p.status.Closed? && e in b.entries && e.year == p.year && Step(b, op).Success?
    ensures p in Step(b, op).value.periods
  {
    match op
    case PeriodOp(index, status) => StatusKeepsClosed(b, index, status, p);
    case DeleteYearOp(id) => DeleteKeepsUsed(b, id, p, e);
    case _ =>
  }

  lemma CallKeepsClosed(b: Books, op: BooksOp, p: Period)
    requires EntriesSound(b) && ClosedWithin(b, p) && Step(b, op).Success?
    ensures ClosedWithin(Step(b, op).value, p)
  {
    var e :| e in b.entries && e.year == p.year;
    CallKeepsEntries(b, op);
    CallKeepsPeriod(b, op, p, e);
    assert e in Step(b, op).value.entries;
  }

  lemma StepKeepsClosed(o: Org, op: OrgOp, p: Period)
    requires EntriesSound(o.books) && ClosedWithin(o.books, p) && OrgStep(o, op).Success?
    ensures ClosedWithin(OrgStep(o, op).value.books, p)
  {
    var clearing, cleared, call := StepCallsBooks(o, op);
    if clearing.Some? {
      CallKeepsEntries(o.books, clearing.value);
      CallKeepsClosed(o.books, clearing.value, p);
    }
    if call.Some? {
      CallKeepsClosed(cleared, call.value, p);
    }
  }

  /** What is closed stays closed, through any run, in a year that has entries. */
  lemma {:induction false} ClosedForGood(o: Org, ops: seq<OrgOp>, p: Period)
    requires EntriesSound(o.books) && ClosedWithin(o.books, p)
    ensures ClosedWithin(OrgRun(o, ops).books, p)
    decreases |ops|
  {
    if ops != [] {
      var r := OrgStep(o, ops[0]);
      if r.Success? {
        StepKeepsEntries(o, ops[0]);
        StepKeepsClosed(o, ops[0], p);
      }
      ClosedForGood(if r.Success? then r.value else o, ops[1..], p);
    }
  }
}
