/** The double-entry engine and the voucher service on top of it, as steps of the
    books: validating, drafting, posting and reversing vouchers, and opening and
    locking the periods they may be dated in. */
module Ledger {
  import opened Basics
  import opened LedgerTables

  // ------------------------------------------------------------- PostingService

  predicate Covers(p: Period, day: Day) {
    p.starts <= day <= p.ends
  }

  /** The period a posting date falls in: the first row that covers it. */
  function PeriodFor(periods: seq<Period>, day: Day): Option<Period>
    ensures PeriodFor(periods, day).Some? ==> PeriodFor(periods, day).value in periods && Covers(PeriodFor(periods, day).value, day)
    ensures PeriodFor(periods, day).None? ==> forall p :: p in periods ==> !Covers(p, day)
  {
    if periods == [] then None
    else if Covers(periods[0], day) then Some(periods[0])
    else PeriodFor(periods[1..], day)
  }

  /** `resolve_open_period`. */
  function OpenPeriod(b: Books, day: Day): Result<Period> {
    var period := PeriodFor(b.periods, day);
    :- Need(period.Some?, BadRequest);
    :- Need(period.value.year in b.years && b.years[period.value.year].active, BadRequest);
    :- Need(period.value.status.Open?, BadRequest);
    Success(period.value)
  }

  predicate ValidAccount(b: Books, account: nat, allowControl: bool) {
    && account in b.accounts
    && b.accounts[account].active
    && b.accounts[account].postable
    && (allowControl || !b.accounts[account].control)
  }

  predicate ValidAmounts(line: Line) {
    line.debit >= 0 && line.credit >= 0 && (line.debit > 0) != (line.credit > 0)
  }

  /** `validate_lines`: every refusal is the same error. */
  function ValidateLines(b: Books, lines: seq<Line>, allowControl: bool): Check {
    Need(&& |lines| >= 2
         && (forall i :: 0 <= i < |lines| ==> ValidAccount(b, lines[i].account, allowControl))
         && (forall i :: 0 <= i < |lines| ==> lines[i].party.Some? ==> lines[i].party.value in b.parties)
         && (forall i :: 0 <= i < |lines| ==> ValidAmounts(lines[i]))
         && TotalDebit(lines) > 0
         && TotalDebit(lines) == TotalCredit(lines), BadRequest)
  }

  /** `create_voucher`: a balanced draft, with no entries yet. Its id is the old length. */
  function CreateVoucher(b: Books, kind: VoucherType, day: Day, lines: seq<Line>, source: Source, allowControl: bool): Result<Books> {
    var period :- OpenPeriod(b, day);
    :- ValidateLines(b, lines, allowControl);
    Success(b.(vouchers := b.vouchers + [Voucher(kind, day, Draft, source, lines, None, period.year)]))
  }

  /** `post_draft`. */
  function PostDraft(b: Books, id: nat, allowControl: bool): Result<Books>
    requires id < |b.vouchers|
  {
    var v := b.vouchers[id];
    :- Need(v.status.Draft?, BadRequest);
    var period :- OpenPeriod(b, v.day);
    :- ValidateLines(b, v.lines, allowControl);
    var posted := v.(status := Posted, year := period.year);
    Success(b.(vouchers := b.vouchers[id := posted], entries := b.entries + EntriesFrom(id, posted, v.lines)))
  }

  /** `post_voucher`: drafted and posted at once. */
  function PostVoucher(b: Books, kind: VoucherType, day: Day, lines: seq<Line>, source: Source, allowControl: bool): Result<Books> {
    var drafted :- CreateVoucher(b, kind, day, lines, source, allowControl);
    PostDraft(drafted, |b.vouchers|, allowControl)
  }

  function Mirror(lines: seq<Line>): seq<Line> {
    if lines == [] then []
    else
      var line := lines[|lines| - 1];
      Mirror(lines[..|lines| - 1]) + [line.(debit := line.credit, credit := line.debit)]
  }

  /** `reverse_voucher` of the posting service. */
  function ReverseVoucher(b: Books, id: nat, day: Option<Day>): Result<Books>
    requires id < |b.vouchers|
  {
    var v := b.vouchers[id];
    :- Need(v.status.Posted?, BadRequest);
    var n := |b.vouchers|;
    var posted :- PostVoucher(b, Reversal, day.GetOr(v.day), Mirror(v.lines), v.source, true);
    Success(posted.(vouchers := posted.vouchers[n := posted.vouchers[n].(reversedFrom := Some(id))][id := v.(status := Reversed)]))
  }

  // -------------------------------------------------------------- VoucherService

  /** `update_journal_voucher`. */
  function UpdateJournal(b: Books, id: nat, day: Day, lines: seq<Line>): Result<Books> {
    if id >= |b.vouchers| then Failure(NotFound)
    else
      :- Need(b.vouchers[id].status.Draft?, Conflict);
      :- ValidateLines(b, lines, false);
      Success(b.(vouchers := b.vouchers[id := b.vouchers[id].(day := day, lines := lines)]))
  }

  /** `cancel_journal_voucher`. */
  function CancelJournal(b: Books, id: nat): Result<Books> {
    if id >= |b.vouchers| then Failure(NotFound)
    else
      :- Need(b.vouchers[id].status.Draft?, Conflict);
      Success(b.(vouchers := b.vouchers[id := b.vouchers[id].(status := Cancelled)]))
  }

  // ------------------------------------------------------- periods, years, accounts

  /** `set_period_status`. */
  function SetPeriodStatus(b: Books, index: nat, status: PeriodStatus): Result<Books> {
    if status.Closed? then Failure(BadRequest)
    else
      :- Need(index < |b.periods|, NotFound);
      :- Need(!b.periods[index].status.Closed?, Conflict);
      Success(b.(periods := b.periods[index := b.periods[index].(status := status)]))
  }

  /** A fiscal year's rows added to the books. */
  function AddYear(b: Books, id: nat, year: FiscalYear, periods: seq<Period>): Result<Books> {
    if id in b.years then Failure(Conflict)
    else
      Success(b.(years := b.years[id := year], periods := b.periods + periods))
  }

  predicate HasPostings(b: Books, year: nat) {
    || (exists i :: 0 <= i < |b.entries| && b.entries[i].year == year)
    || (exists i :: 0 <= i < |b.vouchers| && b.vouchers[i].year == year)
  }

  function WithoutYear(periods: seq<Period>, year: nat): seq<Period>
    ensures forall p :: p in WithoutYear(periods, year) ==> p in periods && p.year != year
  {
    if periods == [] then []
    else if periods[0].year == year then WithoutYear(periods[1..], year)
    else [periods[0]] + WithoutYear(periods[1..], year)
  }

  /** `delete_fiscal_year`, with the periods that go with it. */
  function DeleteYear(b: Books, id: nat): Result<Books> {
    if id !in b.years then Failure(NotFound)
    else
      :- Need(|b.years| > 1, Conflict);
      :- Need(!HasPostings(b, id), Conflict);
      Success(b.(years := b.years - {id}, periods := WithoutYear(b.periods, id)))
  }

  function AddAccount(b: Books, id: nat, account: Account): Result<Books> {
    if id in b.accounts then Failure(Conflict)
    else
      :- Need(account.parent.Some? ==> account.parent.value in b.accounts, NotFound);
      Success(b.(accounts := b.accounts[id := account]))
  }

  predicate HasEntries(b: Books, account: nat) {
    exists i :: 0 <= i < |b.entries| && b.entries[i].account == account
  }

  /** `update_account`: only the parent and the active flag matter to the books. */
  function UpdateAccount(b: Books, id: nat, parent: Option<Option<nat>>, active: Option<bool>): Result<Books> {
    if id !in b.accounts then Failure(NotFound)
    else
      :- Need(parent.Some? && parent.value.Some? ==> parent.value.value != id, BadRequest);
      :- Need(parent.Some? && parent.value.Some? ==> parent.value.value in b.accounts, NotFound);
      :- Need(active == Some(false) ==> !HasEntries(b, id), Conflict);
      var a := b.accounts[id];
      Success(b.(accounts := b.accounts[id := a.(parent := parent.GetOr(a.parent), active := active.GetOr(a.active))]))
  }

  // ------------------------------------------------------------------- the machine

  datatype BooksOp =
    | CreateOp(kind: VoucherType, day: Day, lines: seq<Line>, source: Source, allowControl: bool)
    | UpdateOp(id: nat, day: Day, lines: seq<Line>)
    | PostDraftOp(id: nat)
    | CancelOp(id: nat)
    | PostOp(kind: VoucherType, day: Day, lines: seq<Line>, source: Source, allowControl: bool)
    | ReverseOp(id: nat, to: Option<Day>)
    | PeriodOp(index: nat, status: PeriodStatus)
    | AddYearOp(yearId: nat, year: FiscalYear, periods: seq<Period>)
    | DeleteYearOp(yearId: nat)
    | AddAccountOp(id: nat, account: Account)
    | UpdateAccountOp(id: nat, parent: Option<Option<nat>>, active: Option<bool>)
    | AddPartyOp(party: nat)

  /** One service call on the books; a refused call raises and changes nothing. A
      reversal voucher is only ever made by reversing. */
  function Step(b: Books, op: BooksOp): Result<Books> {
    match op
    case CreateOp(kind, day, lines, source, allowControl) =>
      :- Need(kind != Reversal, BadRequest);
      CreateVoucher(b, kind, day, lines, source, allowControl)
    case UpdateOp(id, day, lines) => UpdateJournal(b, id, day, lines)
    case PostDraftOp(id) =>
      :- Need(id < |b.vouchers|, NotFound);
      PostDraft(b, id, false)
    case CancelOp(id) => CancelJournal(b, id)
    case PostOp(kind, day, lines, source, allowControl) =>
      :- Need(kind != Reversal, BadRequest);
      PostVoucher(b, kind, day, lines, source, allowControl)
    case ReverseOp(id, to) =>
      :- Need(id < |b.vouchers|, NotFound);
      ReverseVoucher(b, id, to)
    case PeriodOp(index, status) => SetPeriodStatus(b, index, status)
    case AddYearOp(id, year, periods) => AddYear(b, id, year, periods)
    case DeleteYearOp(id) => DeleteYear(b, id)
    case AddAccountOp(id, account) => AddAccount(b, id, account)
    case UpdateAccountOp(id, parent, active) => UpdateAccount(b, id, parent, active)
    case AddPartyOp(party) => Success(b.(parties := b.parties + {party}))
  }

  function Run(b: Books, ops: seq<BooksOp>): Books
    decreases |ops|
  {
    if ops == [] then b
    else
      var r := Step(b, ops[0]);
      Run(if r.Success? then r.value else b, ops[1..])
  }

  // ------------------------------------------------------------------- invariants

  predicate IsPosted(v: Voucher) {
    v.status.Posted? || v.status.Reversed?
  }

  /** Each posted voucher has posted its lines, once; a draft or cancelled one nothing. */
  ghost predicate EntriesMatch(b: Books) {
    && (forall e :: e in b.entries ==> e.voucher < |b.vouchers|)
    && (forall id :: 0 <= id < |b.vouchers| ==>
          EntriesOf(b.entries, id) == if IsPosted(b.vouchers[id]) then EntriesFrom(id, b.vouchers[id], b.vouchers[id].lines) else [])
  }

  /** Lines that balance and only touch postable accounts. */
  ghost predicate SoundLines(accounts: map<nat, Account>, lines: seq<Line>) {
    && TotalDebit(lines) == TotalCredit(lines)
    && forall i :: 0 <= i < |lines| ==> lines[i].account in accounts && accounts[lines[i].account].postable
  }

  ghost predicate VouchersSound(b: Books) {
    forall id :: 0 <= id < |b.vouchers| && IsPosted(b.vouchers[id]) ==> SoundLines(b.accounts, b.vouchers[id].lines)
  }

  /** The voucher that reversed this one, if any. */
  function NextOf(vs: seq<Voucher>, id: nat): Option<nat> {
    if vs == [] then None
    else if vs[|vs| - 1].reversedFrom == Some(id) then Some(|vs| - 1)
    else NextOf(vs[..|vs| - 1], id)
  }

  /** A reversal mirrors an earlier voucher, which is then reversed, by it alone. */
  predicate LinkSound(vs: seq<Voucher>, id: nat)
    requires id < |vs|
  {
    var v := vs[id];
    && (v.kind == Reversal <==> v.reversedFrom.Some?)
    && (v.status.Reversed? <==> NextOf(vs, id).Some?)
    && (v.reversedFrom.Some? ==>
          var u := v.reversedFrom.value;
          && u < id
          && IsPosted(v)
          && v.lines == Mirror(vs[u].lines)
          && v.source == vs[u].source
          && NextOf(vs, u) == Some(id))
  }

  ghost predicate ReversalsLinear(vs: seq<Voucher>) {
    forall id :: 0 <= id < |vs| ==> LinkSound(vs, id)
  }

  ghost predicate BooksInv(b: Books) {
    EntriesMatch(b) && VouchersSound(b) && ReversalsLinear(b.vouchers)
  }

  // -------------------------------------------------------------- preservation

  lemma NextOfAppend(vs: seq<Voucher>, v: Voucher, id: nat)
    ensures NextOf(vs + [v], id) == if v.reversedFrom == Some(id) then Some(|vs|) else NextOf(vs, id)
  {
    assert (vs + [v])[..|vs|] == vs;
  }

  /** Who reversed whom depends only on the back references. */
  lemma {:induction false} NextOfSame(vs: seq<Voucher>, ws: seq<Voucher>, id: nat)
    requires |vs| == |ws| && forall i :: 0 <= i < |vs| ==> vs[i].reversedFrom == ws[i].reversedFrom
    ensures NextOf(vs, id) == NextOf(ws, id)
  {
    if vs != [] {
      NextOfSame(vs[..|vs| - 1], ws[..|ws| - 1], id);
    }
  }

  lemma {:induction false} NextOfIs(vs: seq<Voucher>, id: nat)
    ensures NextOf(vs, id).Some? ==> NextOf(vs, id).value < |vs| && vs[NextOf(vs, id).value].reversedFrom == Some(id)
  {
    if vs != [] {
      NextOfIs(vs[..|vs| - 1], id);
    }
  }

  lemma {:induction false} MirrorLines(lines: seq<Line>)
    ensures |Mirror(lines)| == |lines|
    ensures forall i :: 0 <= i < |lines| ==> Mirror(lines)[i] == lines[i].(debit := lines[i].credit, credit := lines[i].debit)
    ensures TotalDebit(Mirror(lines)) == TotalCredit(lines) && TotalCredit(Mirror(lines)) == TotalDebit(lines)
  {
    if lines != [] {
      var line := lines[|lines| - 1];
      MirrorLines(lines[..|lines| - 1]);
      TotalsAppend(Mirror(lines[..|lines| - 1]), line.(debit := line.credit, credit := line.debit));
    }
  }

  lemma {:induction false} MirrorNet(lines: seq<Line>, account: nat, party: Option<nat>)
    ensures LineNet(Mirror(lines), account, party) == -LineNet(lines, account, party)
  {
    if lines != [] {
      var line := lines[|lines| - 1];
      var front := Mirror(lines[..|lines| - 1]);
      MirrorNet(lines[..|lines| - 1], account, party);
      assert Mirror(lines)[..|front|] == front;
    }
  }

  lemma {:induction false} NoEntriesYet(es: seq<Entry>, voucher: nat)
    requires forall e :: e in es ==> e.voucher != voucher
    ensures EntriesOf(es, voucher) == []
  {
    if es != [] {
      assert es[|es| - 1] in es;
      NoEntriesYet(es[..|es| - 1], voucher);
    }
  }

  lemma CreateKeepsBooks(b: Books, kind: VoucherType, day: Day, lines: seq<Line>, source: Source, allowControl: bool)
    requires BooksInv(b) && kind != Reversal
    requires CreateVoucher(b, kind, day, lines, source, allowControl).Success?
    ensures BooksInv(CreateVoucher(b, kind, day, lines, source, allowControl).value)
  {
    var b' := CreateVoucher(b, kind, day, lines, source, allowControl).value;
    assert EntriesMatch(b') by {
      NoEntriesYet(b.entries, |b.vouchers|);
    }
    assert ReversalsLinear(b'.vouchers) by {
      AppendKeepsReversals(b.vouchers, b'.vouchers[|b.vouchers|]);
    }
  }

  lemma AppendKeepsReversals(vs: seq<Voucher>, v: Voucher)
    requires ReversalsLinear(vs) && v.kind != Reversal && v.reversedFrom.None? && !v.status.Reversed?
    ensures ReversalsLinear(vs + [v])
  {
    forall id | 0 <= id < |vs + [v]| ensures LinkSound(vs + [v], id) {
      NextOfAppend(vs, v, id);
      if id < |vs| {
        assert LinkSound(vs, id);
        if vs[id].reversedFrom.Some? {
          NextOfAppend(vs, v, vs[id].reversedFrom.value);
        }
      } else {
        NoNextYet(vs, id);
      }
    }
  }

  lemma NoNextYet(vs: seq<Voucher>, id: nat)
    requires ReversalsLinear(vs) && id >= |vs|
    ensures NextOf(vs, id).None?
  {
    NextOfIs(vs, id);
    assert NextOf(vs, id).Some? ==> LinkSound(vs, NextOf(vs, id).value);
  }

  /** A row may change while it is a draft, or become posted: nothing reverses it. */
  lemma DraftKeepsReversals(vs: seq<Voucher>, id: nat, v: Voucher)
    requires ReversalsLinear(vs) && id < |vs| && vs[id].status.Draft? && !v.status.Reversed?
    requires v.kind == vs[id].kind && v.reversedFrom == vs[id].reversedFrom
    ensures ReversalsLinear(vs[id := v])
  {
    var ws := vs[id := v];
    forall i | 0 <= i < |ws| ensures LinkSound(ws, i) {
      assert LinkSound(vs, i);
      NextOfSame(vs, ws, i);
      if vs[i].reversedFrom.Some? {
        var u := vs[i].reversedFrom.value;
        assert LinkSound(vs, u);
        NextOfSame(vs, ws, u);
      }
    }
  }

  lemma DraftKeepsEntries(b: Books, id: nat, v: Voucher, b': Books)
    requires EntriesMatch(b) && id < |b.vouchers| && b.vouchers[id].status.Draft? && !IsPosted(v)
    requires b'.vouchers == b.vouchers[id := v] && b'.entries == b.entries
    ensures EntriesMatch(b')
  {
    forall i | 0 <= i < |b'.vouchers|
      ensures EntriesOf(b'.entries, i) == if IsPosted(b'.vouchers[i]) then EntriesFrom(i, b'.vouchers[i], b'.vouchers[i].lines) else []
    {
      assert i != id ==> b'.vouchers[i] == b.vouchers[i];
    }
  }

  /** Rewriting a draft's date, lines or status, short of posting it. */
  lemma DraftKeepsBooks(b: Books, id: nat, v: Voucher)
    requires BooksInv(b) && id < |b.vouchers| && b.vouchers[id].status.Draft?
    requires v.kind == b.vouchers[id].kind && v.reversedFrom == b.vouchers[id].reversedFrom
    requires v.status.Draft? || v.status.Cancelled?
    ensures BooksInv(b.(vouchers := b.vouchers[id := v]))
  {
    var b' := b.(vouchers := b.vouchers[id := v]);
    DraftKeepsReversals(b.vouchers, id, v);
    DraftKeepsEntries(b, id, v, b');
    assert VouchersSound(b');
  }

  /** A draft's entries join the others when it is posted. */
  lemma PostDraftEntries(b: Books, id: nat, allowControl: bool)
    requires EntriesMatch(b) && id < |b.vouchers| && PostDraft(b, id, allowControl).Success?
    ensures EntriesMatch(PostDraft(b, id, allowControl).value)
  {
    var b' := PostDraft(b, id, allowControl).value;
    DraftEntriesJoin(b, id, b'.vouchers[id], b');
  }

  lemma DraftEntriesJoin(b: Books, id: nat, v: Voucher, b': Books)
    requires EntriesMatch(b) && id < |b.vouchers| && b.vouchers[id].status.Draft? && IsPosted(v)
    requires b'.vouchers == b.vouchers[id := v] && b'.entries == b.entries + EntriesFrom(id, v, v.lines)
    ensures EntriesMatch(b')
  {
    var block := EntriesFrom(id, v, v.lines);
    EntriesFromShape(id, v, v.lines);
    forall i | 0 <= i < |b.vouchers|
      ensures EntriesOf(b'.entries, i) == if IsPosted(b'.vouchers[i]) then EntriesFrom(i, b'.vouchers[i], b'.vouchers[i].lines) else []
    {
      EntriesOfConcat(b.entries, block, i);
      EntriesOfBlock(id, v, v.lines, i);
      assert EntriesOf(b'.entries, i) == EntriesOf(b.entries, i) + (if i == id then block else []);
    }
  }

  lemma PostDraftKeepsBooks(b: Books, id: nat, allowControl: bool)
    requires BooksInv(b) && id < |b.vouchers| && PostDraft(b, id, allowControl).Success?
    ensures BooksInv(PostDraft(b, id, allowControl).value)
  {
    var b' := PostDraft(b, id, allowControl).value;
    assert EntriesMatch(b') by {
      PostDraftEntries(b, id, allowControl);
    }
    assert ReversalsLinear(b'.vouchers) by {
      DraftKeepsReversals(b.vouchers, id, b'.vouchers[id]);
    }
    assert VouchersSound(b') by {
      ValidIsSound(b, b.vouchers[id].lines, allowControl);
    }
  }

  lemma ValidIsSound(b: Books, lines: seq<Line>, allowControl: bool)
    requires ValidateLines(b, lines, allowControl).Pass?
    ensures SoundLines(b.accounts, lines)
  {
  }

  /** Accounts are added and renamed, but one that is postable stays so. */
  lemma AccountsKeepBooks(b: Books, accounts: map<nat, Account>)
    requires BooksInv(b)
    requires forall a :: a in b.accounts ==> a in accounts && accounts[a].postable == b.accounts[a].postable
    ensures BooksInv(b.(accounts := accounts))
  {
    forall lines | SoundLines(b.accounts, lines) ensures SoundLines(accounts, lines) {
    }
  }

  lemma PostKeepsBooks(b: Books, kind: VoucherType, day: Day, lines: seq<Line>, source: Source, allowControl: bool)
    requires BooksInv(b) && kind != Reversal
    requires PostVoucher(b, kind, day, lines, source, allowControl).Success?
    ensures BooksInv(PostVoucher(b, kind, day, lines, source, allowControl).value)
  {
    CreateKeepsBooks(b, kind, day, lines, source, allowControl);
    PostDraftKeepsBooks(CreateVoucher(b, kind, day, lines, source, allowControl).value, |b.vouchers|, allowControl);
  }

  /** What posting a voucher adds: one row and its entries, and nothing else changes. */
  lemma PostVoucherEffect(b: Books, kind: VoucherType, day: Day, lines: seq<Line>, source: Source, allowControl: bool)
    requires PostVoucher(b, kind, day, lines, source, allowControl).Success?
    ensures var b' := PostVoucher(b, kind, day, lines, source, allowControl).value;
            exists year :: var v := Voucher(kind, day, Posted, source, lines, None, year);
              b' == b.(vouchers := b.vouchers + [v], entries := b.entries + EntriesFrom(|b.vouchers|, v, lines))
    ensures ValidateLines(b, lines, allowControl).Pass? && OpenPeriod(b, day).Success?
  {
    var drafted := CreateVoucher(b, kind, day, lines, source, allowControl).value;
    var year := OpenPeriod(b, day).value.year;
    var v := Voucher(kind, day, Posted, source, lines, None, year);
    assert drafted.vouchers[|b.vouchers| := v] == b.vouchers + [v];
  }

  /** What reversing adds: the mirrored voucher, linked both ways. */
  lemma ReverseEffect(b: Books, id: nat, to: Option<Day>) returns (v: Voucher)
    requires id < |b.vouchers| && ReverseVoucher(b, id, to).Success?
    ensures var was := b.vouchers[id];
            && was.status.Posted?
            && v.(year := 0) == Voucher(Reversal, to.GetOr(was.day), Posted, was.source, Mirror(was.lines), Some(id), 0)
            && ReverseVoucher(b, id, to).value ==
               b.(vouchers := b.vouchers[id := was.(status := Reversed)] + [v],
                  entries := b.entries + EntriesFrom(|b.vouchers|, v, v.lines))
            && ValidateLines(b, v.lines, true).Pass? && OpenPeriod(b, v.day).Success?
  {
    var was, n := b.vouchers[id], |b.vouchers|;
    var day := to.GetOr(was.day);
    PostVoucherEffect(b, Reversal, day, Mirror(was.lines), was.source, true);
    var posted := PostVoucher(b, Reversal, day, Mirror(was.lines), was.source, true).value;
    var year :| posted == b.(vouchers := b.vouchers + [Voucher(Reversal, day, Posted, was.source, Mirror(was.lines), None, year)],
                             entries := b.entries + EntriesFrom(n, Voucher(Reversal, day, Posted, was.source, Mirror(was.lines), None, year), Mirror(was.lines)));
    var bare := Voucher(Reversal, day, Posted, was.source, Mirror(was.lines), None, year);
    v := bare.(reversedFrom := Some(id));
    EntriesFromIgnoresLink(n, bare, v, v.lines);
    assert posted.vouchers[n := v][id := was.(status := Reversed)] == b.vouchers[id := was.(status := Reversed)] + [v];
  }

  lemma {:induction false} EntriesFromIgnoresLink(id: nat, v: Voucher, w: Voucher, lines: seq<Line>)
    requires v.day == w.day && v.kind == w.kind && v.year == w.year
    ensures EntriesFrom(id, v, lines) == EntriesFrom(id, w, lines)
  {
    if lines != [] {
      EntriesFromIgnoresLink(id, v, w, lines[..|lines| - 1]);
    }
  }

  lemma ReverseKeepsReversals(vs: seq<Voucher>, id: nat, v: Voucher)
    requires ReversalsLinear(vs) && id < |vs| && vs[id].status.Posted?
    requires v.kind == Reversal && v.status.Posted? && v.reversedFrom == Some(id) && v.lines == Mirror(vs[id].lines) && v.source == vs[id].source
    ensures ReversalsLinear(vs[id := vs[id].(status := Reversed)] + [v])
  {
    var marked := vs[id := vs[id].(status := Reversed)];
    var ws := marked + [v];
    forall i | 0 <= i < |ws| ensures LinkSound(ws, i) {
      NextAfterReversal(vs, id, v, i);
      if i < |vs| {
        assert LinkSound(vs, i) && LinkSound(vs, id);
        if vs[i].reversedFrom.Some? {
          NextAfterReversal(vs, id, v, vs[i].reversedFrom.value);
        }
      } else {
        NoNextYet(vs, i);
        NextAfterReversal(vs, id, v, id);
      }
    }
  }

  lemma NextAfterReversal(vs: seq<Voucher>, id: nat, v: Voucher, i: nat)
    requires id < |vs| && v.reversedFrom == Some(id)
    ensures NextOf(vs[id := vs[id].(status := Reversed)] + [v], i) == if i == id then Some(|vs|) else NextOf(vs, i)
  {
    var marked := vs[id := vs[id].(status := Reversed)];
    NextOfSame(vs, marked, i);
    NextOfAppend(marked, v, i);
  }

  lemma ReverseKeepsBooks(b: Books, id: nat, to: Option<Day>)
    requires BooksInv(b) && id < |b.vouchers| && ReverseVoucher(b, id, to).Success?
    ensures BooksInv(ReverseVoucher(b, id, to).value)
  {
    var v := ReverseEffect(b, id, to);
    var b' := ReverseVoucher(b, id, to).value;
    var marked := b.vouchers[id := b.vouchers[id].(status := Reversed)];
    assert ReversalsLinear(b'.vouchers) by {
      ReverseKeepsReversals(b.vouchers, id, v);
    }
    assert EntriesMatch(b') by {
      AppendKeepsEntries(b, marked, v, b');
    }
    assert VouchersSound(b') by {
      ValidIsSound(b, v.lines, true);
    }
  }

  /** Two rows with the same entries. */
  predicate SamePosting(v: Voucher, w: Voucher) {
    v.day == w.day && v.kind == w.kind && v.year == w.year && v.lines == w.lines && IsPosted(v) == IsPosted(w)
  }

  /** Posting one more voucher, while no other changes its lines, date or posting. */
  lemma AppendKeepsEntries(b: Books, vs: seq<Voucher>, v: Voucher, b': Books)
    requires EntriesMatch(b) && |vs| == |b.vouchers| && IsPosted(v)
    requires forall i :: 0 <= i < |vs| ==> SamePosting(vs[i], b.vouchers[i])
    requires b'.vouchers == vs + [v] && b'.entries == b.entries + EntriesFrom(|vs|, v, v.lines)
    ensures EntriesMatch(b')
  {
    var n := |vs|;
    var block := EntriesFrom(n, v, v.lines);
    EntriesFromShape(n, v, v.lines);
    NoEntriesYet(b.entries, n);
    forall i | 0 <= i <= n
      ensures EntriesOf(b'.entries, i) == if IsPosted(b'.vouchers[i]) then EntriesFrom(i, b'.vouchers[i], b'.vouchers[i].lines) else []
    {
      EntriesOfConcat(b.entries, block, i);
      EntriesOfBlock(n, v, v.lines, i);
      if i < n {
        EntriesFromIgnoresLink(i, vs[i], b.vouchers[i], vs[i].lines);
      }
    }
  }

  /** Periods, years and parties are no part of what is posted. */
  lemma SetupKeepsBooks(b: Books, b': Books)
    requires BooksInv(b) && b'.accounts == b.accounts && b'.vouchers == b.vouchers && b'.entries == b.entries
    ensures BooksInv(b')
  {
  }

  lemma VoucherCallsKeepBooks(b: Books, op: BooksOp)
    requires BooksInv(b) && Step(b, op).Success?
    requires op.CreateOp? || op.UpdateOp? || op.PostDraftOp? || op.CancelOp? || op.PostOp? || op.ReverseOp?
    ensures BooksInv(Step(b, op).value)
  {
    match op
    case CreateOp(kind, day, lines, source, allowControl) => CreateKeepsBooks(b, kind, day, lines, source, allowControl);
    case UpdateOp(id, day, lines) => DraftKeepsBooks(b, id, b.vouchers[id].(day := day, lines := lines));
    case PostDraftOp(id) => PostDraftKeepsBooks(b, id, false);
    case CancelOp(id) => DraftKeepsBooks(b, id, b.vouchers[id].(status := Cancelled));
    case PostOp(kind, day, lines, source, allowControl) => PostKeepsBooks(b, kind, day, lines, source, allowControl);
    case ReverseOp(id, to) => ReverseKeepsBooks(b, id, to);
  }

  /** Every service call keeps the books sound. */
  lemma StepKeepsBooks(b: Books, op: BooksOp)
    requires BooksInv(b) && Step(b, op).Success?
    ensures BooksInv(Step(b, op).value)
  {
    match op
    case AddAccountOp(id, account) => AccountsKeepBooks(b, Step(b, op).value.accounts);
    case UpdateAccountOp(id, parent, active) => AccountsKeepBooks(b, Step(b, op).value.accounts);
    case PeriodOp(_, _) => SetupKeepsBooks(b, Step(b, op).value);
    case AddYearOp(_, _, _) => SetupKeepsBooks(b, Step(b, op).value);
    case DeleteYearOp(_) => SetupKeepsBooks(b, Step(b, op).value);
    case AddPartyOp(_) => SetupKeepsBooks(b, Step(b, op).value);
    case _ => VoucherCallsKeepBooks(b, op);
  }

  lemma {:induction false} RunKeepsBooks(b: Books, ops: seq<BooksOp>)
    requires BooksInv(b)
    ensures BooksInv(Run(b, ops))
    decreases |ops|
  {
    if ops != [] {
      if Step(b, ops[0]).Success? {
        StepKeepsBooks(b, ops[0]);
      }
      RunKeepsBooks(if Step(b, ops[0]).Success? then Step(b, ops[0]).value else b, ops[1..]);
    }
  }
}
