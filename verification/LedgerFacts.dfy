/** What every entry of the ledger can rely on, in every run: an active account, a party
    that is known, one side only, and a period of its year that covers its date; and that
    nothing posted is ever taken out or rewritten. */
module LedgerFacts {
  import opened Basics
  import opened LedgerTables
  import opened Ledger
  import opened PartyOpenings
  import opened Documents
  import opened OrgInvariant

  /** A period of the entry's year covers its date. */
  ghost predicate Dated(b: Books, e: Entry) {
    e.year in b.years && exists p :: p in b.periods && p.year == e.year && p.starts <= e.day <= p.ends
  }

  ghost predicate EntrySound(b: Books, e: Entry) {
    && e.account in b.accounts && b.accounts[e.account].active && b.accounts[e.account].postable
    && (e.party.Some? ==> e.party.value in b.parties)
    && e.debit >= 0 && e.credit >= 0 && (e.debit > 0 <==> e.credit == 0)
    && Dated(b, e)
  }

  ghost predicate EntriesSound(b: Books) {
    forall i :: 0 <= i < |b.entries| ==> EntrySound(b, b.entries[i])
  }

  // ------------------------------------------------------------------ postings

  lemma {:induction false} EntryFromLine(id: nat, v: Voucher, lines: seq<Line>, e: Entry)
    requires e in EntriesFrom(id, v, lines)
    ensures exists i :: 0 <= i < |lines| && e == Entry(lines[i].account, lines[i].party, id, v.day, v.kind, lines[i].debit, lines[i].credit, v.year)
  {
    var n := |lines| - 1;
    if e in EntriesFrom(id, v, lines[..n]) {
      EntryFromLine(id, v, lines[..n], e);
      var i :| 0 <= i < n && e == Entry(lines[..n][i].account, lines[..n][i].party, id, v.day, v.kind, lines[..n][i].debit, lines[..n][i].credit, v.year);
      assert lines[..n][i] == lines[i];
    } else {
      assert e == Entry(lines[n].account, lines[n].party, id, v.day, v.kind, lines[n].debit, lines[n].credit, v.year);
    }
  }

  /** Posting a draft adds sound entries, on no control account unless that is allowed. */
  lemma PostDraftAdds(b: Books, id: nat, allowControl: bool)
    requires id < |b.vouchers| && PostDraft(b, id, allowControl).Success?
    ensures var b' := PostDraft(b, id, allowControl).value;
            && b.entries <= b'.entries
            && forall i :: |b.entries| <= i < |b'.entries| ==>
                 EntrySound(b, b'.entries[i]) && (!allowControl ==> !b.accounts[b'.entries[i].account].control)
  {
    var b', v := PostDraft(b, id, allowControl).value, b.vouchers[id];
    var period := OpenPeriod(b, v.day).value;
    var posted := v.(status := Posted, year := period.year);
    var added := EntriesFrom(id, posted, v.lines);
    assert b'.entries == b.entries + added;
    forall i | |b.entries| <= i < |b'.entries|
      ensures EntrySound(b, b'.entries[i]) && (!allowControl ==> !b.accounts[b'.entries[i].account].control)
    {
      var e := b'.entries[i];
      assert e == added[i - |b.entries|];
      EntryFromLine(id, posted, v.lines, e);
      var j :| 0 <= j < |v.lines| && e == Entry(v.lines[j].account, v.lines[j].party, id, v.day, v.kind, v.lines[j].debit, v.lines[j].credit, period.year);
      assert ValidAccount(b, v.lines[j].account, allowControl) && ValidAmounts(v.lines[j]);
      assert period in b.periods;
    }
  }

  /** What only adds sound entries keeps them all sound. */
  lemma AddedSound(b: Books, b': Books)
    requires EntriesSound(b) && b.entries <= b'.entries
    requires forall i :: |b.entries| <= i < |b'.entries| ==> EntrySound(b, b'.entries[i])
    requires b'.accounts == b.accounts && b'.parties == b.parties && b'.years == b.years && b'.periods == b.periods
    ensures EntriesSound(b')
  {
    forall i | 0 <= i < |b'.entries| ensures EntrySound(b', b'.entries[i]) {
      assert i < |b.entries| ==> EntrySound(b, b.entries[i]);
      assert EntrySound(b, b'.entries[i]);
    }
  }

  lemma PostDraftKeeps(b: Books, id: nat, allowControl: bool)
    requires EntriesSound(b) && id < |b.vouchers| && PostDraft(b, id, allowControl).Success?
    ensures EntriesSound(PostDraft(b, id, allowControl).value) && b.entries <= PostDraft(b, id, allowControl).value.entries
  {
    PostDraftAdds(b, id, allowControl);
    AddedSound(b, PostDraft(b, id, allowControl).value);
  }

  lemma PostVoucherKeeps(b: Books, kind: VoucherType, day: Day, lines: seq<Line>, source: Source, allowControl: bool)
    requires EntriesSound(b) && PostVoucher(b, kind, day, lines, source, allowControl).Success?
    ensures EntriesSound(PostVoucher(b, kind, day, lines, source, allowControl).value)
    ensures b.entries <= PostVoucher(b, kind, day, lines, source, allowControl).value.entries
  {
    var drafted := CreateVoucher(b, kind, day, lines, source, allowControl).value;
    AddedSound(b, drafted);
    PostDraftKeeps(drafted, |b.vouchers|, allowControl);
  }

  lemma ReverseKeeps(b: Books, id: nat, to: Option<Day>)
    requires EntriesSound(b) && id < |b.vouchers| && ReverseVoucher(b, id, to).Success?
    ensures EntriesSound(ReverseVoucher(b, id, to).value) && b.entries <= ReverseVoucher(b, id, to).value.entries
  {
    var v := b.vouchers[id];
    PostVoucherKeeps(b, Reversal, to.GetOr(v.day), Mirror(v.lines), v.source, true);
    AddedSound(PostVoucher(b, Reversal, to.GetOr(v.day), Mirror(v.lines), v.source, true).value, ReverseVoucher(b, id, to).value);
  }

  // --------------------------------------------------------- years and accounts

  lemma SameRanges(b: Books, b': Books, e: Entry)
    requires Dated(b, e) && e.year in b'.years
    requires forall p :: p in b.periods && p.year == e.year ==> exists q :: q in b'.periods && q.year == p.year && q.starts == p.starts && q.ends == p.ends
    ensures Dated(b', e)
  {
    var p :| p in b.periods && p.year == e.year && p.starts <= e.day <= p.ends;
    var q :| q in b'.periods && q.year == p.year && q.starts == p.starts && q.ends == p.ends;
  }

  lemma PeriodKeeps(b: Books, index: nat, status: PeriodStatus)
    requires EntriesSound(b) && SetPeriodStatus(b, index, status).Success?
    ensures EntriesSound(SetPeriodStatus(b, index, status).value)
  {
    var b' := SetPeriodStatus(b, index, status).value;
    forall i | 0 <= i < |b'.entries| ensures EntrySound(b', b'.entries[i]) {
      var e := b.entries[i];
      assert EntrySound(b, e);
      forall p | p in b.periods && p.year == e.year ensures exists q :: q in b'.periods && q.year == p.year && q.starts == p.starts && q.ends == p.ends {
        var j :| 0 <= j < |b.periods| && b.periods[j] == p;
        assert b'.periods[j] in b'.periods;
      }
      SameRanges(b, b', e);
    }
  }

  lemma {:induction false} OtherYearsStay(periods: seq<Period>, year: nat, p: Period)
    requires p in periods && p.year != year
    ensures p in WithoutYear(periods, year)
  {
    if periods[0] != p {
      OtherYearsStay(periods[1..], year, p);
    }
  }

  /** An entry stays sound when its year and account do. */
  lemma EntryKept(b: Books, b': Books, e: Entry)
    requires EntrySound(b, e) && e.year in b'.years && b.parties <= b'.parties
    requires forall p :: p in b.periods && p.year == e.year ==> p in b'.periods
    requires e.account in b'.accounts && b'.accounts[e.account].active && b'.accounts[e.account].postable
    ensures EntrySound(b', e)
  {
    var p :| p in b.periods && p.year == e.year && p.starts <= e.day <= p.ends;
    assert p in b'.periods;
  }

  lemma DeleteKeepsOne(b: Books, id: nat, i: nat)
    requires EntriesSound(b) && DeleteYear(b, id).Success? && i < |b.entries|
    ensures EntrySound(DeleteYear(b, id).value, b.entries[i])
  {
    var e := b.entries[i];
    assert EntrySound(b, e) && e.year != id;
    forall p | p in b.periods && p.year == e.year ensures p in WithoutYear(b.periods, id) {
      OtherYearsStay(b.periods, id, p);
    }
    EntryKept(b, DeleteYear(b, id).value, e);
  }

  lemma DeleteKeeps(b: Books, id: nat)
    requires EntriesSound(b) && DeleteYear(b, id).Success?
    ensures EntriesSound(DeleteYear(b, id).value)
  {
    forall i | 0 <= i < |b.entries| ensures EntrySound(DeleteYear(b, id).value, b.entries[i]) {
      DeleteKeepsOne(b, id, i);
    }
  }

  lemma AddYearKeeps(b: Books, id: nat, year: FiscalYear, periods: seq<Period>)
    requires EntriesSound(b) && AddYear(b, id, year, periods).Success?
    ensures EntriesSound(AddYear(b, id, year, periods).value)
  {
    var b' := AddYear(b, id, year, periods).value;
    forall i | 0 <= i < |b'.entries| ensures EntrySound(b', b'.entries[i]) {
      assert EntrySound(b, b.entries[i]);
      EntryKept(b, b', b.entries[i]);
    }
  }

  lemma AddAccountKeeps(b: Books, id: nat, account: Account)
    requires EntriesSound(b) && AddAccount(b, id, account).Success?
    ensures EntriesSound(AddAccount(b, id, account).value)
  {
    var b' := AddAccount(b, id, account).value;
    forall i | 0 <= i < |b'.entries| ensures EntrySound(b', b'.entries[i]) {
      assert EntrySound(b, b.entries[i]);
      EntryKept(b, b', b.entries[i]);
    }
  }

  lemma UpdateAccountKeeps(b: Books, id: nat, parent: Option<Option<nat>>, active: Option<bool>)
    requires EntriesSound(b) && UpdateAccount(b, id, parent, active).Success?
    ensures EntriesSound(UpdateAccount(b, id, parent, active).value)
  {
    var b' := UpdateAccount(b, id, parent, active).value;
    forall i | 0 <= i < |b'.entries| ensures EntrySound(b', b'.entries[i]) {
      assert EntrySound(b, b.entries[i]);
      assert active == Some(false) ==> b.entries[i].account != id;
      EntryKept(b, b', b.entries[i]);
    }
  }

  lemma AddPartyKeeps(b: Books, party: nat)
    requires EntriesSound(b)
    ensures EntriesSound(b.(parties := b.parties + {party}))
  {
    var b' := b.(parties := b.parties + {party});
    forall i | 0 <= i < |b'.entries| ensures EntrySound(b', b'.entries[i]) {
      assert EntrySound(b, b.entries[i]);
      EntryKept(b, b', b.entries[i]);
    }
  }

  // ------------------------------------------------------------------- every call

  /** A posted voucher stays, and of it only whether it was reversed since changes. */
  predicate PostedStays(vs: seq<Voucher>, ws: seq<Voucher>) {
    && |vs| <= |ws|
    && forall i :: 0 <= i < |vs| && IsPosted(vs[i]) ==> IsPosted(ws[i]) && ws[i].(status := Posted) == vs[i].(status := Posted)
  }

  lemma VoucherStays(b: Books, op: BooksOp)
    requires Step(b, op).Success?
    ensures PostedStays(b.vouchers, Step(b, op).value.vouchers)
  {
    match op
    case PostOp(kind, day, lines, source, allowControl) => PostVoucherEffect(b, kind, day, lines, source, allowControl);
    case ReverseOp(id, to) => ReversedStays(b, id, to);
    case _ =>
  }

  lemma ReversedStays(b: Books, id: nat, to: Option<Day>)
    requires id < |b.vouchers| && ReverseVoucher(b, id, to).Success?
    ensures PostedStays(b.vouchers, ReverseVoucher(b, id, to).value.vouchers)
  {
    var v := ReverseEffect(b, id, to);
  }

  lemma CallKeepsEntries(b: Books, op: BooksOp)
    requires EntriesSound(b) && Step(b, op).Success?
    ensures EntriesSound(Step(b, op).value) && b.entries <= Step(b, op).value.entries
  {
    match op
    case PostDraftOp(id) => PostDraftKeeps(b, id, false);
    case PostOp(kind, day, lines, source, allowControl) => PostVoucherKeeps(b, kind, day, lines, source, allowControl);
    case ReverseOp(id, to) => ReverseKeeps(b, id, to);
    case PeriodOp(index, status) => PeriodKeeps(b, index, status);
    case AddYearOp(id, year, periods) => AddYearKeeps(b, id, year, periods);
    case DeleteYearOp(id) => DeleteKeeps(b, id);
    case AddAccountOp(id, account) => AddAccountKeeps(b, id, account);
    case UpdateAccountOp(id, parent, active) => UpdateAccountKeeps(b, id, parent, active);
    case AddPartyOp(party) => AddPartyKeeps(b, party);
    case _ => AddedSound(b, Step(b, op).value);
  }

  /** What a manual journal posts is on no control account. */
  lemma JournalsAvoidControl(b: Books, id: nat, i: nat)
    requires Step(b, PostDraftOp(id)).Success? && |b.entries| <= i < |Step(b, PostDraftOp(id)).value.entries|
    ensures var e := Step(b, PostDraftOp(id)).value.entries[i]; e.account in b.accounts && !b.accounts[e.account].control
  {
    PostDraftAdds(b, id, false);
  }

  // --------------------------------------------------------------------- every run

  lemma StepKeepsEntries(o: Org, op: OrgOp)
    requires EntriesSound(o.books) && OrgStep(o, op).Success?
    ensures var b' := OrgStep(o, op).value.books; EntriesSound(b') && o.books.entries <= b'.entries && PostedStays(o.books.vouchers, b'.vouchers)
  {
    var clearing, cleared, call := StepCallsBooks(o, op);
    if clearing.Some? {
      CallKeepsEntries(o.books, clearing.value);
      VoucherStays(o.books, clearing.value);
    }
    if call.Some? {
      CallKeepsEntries(cleared, call.value);
      VoucherStays(cleared, call.value);
    }
  }

  /** In every run of any calls, every entry keeps an active, postable account, a known
      party, one side, and a period of its year over its date; no entry is ever taken out
      or changed, and of a posted voucher only that it was reversed. */
  lemma {:induction false} EntriesSoundInRuns(o: Org, ops: seq<OrgOp>)
    requires EntriesSound(o.books)
    ensures var b' := OrgRun(o, ops).books; EntriesSound(b') && o.books.entries <= b'.entries && PostedStays(o.books.vouchers, b'.vouchers)
    decreases |ops|
  {
    if ops != [] {
      var r := OrgStep(o, ops[0]);
      if r.Success? {
        StepKeepsEntries(o, ops[0]);
      }
      EntriesSoundInRuns(if r.Success? then r.value else o, ops[1..]);
    }
  }

  /** A new organization starts so. */
  lemma NewEntriesSound(o: Org)
    requires IsNew(o)
    ensures EntriesSound(o.books)
  {
  }
}
