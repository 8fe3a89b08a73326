/** A party's opening balance over whole runs: however its settings are mixed with calls
    of every service, its opening vouchers come to the last amount set. */
module PartyOpeningRuns {
  import opened Basics
  import opened LedgerTables
  import opened Ledger
  import opened Poster
  import opened PartyOpenings
  import opened Documents
  import opened Lifecycle
  import opened DocumentVouchers
  import opened OrgInvariant

  /** What was last set: an amount on an account. */
  datatype Balance = Balance(account: nat, amount: int)

  function AmountOn(last: Option<Balance>, account: nat): int {
    if last.Some? && last.value.account == account then last.value.amount else 0
  }

  /** What an amount set is: owed to a party that is only a vendor, on payables, and by any
      other, on receivables. */
  function SetTo(roles: Roles, vendorOnly: bool, amount: int): Option<Balance> {
    if amount > 0 && vendorOnly && Payable in roles then Some(Balance(roles[Payable], -amount))
    else if amount > 0 && !vendorOnly && Receivable in roles then Some(Balance(roles[Receivable], amount))
    else None
  }

  /** What an accepted step leaves as the last amount set. A zero takes the balance away,
      and so does reversing its voucher by hand. */
  function SetBy(o: Org, op: OrgOp, party: nat, last: Option<Balance>): Option<Balance> {
    match op
    case PartyOpeningOp(p, vendorOnly, amount, _) =>
      if p != party then last else SetTo(o.roles, vendorOnly, amount)
    case BooksCall(call) => if Clears(o.books, call, OpeningSource(party)) then None else last
    case _ => last
  }

  ghost function LastSet(o: Org, ops: seq<OrgOp>, party: nat, last: Option<Balance>): Option<Balance>
    decreases |ops|
  {
    if ops == [] then last
    else
      var r := OrgStep(o, ops[0]);
      if r.Success? then LastSet(r.value, ops[1..], party, SetBy(o, ops[0], party, last)) else LastSet(o, ops[1..], party, last)
  }

  /** A reversal of the party's opening, reversed by hand in turn. */
  predicate UndoesReversal(b: Books, op: OrgOp, party: nat) {
    && op.BooksCall? && op.op.ReverseOp? && op.op.id < |b.vouchers|
    && b.vouchers[op.op.id].source == OpeningSource(party) && b.vouchers[op.op.id].kind == Reversal
  }

  ghost predicate NeverUndoes(o: Org, ops: seq<OrgOp>, party: nat) {
    forall n {:trigger UndoesAt(o, ops, n, party)} :: 0 <= n < |ops| ==> !UndoesAt(o, ops, n, party)
  }

  ghost predicate UndoesAt(o: Org, ops: seq<OrgOp>, n: nat, party: nat)
    requires n < |ops|
  {
    UndoesReversal(OrgRun(o, ops[..n]).books, ops[n], party)
  }

  /** The openings are sound, and come to the last amount set. */
  ghost predicate ComesTo(b: Books, party: nat, last: Option<Balance>) {
    OpeningsSound(b, party) && forall account: nat :: OpeningNet(b, party, account) == AmountOn(last, account)
  }

  // -------------------------------------------------------------------- one step

  /** Another's voucher: what a call posts or takes back is not the party's opening. */
  ghost predicate Anothers(b: Books, call: Option<BooksOp>, party: nat) {
    call.Some? ==> Elsewhere(b, call.value, OpeningSource(party)) && !Clears(b, call.value, OpeningSource(party))
  }

  lemma AnothersCall(b: Books, call: Option<BooksOp>, b': Books, party: nat, last: Option<Balance>)
    requires BooksInv(b) && ComesTo(b, party, last) && Calls(b, call, b') && Anothers(b, call, party)
    ensures BooksInv(b') && ComesTo(b', party, last)
  {
    CallKeepsLedger(b, call, b');
    if call.Some? {
      OtherCallsKeepOpenings(b, call.value, party);
    }
  }

  lemma AnotherPartysOpening(o: Org, op: OrgOp, party: nat, last: Option<Balance>)
    requires BooksInv(o.books) && ComesTo(o.books, party, last)
    requires op.PartyOpeningOp? && op.party != party && OrgStep(o, op).Success?
    ensures ComesTo(OrgStep(o, op).value.books, party, last)
  {
    var clearing, cleared, call := SettingCalls(o.books, o.roles, op.party, op.vendorOnly, op.amount, op.asOf);
    AnothersCall(o.books, clearing, cleared, party, last);
    AnothersCall(cleared, call, OrgStep(o, op).value.books, party, last);
  }

  /** What setting a balance makes of it. */
  lemma SettingComesTo(b: Books, roles: Roles, party: nat, vendorOnly: bool, amount: int, asOf: Day, set0: Option<Balance>)
    requires BooksInv(b) && OpeningsSound(b, party) && SetPartyOpening(b, roles, party, vendorOnly, amount, asOf).Success?
    requires set0 == if amount > 0 then Some(Balance(roles[BalanceRole(vendorOnly)], Signed(vendorOnly, amount))) else None
    ensures ComesTo(SetPartyOpening(b, roles, party, vendorOnly, amount, asOf).value, party, set0)
  {
    var b' := SetPartyOpening(b, roles, party, vendorOnly, amount, asOf).value;
    forall account: nat ensures OpeningsSound(b', party) && OpeningNet(b', party, account) == AmountOn(set0, account) {
      OpeningIsLastAmount(b, roles, party, vendorOnly, amount, asOf, account);
    }
    OpeningIsLastAmount(b, roles, party, vendorOnly, amount, asOf, 0);
  }

  lemma SetToIs(b: Books, roles: Roles, party: nat, vendorOnly: bool, amount: int, asOf: Day)
    requires SetPartyOpening(b, roles, party, vendorOnly, amount, asOf).Success?
    ensures amount > 0 ==> BalanceRole(vendorOnly) in roles
    ensures SetTo(roles, vendorOnly, amount) ==
              if amount > 0 then Some(Balance(roles[BalanceRole(vendorOnly)], Signed(vendorOnly, amount))) else None
  {
    if amount > 0 {
      assert PartyOpeningLines(roles, party, vendorOnly, amount).Success?;
    }
  }

  lemma OwnOpening(o: Org, op: OrgOp, party: nat, last: Option<Balance>)
    requires BooksInv(o.books) && ComesTo(o.books, party, last)
    requires op.PartyOpeningOp? && op.party == party && OrgStep(o, op).Success?
    ensures ComesTo(OrgStep(o, op).value.books, party, SetBy(o, op, party, last))
  {
    SetToIs(o.books, o.roles, party, op.vendorOnly, op.amount, op.asOf);
    SettingComesTo(o.books, o.roles, party, op.vendorOnly, op.amount, op.asOf, SetBy(o, op, party, last));
  }

  lemma BooksCallComesTo(o: Org, op: OrgOp, party: nat, last: Option<Balance>)
    requires BooksInv(o.books) && ComesTo(o.books, party, last)
    requires op.BooksCall? && OrgStep(o, op).Success? && !UndoesReversal(o.books, op, party)
    ensures ComesTo(OrgStep(o, op).value.books, party, SetBy(o, op, party, last))
  {
    OtherCallsKeepOpenings(o.books, op.op, party);
  }

  /** The calls of documents and stock are for their own vouchers. */
  lemma OwnIsAnothers(o: Org, op: OrgOp, call: Option<BooksOp>, party: nat)
    requires call.Some? ==> OwnCall(o, op, call.value)
    ensures Anothers(o.books, call, party)
  {
  }

  lemma StepComesTo(o: Org, op: OrgOp, party: nat, last: Option<Balance>)
    requires BooksInv(o.books) && ComesTo(o.books, party, last) && OrgStep(o, op).Success? && !UndoesReversal(o.books, op, party)
    ensures ComesTo(OrgStep(o, op).value.books, party, SetBy(o, op, party, last))
  {
    if op.PartyOpeningOp? {
      if op.party == party {
        OwnOpening(o, op, party, last);
      } else {
        AnotherPartysOpening(o, op, party, last);
      }
    } else if op.BooksCall? {
      BooksCallComesTo(o, op, party, last);
    } else {
      var call := StepCallsOwn(o, op);
      OwnIsAnothers(o, op, call, party);
      AnothersCall(o.books, call, OrgStep(o, op).value.books, party, last);
    }
  }

  // -------------------------------------------------------------------- whole runs

  lemma NeverUndoesFromThere(o: Org, ops: seq<OrgOp>, party: nat, next: Org)
    requires ops != [] && NeverUndoes(o, ops, party)
    requires next == var r := OrgStep(o, ops[0]); if r.Success? then r.value else o
    ensures !UndoesReversal(o.books, ops[0], party) && NeverUndoes(next, ops[1..], party)
  {
    assert OrgRun(o, ops[..0]) == o;
    assert !UndoesAt(o, ops, 0, party);
    forall n | 0 <= n < |ops[1..]| ensures !UndoesAt(next, ops[1..], n, party) {
      assert !UndoesAt(o, ops, n + 1, party);
      assert ops[..n + 1][1..] == ops[1..][..n];
    }
  }

  lemma {:induction false} RunComesTo(o: Org, ops: seq<OrgOp>, party: nat, last: Option<Balance>)
    requires BooksInv(o.books) && ComesTo(o.books, party, last) && NeverUndoes(o, ops, party)
    ensures ComesTo(OrgRun(o, ops).books, party, LastSet(o, ops, party, last))
    decreases |ops|
  {
    if ops != [] {
      var r := OrgStep(o, ops[0]);
      NeverUndoesFromThere(o, ops, party, if r.Success? then r.value else o);
      if r.Success? {
        StepKeepsLedger(o, ops[0]);
        StepComesTo(o, ops[0], party, last);
        RunComesTo(r.value, ops[1..], party, SetBy(o, ops[0], party, last));
      } else {
        RunComesTo(o, ops[1..], party, last);
      }
    }
  }

  /** In every run of a new organization in which no reversal of the party's opening is
      reversed by hand, the party's opening vouchers come, on every account, to the last
      amount set, whatever else any service did in between. */
  lemma OpeningIsLastSetInRuns(o: Org, ops: seq<OrgOp>, party: nat, account: nat)
    requires IsNew(o) && NeverUndoes(o, ops, party)
    ensures OpeningNet(OrgRun(o, ops).books, party, account) == AmountOn(LastSet(o, ops, party, None), account)
  {
    NewOrgOk(o);
    NoOpeningsYet(o.books, party);
    RunComesTo(o, ops, party, None);
  }
}
