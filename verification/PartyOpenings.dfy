/** A party's opening balance: each new one reverses the last, so what its vouchers net
    to is the last amount set; and what the figure read back from the ledger says. */
module PartyOpenings {
  import opened Basics
  import opened LedgerTables
  import opened Ledger
  import opened Poster

  function OpeningSource(party: nat): Source {
    Source(PartyOpeningKind, party)
  }

  /** Where the balance sits: payable for who is only a vendor, else receivable. */
  function BalanceRole(vendorOnly: bool): Role {
    if vendorOnly then Payable else Receivable
  }

  function Signed(vendorOnly: bool, amount: int): int {
    if vendorOnly then -amount else amount
  }

  function PartyOpeningLines(roles: Roles, party: nat, vendorOnly: bool, amount: int): Result<seq<Line>> {
    var equity :- AccountOf(roles, OpeningEquity);
    var balance :- AccountOf(roles, BalanceRole(vendorOnly));
    Success(if vendorOnly then [Line(equity, None, amount, 0), Line(balance, Some(party), 0, amount)]
            else [Line(balance, Some(party), amount, 0), Line(equity, None, 0, amount)])
  }

  /** `set_party_opening_balance`. */
  function SetPartyOpening(b: Books, roles: Roles, party: nat, vendorOnly: bool, amount: int, asOf: Day): Result<Books> {
    if party !in b.parties then Failure(NotFound)
    else
      :- Need(amount >= 0, BadRequest);
      var cleared :- ReverseSource(b, OpeningSource(party), asOf);
      if amount == 0 then Success(cleared)
      else
        var lines :- PartyOpeningLines(roles, party, vendorOnly, amount);
        PostVoucher(cleared, OpeningVoucher, asOf, lines, OpeningSource(party), true)
  }

  /** At most one call of the ledger. */
  ghost predicate Calls(b: Books, call: Option<BooksOp>, b': Books) {
    if call.None? then b' == b else Step(b, call.value) == Success(b')
  }

  /** The ledger sees the standing opening reversed and the new one posted. */
  lemma SettingCalls(b: Books, roles: Roles, party: nat, vendorOnly: bool, amount: int, asOf: Day)
      returns (clearing: Option<BooksOp>, cleared: Books, call: Option<BooksOp>)
    requires SetPartyOpening(b, roles, party, vendorOnly, amount, asOf).Success?
    ensures Calls(b, clearing, cleared) && Calls(cleared, call, SetPartyOpening(b, roles, party, vendorOnly, amount, asOf).value)
    ensures clearing.Some? ==> clearing.value.ReverseOp? && Standing(b.vouchers, OpeningSource(party), clearing.value.id)
    ensures call.Some? ==> call.value.PostOp? && call.value.source == OpeningSource(party)
  {
    clearing, cleared := ClearingCall(b, OpeningSource(party), asOf);
    call := None;
    if amount != 0 {
      var posting := PostingCall(cleared, asOf, PartyOpeningLines(roles, party, vendorOnly, amount).value, OpeningSource(party));
      call := Some(posting);
    }
  }

  lemma PostingCall(b: Books, asOf: Day, lines: seq<Line>, source: Source) returns (call: BooksOp)
    requires PostVoucher(b, OpeningVoucher, asOf, lines, source, true).Success?
    ensures Step(b, call) == PostVoucher(b, OpeningVoucher, asOf, lines, source, true) && call.PostOp? && call.source == source
  {
    call := PostOp(OpeningVoucher, asOf, lines, source, true);
  }

  lemma ClearingCall(b: Books, source: Source, asOf: Day) returns (clearing: Option<BooksOp>, cleared: Books)
    requires ReverseSource(b, source, asOf).Success?
    ensures cleared == ReverseSource(b, source, asOf).value && Calls(b, clearing, cleared)
    ensures clearing.Some? ==> clearing.value.ReverseOp? && Standing(b.vouchers, source, clearing.value.id)
  {
    var standing := StandingVoucher(b.vouchers, source);
    clearing := if standing.None? then None else Some(ReverseOp(standing.value, Some(asOf)));
    cleared := ReverseSource(b, source, asOf).value;
  }

  /** The vouchers of one source, reversals included. */
  function VouchersOf(vs: seq<Voucher>, source: Source): set<nat> {
    set i: nat | i < |vs| && vs[i].source == source
  }

  function OnParty(ids: set<nat>, account: nat, party: nat): Filter {
    Filter(In({account}), In({Some(party)}), In(ids), None, None)
  }

  /** What all of a party's opening vouchers come to on one account. */
  function OpeningNet(b: Books, party: nat, account: nat): int {
    Net(b.entries, OnParty(VouchersOf(b.vouchers, OpeningSource(party)), account, party))
  }

  predicate Standing(vs: seq<Voucher>, source: Source, i: nat) {
    i < |vs| && vs[i].source == source && vs[i].status.Posted? && vs[i].kind != Reversal
  }

  function StandingNet(b: Books, party: nat, account: nat): int {
    var standing := StandingVoucher(b.vouchers, OpeningSource(party));
    if standing.None? then 0 else LineNet(b.vouchers[standing.value].lines, account, Some(party))
  }

  /** At most one opening stands, all of them are posted, and together they come to what
      the standing one says. */
  ghost predicate OpeningsSound(b: Books, party: nat) {
    var source := OpeningSource(party);
    && (forall i: nat, j: nat :: Standing(b.vouchers, source, i) && Standing(b.vouchers, source, j) ==> i == j)
    && (forall i: nat :: i < |b.vouchers| && b.vouchers[i].source == source ==> IsPosted(b.vouchers[i]))
    && (forall account: nat :: OpeningNet(b, party, account) == StandingNet(b, party, account))
  }

  ghost predicate SameOpening(b: Books, b': Books, party: nat) {
    forall account: nat :: OpeningNet(b', party, account) == OpeningNet(b, party, account)
  }

  ghost predicate NoOpening(b: Books, party: nat) {
    forall account: nat :: OpeningNet(b, party, account) == 0
  }

  // ------------------------------------------------------------------- the sums

  /** One more voucher of the party's adds what its lines say. */
  lemma BlockAdds(es: seq<Entry>, id: nat, v: Voucher, lines: seq<Line>, ids: set<nat>, account: nat, party: nat)
    requires forall e :: e in es ==> e.voucher < id
    ensures Net(es + EntriesFrom(id, v, lines), OnParty(ids + {id}, account, party)) ==
              Net(es, OnParty(ids, account, party)) + LineNet(lines, account, Some(party))
  {
    var f, g, block := OnParty(ids + {id}, account, party), OnParty(ids, account, party), EntriesFrom(id, v, lines);
    EntriesFromShape(id, v, lines);
    SumsConcat(es, block, f);
    SumsCong(es, f, g);
    NetOfBlock(id, v, lines, account, Some(party), v.day);
    SumsCong(block, f, OfParty(account, Some(party), v.day));
  }

  lemma StandingIs(vs: seq<Voucher>, source: Source, i: nat)
    requires Standing(vs, source, i) && forall j: nat :: Standing(vs, source, j) ==> j == i
    ensures StandingVoucher(vs, source) == Some(i)
  {
    var r := StandingVoucher(vs, source);
    if r.Some? {
      assert Standing(vs, source, r.value);
    }
  }

  lemma NoneStands(vs: seq<Voucher>, source: Source)
    requires forall j: nat :: !Standing(vs, source, j)
    ensures StandingVoucher(vs, source) == None
  {
    var r := StandingVoucher(vs, source);
    if r.Some? {
      assert Standing(vs, source, r.value);
    }
  }

  // ------------------------------------------------------------------ the steps

  /** A voucher of the party's joins the others. */
  lemma JoinedNet(b: Books, b': Books, v: Voucher, party: nat, account: nat)
    requires EntriesMatch(b) && v.source == OpeningSource(party)
    requires |b'.vouchers| == |b.vouchers| + 1 && b'.vouchers[|b.vouchers|].source == v.source
    requires forall i :: 0 <= i < |b.vouchers| ==> b'.vouchers[i].source == b.vouchers[i].source
    requires b'.entries == b.entries + EntriesFrom(|b.vouchers|, v, v.lines)
    ensures OpeningNet(b', party, account) == OpeningNet(b, party, account) + LineNet(v.lines, account, Some(party))
  {
    var source, n := OpeningSource(party), |b.vouchers|;
    assert VouchersOf(b'.vouchers, source) == VouchersOf(b.vouchers, source) + {n};
    BlockAdds(b.entries, n, v, v.lines, VouchersOf(b.vouchers, source), account, party);
  }

  lemma NothingStandsAfter(vs: seq<Voucher>, ws: seq<Voucher>, source: Source, id: nat)
    requires id < |vs| && |ws| == |vs| + 1 && ws[|vs|].kind == Reversal && ws[id].status.Reversed?
    requires forall i :: 0 <= i < |vs| && i != id ==> ws[i] == vs[i]
    requires forall j: nat :: Standing(vs, source, j) ==> j == id
    ensures StandingVoucher(ws, source) == None
    ensures forall j: nat :: !Standing(ws, source, j)
  {
    forall j: nat ensures !Standing(ws, source, j) {
      assert j < |vs| && j != id && Standing(ws, source, j) ==> Standing(vs, source, j);
    }
    NoneStands(ws, source);
  }

  /** A voucher of the party's reversed takes its lines out again. */
  lemma ReversedNet(b: Books, party: nat, id: nat, to: Option<Day>, account: nat)
    requires EntriesMatch(b) && id < |b.vouchers| && b.vouchers[id].source == OpeningSource(party)
    requires ReverseVoucher(b, id, to).Success?
    ensures OpeningNet(ReverseVoucher(b, id, to).value, party, account) ==
              OpeningNet(b, party, account) - LineNet(b.vouchers[id].lines, account, Some(party))
  {
    var v := ReverseEffect(b, id, to);
    JoinedNet(b, ReverseVoucher(b, id, to).value, v, party, account);
    MirrorNet(b.vouchers[id].lines, account, Some(party));
  }

  lemma NothingLeft(b: Books, party: nat, id: nat, to: Option<Day>)
    requires EntriesMatch(b) && OpeningsSound(b, party) && StandingVoucher(b.vouchers, OpeningSource(party)) == Some(id)
    requires ReverseVoucher(b, id, to).Success?
    ensures NoOpening(ReverseVoucher(b, id, to).value, party)
  {
    forall account: nat ensures OpeningNet(ReverseVoucher(b, id, to).value, party, account) == 0 {
      ReversedNet(b, party, id, to, account);
      assert OpeningNet(b, party, account) == StandingNet(b, party, account);
    }
  }

  /** The standing opening reversed: nothing stands and nothing is left. */
  lemma ReversedOpening(b: Books, party: nat, id: nat, to: Option<Day>)
    requires BooksInv(b) && OpeningsSound(b, party) && Standing(b.vouchers, OpeningSource(party), id)
    requires ReverseVoucher(b, id, to).Success?
    ensures var b' := ReverseVoucher(b, id, to).value;
            OpeningsSound(b', party) && StandingVoucher(b'.vouchers, OpeningSource(party)) == None && NoOpening(b', party)
  {
    var source, b' := OpeningSource(party), ReverseVoucher(b, id, to).value;
    StandingIs(b.vouchers, source, id);
    NothingLeft(b, party, id, to);
    var v := ReverseEffect(b, id, to);
    NothingStandsAfter(b.vouchers, b'.vouchers, source, id);
  }

  lemma StandsAlone(vs: seq<Voucher>, v: Voucher, source: Source)
    requires StandingVoucher(vs, source) == None && v.source == source && v.status.Posted? && v.kind != Reversal
    ensures StandingVoucher(vs + [v], source) == Some(|vs|)
    ensures forall j: nat :: Standing(vs + [v], source, j) ==> j == |vs|
  {
    forall j: nat | Standing(vs + [v], source, j) ensures j == |vs| {
      assert j < |vs| ==> Standing(vs, source, j);
    }
    assert Standing(vs + [v], source, |vs|);
    StandingIs(vs + [v], source, |vs|);
  }

  /** An opening posted where none stands: it stands alone. */
  lemma PostedOpening(b: Books, party: nat, day: Day, lines: seq<Line>)
    requires BooksInv(b) && OpeningsSound(b, party) && StandingVoucher(b.vouchers, OpeningSource(party)) == None
    requires PostVoucher(b, OpeningVoucher, day, lines, OpeningSource(party), true).Success?
    ensures var b' := PostVoucher(b, OpeningVoucher, day, lines, OpeningSource(party), true).value;
            && OpeningsSound(b', party)
            && forall account: nat :: OpeningNet(b', party, account) == LineNet(lines, account, Some(party))
  {
    var source, n := OpeningSource(party), |b.vouchers|;
    var b' := PostVoucher(b, OpeningVoucher, day, lines, source, true).value;
    PostVoucherEffect(b, OpeningVoucher, day, lines, source, true);
    var year :| var v := Voucher(OpeningVoucher, day, Posted, source, lines, None, year);
      b' == b.(vouchers := b.vouchers + [v], entries := b.entries + EntriesFrom(n, v, lines));
    var v := Voucher(OpeningVoucher, day, Posted, source, lines, None, year);
    StandsAlone(b.vouchers, v, source);
    forall account: nat ensures OpeningNet(b', party, account) == LineNet(lines, account, Some(party)) {
      JoinedNet(b, b', v, party, account);
      assert OpeningNet(b, party, account) == StandingNet(b, party, account);
    }
  }

  lemma ClearedOpening(b: Books, party: nat, asOf: Day)
    requires BooksInv(b) && OpeningsSound(b, party) && ReverseSource(b, OpeningSource(party), asOf).Success?
    ensures var cleared := ReverseSource(b, OpeningSource(party), asOf).value;
            BooksInv(cleared) && OpeningsSound(cleared, party) && StandingVoucher(cleared.vouchers, OpeningSource(party)) == None
  {
    var standing := StandingVoucher(b.vouchers, OpeningSource(party));
    if standing.Some? {
      assert Standing(b.vouchers, OpeningSource(party), standing.value);
      ReversedOpening(b, party, standing.value, Some(asOf));
      ReverseKeepsBooks(b, standing.value, Some(asOf));
    }
  }

  lemma OpeningLinesNet(roles: Roles, party: nat, vendorOnly: bool, amount: int, account: nat)
    requires PartyOpeningLines(roles, party, vendorOnly, amount).Success?
    ensures LineNet(PartyOpeningLines(roles, party, vendorOnly, amount).value, account, Some(party)) ==
              if account == roles[BalanceRole(vendorOnly)] then Signed(vendorOnly, amount) else 0
  {
    var lines := PartyOpeningLines(roles, party, vendorOnly, amount).value;
    assert lines[..1] == [lines[0]] && lines[..1][..0] == [];
    assert LineNet(lines[..1][..0], account, Some(party)) == 0;
  }

  /** Set as often as one likes, a party's opening vouchers net, on its own account, to
      the last amount set, and to nothing on any other. */
  lemma OpeningIsLastAmount(b: Books, roles: Roles, party: nat, vendorOnly: bool, amount: int, asOf: Day, account: nat)
    requires BooksInv(b) && OpeningsSound(b, party) && SetPartyOpening(b, roles, party, vendorOnly, amount, asOf).Success?
    ensures var b' := SetPartyOpening(b, roles, party, vendorOnly, amount, asOf).value;
            && BooksInv(b') && OpeningsSound(b', party)
            && OpeningNet(b', party, account) ==
                 if amount > 0 && account == roles[BalanceRole(vendorOnly)] then Signed(vendorOnly, amount) else 0
  {
    ClearedOpening(b, party, asOf);
    var cleared := ReverseSource(b, OpeningSource(party), asOf).value;
    if amount == 0 {
      assert OpeningNet(cleared, party, account) == StandingNet(cleared, party, account);
    } else {
      var lines := PartyOpeningLines(roles, party, vendorOnly, amount).value;
      PostedOpening(cleared, party, asOf, lines);
      PostKeepsBooks(cleared, OpeningVoucher, asOf, lines, OpeningSource(party), true);
      OpeningLinesNet(roles, party, vendorOnly, amount, account);
    }
  }

  // --------------------------------------- the exact condition of one setting

  lemma PostedNet(b: Books, party: nat, day: Day, lines: seq<Line>, account: nat)
    requires EntriesMatch(b) && PostVoucher(b, OpeningVoucher, day, lines, OpeningSource(party), true).Success?
    ensures OpeningNet(PostVoucher(b, OpeningVoucher, day, lines, OpeningSource(party), true).value, party, account) ==
              OpeningNet(b, party, account) + LineNet(lines, account, Some(party))
  {
    var source := OpeningSource(party);
    var b' := PostVoucher(b, OpeningVoucher, day, lines, source, true).value;
    PostVoucherEffect(b, OpeningVoucher, day, lines, source, true);
    var year :| var v := Voucher(OpeningVoucher, day, Posted, source, lines, None, year);
      b' == b.(vouchers := b.vouchers + [v], entries := b.entries + EntriesFrom(|b.vouchers|, v, lines));
    JoinedNet(b, b', Voucher(OpeningVoucher, day, Posted, source, lines, None, year), party, account);
  }

  lemma ClearedNet(b: Books, party: nat, asOf: Day, account: nat)
    requires BooksInv(b) && ReverseSource(b, OpeningSource(party), asOf).Success?
    ensures var cleared := ReverseSource(b, OpeningSource(party), asOf).value;
            BooksInv(cleared) && OpeningNet(cleared, party, account) == OpeningNet(b, party, account) - StandingNet(b, party, account)
  {
    var standing := StandingVoucher(b.vouchers, OpeningSource(party));
    if standing.Some? {
      ReversedNet(b, party, standing.value, Some(asOf), account);
      ReverseKeepsBooks(b, standing.value, Some(asOf));
    }
  }

  /** Whatever came before, setting the balance takes out what stands and adds the new
      amount. */
  lemma SettingReplacesStanding(b: Books, roles: Roles, party: nat, vendorOnly: bool, amount: int, asOf: Day, account: nat)
    requires BooksInv(b) && SetPartyOpening(b, roles, party, vendorOnly, amount, asOf).Success?
    ensures OpeningNet(SetPartyOpening(b, roles, party, vendorOnly, amount, asOf).value, party, account) ==
              OpeningNet(b, party, account) - StandingNet(b, party, account)
              + (if amount > 0 && account == roles[BalanceRole(vendorOnly)] then Signed(vendorOnly, amount) else 0)
  {
    ClearedNet(b, party, asOf, account);
    if amount != 0 {
      PostedNet(ReverseSource(b, OpeningSource(party), asOf).value, party, asOf,
                PartyOpeningLines(roles, party, vendorOnly, amount).value, account);
      OpeningLinesNet(roles, party, vendorOnly, amount, account);
    }
  }

  /** So it comes to the amount set exactly when before it came to what stood. */
  lemma SettingIsLastIff(b: Books, roles: Roles, party: nat, vendorOnly: bool, amount: int, asOf: Day, account: nat)
    requires BooksInv(b) && SetPartyOpening(b, roles, party, vendorOnly, amount, asOf).Success?
    ensures OpeningNet(SetPartyOpening(b, roles, party, vendorOnly, amount, asOf).value, party, account)
              == (if amount > 0 && account == roles[BalanceRole(vendorOnly)] then Signed(vendorOnly, amount) else 0)
            <==> OpeningNet(b, party, account) == StandingNet(b, party, account)
  {
    SettingReplacesStanding(b, roles, party, vendorOnly, amount, asOf, account);
  }

  /** A reversal reversed leaves nothing standing where nothing stood. */
  lemma StillNoneStands(b: Books, source: Source, id: nat, to: Option<Day>)
    requires (forall j: nat :: !Standing(b.vouchers, source, j)) && id < |b.vouchers| && ReverseVoucher(b, id, to).Success?
    ensures StandingVoucher(ReverseVoucher(b, id, to).value.vouchers, source) == None
  {
    var vs := ReverseVoucher(b, id, to).value.vouchers;
    var v := ReverseEffect(b, id, to);
    forall j: nat ensures !Standing(vs, source, j) {
      assert j < |b.vouchers| && j != id ==> vs[j] == b.vouchers[j];
      assert !Standing(b.vouchers, source, j);
    }
    NoneStands(vs, source);
  }

  lemma StandingNowhere(vs: seq<Voucher>, source: Source)
    requires StandingVoucher(vs, source) == None
    ensures forall j: nat :: !Standing(vs, source, j)
  {
  }

  /** It fails after a reversal of the opening is itself reversed by hand: the amount is
      back in the books, and no opening stands for the next setting to take out. */
  lemma UndoneReversalStays(b: Books, party: nat, id: nat, account: nat)
    requires BooksInv(b) && OpeningsSound(b, party) && Standing(b.vouchers, OpeningSource(party), id)
    requires ReverseVoucher(b, id, None).Success?
    requires ReverseVoucher(ReverseVoucher(b, id, None).value, |b.vouchers|, None).Success?
    ensures var b' := ReverseVoucher(ReverseVoucher(b, id, None).value, |b.vouchers|, None).value;
            && BooksInv(b')
            && OpeningNet(b', party, account) == OpeningNet(b, party, account) && StandingNet(b', party, account) == 0
  {
    var source, b1, n := OpeningSource(party), ReverseVoucher(b, id, None).value, |b.vouchers|;
    ReversedOpening(b, party, id, None);
    ReverseKeepsBooks(b, id, None);
    ReverseKeepsBooks(b1, n, None);
    TwiceReversedNet(b, party, id, account, b1);
    StandingNowhere(b1.vouchers, source);
    StillNoneStands(b1, source, n, None);
  }

  lemma TwiceReversedNet(b: Books, party: nat, id: nat, account: nat, b1: Books)
    requires EntriesMatch(b) && EntriesMatch(b1) && id < |b.vouchers| && b.vouchers[id].source == OpeningSource(party)
    requires ReverseVoucher(b, id, None) == Success(b1) && |b1.vouchers| == |b.vouchers| + 1
    requires ReverseVoucher(b1, |b.vouchers|, None).Success?
    ensures OpeningNet(ReverseVoucher(b1, |b.vouchers|, None).value, party, account) == OpeningNet(b, party, account)
  {
    var v := ReverseEffect(b, id, None);
    ReversedNet(b, party, id, None, account);
    ReversedNet(b1, party, |b.vouchers|, None, account);
    MirrorNet(b.vouchers[id].lines, account, Some(party));
  }

  // --------------------------------------------------------- any other call

  /** Vouchers of the source stay as they are, and what is posted is another's. */
  ghost predicate LeavesOpenings(b: Books, b': Books, source: Source) {
    && |b'.vouchers| >= |b.vouchers|
    && (forall i: nat :: i < |b'.vouchers| && b'.vouchers[i].source == source ==> i < |b.vouchers| && b.vouchers[i].source == source)
    && (forall i: nat :: i < |b.vouchers| && b.vouchers[i].source == source ==> b'.vouchers[i] == b.vouchers[i])
  }

  lemma LeftOpenings(b: Books, b': Books, party: nat)
    requires OpeningsSound(b, party) && LeavesOpenings(b, b', OpeningSource(party))
    requires forall account: nat :: Net(b'.entries, OnParty(VouchersOf(b.vouchers, OpeningSource(party)), account, party)) == OpeningNet(b, party, account)
    ensures OpeningsSound(b', party) && SameOpening(b, b', party)
  {
    var source := OpeningSource(party);
    assert VouchersOf(b'.vouchers, source) == VouchersOf(b.vouchers, source);
    assert forall i: nat :: Standing(b'.vouchers, source, i) <==> Standing(b.vouchers, source, i);
    var standing := StandingVoucher(b.vouchers, source);
    if standing.Some? {
      assert Standing(b'.vouchers, source, standing.value);
      StandingIs(b'.vouchers, source, standing.value);
    } else {
      NoneStands(b'.vouchers, source);
    }
    forall account: nat ensures OpeningNet(b', party, account) == StandingNet(b', party, account) {
      assert OpeningNet(b, party, account) == StandingNet(b, party, account);
    }
  }

  lemma OtherBlockAddsNothing(es: seq<Entry>, id: nat, v: Voucher, lines: seq<Line>, ids: set<nat>, account: nat, party: nat)
    requires id !in ids
    ensures Net(es + EntriesFrom(id, v, lines), OnParty(ids, account, party)) == Net(es, OnParty(ids, account, party))
  {
    EntriesFromShape(id, v, lines);
    SumsConcat(es, EntriesFrom(id, v, lines), OnParty(ids, account, party));
    SumsNone(EntriesFrom(id, v, lines), OnParty(ids, account, party));
  }

  lemma OtherPosting(b: Books, b': Books, party: nat, id: nat, v: Voucher)
    requires OpeningsSound(b, party) && LeavesOpenings(b, b', OpeningSource(party))
    requires id !in VouchersOf(b.vouchers, OpeningSource(party)) && b'.entries == b.entries + EntriesFrom(id, v, v.lines)
    ensures OpeningsSound(b', party) && SameOpening(b, b', party)
  {
    forall account: nat
      ensures Net(b'.entries, OnParty(VouchersOf(b.vouchers, OpeningSource(party)), account, party)) == OpeningNet(b, party, account)
    {
      OtherBlockAddsNothing(b.entries, id, v, v.lines, VouchersOf(b.vouchers, OpeningSource(party)), account, party);
    }
    LeftOpenings(b, b', party);
  }

  /** Calls that are not this party's opening, and do not reverse a reversal of it. */
  predicate Elsewhere(b: Books, op: BooksOp, source: Source) {
    match op
    case CreateOp(_, _, _, s, _) => s != source
    case PostOp(_, _, _, s, _) => s != source
    case ReverseOp(id, _) => id < |b.vouchers| && b.vouchers[id].source == source ==> b.vouchers[id].kind != Reversal
    case _ => true
  }

  lemma OtherDraftPosted(b: Books, id: nat, party: nat)
    requires OpeningsSound(b, party) && id < |b.vouchers| && PostDraft(b, id, false).Success?
    ensures OpeningsSound(PostDraft(b, id, false).value, party) && SameOpening(b, PostDraft(b, id, false).value, party)
  {
    var b' := PostDraft(b, id, false).value;
    assert b.vouchers[id].source != OpeningSource(party);
    OtherPosting(b, b', party, id, b'.vouchers[id]);
  }

  lemma OtherVoucherPosted(b: Books, kind: VoucherType, day: Day, lines: seq<Line>, s: Source, allowControl: bool, party: nat)
    requires OpeningsSound(b, party) && s != OpeningSource(party) && PostVoucher(b, kind, day, lines, s, allowControl).Success?
    ensures var b' := PostVoucher(b, kind, day, lines, s, allowControl).value; OpeningsSound(b', party) && SameOpening(b, b', party)
  {
    var b' := PostVoucher(b, kind, day, lines, s, allowControl).value;
    PostVoucherEffect(b, kind, day, lines, s, allowControl);
    var year :| var v := Voucher(kind, day, Posted, s, lines, None, year);
      b' == b.(vouchers := b.vouchers + [v], entries := b.entries + EntriesFrom(|b.vouchers|, v, lines));
    OtherPosting(b, b', party, |b.vouchers|, Voucher(kind, day, Posted, s, lines, None, year));
  }

  lemma ReversedElsewhere(b: Books, id: nat, to: Option<Day>, party: nat)
    requires BooksInv(b) && OpeningsSound(b, party) && id < |b.vouchers| && ReverseVoucher(b, id, to).Success?
    requires b.vouchers[id].source == OpeningSource(party) ==> b.vouchers[id].kind != Reversal
    ensures var b' := ReverseVoucher(b, id, to).value;
            OpeningsSound(b', party) && if Standing(b.vouchers, OpeningSource(party), id) then NoOpening(b', party) else SameOpening(b, b', party)
  {
    var v := ReverseEffect(b, id, to);
    if b.vouchers[id].source == OpeningSource(party) {
      assert Standing(b.vouchers, OpeningSource(party), id);
      ReversedOpening(b, party, id, to);
    } else {
      OtherPosting(b, ReverseVoucher(b, id, to).value, party, |b.vouchers|, v);
    }
  }

  /** The standing opening taken back by hand. */
  predicate Clears(b: Books, op: BooksOp, source: Source) {
    op.ReverseOp? && Standing(b.vouchers, source, op.id)
  }

  /** Every other call of the books leaves what the openings come to as it was, unless it
      takes the standing one back, and then nothing is left. */
  lemma OtherCallsKeepOpenings(b: Books, op: BooksOp, party: nat)
    requires BooksInv(b) && OpeningsSound(b, party) && Elsewhere(b, op, OpeningSource(party)) && Step(b, op).Success?
    ensures var b' := Step(b, op).value;
            OpeningsSound(b', party) && if Clears(b, op, OpeningSource(party)) then NoOpening(b', party) else SameOpening(b, b', party)
  {
    match op
    case PostDraftOp(id) => OtherDraftPosted(b, id, party);
    case PostOp(kind, day, lines, s, allowControl) => OtherVoucherPosted(b, kind, day, lines, s, allowControl, party);
    case ReverseOp(id, to) => ReversedElsewhere(b, id, to, party);
    case _ => QuietCallsKeepOpenings(b, op, party);
  }

  /** Calls that post nothing. */
  lemma QuietCallsKeepOpenings(b: Books, op: BooksOp, party: nat)
    requires OpeningsSound(b, party) && Elsewhere(b, op, OpeningSource(party)) && Step(b, op).Success?
    requires !op.PostDraftOp? && !op.PostOp? && !op.ReverseOp?
    ensures OpeningsSound(Step(b, op).value, party) && SameOpening(b, Step(b, op).value, party)
  {
    var b' := Step(b, op).value;
    assert b'.entries == b.entries;
    assert LeavesOpenings(b, b', OpeningSource(party));
    LeftOpenings(b, b', party);
  }

  /** A new organization has no openings. */
  lemma NoOpeningsYet(b: Books, party: nat)
    requires b.vouchers == [] && b.entries == []
    ensures OpeningsSound(b, party) && NoOpening(b, party)
  {
    NoneStands(b.vouchers, OpeningSource(party));
    forall account: nat ensures OpeningNet(b, party, account) == 0 {
      SumsNone(b.entries, OnParty(VouchersOf(b.vouchers, OpeningSource(party)), account, party));
    }
  }

  // ------------------------------------------------- what the figure read back says

  /** The opening vouchers, and not the reversals of them. */
  function OpeningVouchers(vs: seq<Voucher>): set<nat> {
    set i: nat | i < |vs| && vs[i].kind == OpeningVoucher
  }

  /** `party_opening_balance`: debits less credits of the party's opening entries. */
  function ReadOpening(b: Books, party: nat): int {
    Net(b.entries, Filter(Any, In({Some(party)}), In(OpeningVouchers(b.vouchers)), None, None))
  }

  function AllOf(lines: seq<Line>, party: nat): int {
    if lines == [] then 0
    else AllOf(lines[..|lines| - 1], party) + (if lines[|lines| - 1].party == Some(party) then lines[|lines| - 1].debit - lines[|lines| - 1].credit else 0)
  }

  lemma {:induction false} PartyNetOfBlock(id: nat, v: Voucher, lines: seq<Line>, ids: set<nat>, party: nat)
    ensures Net(EntriesFrom(id, v, lines), Filter(Any, In({Some(party)}), In(ids), None, None)) == if id in ids then AllOf(lines, party) else 0
  {
    if lines != [] {
      var front := EntriesFrom(id, v, lines[..|lines| - 1]);
      PartyNetOfBlock(id, v, lines[..|lines| - 1], ids, party);
      assert EntriesFrom(id, v, lines)[..|front|] == front;
    }
  }

  /** One voucher more, of either kind. */
  lemma ReadAfterBlock(b: Books, b': Books, v: Voucher, party: nat)
    requires EntriesMatch(b) && |b'.vouchers| == |b.vouchers| + 1 && b'.vouchers[|b.vouchers|].kind == v.kind
    requires forall i :: 0 <= i < |b.vouchers| ==> b'.vouchers[i].kind == b.vouchers[i].kind
    requires b'.entries == b.entries + EntriesFrom(|b.vouchers|, v, v.lines)
    ensures ReadOpening(b', party) == ReadOpening(b, party) + if v.kind == OpeningVoucher then AllOf(v.lines, party) else 0
  {
    var n := |b.vouchers|;
    var f := Filter(Any, In({Some(party)}), In(OpeningVouchers(b'.vouchers)), None, None);
    SumsConcat(b.entries, EntriesFrom(n, v, v.lines), f);
    SumsCong(b.entries, f, Filter(Any, In({Some(party)}), In(OpeningVouchers(b.vouchers)), None, None));
    PartyNetOfBlock(n, v, v.lines, OpeningVouchers(b'.vouchers), party);
  }

  lemma ReadAfterReverse(b: Books, party: nat, id: nat, to: Option<Day>)
    requires EntriesMatch(b) && id < |b.vouchers| && ReverseVoucher(b, id, to).Success?
    ensures ReadOpening(ReverseVoucher(b, id, to).value, party) == ReadOpening(b, party)
  {
    var v := ReverseEffect(b, id, to);
    ReadAfterBlock(b, ReverseVoucher(b, id, to).value, v, party);
  }

  lemma ReadAfterReversal(b: Books, party: nat, source: Source, day: Day)
    requires BooksInv(b) && ReverseSource(b, source, day).Success?
    ensures BooksInv(ReverseSource(b, source, day).value)
    ensures ReadOpening(ReverseSource(b, source, day).value, party) == ReadOpening(b, party)
  {
    var standing := StandingVoucher(b.vouchers, source);
    if standing.Some? {
      ReadAfterReverse(b, party, standing.value, Some(day));
      ReverseKeepsBooks(b, standing.value, Some(day));
    }
  }

  lemma AllOfOpening(roles: Roles, party: nat, vendorOnly: bool, amount: int)
    requires PartyOpeningLines(roles, party, vendorOnly, amount).Success?
    ensures AllOf(PartyOpeningLines(roles, party, vendorOnly, amount).value, party) == Signed(vendorOnly, amount)
  {
    var lines := PartyOpeningLines(roles, party, vendorOnly, amount).value;
    assert lines[..1] == [lines[0]] && lines[..1][..0] == [];
    assert AllOf(lines[..1][..0], party) == 0;
  }

  lemma ReadAfterPosting(b: Books, party: nat, day: Day, lines: seq<Line>, source: Source)
    requires EntriesMatch(b) && PostVoucher(b, OpeningVoucher, day, lines, source, true).Success?
    ensures ReadOpening(PostVoucher(b, OpeningVoucher, day, lines, source, true).value, party) == ReadOpening(b, party) + AllOf(lines, party)
  {
    PostVoucherEffect(b, OpeningVoucher, day, lines, source, true);
    var b' := PostVoucher(b, OpeningVoucher, day, lines, source, true).value;
    var year :| var v := Voucher(OpeningVoucher, day, Posted, source, lines, None, year);
      b' == b.(vouchers := b.vouchers + [v], entries := b.entries + EntriesFrom(|b.vouchers|, v, lines));
    ReadAfterBlock(b, b', Voucher(OpeningVoucher, day, Posted, source, lines, None, year), party);
  }

  /** The figure read back adds every amount ever set and never takes a superseded one
      out again: it is the last amount exactly when it read zero before. */
  lemma ReadIsLastIff(b: Books, roles: Roles, party: nat, vendorOnly: bool, amount: int, asOf: Day)
    requires BooksInv(b) && SetPartyOpening(b, roles, party, vendorOnly, amount, asOf).Success?
    ensures var b' := SetPartyOpening(b, roles, party, vendorOnly, amount, asOf).value;
            && ReadOpening(b', party) == ReadOpening(b, party) + Signed(vendorOnly, amount)
            && (ReadOpening(b', party) == Signed(vendorOnly, amount) <==> ReadOpening(b, party) == 0)
  {
    ReadAfterReversal(b, party, OpeningSource(party), asOf);
    if amount != 0 {
      var cleared := ReverseSource(b, OpeningSource(party), asOf).value;
      ReadAfterPosting(cleared, party, asOf, PartyOpeningLines(roles, party, vendorOnly, amount).value, OpeningSource(party));
      AllOfOpening(roles, party, vendorOnly, amount);
    }
  }
}
