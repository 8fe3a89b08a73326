/** What the vouchers of one source, or of one kind of source, come to on one account,
    and the calls of the ledger that leave it alone. */
module VoucherLegs {
  import opened Basics
  import opened LedgerTables
  import opened Ledger

  /** All sources of a kind, or one source. */
  datatype Which = AllOf(kind: SourceKind) | Only(source: Source)

  predicate Chosen(source: Source, which: Which) {
    && source.Source?
    && match which
       case AllOf(kind) => source.kind == kind
       case Only(one) => source == one
  }

  /** A voucher of such a source, itself or the reversal of one. */
  predicate FromAny(v: Voucher, which: Which) {
    Chosen(v.source, which)
  }

  /** Itself, not the reversal of one. */
  predicate Counts(v: Voucher, which: Which) {
    FromAny(v, which) && v.kind != Reversal
  }

  /** Their legs on one account. */
  function Legs(vs: seq<Voucher>, which: Which, account: nat): int {
    if vs == [] then 0
    else Legs(vs[..|vs| - 1], which, account) + (if Counts(vs[|vs| - 1], which) then LineNet(vs[|vs| - 1].lines, account, None) else 0)
  }

  function CountOf(vs: seq<Voucher>, which: Which): nat {
    if vs == [] then 0 else CountOf(vs[..|vs| - 1], which) + (if Counts(vs[|vs| - 1], which) then 1 else 0)
  }

  /** None of them is a draft. */
  ghost predicate AllPosted(vs: seq<Voucher>, which: Which) {
    forall i :: 0 <= i < |vs| && FromAny(vs[i], which) ==> IsPosted(vs[i])
  }

  /** Each names a row that exists. */
  ghost predicate NamesBelow(vs: seq<Voucher>, which: Which, n: nat) {
    forall i :: 0 <= i < |vs| && FromAny(vs[i], which) ==> vs[i].source.id < n
  }

  /** Rows that do not count, or change only their status, leave the legs alone. */
  lemma {:induction false} SameLegs(vs: seq<Voucher>, ws: seq<Voucher>, which: Which, account: nat)
    requires |vs| == |ws|
    requires forall i :: 0 <= i < |vs| ==> Counts(ws[i], which) == Counts(vs[i], which) && (Counts(vs[i], which) ==> ws[i].lines == vs[i].lines)
    ensures Legs(ws, which, account) == Legs(vs, which, account) && CountOf(ws, which) == CountOf(vs, which)
  {
    if vs != [] {
      SameLegs(vs[..|vs| - 1], ws[..|ws| - 1], which, account);
    }
  }

  lemma AppendedLegs(vs: seq<Voucher>, v: Voucher, which: Which, account: nat)
    ensures Legs(vs + [v], which, account) == Legs(vs, which, account) + if Counts(v, which) then LineNet(v.lines, account, None) else 0
    ensures CountOf(vs + [v], which) == CountOf(vs, which) + if Counts(v, which) then 1 else 0
  {
    assert (vs + [v])[..|vs|] == vs;
  }

  /** Their vouchers are where they were, some of them reversed since. */
  ghost predicate SparedLegs(vs: seq<Voucher>, ws: seq<Voucher>, which: Which, account: nat) {
    && AllPosted(ws, which) && (forall n: nat :: NamesBelow(vs, which, n) ==> NamesBelow(ws, which, n))
    && Legs(ws, which, account) == Legs(vs, which, account) && CountOf(ws, which) == CountOf(vs, which)
  }

  lemma DraftSparesLegs(vs: seq<Voucher>, id: nat, v: Voucher, which: Which, account: nat)
    requires AllPosted(vs, which) && id < |vs| && vs[id].status.Draft? && v.source == vs[id].source
    ensures SparedLegs(vs, vs[id := v], which, account)
  {
    assert !FromAny(vs[id], which);
    SameLegs(vs, vs[id := v], which, account);
  }

  lemma AnotherSparesLegs(vs: seq<Voucher>, v: Voucher, which: Which, account: nat)
    requires AllPosted(vs, which) && !FromAny(v, which)
    ensures SparedLegs(vs, vs + [v], which, account)
  {
    AppendedLegs(vs, v, which, account);
  }

  lemma ReversalSparesLegs(b: Books, id: nat, to: Option<Day>, which: Which, account: nat)
    requires AllPosted(b.vouchers, which) && id < |b.vouchers| && ReverseVoucher(b, id, to).Success?
    ensures SparedLegs(b.vouchers, ReverseVoucher(b, id, to).value.vouchers, which, account)
  {
    var v := ReverseEffect(b, id, to);
    var marked := b.vouchers[id := b.vouchers[id].(status := Reversed)];
    SameLegs(b.vouchers, marked, which, account);
    AppendedLegs(marked, v, which, account);
    var ws := marked + [v];
    forall i | 0 <= i < |ws| && FromAny(ws[i], which)
      ensures IsPosted(ws[i]) && exists j :: 0 <= j < |b.vouchers| && FromAny(b.vouchers[j], which) && b.vouchers[j].source == ws[i].source
    {
      assert if i < |b.vouchers| then b.vouchers[i].source == ws[i].source else b.vouchers[id].source == ws[i].source;
    }
  }

  /** Calls that post none of them. */
  predicate Spares(op: BooksOp, which: Which) {
    match op
    case CreateOp(_, _, _, source, _) => source.NoSource?
    case PostOp(_, _, _, source, _) => !Chosen(source, which)
    case _ => true
  }

  lemma CallSparesLegs(b: Books, op: BooksOp, which: Which, account: nat)
    requires AllPosted(b.vouchers, which) && Spares(op, which) && Step(b, op).Success?
    ensures SparedLegs(b.vouchers, Step(b, op).value.vouchers, which, account)
  {
    var vs, ws := b.vouchers, Step(b, op).value.vouchers;
    match op
    case CreateOp(kind, day, lines, source, allowControl) => AnotherSparesLegs(vs, ws[|vs|], which, account);
    case UpdateOp(id, day, lines) => DraftSparesLegs(vs, id, ws[id], which, account);
    case PostDraftOp(id) => DraftSparesLegs(vs, id, ws[id], which, account);
    case CancelOp(id) => DraftSparesLegs(vs, id, ws[id], which, account);
    case PostOp(kind, day, lines, source, allowControl) =>
      PostVoucherEffect(b, kind, day, lines, source, allowControl);
      AnotherSparesLegs(vs, ws[|vs|], which, account);
    case ReverseOp(id, to) => ReversalSparesLegs(b, id, to, which, account);
    case _ =>
  }

  /** One voucher of theirs more: its lines count, and the row it names exists. */
  lemma PostedLeg(b: Books, kind: VoucherType, day: Day, lines: seq<Line>, source: Source, which: Which, account: nat)
    requires AllPosted(b.vouchers, which) && kind != Reversal && Chosen(source, which)
    requires PostVoucher(b, kind, day, lines, source, true).Success?
    ensures var vs := PostVoucher(b, kind, day, lines, source, true).value.vouchers;
            && AllPosted(vs, which) && Legs(vs, which, account) == Legs(b.vouchers, which, account) + LineNet(lines, account, None)
            && CountOf(vs, which) == CountOf(b.vouchers, which) + 1
  {
    PostVoucherEffect(b, kind, day, lines, source, true);
    AppendedLegs(b.vouchers, PostVoucher(b, kind, day, lines, source, true).value.vouchers[|b.vouchers|], which, account);
  }
}
