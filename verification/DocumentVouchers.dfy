/** The vouchers of a document: one posting and the chain of reversals behind it, all
    on the document's date; and what they net to once the document is void. */
module DocumentVouchers {
  import opened Basics
  import opened DocumentTables
  import opened DocumentStock
  import opened LedgerTables
  import opened Ledger
  import opened ReversalChains
  import opened Poster
  import opened PartyOpenings
  import opened Documents
  import opened Lifecycle

  function DocSource(id: nat): Source {
    Source(DocumentKind, id)
  }

  predicate FromDocument(v: Voucher) {
    v.source.Source? && v.source.kind == DocumentKind
  }

  /** A document's voucher is posted, on the date of a document that is no draft; and
      a void document's own posting does not stand. */
  ghost predicate VoucherBelongs(docs: Docs, v: Voucher) {
    FromDocument(v) ==>
      && v.source.id in docs && !docs[v.source.id].status.DraftDoc?
      && IsPosted(v) && v.day == docs[v.source.id].issued
      && (docs[v.source.id].status.VoidDoc? && v.kind != Reversal ==> v.status.Reversed?)
  }

  /** At most one posting of each document, reversals aside. */
  ghost predicate OnePosting(vs: seq<Voucher>) {
    forall i, j :: 0 <= i < |vs| && 0 <= j < |vs| && FromDocument(vs[i]) && vs[i].source == vs[j].source && vs[i].kind != Reversal && vs[j].kind != Reversal ==> i == j
  }

  ghost predicate AllBelong(docs: Docs, vs: seq<Voucher>) {
    forall i {:trigger VoucherBelongs(docs, vs[i])} :: 0 <= i < |vs| ==> VoucherBelongs(docs, vs[i])
  }

  ghost predicate VouchersInv(docs: Docs, vs: seq<Voucher>) {
    AllBelong(docs, vs) && OnePosting(vs)
  }

  /** A draft has no voucher at all. */
  lemma DraftHasNoVoucher(docs: Docs, vs: seq<Voucher>, id: nat)
    requires AllBelong(docs, vs) && (id in docs ==> docs[id].status.DraftDoc?)
    ensures forall i :: 0 <= i < |vs| ==> vs[i].source != DocSource(id)
    ensures !AlreadyPosted(vs, DocSource(id))
  {
    forall i | 0 <= i < |vs| ensures vs[i].source != DocSource(id) {
      assert VoucherBelongs(docs, vs[i]);
    }
  }

  /** Documents change around the vouchers without disowning any. */
  ghost predicate KeepsDocuments(docs: Docs, docs': Docs) {
    forall id :: id in docs && !docs[id].status.DraftDoc? ==>
      && id in docs' && !docs'[id].status.DraftDoc? && docs'[id].issued == docs[id].issued
      && (docs'[id].status.VoidDoc? ==> docs[id].status.VoidDoc?)
  }

  lemma DocumentsKeepVouchers(docs: Docs, docs': Docs, vs: seq<Voucher>)
    requires VouchersInv(docs, vs) && KeepsDocuments(docs, docs')
    ensures VouchersInv(docs', vs)
  {
    forall i | 0 <= i < |vs| ensures VoucherBelongs(docs', vs[i]) {
      assert VoucherBelongs(docs, vs[i]);
    }
  }

  // -------------------------------------------------------- steps of the books

  /** Adding a voucher that is no document's. */
  lemma AddOtherKeeps(docs: Docs, vs: seq<Voucher>, v: Voucher)
    requires VouchersInv(docs, vs) && !FromDocument(v)
    ensures VouchersInv(docs, vs + [v])
  {
    forall i | 0 <= i < |vs + [v]| ensures VoucherBelongs(docs, (vs + [v])[i]) {
      assert i < |vs| ==> VoucherBelongs(docs, vs[i]);
    }
  }

  /** Rewriting a voucher that is no document's. */
  lemma SetOtherKeeps(docs: Docs, vs: seq<Voucher>, id: nat, v: Voucher)
    requires VouchersInv(docs, vs) && id < |vs| && !FromDocument(vs[id]) && !FromDocument(v)
    ensures VouchersInv(docs, vs[id := v])
  {
    var ws := vs[id := v];
    forall i | 0 <= i < |ws| ensures VoucherBelongs(docs, ws[i]) {
      assert i != id ==> VoucherBelongs(docs, vs[i]);
    }
  }

  /** Reversing on the voucher's own date, or a voucher that is no document's on any. */
  lemma ReverseKeepsVouchers(docs: Docs, vs: seq<Voucher>, id: nat, v: Voucher)
    requires VouchersInv(docs, vs) && id < |vs| && vs[id].status.Posted?
    requires v.kind == Reversal && v.status.Posted? && v.source == vs[id].source && (FromDocument(vs[id]) ==> v.day == vs[id].day)
    ensures VouchersInv(docs, vs[id := vs[id].(status := Reversed)] + [v])
  {
    var ws := vs[id := vs[id].(status := Reversed)] + [v];
    assert VoucherBelongs(docs, vs[id]);
    forall i | 0 <= i < |ws| ensures VoucherBelongs(docs, ws[i]) {
      assert i < |vs| ==> VoucherBelongs(docs, vs[i]);
    }
  }

  lemma DraftIsNoDocuments(docs: Docs, vs: seq<Voucher>, id: nat)
    requires AllBelong(docs, vs) && id < |vs| && vs[id].status.Draft?
    ensures !FromDocument(vs[id])
  {
    assert VoucherBelongs(docs, vs[id]);
  }

  lemma PostOtherKeeps(docs: Docs, b: Books, kind: VoucherType, day: Day, lines: seq<Line>, source: Source, allowControl: bool)
    requires VouchersInv(docs, b.vouchers) && PostVoucher(b, kind, day, lines, source, allowControl).Success?
    requires source.NoSource? || source.kind != DocumentKind
    ensures VouchersInv(docs, PostVoucher(b, kind, day, lines, source, allowControl).value.vouchers)
  {
    PostVoucherEffect(b, kind, day, lines, source, allowControl);
    var year :| PostVoucher(b, kind, day, lines, source, allowControl).value.vouchers == b.vouchers + [Voucher(kind, day, Posted, source, lines, None, year)];
    AddOtherKeeps(docs, b.vouchers, Voucher(kind, day, Posted, source, lines, None, year));
  }

  lemma ReverseVoucherKeeps(docs: Docs, b: Books, id: nat, to: Option<Day>)
    requires VouchersInv(docs, b.vouchers) && id < |b.vouchers| && ReverseVoucher(b, id, to).Success?
    requires to.Some? ==> !FromDocument(b.vouchers[id]) || to.value == b.vouchers[id].day
    ensures VouchersInv(docs, ReverseVoucher(b, id, to).value.vouchers)
  {
    var v := ReverseEffect(b, id, to);
    ReverseKeepsVouchers(docs, b.vouchers, id, v);
  }

  /** Calls that post nothing of a document's, and take back what is its on its date. */
  predicate NoDocumentsCall(b: Books, op: BooksOp) {
    match op
    case CreateOp(_, _, _, source, _) => source.NoSource?
    case PostOp(_, _, _, source, _) => source.NoSource? || source.kind != DocumentKind
    case ReverseOp(id, to) => to.Some? && id < |b.vouchers| ==> !FromDocument(b.vouchers[id])
    case _ => true
  }

  /** No call of the voucher, period or account services disturbs a document's vouchers. */
  lemma CallKeepsVouchers(docs: Docs, b: Books, op: BooksOp)
    requires VouchersInv(docs, b.vouchers) && NoDocumentsCall(b, op) && Step(b, op).Success?
    ensures VouchersInv(docs, Step(b, op).value.vouchers)
  {
    match op
    case CreateOp(kind, day, lines, source, allowControl) =>
      AddOtherKeeps(docs, b.vouchers, Step(b, op).value.vouchers[|b.vouchers|]);
    case UpdateOp(id, day, lines) =>
      DraftIsNoDocuments(docs, b.vouchers, id);
      SetOtherKeeps(docs, b.vouchers, id, b.vouchers[id].(day := day, lines := lines));
    case PostDraftOp(id) =>
      DraftIsNoDocuments(docs, b.vouchers, id);
      SetOtherKeeps(docs, b.vouchers, id, Step(b, op).value.vouchers[id]);
    case CancelOp(id) =>
      DraftIsNoDocuments(docs, b.vouchers, id);
      SetOtherKeeps(docs, b.vouchers, id, b.vouchers[id].(status := Cancelled));
    case PostOp(kind, day, lines, source, allowControl) => PostOtherKeeps(docs, b, kind, day, lines, source, allowControl);
    case ReverseOp(id, to) => ReverseVoucherKeeps(docs, b, id, to);
    case _ =>
  }

  /** Neither does setting a party's opening balance. */
  lemma PartyOpeningKeepsVouchers(docs: Docs, b: Books, roles: Roles, party: nat, vendorOnly: bool, amount: int, asOf: Day)
    requires VouchersInv(docs, b.vouchers) && SetPartyOpening(b, roles, party, vendorOnly, amount, asOf).Success?
    ensures VouchersInv(docs, SetPartyOpening(b, roles, party, vendorOnly, amount, asOf).value.vouchers)
  {
    var clearing, cleared, call := SettingCalls(b, roles, party, vendorOnly, amount, asOf);
    if clearing.Some? {
      CallKeepsVouchers(docs, b, clearing.value);
    }
    if call.Some? {
      CallKeepsVouchers(docs, cleared, call.value);
    }
  }

  /** Posting a draft's voucher, or nothing, leaves every voucher belonging once the
      draft is sent. */
  lemma PostDocumentKeeps(docs: Docs, docs': Docs, b: Books, roles: Roles, id: nat, d: Document, value: int, sourceMoved: bool)
    requires VouchersInv(docs, b.vouchers) && PostDocument(b, roles, id, d, value, sourceMoved).Success?
    requires id in docs && docs[id].status.DraftDoc? && KeepsDocuments(docs, docs')
    requires id in docs' && docs'[id].status.SentDoc? && docs'[id].issued == d.issued
    ensures VouchersInv(docs', PostDocument(b, roles, id, d, value, sourceMoved).value.vouchers)
  {
    DraftHasNoVoucher(docs, b.vouchers, id);
    DocumentsKeepVouchers(docs, docs', b.vouchers);
    var b' := PostDocument(b, roles, id, d, value, sourceMoved).value;
    if b' != b {
      var lines := DocumentVoucherLines(roles, d, value, sourceMoved).value;
      PostVoucherEffect(b, VoucherKindOf(d.kind), d.issued, lines, DocSource(id), true);
      var year :| b'.vouchers == b.vouchers + [Voucher(VoucherKindOf(d.kind), d.issued, Posted, DocSource(id), lines, None, year)];
      forall i | 0 <= i < |b'.vouchers| ensures VoucherBelongs(docs', b'.vouchers[i]) {
        assert i < |b.vouchers| ==> VoucherBelongs(docs', b.vouchers[i]);
      }
    }
  }

  /** Voiding reverses the standing voucher, if any, on the document's date. */
  lemma ReverseSourceKeeps(docs: Docs, docs': Docs, b: Books, id: nat)
    requires VouchersInv(docs, b.vouchers) && id in docs && !docs[id].status.DraftDoc?
    requires ReverseSource(b, DocSource(id), docs[id].issued).Success?
    requires id in docs' && docs'[id].status.VoidDoc? && docs'[id].issued == docs[id].issued
    requires forall x :: x in docs && x != id && !docs[x].status.DraftDoc? ==>
               && x in docs' && !docs'[x].status.DraftDoc? && docs'[x].issued == docs[x].issued
               && (docs'[x].status.VoidDoc? ==> docs[x].status.VoidDoc?)
    ensures VouchersInv(docs', ReverseSource(b, DocSource(id), docs[id].issued).value.vouchers)
  {
    var b' := ReverseSource(b, DocSource(id), docs[id].issued).value;
    var standing := StandingVoucher(b.vouchers, DocSource(id));
    if standing.Some? {
      assert VoucherBelongs(docs, b.vouchers[standing.value]);
      ReverseVoucherKeeps(docs, b, standing.value, Some(docs[id].issued));
      var v := ReverseEffect(b, standing.value, Some(docs[id].issued));
    }
    forall i | 0 <= i < |b'.vouchers| ensures VoucherBelongs(docs', b'.vouchers[i]) {
      assert VoucherBelongs(docs, b'.vouchers[i]);
      if b'.vouchers[i].source == DocSource(id) && b'.vouchers[i].kind != Reversal {
        assert i < |b.vouchers| && VoucherBelongs(docs, b.vouchers[i]);
      }
    }
  }

  // --------------------------------------------------------- steps of the whole

  lemma SameBooksKeep(o: Org, o': Org)
    requires VouchersInv(o.docs, o.books.vouchers) && o'.books == o.books && KeepsDocuments(o.docs, o'.docs)
    ensures VouchersInv(o'.docs, o'.books.vouchers)
  {
    DocumentsKeepVouchers(o.docs, o'.docs, o.books.vouchers);
  }

  lemma SendingKeepsDocuments(docs: Docs, id: nat, d: Document, sent: Document)
    requires id in docs && docs[id].status.DraftDoc? && GuardSource(docs, d).Pass? && SourcesAfter(docs, d).Success?
    ensures KeepsDocuments(docs, SourcesAfter(docs, d).value[id := sent])
  {
    SourcesAfterEffect(docs, d);
    forall x | x in docs ensures SourcesAfter(docs, d).value[x].issued == docs[x].issued {
      assert SourcesAfter(docs, d).value[x].(status := DraftDoc, credited := 0, paymentStatus := Unpaid) == docs[x].(status := DraftDoc, credited := 0, paymentStatus := Unpaid);
    }
  }

  lemma FinalizeKeepsVouchers(o: Org, id: nat, filing: Filing)
    requires LifecycleInv(o.docs, o.next) && VouchersInv(o.docs, o.books.vouchers) && Finalize(o, id, filing).Success?
    ensures VouchersInv(Finalize(o, id, filing).value.docs, Finalize(o, id, filing).value.books.vouchers)
  {
    var d, moves := FinalizeEffect(o, id, filing);
    var o' := Finalize(o, id, filing).value;
    SendingKeepsDocuments(o.docs, id, d, FinalDocument(o.docs, d, moves, filing));
    PostDocumentKeeps(o.docs, o'.docs, o.books, o.roles, id, d.(stockPosted := moves), StockValue(MovementsOf(o'.stock.movements, id)), SourceMoved(o.docs, d));
  }

  /** Voiding moves no document's date and voids no other. */
  lemma VoidKeepsDates(docs: Docs, next: nat, id: nat, left: Docs)
    requires LifecycleInv(docs, next) && id in docs && Live(docs[id]) && Leaves(docs, id, left) && id in left
    requires forall x :: x in left ==> left[x].issued == docs[x].issued
    ensures var docs' := ReopenOrder(left, docs[id].source, id);
            && id in docs' && docs'[id].status.VoidDoc? && docs'[id].issued == docs[id].issued
            && forall x :: x in docs && x != id && !docs[x].status.DraftDoc? ==>
                 && x in docs' && !docs'[x].status.DraftDoc? && docs'[x].issued == docs[x].issued
                 && (docs'[x].status.VoidDoc? ==> docs[x].status.VoidDoc?)
  {
    LeaveEffect(docs, next, id, left);
    forall x | x in left ensures ReopenOrder(left, docs[id].source, id)[x].issued == docs[x].issued {
      assert ReopenOrder(left, docs[id].source, id)[x].(status := DraftDoc) == left[x].(status := DraftDoc);
    }
  }

  lemma VoidKeepsVouchers(o: Org, id: nat)
    requires LifecycleInv(o.docs, o.next) && VouchersInv(o.docs, o.books.vouchers) && VoidDocument(o, id).Success?
    ensures VouchersInv(VoidDocument(o, id).value.docs, VoidDocument(o, id).value.books.vouchers)
  {
    VoidEffect(o, id);
    var d := o.docs[id];
    assert Linked(o.docs, id);
    VoidKeepsDates(o.docs, o.next, id, WithoutCredit(o.docs, d)[id := VoidedDocument(d)]);
    ReverseSourceKeeps(o.docs, VoidDocument(o, id).value.docs, o.books, id);
  }

  /** A draft written or rewritten, or a document settled, disowns no voucher. */
  lemma WritingKeepsDocuments(docs: Docs, id: nat, d: Document)
    requires id in docs && !docs[id].status.DraftDoc? ==> d.status == docs[id].status && d.issued == docs[id].issued
    ensures KeepsDocuments(docs, docs[id := d])
  {
  }

  lemma DraftsKeepVouchers(o: Org, op: OrgOp)
    requires LifecycleInv(o.docs, o.next) && VouchersInv(o.docs, o.books.vouchers) && OrgStep(o, op).Success?
    requires op.CreateOp? || op.UpdateOp? || op.ConvertOp?
    ensures VouchersInv(OrgStep(o, op).value.docs, o.books.vouchers)
  {
    match op
    case CreateOp(kind, input) =>
      WritingKeepsDocuments(o.docs, o.next, Create(o, kind, input).value.docs[o.next]);
      SameBooksKeep(o, Create(o, kind, input).value);
    case UpdateOp(id, update) =>
      WritingKeepsDocuments(o.docs, id, Update(o, id, update).value.docs[id]);
      SameBooksKeep(o, Update(o, id, update).value);
    case ConvertOp(id, target, today) =>
      WritingKeepsDocuments(o.docs, o.next, Convert(o, id, target, today).value.docs[o.next]);
      SameBooksKeep(o, Convert(o, id, target, today).value);
  }

  lemma PaymentsKeepVouchers(docs: Docs, vs: seq<Voucher>, id: nat, delta: int)
    requires VouchersInv(docs, vs) && id in docs
    ensures VouchersInv(docs[id := ApplySettlement(docs[id], delta)], vs)
  {
    WritingKeepsDocuments(docs, id, ApplySettlement(docs[id], delta));
    DocumentsKeepVouchers(docs, docs[id := ApplySettlement(docs[id], delta)], vs);
  }

  /** Rates, transfers, the catalogue and the roles leave documents and books alone. */
  lemma QuietStepsKeepVouchers(o: Org, op: OrgOp)
    requires VouchersInv(o.docs, o.books.vouchers) && OrgStep(o, op).Success?
    requires op.UpdateRateOp? || op.AddRateOp? || op.TransferOp? || op.CatalogOp? || op.RolesOp?
    ensures VouchersInv(OrgStep(o, op).value.docs, OrgStep(o, op).value.books.vouchers)
  {
    OtherStepsLeaveDocs(o, op);
    assert OrgStep(o, op).value.books == o.books;
  }

  lemma PostingStepsKeepVouchers(o: Org, op: OrgOp)
    requires LifecycleInv(o.docs, o.next) && VouchersInv(o.docs, o.books.vouchers) && OrgStep(o, op).Success?
    requires op.FinalizeOp? || op.VoidOp? || op.AdjustOp? || op.OpeningOp? || op.PartyOpeningOp? || op.BooksCall?
    ensures VouchersInv(OrgStep(o, op).value.docs, OrgStep(o, op).value.books.vouchers)
  {
    match op
    case FinalizeOp(id, filing) => FinalizeKeepsVouchers(o, id, filing);
    case VoidOp(id) => VoidKeepsVouchers(o, id);
    case AdjustOp(adjust, account, day) => AdjustKeepsVouchers(o, adjust, account, day);
    case OpeningOp(product, entries, order, day) => OpeningKeepsVouchers(o, OrgStep(o, op).value.books, product, entries, order, day);
    case PartyOpeningOp(party, vendorOnly, amount, asOf) =>
      PartyOpeningKeepsVouchers(o.docs, o.books, o.roles, party, vendorOnly, amount, asOf);
    case BooksCall(call) => CallKeepsVouchers(o.docs, o.books, call);
  }

  /** Every step keeps each document's vouchers its own. */
  lemma StepKeepsVouchers(o: Org, op: OrgOp)
    requires LifecycleInv(o.docs, o.next) && VouchersInv(o.docs, o.books.vouchers) && OrgStep(o, op).Success?
    ensures VouchersInv(OrgStep(o, op).value.docs, OrgStep(o, op).value.books.vouchers)
  {
    if op.FinalizeOp? || op.VoidOp? || op.AdjustOp? || op.OpeningOp? || op.PartyOpeningOp? || op.BooksCall? {
      PostingStepsKeepVouchers(o, op);
    } else if op.DeleteOp? {
      DeleteKeepsVouchers(o, op.id);
    } else if op.PayOp? {
      PaymentsKeepVouchers(o.docs, o.books.vouchers, op.id, op.amount);
    } else if op.UnpayOp? {
      PaymentsKeepVouchers(o.docs, o.books.vouchers, op.id, -op.amount);
    } else if op.CreateOp? || op.UpdateOp? || op.ConvertOp? {
      DraftsKeepVouchers(o, op);
    } else {
      QuietStepsKeepVouchers(o, op);
    }
  }

  lemma PostValueKeeps(docs: Docs, b: Books, roles: Roles, kind: VoucherType, value: int, offset: Result<nat>, day: Day, source: Source)
    requires VouchersInv(docs, b.vouchers) && source.Source? && source.kind != DocumentKind
    requires PostValue(b, roles, kind, value, offset, day, source).Success?
    ensures VouchersInv(docs, PostValue(b, roles, kind, value, offset, day, source).value.vouchers)
  {
    if value != 0 && !AlreadyPosted(b.vouchers, source) {
      PostOtherKeeps(docs, b, kind, day, ValueLines(AccountOf(roles, InventoryRole).value, offset.value, value), source, true);
    }
  }

  lemma AdjustKeepsVouchers(o: Org, a: Inventory.AdjustInput, account: Option<nat>, day: Day)
    requires VouchersInv(o.docs, o.books.vouchers) && AdjustStock(o, a, account, day).Success?
    ensures VouchersInv(o.docs, AdjustStock(o, a, account, day).value.books.vouchers)
  {
    PostValueKeeps(o.docs, o.books, o.roles, StockVoucher, Inventory.Adjust(o.stock, o.catalog, a).value.value,
                   if account.Some? then Success(account.value) else AccountOf(o.roles, StockAdjustments), day,
                   Source(AdjustmentKind, |o.stock.movements|));
  }

  lemma OpeningKeepsVouchers(o: Org, b': Books, product: nat, entries: seq<OpeningStock.OpeningEntry>, order: seq<StockTables.Key>, day: Day)
    requires VouchersInv(o.docs, o.books.vouchers) && SetOpening(o, product, entries, order, day).Success?
    requires b' == SetOpening(o, product, entries, order, day).value.books
    ensures VouchersInv(o.docs, b'.vouchers)
  {
    if b' != o.books {
      PostValueKeeps(o.docs, o.books, o.roles, OpeningVoucher,
                     OpeningStock.SetOpeningStock(o.stock, o.catalog, product, entries, order).value.value,
                     AccountOf(o.roles, OpeningEquity), day, Source(OpeningStockKind, |o.stock.movements|));
    }
  }

  lemma DeleteKeepsVouchers(o: Org, id: nat)
    requires LifecycleInv(o.docs, o.next) && VouchersInv(o.docs, o.books.vouchers) && Delete(o, id).Success?
    ensures VouchersInv(Delete(o, id).value.docs, Delete(o, id).value.books.vouchers)
  {
    LeaveEffect(o.docs, o.next, id, o.docs - {id});
    forall x | x in o.docs && x != id
      ensures x in Delete(o, id).value.docs && Delete(o, id).value.docs[x].issued == o.docs[x].issued
    {
      assert Delete(o, id).value.docs[x].(status := DraftDoc) == (o.docs - {id})[x].(status := DraftDoc);
    }
    SameBooksKeep(o, Delete(o, id).value);
  }

  // --------------------------------------------------- what a void amounts to

  /** The vouchers of one document. */
  function Family(vs: seq<Voucher>, id: nat): set<nat> {
    set i: nat | i < |vs| && vs[i].source == DocSource(id)
  }

  /** A document's vouchers are its posting and the chain behind it, and nothing else. */
  lemma {:induction false} FamilyInChain(vs: seq<Voucher>, root: nat, i: nat)
    requires ReversalsLinear(vs) && OnePosting(vs)
    requires root < |vs| && i < |vs| && FromDocument(vs[root]) && vs[root].kind != Reversal && vs[i].source == vs[root].source
    ensures exists n :: 0 <= n < |Chain(vs, root)| && Chain(vs, root)[n] == i
    decreases i
  {
    assert LinkSound(vs, i);
    if vs[i].kind != Reversal {
      assert i == root;
      assert Chain(vs, root)[0] == i;
    } else {
      var u := vs[i].reversedFrom.value;
      FamilyInChain(vs, root, u);
      var n :| 0 <= n < |Chain(vs, root)| && Chain(vs, root)[n] == u;
      ChainFollows(vs, root, n, i);
    }
  }

  lemma {:induction false} ChainFollows(vs: seq<Voucher>, root: nat, n: nat, i: nat)
    requires ReversalsLinear(vs) && root < |vs| && i < |vs| && n < |Chain(vs, root)|
    requires NextOf(vs, Chain(vs, root)[n]) == Some(i) && Chain(vs, root)[n] < i
    ensures n + 1 < |Chain(vs, root)| && Chain(vs, root)[n + 1] == i
    decreases n
  {
    var next := NextOf(vs, root);
    if n > 0 {
      assert Chain(vs, root) == [root] + Chain(vs, next.value);
      ChainFollows(vs, next.value, n - 1, i);
    } else {
      assert Chain(vs, root) == [root] + Chain(vs, i);
    }
  }

  lemma ChainInFamily(vs: seq<Voucher>, root: nat, n: nat)
    requires ReversalsLinear(vs) && root < |vs| && n < |Chain(vs, root)|
    ensures vs[Chain(vs, root)[n]].source == vs[root].source
    decreases n
  {
    ChainShape(vs, root);
    if n > 0 {
      ChainInFamily(vs, root, n - 1);
      assert ReversedBy(vs, Chain(vs, root), n - 1);
      assert LinkSound(vs, Chain(vs, root)[n]);
    }
  }

  lemma FamilyIsChain(vs: seq<Voucher>, root: nat, id: nat)
    requires ReversalsLinear(vs) && OnePosting(vs)
    requires root < |vs| && vs[root].source == DocSource(id) && vs[root].kind != Reversal
    ensures Family(vs, id) == ToSet(Chain(vs, root))
  {
    forall i ensures i in Family(vs, id) <==> i in ToSet(Chain(vs, root)) {
      if i in Family(vs, id) {
        FamilyInChain(vs, root, i);
      }
      if i in Chain(vs, root) {
        var n :| 0 <= n < |Chain(vs, root)| && Chain(vs, root)[n] == i;
        ChainInFamily(vs, root, n);
      }
    }
  }

  /** A family with no posting is empty: reversals descend from one. */
  lemma {:induction false} NoPostingNoFamily(vs: seq<Voucher>, id: nat, i: nat)
    requires ReversalsLinear(vs) && i < |vs|
    requires forall j :: 0 <= j < |vs| ==> !(vs[j].source == DocSource(id) && vs[j].kind != Reversal)
    ensures vs[i].source != DocSource(id)
    decreases i
  {
    assert LinkSound(vs, i);
    if vs[i].reversedFrom.Some? {
      NoPostingNoFamily(vs, id, vs[i].reversedFrom.value);
    }
  }

  /** A document's own posting, if it has one. */
  ghost predicate IsPosting(vs: seq<Voucher>, id: nat, root: nat) {
    root < |vs| && vs[root].source == DocSource(id) && vs[root].kind != Reversal
  }

  /** What all of a document's vouchers come to, on any account and party as of any
      date: nothing when its posting was reversed an odd number of times over, and
      the posting itself otherwise. */
  lemma FamilyNets(docs: Docs, b: Books, id: nat, root: nat, account: nat, party: Option<nat>, day: Day)
    requires BooksInv(b) && VouchersInv(docs, b.vouchers) && IsPosting(b.vouchers, id, root)
    ensures Net(b.entries, OfVouchers(Family(b.vouchers, id), account, party, day)) ==
              if |Chain(b.vouchers, root)| % 2 == 0 || day < b.vouchers[root].day then 0
              else LineNet(b.vouchers[root].lines, account, party)
  {
    var vs := b.vouchers;
    FamilyIsChain(vs, root, id);
    assert VoucherBelongs(docs, vs[root]);
    forall n | 0 <= n < |Chain(vs, root)| ensures vs[Chain(vs, root)[n]].day == vs[root].day {
      ChainInFamily(vs, root, n);
      assert VoucherBelongs(docs, vs[Chain(vs, root)[n]]);
    }
    ChainNetsInLedger(b, root, account, party, day);
  }

  lemma NoPostingNothing(b: Books, id: nat, account: nat, party: Option<nat>, day: Day)
    requires BooksInv(b) && forall root: nat :: !IsPosting(b.vouchers, id, root)
    ensures Net(b.entries, OfVouchers(Family(b.vouchers, id), account, party, day)) == 0
  {
    var vs := b.vouchers;
    forall i: nat | i < |vs| ensures vs[i].source != DocSource(id) {
      forall j: nat | j < |vs| ensures !(vs[j].source == DocSource(id) && vs[j].kind != Reversal) {
        assert !IsPosting(vs, id, j);
      }
      NoPostingNoFamily(vs, id, i);
    }
    assert Family(vs, id) == {};
    SumsNone(b.entries, OfVouchers({}, account, party, day));
  }

  /** What keeps a void document's posting from standing on an account. */
  ghost predicate Undone(b: Books, root: nat, account: nat, party: Option<nat>, day: Day)
    requires root < |b.vouchers|
  {
    || |Chain(b.vouchers, root)| % 2 == 0
    || day < b.vouchers[root].day
    || LineNet(b.vouchers[root].lines, account, party) == 0
  }

  /** A document's vouchers net to zero on an account and party as of a date exactly
      when its chain of reversals is even, or its posting is later, or came to nothing
      there anyway. */
  lemma NetsToZeroIff(docs: Docs, b: Books, id: nat, account: nat, party: Option<nat>, day: Day)
    requires BooksInv(b) && VouchersInv(docs, b.vouchers)
    ensures Net(b.entries, OfVouchers(Family(b.vouchers, id), account, party, day)) == 0 <==>
              forall root: nat :: IsPosting(b.vouchers, id, root) ==> Undone(b, root, account, party, day)
  {
    if root: nat :| IsPosting(b.vouchers, id, root) {
      FamilyNets(docs, b, id, root, account, party, day);
      assert forall r: nat :: IsPosting(b.vouchers, id, r) ==> r == root;
    } else {
      NoPostingNothing(b, id, account, party, day);
    }
  }

  /** No reversal of a document's vouchers was itself reversed. */
  ghost predicate ReversalsStand(vs: seq<Voucher>, id: nat) {
    forall i :: 0 <= i < |vs| && vs[i].source == DocSource(id) && vs[i].kind == Reversal ==> vs[i].status.Posted?
  }

  /** Then a void document's vouchers net to zero on every account and party as of every
      date. */
  lemma VoidNetsToZero(docs: Docs, b: Books, id: nat, account: nat, party: Option<nat>, day: Day)
    requires BooksInv(b) && VouchersInv(docs, b.vouchers) && id in docs && docs[id].status.VoidDoc? && ReversalsStand(b.vouchers, id)
    ensures Net(b.entries, OfVouchers(Family(b.vouchers, id), account, party, day)) == 0
  {
    NetsToZeroIff(docs, b, id, account, party, day);
    forall root: nat | IsPosting(b.vouchers, id, root) ensures Undone(b, root, account, party, day) {
      assert VoucherBelongs(docs, b.vouchers[root]);
      UnreversedReversalEndsChain(b.vouchers, id, root);
    }
  }

  /** A reversed posting whose reversal still stands makes a chain of two. */
  lemma UnreversedReversalEndsChain(vs: seq<Voucher>, id: nat, root: nat)
    requires ReversalsLinear(vs) && IsPosting(vs, id, root) && vs[root].status.Reversed? && ReversalsStand(vs, id)
    ensures |Chain(vs, root)| == 2
  {
    var ids := Chain(vs, root);
    ChainShape(vs, root);
    OnlyLastStands(vs, root, 0);
    assert ids[0] == root;
    ChainInFamily(vs, root, 1);
    assert ReversedBy(vs, ids, 0);
    assert LinkSound(vs, ids[1]);
    OnlyLastStands(vs, root, 1);
  }

  /** Once someone has reversed the reversal of a document's posting, voiding the
      document finds nothing standing to reverse and leaves the books as they are. */
  lemma VoidAfterReversedReversal(docs: Docs, b: Books, id: nat, root: nat)
    requires BooksInv(b) && VouchersInv(docs, b.vouchers) && IsPosting(b.vouchers, id, root)
    ensures ReverseSource(b, DocSource(id), b.vouchers[root].day) == Success(b) <==> |Chain(b.vouchers, root)| > 1
  {
    var vs := b.vouchers;
    ChainShape(vs, root);
    assert VoucherBelongs(docs, vs[root]);
    var standing := StandingVoucher(vs, DocSource(id));
    assert standing.Some? ==> standing.value == root;
    assert Chain(vs, root)[0] == root;
    assert LinkSound(vs, root);
    if standing.Some? && ReverseSource(b, DocSource(id), vs[root].day).Success? {
      var v := ReverseEffect(b, root, Some(vs[root].day));
    }
  }
}
