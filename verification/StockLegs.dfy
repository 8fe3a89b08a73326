/** What documents and adjustments are worth in the books: in every run, each one's leg on
    the inventory account is the value of the very movements it made. */
module StockLegs {
  import opened Basics
  import opened Rounding
  import opened StockTables
  import opened Inventory
  import opened OpeningStock
  import opened DocumentTables
  import opened Pricing
  import opened DocumentStock
  import opened LedgerTables
  import opened Ledger
  import opened VoucherLegs
  import opened Poster
  import opened PartyOpenings
  import opened PostingPaths
  import opened Documents
  import opened Lifecycle
  import opened DocumentMoney
  import opened DocumentVouchers
  import opened GoodsMoved
  import opened GoodsInvariant
  import opened GoodsOnce
  import opened OrgInvariant
  import opened OpeningLegs

  // --------------------------------------------------------- the leg of a document

  /** Goods are carried on one account, and nothing else is. */
  predicate RolesApart(roles: Roles, inventory: nat) {
    && InventoryRole in roles && roles[InventoryRole] == inventory
    && forall r :: r in roles && r != InventoryRole ==> roles[r] != inventory
  }

  /** What a document puts on the inventory account: what its goods are worth to the
      nearest ten-thousandth, or, on a bill that moved them itself, its net. */
  function DocLeg(d: Document, value: int): int {
    if d.kind.Bill? && value != 0 then Cents(d.total - d.taxTotal) else StockMoney(value)
  }

  lemma MoneyOpposite(value: int)
    ensures StockMoney(-value) == -StockMoney(value)
  {
  }

  lemma CostLeg(roles: Roles, value: int, posted: bool, inventory: nat)
    requires RolesApart(roles, inventory) && (value != 0 ==> posted)
    ensures CostNet(roles, value, posted, inventory, None) == StockMoney(value)
  {
    MoneyOpposite(value);
  }

  /** The lines of a document that moved its goods, on the inventory account. */
  lemma LinesLeg(roles: Roles, d: Document, value: int, sourceMoved: bool, inventory: nat)
    requires DocumentVoucherLines(roles, d, value, sourceMoved).Success? && RolesApart(roles, inventory) && d.paidThrough != Some(inventory)
    requires (value != 0 ==> d.stockPosted) && (IsOrder(d.kind) ==> value == 0)
    ensures LineNet(DocumentVoucherLines(roles, d, value, sourceMoved).value, inventory, None) == DocLeg(d, value)
  {
    CostLeg(roles, value, d.stockPosted, inventory);
    match d.kind
    case Invoice => InvoiceNet(roles, d, value, inventory, None);
    case SalesReceipt => SalesReceiptNet(roles, d, value, inventory, None);
    case CreditNote => CreditNoteNet(roles, d, value, inventory, None);
    case DeliveryChallan => CostLegsNet(roles, value, d.stockPosted, inventory, None);
    case GoodsReceipt => ReceiptNet(roles, d, value, inventory, None);
    case Bill => BillNet(roles, d, value, sourceMoved, inventory, None);
    case _ =>
  }

  // --------------------------------------------------------- documents in the state

  predicate Finished(docs: Docs, id: nat) {
    id in docs && !docs[id].status.DraftDoc?
  }

  /** The value of what a document moved, its undoing aside. */
  function PostedValue(ms: seq<Movement>, d: Document, id: nat): int {
    StockValue(if d.status.VoidDoc? then FirstPosted(MovementsOf(ms, id)) else MovementsOf(ms, id))
  }

  function LegAt(ms: seq<Movement>, docs: Docs, id: nat): int {
    if Finished(docs, id) then DocLeg(docs[id], PostedValue(ms, docs[id], id)) else 0
  }

  /** What a document's vouchers, their reversals aside, have on the inventory account is
      its leg. */
  ghost predicate Tied(o: Org, inventory: nat, id: nat) {
    Legs(o.books.vouchers, Only(DocSource(id)), inventory) == LegAt(o.stock.movements, o.docs, id)
  }

  lemma DocumentsPosted(docs: Docs, vs: seq<Voucher>, id: nat)
    requires VouchersInv(docs, vs)
    ensures AllPosted(vs, Only(DocSource(id)))
  {
    forall i | 0 <= i < |vs| && FromAny(vs[i], Only(DocSource(id))) ensures IsPosted(vs[i]) {
      assert VoucherBelongs(docs, vs[i]);
    }
  }

  lemma {:induction false} NoneNoLegs(vs: seq<Voucher>, which: Which, account: nat)
    requires forall i :: 0 <= i < |vs| ==> !Counts(vs[i], which)
    ensures Legs(vs, which, account) == 0
  {
    if vs != [] {
      NoneNoLegs(vs[..|vs| - 1], which, account);
    }
  }

  /** What a document's figures and its being void stay, through a step that is not its
      own. */
  ghost predicate FiguresKept(docs: Docs, docs': Docs, id: nat) {
    && (Finished(docs', id) <==> Finished(docs, id))
    && (Finished(docs, id) ==>
          && Content(docs'[id]) == Content(docs[id])
          && (docs'[id].status.VoidDoc? <==> docs[id].status.VoidDoc?))
  }

  /** What was written when a document was drafted, and is settled or moved by it later. */
  function Content(d: Document): Document {
    d.(status := DraftDoc, paid := 0, credited := 0, paymentStatus := Unpaid, settled := 0, stockPosted := false)
  }

  lemma FinalizeFigures(o: Org, x: nat, filing: Filing, id: nat)
    requires Finalize(o, x, filing).Success? && id != x
    ensures FiguresKept(o.docs, Finalize(o, x, filing).value.docs, id)
  {
    var d, moves := FinalizeEffect(o, x, filing);
    SourcesAfterEffect(o.docs, d);
    var docs' := SourcesAfter(o.docs, d).value;
    if id in o.docs {
      assert docs'[id].(status := DraftDoc, credited := 0, paymentStatus := Unpaid) == o.docs[id].(status := DraftDoc, credited := 0, paymentStatus := Unpaid);
    }
  }

  lemma ReopenFigures(docs: Docs, next: nat, x: nat, left: Docs, id: nat)
    requires LifecycleInv(docs, next) && x in docs && Live(docs[x]) && Leaves(docs, x, left) && id != x
    requires FiguresKept(docs, left, id)
    ensures FiguresKept(docs, ReopenOrder(left, docs[x].source, x), id)
  {
    LeaveEffect(docs, next, x, left);
    var docs' := ReopenOrder(left, docs[x].source, x);
    if id in left {
      assert docs'[id].(status := DraftDoc) == left[id].(status := DraftDoc);
    }
  }

  lemma VoidFigures(o: Org, x: nat, id: nat)
    requires LifecycleInv(o.docs, o.next) && VoidDocument(o, x).Success? && id != x
    ensures FiguresKept(o.docs, VoidDocument(o, x).value.docs, id)
  {
    VoidEffect(o, x);
    assert Linked(o.docs, x);
    ReopenFigures(o.docs, o.next, x, WithoutCredit(o.docs, o.docs[x])[x := VoidedDocument(o.docs[x])], id);
  }

  lemma DeleteFigures(o: Org, x: nat, id: nat)
    requires LifecycleInv(o.docs, o.next) && Delete(o, x).Success?
    ensures FiguresKept(o.docs, Delete(o, x).value.docs, id)
  {
    if id == x {
      LeaveEffect(o.docs, o.next, x, o.docs - {x});
    } else {
      ReopenFigures(o.docs, o.next, x, o.docs - {x}, id);
    }
  }

  lemma DraftFigures(docs: Docs, x: nat, d: Document, id: nat)
    requires d.status.DraftDoc? && !Finished(docs, x)
    ensures FiguresKept(docs, docs[x := d], id)
  {
  }

  lemma EditFigures(o: Org, op: OrgOp, id: nat)
    requires LifecycleInv(o.docs, o.next) && OrgStep(o, op).Success? && (op.CreateOp? || op.UpdateOp? || op.ConvertOp?)
    ensures FiguresKept(o.docs, OrgStep(o, op).value.docs, id) && OrgStep(o, op).value.stock == o.stock
  {
    if op.CreateOp? {
      DraftFigures(o.docs, o.next, Create(o, op.kind, op.input).value.docs[o.next], id);
    } else if op.UpdateOp? {
      DraftFigures(o.docs, op.id, Update(o, op.id, op.update).value.docs[op.id], id);
    } else {
      DraftFigures(o.docs, o.next, Convert(o, op.id, op.target, op.today).value.docs[o.next], id);
    }
  }

  lemma PaymentFigures(o: Org, op: OrgOp, id: nat)
    requires OrgStep(o, op).Success? && (op.PayOp? || op.UnpayOp?)
    ensures FiguresKept(o.docs, OrgStep(o, op).value.docs, id)
    ensures OrgStep(o, op).value.stock == o.stock && OrgStep(o, op).value.books == o.books
  {
    match op
    case PayOp(x, amount) => assert Pay(o, x, amount).value.docs == o.docs[x := ApplySettlement(o.docs[x], amount)];
    case UnpayOp(x, amount) => assert Unpay(o, x, amount).value.docs == o.docs[x := ApplySettlement(o.docs[x], -amount)];
  }

  // ------------------------------------------------------------------ own steps

  /** A document's first voucher: its leg is what the document is worth on the account. */
  lemma PostedLegIs(b: Books, roles: Roles, id: nat, d: Document, value: int, sourceMoved: bool, inventory: nat)
    requires PostDocument(b, roles, id, d, value, sourceMoved).Success?
    requires forall i :: 0 <= i < |b.vouchers| ==> b.vouchers[i].source != DocSource(id)
    requires RolesApart(roles, inventory) && d.paidThrough != Some(inventory)
    requires (value != 0 ==> d.stockPosted) && (IsOrder(d.kind) ==> value == 0)
    ensures Legs(PostDocument(b, roles, id, d, value, sourceMoved).value.vouchers, Only(DocSource(id)), inventory) == DocLeg(d, value)
  {
    var which := Only(DocSource(id));
    NoneNoLegs(b.vouchers, which, inventory);
    if !IsOrder(d.kind) {
      assert !AlreadyPosted(b.vouchers, DocSource(id));
      var lines := DocumentVoucherLines(roles, d, value, sourceMoved).value;
      LinesLeg(roles, d, value, sourceMoved, inventory);
      if lines != [] {
        PostedLeg(b, VoucherKindOf(d.kind), d.issued, lines, DocSource(id), which, inventory);
      }
    }
  }

  lemma FinalizeTies(o: Org, id: nat, filing: Filing, inventory: nat)
    requires OrgInv(o) && Finalize(o, id, filing).Success?
    requires RolesApart(o.roles, inventory) && (id in o.docs ==> o.docs[id].paidThrough != Some(inventory))
    ensures Tied(Finalize(o, id, filing).value, inventory, id)
  {
    var d, moves := FinalizeEffect(o, id, filing);
    var o' := Finalize(o, id, filing).value;
    FinalizeStock(o, id, filing);
    assert GoodsSound(o.catalog, o.stock.movements, o.docs, id);
    DraftHasNoVoucher(o.docs, o.books.vouchers, id);
    var value := StockValue(MovementsOf(o'.stock.movements, id));
    PostedLegIs(o.books, o.roles, id, d.(stockPosted := moves), value, SourceMoved(o.docs, d), inventory);
    FinalLeg(o.docs, d, moves, filing, value);
  }

  lemma FinalLeg(docs: Docs, d: Document, moves: bool, filing: Filing, value: int)
    ensures var f := FinalDocument(docs, d, moves, filing);
            f.status.SentDoc? && DocLeg(f, value) == DocLeg(d.(stockPosted := moves), value)
  {
  }

  /** Voiding leaves what was first posted the first half. */
  lemma VoidKeepsPosted(o: Org, id: nat)
    requires LifecycleInv(o.docs, o.next) && StockInv(o.stock, o.catalog) && GoodsInv(o.catalog, o.stock.movements, o.docs)
    requires VoidDocument(o, id).Success?
    ensures FirstPosted(MovementsOf(VoidDocument(o, id).value.stock.movements, id)) == MovementsOf(o.stock.movements, id)
  {
    var c, d, mine := o.catalog, o.docs[id], MovementsOf(o.stock.movements, id);
    VoidEffect(o, id);
    VoidStock(o, id);
    assert GoodsSound(c, o.stock.movements, o.docs, id);
    if d.stockPosted {
      ReversingUndoes(c, id, d.kind, Postings(c, d), mine);
    }
  }

  lemma VoidTies(o: Org, id: nat, inventory: nat)
    requires OrgInv(o) && Tied(o, inventory, id) && VoidDocument(o, id).Success?
    requires Legs(VoidDocument(o, id).value.books.vouchers, Only(DocSource(id)), inventory) == Legs(o.books.vouchers, Only(DocSource(id)), inventory)
    ensures Tied(VoidDocument(o, id).value, inventory, id)
  {
    VoidKeepsPosted(o, id);
    VoidKeepsOthers(o, id);
    VoidedLeg(o.docs[id], PostedValue(o.stock.movements, o.docs[id], id));
  }

  lemma VoidedLeg(d: Document, value: int)
    ensures DocLeg(VoidedDocument(d), value) == DocLeg(d, value) && VoidedDocument(d).status.VoidDoc?
  {
  }

  // -------------------------------------------------------------- others' steps

  /** Steps that post for none of the sources. */
  ghost predicate Foreign(o: Org, op: OrgOp, which: Which) {
    && (op.FinalizeOp? ==> !Chosen(DocSource(op.id), which))
    && (op.AdjustOp? ==> !Chosen(Source(AdjustmentKind, |o.stock.movements|), which))
    && (op.OpeningOp? ==> !Chosen(Source(OpeningStockKind, |o.stock.movements|), which))
    && (op.PartyOpeningOp? ==> !Chosen(OpeningSource(op.party), which))
    && (op.BooksCall? ==> Spares(op.op, which))
  }

  lemma CallSpares(b: Books, call: Option<BooksOp>, b': Books, which: Which, account: nat)
    requires AllPosted(b.vouchers, which) && Calls(b, call, b') && (call.Some? ==> Spares(call.value, which))
    ensures SparedLegs(b.vouchers, b'.vouchers, which, account)
  {
    if call.Some? {
      CallSparesLegs(b, call.value, which, account);
    }
  }

  lemma SparedTwice(us: seq<Voucher>, vs: seq<Voucher>, ws: seq<Voucher>, which: Which, account: nat)
    requires SparedLegs(us, vs, which, account) && SparedLegs(vs, ws, which, account)
    ensures SparedLegs(us, ws, which, account)
  {
  }

  lemma PartyOpeningSpares(o: Org, op: OrgOp, which: Which, account: nat)
    requires AllPosted(o.books.vouchers, which) && op.PartyOpeningOp? && Foreign(o, op, which) && OrgStep(o, op).Success?
    ensures SparedLegs(o.books.vouchers, OrgStep(o, op).value.books.vouchers, which, account)
  {
    var clearing, cleared, call := SettingCalls(o.books, o.roles, op.party, op.vendorOnly, op.amount, op.asOf);
    CallSpares(o.books, clearing, cleared, which, account);
    CallSpares(cleared, call, OrgStep(o, op).value.books, which, account);
    SparedTwice(o.books.vouchers, cleared.vouchers, OrgStep(o, op).value.books.vouchers, which, account);
  }

  lemma OwnCallSpares(o: Org, op: OrgOp, call: BooksOp, which: Which)
    requires OwnCall(o, op, call) && Foreign(o, op, which)
    ensures Spares(call, which)
  {
  }

  lemma StepSpares(o: Org, op: OrgOp, which: Which, account: nat)
    requires AllPosted(o.books.vouchers, which) && Foreign(o, op, which) && OrgStep(o, op).Success?
    ensures SparedLegs(o.books.vouchers, OrgStep(o, op).value.books.vouchers, which, account)
  {
    if op.PartyOpeningOp? {
      PartyOpeningSpares(o, op, which, account);
    } else if op.BooksCall? {
      CallSpares(o.books, Some(op.op), OrgStep(o, op).value.books, which, account);
    } else {
      var call := StepCallsOwn(o, op);
      if call.Some? {
        OwnCallSpares(o, op, call.value, which);
      }
      CallSpares(o.books, call, OrgStep(o, op).value.books, which, account);
    }
  }

  /** Calls of the other services post for no document and no adjustment. */
  lemma ServicesAreForeign(o: Org, op: OrgOp, which: Which)
    requires op.BooksCall? && OrgStep(o, op).Success?
    requires which.Only? && which.source.Source? && PostedElsewhere(which.source)
    ensures Spares(op.op, which)
  {
    assert ServiceCall(o.books, op.op);
  }

  lemma OpeningMovesNone(o: Org, op: OrgOp, id: nat)
    requires op.OpeningOp? && OrgStep(o, op).Success?
    ensures MovementsOf(OrgStep(o, op).value.stock.movements, id) == MovementsOf(o.stock.movements, id)
  {
    var s, c := o.stock, o.catalog;
    var requested := Collect(s, c, op.product, op.entries, map[]).value;
    SetKeysMovements(Progress(s, 0), c, op.order, requested, OpeningState(s.movements, op.product), OpeningRef(|s.movements|), id);
  }

  /** Stock steps are nobody's document. */
  lemma StockStepsMoveNone(o: Org, op: OrgOp, id: nat)
    requires StockInv(o.stock, o.catalog) && OrgStep(o, op).Success? && (op.AdjustOp? || op.TransferOp? || op.OpeningOp?)
    ensures MovementsOf(OrgStep(o, op).value.stock.movements, id) == MovementsOf(o.stock.movements, id)
  {
    if op.AdjustOp? {
      AdjustMovements(o.stock, o.catalog, op.adjust, id);
    } else if op.TransferOp? {
      TransferredMovements(o.stock, o.catalog, op.transfer, id);
    } else {
      OpeningMovesNone(o, op, id);
    }
  }

  /** Through every step but its own finalizing and voiding, a document keeps its figures
      and its movements. */
  ghost predicate Unmoved(o: Org, o': Org, id: nat) {
    FiguresKept(o.docs, o'.docs, id) && MovementsOf(o'.stock.movements, id) == MovementsOf(o.stock.movements, id)
  }

  lemma OthersFinalize(o: Org, x: nat, filing: Filing, id: nat)
    requires OrgInv(o) && Finalize(o, x, filing).Success? && id != x
    ensures Unmoved(o, Finalize(o, x, filing).value, id)
  {
    FinalizeFigures(o, x, filing, id);
    FinalizeStock(o, x, filing);
    assert MovementsOf(o.stock.movements, id) + [] == MovementsOf(o.stock.movements, id);
  }

  lemma OthersVoid(o: Org, x: nat, id: nat)
    requires OrgInv(o) && VoidDocument(o, x).Success? && id != x
    ensures Unmoved(o, VoidDocument(o, x).value, id)
  {
    VoidFigures(o, x, id);
    VoidStock(o, x);
  }

  lemma QuietStepsKeepStock(o: Org, op: OrgOp)
    requires OrgStep(o, op).Success? && LeavesDocs(op) && !op.AdjustOp? && !op.TransferOp? && !op.OpeningOp?
    ensures OrgStep(o, op).value.stock == o.stock
  {
  }

  lemma DeleteUnmoved(o: Org, op: OrgOp, id: nat)
    requires OrgInv(o) && OrgStep(o, op).Success? && op.DeleteOp?
    ensures Unmoved(o, OrgStep(o, op).value, id)
  {
    DeleteFigures(o, op.id, id);
  }

  lemma StockUnmoved(o: Org, op: OrgOp, id: nat)
    requires OrgInv(o) && OrgStep(o, op).Success? && LeavesDocs(op)
    ensures Unmoved(o, OrgStep(o, op).value, id)
  {
    OtherStepsLeaveDocs(o, op);
    if op.AdjustOp? || op.TransferOp? || op.OpeningOp? {
      StockStepsMoveNone(o, op, id);
    } else {
      QuietStepsKeepStock(o, op);
    }
  }

  lemma StepUnmoved(o: Org, op: OrgOp, id: nat)
    requires OrgInv(o) && OrgStep(o, op).Success? && !((op.FinalizeOp? || op.VoidOp?) && op.id == id)
    ensures Unmoved(o, OrgStep(o, op).value, id)
  {
    if LeavesDocs(op) {
      StockUnmoved(o, op, id);
    } else if op.FinalizeOp? {
      OthersFinalize(o, op.id, op.filing, id);
    } else if op.VoidOp? {
      OthersVoid(o, op.id, id);
    } else if op.DeleteOp? {
      DeleteUnmoved(o, op, id);
    } else if op.PayOp? || op.UnpayOp? {
      PaymentFigures(o, op, id);
    } else {
      EditFigures(o, op, id);
    }
  }

  // ------------------------------------------------------------------- every step

  /** When a run posts the value of goods, they are carried on the inventory account, and
      nothing else the posting touches is. */
  ghost predicate PostsApart(o: Org, op: OrgOp, inventory: nat) {
    && (op.FinalizeOp? ==> RolesApart(o.roles, inventory) && (op.id in o.docs ==> o.docs[op.id].paidThrough != Some(inventory)))
    && (op.AdjustOp? ==> RolesApart(o.roles, inventory) && op.account != Some(inventory))
  }

  lemma StepTies(o: Org, op: OrgOp, inventory: nat, id: nat)
    requires OrgInv(o) && Tied(o, inventory, id) && OrgStep(o, op).Success? && PostsApart(o, op, inventory)
    ensures Tied(OrgStep(o, op).value, inventory, id)
  {
    if op.FinalizeOp? && op.id == id {
      FinalizeTies(o, id, op.filing, inventory);
    } else {
      OtherStepTies(o, op, inventory, id);
    }
  }

  lemma OtherStepTies(o: Org, op: OrgOp, inventory: nat, id: nat)
    requires OrgInv(o) && Tied(o, inventory, id) && OrgStep(o, op).Success? && !(op.FinalizeOp? && op.id == id)
    ensures Tied(OrgStep(o, op).value, inventory, id)
  {
    var which := Only(DocSource(id));
    DocumentsPosted(o.docs, o.books.vouchers, id);
    if op.BooksCall? {
      ServicesAreForeign(o, op, which);
    }
    StepSpares(o, op, which, inventory);
    if op.VoidOp? && op.id == id {
      VoidTies(o, id, inventory);
    } else {
      StepUnmoved(o, op, id);
      UnmovedTies(o, OrgStep(o, op).value, inventory, id);
    }
  }

  lemma UnmovedTies(o: Org, o': Org, inventory: nat, id: nat)
    requires Tied(o, inventory, id) && Unmoved(o, o', id)
    requires Legs(o'.books.vouchers, Only(DocSource(id)), inventory) == Legs(o.books.vouchers, Only(DocSource(id)), inventory)
    ensures Tied(o', inventory, id)
  {
  }

  // ----------------------------------------------------------------- adjustments

  const Adjustments: Which := AllOf(AdjustmentKind)

  /** Every voucher of an adjustment names the row it is for. */
  ghost predicate NamesAdjustments(o: Org) {
    AllPosted(o.books.vouchers, Adjustments) && NamesBelow(o.books.vouchers, Adjustments, |o.stock.movements|)
  }

  function AdjustSource(n: nat): Source {
    Source(AdjustmentKind, n)
  }

  /** The leg of an adjustment's voucher is the value of its row. */
  ghost predicate AdjustTied(o: Org, inventory: nat, n: nat) {
    n < |o.stock.movements| && Adjusts(o.stock.movements[n]) ==>
      Legs(o.books.vouchers, Only(AdjustSource(n)), inventory) == StockMoney(MovementValue(o.stock.movements[n]))
  }

  lemma OneOfThem(vs: seq<Voucher>, n: nat)
    requires AllPosted(vs, Adjustments)
    ensures AllPosted(vs, Only(AdjustSource(n)))
  {
    forall i | 0 <= i < |vs| && FromAny(vs[i], Only(AdjustSource(n))) ensures IsPosted(vs[i]) {
      assert FromAny(vs[i], Adjustments);
    }
  }

  lemma NoneYet(vs: seq<Voucher>, n: nat, account: nat)
    requires NamesBelow(vs, Adjustments, n)
    ensures !AlreadyPosted(vs, AdjustSource(n)) && Legs(vs, Only(AdjustSource(n)), account) == 0
  {
    forall i | 0 <= i < |vs| ensures vs[i].source != AdjustSource(n) {
      assert FromAny(vs[i], Adjustments) ==> vs[i].source.id < n;
    }
    NoneNoLegs(vs, Only(AdjustSource(n)), account);
  }

  /** The voucher of a new adjustment. */
  lemma AdjustmentPosted(b: Books, roles: Roles, value: int, account: Option<nat>, day: Day, n: nat, m: nat)
    requires AllPosted(b.vouchers, Adjustments) && NamesBelow(b.vouchers, Adjustments, n) && n < m
    requires PostAdjustment(b, roles, value, account, day, n).Success?
    ensures var vs := PostAdjustment(b, roles, value, account, day, n).value.vouchers; AllPosted(vs, Adjustments) && NamesBelow(vs, Adjustments, m)
  {
    NoneYet(b.vouchers, n, 0);
    if value != 0 {
      var offset := if account.Some? then account.value else roles[StockAdjustments];
      PostVoucherEffect(b, StockVoucher, day, ValueLines(roles[InventoryRole], offset, value), AdjustSource(n), true);
    }
  }

  lemma AdjustmentLeg(b: Books, roles: Roles, value: int, account: Option<nat>, day: Day, n: nat, inventory: nat)
    requires AllPosted(b.vouchers, Adjustments) && NamesBelow(b.vouchers, Adjustments, n)
    requires PostAdjustment(b, roles, value, account, day, n).Success? && RolesApart(roles, inventory) && account != Some(inventory)
    ensures Legs(PostAdjustment(b, roles, value, account, day, n).value.vouchers, Only(AdjustSource(n)), inventory) == StockMoney(value)
  {
    NoneYet(b.vouchers, n, inventory);
    OneOfThem(b.vouchers, n);
    if value != 0 {
      var offset := if account.Some? then account.value else roles[StockAdjustments];
      PostedLeg(b, StockVoucher, day, ValueLines(inventory, offset, value), AdjustSource(n), Only(AdjustSource(n)), inventory);
      ValueLeg(inventory, offset, value);
    }
  }

  lemma OpeningAppends(o: Org, op: OrgOp)
    requires StockInv(o.stock, o.catalog) && op.OpeningOp? && OrgStep(o, op).Success?
    ensures OnlyOpenings(o.stock.movements, OrgStep(o, op).value.stock.movements, op.product)
  {
    var s, c := o.stock, o.catalog;
    var requested := OpeningRunFits(s, c, op.product, op.entries, op.order);
    SetKeysAppend(Progress(s, 0), c, op.product, op.order, requested, OpeningState(s.movements, op.product), OpeningRef(|s.movements|));
  }

  /** No other step adds a row of an adjustment. */
  predicate AddsNoAdjustment(was: seq<Movement>, now: seq<Movement>) {
    was <= now && forall i :: |was| <= i < |now| ==> !Adjusts(now[i])
  }

  lemma OthersAdjustNothing(o: Org, op: OrgOp)
    requires OrgInv(o) && OrgStep(o, op).Success? && !op.AdjustOp?
    ensures AddsNoAdjustment(o.stock.movements, OrgStep(o, op).value.stock.movements)
  {
    if op.OpeningOp? {
      OpeningAppends(o, op);
    } else if op.PartyOpeningOp? {
      QuietStepsKeepStock(o, op);
    } else {
      var more, call := StepAside(o, op);
    }
  }

  lemma AdjustStepTies(o: Org, op: OrgOp, inventory: nat, n: nat)
    requires OrgInv(o) && NamesAdjustments(o) && op.AdjustOp? && OrgStep(o, op).Success?
    ensures NamesAdjustments(OrgStep(o, op).value)
    ensures PostsApart(o, op, inventory) && AdjustTied(o, inventory, n) ==> AdjustTied(OrgStep(o, op).value, inventory, n)
  {
    var m := AdjustAppends(o.stock, o.catalog, op.adjust);
    var o', at := OrgStep(o, op).value, |o.stock.movements|;
    var value := Adjust(o.stock, o.catalog, op.adjust).value.value;
    AdjustmentPosted(o.books, o.roles, value, op.account, op.day, at, at + 1);
    if PostsApart(o, op, inventory) {
      if n == at {
        AdjustmentLeg(o.books, o.roles, value, op.account, op.day, at, inventory);
      } else {
        OneOfThem(o.books.vouchers, n);
        StepSpares(o, op, Only(AdjustSource(n)), inventory);
      }
    }
  }

  lemma OtherStepAdjusts(o: Org, op: OrgOp, inventory: nat, n: nat)
    requires OrgInv(o) && NamesAdjustments(o) && !op.AdjustOp? && OrgStep(o, op).Success?
    ensures NamesAdjustments(OrgStep(o, op).value)
    ensures AdjustTied(o, inventory, n) ==> AdjustTied(OrgStep(o, op).value, inventory, n)
  {
    OthersAdjustNothing(o, op);
    OneOfThem(o.books.vouchers, n);
    if op.BooksCall? {
      AdjustmentsAreForeign(o, op, n);
    }
    StepSpares(o, op, Adjustments, inventory);
    StepSpares(o, op, Only(AdjustSource(n)), inventory);
  }

  lemma AdjustmentsAreForeign(o: Org, op: OrgOp, n: nat)
    requires op.BooksCall? && OrgStep(o, op).Success?
    ensures Spares(op.op, Adjustments) && Spares(op.op, Only(AdjustSource(n)))
  {
    assert ServiceCall(o.books, op.op);
  }

  lemma StepAdjustTies(o: Org, op: OrgOp, inventory: nat, n: nat)
    requires OrgInv(o) && NamesAdjustments(o) && AdjustTied(o, inventory, n) && OrgStep(o, op).Success? && PostsApart(o, op, inventory)
    ensures NamesAdjustments(OrgStep(o, op).value) && AdjustTied(OrgStep(o, op).value, inventory, n)
  {
    if op.AdjustOp? {
      AdjustStepTies(o, op, inventory, n);
    } else {
      OtherStepAdjusts(o, op, inventory, n);
    }
  }

  // -------------------------------------------------------------------- every run

  ghost predicate ApartAt(o: Org, ops: seq<OrgOp>, n: nat, inventory: nat)
    requires n < |ops|
  {
    PostsApart(OrgRun(o, ops[..n]), ops[n], inventory)
  }

  ghost predicate ApartThroughout(o: Org, ops: seq<OrgOp>, inventory: nat) {
    forall n {:trigger ApartAt(o, ops, n, inventory)} :: 0 <= n < |ops| ==> ApartAt(o, ops, n, inventory)
  }

  lemma ApartFromThere(o: Org, ops: seq<OrgOp>, inventory: nat, next: Org)
    requires ops != [] && ApartThroughout(o, ops, inventory)
    requires next == var r := OrgStep(o, ops[0]); if r.Success? then r.value else o
    ensures PostsApart(o, ops[0], inventory) && ApartThroughout(next, ops[1..], inventory)
  {
    assert ApartAt(o, ops, 0, inventory);
    assert OrgRun(o, ops[..0]) == o;
    forall n | 0 <= n < |ops[1..]| ensures ApartAt(next, ops[1..], n, inventory) {
      assert ApartAt(o, ops, n + 1, inventory);
      assert ops[..n + 1][1..] == ops[1..][..n];
    }
  }

  lemma {:induction false} RunTies(o: Org, ops: seq<OrgOp>, inventory: nat, id: nat)
    requires OrgInv(o) && Tied(o, inventory, id) && ApartThroughout(o, ops, inventory)
    ensures Tied(OrgRun(o, ops), inventory, id)
    decreases |ops|
  {
    if ops != [] {
      var r := OrgStep(o, ops[0]);
      var next := if r.Success? then r.value else o;
      ApartFromThere(o, ops, inventory, next);
      if r.Success? {
        StepKeepsOrg(o, ops[0]);
        StepTies(o, ops[0], inventory, id);
      }
      RunTies(next, ops[1..], inventory, id);
    }
  }

  lemma {:induction false} RunAdjustTies(o: Org, ops: seq<OrgOp>, inventory: nat, n: nat)
    requires OrgInv(o) && NamesAdjustments(o) && AdjustTied(o, inventory, n) && ApartThroughout(o, ops, inventory)
    ensures AdjustTied(OrgRun(o, ops), inventory, n)
    decreases |ops|
  {
    if ops != [] {
      var r := OrgStep(o, ops[0]);
      var next := if r.Success? then r.value else o;
      ApartFromThere(o, ops, inventory, next);
      if r.Success? {
        StepKeepsOrg(o, ops[0]);
        StepAdjustTies(o, ops[0], inventory, n);
      }
      RunAdjustTies(next, ops[1..], inventory, n);
    }
  }

  /** A leg is a value to the nearest ten-thousandth, and exactly when it is a whole number
      of them. */
  predicate IsWorth(leg: int, value: int) {
    Abs(1000 * leg - value) <= 500 && (1000 * leg == value <==> AtScale(value))
  }

  lemma MoneyIsWorth(value: int)
    ensures IsWorth(StockMoney(value), value)
  {
    StoredIsHalfUp(value);
    StoredNear(value);
  }

  /** In every run of a new organization that carries its goods on an account of their own
      whenever a document or an adjustment posts their value: what a document's vouchers,
      their reversals aside, have there is what its movements, their undoing aside, are
      worth; nothing before it is sent; and for a bill that moved its goods itself its
      net, which is what they are worth exactly when the two are the same. */
  lemma DocumentLegsInRuns(o: Org, ops: seq<OrgOp>, inventory: nat, id: nat)
    requires IsNew(o) && ApartThroughout(o, ops, inventory)
    ensures var o' := OrgRun(o, ops);
            var leg := Legs(o'.books.vouchers, Only(DocSource(id)), inventory);
            if !Finished(o'.docs, id) then leg == 0
            else
              var d, value := o'.docs[id], PostedValue(o'.stock.movements, o'.docs[id], id);
              if d.kind.Bill? && value != 0 then leg == Cents(d.total - d.taxTotal) else IsWorth(leg, value)
  {
    NewOrgOk(o);
    RunTies(o, ops, inventory, id);
    var o' := OrgRun(o, ops);
    if Finished(o'.docs, id) {
      MoneyIsWorth(PostedValue(o'.stock.movements, o'.docs[id], id));
    }
  }

  /** And what an adjustment's voucher has there is the value of its row. */
  lemma AdjustmentLegsInRuns(o: Org, ops: seq<OrgOp>, inventory: nat, n: nat)
    requires IsNew(o) && ApartThroughout(o, ops, inventory)
    ensures var o' := OrgRun(o, ops);
            n < |o'.stock.movements| && Adjusts(o'.stock.movements[n]) ==>
              IsWorth(Legs(o'.books.vouchers, Only(AdjustSource(n)), inventory), MovementValue(o'.stock.movements[n]))
  {
    NewOrgOk(o);
    RunAdjustTies(o, ops, inventory, n);
    var o' := OrgRun(o, ops);
    if n < |o'.stock.movements| {
      MoneyIsWorth(MovementValue(o'.stock.movements[n]));
    }
  }
}
