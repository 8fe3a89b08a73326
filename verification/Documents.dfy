/** The document service as steps of an organization's tables: create, edit, convert,
    finalize, void and delete documents, settle and credit them, and change tax
    rates; with the stock and ledger steps they set off. */
module Documents {
  import opened Basics
  import opened SerialNumbers
  import opened StockTables
  import opened Inventory
  import opened OpeningStock
  import opened DocumentTables
  import opened Pricing
  import opened DocumentStock
  import opened LedgerTables
  import opened Ledger
  import opened Poster
  import PartyOpenings

  type Docs = map<nat, Document>

  datatype Org = Org(catalog: Catalog, stock: Stock, books: Books, roles: Roles, docs: Docs, next: nat, rates: map<nat, TaxRate>)

  // ---------------------------------------------------------------- settlement

  /** `_recompute_settlement`. */
  function PaymentStatusOf(paid: int, credited: int, total: int): PaymentStatus {
    if paid + credited <= 0 then Unpaid
    else if paid + credited < total then Partial
    else if paid >= total then Paid
    else Credited
  }

  function Recomputed(d: Document): Document {
    d.(paymentStatus := PaymentStatusOf(d.paid, d.credited, d.total))
  }

  /** `apply_settlement`: money received against a document. */
  function ApplySettlement(d: Document, delta: int): Document {
    Recomputed(d.(paid := Max(d.paid + delta, 0)))
  }

  /** `apply_credit_settlement`: value written back by a credit note. */
  function ApplyCreditSettlement(d: Document, delta: int): Document {
    Recomputed(d.(credited := Max(d.credited + delta, 0)))
  }

  function BalanceDue(d: Document): int {
    d.total - d.paid - d.credited
  }

  // ------------------------------------------------------ sources and dependents

  /** The non-void documents that came from another, one of them left out if asked. */
  function ActiveDependents(docs: Docs, source: nat, exclude: Option<nat>): set<nat> {
    set i | i in docs && docs[i].source == Some(source) && Live(docs[i]) && Some(i) != exclude
  }

  /** `_source_moved_stock`. */
  predicate SourceMoved(docs: Docs, d: Document) {
    && d.source.Some? && d.source.value in docs
    && docs[d.source.value].stockPosted
    && Direction(docs[d.source.value].kind) == Direction(d.kind)
  }

  /** What makes two lines the same for a conversion, quantity aside. */
  datatype Signature = Signature(product: Option<nat>, description: string, unitPrice: nat, discountType: DiscountType,
                                 discountValue: nat, taxRate: Option<nat>)

  function SignatureOf(i: LineInput): Signature {
    Signature(i.product, i.description, i.unitPrice, i.discountType, i.discountValue, i.taxRate)
  }

  /** `_line_quantities`. */
  function LineQuantities(lines: seq<DocLine>): map<Signature, int> {
    if lines == [] then map[]
    else
      var rest := LineQuantities(lines[..|lines| - 1]);
      var i := lines[|lines| - 1].input;
      rest[SignatureOf(i) := (if SignatureOf(i) in rest then rest[SignatureOf(i)] else 0) + i.quantity]
  }

  /** `_guard_converted_lines`. */
  function GuardConvertedLines(source: Document, target: Document): Check {
    var have, want := LineQuantities(source.lines), LineQuantities(target.lines);
    if target.kind.CreditNote?
    then Need(forall s :: s in want ==> s in have && want[s] <= have[s], BadRequest)
    else Need(want == have, BadRequest)
  }

  predicate ActiveSource(source: Document) {
    source.status.SentDoc? || (IsOrder(source.kind) && source.status.ClosedDoc?)
  }

  /** `_guard_source_for_finalize`. */
  function GuardSource(docs: Docs, d: Document): Check {
    if d.source.None? then Pass
    else if d.source.value !in docs then Fail(BadRequest)
    else
      var source := docs[d.source.value];
      if !Converts(source.kind, d.kind) || !ActiveSource(source) || d.party != source.party then Fail(BadRequest)
      else GuardConvertedLines(source, d)
  }

  /** `_reopen_order_source`. */
  function ReopenOrder(docs: Docs, source: Option<nat>, leaving: nat): Docs {
    if source.Some? && source.value in docs && IsOrder(docs[source.value].kind) && docs[source.value].status.ClosedDoc?
       && ActiveDependents(docs, source.value, Some(leaving)) == {}
    then docs[source.value := docs[source.value].(status := SentDoc)]
    else docs
  }

  // ----------------------------------------------------------- create and edit

  datatype DocInput = DocInput(party: Option<nat>, warehouse: Option<nat>, issued: Day, shipping: nat, adjustment: int,
                               lines: seq<LineInput>, paidThrough: Option<nat>)

  function NewDocument(kind: DocType, party: Option<nat>, warehouse: Option<nat>, issued: Day, source: Option<nat>,
                       lines: seq<DocLine>, shipping: int, adjustment: int, paidThrough: Option<nat>): Document
  {
    WithTotals(Document(kind, DraftDoc, party, warehouse, issued, source, lines, 0, 0, 0, shipping, adjustment, 0,
                        0, 0, Unpaid, 0, false, false, paidThrough),
               SubtotalOf(lines), DiscountTotalOf(lines), TaxTotalOf(lines))
  }

  /** `_validate_line_bins`. */
  function CheckLineBins(c: Catalog, kind: DocType, warehouse: Option<nat>, lines: seq<DocLine>): Check {
    if forall l :: l in lines ==> l.input.bin.None? then Pass
    else if !BinEnabled(kind) then Fail(BadRequest)
    else if exists l :: l in lines && l.input.bin.Some? &&
              (l.input.product.None? || l.input.product.value !in c.products || !c.products[l.input.product.value].tracked)
    then Fail(BadRequest)
    else if warehouse.None? then Fail(BadRequest)
    else Need(forall l :: l in lines ==> UsableBin(c, warehouse.value, l.input.bin), NotFound)
  }

  /** `create`. */
  function Create(o: Org, kind: DocType, i: DocInput): Result<Org> {
    if !(i.party.Some? || kind.SalesReceipt?) then Failure(BadRequest)
    else
      :- Need(i.party.Some? ==> i.party.value in o.books.parties, NotFound);
      :- Need(i.warehouse.Some? ==> ActiveLocation(o.catalog, i.warehouse.value), NotFound);
      var lines :- BuildLines(o.catalog, o.rates, kind, i.lines);
      :- CheckLineBins(o.catalog, kind, i.warehouse, lines);
      var d := NewDocument(kind, i.party, i.warehouse, i.issued, None, lines, i.shipping, i.adjustment,
                           if kind.SalesReceipt? then i.paidThrough else None);
      Success(o.(docs := o.docs[o.next := d], next := o.next + 1))
  }

  datatype DocUpdate = DocUpdate(party: Option<nat>, warehouse: Option<Option<nat>>, issued: Option<Day>,
                                 shipping: Option<int>, adjustment: Option<int>, lines: Option<seq<LineInput>>)

  /** The header fields an edit replaces. */
  function Edited(d: Document, u: DocUpdate): Document {
    d.(party := if u.party.Some? then u.party else d.party,
       warehouse := u.warehouse.GetOr(d.warehouse),
       issued := u.issued.GetOr(d.issued),
       shipping := u.shipping.GetOr(d.shipping),
       adjustment := u.adjustment.GetOr(d.adjustment))
  }

  /** New lines, or the ones there are, and the totals over them. */
  function Relined(c: Catalog, rates: map<nat, TaxRate>, d: Document, inputs: Option<seq<LineInput>>): Result<Document> {
    var lines :- if inputs.Some? then BuildLines(c, rates, d.kind, inputs.value) else Success(d.lines);
    :- CheckLineBins(c, d.kind, d.warehouse, lines);
    Success(if inputs.Some? then WithTotals(d.(lines := lines), SubtotalOf(lines), DiscountTotalOf(lines), TaxTotalOf(lines))
            else WithTotals(d, d.subtotal, d.discountTotal, d.taxTotal))
  }

  /** `update`. */
  function Update(o: Org, id: nat, u: DocUpdate): Result<Org> {
    if id !in o.docs then Failure(NotFound)
    else
      :- Need(o.docs[id].status.DraftDoc?, BadRequest);
      :- Need(u.party.Some? ==> u.party.value in o.books.parties, NotFound);
      :- Need(u.warehouse.Some? && u.warehouse.value.Some? ==> ActiveLocation(o.catalog, u.warehouse.value.value), NotFound);
      var d' :- Relined(o.catalog, o.rates, Edited(o.docs[id], u), u.lines);
      Success(o.(docs := o.docs[id := d']))
  }

  // -------------------------------------------------------------------- convert

  /** Bins, lots and serials carry over when the source moved the goods the same way. */
  predicate PreservesGoods(source: Document, target: DocType) {
    source.stockPosted && Direction(source.kind) == Direction(target)
  }

  function CarriedInput(i: LineInput, preserve: bool): LineInput {
    if preserve then i else i.(bin := None, lots := [], serials := [])
  }

  function CarriedInputs(lines: seq<DocLine>, preserve: bool): (r: seq<LineInput>)
    ensures |r| == |lines| && forall i :: 0 <= i < |lines| ==> r[i] == CarriedInput(lines[i].input, preserve)
  {
    if lines == [] then [] else CarriedInputs(lines[..|lines| - 1], preserve) + [CarriedInput(lines[|lines| - 1].input, preserve)]
  }

  /** `convert`. */
  function Convert(o: Org, id: nat, target: DocType, today: Day): Result<Org> {
    if id !in o.docs then Failure(NotFound)
    else
      var source := o.docs[id];
      :- Need(Converts(source.kind, target), BadRequest);
      :- Need(source.status.SentDoc?, BadRequest);
      :- Need(ActiveDependents(o.docs, id, None) == {}, BadRequest);
      var lines :- BuildLines(o.catalog, o.rates, target, CarriedInputs(source.lines, PreservesGoods(source, target)));
      var d := NewDocument(target, source.party, source.warehouse, today, Some(id), lines, source.shipping, source.adjustment, None);
      Success(o.(docs := o.docs[o.next := d], next := o.next + 1))
  }

  // ------------------------------------------------------------------- finalize

  /** What filing with the tax authority comes to. */
  datatype Filing = NotFiled | Filed | Rejected

  predicate MovesStock(docs: Docs, d: Document) {
    Direction(d.kind) != 0 && !SourceMoved(docs, d)
  }

  /** The document with the warehouse its goods will move at. */
  function Placed(c: Catalog, d: Document, moves: bool): Result<Document> {
    var needs := moves && exists i :: 0 <= i < |d.lines| && d.lines[i].input.product.Some?;
    var placed := if needs && d.warehouse.None? then d.(warehouse := c.defaultLocation) else d;
    :- Need(needs ==> placed.warehouse.Some?, BadRequest);
    :- Need(placed.warehouse.Some? ==> ActiveLocation(c, placed.warehouse.value), NotFound);
    Success(placed)
  }

  /** `_apply_credit`: the invoice a credit note settles, or the source as it is. */
  function CreditedSource(source: Document, d: Document): Result<Document> {
    if !d.kind.CreditNote? || !source.status.SentDoc? then Success(source)
    else
      :- Need(d.total <= BalanceDue(source), BadRequest);
      Success(ApplyCreditSettlement(source, d.total))
  }

  predicate Credits(docs: Docs, d: Document) {
    d.kind.CreditNote? && d.source.Some? && d.source.value in docs && docs[d.source.value].status.SentDoc?
  }

  /** The source after its dependent is finalized: credited, and closed if an order. */
  function SourceAfter(source: Document, d: Document): Result<Document> {
    var credited :- CreditedSource(source, d);
    Success(if IsOrder(source.kind) then credited.(status := ClosedDoc) else credited)
  }

  function SourcesAfter(docs: Docs, d: Document): Result<Docs> {
    if d.source.None? || d.source.value !in docs then Success(docs)
    else
      var source :- SourceAfter(docs[d.source.value], d);
      Success(docs[d.source.value := source])
  }

  function FinalDocument(docs: Docs, d: Document, moves: bool, filing: Filing): Document {
    var posted := d.(stockPosted := moves, settled := if Credits(docs, d) then d.total else d.settled);
    var paid := if d.kind.SalesReceipt? then ApplySettlement(posted, posted.total - posted.paid) else posted;
    paid.(status := SentDoc, filed := filing.Filed? && (d.kind.Invoice? || d.kind.CreditNote?))
  }

  /** The checks of `finalize` before anything is moved, and the document placed. */
  ghost function ReadyToFinalize(o: Org, id: nat): Result<Document> {
    if id !in o.docs then Failure(NotFound)
    else
      var d := o.docs[id];
      :- Need(d.status.DraftDoc? && d.lines != [], BadRequest);
      :- GuardSource(o.docs, d);
      var moves := MovesStock(o.docs, d);
      var placed :- Placed(o.catalog, d, moves);
      :- if moves then CheckTracking(o.stock, o.catalog, placed, placed.lines) else Pass;
      :- if moves && Direction(d.kind) < 0 then Preflight(o.stock, o.catalog, placed) else Pass;
      Success(placed)
  }

  /** What `finalize` changes, once its checks have passed. */
  function SendOff(o: Org, id: nat, d: Document, filing: Filing): Result<Org> {
    var moves := MovesStock(o.docs, d);
    var docs :- SourcesAfter(o.docs, d);
    var stock :- if moves then PostStock(o.stock, o.catalog, id, d, false) else Success(o.stock);
    var posted := d.(stockPosted := moves);
    var books :- PostDocument(o.books, o.roles, id, posted, StockValue(MovementsOf(stock.movements, id)), SourceMoved(o.docs, d));
    :- Need((d.kind.Invoice? || d.kind.CreditNote?) ==> !filing.Rejected?, BadRequest);
    Success(o.(stock := stock, books := books, docs := docs[id := FinalDocument(o.docs, d, moves, filing)]))
  }

  /** `finalize`. */
  ghost function Finalize(o: Org, id: nat, filing: Filing): Result<Org> {
    var d :- ReadyToFinalize(o, id);
    SendOff(o, id, d, filing)
  }

  // ------------------------------------------------------------ void and delete

  /** `_reverse_credit` on the source's side. */
  function WithoutCredit(docs: Docs, d: Document): Docs {
    if d.settled <= 0 || d.source.None? || d.source.value !in docs then docs
    else docs[d.source.value := ApplyCreditSettlement(docs[d.source.value], -d.settled)]
  }

  function VoidedDocument(d: Document): Document {
    d.(status := VoidDoc, stockPosted := false, settled := if d.settled > 0 && d.source.Some? then 0 else d.settled)
  }

  function CheckVoid(docs: Docs, id: nat): Check {
    if id !in docs then Fail(NotFound)
    else
      var d := docs[id];
      Need(&& (d.status.SentDoc? || d.status.ClosedDoc?)
           && ActiveDependents(docs, id, None) == {}
           && !(d.kind.Invoice? && d.filed)
           && d.paid <= 0, BadRequest)
  }

  /** `void`. */
  function VoidDocument(o: Org, id: nat): Result<Org> {
    if CheckVoid(o.docs, id).Fail? then Failure(CheckVoid(o.docs, id).error)
    else
      var d := o.docs[id];
      var stock :- if d.stockPosted then PostStock(o.stock, o.catalog, id, d, true) else Success(o.stock);
      var books :- ReverseSource(o.books, Source(DocumentKind, id), d.issued);
      var docs := ReopenOrder(WithoutCredit(o.docs, d)[id := VoidedDocument(d)], d.source, id);
      Success(o.(stock := stock, books := books, docs := docs))
  }

  /** `delete`. */
  function Delete(o: Org, id: nat): Result<Org> {
    if id !in o.docs then Failure(NotFound)
    else
      :- Need(o.docs[id].status.DraftDoc?, BadRequest);
      Success(o.(docs := ReopenOrder(o.docs - {id}, o.docs[id].source, id)))
  }

  // ------------------------------------------------------- payments and rates

  /** A payment's allocation to one invoice or bill, as it is submitted: within what
      was not paid yet, credits aside. */
  function Pay(o: Org, id: nat, amount: int): Result<Org> {
    if id !in o.docs then Failure(NotFound)
    else
      var d := o.docs[id];
      :- Need((d.kind.Invoice? || d.kind.Bill?) && d.status.SentDoc? && 0 < amount <= d.total - d.paid, BadRequest);
      Success(o.(docs := o.docs[id := ApplySettlement(d, amount)]))
  }

  /** The same allocation taken back when the payment is cancelled. */
  function Unpay(o: Org, id: nat, amount: int): Result<Org> {
    if !(id in o.docs && 0 < amount) then Failure(BadRequest)
    else
      var d := o.docs[id];
      :- Need((d.kind.Invoice? || d.kind.Bill?) && amount <= d.paid, BadRequest);
      Success(o.(docs := o.docs[id := ApplySettlement(d, -amount)]))
  }

  predicate RateInUse(docs: Docs, rate: nat) {
    exists id :: id in docs && exists l :: l in docs[id].lines && l.input.taxRate == Some(rate)
  }

  /** `update_tax_rate`: the percentage of a used rate cannot change. */
  function UpdateRate(o: Org, rate: nat, percent: Option<nat>, active: Option<bool>): Result<Org> {
    if rate !in o.rates then Failure(NotFound)
    else
      :- Need(percent.Some? && percent.value != o.rates[rate].rate ==> !RateInUse(o.docs, rate), Conflict);
      var r := o.rates[rate];
      Success(o.(rates := o.rates[rate := TaxRate(percent.GetOr(r.rate), active.GetOr(r.active))]))
  }

  function AddRate(o: Org, rate: nat, percent: nat, active: bool): Result<Org> {
    if rate in o.rates then Failure(Conflict)
    else
      Success(o.(rates := o.rates[rate := TaxRate(percent, active)]))
  }

  // ------------------------------------------------------------ stock and books

  function AdjustStock(o: Org, a: AdjustInput, account: Option<nat>, day: Day): Result<Org> {
    var adjusted :- Adjust(o.stock, o.catalog, a);
    var books :- PostAdjustment(o.books, o.roles, adjusted.value, account, day, |o.stock.movements|);
    Success(o.(stock := adjusted.stock, books := books))
  }

  ghost function TransferStock(o: Org, t: TransferInput): Result<Org> {
    var stock :- Transfer(o.stock, o.catalog, t);
    Success(o.(stock := stock))
  }

  function SetOpening(o: Org, product: nat, entries: seq<OpeningEntry>, order: seq<Key>, day: Day): Result<Org> {
    var progress :- SetOpeningStock(o.stock, o.catalog, product, entries, order);
    var books :- if |progress.stock.movements| == |o.stock.movements| then Success(o.books)
                 else PostOpening(o.books, o.roles, progress.value, day, |o.stock.movements|);
    Success(o.(stock := progress.stock, books := books))
  }

  /** A party's opening balance, set on the books. */
  function OpenParty(o: Org, party: nat, vendorOnly: bool, amount: int, asOf: Day): Result<Org> {
    var books :- PartyOpenings.SetPartyOpening(o.books, o.roles, party, vendorOnly, amount, asOf);
    Success(o.(books := books))
  }

  /** Sources whose vouchers are only ever posted together with a document, a stock call
      or a party's opening balance. */
  predicate PostedElsewhere(source: Source) {
    && source.Source?
    && (source.kind == DocumentKind || source.kind == AdjustmentKind || source.kind == OpeningStockKind || source.kind == PartyOpeningKind)
  }

  /** The calls the voucher, period and account services make on the books: journals
      have no source, other automatic postings are none of those posted elsewhere, and
      only such a posting is taken back on a date given to it. */
  predicate ServiceCall(b: Books, op: BooksOp) {
    match op
    case CreateOp(_, _, _, source, _) => source.NoSource?
    case PostOp(_, _, _, source, _) => !PostedElsewhere(source)
    case ReverseOp(id, to) => to.Some? && id < |b.vouchers| ==> b.vouchers[id].source.Source? && !PostedElsewhere(b.vouchers[id].source)
    case _ => true
  }

  function CallBooks(o: Org, op: BooksOp): Result<Org> {
    if !ServiceCall(o.books, op) then Failure(BadRequest)
    else
      var books :- Ledger.Step(o.books, op);
      Success(o.(books := books))
  }

  // ---------------------------------------------------------------- the machine

  datatype OrgOp =
    | CreateOp(kind: DocType, input: DocInput)
    | UpdateOp(id: nat, update: DocUpdate)
    | ConvertOp(id: nat, target: DocType, today: Day)
    | FinalizeOp(id: nat, filing: Filing)
    | VoidOp(id: nat)
    | DeleteOp(id: nat)
    | PayOp(id: nat, amount: int)
    | UnpayOp(id: nat, amount: int)
    | UpdateRateOp(rate: nat, percent: Option<nat>, active: Option<bool>)
    | AddRateOp(rate: nat, percent0: nat, active0: bool)
    | AdjustOp(adjust: AdjustInput, account: Option<nat>, day: Day)
    | TransferOp(transfer: TransferInput)
    | OpeningOp(product: nat, entries: seq<OpeningEntry>, order: seq<Key>, day: Day)
    | PartyOpeningOp(party: nat, vendorOnly: bool, amount: int, asOf: Day)
    | BooksCall(op: BooksOp)
    | CatalogOp(catalog: Catalog)
    | RolesOp(roles: Roles)

  /** One service call, or one change of the catalogue or the settings around it. A
      refused call raises, and nothing of it is kept. */
  ghost function OrgStep(o: Org, op: OrgOp): Result<Org> {
    match op
    case CreateOp(kind, input) => Create(o, kind, input)
    case UpdateOp(id, update) => Update(o, id, update)
    case ConvertOp(id, target, today) => Convert(o, id, target, today)
    case FinalizeOp(id, filing) => Finalize(o, id, filing)
    case VoidOp(id) => VoidDocument(o, id)
    case DeleteOp(id) => Delete(o, id)
    case PayOp(id, amount) => Pay(o, id, amount)
    case UnpayOp(id, amount) => Unpay(o, id, amount)
    case UpdateRateOp(rate, percent, active) => UpdateRate(o, rate, percent, active)
    case AddRateOp(rate, percent, active) => AddRate(o, rate, percent, active)
    case AdjustOp(adjust, account, day) => AdjustStock(o, adjust, account, day)
    case TransferOp(transfer) => TransferStock(o, transfer)
    case OpeningOp(product, entries, order, day) =>
      :- Need(ValidOrder(o.stock, o.catalog, product, entries, order), BadRequest);
      SetOpening(o, product, entries, order, day)
    case PartyOpeningOp(party, vendorOnly, amount, asOf) => OpenParty(o, party, vendorOnly, amount, asOf)
    case BooksCall(call) => CallBooks(o, call)
    case CatalogOp(catalog) =>
      :- Need(SameTracking(o.catalog, catalog), BadRequest);
      Success(o.(catalog := catalog))
    case RolesOp(roles) => Success(o.(roles := roles))
  }

  /** Rates, stock, books, catalogue and roles leave the documents alone. */
  predicate LeavesDocs(op: OrgOp) {
    || op.UpdateRateOp? || op.AddRateOp? || op.AdjustOp? || op.TransferOp? || op.OpeningOp? || op.PartyOpeningOp? || op.BooksCall?
    || op.CatalogOp? || op.RolesOp?
  }

  lemma OtherStepsLeaveDocs(o: Org, op: OrgOp)
    requires LeavesDocs(op) && OrgStep(o, op).Success?
    ensures OrgStep(o, op).value.docs == o.docs && OrgStep(o, op).value.next == o.next
  {
  }

  ghost function OrgRun(o: Org, ops: seq<OrgOp>): Org
    decreases |ops|
  {
    if ops == [] then o
    else
      var r := OrgStep(o, ops[0]);
      OrgRun(if r.Success? then r.value else o, ops[1..])
  }
}
