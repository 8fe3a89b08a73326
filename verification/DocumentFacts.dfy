/** What stands in a document: what each call writes in it, that nothing of it changes once
    it is sent, and how it agrees with the document it came from. */
module DocumentFacts {
  import opened Basics
  import opened StockTables
  import opened DocumentTables
  import opened Pricing
  import opened DocumentStock
  import opened Documents
  import opened Lifecycle
  import opened DocumentMoney
  import opened GoodsMoved
  import opened GoodsInvariant
  import opened GoodsOnce
  import opened OrgInvariant
  import opened StockLegs
  import GoodsCost
  import SerialNumbers

  // ----------------------------------------------------------- what calls write

  /** A draft that nothing has happened to. */
  predicate Fresh(d: Document) {
    && d.status.DraftDoc? && d.paid == 0 && d.credited == 0 && d.settled == 0 && d.paymentStatus.Unpaid?
    && !d.stockPosted && !d.filed
  }

  /** The lines are the ones entered, serials cleaned. */
  predicate LinesEntered(lines: seq<DocLine>, inputs: seq<LineInput>) {
    && |lines| == |inputs|
    && forall i :: 0 <= i < |lines| ==> lines[i].input.(serials := []) == inputs[i].(serials := [])
  }

  /** Every other document is as it was. */
  predicate OnlyAt(docs: Docs, docs': Docs, id: nat) {
    id in docs' && docs'.Keys == docs.Keys + {id} && forall x :: x in docs && x != id ==> docs'[x] == docs[x]
  }

  /** One document more, under a number that is new. */
  lemma OneMore(o: Org, o': Org, d: Document)
    requires LifecycleInv(o.docs, o.next) && o' == o.(docs := o.docs[o.next := d], next := o.next + 1)
    ensures OnlyAt(o.docs, o'.docs, o.next) && o.next !in o.docs && o'.docs[o.next] == d && o' == o.(docs := o'.docs, next := o.next + 1)
  {
  }

  lemma NewWrites(kind: DocType, party: Option<nat>, warehouse: Option<nat>, issued: int, source: Option<nat>,
                  lines: seq<DocLine>, shipping: int, adjustment: int, paidThrough: Option<nat>)
    ensures var d := NewDocument(kind, party, warehouse, issued, source, lines, shipping, adjustment, paidThrough);
            && Fresh(d) && d.kind == kind && d.party == party && d.warehouse == warehouse && d.issued == issued && d.source == source
            && d.lines == lines && d.shipping == shipping && d.adjustment == adjustment && d.paidThrough == paidThrough
  {
  }

  /** Creating writes a fresh draft with what was entered, and nothing else. Only a sales
      receipt keeps an account it is paid through. */
  lemma CreateWrites(o: Org, kind: DocType, i: DocInput)
    requires LifecycleInv(o.docs, o.next) && Create(o, kind, i).Success?
    ensures var o' := Create(o, kind, i).value;
            && OnlyAt(o.docs, o'.docs, o.next) && o.next !in o.docs && o' == o.(docs := o'.docs, next := o.next + 1)
            && var d := o'.docs[o.next];
               && Fresh(d) && d.kind == kind && d.source.None? && LinesEntered(d.lines, i.lines)
               && d.party == i.party && d.warehouse == i.warehouse && d.issued == i.issued
               && d.shipping == i.shipping && d.adjustment == i.adjustment
               && d.paidThrough == (if kind.SalesReceipt? then i.paidThrough else None)
    ensures i.party.Some? || kind.SalesReceipt?
    ensures i.party.Some? ==> i.party.value in o.books.parties
    ensures i.warehouse.Some? ==> i.warehouse.value in o.catalog.locations && o.catalog.locations[i.warehouse.value]
  {
    BuildLinesSound(o.catalog, o.rates, kind, i.lines);
    var lines := BuildLines(o.catalog, o.rates, kind, i.lines).value;
    var paidThrough := if kind.SalesReceipt? then i.paidThrough else None;
    NewWrites(kind, i.party, i.warehouse, i.issued, None, lines, i.shipping, i.adjustment, paidThrough);
    OneMore(o, Create(o, kind, i).value, NewDocument(kind, i.party, i.warehouse, i.issued, None, lines, i.shipping, i.adjustment, paidThrough));
  }

  /** Editing rewrites what is given of a draft, and leaves the rest of it. */
  lemma UpdateWrites(o: Org, id: nat, u: DocUpdate)
    requires Update(o, id, u).Success?
    ensures var o' := Update(o, id, u).value;
            && id in o.docs && o.docs[id].status.DraftDoc? && OnlyAt(o.docs, o'.docs, id) && o' == o.(docs := o'.docs)
            && var was, d := o.docs[id], o'.docs[id];
               && d.(party := was.party, warehouse := was.warehouse, issued := was.issued, shipping := was.shipping, adjustment := was.adjustment,
                     lines := was.lines, subtotal := was.subtotal, discountTotal := was.discountTotal, taxTotal := was.taxTotal, total := was.total) == was
               && d.party == (if u.party.Some? then u.party else was.party)
               && d.warehouse == (if u.warehouse.Some? then u.warehouse.value else was.warehouse)
               && d.issued == (if u.issued.Some? then u.issued.value else was.issued)
               && d.shipping == (if u.shipping.Some? then u.shipping.value else was.shipping)
               && d.adjustment == (if u.adjustment.Some? then u.adjustment.value else was.adjustment)
               && (if u.lines.Some? then LinesEntered(d.lines, u.lines.value) else d.lines == was.lines)
  {
    if u.lines.Some? {
      BuildLinesSound(o.catalog, o.rates, o.docs[id].kind, u.lines.value);
    }
  }

  /** What may become of what. */
  predicate MayBecome(source: DocType, target: DocType) {
    || (source.SalesOrder? && (target.DeliveryChallan? || target.Invoice?))
    || (source.DeliveryChallan? && target.Invoice?)
    || (source.Invoice? && target.CreditNote?)
    || (source.PurchaseOrder? && (target.GoodsReceipt? || target.Bill?))
    || (source.GoodsReceipt? && target.Bill?)
  }

  /** Goods that already went the target's way. */
  predicate WentAlready(source: Document, target: DocType) {
    && source.stockPosted
    && ((source.kind.DeliveryChallan? && target.Invoice?) || (source.kind.GoodsReceipt? && target.Bill?))
  }

  /** Lines carried over, in money and goods; with their bins, lots and serials where the
      source already moved them, and without where they are still to move. */
  predicate LinesCarried(source: Document, target: DocType, lines: seq<DocLine>) {
    && |lines| == |source.lines|
    && forall i :: 0 <= i < |lines| ==>
         && SameTerms(lines[i].input, source.lines[i].input)
         && (if WentAlready(source, target)
             then lines[i].input.bin == source.lines[i].input.bin && lines[i].input.lots == source.lines[i].input.lots
             else lines[i].input.bin.None? && lines[i].input.lots == [] && lines[i].input.serials == [])
  }

  /** Converting writes a fresh draft of the target type, dated that day, with the source's
      party, warehouse, lines, shipping and adjustment, and marks it as its source. */
  lemma ConvertWrites(o: Org, id: nat, target: DocType, today: int)
    requires LifecycleInv(o.docs, o.next) && Convert(o, id, target, today).Success?
    ensures var o' := Convert(o, id, target, today).value;
            && id in o.docs && o.docs[id].status.SentDoc? && MayBecome(o.docs[id].kind, target)
            && OnlyAt(o.docs, o'.docs, o.next) && o.next !in o.docs && o' == o.(docs := o'.docs, next := o.next + 1)
            && var source, d := o.docs[id], o'.docs[o.next];
               && Fresh(d) && d.kind == target && d.source == Some(id) && d.issued == today && LinesCarried(source, target, d.lines)
               && d.party == source.party && d.warehouse == source.warehouse
               && d.shipping == source.shipping && d.adjustment == source.adjustment && d.paidThrough.None?
  {
    var source := o.docs[id];
    var inputs := CarriedInputs(source.lines, PreservesGoods(source, target));
    BuildLinesSound(o.catalog, o.rates, target, inputs);
    var lines := BuildLines(o.catalog, o.rates, target, inputs).value;
    CarriedTerms(o.catalog, o.rates, source, target, lines);
    NewWrites(target, source.party, source.warehouse, today, Some(id), lines, source.shipping, source.adjustment, None);
    var d := NewDocument(target, source.party, source.warehouse, today, Some(id), lines, source.shipping, source.adjustment, None);
    OneMore(o, Convert(o, id, target, today).value, d);
  }

  lemma CarriedTerms(c: Catalog, rates: map<nat, TaxRate>, source: Document, target: DocType, lines: seq<DocLine>)
    requires Converts(source.kind, target)
    requires BuildLines(c, rates, target, CarriedInputs(source.lines, PreservesGoods(source, target))) == Success(lines)
    ensures LinesCarried(source, target, lines)
  {
    var inputs := CarriedInputs(source.lines, PreservesGoods(source, target));
    BuildEachSound(c, rates, target, inputs);
    forall i | 0 <= i < |lines|
      ensures SameTerms(lines[i].input, source.lines[i].input)
      ensures if WentAlready(source, target)
              then lines[i].input.bin == source.lines[i].input.bin && lines[i].input.lots == source.lines[i].input.lots
              else lines[i].input.bin.None? && lines[i].input.lots == [] && lines[i].input.serials == []
    {
      CarriedLine(c, rates, source, target, i, lines[i]);
    }
  }

  lemma CarriedLine(c: Catalog, rates: map<nat, TaxRate>, source: Document, target: DocType, i: nat, line: DocLine)
    requires Converts(source.kind, target) && i < |source.lines|
    requires BuildLine(c, rates, target, CarriedInput(source.lines[i].input, PreservesGoods(source, target))) == Success(line)
    ensures SameTerms(line.input, source.lines[i].input)
    ensures if WentAlready(source, target)
            then line.input.bin == source.lines[i].input.bin && line.input.lots == source.lines[i].input.lots
            else line.input.bin.None? && line.input.lots == [] && line.input.serials == []
  {
    assert PreservesGoods(source, target) <==> WentAlready(source, target);
  }

  // --------------------------------------------------------- settled and finalized

  /** A payment status, in its columns: nothing settled, some of the total, all of it by
      money, or all of it with a credit's help. */
  predicate StatusByColumns(d: Document) {
    var settled := d.paid + d.credited;
    && (d.paymentStatus.Unpaid? <==> settled <= 0)
    && (d.paymentStatus.Partial? <==> 0 < settled < d.total)
    && (d.paymentStatus.Paid? <==> 0 < settled && d.total <= settled && d.total <= d.paid)
    && (d.paymentStatus.Credited? <==> 0 < settled && d.total <= settled && d.paid < d.total)
  }

  lemma RecomputedByColumns(d: Document)
    ensures StatusByColumns(Recomputed(d)) && Recomputed(d).(paymentStatus := d.paymentStatus) == d
  {
  }

  /** A payment raises what was paid of a sent invoice or bill, within what was not paid
      yet, and changes nothing else but its status. */
  lemma PayWrites(o: Org, id: nat, amount: int)
    requires Pay(o, id, amount).Success?
    ensures var o' := Pay(o, id, amount).value;
            && id in o.docs && OnlyAt(o.docs, o'.docs, id) && o' == o.(docs := o'.docs)
            && var was, d := o.docs[id], o'.docs[id];
               && (was.kind.Invoice? || was.kind.Bill?) && was.status.SentDoc? && 0 < amount <= was.total - was.paid
               && d.(paid := was.paid, paymentStatus := was.paymentStatus) == was
               && StatusByColumns(d) && (was.paid >= 0 ==> d.paid == was.paid + amount)
  {
    var was := o.docs[id];
    RecomputedByColumns(was.(paid := Max(was.paid + amount, 0)));
  }

  /** Taking a payment back lowers it again. */
  lemma UnpayWrites(o: Org, id: nat, amount: int)
    requires Unpay(o, id, amount).Success?
    ensures var o' := Unpay(o, id, amount).value;
            && id in o.docs && OnlyAt(o.docs, o'.docs, id) && o' == o.(docs := o'.docs)
            && var was, d := o.docs[id], o'.docs[id];
               && (was.kind.Invoice? || was.kind.Bill?) && 0 < amount <= was.paid
               && d.(paid := was.paid, paymentStatus := was.paymentStatus) == was
               && StatusByColumns(d) && d.paid == was.paid - amount
  {
    var was := o.docs[id];
    RecomputedByColumns(was.(paid := Max(was.paid - amount, 0)));
  }

  /** A document whose goods have not gone its way yet, and are to. */
  predicate GoodsToMove(docs: Docs, d: Document) {
    && !d.kind.SalesOrder? && !d.kind.PurchaseOrder?
    && !(d.source.Some? && d.source.value in docs && docs[d.source.value].stockPosted
         && GoodsCost.Way(docs[d.source.value].kind) == GoodsCost.Way(d.kind) && !IsOrder(docs[d.source.value].kind))
  }

  /** Finalizing sends the draft as it was written, at the default warehouse if it had none
      and needs one; pays a sales receipt at once; and marks it filed, and its goods moved,
      exactly when they are. A filing that is rejected lets no invoice or credit note by. */
  lemma FinalizeWrites(o: Org, id: nat, filing: Filing)
    requires Finalize(o, id, filing).Success?
    ensures var o' := Finalize(o, id, filing).value;
            && id in o.docs && o.docs[id].status.DraftDoc? && o.docs[id].lines != [] && id in o'.docs
            && var was, d := o.docs[id], o'.docs[id];
               && Content(d).(warehouse := was.warehouse, filed := was.filed) == Content(was) && d.status.SentDoc?
               && (d.warehouse != was.warehouse ==> was.warehouse.None? && d.warehouse == o.catalog.defaultLocation)
               && (d.filed <==> filing.Filed? && (d.kind.Invoice? || d.kind.CreditNote?))
               && (d.stockPosted <==> GoodsToMove(o.docs, was))
               && (if d.kind.SalesReceipt? then d.paid == Max(d.total, 0) && StatusByColumns(d) else d.paid == was.paid)
               && (d.kind.Invoice? || d.kind.CreditNote? ==> !filing.Rejected?)
  {
    ReadyChecks(o, id);
    var d, moves := FinalizeEffect(o, id, filing);
    FinalWrites(o.docs, d, moves, filing);
    Warehouse(o.catalog, o.docs[id], MovesStock(o.docs, o.docs[id]));
    HasLines(o, id);
    MovesIff(o.docs, o.docs[id]);
  }

  lemma HasLines(o: Org, id: nat)
    requires ReadyToFinalize(o, id).Success?
    ensures id in o.docs && o.docs[id].lines != []
    ensures Placed(o.catalog, o.docs[id], MovesStock(o.docs, o.docs[id])) == ReadyToFinalize(o, id)
  {
  }

  lemma Warehouse(c: Catalog, d: Document, moves: bool)
    requires Placed(c, d, moves).Success?
    ensures var w := Placed(c, d, moves).value.warehouse; w != d.warehouse ==> d.warehouse.None? && w == c.defaultLocation
  {
  }

  lemma FinalWrites(docs: Docs, d: Document, moves: bool, filing: Filing)
    ensures var f := FinalDocument(docs, d, moves, filing);
            && Content(f).(filed := d.filed) == Content(d) && f.status.SentDoc? && f.warehouse == d.warehouse && f.stockPosted == moves
            && (f.filed <==> filing.Filed? && (d.kind.Invoice? || d.kind.CreditNote?))
            && (if d.kind.SalesReceipt? then f.paid == Max(f.total, 0) && StatusByColumns(f) else f.paid == d.paid)
  {
    var posted := d.(stockPosted := moves, settled := if Credits(docs, d) then d.total else d.settled);
    RecomputedByColumns(posted.(paid := Max(posted.paid + (posted.total - posted.paid), 0)));
  }

  /** What moves its own goods: every document that is no order, unless what it came from
      moved them already, the same way. */
  lemma MovesIff(docs: Docs, d: Document)
    ensures MovesStock(docs, d) <==> GoodsToMove(docs, d)
  {
  }

  /** Voiding takes a sent or closed document from which nothing live came, that is not
      paid and, if an invoice, not filed; it leaves the document void, with nothing moved
      and nothing settled by it. */
  lemma VoidWrites(o: Org, id: nat)
    requires OrgInv(o) && VoidDocument(o, id).Success?
    ensures id in o.docs && (o.docs[id].status.SentDoc? || o.docs[id].status.ClosedDoc?) && o.docs[id].paid <= 0
    ensures !(o.docs[id].kind.Invoice? && o.docs[id].filed)
    ensures forall x :: x in o.docs && o.docs[x].source == Some(id) ==> o.docs[x].status.VoidDoc?
    ensures var docs' := VoidDocument(o, id).value.docs;
            && docs'.Keys == o.docs.Keys && docs'[id].status.VoidDoc? && !docs'[id].stockPosted && Content(docs'[id]) == Content(o.docs[id])
            && (o.docs[id].source.Some? ==> docs'[id].settled <= 0)
  {
    VoidEffect(o, id);
    VoidKeepsOthers(o, id);
    forall x | x in o.docs && o.docs[x].source == Some(id) ensures o.docs[x].status.VoidDoc? {
      assert x !in ActiveDependents(o.docs, id, None);
    }
  }

  /** Deleting takes a draft, and only it. */
  lemma DeleteWrites(o: Org, id: nat)
    requires OrgInv(o) && Delete(o, id).Success?
    ensures id in o.docs && o.docs[id].status.DraftDoc?
    ensures Delete(o, id).value.docs.Keys == o.docs.Keys - {id}
  {
    LeaveEffect(o.docs, o.next, id, o.docs - {id});
  }

  // --------------------------------------------------------------- accepted lines

  /** What it takes for a line to be accepted in a document. */
  predicate Acceptable(c: Catalog, rates: map<nat, TaxRate>, kind: DocType, i: LineInput) {
    && (i.product.Some? ==> i.product.value in c.products)
    && (i.taxRate.Some? ==> i.taxRate.value in rates && rates[i.taxRate.value].active)
    && (i.lots != [] || i.serials != [] ==> !kind.SalesOrder? && !kind.SalesReceipt? && !kind.PurchaseOrder? && i.product.Some?)
    && (i.lots != [] ==> c.products[i.product.value].mode.LotTracked?)
    && (i.serials != [] ==> c.products[i.product.value].mode.SerialTracked?)
    && (forall a :: a in i.lots ==> a.lot in c.lots && c.lots[a.lot].product == i.product.value)
    && (forall x, y :: 0 <= x < y < |i.lots| ==> i.lots[x].lot != i.lots[y].lot)
    && SerialNumbers.NormalizeSerials(i.serials).Success?
  }

  lemma LineAcceptedIff(c: Catalog, rates: map<nat, TaxRate>, kind: DocType, i: LineInput)
    requires LinesKnown(c, rates, [i])
    ensures BuildLine(c, rates, kind, i).Success? <==> Acceptable(c, rates, kind, i)
  {
    assert [i][0] == i;
  }

  lemma LastKnown(c: Catalog, rates: map<nat, TaxRate>, inputs: seq<LineInput>)
    requires LinesKnown(c, rates, inputs) && inputs != []
    ensures LinesKnown(c, rates, inputs[..|inputs| - 1]) && LinesKnown(c, rates, [inputs[|inputs| - 1]])
  {
    assert [inputs[|inputs| - 1]][0] == inputs[|inputs| - 1];
  }

  lemma {:induction false} EachAcceptedIff(c: Catalog, rates: map<nat, TaxRate>, kind: DocType, inputs: seq<LineInput>)
    requires LinesKnown(c, rates, inputs)
    ensures BuildEach(c, rates, kind, inputs).Success? <==> forall n :: 0 <= n < |inputs| ==> Acceptable(c, rates, kind, inputs[n])
    decreases |inputs|
  {
    if inputs != [] {
      var front, last := inputs[..|inputs| - 1], inputs[|inputs| - 1];
      LastKnown(c, rates, inputs);
      EachAcceptedIff(c, rates, kind, front);
      assert inputs == front + [last];
      LineAcceptedIff(c, rates, kind, last);
    }
  }

  /** Lines are accepted exactly when every one of them is. */
  lemma LinesAcceptedIff(c: Catalog, rates: map<nat, TaxRate>, kind: DocType, inputs: seq<LineInput>)
    ensures BuildLines(c, rates, kind, inputs).Success? <==> forall n :: 0 <= n < |inputs| ==> Acceptable(c, rates, kind, inputs[n])
  {
    if LinesKnown(c, rates, inputs) {
      EachAcceptedIff(c, rates, kind, inputs);
    }
  }

  // ------------------------------------------------------- sent is sent for good

  lemma OwnVoidKeepsContent(o: Org, id: nat)
    requires OrgInv(o) && VoidDocument(o, id).Success?
    ensures Finished(VoidDocument(o, id).value.docs, id) && Content(VoidDocument(o, id).value.docs[id]) == Content(o.docs[id])
  {
    VoidKeepsOthers(o, id);
  }

  /** No step changes what is written in a document that is no longer a draft. */
  lemma StepKeepsContent(o: Org, op: OrgOp, id: nat)
    requires OrgInv(o) && Finished(o.docs, id) && OrgStep(o, op).Success?
    ensures var docs' := OrgStep(o, op).value.docs; Finished(docs', id) && Content(docs'[id]) == Content(o.docs[id])
  {
    if op.FinalizeOp? && op.id == id {
      var d, moves := FinalizeEffect(o, id, op.filing);
      assert false;
    } else if op.VoidOp? && op.id == id {
      OwnVoidKeepsContent(o, id);
    } else {
      StepUnmoved(o, op, id);
    }
  }

  /** So through any run: once sent, a document stays, and its type, party, date, warehouse,
      source, lines and totals stay as they were. */
  lemma {:induction false} SentIsFixed(o: Org, ops: seq<OrgOp>, id: nat)
    requires OrgInv(o) && Finished(o.docs, id)
    ensures Finished(OrgRun(o, ops).docs, id) && Content(OrgRun(o, ops).docs[id]) == Content(o.docs[id])
    decreases |ops|
  {
    if ops != [] {
      var r := OrgStep(o, ops[0]);
      if r.Success? {
        StepKeepsOrg(o, ops[0]);
        StepKeepsContent(o, ops[0], id);
      }
      SentIsFixed(if r.Success? then r.value else o, ops[1..], id);
    }
  }

  // ------------------------------------------------------- a document and its source

  /** What lines alike in product, description, price, discount and tax come to. */
  function QtyLike(lines: seq<DocLine>, like: LineInput): int {
    if lines == [] then 0
    else
      var i := lines[|lines| - 1].input;
      QtyLike(lines[..|lines| - 1], like)
      + (if i.product == like.product && i.description == like.description && i.unitPrice == like.unitPrice
            && i.discountType == like.discountType && i.discountValue == like.discountValue && i.taxRate == like.taxRate
         then i.quantity else 0)
  }

  lemma {:induction false} QuantitiesLike(lines: seq<DocLine>, like: LineInput)
    ensures QtyLike(lines, like) == if SignatureOf(like) in LineQuantities(lines) then LineQuantities(lines)[SignatureOf(like)] else 0
  {
    if lines != [] {
      QuantitiesLike(lines[..|lines| - 1], like);
    }
  }

  lemma GuardedLike(source: Document, d: Document, like: LineInput)
    requires GuardConvertedLines(source, d).Pass?
    ensures if d.kind.CreditNote? then QtyLike(d.lines, like) <= QtyLike(source.lines, like) else QtyLike(d.lines, like) == QtyLike(source.lines, like)
  {
    QuantitiesLike(d.lines, like);
    QuantitiesLike(source.lines, like);
    QuantitiesPositive(source.lines);
  }

  /** A sent document agrees with the one it came from: a conversion there may be, the same
      party, and line for line alike the same quantity, or no more on a credit note. */
  ghost predicate AgreesWithSource(docs: Docs, id: nat, like: LineInput) {
    Finished(docs, id) && Live(docs[id]) && docs[id].source.Some? ==>
      && Finished(docs, docs[id].source.value)
      && var d, source := docs[id], docs[docs[id].source.value];
         && MayBecome(source.kind, d.kind) && d.party == source.party
         && (if d.kind.CreditNote? then QtyLike(d.lines, like) <= QtyLike(source.lines, like)
             else QtyLike(d.lines, like) == QtyLike(source.lines, like))
  }

  lemma FinalizedAgrees(o: Org, id: nat, filing: Filing, like: LineInput)
    requires OrgInv(o) && Finalize(o, id, filing).Success?
    ensures AgreesWithSource(Finalize(o, id, filing).value.docs, id, like)
  {
    var d, moves := FinalizeEffect(o, id, filing);
    FinalWrites(o.docs, d, moves, filing);
    if d.source.Some? {
      var s := d.source.value;
      assert Linked(o.docs, id);
      GuardedLike(o.docs[s], d, like);
      FinalizeFigures(o, id, filing, s);
    }
  }

  /** What a live document came from is not voided under it. */
  lemma SourceStays(o: Org, op: OrgOp, id: nat)
    requires OrgInv(o) && OrgStep(o, op).Success? && Finished(o.docs, id) && Live(o.docs[id]) && o.docs[id].source.Some?
    requires Finished(o.docs, o.docs[id].source.value)
    ensures var s, docs' := o.docs[id].source.value, OrgStep(o, op).value.docs; Finished(docs', s) && Content(docs'[s]) == Content(o.docs[s])
  {
    StepKeepsContent(o, op, o.docs[id].source.value);
  }

  lemma StepAgrees(o: Org, op: OrgOp, id: nat, like: LineInput)
    requires OrgInv(o) && AgreesWithSource(o.docs, id, like) && OrgStep(o, op).Success?
    ensures AgreesWithSource(OrgStep(o, op).value.docs, id, like)
  {
    if op.FinalizeOp? && op.id == id {
      FinalizedAgrees(o, id, op.filing, like);
    } else if op.VoidOp? && op.id == id {
      VoidKeepsOthers(o, id);
    } else {
      StepUnmoved(o, op, id);
      if Finished(o.docs, id) && Live(o.docs[id]) && o.docs[id].source.Some? {
        SourceStays(o, op, id);
        SameAgreement(o.docs, OrgStep(o, op).value.docs, id, like);
      }
    }
  }

  lemma SameAgreement(docs: Docs, docs': Docs, id: nat, like: LineInput)
    requires AgreesWithSource(docs, id, like) && Finished(docs, id) && Live(docs[id]) && docs[id].source.Some?
    requires Finished(docs', id) && Content(docs'[id]) == Content(docs[id])
    requires Finished(docs', docs[id].source.value) && Content(docs'[docs[id].source.value]) == Content(docs[docs[id].source.value])
    ensures AgreesWithSource(docs', id, like)
  {
  }

  lemma {:induction false} RunAgrees(o: Org, ops: seq<OrgOp>, id: nat, like: LineInput)
    requires OrgInv(o) && AgreesWithSource(o.docs, id, like)
    ensures AgreesWithSource(OrgRun(o, ops).docs, id, like)
    decreases |ops|
  {
    if ops != [] {
      var r := OrgStep(o, ops[0]);
      if r.Success? {
        StepKeepsOrg(o, ops[0]);
        StepAgrees(o, ops[0], id, like);
      }
      RunAgrees(if r.Success? then r.value else o, ops[1..], id, like);
    }
  }

  /** In every run a sent document agrees with the one it came from. */
  lemma SourcesAgreeInRuns(o: Org, ops: seq<OrgOp>, id: nat, like: LineInput)
    requires IsNew(o)
    ensures AgreesWithSource(OrgRun(o, ops).docs, id, like)
  {
    NewOrgOk(o);
    RunAgrees(o, ops, id, like);
  }
}
