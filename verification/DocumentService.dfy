/** The document service as the object it is: documents change in place, with the
    stock and ledger services it is connected to; a call that raises is rolled back. */
module DocumentServices {
  import opened Basics
  import opened SerialNumbers
  import opened StockTables
  import opened Tracking
  import opened Inventory
  import opened InventoryServices
  import opened DocumentTables
  import opened Rounding
  import opened Pricing
  import opened DocumentStock
  import opened LedgerTables
  import opened Ledger
  import opened Poster
  import opened PostingServices
  import opened PosterServices
  import opened Documents

  /** A call did to the organization what its specification says, or was rolled back. */
  predicate Done(r: Check, spec: Result<Org>, before: Org, after: Org) {
    match spec
    case Success(o) => r.Pass? && after == o
    case Failure(e) => r == Fail(e) && after == before
  }

  // ------------------------------------------------------------ prefixes of loops

  lemma {:induction false} PrefixFails(s: Stock, c: Catalog, id: nat, kind: DocType, reverse: bool, some: seq<Posting>, all: seq<Posting>, costs: map<CostKey, Option<int>>)
    requires some <= all && PostAll(s, c, id, kind, reverse, some, costs).Failure?
    ensures PostAll(s, c, id, kind, reverse, all, costs) == Failure(PostAll(s, c, id, kind, reverse, some, costs).error)
    decreases |all|
  {
    if |some| < |all| {
      PrefixFails(s, c, id, kind, reverse, some, all[..|all| - 1], costs);
    } else {
      assert some == all;
    }
  }

  lemma {:induction false} LinesPrefix(c: Catalog, lines: seq<LineInput>, location: nat, i: nat)
    requires i < |lines| && forall l :: l in lines ==> l.product.Some?
    ensures AllPostings(c, lines[..i], location) + LinePostings(c, lines[i], location) <= AllPostings(c, lines, location)
    decreases |lines|
  {
    var front := lines[..|lines| - 1];
    if i < |front| {
      LinesPrefix(c, front, location, i);
      assert front[..i] == lines[..i];
    }
  }

  lemma {:induction false} LotsPrefix(i: LineInput, location: nat, lots: seq<LotAllocation>, j: nat)
    requires j <= |lots| && i.product.Some?
    ensures LotPostings(i, location, lots[..j]) <= LotPostings(i, location, lots)
    decreases |lots|
  {
    if j < |lots| {
      var front := lots[..|lots| - 1];
      LotsPrefix(i, location, front, j);
      assert front[..j] == lots[..j];
    } else {
      assert lots[..j] == lots;
    }
  }

  lemma NextLot(done: seq<Posting>, i: LineInput, location: nat, j: nat)
    requires i.product.Some? && j < |i.lots|
    ensures done + LotPostings(i, location, i.lots[..j + 1]) ==
              done + LotPostings(i, location, i.lots[..j])
              + [Posting(Key(i.product.value, location, i.bin, Some(i.lots[j].lot)), i.lots[j].quantity, [], i.unitPrice)]
  {
    assert i.lots[..j + 1][..j] == i.lots[..j];
  }

  lemma OneMoreLine(lines: seq<DocLine>, line: DocLine)
    ensures SubtotalOf(lines + [line]) == SubtotalOf(lines) + Base(line.input)
    ensures DiscountTotalOf(lines + [line]) == DiscountTotalOf(lines) + line.discount
    ensures TaxTotalOf(lines + [line]) == TaxTotalOf(lines) + line.tax
  {
    assert (lines + [line])[..|lines|] == lines;
  }

  // ------------------------------------------------------- finalizing in phases

  /** The documents once a placed draft has settled its invoice. */
  function CreditedDocs(docs: Docs, id: nat, d: Document): Result<Docs> {
    if d.source.None? || d.source.value !in docs then Success(docs[id := d])
    else
      var source :- CreditedSource(docs[d.source.value], d);
      Success(docs[d.source.value := source][id := d.(settled := if Credits(docs, d) then d.total else d.settled)])
  }

  /** The organization once the credit is settled and the goods have moved. */
  function CreditedAndMoved(o: Org, id: nat, d: Document): Result<Org> {
    var moves := MovesStock(o.docs, d);
    var docs :- CreditedDocs(o.docs, id, d);
    var stock :- if moves then PostStock(o.stock, o.catalog, id, d, false) else Success(o.stock);
    Success(o.(stock := stock, docs := docs[id := docs[id].(stockPosted := moves)]))
  }

  /** And once its voucher is posted too. */
  function MovedAndPosted(o: Org, id: nat, d: Document): Result<Org> {
    var moved :- CreditedAndMoved(o, id, d);
    var books :- PostDocument(o.books, o.roles, id, d.(stockPosted := MovesStock(o.docs, d)), StockValue(MovementsOf(moved.stock.movements, id)),
                              SourceMoved(o.docs, d));
    Success(moved.(books := books))
  }

  function CloseOrder(docs: Docs, source: Option<nat>): Docs {
    if source.Some? && source.value in docs && IsOrder(docs[source.value].kind)
    then docs[source.value := docs[source.value].(status := ClosedDoc)] else docs
  }

  /** The documents once the draft is sent and the order it came from closed. */
  function Sealed(docs: Docs, id: nat, filed: bool): Docs
    requires id in docs
  {
    var d := docs[id];
    var paid := if d.kind.SalesReceipt? then ApplySettlement(d, d.total - d.paid) else d;
    CloseOrder(docs[id := paid.(status := SentDoc, filed := filed)], d.source)
  }

  lemma ReadyIsPlaced(o: Org, id: nat)
    requires ReadyToFinalize(o, id).Success?
    ensures id in o.docs
    ensures var d := ReadyToFinalize(o, id).value;
            && d.(warehouse := o.docs[id].warehouse) == o.docs[id]
            && (d.source.Some? ==> d.source.value in o.docs && d.source.value != id)
  {
    assert GuardSource(o.docs, o.docs[id]).Pass?;
  }

  /** The two ways of saying it, for a document that came from none. */
  lemma SealedAlone(docs: Docs, id: nat, d: Document, moves: bool, filing: Filing)
    requires id in docs && d.source.None?
    ensures CreditedDocs(docs, id, d) == Success(docs[id := d]) && SourcesAfter(docs, d) == Success(docs)
    ensures Sealed(docs[id := d.(stockPosted := moves)], id, filing.Filed? && (d.kind.Invoice? || d.kind.CreditNote?))
            == docs[id := FinalDocument(docs, d, moves, filing)]
  {
  }

  /** And for one with a source, which is credited, then closed if it is an order. */
  lemma SealedWithSource(docs: Docs, id: nat, d: Document, moves: bool, filing: Filing, source: Document)
    requires id in docs && d.source.Some? && d.source.value in docs && d.source.value != id
    requires CreditedSource(docs[d.source.value], d) == Success(source)
    ensures var settled := d.(settled := if Credits(docs, d) then d.total else d.settled, stockPosted := moves);
            Sealed(docs[d.source.value := source][id := settled], id, filing.Filed? && (d.kind.Invoice? || d.kind.CreditNote?))
            == docs[d.source.value := if IsOrder(docs[d.source.value].kind) then source.(status := ClosedDoc) else source]
                   [id := FinalDocument(docs, d, moves, filing)]
  {
    var s := d.source.value;
    var f := FinalDocument(docs, d, moves, filing);
    assert source.kind == docs[s].kind;
    var sent := docs[s := source][id := f];
    assert sent[s] == source;
  }

  lemma SealedIsFinal(docs: Docs, id: nat, d: Document, moves: bool, filing: Filing)
    requires id in docs && (d.source.Some? ==> d.source.value in docs && d.source.value != id)
    ensures CreditedDocs(docs, id, d).Success? <==> SourcesAfter(docs, d).Success?
    ensures CreditedDocs(docs, id, d).Failure? ==> CreditedDocs(docs, id, d).error == SourcesAfter(docs, d).error
    ensures CreditedDocs(docs, id, d).Success? ==>
              var credited := CreditedDocs(docs, id, d).value;
              && id in credited
              && Sealed(credited[id := credited[id].(stockPosted := moves)], id, filing.Filed? && (d.kind.Invoice? || d.kind.CreditNote?))
                 == SourcesAfter(docs, d).value[id := FinalDocument(docs, d, moves, filing)]
  {
    if d.source.None? {
      SealedAlone(docs, id, d, moves, filing);
      assert docs[id := d][id := d.(stockPosted := moves)] == docs[id := d.(stockPosted := moves)];
    } else if CreditedDocs(docs, id, d).Success? {
      var s := d.source.value;
      var source := CreditedSource(docs[s], d).value;
      SealedWithSource(docs, id, d, moves, filing, source);
      var settled := d.(settled := if Credits(docs, d) then d.total else d.settled);
      assert docs[s := source][id := settled][id := settled.(stockPosted := moves)] == docs[s := source][id := settled.(stockPosted := moves)];
    }
  }

  /** What comes after the phases: filing, and the document sealed. */
  function Finished(moved: Result<Org>, id: nat, d: Document, filing: Filing): Result<Org> {
    match moved
    case Failure(e) => Failure(e)
    case Success(p) =>
      if (d.kind.Invoice? || d.kind.CreditNote?) && filing.Rejected? then Failure(BadRequest)
      else if id in p.docs then Success(p.(docs := Sealed(p.docs, id, filing.Filed? && (d.kind.Invoice? || d.kind.CreditNote?))))
      else Success(p)
  }

  /** Finalizing is its phases, one after another. */
  lemma FinalizeInPhases(o: Org, id: nat, d: Document, filing: Filing)
    requires id in o.docs && (d.source.Some? ==> d.source.value in o.docs && d.source.value != id)
    ensures SendOff(o, id, d, filing) == Finished(MovedAndPosted(o, id, d), id, d, filing)
    ensures MovedAndPosted(o, id, d).Success? ==> id in MovedAndPosted(o, id, d).value.docs
  {
    SealedIsFinal(o.docs, id, d, MovesStock(o.docs, d), filing);
  }

  lemma SerialsDoNotPrice(i: LineInput, serials: seq<string>, rates: map<nat, TaxRate>)
    ensures PricedLine(i.(serials := serials), rates) == DocLine(i.(serials := serials), DiscountOf(i), TaxOf(i, rates), Taxable(i) + TaxOf(i, rates))
  {
  }

  class DocumentService {
    const inventory: InventoryService
    const ledger: LedgerPoster
    var docs: Docs
    var next: nat
    var rates: map<nat, TaxRate>

    constructor (inventory: InventoryService, ledger: LedgerPoster)
      ensures this.inventory == inventory && this.ledger == ledger
      ensures docs == map[] && next == 0 && rates == map[]
    {
      this.inventory, this.ledger := inventory, ledger;
      docs, next, rates := map[], 0, map[];
    }

    function State(): Org
      reads this, inventory, ledger, ledger.posting
    {
      Org(inventory.catalog, inventory.State(), ledger.posting.State(), ledger.roles, docs, next, rates)
    }

    // ---------------------------------------------------------------- lines

    /** The discount and the tax of one line of `_build_lines`, to the cent. */
    method PriceLine(i: LineInput) returns (discount: int, taxable: int, tax: int)
      ensures discount == DiscountOf(i) && taxable == Taxable(i) && tax == TaxOf(i, rates)
    {
      var base := HalfEven(i.quantity * i.unitPrice, 1000);
      if i.discountType.Percent? {
        discount := HalfEven(base * i.discountValue, 10000);
      } else {
        discount := i.discountValue;
      }
      if base < discount {
        discount := base;
      }
      taxable := base - discount;
      tax := HalfEven(taxable * RateOf(rates, i.taxRate), 100000);
    }

    /** One line of `_build_lines`, priced and checked. */
    method MakeLine(kind: DocType, i: LineInput) returns (r: Result<DocLine>)
      ensures r == BuildLine(inventory.catalog, rates, kind, i)
    {
      var discount, taxable, tax := PriceLine(i);
      if !BinEnabled(kind) && (i.lots != [] || i.serials != []) {
        return Failure(BadRequest);
      }
      if i.lots != [] && (i.product.None? || !ModeOf(inventory.catalog, i.product.value).LotTracked?) {
        return Failure(BadRequest);
      }
      if i.serials != [] && (i.product.None? || !ModeOf(inventory.catalog, i.product.value).SerialTracked?) {
        return Failure(BadRequest);
      }
      if i.product.Some? {
        if exists a :: a in i.lots && !LotOf(inventory.catalog, a.lot, i.product.value) {
          return Failure(NotFound);
        }
      }
      if !LotsDistinct(i.lots) {
        return Failure(BadRequest);
      }
      var serials := NormalizeSerials(i.serials);
      if serials.Failure? {
        return Failure(serials.error);
      }
      SerialsDoNotPrice(i, serials.value, rates);
      r := Success(DocLine(i.(serials := serials.value), discount, tax, taxable + tax));
    }

    /** `_build_lines`: the lines and their running totals. */
    method MakeLines(kind: DocType, inputs: seq<LineInput>) returns (r: Result<seq<DocLine>>, subtotal: int, discountTotal: int, taxTotal: int)
      ensures r == BuildLines(inventory.catalog, rates, kind, inputs)
      ensures r.Success? ==> subtotal == SubtotalOf(r.value) && discountTotal == DiscountTotalOf(r.value) && taxTotal == TaxTotalOf(r.value)
    {
      subtotal, discountTotal, taxTotal := 0, 0, 0;
      if !LinesKnown(inventory.catalog, rates, inputs) {
        return Failure(NotFound), 0, 0, 0;
      }
      var lines: seq<DocLine> := [];
      for i := 0 to |inputs|
        invariant BuildEach(inventory.catalog, rates, kind, inputs[..i]) == Success(lines)
        invariant subtotal == SubtotalOf(lines) && discountTotal == DiscountTotalOf(lines) && taxTotal == TaxTotalOf(lines)
      {
        var line := MakeLine(kind, inputs[i]);
        assert inputs[..i + 1][..i] == inputs[..i];
        if line.Failure? {
          BuildFails(kind, inputs, i + 1);
          return Failure(line.error), 0, 0, 0;
        }
        OneMoreLine(lines, line.value);
        lines := lines + [line.value];
        subtotal := subtotal + Base(line.value.input);
        discountTotal := discountTotal + line.value.discount;
        taxTotal := taxTotal + line.value.tax;
      }
      assert inputs[..|inputs|] == inputs;
      r := Success(lines);
    }

    lemma {:induction false} BuildFails(kind: DocType, inputs: seq<LineInput>, n: nat)
      requires n <= |inputs| && BuildEach(inventory.catalog, rates, kind, inputs[..n]).Failure?
      ensures BuildEach(inventory.catalog, rates, kind, inputs) == Failure(BuildEach(inventory.catalog, rates, kind, inputs[..n]).error)
      decreases |inputs|
    {
      if n < |inputs| {
        var front := inputs[..|inputs| - 1];
        assert front[..n] == inputs[..n];
        BuildFails(kind, front, n);
      } else {
        assert inputs[..n] == inputs;
      }
    }

    /** `_line_quantities`. */
    method CountLines(lines: seq<DocLine>) returns (quantities: map<Signature, int>)
      ensures quantities == LineQuantities(lines)
    {
      quantities := map[];
      for i := 0 to |lines|
        invariant quantities == LineQuantities(lines[..i])
      {
        var signature := SignatureOf(lines[i].input);
        assert lines[..i + 1][..i] == lines[..i];
        quantities := quantities[signature := (if signature in quantities then quantities[signature] else 0) + lines[i].input.quantity];
      }
      assert lines[..|lines|] == lines;
    }

    /** `_guard_source_for_finalize`. */
    method CheckSource(d: Document) returns (r: Check)
      ensures r == GuardSource(docs, d)
    {
      if d.source.None? {
        return Pass;
      }
      if d.source.value !in docs {
        return Fail(BadRequest);
      }
      var source := docs[d.source.value];
      if !Converts(source.kind, d.kind) || !ActiveSource(source) || d.party != source.party {
        return Fail(BadRequest);
      }
      var have := CountLines(source.lines);
      var want := CountLines(d.lines);
      if d.kind.CreditNote? {
        if exists s :: s in want && (s !in have || want[s] > have[s]) {
          return Fail(BadRequest);
        }
        return Pass;
      }
      r := if want == have then Pass else Fail(BadRequest);
    }

    // -------------------------------------------------------------- drafts

    /** A new draft's row, with the totals of its lines. */
    method AddDraft(kind: DocType, party: Option<nat>, warehouse: Option<nat>, issued: Day, source: Option<nat>, lines: seq<DocLine>,
                    subtotal: int, discountTotal: int, taxTotal: int, shipping: int, adjustment: int, paidThrough: Option<nat>)
      requires subtotal == SubtotalOf(lines) && discountTotal == DiscountTotalOf(lines) && taxTotal == TaxTotalOf(lines)
      modifies this`docs, this`next
      ensures docs == old(docs)[old(next) := NewDocument(kind, party, warehouse, issued, source, lines, shipping, adjustment, paidThrough)]
      ensures next == old(next) + 1
    {
      var d := Document(kind, DraftDoc, party, warehouse, issued, source, lines, 0, 0, 0, shipping, adjustment, 0, 0, 0, Unpaid, 0, false, false, paidThrough);
      docs := docs[next := WithTotals(d, subtotal, discountTotal, taxTotal)];
      next := next + 1;
    }

    /** `create`. */
    method CreateDraft(kind: DocType, i: DocInput) returns (r: Check)
      modifies this
      ensures Done(r, Create(old(State()), kind, i), old(State()), State())
    {
      if i.party.None? && !kind.SalesReceipt? {
        return Fail(BadRequest);
      }
      if i.party.Some? && i.party.value !in ledger.posting.parties {
        return Fail(NotFound);
      }
      if i.warehouse.Some? && !ActiveLocation(inventory.catalog, i.warehouse.value) {
        return Fail(NotFound);
      }
      var lines, subtotal, discountTotal, taxTotal := MakeLines(kind, i.lines);
      if lines.Failure? {
        return Fail(lines.error);
      }
      r := CheckLineBins(inventory.catalog, kind, i.warehouse, lines.value);
      if r.Fail? {
        return;
      }
      AddDraft(kind, i.party, i.warehouse, i.issued, None, lines.value, subtotal, discountTotal, taxTotal, i.shipping, i.adjustment,
               if kind.SalesReceipt? then i.paidThrough else None);
    }

    /** `convert`. */
    method ConvertTo(id: nat, target: DocType, today: Day) returns (r: Check)
      modifies this
      ensures Done(r, Convert(old(State()), id, target, today), old(State()), State())
    {
      if id !in docs {
        return Fail(NotFound);
      }
      var source := docs[id];
      if !Converts(source.kind, target) || !source.status.SentDoc? || ActiveDependents(docs, id, None) != {} {
        return Fail(BadRequest);
      }
      var lines, subtotal, discountTotal, taxTotal := MakeLines(target, CarriedInputs(source.lines, PreservesGoods(source, target)));
      if lines.Failure? {
        return Fail(lines.error);
      }
      AddDraft(target, source.party, source.warehouse, today, Some(id), lines.value, subtotal, discountTotal, taxTotal, source.shipping, source.adjustment, None);
      r := Pass;
    }

    /** The header fields an edit gives, each checked as it is set. */
    method EditHeader(d: Document, u: DocUpdate) returns (r: Result<Document>)
      ensures r == if (u.party.Some? ==> u.party.value in ledger.posting.parties)
                      && (u.warehouse.Some? && u.warehouse.value.Some? ==> ActiveLocation(inventory.catalog, u.warehouse.value.value))
                   then Success(Edited(d, u)) else Failure(NotFound)
    {
      var edited := d;
      if u.party.Some? {
        if u.party.value !in ledger.posting.parties {
          return Failure(NotFound);
        }
        edited := edited.(party := u.party);
      }
      if u.warehouse.Some? {
        if u.warehouse.value.Some? && !ActiveLocation(inventory.catalog, u.warehouse.value.value) {
          return Failure(NotFound);
        }
        edited := edited.(warehouse := u.warehouse.value);
      }
      if u.issued.Some? {
        edited := edited.(issued := u.issued.value);
      }
      if u.shipping.Some? {
        edited := edited.(shipping := u.shipping.value);
      }
      if u.adjustment.Some? {
        edited := edited.(adjustment := u.adjustment.value);
      }
      r := Success(edited);
    }

    /** The lines an edit gives, or the ones there are, and the totals over them. */
    method EditLines(d: Document, lines: Option<seq<LineInput>>) returns (r: Result<Document>)
      ensures r == Relined(inventory.catalog, rates, d, lines)
    {
      var stored, subtotal, discountTotal, taxTotal := Success(d.lines), d.subtotal, d.discountTotal, d.taxTotal;
      if lines.Some? {
        stored, subtotal, discountTotal, taxTotal := MakeLines(d.kind, lines.value);
        if stored.Failure? {
          return Failure(stored.error);
        }
      }
      var check := CheckLineBins(inventory.catalog, d.kind, d.warehouse, stored.value);
      r := if check.Fail? then Failure(check.error) else Success(WithTotals(d.(lines := stored.value), subtotal, discountTotal, taxTotal));
    }

    /** `update`. */
    method EditDraft(id: nat, u: DocUpdate) returns (r: Check)
      modifies this`docs
      ensures Done(r, Update(old(State()), id, u), old(State()), State())
    {
      if id !in docs {
        return Fail(NotFound);
      }
      if !docs[id].status.DraftDoc? {
        return Fail(BadRequest);
      }
      var edited := EditHeader(docs[id], u);
      if edited.Failure? {
        return Fail(edited.error);
      }
      edited := EditLines(edited.value, u.lines);
      if edited.Failure? {
        return Fail(edited.error);
      }
      docs := docs[id := edited.value];
      r := Pass;
    }

    /** `_reopen_order_source`. */
    method ReopenSource(source: Option<nat>, leaving: nat)
      modifies this`docs
      ensures docs == ReopenOrder(old(docs), source, leaving)
    {
      if source.Some? && source.value in docs {
        var s := docs[source.value];
        if IsOrder(s.kind) && s.status.ClosedDoc? && ActiveDependents(docs, source.value, Some(leaving)) == {} {
          docs := docs[source.value := s.(status := SentDoc)];
        }
      }
    }

    /** `delete`. */
    method DeleteDraft(id: nat) returns (r: Check)
      modifies this`docs
      ensures Done(r, Delete(old(State()), id), old(State()), State())
    {
      if id !in docs {
        return Fail(NotFound);
      }
      if !docs[id].status.DraftDoc? {
        return Fail(BadRequest);
      }
      var source := docs[id].source;
      docs := docs - {id};
      ReopenSource(source, id);
      r := Pass;
    }

    // --------------------------------------------------------------- goods

    /** `_posted_unit_costs`. */
    method ReadPostedCosts(id: nat) returns (costs: map<CostKey, Option<int>>)
      ensures costs == PostedCosts(MovementsOf(inventory.movements, id))
    {
      costs := map[];
      for i := 0 to |inventory.movements|
        invariant costs == PostedCosts(MovementsOf(inventory.movements[..i], id))
      {
        var m := inventory.movements[i];
        assert inventory.movements[..i + 1][..i] == inventory.movements[..i];
        ghost var mine := MovementsOf(inventory.movements[..i], id);
        assert (mine + [m])[..|mine|] == mine;
        if m.ref == DocumentRef(id) {
          costs := costs[CostKeyOf(m.key) := m.unitCost];
        }
      }
      assert inventory.movements[..|inventory.movements|] == inventory.movements;
    }

    /** One movement of a document, with the serials of its line. */
    method MovePosting(id: nat, kind: DocType, reverse: bool, p: Posting, costs: map<CostKey, Option<int>>) returns (r: Check)
      modifies inventory
      ensures inventory.catalog == old(inventory.catalog)
      ensures Did(r, PostOne(old(inventory.State()), inventory.catalog, id, kind, reverse, p, costs), old(inventory.State()), inventory.State())
    {
      var before := inventory.State();
      var movement := |inventory.movements|;
      r := inventory.ApplyDocumentMovement(MovementFor(inventory.catalog, id, kind, reverse, p, costs));
      if r.Pass? && ModeOf(inventory.catalog, p.key.product).SerialTracked? {
        r := inventory.MoveSerials(p.key.product, p.key.location, p.key.bin, p.serials, movement,
                                   DirectionOf(kind, reverse) > 0, Cause(MovementOf(kind), reverse));
        if r.Fail? {
          inventory.Restore(before);
        }
      }
    }

    /** The next movement after those already made. */
    method MoveNext(before: Stock, ghost done: seq<Posting>, id: nat, kind: DocType, reverse: bool, p: Posting, costs: map<CostKey, Option<int>>)
      returns (r: Check)
      requires PostAll(before, inventory.catalog, id, kind, reverse, done, costs) == Success(inventory.State())
      modifies inventory
      ensures inventory.catalog == old(inventory.catalog)
      ensures match PostAll(before, inventory.catalog, id, kind, reverse, done + [p], costs)
              case Success(s) => r.Pass? && inventory.State() == s
              case Failure(e) => r == Fail(e)
    {
      assert (done + [p])[..|done|] == done;
      r := MovePosting(id, kind, reverse, p, costs);
    }

    /** `_post_stock`: line by line in product order, and lot by lot within a line. */
    method MoveGoods(id: nat, d: Document, reverse: bool) returns (r: Check)
      modifies inventory
      ensures inventory.catalog == old(inventory.catalog)
      ensures Did(r, PostStock(old(inventory.State()), inventory.catalog, id, d, reverse), old(inventory.State()), inventory.State())
    {
      if Direction(d.kind) == 0 || d.warehouse.None? {
        return Pass;
      }
      var before, catalog, location := inventory.State(), inventory.catalog, d.warehouse.value;
      var costs: map<CostKey, Option<int>> := map[];
      if reverse {
        costs := ReadPostedCosts(id);
      }
      var lines := Trackable(d.lines);
      ghost var done: seq<Posting> := [];
      for i := 0 to |lines|
        invariant inventory.catalog == catalog
        invariant done == AllPostings(catalog, lines[..i], location)
        invariant PostAll(before, catalog, id, d.kind, reverse, done, costs) == Success(inventory.State())
      {
        assert lines[..i + 1][..i] == lines[..i];
        LinesPrefix(catalog, lines, location, i);
        r := MoveLine(before, done, id, d.kind, reverse, lines[i], location, costs);
        if r.Fail? {
          PrefixFails(before, catalog, id, d.kind, reverse, done + LinePostings(catalog, lines[i], location), Postings(catalog, d), costs);
          inventory.Restore(before);
          return;
        }
        done := done + LinePostings(catalog, lines[i], location);
      }
      assert lines[..|lines|] == lines;
      r := Pass;
    }

    method MoveLine(before: Stock, ghost done: seq<Posting>, id: nat, kind: DocType, reverse: bool, l: LineInput, location: nat, costs: map<CostKey, Option<int>>)
      returns (r: Check)
      requires l.product.Some?
      requires PostAll(before, inventory.catalog, id, kind, reverse, done, costs) == Success(inventory.State())
      modifies inventory
      ensures inventory.catalog == old(inventory.catalog)
      ensures match PostAll(before, inventory.catalog, id, kind, reverse, done + LinePostings(inventory.catalog, l, location), costs)
              case Success(s) => r.Pass? && inventory.State() == s
              case Failure(e) => r == Fail(e)
    {
      var catalog := inventory.catalog;
      ghost var all := done + LinePostings(catalog, l, location);
      if l.product.value !in catalog.products || !catalog.products[l.product.value].tracked {
        assert done + [] == done;
        return Pass;
      }
      if !catalog.products[l.product.value].mode.LotTracked? {
        var p := Posting(Key(l.product.value, location, l.bin, None), l.quantity, l.serials, l.unitPrice);
        r := MoveNext(before, done, id, kind, reverse, p, costs);
        return;
      }
      r := MoveLots(before, done, id, kind, reverse, l, location, costs);
    }

    method MoveLots(before: Stock, ghost done: seq<Posting>, id: nat, kind: DocType, reverse: bool, l: LineInput, location: nat, costs: map<CostKey, Option<int>>)
      returns (r: Check)
      requires l.product.Some?
      requires PostAll(before, inventory.catalog, id, kind, reverse, done, costs) == Success(inventory.State())
      modifies inventory
      ensures inventory.catalog == old(inventory.catalog)
      ensures match PostAll(before, inventory.catalog, id, kind, reverse, done + LotPostings(l, location, l.lots), costs)
              case Success(s) => r.Pass? && inventory.State() == s
              case Failure(e) => r == Fail(e)
    {
      ghost var catalog, made := inventory.catalog, done;
      assert done + LotPostings(l, location, l.lots[..0]) == done;
      for j := 0 to |l.lots|
        invariant inventory.catalog == catalog
        invariant made == done + LotPostings(l, location, l.lots[..j])
        invariant PostAll(before, catalog, id, kind, reverse, made, costs) == Success(inventory.State())
      {
        var a := l.lots[j];
        var p := Posting(Key(l.product.value, location, l.bin, Some(a.lot)), a.quantity, [], l.unitPrice);
        NextLot(done, l, location, j);
        r := MoveNext(before, made, id, kind, reverse, p, costs);
        made := made + [p];
        if r.Fail? {
          LotsPrefix(l, location, l.lots, j + 1);
          PrefixFails(before, catalog, id, kind, reverse, made, done + LotPostings(l, location, l.lots), costs);
          return;
        }
      }
      assert l.lots[..|l.lots|] == l.lots;
      r := Pass;
    }

    // ----------------------------------------------------------- finalizing

    /** What the untracked lines take from each bin, and the bins in order of mention. */
    method CountRequired(lines: seq<DocLine>) returns (required: map<BinKey, int>, order: seq<BinKey>)
      ensures required == Required(inventory.catalog, lines) && order == RequiredOrder(inventory.catalog, lines)
    {
      required, order := map[], [];
      for i := 0 to |lines|
        invariant required == Required(inventory.catalog, lines[..i]) && order == RequiredOrder(inventory.catalog, lines[..i])
      {
        var input := lines[i].input;
        assert lines[..i + 1][..i] == lines[..i];
        if NeedsBinStock(inventory.catalog, input) {
          var key := BinKeyOf(input);
          if key in required {
            required := required[key := required[key] + input.quantity];
          } else {
            required, order := required[key := input.quantity], order + [key];
          }
        }
      }
      assert lines[..|lines|] == lines;
    }

    /** `_preflight_outbound_stock`. */
    method CheckOutbound(d: Document) returns (r: Check)
      ensures r == Preflight(inventory.State(), inventory.catalog, d)
    {
      if d.warehouse.None? {
        return Pass;
      }
      r := CheckLots(inventory.State(), inventory.catalog, d.warehouse.value, d.lines);
      if r.Fail? {
        return;
      }
      var required, order := CountRequired(d.lines);
      for i := 0 to |order|
        invariant CheckRequired(inventory.State(), inventory.catalog, d.warehouse.value, required, order)
                  == CheckRequired(inventory.State(), inventory.catalog, d.warehouse.value, required, order[i..])
      {
        assert order[i..][1..] == order[i + 1..];
        if !ActiveLocation(inventory.catalog, d.warehouse.value) || !UsableBin(inventory.catalog, d.warehouse.value, order[i].1) {
          return Fail(NotFound);
        }
        var available := inventory.SumBin(order[i].0, d.warehouse.value, order[i].1);
        if available < required[order[i]] {
          return Fail(BadRequest);
        }
      }
      r := Pass;
    }

    /** Everything `finalize` checks before it changes anything, and the document with
        its warehouse. */
    method CheckReady(id: nat) returns (r: Result<Document>)
      ensures r == ReadyToFinalize(State(), id)
    {
      if id !in docs {
        return Failure(NotFound);
      }
      var d := docs[id];
      if !d.status.DraftDoc? || d.lines == [] {
        return Failure(BadRequest);
      }
      var check := CheckSource(d);
      if check.Fail? {
        return Failure(check.error);
      }
      var moves := MovesStock(docs, d);
      var placed := Placed(inventory.catalog, d, moves);
      if placed.Failure? {
        return placed;
      }
      d := placed.value;
      if moves {
        check := CheckTracking(inventory.State(), inventory.catalog, d, d.lines);
        if check.Fail? {
          return Failure(check.error);
        }
      }
      if moves && Direction(d.kind) < 0 {
        check := CheckOutbound(d);
        if check.Fail? {
          return Failure(check.error);
        }
      }
      r := Success(d);
    }

    /** `_apply_credit`, on the document as it was placed: the invoice is credited and
        the note remembers how much. */
    method ApplyCredit(id: nat, d: Document) returns (r: Check)
      requires id in docs && d.source != Some(id)
      modifies this`docs
      ensures match CreditedDocs(old(docs), id, d)
              case Success(after) => r.Pass? && docs == after
              case Failure(e) => r == Fail(e) && docs == old(docs)
    {
      r := Pass;
      if d.kind.CreditNote? && d.source.Some? && d.source.value in docs && docs[d.source.value].status.SentDoc? {
        var source := docs[d.source.value];
        if d.total > source.total - source.paid - source.credited {
          return Fail(BadRequest);
        }
        docs := docs[d.source.value := ApplyCreditSettlement(source, d.total)];
        docs := docs[id := d.(settled := d.total)];
      } else {
        docs := docs[id := d];
        assert CreditedDocs(old(docs), id, d).Success? && docs == CreditedDocs(old(docs), id, d).value;
      }
    }

    /** The first changes of `finalize`: the credit and the goods. */
    method CreditAndMove(id: nat, d: Document) returns (r: Check)
      requires id in docs && d.source != Some(id)
      modifies this`docs, inventory
      ensures Done(r, CreditedAndMoved(old(State()), id, d), old(State()), State())
    {
      ghost var before := State();
      var was, moves := docs, MovesStock(docs, d);
      r := ApplyCredit(id, d);
      if r.Fail? {
        return;
      }
      if moves {
        r := MoveGoods(id, d, false);
        if r.Fail? {
          docs := was;
          return;
        }
      }
      docs := docs[id := docs[id].(stockPosted := moves)];
    }

    /** The changes of `finalize`, up to the voucher: the credit, the goods, the ledger. */
    method MoveAndPost(id: nat, d: Document) returns (r: Check)
      requires id in docs && d.source != Some(id)
      modifies this`docs, inventory, ledger.posting
      ensures Done(r, MovedAndPosted(old(State()), id, d), old(State()), State())
    {
      var was, stock := docs, inventory.State();
      var posted, sourceMoved := d.(stockPosted := MovesStock(docs, d)), SourceMoved(docs, d);
      r := CreditAndMove(id, d);
      if r.Fail? {
        return;
      }
      r := ledger.PostDocumentVoucher(id, posted, inventory.movements, sourceMoved);
      if r.Fail? {
        docs := was;
        inventory.Restore(stock);
      }
    }

    /** The end of `finalize`: a receipt is paid, the document sent, its order closed. */
    method Seal(id: nat, filed: bool)
      requires id in docs
      modifies this`docs
      ensures docs == Sealed(old(docs), id, filed)
    {
      var d := docs[id];
      if d.kind.SalesReceipt? {
        d := ApplySettlement(d, d.total - d.paid);
      }
      d := d.(status := SentDoc);
      d := d.(filed := filed);
      docs := docs[id := d];
      CloseSource(d.source);
    }

    /** An order closes when the document converted from it is finalized. */
    method CloseSource(source: Option<nat>)
      modifies this`docs
      ensures docs == CloseOrder(old(docs), source)
    {
      if source.Some? && source.value in docs {
        var s := docs[source.value];
        if IsOrder(s.kind) {
          docs := docs[source.value := s.(status := ClosedDoc)];
        }
      }
    }

    /** `finalize`. */
    method FinalizeDraft(id: nat, filing: Filing) returns (r: Check)
      modifies this`docs, inventory, ledger.posting
      ensures Done(r, Finalize(old(State()), id, filing), old(State()), State())
    {
      var before := State();
      var ready := CheckReady(id);
      if ready.Failure? {
        return Fail(ready.error);
      }
      ReadyIsPlaced(before, id);
      var d := ready.value;
      FinalizeInPhases(before, id, d, filing);
      r := MoveAndPost(id, d);
      if r.Fail? {
        return;
      }
      if (d.kind.Invoice? || d.kind.CreditNote?) && filing.Rejected? {
        docs := before.docs;
        inventory.Restore(before.stock);
        ledger.posting.Restore(before.books);
        return Fail(BadRequest);
      }
      Seal(id, filing.Filed? && (d.kind.Invoice? || d.kind.CreditNote?));
    }

    // -------------------------------------------------------------- voiding

    /** `_reverse_credit`. */
    method ReverseCredit(id: nat)
      requires id in docs && docs[id].source != Some(id)
      modifies this`docs
      ensures var d := old(docs)[id];
              docs == WithoutCredit(old(docs), d)[id := d.(settled := if d.settled > 0 && d.source.Some? then 0 else d.settled)]
    {
      var d := docs[id];
      if d.settled <= 0 || d.source.None? {
        return;
      }
      if d.source.value in docs {
        docs := docs[d.source.value := ApplyCreditSettlement(docs[d.source.value], -d.settled)];
      }
      docs := docs[id := d.(settled := 0)];
    }

    /** What `void` does to the documents, up to the order. */
    method MarkVoid(id: nat)
      requires id in docs && docs[id].source != Some(id)
      modifies this`docs
      ensures docs == WithoutCredit(old(docs), old(docs)[id])[id := VoidedDocument(old(docs)[id])]
    {
      var d := docs[id];
      ReverseCredit(id);
      docs := docs[id := docs[id].(stockPosted := false)];
      docs := docs[id := docs[id].(status := VoidDoc)];
    }

    /** `void`. A document is never its own source. */
    method VoidFinal(id: nat) returns (r: Check)
      requires id in docs ==> docs[id].source != Some(id)
      modifies this`docs, inventory, ledger.posting
      ensures Done(r, VoidDocument(old(State()), id), old(State()), State())
    {
      r := CheckVoid(docs, id);
      if r.Fail? {
        return;
      }
      var stock, d := inventory.State(), docs[id];
      if d.stockPosted {
        r := MoveGoods(id, d, true);
        if r.Fail? {
          return;
        }
      }
      r := ledger.ReverseVouchersOf(Source(DocumentKind, id), d.issued);
      if r.Fail? {
        inventory.Restore(stock);
        return;
      }
      MarkVoid(id);
      ReopenSource(d.source, id);
    }

    // --------------------------------------------------- settlement and rates

    /** A submitted payment's allocation to one document. */
    method RecordPayment(id: nat, amount: int) returns (r: Check)
      modifies this`docs
      ensures Done(r, Pay(old(State()), id, amount), old(State()), State())
    {
      if id !in docs {
        return Fail(NotFound);
      }
      var d := docs[id];
      if (!d.kind.Invoice? && !d.kind.Bill?) || !d.status.SentDoc? || amount <= 0 || amount > d.total - d.paid {
        return Fail(BadRequest);
      }
      docs := docs[id := ApplySettlement(d, amount)];
      r := Pass;
    }

    /** The allocation taken back. */
    method CancelPayment(id: nat, amount: int) returns (r: Check)
      modifies this`docs
      ensures Done(r, Unpay(old(State()), id, amount), old(State()), State())
    {
      if id !in docs || amount <= 0 {
        return Fail(BadRequest);
      }
      var d := docs[id];
      if (!d.kind.Invoice? && !d.kind.Bill?) || amount > d.paid {
        return Fail(BadRequest);
      }
      docs := docs[id := ApplySettlement(d, -amount)];
      r := Pass;
    }

    /** `update_tax_rate`. */
    method ChangeRate(rate: nat, percent: Option<nat>, active: Option<bool>) returns (r: Check)
      modifies this`rates
      ensures Done(r, UpdateRate(old(State()), rate, percent, active), old(State()), State())
    {
      if rate !in rates {
        return Fail(NotFound);
      }
      if percent.Some? && percent.value != rates[rate].rate && RateInUse(docs, rate) {
        return Fail(Conflict);
      }
      if percent.Some? {
        rates := rates[rate := rates[rate].(rate := percent.value)];
      }
      if active.Some? {
        rates := rates[rate := rates[rate].(active := active.value)];
      }
      r := Pass;
    }

    // ------------------------------------------- stock calls with their vouchers

    method AdjustAndPost(a: AdjustInput, account: Option<nat>, day: Day) returns (r: Check)
      modifies inventory, ledger.posting
      ensures Done(r, Documents.AdjustStock(old(State()), a, account, day), old(State()), State())
    {
      var stock, movement := inventory.State(), |inventory.movements|;
      var value := inventory.AdjustStock(a);
      if value.Failure? {
        return Fail(value.error);
      }
      r := ledger.PostStockValue(StockVoucher, value.value, if account.Some? then Success(account.value) else AccountOf(ledger.roles, StockAdjustments),
                                 day, Source(AdjustmentKind, movement));
      if r.Fail? {
        inventory.Restore(stock);
      }
    }

    method ReplaceOpeningAndPost(product: nat, entries: seq<OpeningStock.OpeningEntry>, order: seq<Key>, day: Day) returns (r: Check)
      modifies inventory, ledger.posting
      ensures Done(r, SetOpening(old(State()), product, entries, order, day), old(State()), State())
    {
      var stock, movement := inventory.State(), |inventory.movements|;
      var value := inventory.ReplaceAllOpening(product, entries, order);
      if value.Failure? {
        return Fail(value.error);
      }
      if |inventory.movements| == movement {
        return Pass;
      }
      r := ledger.PostStockValue(OpeningVoucher, value.value, AccountOf(ledger.roles, OpeningEquity), day, Source(OpeningStockKind, movement));
      if r.Fail? {
        inventory.Restore(stock);
      }
    }
  }
}
