/** What a document's goods cost and where they go: every movement of a sale, delivery or
    return at the price its product has that day, of a purchase at its line's own, out of
    or into the very place its line names. */
module GoodsCost {
  import opened Basics
  import opened SerialNumbers
  import opened StockTables
  import opened Inventory
  import opened DocumentTables
  import opened DocumentStock
  import opened GoodsMoved
  import opened Documents
  import opened Lifecycle
  import opened DocumentMoney
  import opened GoodsInvariant
  import opened OrgInvariant

  /** Goods come in with returns, receipts and bills, and go out with the rest. */
  function Way(kind: DocType): int {
    if kind.CreditNote? || kind.GoodsReceipt? || kind.Bill? then 1 else -1
  }

  /** What the movements of each type of document are recorded as. */
  predicate RecordedAs(kind: DocType, m: MovementType) {
    if kind.DeliveryChallan? then m.Delivery?
    else if kind.CreditNote? then m.SalesReturn?
    else if kind.GoodsReceipt? then m.GoodsReceived?
    else if kind.Bill? then m.Purchase?
    else m.Sale?
  }

  predicate Tracked(c: Catalog, i: LineInput) {
    i.product.Some? && i.product.value in c.products && c.products[i.product.value].tracked
  }

  /** What the goods of the lines cost, in all: each at its product's purchase price, or,
      when bought, at its line's. */
  function LinesCost(c: Catalog, lines: seq<DocLine>, bought: bool): int {
    if lines == [] then 0
    else
      var i := lines[|lines| - 1].input;
      LinesCost(c, lines[..|lines| - 1], bought)
      + (if !Tracked(c, i) then 0
         else if bought then i.quantity * (100 * i.unitPrice)
         else i.quantity * c.products[i.product.value].price.GetOr(0))
  }

  function AllocatedTo(lots: seq<LotAllocation>, lot: Option<nat>): int {
    if lots == [] then 0
    else AllocatedTo(lots[..|lots| - 1], lot) + (if Some(lots[|lots| - 1].lot) == lot then lots[|lots| - 1].quantity else 0)
  }

  /** What a line puts at a place: its quantity in its own bin, lot by lot where there are
      lots. */
  function LineAt(c: Catalog, i: LineInput, location: nat, k: Key): int {
    if !Tracked(c, i) || i.product != Some(k.product) || location != k.location || i.bin != k.bin then 0
    else if c.products[k.product].mode.LotTracked? then AllocatedTo(i.lots, k.lot)
    else if k.lot.None? then i.quantity
    else 0
  }

  function LinesAt(c: Catalog, lines: seq<DocLine>, location: nat, k: Key): int {
    if lines == [] then 0 else LinesAt(c, lines[..|lines| - 1], location, k) + LineAt(c, lines[|lines| - 1].input, location, k)
  }

  // ----------------------------------------------------- sums that follow the lines

  function SumPosted(ps: seq<Posting>, g: Posting -> int): int {
    if ps == [] then 0 else SumPosted(ps[..|ps| - 1], g) + g(ps[|ps| - 1])
  }

  function SumInputs(lines: seq<LineInput>, f: LineInput -> int): int {
    if lines == [] then 0 else SumInputs(lines[..|lines| - 1], f) + f(lines[|lines| - 1])
  }

  function SumLines(lines: seq<DocLine>, f: LineInput -> int): int {
    if lines == [] then 0
    else SumLines(lines[..|lines| - 1], f) + (if lines[|lines| - 1].input.product.Some? then f(lines[|lines| - 1].input) else 0)
  }

  lemma {:induction false} SumPostedConcat(ps: seq<Posting>, qs: seq<Posting>, g: Posting -> int)
    ensures SumPosted(ps + qs, g) == SumPosted(ps, g) + SumPosted(qs, g)
  {
    if qs == [] {
      assert ps + qs == ps;
    } else {
      SumPostedConcat(ps, qs[..|qs| - 1], g);
      assert (ps + qs)[..|ps + qs| - 1] == ps + qs[..|qs| - 1];
    }
  }

  lemma SumInputsAppend(lines: seq<LineInput>, l: LineInput, f: LineInput -> int)
    ensures SumInputs(lines + [l], f) == SumInputs(lines, f) + f(l)
  {
    assert (lines + [l])[..|lines|] == lines;
  }

  lemma {:induction false} InsertSum(line: LineInput, lines: seq<LineInput>, f: LineInput -> int)
    requires line.product.Some? && forall l :: l in lines ==> l.product.Some?
    ensures SumInputs(InsertLine(line, lines), f) == SumInputs(lines, f) + f(line)
  {
    if lines == [] || lines[|lines| - 1].product.value <= line.product.value {
      SumInputsAppend(lines, line, f);
    } else {
      InsertSum(line, lines[..|lines| - 1], f);
      SumInputsAppend(InsertLine(line, lines[..|lines| - 1]), lines[|lines| - 1], f);
    }
  }

  lemma {:induction false} TrackableSum(lines: seq<DocLine>, f: LineInput -> int)
    ensures SumInputs(Trackable(lines), f) == SumLines(lines, f)
  {
    if lines != [] {
      TrackableSum(lines[..|lines| - 1], f);
      if lines[|lines| - 1].input.product.Some? {
        InsertSum(lines[|lines| - 1].input, Trackable(lines[..|lines| - 1]), f);
      }
    }
  }

  lemma {:induction false} AllSum(c: Catalog, lines: seq<LineInput>, location: nat, f: LineInput -> int, g: Posting -> int)
    requires forall l :: l in lines ==> l.product.Some? && SumPosted(LinePostings(c, l, location), g) == f(l)
    ensures SumPosted(AllPostings(c, lines, location), g) == SumInputs(lines, f)
  {
    if lines != [] {
      AllSum(c, lines[..|lines| - 1], location, f, g);
      SumPostedConcat(AllPostings(c, lines[..|lines| - 1], location), LinePostings(c, lines[|lines| - 1], location), g);
      assert lines[|lines| - 1] in lines;
    }
  }

  /** What is said of each line holds of all a document posts. */
  lemma PostingsSum(c: Catalog, d: Document, f: LineInput -> int, g: Posting -> int)
    requires d.warehouse.Some? && Direction(d.kind) != 0
    requires forall i :: 0 <= i < |d.lines| && d.lines[i].input.product.Some? ==>
               SumPosted(LinePostings(c, d.lines[i].input, d.warehouse.value), g) == f(d.lines[i].input)
    ensures SumPosted(Postings(c, d), g) == SumLines(d.lines, f)
  {
    var lines := Trackable(d.lines);
    forall l | l in lines ensures SumPosted(LinePostings(c, l, d.warehouse.value), g) == f(l) {
      TrackableFrom(d.lines, l);
    }
    AllSum(c, lines, d.warehouse.value, f, g);
    TrackableSum(d.lines, f);
  }

  lemma {:induction false} NoProductsNoSum(lines: seq<DocLine>, f: LineInput -> int)
    requires forall i :: 0 <= i < |lines| ==> lines[i].input.product.None?
    ensures SumLines(lines, f) == 0
  {
    if lines != [] {
      NoProductsNoSum(lines[..|lines| - 1], f);
    }
  }

  // ------------------------------------------------------------------------ costs

  function UnitCost(c: Catalog, bought: bool, product: nat, price: nat): int {
    if bought then 100 * price else if product in c.products then c.products[product].price.GetOr(0) else 0
  }

  function PostingCost(c: Catalog, bought: bool): Posting -> int {
    (p: Posting) => p.quantity * UnitCost(c, bought, p.key.product, p.linePrice)
  }

  function InputCost(c: Catalog, bought: bool): LineInput -> int {
    (i: LineInput) => if Tracked(c, i) then i.quantity * UnitCost(c, bought, i.product.value, i.unitPrice) else 0
  }

  lemma {:induction false} LotsCost(c: Catalog, bought: bool, i: LineInput, location: nat, lots: seq<LotAllocation>)
    requires i.product.Some?
    ensures SumPosted(LotPostings(i, location, lots), PostingCost(c, bought)) == SumLots(lots) * UnitCost(c, bought, i.product.value, i.unitPrice)
  {
    if lots != [] {
      var front, last := lots[..|lots| - 1], lots[|lots| - 1];
      LotsCost(c, bought, i, location, front);
      var one := Posting(Key(i.product.value, location, i.bin, Some(last.lot)), last.quantity, [], i.unitPrice);
      OnePosted(LotPostings(i, location, front), one, PostingCost(c, bought));
      OneLotMore(SumLots(front), last.quantity, UnitCost(c, bought, i.product.value, i.unitPrice));
    }
  }

  lemma OnePosted(ps: seq<Posting>, p: Posting, g: Posting -> int)
    ensures SumPosted(ps + [p], g) == SumPosted(ps, g) + g(p)
  {
    assert (ps + [p])[..|ps|] == ps;
  }

  lemma OneLotMore(a: int, b: int, unit: int)
    ensures (a + b) * unit == a * unit + b * unit
  {
  }

  lemma LineCost(c: Catalog, bought: bool, i: LineInput, location: nat)
    requires i.product.Some? && LineTrackable(c, i)
    ensures SumPosted(LinePostings(c, i, location), PostingCost(c, bought)) == InputCost(c, bought)(i)
  {
    if Tracked(c, i) {
      if c.products[i.product.value].mode.LotTracked? {
        LotsCost(c, bought, i, location, i.lots);
      } else {
        assert LinePostings(c, i, location)[..0] == [];
      }
    }
  }

  lemma {:induction false} LinesCostSum(c: Catalog, lines: seq<DocLine>, bought: bool)
    ensures SumLines(lines, InputCost(c, bought)) == LinesCost(c, lines, bought)
  {
    if lines != [] {
      LinesCostSum(c, lines[..|lines| - 1], bought);
    }
  }

  lemma Signed(way: int, qty: int, cost: int)
    requires way == 1 || way == -1
    ensures way * qty * cost == way * (qty * cost)
  {
  }

  /** Movements at those unit costs are worth what the postings cost. */
  lemma {:induction false} MovedCost(c: Catalog, bought: bool, ms: seq<Movement>, ps: seq<Posting>, way: int)
    requires |ms| == |ps| && (way == 1 || way == -1)
    requires forall i :: 0 <= i < |ms| ==>
               ms[i].qty == way * ps[i].quantity && ms[i].unitCost.GetOr(0) == UnitCost(c, bought, ps[i].key.product, ps[i].linePrice)
    ensures StockValue(ms) == way * SumPosted(ps, PostingCost(c, bought))
  {
    if ms != [] {
      var i := |ms| - 1;
      MovedCost(c, bought, ms[..i], ps[..i], way);
      Signed(way, ps[i].quantity, UnitCost(c, bought, ps[i].key.product, ps[i].linePrice));
      Distributes(way, SumPosted(ps[..i], PostingCost(c, bought)), PostingCost(c, bought)(ps[i]));
    }
  }

  /** What the goods a document posts cost, in all. */
  lemma PostingsCost(c: Catalog, d: Document, bought: bool)
    requires LinesTrackable(c, d.lines) && Movable(d) && Direction(d.kind) != 0
    ensures SumPosted(Postings(c, d), PostingCost(c, bought)) == LinesCost(c, d.lines, bought)
  {
    LinesCostSum(c, d.lines, bought);
    if d.warehouse.Some? {
      forall i | 0 <= i < |d.lines| && d.lines[i].input.product.Some?
        ensures SumPosted(LinePostings(c, d.lines[i].input, d.warehouse.value), PostingCost(c, bought)) == InputCost(c, bought)(d.lines[i].input)
      {
        LineCost(c, bought, d.lines[i].input, d.warehouse.value);
      }
      PostingsSum(c, d, InputCost(c, bought), PostingCost(c, bought));
    } else {
      NoProductsNoSum(d.lines, InputCost(c, bought));
    }
  }

  /** Goods moved for a document, as the catalogue and its lines price them. */
  ghost predicate CostedAs(c: Catalog, d: Document, mine: seq<Movement>) {
    var bought := d.kind.GoodsReceipt? || d.kind.Bill?;
    && (forall m :: m in mine ==> m.key.product in c.products && RecordedAs(d.kind, m.kind))
    && (!bought ==> forall m :: m in mine ==> m.unitCost == c.products[m.key.product].price)
    && StockValue(mine) == Way(d.kind) * LinesCost(c, d.lines, bought)
  }

  lemma PostedIsCosted(c: Catalog, id: nat, kind: DocType, p: Posting)
    requires PostingFits(c, p) && Direction(kind) != 0
    ensures var m, bought := MovementFor(c, id, kind, false, p, map[]), kind.GoodsReceipt? || kind.Bill?;
            && m.key.product in c.products && RecordedAs(kind, m.kind) && m.qty == Way(kind) * p.quantity
            && m.unitCost.GetOr(0) == UnitCost(c, bought, p.key.product, p.linePrice)
            && (!bought ==> m.unitCost == c.products[m.key.product].price)
  {
  }

  lemma PostingsAreCosted(c: Catalog, id: nat, d: Document)
    requires LinesTrackable(c, d.lines) && Movable(d) && Direction(d.kind) != 0
    ensures CostedAs(c, d, MovementsFor(c, id, d.kind, false, Postings(c, d), map[]))
  {
    var ps, bought := Postings(c, d), d.kind.GoodsReceipt? || d.kind.Bill?;
    var mine := MovementsFor(c, id, d.kind, false, ps, map[]);
    PostingsOfTrackableFit(c, d);
    forall i | 0 <= i < |mine|
      ensures mine[i].key.product in c.products && RecordedAs(d.kind, mine[i].kind) && mine[i].qty == Way(d.kind) * ps[i].quantity
      ensures mine[i].unitCost.GetOr(0) == UnitCost(c, bought, ps[i].key.product, ps[i].linePrice)
      ensures !bought ==> mine[i].unitCost == c.products[mine[i].key.product].price
    {
      assert PostingFits(c, ps[i]);
      PostedIsCosted(c, id, d.kind, ps[i]);
    }
    MovedCost(c, bought, mine, ps, Way(d.kind));
    PostingsCost(c, d, bought);
  }

  lemma FinalizedCosts(o: Org, id: nat, filing: Filing)
    requires OrgInv(o) && Finalize(o, id, filing).Success?
    ensures var o' := Finalize(o, id, filing).value;
            id in o'.docs && (o'.docs[id].stockPosted ==> CostedAs(o.catalog, o'.docs[id], MovementsOf(o'.stock.movements, id)))
  {
    FinalizeStock(o, id, filing);
    ReadyIsTrackable(o, id);
    var d, moves := FinalizeEffect(o, id, filing);
    assert GoodsSound(o.catalog, o.stock.movements, o.docs, id);
    if moves {
      PostingsAreCosted(o.catalog, id, d);
      var mine := MovementsFor(o.catalog, id, d.kind, false, Postings(o.catalog, d), map[]);
      assert [] + mine == mine;
      SentIsLive(o.docs, d, moves, filing);
    }
  }

  /** Finalizing a document that moves goods moves them, if sold, delivered or returned, at
      the price their product has that day, and in all they are worth, out or in, its
      quantities of tracked products at those prices; bought, at its lines' own prices. */
  lemma FinalizeCostsGoods(o: Org, id: nat, filing: Filing)
    requires OrgInv(o) && OrgStep(o, FinalizeOp(id, filing)).Success?
    ensures var o' := OrgStep(o, FinalizeOp(id, filing)).value;
            id in o'.docs && (o'.docs[id].stockPosted ==> CostedAs(o.catalog, o'.docs[id], MovementsOf(o'.stock.movements, id)))
  {
    FinalizedCosts(o, id, filing);
  }

  // ----------------------------------------------------------------------- places

  function PostingAt(k: Key): Posting -> int {
    (p: Posting) => if p.key == k then p.quantity else 0
  }

  function InputAt(c: Catalog, location: nat, k: Key): LineInput -> int {
    (i: LineInput) => LineAt(c, i, location, k)
  }

  lemma {:induction false} LotsAt(i: LineInput, location: nat, lots: seq<LotAllocation>, k: Key)
    requires i.product.Some?
    ensures SumPosted(LotPostings(i, location, lots), PostingAt(k)) ==
              if i.product == Some(k.product) && location == k.location && i.bin == k.bin && k.lot.Some? then AllocatedTo(lots, k.lot) else 0
  {
    if lots != [] {
      LotsAt(i, location, lots[..|lots| - 1], k);
      var ps := LotPostings(i, location, lots);
      assert ps[..|ps| - 1] == LotPostings(i, location, lots[..|lots| - 1]);
    }
  }

  lemma {:induction false} NoLotNoAllocation(lots: seq<LotAllocation>)
    ensures AllocatedTo(lots, None) == 0
  {
    if lots != [] {
      NoLotNoAllocation(lots[..|lots| - 1]);
    }
  }

  lemma LinePlaced(c: Catalog, i: LineInput, location: nat, k: Key)
    requires i.product.Some?
    ensures SumPosted(LinePostings(c, i, location), PostingAt(k)) == LineAt(c, i, location, k)
  {
    if Tracked(c, i) {
      if c.products[i.product.value].mode.LotTracked? {
        LotsAt(i, location, i.lots, k);
        NoLotNoAllocation(i.lots);
      } else {
        assert LinePostings(c, i, location)[..0] == [];
      }
    }
  }

  lemma {:induction false} LinesAtSum(c: Catalog, lines: seq<DocLine>, location: nat, k: Key)
    ensures SumLines(lines, InputAt(c, location, k)) == LinesAt(c, lines, location, k)
  {
    if lines != [] {
      LinesAtSum(c, lines[..|lines| - 1], location, k);
    }
  }

  lemma {:induction false} MovedAt(ms: seq<Movement>, ps: seq<Posting>, way: int, k: Key)
    requires |ms| == |ps| && (way == 1 || way == -1)
    requires forall i :: 0 <= i < |ms| ==> ms[i].key == ps[i].key && ms[i].qty == way * ps[i].quantity
    ensures OnHand(ms, k) == way * SumPosted(ps, PostingAt(k))
  {
    if ms != [] {
      MovedAt(ms[..|ms| - 1], ps[..|ps| - 1], way, k);
    }
  }

  /** A document that posted its goods took each line's from, or put it in, the bin and the
      lots the line names, at the document's own warehouse, and nowhere else. */
  lemma GoodsMoveWhere(c: Catalog, ms: seq<Movement>, docs: Docs, id: nat, k: Key)
    requires GoodsInv(c, ms, docs) && id in docs && docs[id].stockPosted
    ensures OnHand(MovementsOf(ms, id), k) ==
              if docs[id].warehouse.None? then 0 else Way(docs[id].kind) * LinesAt(c, docs[id].lines, docs[id].warehouse.value, k)
  {
    var d := docs[id];
    assert GoodsSound(c, ms, docs, id);
    MovedAt(MovementsOf(ms, id), Postings(c, d), Way(d.kind), k);
    if d.warehouse.Some? {
      LinesAtSum(c, d.lines, d.warehouse.value, k);
      forall i | 0 <= i < |d.lines| && d.lines[i].input.product.Some?
        ensures SumPosted(LinePostings(c, d.lines[i].input, d.warehouse.value), PostingAt(k)) == InputAt(c, d.warehouse.value, k)(d.lines[i].input)
      {
        LinePlaced(c, d.lines[i].input, d.warehouse.value, k);
      }
      PostingsSum(c, d, InputAt(c, d.warehouse.value, k), PostingAt(k));
    }
  }

  /** So it is in every run. */
  lemma GoodsMoveWhereInRuns(o: Org, ops: seq<OrgOp>, id: nat, k: Key)
    requires IsNew(o) && id in OrgRun(o, ops).docs && OrgRun(o, ops).docs[id].stockPosted
    ensures var o' := OrgRun(o, ops);
            var d := o'.docs[id];
            OnHand(MovementsOf(o'.stock.movements, id), k) ==
              if d.warehouse.None? then 0 else Way(d.kind) * LinesAt(o'.catalog, d.lines, d.warehouse.value, k)
  {
    NewOrgOk(o);
    RunKeepsOrg(o, ops);
    var o' := OrgRun(o, ops);
    GoodsMoveWhere(o'.catalog, o'.stock.movements, o'.docs, id, k);
  }

  // --------------------------------------------------------------------- lot dates

  lemma {:induction false} CheckedLotsFresh(s: Stock, c: Catalog, d: Document, lines: seq<DocLine>, i: nat, a: LotAllocation)
    requires CheckTracking(s, c, d, lines).Pass? && i < |lines| && a in lines[i].input.lots
    requires Tracked(c, lines[i].input) && (d.kind.Invoice? || d.kind.SalesReceipt? || d.kind.DeliveryChallan?)
    ensures c.products[lines[i].input.product.value].mode.LotTracked?
    ensures a.lot in c.lots && c.lots[a.lot].expiry.Some? ==> d.issued <= c.lots[a.lot].expiry.value
    decreases |lines|
  {
    assert CheckLineTracking(s, c, d, lines[0].input).Pass?;
    if i > 0 {
      CheckedLotsFresh(s, c, d, lines[1..], i - 1, a);
    }
  }

  /** No document takes goods out of a lot that expired before the document's date. */
  lemma NothingExpiredGoesOut(o: Org, id: nat, filing: Filing, i: nat, a: LotAllocation)
    requires OrgInv(o) && Finalize(o, id, filing).Success?
    requires id in o.docs && i < |o.docs[id].lines| && a in o.docs[id].lines[i].input.lots && Tracked(o.catalog, o.docs[id].lines[i].input)
    requires o.docs[id].kind.Invoice? || o.docs[id].kind.SalesReceipt? || o.docs[id].kind.DeliveryChallan?
    requires id in Finalize(o, id, filing).value.docs && Finalize(o, id, filing).value.docs[id].stockPosted
    ensures a.lot in o.catalog.lots && o.catalog.lots[a.lot].expiry.Some? ==> o.docs[id].issued <= o.catalog.lots[a.lot].expiry.value
  {
    ReadyChecks(o, id);
    var d, moves := FinalizeEffect(o, id, filing);
    FinalMoves(o.docs, d, moves, filing);
    CheckedLotsFresh(o.stock, o.catalog, d, d.lines, i, a);
  }

  lemma FinalMoves(docs: Docs, d: Document, moves: bool, filing: Filing)
    ensures FinalDocument(docs, d, moves, filing).stockPosted == moves
  {
  }
}
