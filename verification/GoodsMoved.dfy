/** What a document's movements add up to: its own line quantities, product by
    product, when posted; nothing at all, in quantity and, under a condition on its
    prices, in value, once voided. */
module GoodsMoved {
  import opened Basics
  import opened StockTables
  import opened Inventory
  import opened DocumentTables
  import opened DocumentStock

  // ------------------------------------------------------------- quantities

  /** What the lines of a document say of one product. */
  function LineQty(lines: seq<DocLine>, product: nat): int {
    if lines == [] then 0
    else LineQty(lines[..|lines| - 1], product) + (if lines[|lines| - 1].input.product == Some(product) then lines[|lines| - 1].input.quantity else 0)
  }

  function InputQty(lines: seq<LineInput>, product: nat): int {
    if lines == [] then 0
    else InputQty(lines[..|lines| - 1], product) + (if lines[|lines| - 1].product == Some(product) then lines[|lines| - 1].quantity else 0)
  }

  function PostedQty(ps: seq<Posting>, product: nat): int {
    if ps == [] then 0
    else PostedQty(ps[..|ps| - 1], product) + (if ps[|ps| - 1].key.product == product then ps[|ps| - 1].quantity else 0)
  }

  lemma InputAppend(lines: seq<LineInput>, l: LineInput, product: nat)
    ensures InputQty(lines + [l], product) == InputQty(lines, product) + if l.product == Some(product) then l.quantity else 0
  {
    assert (lines + [l])[..|lines|] == lines;
  }

  lemma {:induction false} InsertQty(line: LineInput, lines: seq<LineInput>, product: nat)
    requires line.product.Some? && forall l :: l in lines ==> l.product.Some?
    ensures InputQty(InsertLine(line, lines), product) == InputQty(lines, product) + if line.product == Some(product) then line.quantity else 0
  {
    if lines == [] || lines[|lines| - 1].product.value <= line.product.value {
      InputAppend(lines, line, product);
    } else {
      var front, last := lines[..|lines| - 1], lines[|lines| - 1];
      InsertQty(line, front, product);
      InputAppend(InsertLine(line, front), last, product);
    }
  }

  lemma {:induction false} TrackableQty(lines: seq<DocLine>, product: nat)
    ensures InputQty(Trackable(lines), product) == LineQty(lines, product)
  {
    if lines != [] {
      TrackableQty(lines[..|lines| - 1], product);
      if lines[|lines| - 1].input.product.Some? {
        InsertQty(lines[|lines| - 1].input, Trackable(lines[..|lines| - 1]), product);
      }
    }
  }

  lemma {:induction false} PostedConcat(ps: seq<Posting>, qs: seq<Posting>, product: nat)
    ensures PostedQty(ps + qs, product) == PostedQty(ps, product) + PostedQty(qs, product)
  {
    if qs == [] {
      assert ps + qs == ps;
    } else {
      PostedConcat(ps, qs[..|qs| - 1], product);
      assert (ps + qs)[..|ps + qs| - 1] == ps + qs[..|qs| - 1];
    }
  }

  lemma {:induction false} LotsQty(i: LineInput, location: nat, lots: seq<LotAllocation>, product: nat)
    requires i.product.Some?
    ensures PostedQty(LotPostings(i, location, lots), product) == if i.product == Some(product) then SumLots(lots) else 0
  {
    if lots != [] {
      LotsQty(i, location, lots[..|lots| - 1], product);
      var a := lots[|lots| - 1];
      var last := [Posting(Key(i.product.value, location, i.bin, Some(a.lot)), a.quantity, [], i.unitPrice)];
      PostedConcat(LotPostings(i, location, lots[..|lots| - 1]), last, product);
      assert last[..0] == [];
    }
  }

  lemma OneLineQty(c: Catalog, i: LineInput, location: nat, product: nat)
    requires i.product.Some? && LineTrackable(c, i)
    requires product in c.products && c.products[product].tracked
    ensures PostedQty(LinePostings(c, i, location), product) == if i.product == Some(product) then i.quantity else 0
  {
    if i.product.value in c.products && c.products[i.product.value].tracked {
      if c.products[i.product.value].mode.LotTracked? {
        LotsQty(i, location, i.lots, product);
      } else {
        var ps := LinePostings(c, i, location);
        assert ps[..0] == [];
      }
    }
  }

  lemma {:induction false} AllQty(c: Catalog, lines: seq<LineInput>, location: nat, product: nat)
    requires forall l :: l in lines ==> l.product.Some?
    requires forall i :: 0 <= i < |lines| ==> LineTrackable(c, lines[i])
    requires product in c.products && c.products[product].tracked
    ensures PostedQty(AllPostings(c, lines, location), product) == InputQty(lines, product)
  {
    if lines != [] {
      var front, last := lines[..|lines| - 1], lines[|lines| - 1];
      AllQty(c, front, location, product);
      assert LineTrackable(c, lines[|lines| - 1]);
      OneLineQty(c, last, location, product);
      PostedConcat(AllPostings(c, front, location), LinePostings(c, last, location), product);
    }
  }

  /** The postings of a document carry its own line quantities, product by product. */
  lemma PostingsCarryLines(c: Catalog, d: Document, product: nat)
    requires LinesTrackable(c, d.lines) && Direction(d.kind) != 0 && d.warehouse.Some?
    requires product in c.products && c.products[product].tracked
    ensures PostedQty(Postings(c, d), product) == LineQty(d.lines, product)
  {
    var lines := Trackable(d.lines);
    forall i | 0 <= i < |lines| ensures LineTrackable(c, lines[i]) {
      TrackableFrom(d.lines, lines[i]);
    }
    AllQty(c, lines, d.warehouse.value, product);
    TrackableQty(d.lines, product);
  }

  // --------------------------------------------------- movements as posted

  /** The movements of a posted document: one for each posting, in order, in the
      document's direction; at the line's price on a purchase, and otherwise at one
      cost for each product. */
  ghost predicate PostedAs(ms: seq<Movement>, ps: seq<Posting>, kind: DocType) {
    && |ms| == |ps|
    && (forall i :: 0 <= i < |ms| ==> ms[i].key == ps[i].key && ms[i].qty == Direction(kind) * ps[i].quantity)
    && (PricedAtCost(kind) ==> forall i :: 0 <= i < |ms| ==> ms[i].unitCost == Some(100 * ps[i].linePrice))
    && (!PricedAtCost(kind) ==> forall i, j :: 0 <= i < |ms| && 0 <= j < |ms| && ms[i].key.product == ms[j].key.product ==> ms[i].unitCost == ms[j].unitCost)
  }

  /** The movements that undo others: the same places, the opposite quantities, each at
      the last cost posted for its key. */
  ghost predicate Undoes(rs: seq<Movement>, ms: seq<Movement>) {
    && |rs| == |ms|
    && forall i :: 0 <= i < |ms| ==>
         && rs[i].key == ms[i].key && rs[i].qty == -ms[i].qty
         && CostKeyOf(ms[i].key) in PostedCosts(ms) && rs[i].unitCost == PostedCosts(ms)[CostKeyOf(ms[i].key)]
  }

  lemma PostingMakesPosted(c: Catalog, id: nat, kind: DocType, ps: seq<Posting>)
    ensures PostedAs(MovementsFor(c, id, kind, false, ps, map[]), ps, kind)
  {
  }

  lemma {:induction false} CostsKnown(ms: seq<Movement>, i: nat)
    requires i < |ms|
    ensures CostKeyOf(ms[i].key) in PostedCosts(ms)
  {
    if i < |ms| - 1 {
      CostsKnown(ms[..|ms| - 1], i);
    }
  }

  lemma ReversingUndoes(c: Catalog, id: nat, kind: DocType, ps: seq<Posting>, ms: seq<Movement>)
    requires PostedAs(ms, ps, kind)
    ensures Undoes(MovementsFor(c, id, kind, true, ps, PostedCosts(ms)), ms)
  {
    forall i | 0 <= i < |ms| ensures CostKeyOf(ms[i].key) in PostedCosts(ms) && -Direction(kind) * ps[i].quantity == -ms[i].qty {
      CostsKnown(ms, i);
    }
  }

  // --------------------------------------------------------- quantity undone

  lemma {:induction false} OnHandConcat(ms: seq<Movement>, rs: seq<Movement>, k: Key)
    ensures OnHand(ms + rs, k) == OnHand(ms, k) + OnHand(rs, k)
  {
    if rs == [] {
      assert ms + rs == ms;
    } else {
      OnHandConcat(ms, rs[..|rs| - 1], k);
      assert (ms + rs)[..|ms + rs| - 1] == ms + rs[..|rs| - 1];
    }
  }

  lemma {:induction false} OppositeQty(ms: seq<Movement>, rs: seq<Movement>, k: Key)
    requires |rs| == |ms| && forall i :: 0 <= i < |ms| ==> rs[i].key == ms[i].key && rs[i].qty == -ms[i].qty
    ensures OnHand(rs, k) == -OnHand(ms, k)
  {
    if ms != [] {
      OppositeQty(ms[..|ms| - 1], rs[..|rs| - 1], k);
    }
  }

  /** A voided document's movements cancel, at every warehouse, bin and lot. */
  lemma UndoneQuantity(ms: seq<Movement>, rs: seq<Movement>, k: Key)
    requires Undoes(rs, ms)
    ensures OnHand(ms + rs, k) == 0
  {
    OnHandConcat(ms, rs, k);
    OppositeQty(ms, rs, k);
  }

  lemma {:induction false} PostedTotal(ms: seq<Movement>, ps: seq<Posting>, kind: DocType, product: nat)
    requires |ms| == |ps| && forall i :: 0 <= i < |ms| ==> ms[i].key == ps[i].key && ms[i].qty == Direction(kind) * ps[i].quantity
    ensures ProductTotal(ms, product) == Direction(kind) * PostedQty(ps, product)
  {
    if ms != [] {
      PostedTotal(ms[..|ms| - 1], ps[..|ps| - 1], kind, product);
    }
  }

  // ------------------------------------------------------------ value undone

  /** What movements of one product, bin and lot amount to, and are worth. */
  function KeyQty(ms: seq<Movement>, k: CostKey): int {
    if ms == [] then 0
    else KeyQty(ms[..|ms| - 1], k) + (if CostKeyOf(ms[|ms| - 1].key) == k then ms[|ms| - 1].qty else 0)
  }

  function KeyValue(ms: seq<Movement>, k: CostKey): int {
    if ms == [] then 0
    else
      var m := ms[|ms| - 1];
      KeyValue(ms[..|ms| - 1], k) + (if CostKeyOf(m.key) == k then m.qty * m.unitCost.GetOr(0) else 0)
  }

  function LastCost(ms: seq<Movement>, k: CostKey): int {
    if k in PostedCosts(ms) then PostedCosts(ms)[k].GetOr(0) else 0
  }

  lemma {:induction false} KeyValueConcat(ms: seq<Movement>, rs: seq<Movement>, k: CostKey)
    ensures KeyValue(ms + rs, k) == KeyValue(ms, k) + KeyValue(rs, k)
  {
    if rs == [] {
      assert ms + rs == ms;
    } else {
      KeyValueConcat(ms, rs[..|rs| - 1], k);
      assert (ms + rs)[..|ms + rs| - 1] == ms + rs[..|rs| - 1];
    }
  }

  lemma {:induction false} ReversalAtOneCost(rs: seq<Movement>, ms: seq<Movement>, k: CostKey, cost: int)
    requires |rs| == |ms|
    requires forall i :: 0 <= i < |ms| ==> rs[i].key == ms[i].key && rs[i].qty == -ms[i].qty
    requires forall i :: 0 <= i < |ms| && CostKeyOf(ms[i].key) == k ==> rs[i].unitCost.GetOr(0) == cost
    ensures KeyValue(rs, k) == -cost * KeyQty(ms, k)
  {
    if ms != [] {
      var i := |ms| - 1;
      ReversalAtOneCost(rs[..i], ms[..i], k, cost);
      if CostKeyOf(ms[i].key) == k {
        TimesSum(cost, KeyQty(ms[..i], k), ms[i].qty);
      }
    }
  }

  lemma TimesSum(a: int, b: int, c: int)
    ensures -a * (b + c) == -a * b + -c * a
  {
  }

  /** Value is undone exactly when a key's goods were posted, on the whole, at the last
      price posted for it: the reversal returns everything at that price. */
  lemma UndoneValueExactly(ms: seq<Movement>, rs: seq<Movement>, k: CostKey)
    requires Undoes(rs, ms)
    ensures KeyValue(ms + rs, k) == 0 <==> KeyValue(ms, k) == LastCost(ms, k) * KeyQty(ms, k)
  {
    KeyValueConcat(ms, rs, k);
    ReversalAtOneCost(rs, ms, k, LastCost(ms, k));
    assert -LastCost(ms, k) * KeyQty(ms, k) == -(LastCost(ms, k) * KeyQty(ms, k));
  }

  /** No key posted at two costs. */
  ghost predicate OneCostPerKey(ms: seq<Movement>) {
    forall i, j :: 0 <= i < |ms| && 0 <= j < |ms| && CostKeyOf(ms[i].key) == CostKeyOf(ms[j].key) ==> ms[i].unitCost == ms[j].unitCost
  }

  lemma {:induction false} OneCostIsLast(ms: seq<Movement>, i: nat)
    requires OneCostPerKey(ms) && i < |ms|
    ensures CostKeyOf(ms[i].key) in PostedCosts(ms) && PostedCosts(ms)[CostKeyOf(ms[i].key)] == ms[i].unitCost
  {
    if i < |ms| - 1 {
      assert CostKeyOf(ms[i].key) == CostKeyOf(ms[|ms| - 1].key) ==> ms[i].unitCost == ms[|ms| - 1].unitCost;
      OneCostIsLast(ms[..|ms| - 1], i);
    }
  }

  lemma {:induction false} ValueAtOneCost(ms: seq<Movement>, k: CostKey, cost: int)
    requires forall i :: 0 <= i < |ms| && CostKeyOf(ms[i].key) == k ==> ms[i].unitCost.GetOr(0) == cost
    ensures KeyValue(ms, k) == cost * KeyQty(ms, k)
  {
    if ms != [] {
      var i := |ms| - 1;
      ValueAtOneCost(ms[..i], k, cost);
      if CostKeyOf(ms[i].key) == k {
        TimesSum(-cost, KeyQty(ms[..i], k), ms[i].qty);
      }
    }
  }

  /** With one cost for each key the voided document's value nets to zero key by key,
      whatever the product's price has become since. */
  lemma OneCostUndoesValue(ms: seq<Movement>, rs: seq<Movement>, k: CostKey)
    requires Undoes(rs, ms) && OneCostPerKey(ms)
    ensures KeyValue(ms + rs, k) == 0
  {
    forall i | 0 <= i < |ms| && CostKeyOf(ms[i].key) == k ensures ms[i].unitCost.GetOr(0) == LastCost(ms, k) {
      OneCostIsLast(ms, i);
    }
    ValueAtOneCost(ms, k, LastCost(ms, k));
    UndoneValueExactly(ms, rs, k);
  }

  /** Sales, deliveries and returns post one cost for each product, so they always
      qualify; a purchase does when its lines price each product, bin and lot alike. */
  lemma PostedAtOneCost(ms: seq<Movement>, ps: seq<Posting>, kind: DocType)
    requires PostedAs(ms, ps, kind)
    requires PricedAtCost(kind) ==> forall i, j :: 0 <= i < |ps| && 0 <= j < |ps| && CostKeyOf(ps[i].key) == CostKeyOf(ps[j].key) ==> ps[i].linePrice == ps[j].linePrice
    ensures OneCostPerKey(ms)
  {
  }

  /** A receipt of one unit at 1.00 and one at 3.00 of the same goods, when voided, is
      returned at 3.00 each: the pair of postings leaves a value behind. */
  lemma TwoPricesLeaveValue()
    ensures exists ms, rs, k :: Undoes(rs, ms) && PostedAs(ms, [Posting(Key(1, 1, None, None), 1000, [], 100), Posting(Key(1, 1, None, None), 1000, [], 300)], GoodsReceipt)
                                && KeyValue(ms + rs, k) != 0
  {
    var place := Key(1, 1, None, None);
    var k := CostKeyOf(place);
    var first := Movement(place, 1000, GoodsReceived, DocumentRef(1), Some(10000), None);
    var second := Movement(place, 1000, GoodsReceived, DocumentRef(1), Some(30000), None);
    var ms := [first, second];
    assert ms[..1] == [first] && ms[..1][..0] == [];
    assert PostedCosts(ms[..1]) == map[][k := Some(10000)];
    assert PostedCosts(ms) == map[][k := Some(10000)][k := Some(30000)];
    var rs := [Movement(place, -1000, GoodsReceived, DocumentRef(1), Some(30000), None), Movement(place, -1000, GoodsReceived, DocumentRef(1), Some(30000), None)];
    assert Undoes(rs, ms);
    assert KeyValue(ms[..1], k) == 1000 * 10000;
    assert KeyValue(ms, k) == 1000 * 10000 + 1000 * 30000;
    assert KeyQty(ms[..1], k) == 1000;
    assert KeyQty(ms, k) == 2000;
    UndoneValueExactly(ms, rs, k);
    assert PostedAs(ms, [Posting(place, 1000, [], 100), Posting(place, 1000, [], 300)], GoodsReceipt);
  }
}
