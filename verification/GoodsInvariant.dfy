/** The goods of every document in every run: a draft has moved none, a sent document
    exactly what its lines say unless its source already did, and a void document
    only movements that undo each other; with the stock in agreement throughout. */
module GoodsInvariant {
  import opened Basics
  import opened SerialNumbers
  import opened StockTables
  import opened Tracking
  import opened Inventory
  import opened OpeningStock
  import opened DocumentTables
  import opened Pricing
  import opened DocumentStock
  import opened GoodsMoved
  import opened Documents
  import opened Lifecycle
  import opened DocumentMoney

  // ------------------------------------------------------------- the invariant

  predicate ProductsListed(c: Catalog, lines: seq<DocLine>) {
    forall i :: 0 <= i < |lines| ==> lines[i].input.product.Some? ==> lines[i].input.product.value in c.products
  }

  /** The document has a warehouse if any of its lines has a product. */
  predicate Movable(d: Document) {
    forall i :: 0 <= i < |d.lines| ==> d.lines[i].input.product.Some? ==> d.warehouse.Some?
  }

  /** The first half posted the goods and the second half undid it. */
  ghost predicate VoidedAs(ms: seq<Movement>, ps: seq<Posting>, kind: DocType) {
    && |ms| == 2 * |ps|
    && PostedAs(ms[..|ps|], ps, kind)
    && Undoes(ms[|ps|..], ms[..|ps|])
  }

  /** A conversion the types allow, with the same lines, or no more of each for a
      credit note. */
  predicate LinesMatch(source: Document, d: Document) {
    Converts(source.kind, d.kind) && GuardConvertedLines(source, d).Pass?
  }

  /** A live document that is no draft: it moved its own goods exactly when it moves
      goods and its source had not. */
  ghost predicate SentGoods(c: Catalog, mine: seq<Movement>, docs: Docs, d: Document) {
    && (d.source.Some? ==> d.source.value in docs && LinesMatch(docs[d.source.value], d))
    && d.stockPosted == MovesStock(docs, d)
    && (if d.stockPosted then LinesTrackable(c, d.lines) && Movable(d) && PostedAs(mine, Postings(c, d), d.kind) else mine == [])
  }

  ghost predicate DocGoods(c: Catalog, mine: seq<Movement>, docs: Docs, d: Document) {
    match d.status
    case DraftDoc => mine == [] && !d.stockPosted
    case VoidDoc => !d.stockPosted && (mine == [] || VoidedAs(mine, Postings(c, d), d.kind))
    case _ => SentGoods(c, mine, docs, d)
  }

  ghost predicate GoodsSound(c: Catalog, ms: seq<Movement>, docs: Docs, id: nat) {
    if id !in docs then MovementsOf(ms, id) == []
    else ProductsListed(c, docs[id].lines) && DocGoods(c, MovementsOf(ms, id), docs, docs[id])
  }

  ghost predicate GoodsInv(c: Catalog, ms: seq<Movement>, docs: Docs) {
    forall id: nat {:trigger GoodsSound(c, ms, docs, id)} :: GoodsSound(c, ms, docs, id)
  }

  // ------------------------------------------------------- a document's movements

  lemma {:induction false} MovementsOfConcat(ms: seq<Movement>, more: seq<Movement>, id: nat)
    ensures MovementsOf(ms + more, id) == MovementsOf(ms, id) + MovementsOf(more, id)
  {
    if more == [] {
      assert ms + more == ms;
    } else {
      MovementsOfConcat(ms, more[..|more| - 1], id);
      assert (ms + more)[..|ms + more| - 1] == ms + more[..|more| - 1];
    }
  }

  lemma {:induction false} MovementsOfOwn(ms: seq<Movement>, owner: nat, id: nat)
    requires forall i :: 0 <= i < |ms| ==> ms[i].ref == DocumentRef(owner)
    ensures MovementsOf(ms, id) == if id == owner then ms else []
  {
    if ms != [] {
      MovementsOfOwn(ms[..|ms| - 1], owner, id);
    }
  }

  lemma {:induction false} MovementsOfOthers(ms: seq<Movement>, id: nat)
    requires forall i :: 0 <= i < |ms| ==> !ms[i].ref.DocumentRef?
    ensures MovementsOf(ms, id) == []
  {
    if ms != [] {
      MovementsOfOthers(ms[..|ms| - 1], id);
    }
  }

  lemma {:induction false} MoveUnitsMovements(s: Stock, product: nat, location: nat, bin: Option<nat>, numbers: seq<string>,
                                              movement: nat, inbound: bool, cause: Cause)
    requires MoveUnits(s, product, location, bin, numbers, movement, inbound, cause).Success?
    ensures MoveUnits(s, product, location, bin, numbers, movement, inbound, cause).value.movements == s.movements
    decreases |numbers|
  {
    if numbers != [] {
      var id := UnitId(product, numbers[0]);
      var units := MoveUnit(s.units, id, location, bin, inbound, cause).value;
      MoveUnitsMovements(s.(units := units, links := s.links + [Link(movement, id)]), product, location, bin, numbers[1..], movement, inbound, cause);
    }
  }

  /** Adjustments, transfers and opening stock are nobody's document. */
  lemma AdjustMovements(s: Stock, c: Catalog, a: AdjustInput, id: nat)
    requires Adjust(s, c, a).Success?
    ensures MovementsOf(Adjust(s, c, a).value.stock.movements, id) == MovementsOf(s.movements, id)
  {
    var s' := Adjust(s, c, a).value.stock;
    var m: Movement;
    if a.byValue {
      m := Movement(Key(a.product, a.location, a.bin, a.lot), 0, Revaluation, NoRef, None, Some(1000 * a.value.GetOr(0)));
    } else {
      var cost := if a.unitCost.Some? then a.unitCost else c.products[a.product].price;
      m := Movement(Key(a.product, a.location, a.bin, a.lot), a.qty, Adjustment, NoRef, cost, None);
      if c.products[a.product].mode.SerialTracked? {
        MoveUnitsMovements(Post(s, m).value, a.product, a.location, a.bin, NormalizeSerials(a.serials).value, |s.movements|, a.qty > 0, Cause(Adjustment, false));
      }
    }
    assert s'.movements == s.movements + [m];
    MovementsOfConcat(s.movements, [m], id);
    MovementsOfOthers([m], id);
  }

  lemma SetKeyMovements(s: Stock, c: Catalog, k: Key, request: Request, row: OpeningRow, ref: Ref, id: nat)
    requires SetKey(s, c, k, request, row, ref).Success? && !ref.DocumentRef?
    ensures MovementsOf(SetKey(s, c, k, request, row, ref).value.movements, id) == MovementsOf(s.movements, id)
  {
    var m := OpeningMovement(k, request, row, ref);
    var posted := Post(s, m).value;
    if ModeOf(c, k.product).SerialTracked? {
      MoveUnitsMovements(posted, k.product, k.location, k.bin, NormalizeSerials(request.serials).value, |s.movements|, true, Cause(Opening, false));
    }
    MovementsOfConcat(s.movements, [m], id);
    MovementsOfOthers([m], id);
  }

  lemma {:induction false} SetKeysMovements(p: Progress, c: Catalog, order: seq<Key>, requested: map<Key, Request>, current: map<Key, OpeningRow>, ref: Ref, id: nat)
    requires SetKeys(p, c, order, requested, current, ref).Success? && !ref.DocumentRef?
    ensures MovementsOf(SetKeys(p, c, order, requested, current, ref).value.stock.movements, id) == MovementsOf(p.stock.movements, id)
    decreases |order|
  {
    if order != [] {
      var request, row := RequestAt(requested, order[0]), RowAt(current, order[0]);
      if NothingToDo(request, row) {
        SetKeysMovements(p, c, order[1..], requested, current, ref, id);
      } else {
        SetKeyMovements(p.stock, c, order[0], request, row, ref, id);
        var stock := SetKey(p.stock, c, order[0], request, row, ref).value;
        SetKeysMovements(Progress(stock, p.value + RequestedValue(request) - row.value), c, order[1..], requested, current, ref, id);
      }
    }
  }

  lemma TransferredMovements(s: Stock, c: Catalog, t: TransferInput, id: nat)
    requires StockInv(s, c) && Transfer(s, c, t).Success?
    ensures MovementsOf(Transfer(s, c, t).value.movements, id) == MovementsOf(s.movements, id)
  {
    var pair := [TransferMovement(t, true), TransferMovement(t, false)];
    TransferMovements(s, c, t);
    MovementsOfConcat(s.movements, pair, id);
    MovementsOfOthers(pair, id);
  }

  // -------------------------------------------------------- what leaves it as it is

  /** What a document's goods depend on. */
  predicate SameGoods(d: Document, d': Document) {
    && d'.kind == d.kind && d'.lines == d.lines && d'.warehouse == d.warehouse && d'.source == d.source && d'.stockPosted == d.stockPosted
    && (d'.status == d.status || (!d.status.DraftDoc? && !d.status.VoidDoc? && !d'.status.DraftDoc? && !d'.status.VoidDoc?))
  }

  /** Nothing live and finalized came from a document. */
  predicate Unused(docs: Docs, id: nat) {
    forall x :: x in docs && docs[x].source == Some(id) ==> docs[x].status.DraftDoc? || docs[x].status.VoidDoc?
  }

  /** A step that touches the goods of one document only, from which nothing finalized
      came, leaves the goods of every other one sound. */
  lemma OthersKeepGoods(c: Catalog, ms: seq<Movement>, docs: Docs, ms': seq<Movement>, docs': Docs, id: nat)
    requires GoodsInv(c, ms, docs) && Unused(docs, id)
    requires forall x :: x in docs && x != id ==> x in docs' && SameGoods(docs[x], docs'[x])
    requires forall x :: x in docs' ==> x in docs || x == id
    requires forall x: nat :: x != id ==> MovementsOf(ms', x) == MovementsOf(ms, x)
    requires GoodsSound(c, ms', docs', id)
    ensures GoodsInv(c, ms', docs')
  {
    forall x: nat ensures GoodsSound(c, ms', docs', x) {
      assert GoodsSound(c, ms, docs, x);
      if x != id && x in docs {
        SameDocGoods(c, MovementsOf(ms, x), docs, docs', id, docs[x], docs'[x]);
      }
    }
  }

  lemma SameDocGoods(c: Catalog, mine: seq<Movement>, docs: Docs, docs': Docs, id: nat, d: Document, d': Document)
    requires DocGoods(c, mine, docs, d) && SameGoods(d, d') && ProductsListed(c, d.lines)
    requires forall x :: x in docs && x != id ==> x in docs' && SameGoods(docs[x], docs'[x])
    requires d.source == Some(id) ==> d.status.DraftDoc? || d.status.VoidDoc?
    ensures DocGoods(c, mine, docs', d') && ProductsListed(c, d'.lines)
  {
    assert Postings(c, d') == Postings(c, d);
    if !d.status.DraftDoc? && !d.status.VoidDoc? && d.source.Some? {
      assert SameGoods(docs[d.source.value], docs'[d.source.value]);
    }
  }

  lemma SameDocsKeepGoods(o: Org, o': Org)
    requires LifecycleInv(o.docs, o.next) && GoodsInv(o.catalog, o.stock.movements, o.docs) && o'.catalog == o.catalog
    requires o'.docs.Keys == o.docs.Keys && forall x :: x in o.docs ==> SameGoods(o.docs[x], o'.docs[x])
    requires forall x: nat :: MovementsOf(o'.stock.movements, x) == MovementsOf(o.stock.movements, x)
    ensures GoodsInv(o'.catalog, o'.stock.movements, o'.docs)
  {
    UnusedNext(o.docs, o.next);
    assert GoodsSound(o.catalog, o.stock.movements, o.docs, o.next);
    OthersKeepGoods(o.catalog, o.stock.movements, o.docs, o'.stock.movements, o'.docs, o.next);
  }

  lemma UnusedNext(docs: Docs, next: nat)
    requires LifecycleInv(docs, next)
    ensures Unused(docs, next) && next !in docs
  {
    forall x ensures !(x in docs && docs[x].source == Some(next)) {
      assert x in docs ==> Linked(docs, x);
    }
  }

  lemma UnusedWithoutDependents(docs: Docs, id: nat)
    requires ActiveDependents(docs, id, None) == {}
    ensures Unused(docs, id)
  {
    forall x ensures x in docs && docs[x].source == Some(id) ==> !Live(docs[x]) {
      assert x !in ActiveDependents(docs, id, None);
    }
  }

  // ------------------------------------------------------------------ catalogue

  lemma {:induction false} SamePostings(c: Catalog, c': Catalog, lines: seq<LineInput>, location: nat)
    requires SameTracking(c, c') && forall l :: l in lines ==> l.product.Some? && l.product.value in c.products
    ensures AllPostings(c', lines, location) == AllPostings(c, lines, location)
  {
    if lines != [] {
      assert lines[|lines| - 1] in lines;
      SamePostings(c, c', lines[..|lines| - 1], location);
    }
  }

  lemma CatalogKeepsPostings(c: Catalog, c': Catalog, d: Document)
    requires SameTracking(c, c') && ProductsListed(c, d.lines)
    ensures Postings(c', d) == Postings(c, d)
    ensures LinesTrackable(c, d.lines) ==> LinesTrackable(c', d.lines)
  {
    if d.warehouse.Some? {
      forall l | l in Trackable(d.lines) ensures l.product.value in c.products {
        TrackableFrom(d.lines, l);
      }
      SamePostings(c, c', Trackable(d.lines), d.warehouse.value);
    }
    forall i | 0 <= i < |d.lines| && LineTrackable(c, d.lines[i].input) ensures LineTrackable(c', d.lines[i].input) {
    }
  }

  lemma CatalogKeepsGoods(c: Catalog, c': Catalog, ms: seq<Movement>, docs: Docs)
    requires SameTracking(c, c') && GoodsInv(c, ms, docs)
    ensures GoodsInv(c', ms, docs)
  {
    forall x: nat ensures GoodsSound(c', ms, docs, x) {
      assert GoodsSound(c, ms, docs, x);
      if x in docs {
        CatalogKeepsPostings(c, c', docs[x]);
      }
    }
  }

  // ------------------------------------------------------------------ the steps

  lemma AddDraftKeepsGoods(o: Org, d: Document)
    requires LifecycleInv(o.docs, o.next) && GoodsInv(o.catalog, o.stock.movements, o.docs)
    requires d.status.DraftDoc? && !d.stockPosted && ProductsListed(o.catalog, d.lines)
    ensures GoodsInv(o.catalog, o.stock.movements, o.docs[o.next := d])
  {
    UnusedNext(o.docs, o.next);
    assert GoodsSound(o.catalog, o.stock.movements, o.docs, o.next);
    OthersKeepGoods(o.catalog, o.stock.movements, o.docs, o.stock.movements, o.docs[o.next := d], o.next);
  }

  lemma BuiltLinesListed(c: Catalog, rates: map<nat, TaxRate>, kind: DocType, inputs: seq<LineInput>)
    requires BuildLines(c, rates, kind, inputs).Success?
    ensures ProductsListed(c, BuildLines(c, rates, kind, inputs).value)
  {
    BuildLinesSound(c, rates, kind, inputs);
    var lines := BuildLines(c, rates, kind, inputs).value;
    forall i | 0 <= i < |lines| && lines[i].input.product.Some? ensures lines[i].input.product.value in c.products {
      assert SameTerms(lines[i].input, inputs[i]);
    }
  }

  lemma UpdateKeepsGoods(o: Org, id: nat, u: DocUpdate)
    requires LifecycleInv(o.docs, o.next) && GoodsInv(o.catalog, o.stock.movements, o.docs) && Update(o, id, u).Success?
    ensures GoodsInv(o.catalog, o.stock.movements, Update(o, id, u).value.docs)
  {
    var docs' := Update(o, id, u).value.docs;
    assert GoodsSound(o.catalog, o.stock.movements, o.docs, id);
    if u.lines.Some? {
      BuiltLinesListed(o.catalog, o.rates, o.docs[id].kind, u.lines.value);
    }
    DraftsHaveNoDependents(o.docs, o.next, id);
    UnusedWithoutDependents(o.docs, id);
    OthersKeepGoods(o.catalog, o.stock.movements, o.docs, o.stock.movements, docs', id);
  }

  /** The stock a document ends up with when its goods move, and whose movements it is. */
  lemma PostStockMovements(s: Stock, c: Catalog, id: nat, d: Document, reverse: bool, x: nat)
    requires StockInv(s, c) && LinesTrackable(c, d.lines) && PostStock(s, c, id, d, reverse).Success?
    ensures var costs := if reverse then PostedCosts(MovementsOf(s.movements, id)) else map[];
            MovementsOf(PostStock(s, c, id, d, reverse).value.movements, x) ==
              MovementsOf(s.movements, x) + if x == id then MovementsFor(c, id, d.kind, reverse, Postings(c, d), costs) else []
  {
    PostStockKeepsStock(s, c, id, d, reverse);
    var costs := if reverse then PostedCosts(MovementsOf(s.movements, id)) else map[];
    var more := MovementsFor(c, id, d.kind, reverse, Postings(c, d), costs);
    MovementsOfConcat(s.movements, more, x);
    MovementsOfOwn(more, id, x);
  }

  lemma PlacedIsMovable(c: Catalog, d: Document, moves: bool)
    requires Placed(c, d, moves).Success?
    ensures var placed := Placed(c, d, moves).value;
            placed.(warehouse := d.warehouse) == d && (moves ==> Movable(placed))
  {
  }

  /** What finalizing checked about the goods, and where they were put. */
  lemma ReadyChecks(o: Org, id: nat)
    requires ReadyToFinalize(o, id).Success?
    ensures id in o.docs
    ensures var d := ReadyToFinalize(o, id).value;
            && d.(warehouse := o.docs[id].warehouse) == o.docs[id]
            && MovesStock(o.docs, d) == MovesStock(o.docs, o.docs[id])
            && (MovesStock(o.docs, d) ==> Movable(d) && CheckTracking(o.stock, o.catalog, d, d.lines).Pass?)
  {
    PlacedIsMovable(o.catalog, o.docs[id], MovesStock(o.docs, o.docs[id]));
  }

  lemma ReadyIsTrackable(o: Org, id: nat)
    requires MoneyInv(o) && ReadyToFinalize(o, id).Success?
    ensures var d := ReadyToFinalize(o, id).value;
            MovesStock(o.docs, d) ==> LinesTrackable(o.catalog, d.lines) && Movable(d)
  {
    ReadyChecks(o, id);
    var d := ReadyToFinalize(o, id).value;
    if MovesStock(o.docs, d) {
      assert MoneySound(o.docs[id], o.rates);
      assert d.lines == o.docs[id].lines;
      forall i | 0 <= i < |d.lines| ensures NormalizeSerials(d.lines[i].input.serials) == Success(d.lines[i].input.serials) {
        assert LineSound(o.docs[id].lines[i], o.rates);
      }
      CheckedIsTrackable(o.stock, o.catalog, d, d.lines);
    }
  }

  lemma FinalizeStock(o: Org, id: nat, filing: Filing)
    requires StockInv(o.stock, o.catalog) && MoneyInv(o) && Finalize(o, id, filing).Success?
    ensures var d, s' := ReadyToFinalize(o, id).value, Finalize(o, id, filing).value.stock;
            && StockInv(s', o.catalog)
            && forall x: nat :: MovementsOf(s'.movements, x) ==
                 MovementsOf(o.stock.movements, x)
                 + if x == id && MovesStock(o.docs, d) then MovementsFor(o.catalog, id, d.kind, false, Postings(o.catalog, d), map[]) else []
  {
    ReadyIsTrackable(o, id);
    var d, moves := FinalizeEffect(o, id, filing);
    var s' := Finalize(o, id, filing).value.stock;
    if moves {
      PostStockKeepsStock(o.stock, o.catalog, id, d, false);
      forall x: nat ensures MovementsOf(s'.movements, x) ==
          MovementsOf(o.stock.movements, x) + if x == id then MovementsFor(o.catalog, id, d.kind, false, Postings(o.catalog, d), map[]) else []
      {
        PostStockMovements(o.stock, o.catalog, id, d, false, x);
      }
    }
  }

  /** The document just finalized holds exactly its own goods. */
  lemma FinalizedGoods(c: Catalog, id: nat, mine: seq<Movement>, docs: Docs, d: Document, moves: bool, filing: Filing, docs': Docs)
    requires moves == MovesStock(docs, d) && (moves ==> LinesTrackable(c, d.lines) && Movable(d))
    requires d.source.Some? ==> d.source.value in docs && d.source.value in docs' && LinesMatch(docs[d.source.value], d)
    requires d.source.Some? ==> SameGoods(docs[d.source.value], docs'[d.source.value])
    requires mine == if moves then MovementsFor(c, id, d.kind, false, Postings(c, d), map[]) else []
    ensures SentGoods(c, mine, docs', FinalDocument(docs, d, moves, filing))
  {
    var f := FinalDocument(docs, d, moves, filing);
    SentIsLive(docs, d, moves, filing);
    assert Postings(c, f) == Postings(c, d);
    PostingMakesPosted(c, id, d.kind, Postings(c, d));
  }

  lemma FinalizeKeepsGoods(o: Org, id: nat, filing: Filing)
    requires LifecycleInv(o.docs, o.next) && MoneyInv(o) && StockInv(o.stock, o.catalog) && GoodsInv(o.catalog, o.stock.movements, o.docs)
    requires Finalize(o, id, filing).Success?
    ensures StockInv(Finalize(o, id, filing).value.stock, o.catalog)
    ensures GoodsInv(o.catalog, Finalize(o, id, filing).value.stock.movements, Finalize(o, id, filing).value.docs)
  {
    FinalizeStock(o, id, filing);
    ReadyIsTrackable(o, id);
    var d, moves := FinalizeEffect(o, id, filing);
    var o' := Finalize(o, id, filing).value;
    var ms, ms', docs' := o.stock.movements, o'.stock.movements, o'.docs;
    SentIsLive(o.docs, d, moves, filing);
    SourcesKeepGoods(o.docs, d);
    assert Linked(o.docs, id);
    DraftsHaveNoDependents(o.docs, o.next, id);
    UnusedWithoutDependents(o.docs, id);
    assert GoodsSound(o.catalog, ms, o.docs, id);
    FinalizedGoods(o.catalog, id, MovementsOf(ms', id), o.docs, d, moves, filing, docs');
    OthersKeepGoods(o.catalog, ms, o.docs, ms', docs', id);
  }

  lemma SourcesKeepGoods(docs: Docs, d: Document)
    requires SourcesAfter(docs, d).Success? && GuardSource(docs, d).Pass?
    ensures SourcesAfter(docs, d).value.Keys == docs.Keys
    ensures forall x :: x in docs ==> SameGoods(docs[x], SourcesAfter(docs, d).value[x])
  {
    SourcesAfterEffect(docs, d);
    var docs' := SourcesAfter(docs, d).value;
    forall x | x in docs ensures SameGoods(docs[x], docs'[x]) {
      assert docs'[x].(status := DraftDoc, credited := 0, paymentStatus := Unpaid) == docs[x].(status := DraftDoc, credited := 0, paymentStatus := Unpaid);
    }
  }

  /** When one document leaves, the others keep their goods. */
  lemma LeavingKeepsOthers(docs: Docs, next: nat, id: nat, left: Docs)
    requires LifecycleInv(docs, next) && id in docs && Live(docs[id]) && Leaves(docs, id, left)
    requires forall x :: x in docs && x != id ==> x in left && SameGoods(docs[x], left[x])
    ensures var docs' := ReopenOrder(left, docs[id].source, id);
            && docs'.Keys == left.Keys
            && (forall x :: x in docs && x != id ==> x in docs' && SameGoods(docs[x], docs'[x]))
            && (id in left ==> docs'[id] == left[id])
  {
    LeaveEffect(docs, next, id, left);
    var docs' := ReopenOrder(left, docs[id].source, id);
    forall x | x in docs && x != id ensures x in docs' && SameGoods(docs[x], docs'[x]) {
      assert docs'[x].(status := DraftDoc) == left[x].(status := DraftDoc);
    }
  }

  /** The document just voided holds what it posted and its undoing. */
  lemma VoidedGoods(c: Catalog, id: nat, posted: seq<Movement>, docs: Docs, d: Document)
    requires SentGoods(c, posted, docs, d)
    ensures var undone := if d.stockPosted then MovementsFor(c, id, d.kind, true, Postings(c, d), PostedCosts(posted)) else [];
            DocGoods(c, posted + undone, docs, VoidedDocument(d))
  {
    assert Postings(c, VoidedDocument(d)) == Postings(c, d);
    if d.stockPosted {
      var ps := Postings(c, d);
      var undone := MovementsFor(c, id, d.kind, true, ps, PostedCosts(posted));
      ReversingUndoes(c, id, d.kind, ps, posted);
      assert (posted + undone)[..|ps|] == posted && (posted + undone)[|ps|..] == undone;
    } else {
      assert posted + [] == posted;
    }
  }

  lemma VoidStock(o: Org, id: nat)
    requires StockInv(o.stock, o.catalog) && GoodsInv(o.catalog, o.stock.movements, o.docs) && VoidDocument(o, id).Success?
    ensures id in o.docs
    ensures var d, s', posted := o.docs[id], VoidDocument(o, id).value.stock, MovementsOf(o.stock.movements, id);
            && StockInv(s', o.catalog)
            && (forall x: nat :: x != id ==> MovementsOf(s'.movements, x) == MovementsOf(o.stock.movements, x))
            && MovementsOf(s'.movements, id) == posted + if d.stockPosted then MovementsFor(o.catalog, id, d.kind, true, Postings(o.catalog, d), PostedCosts(posted)) else []
  {
    VoidEffect(o, id);
    var d, s' := o.docs[id], VoidDocument(o, id).value.stock;
    assert GoodsSound(o.catalog, o.stock.movements, o.docs, id);
    if d.stockPosted {
      PostStockKeepsStock(o.stock, o.catalog, id, d, true);
      PostStockMovements(o.stock, o.catalog, id, d, true, id);
      forall x: nat | x != id ensures MovementsOf(s'.movements, x) == MovementsOf(o.stock.movements, x) {
        PostStockMovements(o.stock, o.catalog, id, d, true, x);
      }
    } else {
      assert MovementsOf(o.stock.movements, id) + [] == MovementsOf(o.stock.movements, id);
    }
  }

  /** Voiding touches the goods of no other document. */
  lemma VoidKeepsOthers(o: Org, id: nat)
    requires LifecycleInv(o.docs, o.next) && VoidDocument(o, id).Success?
    ensures var d, docs' := o.docs[id], VoidDocument(o, id).value.docs;
            && docs'.Keys == o.docs.Keys && docs'[id] == VoidedDocument(d) && Unused(o.docs, id)
            && (d.status.SentDoc? || d.status.ClosedDoc?)
            && forall x :: x in o.docs && x != id ==> SameGoods(o.docs[x], docs'[x])
  {
    VoidEffect(o, id);
    var d := o.docs[id];
    assert Linked(o.docs, id);
    LeavingKeepsOthers(o.docs, o.next, id, WithoutCredit(o.docs, d)[id := VoidedDocument(d)]);
    UnusedWithoutDependents(o.docs, id);
  }

  lemma VoidKeepsGoods(o: Org, id: nat)
    requires LifecycleInv(o.docs, o.next) && StockInv(o.stock, o.catalog) && GoodsInv(o.catalog, o.stock.movements, o.docs)
    requires VoidDocument(o, id).Success?
    ensures StockInv(VoidDocument(o, id).value.stock, o.catalog)
    ensures GoodsInv(o.catalog, VoidDocument(o, id).value.stock.movements, VoidDocument(o, id).value.docs)
  {
    VoidStock(o, id);
    VoidKeepsOthers(o, id);
    assert GoodsSound(o.catalog, o.stock.movements, o.docs, id);
    VoidedGoods(o.catalog, id, MovementsOf(o.stock.movements, id), o.docs, o.docs[id]);
    var o' := VoidDocument(o, id).value;
    OthersKeepGoods(o.catalog, o.stock.movements, o.docs, o'.stock.movements, o'.docs, id);
  }

  lemma DeleteKeepsGoods(o: Org, id: nat)
    requires LifecycleInv(o.docs, o.next) && GoodsInv(o.catalog, o.stock.movements, o.docs) && Delete(o, id).Success?
    ensures GoodsInv(o.catalog, o.stock.movements, Delete(o, id).value.docs)
  {
    LeavingKeepsOthers(o.docs, o.next, id, o.docs - {id});
    DraftsHaveNoDependents(o.docs, o.next, id);
    UnusedWithoutDependents(o.docs, id);
    assert GoodsSound(o.catalog, o.stock.movements, o.docs, id);
    OthersKeepGoods(o.catalog, o.stock.movements, o.docs, o.stock.movements, Delete(o, id).value.docs, id);
  }

  lemma CreateKeepsGoods(o: Org, kind: DocType, i: DocInput)
    requires LifecycleInv(o.docs, o.next) && GoodsInv(o.catalog, o.stock.movements, o.docs) && Create(o, kind, i).Success?
    ensures GoodsInv(o.catalog, o.stock.movements, Create(o, kind, i).value.docs)
  {
    BuiltLinesListed(o.catalog, o.rates, kind, i.lines);
    AddDraftKeepsGoods(o, Create(o, kind, i).value.docs[o.next]);
  }

  lemma ConvertKeepsGoods(o: Org, id: nat, target: DocType, today: int)
    requires LifecycleInv(o.docs, o.next) && GoodsInv(o.catalog, o.stock.movements, o.docs) && Convert(o, id, target, today).Success?
    ensures GoodsInv(o.catalog, o.stock.movements, Convert(o, id, target, today).value.docs)
  {
    BuiltLinesListed(o.catalog, o.rates, target, CarriedInputs(o.docs[id].lines, PreservesGoods(o.docs[id], target)));
    AddDraftKeepsGoods(o, Convert(o, id, target, today).value.docs[o.next]);
  }

  lemma CatalogStepKeepsGoods(o: Org, catalog: Catalog)
    requires StockInv(o.stock, o.catalog) && GoodsInv(o.catalog, o.stock.movements, o.docs) && SameTracking(o.catalog, catalog)
    ensures StockInv(o.stock, catalog) && GoodsInv(catalog, o.stock.movements, o.docs)
  {
    CatalogChangeKeepsStock(o.stock, o.catalog, catalog);
    CatalogKeepsGoods(o.catalog, catalog, o.stock.movements, o.docs);
  }

  /** Settlement, rates, roles and the books leave the goods alone. */
  predicate LeavesGoods(op: OrgOp) {
    op.PayOp? || op.UnpayOp? || op.UpdateRateOp? || op.AddRateOp? || op.PartyOpeningOp? || op.BooksCall? || op.RolesOp?
  }

  lemma OtherStepsLeaveGoods(o: Org, op: OrgOp)
    requires LeavesGoods(op) && OrgStep(o, op).Success?
    ensures var o' := OrgStep(o, op).value;
            && o'.stock == o.stock && o'.catalog == o.catalog && o'.docs.Keys == o.docs.Keys
            && forall x :: x in o.docs ==> SameGoods(o.docs[x], o'.docs[x])
  {
  }

  lemma EditsKeepGoods(o: Org, op: OrgOp)
    requires LifecycleInv(o.docs, o.next) && StockInv(o.stock, o.catalog) && GoodsInv(o.catalog, o.stock.movements, o.docs)
    requires OrgStep(o, op).Success? && (op.CreateOp? || op.UpdateOp? || op.ConvertOp? || op.DeleteOp?)
    ensures OrgStep(o, op).value.stock == o.stock && OrgStep(o, op).value.catalog == o.catalog
    ensures GoodsInv(o.catalog, o.stock.movements, OrgStep(o, op).value.docs)
  {
    match op
    case CreateOp(kind, input) => CreateKeepsGoods(o, kind, input);
    case UpdateOp(id, update) => UpdateKeepsGoods(o, id, update);
    case ConvertOp(id, target, today) => ConvertKeepsGoods(o, id, target, today);
    case DeleteOp(id) => DeleteKeepsGoods(o, id);
  }

  /** The stock agrees, and so do the documents' goods. */
  ghost predicate AllGoods(o: Org) {
    StockInv(o.stock, o.catalog) && GoodsInv(o.catalog, o.stock.movements, o.docs)
  }

  /** Each kind of step, as the machine takes it. */
  lemma CatalogStep(o: Org, op: OrgOp)
    requires AllGoods(o) && op.CatalogOp? && OrgStep(o, op).Success?
    ensures AllGoods(OrgStep(o, op).value)
  {
    CatalogStepKeepsGoods(o, op.catalog);
    assert OrgStep(o, op).value == o.(catalog := op.catalog);
  }

  lemma AdjustStep(o: Org, op: OrgOp)
    requires LifecycleInv(o.docs, o.next) && AllGoods(o) && op.AdjustOp? && OrgStep(o, op).Success?
    ensures AllGoods(OrgStep(o, op).value)
  {
    AdjustStepKeepsGoods(o, op.adjust, op.account, op.day);
  }

  lemma TransferStep(o: Org, op: OrgOp)
    requires LifecycleInv(o.docs, o.next) && AllGoods(o) && op.TransferOp? && OrgStep(o, op).Success?
    ensures AllGoods(OrgStep(o, op).value)
  {
    TransferStepKeepsGoods(o, op.transfer);
  }

  lemma OpeningStep(o: Org, op: OrgOp)
    requires LifecycleInv(o.docs, o.next) && AllGoods(o) && op.OpeningOp? && OrgStep(o, op).Success?
    ensures AllGoods(OrgStep(o, op).value)
  {
    OpeningStepKeepsGoods(o, op.product, op.entries, op.order, op.day);
  }

  lemma FinalizeStep(o: Org, op: OrgOp)
    requires LifecycleInv(o.docs, o.next) && MoneyInv(o) && AllGoods(o) && op.FinalizeOp? && OrgStep(o, op).Success?
    ensures AllGoods(OrgStep(o, op).value)
  {
    FinalizeKeepsGoods(o, op.id, op.filing);
    assert OrgStep(o, op).value.catalog == o.catalog;
  }

  lemma VoidStep(o: Org, op: OrgOp)
    requires LifecycleInv(o.docs, o.next) && AllGoods(o) && op.VoidOp? && OrgStep(o, op).Success?
    ensures AllGoods(OrgStep(o, op).value)
  {
    VoidKeepsGoods(o, op.id);
    assert OrgStep(o, op).value.catalog == o.catalog;
  }

  lemma EditStep(o: Org, op: OrgOp)
    requires LifecycleInv(o.docs, o.next) && AllGoods(o) && (op.CreateOp? || op.UpdateOp? || op.ConvertOp? || op.DeleteOp?) && OrgStep(o, op).Success?
    ensures AllGoods(OrgStep(o, op).value)
  {
    EditsKeepGoods(o, op);
  }

  lemma OtherStep(o: Org, op: OrgOp)
    requires LifecycleInv(o.docs, o.next) && AllGoods(o) && LeavesGoods(op) && OrgStep(o, op).Success?
    ensures AllGoods(OrgStep(o, op).value)
  {
    OtherStepsLeaveGoods(o, op);
    SameDocsKeepGoods(o, OrgStep(o, op).value);
  }

  /** Every step keeps levels, lots, serials and links in agreement, and every
      document's goods where its status says. */
  lemma StepKeepsGoods(o: Org, op: OrgOp)
    requires LifecycleInv(o.docs, o.next) && MoneyInv(o) && AllGoods(o)
    requires OrgStep(o, op).Success?
    ensures AllGoods(OrgStep(o, op).value)
  {
    if op.AdjustOp? {
      AdjustStep(o, op);
    } else if op.TransferOp? {
      TransferStep(o, op);
    } else if op.OpeningOp? {
      OpeningStep(o, op);
    } else if op.CatalogOp? {
      CatalogStep(o, op);
    } else if op.FinalizeOp? {
      FinalizeStep(o, op);
    } else if op.VoidOp? {
      VoidStep(o, op);
    } else if LeavesGoods(op) {
      OtherStep(o, op);
    } else {
      EditStep(o, op);
    }
  }

  lemma AdjustStepKeepsGoods(o: Org, a: AdjustInput, account: Option<nat>, day: int)
    requires LifecycleInv(o.docs, o.next) && StockInv(o.stock, o.catalog) && GoodsInv(o.catalog, o.stock.movements, o.docs)
    requires AdjustStock(o, a, account, day).Success?
    ensures var o' := AdjustStock(o, a, account, day).value;
            StockInv(o'.stock, o'.catalog) && GoodsInv(o'.catalog, o'.stock.movements, o'.docs)
  {
    var o' := AdjustStock(o, a, account, day).value;
    AdjustKeepsStock(o.stock, o.catalog, a);
    forall x: nat ensures MovementsOf(o'.stock.movements, x) == MovementsOf(o.stock.movements, x) {
      AdjustMovements(o.stock, o.catalog, a, x);
    }
    SameDocsKeepGoods(o, o');
  }

  lemma TransferStepKeepsGoods(o: Org, t: TransferInput)
    requires LifecycleInv(o.docs, o.next) && StockInv(o.stock, o.catalog) && GoodsInv(o.catalog, o.stock.movements, o.docs)
    requires TransferStock(o, t).Success?
    ensures var o' := TransferStock(o, t).value;
            StockInv(o'.stock, o'.catalog) && GoodsInv(o'.catalog, o'.stock.movements, o'.docs)
  {
    var o' := TransferStock(o, t).value;
    TransferKeepsStock(o.stock, o.catalog, t);
    forall x: nat ensures MovementsOf(o'.stock.movements, x) == MovementsOf(o.stock.movements, x) {
      TransferredMovements(o.stock, o.catalog, t, x);
    }
    SameDocsKeepGoods(o, o');
  }

  lemma OpeningStepKeepsGoods(o: Org, product: nat, entries: seq<OpeningEntry>, order: seq<Key>, day: int)
    requires LifecycleInv(o.docs, o.next) && StockInv(o.stock, o.catalog) && GoodsInv(o.catalog, o.stock.movements, o.docs)
    requires ValidOrder(o.stock, o.catalog, product, entries, order) && SetOpening(o, product, entries, order, day).Success?
    ensures var o' := SetOpening(o, product, entries, order, day).value;
            StockInv(o'.stock, o'.catalog) && GoodsInv(o'.catalog, o'.stock.movements, o'.docs)
  {
    var o' := SetOpening(o, product, entries, order, day).value;
    OpeningKeeps(o.stock, o.catalog, product, entries, order);
    var requested := Collect(o.stock, o.catalog, product, entries, map[]).value;
    forall x: nat ensures MovementsOf(o'.stock.movements, x) == MovementsOf(o.stock.movements, x) {
      SetKeysMovements(Progress(o.stock, 0), o.catalog, order, requested, OpeningState(o.stock.movements, product), OpeningRef(|o.stock.movements|), x);
    }
    SameDocsKeepGoods(o, o');
  }
}
