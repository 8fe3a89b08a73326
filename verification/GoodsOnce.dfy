/** Goods move exactly once along a chain of documents, in the amounts its lines say,
    and not at all once a document is void. */
module GoodsOnce {
  import opened Basics
  import opened StockTables
  import opened Inventory
  import opened DocumentTables
  import opened DocumentStock
  import opened GoodsMoved
  import opened Documents
  import opened GoodsInvariant

  // --------------------------------------------- product totals from signatures

  /** What lines grouped by signature say of one product. */
  ghost function SumFor(m: map<Signature, int>, product: nat, keys: set<Signature>): int
    requires keys <= m.Keys
  {
    if keys == {} then 0
    else
      var k :| k in keys;
      (if k.product == Some(product) then m[k] else 0) + SumFor(m, product, keys - {k})
  }

  lemma SumForPick(m: map<Signature, int>, product: nat, keys: set<Signature>, k: Signature)
    requires keys <= m.Keys && k in keys
    ensures SumFor(m, product, keys) == (if k.product == Some(product) then m[k] else 0) + SumFor(m, product, keys - {k})
    decreases keys
  {
    var first :| first in keys && SumFor(m, product, keys) == (if first.product == Some(product) then m[first] else 0) + SumFor(m, product, keys - {first});
    if first != k {
      SumForPick(m, product, keys - {first}, k);
      SumForPick(m, product, keys - {k}, first);
      assert keys - {first} - {k} == keys - {k} - {first};
    }
  }

  lemma SumForSame(m: map<Signature, int>, m': map<Signature, int>, product: nat, keys: set<Signature>)
    requires keys <= m.Keys && keys <= m'.Keys && forall k :: k in keys ==> m'[k] == m[k]
    ensures SumFor(m', product, keys) == SumFor(m, product, keys)
    decreases keys
  {
    if k :| k in keys {
      SumForPick(m, product, keys, k);
      SumForPick(m', product, keys, k);
      SumForSame(m, m', product, keys - {k});
    }
  }

  /** Grouping lines by signature loses nothing of a product. */
  lemma {:induction false} SumForLines(lines: seq<DocLine>, product: nat)
    ensures SumFor(LineQuantities(lines), product, LineQuantities(lines).Keys) == LineQty(lines, product)
  {
    if lines != [] {
      var front := lines[..|lines| - 1];
      var rest, all := LineQuantities(front), LineQuantities(lines);
      var k := SignatureOf(lines[|lines| - 1].input);
      SumForLines(front, product);
      SumForPick(all, product, all.Keys, k);
      SumForSame(rest, all, product, rest.Keys - {k});
      assert all.Keys - {k} == rest.Keys - {k};
      if k in rest {
        SumForPick(rest, product, rest.Keys, k);
      } else {
        assert rest.Keys - {k} == rest.Keys;
      }
    }
  }

  /** Lines that match in every signature carry the same goods. */
  lemma SameQuantities(lines: seq<DocLine>, others: seq<DocLine>, product: nat)
    requires LineQuantities(lines) == LineQuantities(others)
    ensures LineQty(lines, product) == LineQty(others, product)
  {
    SumForLines(lines, product);
    SumForLines(others, product);
  }

  lemma SumForAtMost(m: map<Signature, int>, m': map<Signature, int>, product: nat, keys: set<Signature>, keys': set<Signature>)
    requires keys <= m.Keys && keys' <= m'.Keys && keys <= keys'
    requires forall k :: k in keys ==> m[k] <= m'[k]
    requires forall k :: k in keys' ==> m'[k] >= 0
    ensures SumFor(m, product, keys) <= SumFor(m', product, keys')
    decreases keys'
  {
    if k :| k in keys' {
      SumForPick(m', product, keys', k);
      if k in keys {
        SumForPick(m, product, keys, k);
        SumForAtMost(m, m', product, keys - {k}, keys' - {k});
      } else {
        SumForAtMost(m, m', product, keys, keys' - {k});
      }
    }
  }

  lemma {:induction false} QuantitiesPositive(lines: seq<DocLine>)
    ensures forall k :: k in LineQuantities(lines) ==> LineQuantities(lines)[k] > 0
  {
    if lines != [] {
      QuantitiesPositive(lines[..|lines| - 1]);
    }
  }

  /** A credit note returns no more of a product than its invoice sold. */
  lemma CreditNoteReturnsAtMost(source: Document, d: Document, product: nat)
    requires d.kind.CreditNote? && LinesMatch(source, d)
    ensures LineQty(d.lines, product) <= LineQty(source.lines, product)
  {
    var want, have := LineQuantities(d.lines), LineQuantities(source.lines);
    QuantitiesPositive(source.lines);
    SumForLines(d.lines, product);
    SumForLines(source.lines, product);
    SumForAtMost(want, have, product, want.Keys, have.Keys);
  }

  // ------------------------------------------------------------------ the theorems

  /** A document that posted its own goods moved exactly what its lines say. */
  lemma PostedMovesLines(c: Catalog, ms: seq<Movement>, docs: Docs, id: nat, product: nat)
    requires GoodsInv(c, ms, docs) && id in docs && docs[id].stockPosted
    requires product in c.products && c.products[product].tracked
    ensures ProductTotal(MovementsOf(ms, id), product) == Direction(docs[id].kind) * LineQty(docs[id].lines, product)
  {
    var d := docs[id];
    assert GoodsSound(c, ms, docs, id);
    PostedTotal(MovementsOf(ms, id), Postings(c, d), d.kind, product);
    if d.warehouse.Some? {
      PostingsCarryLines(c, d, product);
    } else {
      NoProductLines(d.lines, product);
    }
  }

  lemma {:induction false} NoProductLines(lines: seq<DocLine>, product: nat)
    requires forall i :: 0 <= i < |lines| ==> lines[i].input.product.None?
    ensures LineQty(lines, product) == 0
  {
    if lines != [] {
      NoProductLines(lines[..|lines| - 1], product);
    }
  }

  /** What a document's source moved for it already. */
  function MovedBySource(ms: seq<Movement>, docs: Docs, d: Document, product: nat): int {
    if SourceMoved(docs, d) then ProductTotal(MovementsOf(ms, d.source.value), product) else 0
  }

  /** For every sent document that moves goods, exactly one of it and its source has
      posted stock in its direction, and between them they moved, of every tracked
      product, what the document's own lines say. */
  lemma GoodsMoveOnce(c: Catalog, ms: seq<Movement>, docs: Docs, id: nat, product: nat)
    requires GoodsInv(c, ms, docs) && id in docs && docs[id].status.SentDoc? && Direction(docs[id].kind) != 0
    requires product in c.products && c.products[product].tracked
    ensures docs[id].stockPosted <==> !SourceMoved(docs, docs[id])
    ensures ProductTotal(MovementsOf(ms, id), product) + MovedBySource(ms, docs, docs[id], product)
            == Direction(docs[id].kind) * LineQty(docs[id].lines, product)
  {
    var d := docs[id];
    assert GoodsSound(c, ms, docs, id);
    if d.stockPosted {
      PostedMovesLines(c, ms, docs, id, product);
    } else {
      var s := d.source.value;
      assert GoodsSound(c, ms, docs, s);
      PostedMovesLines(c, ms, docs, s, product);
      SameQuantities(d.lines, docs[s].lines, product);
    }
  }

  /** The movements of a void document cancel at every warehouse, bin and lot. */
  lemma VoidMovesNothing(c: Catalog, ms: seq<Movement>, docs: Docs, id: nat, k: Key)
    requires GoodsInv(c, ms, docs) && id in docs && docs[id].status.VoidDoc?
    ensures OnHand(MovementsOf(ms, id), k) == 0
  {
    var mine := MovementsOf(ms, id);
    assert GoodsSound(c, ms, docs, id);
    if mine != [] {
      var n := |Postings(c, docs[id])|;
      assert mine == mine[..n] + mine[n..];
      UndoneQuantity(mine[..n], mine[n..], k);
    }
  }

  /** What a document first posted. */
  function FirstPosted(mine: seq<Movement>): seq<Movement> {
    mine[..|mine| / 2]
  }

  /** Its value cancels too, for a product, bin and lot, exactly when it was posted, on
      the whole, at the last cost posted there. */
  lemma VoidValueExactly(c: Catalog, ms: seq<Movement>, docs: Docs, id: nat, k: CostKey)
    requires GoodsInv(c, ms, docs) && id in docs && docs[id].status.VoidDoc?
    ensures var posted := FirstPosted(MovementsOf(ms, id));
            KeyValue(MovementsOf(ms, id), k) == 0 <==> KeyValue(posted, k) == LastCost(posted, k) * KeyQty(posted, k)
  {
    var mine := MovementsOf(ms, id);
    assert GoodsSound(c, ms, docs, id);
    if mine != [] {
      var n := |Postings(c, docs[id])|;
      assert mine == mine[..n] + mine[n..];
      UndoneValueExactly(mine[..n], mine[n..], k);
    }
  }

  lemma {:induction false} OppositeValue(ms: seq<Movement>, rs: seq<Movement>)
    requires |rs| == |ms|
    requires forall i :: 0 <= i < |ms| ==> rs[i].qty == -ms[i].qty && rs[i].unitCost == ms[i].unitCost
    ensures StockValue(rs) == -StockValue(ms)
  {
    if ms != [] {
      var i := |ms| - 1;
      OppositeValue(ms[..i], rs[..i]);
      Negated(ms[i].qty, ms[i].unitCost.GetOr(0));
    }
  }

  lemma Negated(a: int, b: int)
    ensures -a * b == -(a * b)
  {
  }

  lemma {:induction false} StockValueConcat(ms: seq<Movement>, rs: seq<Movement>)
    ensures StockValue(ms + rs) == StockValue(ms) + StockValue(rs)
  {
    if rs == [] {
      assert ms + rs == ms;
    } else {
      StockValueConcat(ms, rs[..|rs| - 1]);
      assert (ms + rs)[..|ms + rs| - 1] == ms + rs[..|rs| - 1];
    }
  }

  /** No two postings of one product, bin and lot at different line prices. */
  predicate OnePricePerKey(ps: seq<Posting>) {
    forall i, j :: 0 <= i < |ps| && 0 <= j < |ps| && CostKeyOf(ps[i].key) == CostKeyOf(ps[j].key) ==> ps[i].linePrice == ps[j].linePrice
  }

  /** The whole value of a void document cancels, whatever its products cost today: for
      every sale, delivery and return, and for every purchase that prices each
      product, bin and lot alike. */
  lemma VoidIsWorthNothing(c: Catalog, ms: seq<Movement>, docs: Docs, id: nat)
    requires GoodsInv(c, ms, docs) && id in docs && docs[id].status.VoidDoc?
    requires PricedAtCost(docs[id].kind) ==> OnePricePerKey(Postings(c, docs[id]))
    ensures StockValue(MovementsOf(ms, id)) == 0
  {
    var mine := MovementsOf(ms, id);
    assert GoodsSound(c, ms, docs, id);
    if mine != [] {
      var ps := Postings(c, docs[id]);
      var posted, undone := mine[..|ps|], mine[|ps|..];
      assert mine == posted + undone;
      PostedAtOneCost(posted, ps, docs[id].kind);
      forall i | 0 <= i < |posted| ensures undone[i].qty == -posted[i].qty && undone[i].unitCost == posted[i].unitCost {
        OneCostIsLast(posted, i);
      }
      OppositeValue(posted, undone);
      StockValueConcat(posted, undone);
    }
  }
}
