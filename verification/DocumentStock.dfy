/** The goods a document moves: which movements its lines become, in what order, and
    at what cost; and the reverse of them when it is voided. */
module DocumentStock {
  import opened Basics
  import opened SerialNumbers
  import opened StockTables
  import opened Tracking
  import opened Inventory
  import opened DocumentTables

  /** A movement to make: where, how much, which serials, and what the line says the
      goods cost. */
  datatype Posting = Posting(key: Key, quantity: int, serials: seq<string>, linePrice: nat)

  /** Lines with a product, sorted by it, keeping their order otherwise. */
  function InsertLine(line: LineInput, lines: seq<LineInput>): seq<LineInput>
    requires line.product.Some? && forall l :: l in lines ==> l.product.Some?
    ensures forall l :: l in InsertLine(line, lines) ==> l.product.Some?
  {
    if lines == [] || lines[|lines| - 1].product.value <= line.product.value then lines + [line]
    else InsertLine(line, lines[..|lines| - 1]) + [lines[|lines| - 1]]
  }

  function Trackable(lines: seq<DocLine>): seq<LineInput>
    ensures forall l :: l in Trackable(lines) ==> l.product.Some?
  {
    if lines == [] then []
    else
      var rest := Trackable(lines[..|lines| - 1]);
      var input := lines[|lines| - 1].input;
      if input.product.Some? then InsertLine(input, rest) else rest
  }

  function LotPostings(i: LineInput, location: nat, lots: seq<LotAllocation>): seq<Posting>
    requires i.product.Some?
  {
    if lots == [] then []
    else
      var a := lots[|lots| - 1];
      LotPostings(i, location, lots[..|lots| - 1])
      + [Posting(Key(i.product.value, location, i.bin, Some(a.lot)), a.quantity, [], i.unitPrice)]
  }

  /** What one line moves. */
  function LinePostings(c: Catalog, i: LineInput, location: nat): seq<Posting>
    requires i.product.Some?
  {
    if i.product.value !in c.products || !c.products[i.product.value].tracked then []
    else if c.products[i.product.value].mode.LotTracked? then LotPostings(i, location, i.lots)
    else [Posting(Key(i.product.value, location, i.bin, None), i.quantity, i.serials, i.unitPrice)]
  }

  function AllPostings(c: Catalog, lines: seq<LineInput>, location: nat): seq<Posting>
    requires forall l :: l in lines ==> l.product.Some?
  {
    if lines == [] then []
    else AllPostings(c, lines[..|lines| - 1], location) + LinePostings(c, lines[|lines| - 1], location)
  }

  /** Everything a document moves, in the order it moves it. */
  function Postings(c: Catalog, d: Document): seq<Posting> {
    if Direction(d.kind) == 0 || d.warehouse.None? then []
    else AllPostings(c, Trackable(d.lines), d.warehouse.value)
  }

  /** A posting's cost key: `_posted_unit_costs` knows nothing of the warehouse. */
  datatype CostKey = CostKey(product: nat, bin: Option<nat>, lot: Option<nat>)

  function CostKeyOf(k: Key): CostKey {
    CostKey(k.product, k.bin, k.lot)
  }

  /** The movements of one document, in order. */
  function MovementsOf(ms: seq<Movement>, id: nat): seq<Movement> {
    if ms == [] then []
    else
      var rest := MovementsOf(ms[..|ms| - 1], id);
      if ms[|ms| - 1].ref == DocumentRef(id) then rest + [ms[|ms| - 1]] else rest
  }

  /** `_posted_unit_costs`: the last cost posted for each key. */
  function PostedCosts(ms: seq<Movement>): map<CostKey, Option<int>> {
    if ms == [] then map[]
    else PostedCosts(ms[..|ms| - 1])[CostKeyOf(ms[|ms| - 1].key) := ms[|ms| - 1].unitCost]
  }

  /** Today's cost of a posting: the line's price on a purchase, else the product's. */
  function CurrentCost(c: Catalog, kind: DocType, p: Posting): Option<int> {
    if PricedAtCost(kind) then Some(100 * p.linePrice)
    else if p.key.product in c.products then c.products[p.key.product].price
    else None
  }

  function CostOf(c: Catalog, kind: DocType, p: Posting, costs: map<CostKey, Option<int>>): Option<int> {
    if CostKeyOf(p.key) in costs then costs[CostKeyOf(p.key)] else CurrentCost(c, kind, p)
  }

  function DirectionOf(kind: DocType, reverse: bool): int {
    if reverse then -Direction(kind) else Direction(kind)
  }

  function MovementFor(c: Catalog, id: nat, kind: DocType, reverse: bool, p: Posting, costs: map<CostKey, Option<int>>): Movement {
    Movement(p.key, DirectionOf(kind, reverse) * p.quantity, MovementOf(kind), DocumentRef(id), CostOf(c, kind, p, costs), None)
  }

  /** One turn of the loop of `_post_stock`. */
  function PostOne(s: Stock, c: Catalog, id: nat, kind: DocType, reverse: bool, p: Posting, costs: map<CostKey, Option<int>>): Result<Stock> {
    var posted :- PostDocumentMovement(s, c, MovementFor(c, id, kind, reverse, p, costs));
    if ModeOf(c, p.key.product).SerialTracked? then
      ApplySerialMovement(posted, p.key.product, p.key.location, p.key.bin, p.serials, |s.movements|,
                          DirectionOf(kind, reverse) > 0, Cause(MovementOf(kind), reverse))
    else
      Success(posted)
  }

  function PostAll(s: Stock, c: Catalog, id: nat, kind: DocType, reverse: bool, ps: seq<Posting>, costs: map<CostKey, Option<int>>): Result<Stock>
    decreases |ps|
  {
    if ps == [] then Success(s)
    else
      var before :- PostAll(s, c, id, kind, reverse, ps[..|ps| - 1], costs);
      PostOne(before, c, id, kind, reverse, ps[|ps| - 1], costs)
  }

  /** `_post_stock`. */
  function PostStock(s: Stock, c: Catalog, id: nat, d: Document, reverse: bool): Result<Stock> {
    PostAll(s, c, id, d.kind, reverse, Postings(c, d), if reverse then PostedCosts(MovementsOf(s.movements, id)) else map[])
  }

  /** `_stock_value`: what a document's movements are worth, signed. */
  function StockValue(ms: seq<Movement>): int {
    if ms == [] then 0
    else StockValue(ms[..|ms| - 1]) + ms[|ms| - 1].qty * ms[|ms| - 1].unitCost.GetOr(0)
  }

  // ------------------------------------------------------------ tracking checks

  function SumLots(lots: seq<LotAllocation>): int {
    if lots == [] then 0 else SumLots(lots[..|lots| - 1]) + lots[|lots| - 1].quantity
  }

  /** `_validate_tracking` for one line of a document that moves stock. */
  function CheckLineTracking(s: Stock, c: Catalog, d: Document, i: LineInput): Check {
    if i.product.None? || i.product.value !in c.products || !c.products[i.product.value].tracked then Pass
    else
      match c.products[i.product.value].mode
      case LotTracked =>
        if SumLots(i.lots) != i.quantity || i.serials != [] then Fail(BadRequest)
        else Need(Direction(d.kind) < 0 ==> forall a :: a in i.lots ==>
                    a.lot in c.lots && c.lots[a.lot].expiry.Some? ==> c.lots[a.lot].expiry.value >= d.issued, BadRequest)
      case SerialTracked =>
        if i.quantity % 1000 != 0 || 1000 * |i.serials| != i.quantity || i.lots != [] then Fail(BadRequest)
        else if Direction(d.kind) < 0 then
          if d.warehouse.None? then Fail(BadRequest)
          else SerialsAvailable(s.units, i.product.value, d.warehouse.value, i.bin, i.serials)
        else SerialsReceivable(s.units, i.product.value, i.serials, d.kind.CreditNote?)
      case Untracked => Need(i.lots == [] && i.serials == [], BadRequest)
  }

  function CheckTracking(s: Stock, c: Catalog, d: Document, lines: seq<DocLine>): Check
    decreases |lines|
  {
    if lines == [] then Pass
    else
      var first := CheckLineTracking(s, c, d, lines[0].input);
      if first.Fail? then first else CheckTracking(s, c, d, lines[1..])
  }

  // --------------------------------------------------------------- preflight

  type BinKey = (nat, Option<nat>)

  predicate NeedsBinStock(c: Catalog, i: LineInput) {
    && i.product.Some? && i.product.value in c.products && c.products[i.product.value].tracked
    && c.products[i.product.value].mode.Untracked?
  }

  function BinKeyOf(i: LineInput): BinKey
    requires i.product.Some?
  {
    (i.product.value, i.bin)
  }

  /** What the untracked lines of a document take from each bin. */
  function Required(c: Catalog, lines: seq<DocLine>): map<BinKey, int> {
    if lines == [] then map[]
    else
      var rest := Required(c, lines[..|lines| - 1]);
      var i := lines[|lines| - 1].input;
      if NeedsBinStock(c, i) then
        var key := BinKeyOf(i);
        rest[key := (if key in rest then rest[key] else 0) + i.quantity]
      else rest
  }

  /** The same bins in the order the lines first name them. */
  function RequiredOrder(c: Catalog, lines: seq<DocLine>): (r: seq<BinKey>)
    ensures forall k :: k in r <==> k in Required(c, lines)
  {
    if lines == [] then []
    else
      var rest := RequiredOrder(c, lines[..|lines| - 1]);
      var i := lines[|lines| - 1].input;
      if NeedsBinStock(c, i) && BinKeyOf(i) !in rest then rest + [BinKeyOf(i)] else rest
  }

  /** The lot checks of `_preflight_outbound_stock`, line by line. */
  function CheckLots(s: Stock, c: Catalog, warehouse: nat, lines: seq<DocLine>): Check
    decreases |lines|
  {
    if lines == [] then Pass
    else
      var i := lines[0].input;
      var first :=
        if i.product.Some? && i.product.value in c.products && c.products[i.product.value].tracked
           && c.products[i.product.value].mode.LotTracked?
        then CheckAllocations(s, c, warehouse, i, i.lots)
        else Pass;
      if first.Fail? then first else CheckLots(s, c, warehouse, lines[1..])
  }

  function CheckAllocations(s: Stock, c: Catalog, warehouse: nat, i: LineInput, lots: seq<LotAllocation>): Check
    requires i.product.Some?
    decreases |lots|
  {
    if lots == [] then Pass
    else if !ActiveLocation(c, warehouse) || !UsableBin(c, warehouse, i.bin) || !LotOf(c, lots[0].lot, i.product.value) then Fail(NotFound)
    else if Level(s, Key(i.product.value, warehouse, i.bin, Some(lots[0].lot))) < lots[0].quantity then Fail(BadRequest)
    else CheckAllocations(s, c, warehouse, i, lots[1..])
  }

  ghost function CheckRequired(s: Stock, c: Catalog, warehouse: nat, required: map<BinKey, int>, order: seq<BinKey>): Check
    requires forall k :: k in order ==> k in required
    decreases |order|
  {
    if order == [] then Pass
    else
      assert order[0] in order;
      if !ActiveLocation(c, warehouse) || !UsableBin(c, warehouse, order[0].1) then Fail(NotFound)
      else if OnHandInBin(s, order[0].0, warehouse, order[0].1) < required[order[0]] then Fail(BadRequest)
      else CheckRequired(s, c, warehouse, required, order[1..])
  }

  /** `_preflight_outbound_stock`: the first missing place or shortage refuses. */
  ghost function Preflight(s: Stock, c: Catalog, d: Document): Check {
    if d.warehouse.None? then Pass
    else
      var lots := CheckLots(s, c, d.warehouse.value, d.lines);
      if lots.Fail? then lots
      else CheckRequired(s, c, d.warehouse.value, Required(c, d.lines), RequiredOrder(c, d.lines))
  }

  // -------------------------------------------------------------------- proofs

  /** A line whose tracking adds up, so that its stock can be moved. */
  ghost predicate LineTrackable(c: Catalog, i: LineInput) {
    i.product.Some? && i.product.value in c.products && c.products[i.product.value].tracked ==>
      match c.products[i.product.value].mode
      case LotTracked => SumLots(i.lots) == i.quantity
      case SerialTracked => i.quantity == 1000 * |i.serials| && NormalizeSerials(i.serials) == Success(i.serials)
      case Untracked => true
  }

  ghost predicate LinesTrackable(c: Catalog, lines: seq<DocLine>) {
    forall i :: 0 <= i < |lines| ==> LineTrackable(c, lines[i].input)
  }

  /** What `_validate_tracking` lets through can be moved. */
  lemma {:induction false} CheckedIsTrackable(s: Stock, c: Catalog, d: Document, lines: seq<DocLine>)
    requires CheckTracking(s, c, d, lines).Pass?
    requires forall i :: 0 <= i < |lines| ==> NormalizeSerials(lines[i].input.serials) == Success(lines[i].input.serials)
    ensures LinesTrackable(c, lines)
    decreases |lines|
  {
    if lines != [] {
      CheckedIsTrackable(s, c, d, lines[1..]);
      assert LineTrackable(c, lines[0].input);
      forall i | 0 <= i < |lines| ensures LineTrackable(c, lines[i].input) {
        assert i > 0 ==> lines[i] == lines[1..][i - 1];
      }
    }
  }

  /** A posting right for its product, so that posting it keeps the stock agreement. */
  ghost predicate PostingFits(c: Catalog, p: Posting) {
    && p.key.product in c.products
    && c.products[p.key.product].tracked
    && match c.products[p.key.product].mode
       case LotTracked => p.key.lot.Some?
       case SerialTracked => p.key.lot.None? && p.quantity == 1000 * |p.serials| && NormalizeSerials(p.serials) == Success(p.serials)
       case Untracked => p.key.lot.None?
  }

  ghost predicate PostingsFit(c: Catalog, ps: seq<Posting>) {
    forall i :: 0 <= i < |ps| ==> PostingFits(c, ps[i])
  }

  lemma {:induction false} LotPostingsFit(c: Catalog, i: LineInput, location: nat, lots: seq<LotAllocation>)
    requires i.product.Some? && i.product.value in c.products && c.products[i.product.value].tracked
    requires c.products[i.product.value].mode.LotTracked?
    ensures PostingsFit(c, LotPostings(i, location, lots))
  {
    if lots != [] {
      LotPostingsFit(c, i, location, lots[..|lots| - 1]);
    }
  }

  lemma {:induction false} AllPostingsFit(c: Catalog, lines: seq<LineInput>, location: nat)
    requires forall l :: l in lines ==> l.product.Some?
    requires forall i :: 0 <= i < |lines| ==> LineTrackable(c, lines[i])
    ensures PostingsFit(c, AllPostings(c, lines, location))
  {
    if lines != [] {
      var last := lines[|lines| - 1];
      AllPostingsFit(c, lines[..|lines| - 1], location);
      assert LineTrackable(c, last);
      if last.product.value in c.products && c.products[last.product.value].tracked && c.products[last.product.value].mode.LotTracked? {
        LotPostingsFit(c, last, location, last.lots);
      }
      assert PostingsFit(c, LinePostings(c, last, location));
    }
  }

  lemma {:induction false} TrackableFrom(lines: seq<DocLine>, l: LineInput)
    requires l in Trackable(lines)
    ensures exists i :: 0 <= i < |lines| && lines[i].input == l
  {
    var rest := Trackable(lines[..|lines| - 1]);
    if lines[|lines| - 1].input == l {
    } else {
      if lines[|lines| - 1].input.product.Some? {
        InsertMembers(lines[|lines| - 1].input, rest, l);
      }
      TrackableFrom(lines[..|lines| - 1], l);
    }
  }

  lemma {:induction false} InsertMembers(line: LineInput, lines: seq<LineInput>, l: LineInput)
    requires line.product.Some? && forall x :: x in lines ==> x.product.Some?
    ensures l in InsertLine(line, lines) <==> l == line || l in lines
  {
    if lines != [] && lines[|lines| - 1].product.value > line.product.value {
      assert lines == lines[..|lines| - 1] + [lines[|lines| - 1]];
      InsertMembers(line, lines[..|lines| - 1], l);
    }
  }

  lemma PostingsOfTrackableFit(c: Catalog, d: Document)
    requires LinesTrackable(c, d.lines)
    ensures PostingsFit(c, Postings(c, d))
  {
    if Direction(d.kind) != 0 && d.warehouse.Some? {
      var lines := Trackable(d.lines);
      forall i | 0 <= i < |lines| ensures LineTrackable(c, lines[i]) {
        TrackableFrom(d.lines, lines[i]);
      }
      AllPostingsFit(c, lines, d.warehouse.value);
    }
  }

  lemma DirectionIsSign(kind: DocType, reverse: bool, quantity: int)
    requires Direction(kind) != 0
    ensures DirectionOf(kind, reverse) == InboundSign(DirectionOf(kind, reverse) > 0)
    ensures DirectionOf(kind, reverse) * quantity == if DirectionOf(kind, reverse) > 0 then quantity else -quantity
  {
  }

  lemma PostOneSerials(s: Stock, c: Catalog, id: nat, kind: DocType, reverse: bool, p: Posting, costs: map<CostKey, Option<int>>)
    requires StockInv(s, c) && PostingFits(c, p) && Direction(kind) != 0 && c.products[p.key.product].mode.SerialTracked?
    requires PostOne(s, c, id, kind, reverse, p, costs).Success?
    ensures StockInv(PostOne(s, c, id, kind, reverse, p, costs).value, c)
    ensures PostOne(s, c, id, kind, reverse, p, costs).value.movements == s.movements + [MovementFor(c, id, kind, reverse, p, costs)]
  {
    var m := MovementFor(c, id, kind, reverse, p, costs);
    var inbound := DirectionOf(kind, reverse) > 0;
    var posted := Post(s, m).value;
    var moved := PostOne(s, c, id, kind, reverse, p, costs).value;
    DirectionIsSign(kind, reverse, p.quantity);
    MoveUnitsCounts(posted, p.key.product, p.key.location, p.key.bin, p.serials, |s.movements|, inbound,
                    Cause(MovementOf(kind), reverse), 0, 0, None);
    PostSerialsKeepsStock(s, c, m, p.serials, inbound, Cause(MovementOf(kind), reverse), posted, moved);
  }

  lemma PostOneKeepsStock(s: Stock, c: Catalog, id: nat, kind: DocType, reverse: bool, p: Posting, costs: map<CostKey, Option<int>>)
    requires StockInv(s, c) && PostingFits(c, p) && Direction(kind) != 0
    requires PostOne(s, c, id, kind, reverse, p, costs).Success?
    ensures StockInv(PostOne(s, c, id, kind, reverse, p, costs).value, c)
    ensures PostOne(s, c, id, kind, reverse, p, costs).value.movements == s.movements + [MovementFor(c, id, kind, reverse, p, costs)]
  {
    if c.products[p.key.product].mode.SerialTracked? {
      PostOneSerials(s, c, id, kind, reverse, p, costs);
    } else {
      PostKeepsStock(s, c, MovementFor(c, id, kind, reverse, p, costs));
    }
  }

  function MovementsFor(c: Catalog, id: nat, kind: DocType, reverse: bool, ps: seq<Posting>, costs: map<CostKey, Option<int>>): (r: seq<Movement>)
    ensures |r| == |ps| && forall i :: 0 <= i < |ps| ==> r[i] == MovementFor(c, id, kind, reverse, ps[i], costs)
  {
    if ps == [] then []
    else MovementsFor(c, id, kind, reverse, ps[..|ps| - 1], costs) + [MovementFor(c, id, kind, reverse, ps[|ps| - 1], costs)]
  }

  /** Posting a document's goods appends exactly their movements and keeps levels,
      lots, serials and links in agreement. */
  lemma {:induction false} PostAllKeepsStock(s: Stock, c: Catalog, id: nat, kind: DocType, reverse: bool, ps: seq<Posting>, costs: map<CostKey, Option<int>>)
    requires StockInv(s, c) && PostingsFit(c, ps) && (ps != [] ==> Direction(kind) != 0)
    requires PostAll(s, c, id, kind, reverse, ps, costs).Success?
    ensures StockInv(PostAll(s, c, id, kind, reverse, ps, costs).value, c)
    ensures PostAll(s, c, id, kind, reverse, ps, costs).value.movements == s.movements + MovementsFor(c, id, kind, reverse, ps, costs)
    decreases |ps|
  {
    if ps != [] {
      var front := ps[..|ps| - 1];
      assert PostingFits(c, ps[|ps| - 1]);
      PostAllKeepsStock(s, c, id, kind, reverse, front, costs);
      PostOneKeepsStock(PostAll(s, c, id, kind, reverse, front, costs).value, c, id, kind, reverse, ps[|ps| - 1], costs);
    }
  }

  lemma PostStockKeepsStock(s: Stock, c: Catalog, id: nat, d: Document, reverse: bool)
    requires StockInv(s, c) && LinesTrackable(c, d.lines) && PostStock(s, c, id, d, reverse).Success?
    ensures StockInv(PostStock(s, c, id, d, reverse).value, c)
    ensures var costs := if reverse then PostedCosts(MovementsOf(s.movements, id)) else map[];
            PostStock(s, c, id, d, reverse).value.movements == s.movements + MovementsFor(c, id, d.kind, reverse, Postings(c, d), costs)
  {
    PostingsOfTrackableFit(c, d);
    PostAllKeepsStock(s, c, id, d.kind, reverse, Postings(c, d), if reverse then PostedCosts(MovementsOf(s.movements, id)) else map[]);
  }
}
