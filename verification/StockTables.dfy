/** The stock tables: the product and warehouse catalogue they refer to, the
    immutable movement ledger, the cached levels, the serial units, and the link
    rows that say which units a movement moved. Quantities are thousandths, unit
    costs ten-thousandths, and values the product of the two. */
module StockTables {
  import opened Basics
  import opened SerialNumbers

  datatype Mode = Untracked | LotTracked | SerialTracked

  datatype Product = Product(variable: bool, good: bool, tracked: bool, mode: Mode, price: Option<int>)

  datatype Bin = Bin(location: nat, active: bool)

  datatype Lot = Lot(product: nat, expiry: Option<int>)

  datatype Catalog = Catalog(products: map<nat, Product>, locations: map<nat, bool>, bins: map<nat, Bin>,
                             lots: map<nat, Lot>, defaultLocation: Option<nat>)

  /** What a level row and a movement row are about. */
  datatype Key = Key(product: nat, location: nat, bin: Option<nat>, lot: Option<nat>)

  datatype MovementType =
    Opening | Adjustment | Revaluation | Transferred | Sale | Delivery | SalesReturn | GoodsReceived | Purchase

  datatype Ref = NoRef | DocumentRef(id: nat) | OpeningRef(id: nat)

  /** A row of the stock ledger. Its id is its position. */
  datatype Movement = Movement(key: Key, qty: int, kind: MovementType, ref: Ref,
                               unitCost: Option<int>, valueDelta: Option<int>)

  datatype UnitStatus = InStock | Sold | Removed | Voided

  datatype SerialUnit = SerialUnit(status: UnitStatus, location: Option<nat>, bin: Option<nat>)

  datatype UnitId = UnitId(product: nat, number: string)

  datatype Link = Link(movement: nat, unit: UnitId)

  datatype Stock = Stock(movements: seq<Movement>, levels: map<Key, int>,
                         units: map<UnitId, SerialUnit>, links: seq<Link>)

  const EmptyStock := Stock([], map[], map[], [])

  predicate ActiveLocation(c: Catalog, location: nat) {
    location in c.locations && c.locations[location]
  }

  /** `validate_for_location`: no bin, or an active bin of that warehouse. */
  predicate UsableBin(c: Catalog, location: nat, bin: Option<nat>) {
    bin.Some? ==> bin.value in c.bins && c.bins[bin.value] == Bin(location, true)
  }

  /** `get_lot`: the lot exists and belongs to the product. */
  predicate LotOf(c: Catalog, lot: nat, product: nat) {
    lot in c.lots && c.lots[lot].product == product
  }

  function ModeOf(c: Catalog, product: nat): Mode {
    if product in c.products then c.products[product].mode else Untracked
  }

  function Level(s: Stock, k: Key): int {
    if k in s.levels then s.levels[k] else 0
  }

  /** What the movement ledger says is at a key. */
  function OnHand(ms: seq<Movement>, k: Key): int {
    if ms == [] then 0
    else OnHand(ms[..|ms| - 1], k) + (if ms[|ms| - 1].key == k then ms[|ms| - 1].qty else 0)
  }

  lemma OnHandAppend(ms: seq<Movement>, m: Movement, k: Key)
    ensures OnHand(ms + [m], k) == OnHand(ms, k) + if m.key == k then m.qty else 0
  {
    assert (ms + [m])[..|ms|] == ms;
  }

  /** The units in stock at one place. */
  function UnitsAt(units: map<UnitId, SerialUnit>, product: nat, location: nat, bin: Option<nat>): set<UnitId> {
    set id | id in units && id.product == product && units[id] == SerialUnit(InStock, Some(location), bin)
  }

  /** How many units a movement is linked to. */
  function LinkCount(links: seq<Link>, movement: nat): nat {
    if links == [] then 0
    else LinkCount(links[..|links| - 1], movement) + (if links[|links| - 1].movement == movement then 1 else 0)
  }

  lemma LinkCountAppend(links: seq<Link>, link: Link, movement: nat)
    ensures LinkCount(links + [link], movement) == LinkCount(links, movement) + if link.movement == movement then 1 else 0
  {
    assert (links + [link])[..|links|] == links;
  }

  // ---------------------------------------------------------------- invariants

  /** Every level is the sum of its movements, and never negative. */
  ghost predicate LevelsRefineLedger(s: Stock) {
    forall k: Key :: Level(s, k) == OnHand(s.movements, k) && Level(s, k) >= 0
  }

  /** Stock sits under a lot exactly when its product is tracked by lot. */
  ghost predicate LotsFollowMode(s: Stock, c: Catalog) {
    forall k: Key :: Level(s, k) != 0 ==> (k.lot.Some? <==> ModeOf(c, k.product).LotTracked?)
  }

  /** A unit has a place exactly when it is in stock. */
  ghost predicate UnitsPlaced(units: map<UnitId, SerialUnit>) {
    forall id :: id in units ==>
      && (units[id].status.InStock? <==> units[id].location.Some?)
      && (units[id].location.None? ==> units[id].bin.None?)
  }

  /** The serial rows and the levels count the same goods. */
  ghost predicate SerialsMatchLevels(s: Stock, c: Catalog) {
    forall p, l, b :: ModeOf(c, p).SerialTracked? ==>
      Level(s, Key(p, l, b, None)) == 1000 * |UnitsAt(s.units, p, l, b)|
  }

  /** Every movement of serial goods is linked to exactly the units it moved. */
  ghost predicate LinksMatchMovements(s: Stock, c: Catalog) {
    && (forall i :: 0 <= i < |s.links| ==> s.links[i].movement < |s.movements|)
    && (forall i :: 0 <= i < |s.movements| && ModeOf(c, s.movements[i].key.product).SerialTracked? ==>
          Abs(s.movements[i].qty) == 1000 * LinkCount(s.links, i))
  }

  /** Movements and units only ever name products of the catalogue. */
  ghost predicate ProductsKnown(s: Stock, c: Catalog) {
    && (forall i :: 0 <= i < |s.movements| ==> s.movements[i].key.product in c.products)
    && (forall id :: id in s.units ==> id.product in c.products)
  }

  ghost predicate StockInv(s: Stock, c: Catalog) {
    && ProductsKnown(s, c)
    && LevelsRefineLedger(s)
    && LotsFollowMode(s, c)
    && UnitsPlaced(s.units)
    && SerialsMatchLevels(s, c)
    && LinksMatchMovements(s, c)
  }

  lemma EmptyStockOk(c: Catalog)
    ensures StockInv(EmptyStock, c)
  {
    forall p: nat, l: nat, b: Option<nat> ensures UnitsAt(map[], p, l, b) == {} {
    }
  }

  lemma {:induction false} OnHandUnknown(ms: seq<Movement>, k: Key)
    requires forall i :: 0 <= i < |ms| ==> ms[i].key.product != k.product
    ensures OnHand(ms, k) == 0
  {
    if ms != [] {
      OnHandUnknown(ms[..|ms| - 1], k);
    }
  }

  /** The catalogue may change under the stock: prices, warehouses, bins and lots
      come and go and products are added, but a product that exists keeps its
      tracking attributes. */
  ghost predicate SameTracking(c: Catalog, c': Catalog) {
    forall p :: p in c.products ==>
      && p in c'.products
      && c'.products[p].mode == c.products[p].mode
      && c'.products[p].tracked == c.products[p].tracked
  }

  lemma CatalogChangeKeepsStock(s: Stock, c: Catalog, c': Catalog)
    requires StockInv(s, c) && SameTracking(c, c')
    ensures StockInv(s, c')
  {
    forall k: Key ensures Level(s, k) != 0 ==> k.product in c.products {
      if k.product !in c.products {
        OnHandUnknown(s.movements, k);
      }
    }
    forall p: nat, l: nat, b: Option<nat> ensures p !in c.products ==> Level(s, Key(p, l, b, None)) == 0 && UnitsAt(s.units, p, l, b) == {} {
      if p !in c.products {
        assert forall id :: id in UnitsAt(s.units, p, l, b) ==> id in s.units && id.product == p;
      }
    }
  }
}
