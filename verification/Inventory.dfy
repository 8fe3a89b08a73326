/** The stock service: posting a movement, adjusting, and transferring, as steps
    from one state of the tables to the next, with the proof that every step
    keeps the levels, the lots, the serials and the links in agreement. */
module Inventory {
  import opened Basics
  import opened SerialNumbers
  import opened StockTables
  import opened Tracking

  /** The common core of `_apply` and `post_document_movement`. */
  function Post(s: Stock, m: Movement): Result<Stock> {
    var quantity := Level(s, m.key) + m.qty;
    :- Need(quantity >= 0, BadRequest);
    Success(s.(movements := s.movements + [m], levels := s.levels[m.key := quantity]))
  }

  /** `post_document_movement`. */
  function PostDocumentMovement(s: Stock, c: Catalog, m: Movement): Result<Stock> {
    if !UsableBin(c, m.key.location, m.key.bin) then Failure(NotFound)
    else
      :- Need(m.key.lot.Some? ==> LotOf(c, m.key.lot.value, m.key.product), NotFound);
      Post(s, m)
  }

  /** `_validate`: an existing, non-variable product and an active warehouse. */
  function CheckItem(c: Catalog, product: nat, location: nat): Check {
    if product !in c.products then Fail(NotFound)
    else if c.products[product].variable then Fail(BadRequest)
    else Need(ActiveLocation(c, location), NotFound)
  }

  datatype AdjustInput = AdjustInput(product: nat, location: nat, bin: Option<nat>, lot: Option<nat>, serials: seq<string>,
                                     byValue: bool, qty: int, value: Option<int>, unitCost: Option<int>)

  /** An adjustment's new tables, and its value at the scale of cost times quantity. */
  datatype Adjusted = Adjusted(stock: Stock, value: int)

  /** The tracking checks of a quantity adjustment. */
  function CheckAdjustTracking(s: Stock, c: Catalog, a: AdjustInput): Check
    requires a.product in c.products
  {
    match c.products[a.product].mode
    case LotTracked =>
      if a.lot.None? then Fail(BadRequest)
      else if !LotOf(c, a.lot.value, a.product) then Fail(NotFound)
      else if a.qty < 0 && Level(s, Key(a.product, a.location, a.bin, a.lot)) < -a.qty then Fail(BadRequest)
      else Need(a.serials == [], BadRequest)
    case SerialTracked =>
      if a.lot.Some? || a.qty % 1000 != 0 then Fail(BadRequest)
      else
        var r := NormalizeSerials(a.serials);
        if r.Failure? then Fail(r.error)
        else if 1000 * |r.value| != Abs(a.qty) then Fail(BadRequest)
        else if a.qty < 0 then SerialsAvailable(s.units, a.product, a.location, a.bin, r.value)
        else SerialsReceivable(s.units, a.product, r.value, false)
    case Untracked =>
      Need(a.lot.None? && a.serials == [], BadRequest)
  }

  /** A row that an adjustment made, by quantity or by value. */
  predicate Adjusts(m: Movement) {
    m.kind.Adjustment? || m.kind.Revaluation?
  }

  /** `adjust`, up to the ledger posting of its value. */
  function Adjust(s: Stock, c: Catalog, a: AdjustInput): Result<Adjusted> {
    if CheckItem(c, a.product, a.location).Fail? then Failure(CheckItem(c, a.product, a.location).error)
    else
      :- Need(UsableBin(c, a.location, a.bin), NotFound);
      var key := Key(a.product, a.location, a.bin, a.lot);
      var product := c.products[a.product];
      if a.byValue then
        var value := a.value.GetOr(0);
        :- Need(value != 0, BadRequest);
        var posted :- Post(s, Movement(key, 0, Revaluation, NoRef, None, Some(1000 * value)));
        Success(Adjusted(posted, 1000 * value))
      else
        :- Need(a.qty != 0, BadRequest);
        :- CheckAdjustTracking(s, c, a);
        var cost := if a.unitCost.Some? then a.unitCost else product.price;
        var posted :- Post(s, Movement(key, a.qty, Adjustment, NoRef, cost, None));
        var value := cost.GetOr(0) * a.qty;
        if product.mode.SerialTracked? then
          var moved :- ApplySerialMovement(posted, a.product, a.location, a.bin, a.serials, |s.movements|, a.qty > 0,
                                           Cause(Adjustment, false));
          Success(Adjusted(moved, value))
        else
          Success(Adjusted(posted, value))
  }

  datatype TransferInput = TransferInput(product: nat, fromLocation: nat, fromBin: Option<nat>, toLocation: nat, toBin: Option<nat>,
                                         lot: Option<nat>, serials: seq<string>, quantity: pos)

  /** The sum of the level rows of a product in one bin, over every lot. */
  ghost function SumLevels(levels: map<Key, int>, keys: set<Key>): int
    requires keys <= levels.Keys
  {
    if keys == {} then 0
    else
      var k :| k in keys;
      levels[k] + SumLevels(levels, keys - {k})
  }

  function KeysInBin(levels: map<Key, int>, product: nat, location: nat, bin: Option<nat>): set<Key> {
    set k | k in levels && k.product == product && k.location == location && k.bin == bin
  }

  ghost function OnHandInBin(s: Stock, product: nat, location: nat, bin: Option<nat>): int {
    SumLevels(s.levels, KeysInBin(s.levels, product, location, bin))
  }

  /** The tracking checks of a transfer. */
  function CheckTransferTracking(c: Catalog, t: TransferInput): Check
    requires t.product in c.products
  {
    match c.products[t.product].mode
    case LotTracked => Need(t.lot.Some? && t.serials == [], BadRequest)
    case SerialTracked =>
      if t.lot.Some? then Fail(BadRequest)
      else
        var r := NormalizeSerials(t.serials);
        if r.Failure? then Fail(r.error) else Need(1000 * |r.value| == t.quantity, BadRequest)
    case Untracked => Need(t.serials == [], BadRequest)
  }

  ghost function AvailableToTransfer(s: Stock, t: TransferInput): int {
    if t.lot.Some? then Level(s, Key(t.product, t.fromLocation, t.fromBin, t.lot))
    else OnHandInBin(s, t.product, t.fromLocation, t.fromBin)
  }

  function TransferMovement(t: TransferInput, outgoing: bool): Movement {
    if outgoing
    then Movement(Key(t.product, t.fromLocation, t.fromBin, t.lot), -(t.quantity as int), Transferred, NoRef, None, None)
    else Movement(Key(t.product, t.toLocation, t.toBin, t.lot), t.quantity, Transferred, NoRef, None, None)
  }

  function CheckTransfer(c: Catalog, t: TransferInput): Check {
    if t.fromLocation == t.toLocation && t.fromBin == t.toBin then Fail(BadRequest)
    else
      var item := CheckItem(c, t.product, t.fromLocation);
      if item.Fail? then item
      else if !ActiveLocation(c, t.toLocation) then Fail(NotFound)
      else if !UsableBin(c, t.fromLocation, t.fromBin) || !UsableBin(c, t.toLocation, t.toBin) then Fail(NotFound)
      else
        var tracking := CheckTransferTracking(c, t);
        if tracking.Fail? then tracking
        else Need(t.lot.Some? ==> LotOf(c, t.lot.value, t.product), NotFound)
  }

  /** The goods out of one place and into the other. */
  function PostBoth(s: Stock, t: TransferInput): Result<Stock> {
    var sent :- Post(s, TransferMovement(t, true));
    Post(sent, TransferMovement(t, false))
  }

  /** What `transfer` does once its checks have passed: both movements, and the serials. */
  function MoveBetween(s: Stock, c: Catalog, t: TransferInput): Result<Stock> {
    var received :- PostBoth(s, t);
    if ModeOf(c, t.product).SerialTracked? then
      TransferSerials(received, t.product, t.fromLocation, t.fromBin, t.toLocation, t.toBin, t.serials, |s.movements|, |s.movements| + 1)
    else
      Success(received)
  }

  /** `transfer`. */
  ghost function Transfer(s: Stock, c: Catalog, t: TransferInput): Result<Stock> {
    if CheckTransfer(c, t).Fail? then Failure(CheckTransfer(c, t).error)
    else if AvailableToTransfer(s, t) < t.quantity then Failure(BadRequest)
    else MoveBetween(s, c, t)
  }

  // -------------------------------------------------------------------- proofs

  /** A movement that is right for its product: under a lot exactly when the
      product is tracked by lot, and naming one unit per whole unit of serial goods. */
  ghost predicate FitsMode(c: Catalog, m: Movement, units: nat) {
    && m.key.product in c.products
    && match c.products[m.key.product].mode
       case LotTracked => m.qty != 0 ==> m.key.lot.Some?
       case SerialTracked => (m.qty != 0 ==> m.key.lot.None?) && Abs(m.qty) == 1000 * units
       case Untracked => m.qty != 0 ==> m.key.lot.None?
  }

  /** Everything but the serial agreement survives any fitting movement. */
  lemma PostKeepsLevels(s: Stock, c: Catalog, m: Movement, units: nat)
    requires LevelsRefineLedger(s) && LotsFollowMode(s, c) && ProductsKnown(s, c) && FitsMode(c, m, units)
    requires Post(s, m).Success?
    ensures var s' := Post(s, m).value;
            && LevelsRefineLedger(s') && LotsFollowMode(s', c) && ProductsKnown(s', c)
            && s'.units == s.units && s'.links == s.links && s'.movements == s.movements + [m]
            && forall k: Key :: Level(s', k) == Level(s, k) + if k == m.key then m.qty else 0
  {
    var s' := Post(s, m).value;
    forall k: Key ensures Level(s', k) == OnHand(s'.movements, k) && Level(s', k) == Level(s, k) + (if k == m.key then m.qty else 0) {
      OnHandAppend(s.movements, m, k);
    }
  }

  /** A movement of goods that are not serial-tracked keeps the whole invariant. */
  lemma PostKeepsStock(s: Stock, c: Catalog, m: Movement)
    requires StockInv(s, c) && FitsMode(c, m, 0)
    requires ModeOf(c, m.key.product).SerialTracked? ==> m.qty == 0
    requires Post(s, m).Success?
    ensures StockInv(Post(s, m).value, c)
  {
    PostKeepsLevels(s, c, m, 0);
    NoLinksYet(s.links, |s.movements|);
  }

  lemma {:induction false} NoLinksYet(links: seq<Link>, movement: nat)
    requires forall i :: 0 <= i < |links| ==> links[i].movement < movement
    ensures LinkCount(links, movement) == 0
  {
    if links != [] {
      NoLinksYet(links[..|links| - 1], movement);
    }
  }

  /** The levels of two states agree, so what is said of one holds of the other. */
  lemma SameLevels(s: Stock, s': Stock, c: Catalog)
    requires LevelsRefineLedger(s) && LotsFollowMode(s, c)
    requires s'.levels == s.levels && s'.movements == s.movements
    ensures LevelsRefineLedger(s') && LotsFollowMode(s', c)
  {
    forall k: Key ensures Level(s', k) == Level(s, k) {
    }
  }

  lemma SerialsAfterPost(s: Stock, c: Catalog, m: Movement, numbers: seq<string>, inbound: bool, cause: Cause)
    requires UnitsPlaced(s.units) && SerialsMatchLevels(s, c)
    requires m.key.lot.None? && m.qty == InboundSign(inbound) * 1000 * |numbers|
    requires Post(s, m).Success?
    requires MoveUnits(Post(s, m).value, m.key.product, m.key.location, m.key.bin, numbers, |s.movements|, inbound, cause).Success?
    ensures var moved := MoveUnits(Post(s, m).value, m.key.product, m.key.location, m.key.bin, numbers, |s.movements|, inbound, cause).value;
            && UnitsPlaced(moved.units) && SerialsMatchLevels(moved, c)
            && moved.levels == Post(s, m).value.levels && moved.movements == s.movements + [m]
            && forall id :: id in moved.units ==> id in s.units || id.product == m.key.product
  {
    var posted := Post(s, m).value;
    var key, n := m.key, |s.movements|;
    var moved := MoveUnits(posted, key.product, key.location, key.bin, numbers, n, inbound, cause).value;
    MoveUnitsCounts(posted, key.product, key.location, key.bin, numbers, n, inbound, cause, 0, 0, None);
    forall p: nat, l: nat, b: Option<nat> | ModeOf(c, p).SerialTracked?
      ensures Level(moved, Key(p, l, b, None)) == 1000 * |UnitsAt(moved.units, p, l, b)|
    {
      MoveUnitsCounts(posted, key.product, key.location, key.bin, numbers, n, inbound, cause, p, l, b);
      assert Level(s, Key(p, l, b, None)) == 1000 * |UnitsAt(s.units, p, l, b)|;
      assert Key(p, l, b, None) == key <==> (p, l, b) == (key.product, key.location, key.bin);
    }
  }

  lemma LinksAfterPost(s: Stock, c: Catalog, m: Movement, numbers: seq<string>, inbound: bool, cause: Cause)
    requires LinksMatchMovements(s, c)
    requires m.qty == InboundSign(inbound) * 1000 * |numbers|
    requires Post(s, m).Success?
    requires MoveUnits(Post(s, m).value, m.key.product, m.key.location, m.key.bin, numbers, |s.movements|, inbound, cause).Success?
    requires MoveUnits(Post(s, m).value, m.key.product, m.key.location, m.key.bin, numbers, |s.movements|, inbound, cause).value.movements == s.movements + [m]
    ensures LinksMatchMovements(MoveUnits(Post(s, m).value, m.key.product, m.key.location, m.key.bin, numbers,
                                          |s.movements|, inbound, cause).value, c)
  {
    var posted := Post(s, m).value;
    var key, n := m.key, |s.movements|;
    var moved := MoveUnits(posted, key.product, key.location, key.bin, numbers, n, inbound, cause).value;
    NoLinksYet(s.links, n);
    forall i | 0 <= i < |moved.movements| && ModeOf(c, moved.movements[i].key.product).SerialTracked?
      ensures Abs(moved.movements[i].qty) == 1000 * LinkCount(moved.links, i)
    {
      MoveUnitsLinks(posted, key.product, key.location, key.bin, numbers, n, inbound, cause, i);
      assert i < n ==> moved.movements[i] == s.movements[i];
    }
    MoveUnitsLinks(posted, key.product, key.location, key.bin, numbers, n, inbound, cause, 0);
  }

  lemma PostNumbersKeepsStock(s: Stock, c: Catalog, m: Movement, numbers: seq<string>, inbound: bool, cause: Cause,
                              posted: Stock, moved: Stock)
    requires StockInv(s, c)
    requires ModeOf(c, m.key.product).SerialTracked? && m.key.lot.None?
    requires m.qty == InboundSign(inbound) * 1000 * |numbers|
    requires Post(s, m) == Success(posted)
    requires MoveUnits(posted, m.key.product, m.key.location, m.key.bin, numbers, |s.movements|, inbound, cause) == Success(moved)
    ensures StockInv(moved, c)
  {
    SerialsAfterPost(s, c, m, numbers, inbound, cause);
    assert LinksMatchMovements(moved, c) by {
      LinksAfterPost(s, c, m, numbers, inbound, cause);
    }
    assert LevelsRefineLedger(moved) && LotsFollowMode(moved, c) && ProductsKnown(posted, c) by {
      assert FitsMode(c, m, |numbers|);
      PostKeepsLevels(s, c, m, |numbers|);
      SameLevels(posted, moved, c);
    }
  }

  /** A movement of serial goods together with its units keeps the whole invariant. */
  lemma PostSerialsKeepsStock(s: Stock, c: Catalog, m: Movement, serials: seq<string>, inbound: bool, cause: Cause,
                              posted: Stock, moved: Stock)
    requires StockInv(s, c)
    requires ModeOf(c, m.key.product).SerialTracked? && m.key.lot.None?
    requires NormalizeSerials(serials).Success?
    requires m.qty == InboundSign(inbound) * 1000 * |NormalizeSerials(serials).value|
    requires Post(s, m) == Success(posted)
    requires ApplySerialMovement(posted, m.key.product, m.key.location, m.key.bin, serials, |s.movements|, inbound, cause) == Success(moved)
    ensures StockInv(moved, c)
  {
    PostNumbersKeepsStock(s, c, m, NormalizeSerials(serials).value, inbound, cause, posted, moved);
  }

  lemma AdjustKeepsStock(s: Stock, c: Catalog, a: AdjustInput)
    requires StockInv(s, c) && Adjust(s, c, a).Success?
    ensures StockInv(Adjust(s, c, a).value.stock, c)
  {
    var key := Key(a.product, a.location, a.bin, a.lot);
    var product := c.products[a.product];
    var cost := if a.unitCost.Some? then a.unitCost else product.price;
    var m := if a.byValue then Movement(key, 0, Revaluation, NoRef, None, Some(1000 * a.value.GetOr(0)))
             else Movement(key, a.qty, Adjustment, NoRef, cost, None);
    if !a.byValue && product.mode.SerialTracked? {
      AdjustSerialsFits(s, c, a);
      PostSerialsKeepsStock(s, c, m, a.serials, a.qty > 0, Cause(Adjustment, false), Post(s, m).value, Adjust(s, c, a).value.stock);
    } else {
      AdjustFits(s, c, a, m);
      PostKeepsStock(s, c, m);
    }
  }

  lemma AdjustFits(s: Stock, c: Catalog, a: AdjustInput, m: Movement)
    requires Adjust(s, c, a).Success? && m.key == Key(a.product, a.location, a.bin, a.lot)
    requires if a.byValue then m.qty == 0 else m.qty == a.qty && !c.products[a.product].mode.SerialTracked?
    ensures FitsMode(c, m, 0)
  {
  }

  lemma AdjustSerialsFits(s: Stock, c: Catalog, a: AdjustInput)
    requires Adjust(s, c, a).Success? && !a.byValue && c.products[a.product].mode.SerialTracked?
    ensures a.lot.None? && NormalizeSerials(a.serials).Success?
    ensures a.qty == InboundSign(a.qty > 0) * 1000 * |NormalizeSerials(a.serials).value|
  {
    AdjustChecked(s, c, a);
    CheckedSerialsFit(s, c, a);
  }

  lemma AdjustChecked(s: Stock, c: Catalog, a: AdjustInput)
    requires Adjust(s, c, a).Success? && !a.byValue
    ensures a.qty != 0 && a.product in c.products && CheckAdjustTracking(s, c, a).Pass?
  {
  }

  lemma CheckedSerialsFit(s: Stock, c: Catalog, a: AdjustInput)
    requires a.qty != 0 && a.product in c.products && c.products[a.product].mode.SerialTracked? && CheckAdjustTracking(s, c, a).Pass?
    ensures a.lot.None? && NormalizeSerials(a.serials).Success?
    ensures a.qty == InboundSign(a.qty > 0) * 1000 * |NormalizeSerials(a.serials).value|
  {
    CheckedSerialsCount(s, c, a);
    SignedCount(a.qty, |NormalizeSerials(a.serials).value|);
  }

  lemma CheckedSerialsCount(s: Stock, c: Catalog, a: AdjustInput)
    requires a.product in c.products && c.products[a.product].mode.SerialTracked? && CheckAdjustTracking(s, c, a).Pass?
    ensures a.lot.None? && NormalizeSerials(a.serials).Success? && 1000 * |NormalizeSerials(a.serials).value| == Abs(a.qty)
  {
  }

  lemma SignedCount(qty: int, n: nat)
    requires qty != 0 && 1000 * n == Abs(qty)
    ensures qty == InboundSign(qty > 0) * 1000 * n
  {
  }

  lemma TransferKeepsStock(s: Stock, c: Catalog, t: TransferInput)
    requires StockInv(s, c) && Transfer(s, c, t).Success?
    ensures StockInv(Transfer(s, c, t).value, c)
  {
    var sent := Post(s, TransferMovement(t, true)).value;
    if !c.products[t.product].mode.SerialTracked? {
      if c.products[t.product].mode.Untracked? {
        UntrackedTransferHasNoLot(s, c, t);
      }
      PostKeepsStock(s, c, TransferMovement(t, true));
      PostKeepsStock(sent, c, TransferMovement(t, false));
    } else {
      TransferSerialsKeepsStock(s, c, t);
    }
  }

  /** Goods that are not tracked by lot have nothing under a lot, so a transfer
      that names one and passes the availability check moves nothing. */
  lemma UntrackedTransferHasNoLot(s: Stock, c: Catalog, t: TransferInput)
    requires StockInv(s, c) && Transfer(s, c, t).Success? && c.products[t.product].mode.Untracked?
    ensures t.lot.None?
  {
    assert t.lot.Some? ==> Level(s, Key(t.product, t.fromLocation, t.fromBin, t.lot)) >= t.quantity;
  }

  lemma SerialsAfterTransfer(s: Stock, c: Catalog, t: TransferInput, numbers: seq<string>, moved: Stock)
    requires UnitsPlaced(s.units) && SerialsMatchLevels(s, c)
    requires t.lot.None? && t.quantity == 1000 * |numbers| && Distinct(numbers)
    requires (t.fromLocation, t.fromBin) != (t.toLocation, t.toBin)
    requires forall n :: n in numbers ==> UnitId(t.product, n) in UnitsAt(s.units, t.product, t.fromLocation, t.fromBin)
    requires var n := |s.movements|;
             && Post(s, TransferMovement(t, true)).Success?
             && Post(Post(s, TransferMovement(t, true)).value, TransferMovement(t, false)).Success?
             && moved == RelocateUnits(Post(Post(s, TransferMovement(t, true)).value, TransferMovement(t, false)).value,
                                       t.product, t.toLocation, t.toBin, numbers, n, n + 1)
    ensures UnitsPlaced(moved.units) && SerialsMatchLevels(moved, c) && moved.units.Keys == s.units.Keys
    ensures moved.movements == s.movements + [TransferMovement(t, true), TransferMovement(t, false)]
  {
    var n := |s.movements|;
    var sent := Post(s, TransferMovement(t, true)).value;
    var received := Post(sent, TransferMovement(t, false)).value;
    RelocateCounts(received, t.product, t.fromLocation, t.fromBin, t.toLocation, t.toBin, numbers, n, n + 1, 0, 0, None);
    forall p: nat, l: nat, b: Option<nat> | ModeOf(c, p).SerialTracked?
      ensures Level(moved, Key(p, l, b, None)) == 1000 * |UnitsAt(moved.units, p, l, b)|
    {
      RelocateCounts(received, t.product, t.fromLocation, t.fromBin, t.toLocation, t.toBin, numbers, n, n + 1, p, l, b);
      assert Level(s, Key(p, l, b, None)) == 1000 * |UnitsAt(s.units, p, l, b)|;
    }
  }

  lemma LinksAfterTransfer(s: Stock, c: Catalog, t: TransferInput, numbers: seq<string>, received: Stock, moved: Stock)
    requires LinksMatchMovements(s, c) && t.quantity == 1000 * |numbers|
    requires received.links == s.links
    requires moved == RelocateUnits(received, t.product, t.toLocation, t.toBin, numbers, |s.movements|, |s.movements| + 1)
    requires moved.movements == s.movements + [TransferMovement(t, true), TransferMovement(t, false)]
    ensures LinksMatchMovements(moved, c)
  {
    var n := |s.movements|;
    NoLinksYet(s.links, n);
    NoLinksYet(s.links, n + 1);
    forall i | 0 <= i < |moved.movements| && ModeOf(c, moved.movements[i].key.product).SerialTracked?
      ensures Abs(moved.movements[i].qty) == 1000 * LinkCount(moved.links, i)
    {
      RelocateLinks(received, t.product, t.toLocation, t.toBin, numbers, n, n + 1, i);
      assert i < n ==> moved.movements[i] == s.movements[i];
    }
    RelocateLinks(received, t.product, t.toLocation, t.toBin, numbers, n, n + 1, 0);
  }

  lemma TransferSerialsKeepsStock(s: Stock, c: Catalog, t: TransferInput)
    requires StockInv(s, c) && Transfer(s, c, t).Success? && c.products[t.product].mode.SerialTracked?
    ensures StockInv(Transfer(s, c, t).value, c)
  {
    var numbers := NormalizeSerials(t.serials).value;
    NormalizeIdempotent(t.serials);
    var n := |s.movements|;
    var sent := Post(s, TransferMovement(t, true)).value;
    var received := Post(sent, TransferMovement(t, false)).value;
    var moved := RelocateUnits(received, t.product, t.toLocation, t.toBin, numbers, n, n + 1);
    SerialsAfterTransfer(s, c, t, numbers, moved);
    LinksAfterTransfer(s, c, t, numbers, received, moved);
    assert LevelsRefineLedger(received) && LotsFollowMode(received, c) && ProductsKnown(received, c) by {
      PostKeepsLevels(s, c, TransferMovement(t, true), |numbers|);
      PostKeepsLevels(sent, c, TransferMovement(t, false), |numbers|);
    }
    RelocateCounts(received, t.product, t.fromLocation, t.fromBin, t.toLocation, t.toBin, numbers, n, n + 1, 0, 0, None);
    SameLevels(received, moved, c);
  }

  lemma SumLevelsPick(levels: map<Key, int>, keys: set<Key>, k: Key)
    requires keys <= levels.Keys && k in keys
    ensures SumLevels(levels, keys) == levels[k] + SumLevels(levels, keys - {k})
  {
    var first :| first in keys && SumLevels(levels, keys) == levels[first] + SumLevels(levels, keys - {first});
    if first != k {
      SumLevelsPick(levels, keys - {first}, k);
      SumLevelsPick(levels, keys - {k}, first);
      assert keys - {first} - {k} == keys - {k} - {first};
    }
  }

  lemma SumLevelsOnly(levels: map<Key, int>, keys: set<Key>, k: Key)
    requires keys <= levels.Keys
    requires forall j :: j in keys && j != k ==> levels[j] == 0
    ensures SumLevels(levels, keys) == if k in keys then levels[k] else 0
    decreases keys
  {
    if j :| j in keys && j != k {
      SumLevelsPick(levels, keys, j);
      SumLevelsOnly(levels, keys - {j}, k);
    } else if k in keys {
      assert keys == {k};
      SumLevelsPick(levels, keys, k);
    }
  }

  /** For goods not tracked by lot, what a bin holds is the unlotted level, so the
      availability check reads the very row the movement will change. */
  lemma BinHoldsUnlottedLevel(s: Stock, c: Catalog, product: nat, location: nat, bin: Option<nat>)
    requires LotsFollowMode(s, c) && !ModeOf(c, product).LotTracked?
    ensures OnHandInBin(s, product, location, bin) == Level(s, Key(product, location, bin, None))
  {
    var keys := KeysInBin(s.levels, product, location, bin);
    var k := Key(product, location, bin, None);
    forall j | j in keys && j != k ensures s.levels[j] == 0 {
      assert Level(s, j) == s.levels[j];
    }
    SumLevelsOnly(s.levels, keys, k);
  }

  /** A transfer that passes its checks always finds the stock it moves: the only
      refusals are the checks themselves and serials not at the source. */
  lemma TransferChecksSuffice(s: Stock, c: Catalog, t: TransferInput)
    requires StockInv(s, c)
    requires CheckTransfer(c, t).Pass? && AvailableToTransfer(s, t) >= t.quantity
    ensures Transfer(s, c, t).Success? <==>
              (c.products[t.product].mode.SerialTracked? ==>
                 SerialsAvailable(s.units, t.product, t.fromLocation, t.fromBin, NormalizeSerials(t.serials).value).Pass?)
  {
    if t.lot.None? {
      BinHoldsUnlottedLevel(s, c, t.product, t.fromLocation, t.fromBin);
    }
    var outgoing, incoming := TransferMovement(t, true), TransferMovement(t, false);
    assert Level(s, outgoing.key) >= t.quantity;
    var sent := Post(s, outgoing).value;
    assert Level(s, incoming.key) >= 0 && incoming.key != outgoing.key;
    assert Level(sent, incoming.key) == Level(s, incoming.key);
  }

  /** What a product, or one lot of it, amounts to over every warehouse and bin. */
  function ProductTotal(ms: seq<Movement>, product: nat): int {
    if ms == [] then 0
    else ProductTotal(ms[..|ms| - 1], product) + (if ms[|ms| - 1].key.product == product then ms[|ms| - 1].qty else 0)
  }

  function LotTotal(ms: seq<Movement>, product: nat, lot: Option<nat>): int {
    if ms == [] then 0
    else
      var m := ms[|ms| - 1];
      LotTotal(ms[..|ms| - 1], product, lot) + (if m.key.product == product && m.key.lot == lot then m.qty else 0)
  }

  /** A transfer moves goods without making or losing any, lot by lot. */
  lemma TransferConserves(s: Stock, c: Catalog, t: TransferInput, product: nat, lot: Option<nat>)
    requires StockInv(s, c) && Transfer(s, c, t).Success?
    ensures var s' := Transfer(s, c, t).value;
            && ProductTotal(s'.movements, product) == ProductTotal(s.movements, product)
            && LotTotal(s'.movements, product, lot) == LotTotal(s.movements, product, lot)
            && Level(s', Key(t.product, t.fromLocation, t.fromBin, t.lot)) == Level(s, Key(t.product, t.fromLocation, t.fromBin, t.lot)) - t.quantity
            && Level(s', Key(t.product, t.toLocation, t.toBin, t.lot)) == Level(s, Key(t.product, t.toLocation, t.toBin, t.lot)) + t.quantity
  {
    var s' := Transfer(s, c, t).value;
    var out, back := TransferMovement(t, true), TransferMovement(t, false);
    TransferMovements(s, c, t);
    assert (s.movements + [out, back])[..|s.movements| + 1] == s.movements + [out];
    assert (s.movements + [out])[..|s.movements|] == s.movements;
  }

  lemma {:induction false} RelocateLeavesLevels(s: Stock, product: nat, location: nat, bin: Option<nat>, numbers: seq<string>, outgoing: nat, incoming: nat)
    ensures var s' := RelocateUnits(s, product, location, bin, numbers, outgoing, incoming);
            s'.movements == s.movements && s'.levels == s.levels
    decreases |numbers|
  {
    if numbers != [] {
      var id := UnitId(product, numbers[0]);
      RelocateLeavesLevels(s.(units := s.units[id := SerialUnit(InStock, Some(location), bin)], links := s.links + [Link(outgoing, id), Link(incoming, id)]),
                           product, location, bin, numbers[1..], outgoing, incoming);
    }
  }

  lemma TransferMovements(s: Stock, c: Catalog, t: TransferInput)
    requires Transfer(s, c, t).Success?
    ensures var s' := Transfer(s, c, t).value;
            var out, back := TransferMovement(t, true), TransferMovement(t, false);
            && s'.movements == s.movements + [out, back]
            && s'.levels == s.levels[out.key := Level(s, out.key) - t.quantity][back.key := Level(s, back.key) + t.quantity]
  {
    var out, back := TransferMovement(t, true), TransferMovement(t, false);
    var sent := Post(s, out).value;
    var received := Post(sent, back).value;
    assert back.key != out.key && Level(sent, back.key) == Level(s, back.key);
    assert received.movements == s.movements + [out, back];
    if ModeOf(c, t.product).SerialTracked? {
      RelocateLeavesLevels(received, t.product, t.toLocation, t.toBin, NormalizeSerials(t.serials).value, |s.movements|, |s.movements| + 1);
    }
  }
}
