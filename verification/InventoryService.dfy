/** The stock service as the object it is: tables it updates in place, a call at a
    time. A call that raises is rolled back, so it leaves the tables as they were. */
module InventoryServices {
  import opened Basics
  import opened SerialNumbers
  import opened StockTables
  import opened Tracking
  import opened Inventory
  import opened OpeningStock

  /** A call did to the tables what its specification says, or was rolled back. */
  predicate Did(r: Check, spec: Result<Stock>, before: Stock, after: Stock) {
    match spec
    case Success(s) => r.Pass? && after == s
    case Failure(e) => r == Fail(e) && after == before
  }

  class InventoryService {
    var catalog: Catalog
    var movements: seq<Movement>
    var levels: map<Key, int>
    var units: map<UnitId, SerialUnit>
    var links: seq<Link>

    constructor (catalog: Catalog)
      ensures this.catalog == catalog && State() == EmptyStock
    {
      this.catalog := catalog;
      movements, levels, units, links := [], map[], map[], [];
    }

    function State(): Stock
      reads this
    {
      Stock(movements, levels, units, links)
    }

    method Restore(s: Stock)
      modifies this
      ensures State() == s && catalog == old(catalog)
    {
      movements, levels, units, links := s.movements, s.levels, s.units, s.links;
    }

    /** `_apply`: the level is read, checked and written with the movement. */
    method Apply(m: Movement) returns (r: Check)
      modifies this
      ensures catalog == old(catalog)
      ensures Did(r, Post(old(State()), m), old(State()), State())
    {
      var quantity := (if m.key in levels then levels[m.key] else 0) + m.qty;
      if quantity < 0 {
        return Fail(BadRequest);
      }
      movements := movements + [m];
      levels := levels[m.key := quantity];
      r := Pass;
    }

    method ApplyDocumentMovement(m: Movement) returns (r: Check)
      modifies this
      ensures catalog == old(catalog)
      ensures Did(r, PostDocumentMovement(old(State()), catalog, m), old(State()), State())
    {
      if !UsableBin(catalog, m.key.location, m.key.bin) || (m.key.lot.Some? && !LotOf(catalog, m.key.lot.value, m.key.product)) {
        return Fail(NotFound);
      }
      r := Apply(m);
    }

    /** One turn of the loop of `apply_serial_movement`: the unit's row changes in place. */
    method MoveOne(id: UnitId, location: nat, bin: Option<nat>, inbound: bool, cause: Cause) returns (r: Check)
      modifies this`units
      ensures match MoveUnit(old(units), id, location, bin, inbound, cause)
              case Success(u) => r.Pass? && units == u
              case Failure(e) => r == Fail(e) && units == old(units)
    {
      r := Pass;
      if inbound {
        if id !in units {
          if cause.reverse || cause.kind.SalesReturn? {
            return Fail(BadRequest);
          }
        } else if !((cause.reverse || cause.kind.SalesReturn?) && units[id].status.Sold?) {
          return Fail(Conflict);
        }
        units := units[id := SerialUnit(InStock, Some(location), bin)];
      } else {
        if id !in units || !units[id].status.InStock? || units[id].location != Some(location) || units[id].bin != bin {
          return Fail(BadRequest);
        }
        var status: UnitStatus;
        if cause.reverse {
          status := if cause.kind.SalesReturn? then Sold else Voided;
        } else {
          status := if cause.kind.Sale? || cause.kind.Delivery? then Sold else Removed;
        }
        units := units[id := SerialUnit(status, None, None)];
      }
    }

    /** `apply_serial_movement`: units change and links are added one number at a time. */
    method MoveSerials(product: nat, location: nat, bin: Option<nat>, serials: seq<string>, movement: nat, inbound: bool, cause: Cause)
      returns (r: Check)
      modifies this`units, this`links
      ensures Did(r, ApplySerialMovement(old(State()), product, location, bin, serials, movement, inbound, cause), old(State()), State())
    {
      var before := State();
      var normalized := NormalizeSerials(serials);
      if normalized.Failure? {
        return Fail(normalized.error);
      }
      var numbers := normalized.value;
      for i := 0 to |numbers|
        invariant movements == before.movements && levels == before.levels
        invariant MoveUnits(before, product, location, bin, numbers, movement, inbound, cause)
                  == MoveUnits(State(), product, location, bin, numbers[i..], movement, inbound, cause)
      {
        var id := UnitId(product, numbers[i]);
        assert numbers[i..][1..] == numbers[i + 1..];
        r := MoveOne(id, location, bin, inbound, cause);
        if r.Fail? {
          units, links := before.units, before.links;
          return;
        }
        links := links + [Link(movement, id)];
      }
      r := Pass;
    }

    /** `transfer_serials`. */
    method MoveSerialsBetween(product: nat, fromLocation: nat, fromBin: Option<nat>, toLocation: nat, toBin: Option<nat>,
                              serials: seq<string>, outgoing: nat, incoming: nat) returns (r: Check)
      modifies this`units, this`links
      ensures Did(r, TransferSerials(old(State()), product, fromLocation, fromBin, toLocation, toBin, serials, outgoing, incoming),
                  old(State()), State())
    {
      var before := State();
      var normalized := NormalizeSerials(serials);
      if normalized.Failure? {
        return Fail(normalized.error);
      }
      var numbers := normalized.value;
      r := SerialsAvailable(units, product, fromLocation, fromBin, numbers);
      if r.Fail? {
        return;
      }
      for i := 0 to |numbers|
        invariant movements == before.movements && levels == before.levels
        invariant RelocateUnits(before, product, toLocation, toBin, numbers, outgoing, incoming)
                  == RelocateUnits(State(), product, toLocation, toBin, numbers[i..], outgoing, incoming)
      {
        var id := UnitId(product, numbers[i]);
        assert numbers[i..][1..] == numbers[i + 1..];
        units := units[id := SerialUnit(InStock, Some(toLocation), toBin)];
        links := links + [Link(outgoing, id), Link(incoming, id)];
      }
    }

    /** `adjust`: its value, for the ledger. */
    method AdjustStock(a: AdjustInput) returns (r: Result<int>)
      modifies this
      ensures catalog == old(catalog)
      ensures match Adjust(old(State()), catalog, a)
              case Success(adjusted) => r == Success(adjusted.value) && State() == adjusted.stock
              case Failure(e) => r == Failure(e) && State() == old(State())
    {
      var before := State();
      var check := CheckItem(catalog, a.product, a.location);
      if check.Fail? {
        return Failure(check.error);
      }
      if !UsableBin(catalog, a.location, a.bin) {
        return Failure(NotFound);
      }
      var key := Key(a.product, a.location, a.bin, a.lot);
      var product := catalog.products[a.product];
      if a.byValue {
        var value := a.value.GetOr(0);
        if value == 0 {
          return Failure(BadRequest);
        }
        check := Apply(Movement(key, 0, Revaluation, NoRef, None, Some(1000 * value)));
        return if check.Fail? then Failure(check.error) else Success(1000 * value);
      }
      if a.qty == 0 {
        return Failure(BadRequest);
      }
      check := CheckAdjustTracking(before, catalog, a);
      if check.Fail? {
        return Failure(check.error);
      }
      var cost := if a.unitCost.Some? then a.unitCost else product.price;
      var movement := |movements|;
      check := Apply(Movement(key, a.qty, Adjustment, NoRef, cost, None));
      if check.Fail? {
        return Failure(check.error);
      }
      if product.mode.SerialTracked? {
        check := MoveSerials(a.product, a.location, a.bin, a.serials, movement, a.qty > 0, Cause(Adjustment, false));
        if check.Fail? {
          Restore(before);
          return Failure(check.error);
        }
      }
      r := Success(cost.GetOr(0) * a.qty);
    }

    /** `_on_hand_in_bin`: the sum of the product's level rows in one bin. */
    method SumBin(product: nat, location: nat, bin: Option<nat>) returns (total: int)
      ensures total == OnHandInBin(State(), product, location, bin)
    {
      var rest := KeysInBin(levels, product, location, bin);
      total := 0;
      while rest != {}
        invariant rest <= levels.Keys
        invariant total + SumLevels(levels, rest) == OnHandInBin(State(), product, location, bin)
        decreases |rest|
      {
        var k :| k in rest;
        SumLevelsPick(levels, rest, k);
        total := total + levels[k];
        rest := rest - {k};
      }
    }

    /** The two movements of a transfer. */
    method ApplyBoth(t: TransferInput) returns (r: Check)
      modifies this
      ensures catalog == old(catalog)
      ensures Did(r, PostBoth(old(State()), t), old(State()), State())
    {
      var before := State();
      r := Apply(TransferMovement(t, true));
      if r.Fail? {
        return;
      }
      r := Apply(TransferMovement(t, false));
      if r.Fail? {
        Restore(before);
      }
    }

    /** And the serials that go along. */
    method MoveStock(t: TransferInput) returns (r: Check)
      modifies this
      ensures catalog == old(catalog)
      ensures Did(r, MoveBetween(old(State()), catalog, t), old(State()), State())
    {
      var before, movement := State(), |movements|;
      r := ApplyBoth(t);
      if r.Pass? && ModeOf(catalog, t.product).SerialTracked? {
        r := MoveSerialsBetween(t.product, t.fromLocation, t.fromBin, t.toLocation, t.toBin, t.serials, movement, movement + 1);
        if r.Fail? {
          Restore(before);
        }
      }
    }

    /** `transfer`. */
    method TransferStock(t: TransferInput) returns (r: Check)
      modifies this
      ensures catalog == old(catalog)
      ensures Did(r, Transfer(old(State()), catalog, t), old(State()), State())
    {
      r := CheckTransfer(catalog, t);
      if r.Fail? {
        return;
      }
      var available: int;
      if t.lot.Some? {
        available := Level(State(), Key(t.product, t.fromLocation, t.fromBin, t.lot));
      } else {
        available := SumBin(t.product, t.fromLocation, t.fromBin);
      }
      if available < t.quantity {
        return Fail(BadRequest);
      }
      r := MoveStock(t);
    }

    /** `_opening_state`: the opening movements of a product folded in order. */
    method ReadOpeningState(product: nat) returns (state: map<Key, OpeningRow>)
      ensures state == OpeningState(movements, product)
    {
      state := map[];
      for i := 0 to |movements|
        invariant state == OpeningState(movements[..i], product)
      {
        var m := movements[i];
        assert movements[..i + 1][..i] == movements[..i];
        if m.kind.Opening? && m.key.product == product {
          var row := RowAt(state, m.key);
          var value := row.value;
          if m.valueDelta.Some? {
            value := value + m.valueDelta.value;
          } else if m.unitCost.Some? {
            value := value + m.qty * m.unitCost.value;
          }
          state := state[m.key := OpeningRow(row.quantity + m.qty, value, m.unitCost)];
        }
      }
      assert movements[..|movements|] == movements;
    }

    /** The entries of a call, checked and collected by key. */
    method CollectEntries(product: nat, entries: seq<OpeningEntry>) returns (r: Result<map<Key, Request>>)
      requires product in catalog.products
      ensures r == Collect(State(), catalog, product, entries, map[])
    {
      var requested := map[];
      for i := 0 to |entries|
        invariant Collect(State(), catalog, product, entries, map[]) == Collect(State(), catalog, product, entries[i..], requested)
      {
        var check := CheckEntry(State(), catalog, product, entries[i]);
        assert entries[i..][1..] == entries[i + 1..];
        if check.Fail? {
          return Failure(check.error);
        }
        var key := EntryKey(product, entries[i]);
        if key in requested {
          return Failure(BadRequest);
        }
        requested := requested[key := EntryRequest(catalog, product, entries[i])];
      }
      r := Success(requested);
    }

    /** One key of `set_opening_stock`. */
    method ReplaceOpening(k: Key, request: Request, row: OpeningRow, ref: Ref) returns (r: Check)
      modifies this
      ensures catalog == old(catalog)
      ensures Did(r, SetKey(old(State()), catalog, k, request, row, ref), old(State()), State())
    {
      var before := State();
      var movement := |movements|;
      r := Apply(OpeningMovement(k, request, row, ref));
      if r.Pass? && ModeOf(catalog, k.product).SerialTracked? {
        r := MoveSerials(k.product, k.location, k.bin, request.serials, movement, true, Cause(Opening, false));
        if r.Fail? {
          Restore(before);
        }
      }
    }

    /** The loop over the keys: the value recognized on the way. */
    method ReplaceEach(order: seq<Key>, requested: map<Key, Request>, current: map<Key, OpeningRow>, ref: Ref) returns (r: Result<int>)
      modifies this
      ensures catalog == old(catalog)
      ensures match SetKeys(Progress(old(State()), 0), catalog, order, requested, current, ref)
              case Success(p) => r == Success(p.value) && State() == p.stock
              case Failure(e) => r == Failure(e) && State() == old(State())
    {
      var before := State();
      var valueDelta := 0;
      for i := 0 to |order|
        invariant catalog == old(catalog)
        invariant SetKeys(Progress(before, 0), catalog, order, requested, current, ref)
                  == SetKeys(Progress(State(), valueDelta), catalog, order[i..], requested, current, ref)
      {
        var request, row := RequestAt(requested, order[i]), RowAt(current, order[i]);
        assert order[i..][1..] == order[i + 1..];
        TurnThenRest(Progress(State(), valueDelta), catalog, order[i..], requested, current, ref);
        if request.quantity == row.quantity && RequestedValue(request) == row.value {
          continue;
        }
        var check := ReplaceOpening(order[i], request, row, ref);
        if check.Fail? {
          Restore(before);
          return Failure(check.error);
        }
        valueDelta := valueDelta + RequestedValue(request) - row.value;
      }
      r := Success(valueDelta);
    }

    /** `set_opening_stock`: the value recognized, for the ledger. */
    method ReplaceAllOpening(product: nat, entries: seq<OpeningEntry>, order: seq<Key>) returns (r: Result<int>)
      modifies this
      ensures catalog == old(catalog)
      ensures match SetOpeningStock(old(State()), catalog, product, entries, order)
              case Success(p) => r == Success(p.value) && State() == p.stock
              case Failure(e) => r == Failure(e) && State() == old(State())
    {
      var check := CheckOpening(State(), catalog, product);
      if check.Fail? {
        return Failure(check.error);
      }
      var requested := CollectEntries(product, entries);
      if requested.Failure? {
        return Failure(requested.error);
      }
      var current := ReadOpeningState(product);
      r := ReplaceEach(order, requested.value, current, OpeningRef(|movements|));
    }
  }
}
