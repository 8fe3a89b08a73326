/** When a call to set opening stock is refused, and what asking again does. */
module OpeningCalls {
  import opened Basics
  import opened SerialNumbers
  import opened StockTables
  import opened Tracking
  import opened Inventory
  import opened OpeningStock

  // ---------------------------------------------------------------- refusals

  predicate SharesNone(a: seq<string>, b: seq<string>) {
    forall n :: n in a ==> n !in b
  }

  predicate Unknown(units: map<UnitId, SerialUnit>, product: nat, numbers: seq<string>) {
    forall n :: n in numbers ==> UnitId(product, n) !in units
  }

  /** Units received are known from then on, and no others. */
  ghost predicate Received(units: map<UnitId, SerialUnit>, units': map<UnitId, SerialUnit>, product: nat, numbers: seq<string>) {
    forall id :: id in units' <==> id in units || (id.product == product && id.number in numbers)
  }

  /** Receiving new serials succeeds exactly when all are unknown and none comes twice. */
  lemma {:induction false} ReceivingIff(s: Stock, product: nat, location: nat, bin: Option<nat>, numbers: seq<string>, movement: nat)
    ensures var r := MoveUnits(s, product, location, bin, numbers, movement, true, Cause(Opening, false));
            && (r.Success? <==> Distinct(numbers) && Unknown(s.units, product, numbers))
            && (r.Success? ==> Received(s.units, r.value.units, product, numbers))
            && (r.Failure? ==> r.error == Conflict)
    decreases |numbers|
  {
    if numbers != [] {
      var id, rest := UnitId(product, numbers[0]), numbers[1..];
      assert numbers == [numbers[0]] + rest;
      if id !in s.units {
        var units := s.units[id := SerialUnit(InStock, Some(location), bin)];
        ReceivingIff(s.(units := units, links := s.links + [Link(movement, id)]), product, location, bin, rest, movement);
        FirstReceivedIff(s.units, units, product, numbers);
      }
    }
  }

  lemma FirstReceivedIff(units: map<UnitId, SerialUnit>, units': map<UnitId, SerialUnit>, product: nat, numbers: seq<string>)
    requires numbers != [] && UnitId(product, numbers[0]) !in units
    requires units'.Keys == units.Keys + {UnitId(product, numbers[0])}
    ensures Distinct(numbers) && Unknown(units, product, numbers) <==> Distinct(numbers[1..]) && Unknown(units', product, numbers[1..])
  {
    var rest := numbers[1..];
    assert numbers == [numbers[0]] + rest;
    if Distinct(numbers) && Unknown(units, product, numbers) {
      forall n | n in rest ensures UnitId(product, n) !in units' {
        var i :| 0 <= i < |rest| && rest[i] == n;
        assert numbers[i + 1] == n;
      }
      forall i, j | 0 <= i < j < |rest| ensures rest[i] != rest[j] {
        assert numbers[i + 1] == rest[i] && numbers[j + 1] == rest[j];
      }
    }
    if Distinct(rest) && Unknown(units', product, rest) {
      forall i, j | 0 <= i < j < |numbers| ensures numbers[i] != numbers[j] {
        assert numbers[j] == rest[j - 1] && rest[j - 1] in rest;
        assert i > 0 ==> numbers[i] == rest[i - 1];
      }
    }
  }

  /** A key is refused for a serial already known, or not at all. */
  lemma TurnIff(p: Progress, c: Catalog, k: Key, request: Request, row: OpeningRow, ref: Ref)
    requires LevelsRefineLedger(p.stock) && Editable(p.stock.movements, k.product) && k.product in c.products
    requires row.quantity == OpeningQty(p.stock.movements, k)
    requires c.products[k.product].mode.SerialTracked? ==> FitsRequest(c, k.product, k, request) && row == OpeningRow(0, 0, None)
    ensures var r := Turn(p, c, k, request, row, ref);
            if c.products[k.product].mode.SerialTracked?
            then && (r.Success? <==> Unknown(p.stock.units, k.product, request.serials))
                 && (r.Success? ==> Received(p.stock.units, r.value.stock.units, k.product, request.serials))
                 && (r.Failure? ==> r.error == Conflict)
            else r.Success?
  {
    if NothingToDo(request, row) {
      assert c.products[k.product].mode.SerialTracked? ==> request.serials == [];
    } else {
      OpeningNeverShort(p.stock, c, k, request, row, ref);
      var posted := Post(p.stock, OpeningMovement(k, request, row, ref)).value;
      ReceivingIff(posted, k.product, k.location, k.bin, request.serials, |p.stock.movements|);
    }
  }

  /** No serial is asked for at two keys of an order. */
  predicate NoneShared(order: seq<Key>, requested: map<Key, Request>) {
    forall i, j :: 0 <= i < j < |order| ==> SharesNone(RequestAt(requested, order[i]).serials, RequestAt(requested, order[j]).serials)
  }

  predicate AllUnknown(units: map<UnitId, SerialUnit>, product: nat, order: seq<Key>, requested: map<Key, Request>) {
    forall i :: 0 <= i < |order| ==> Unknown(units, product, RequestAt(requested, order[i]).serials)
  }

  lemma RestOfKeysIff(units: map<UnitId, SerialUnit>, units': map<UnitId, SerialUnit>, product: nat, order: seq<Key>, requested: map<Key, Request>)
    requires order != [] && Unknown(units, product, RequestAt(requested, order[0]).serials)
    requires Received(units, units', product, RequestAt(requested, order[0]).serials)
    ensures NoneShared(order, requested) && AllUnknown(units, product, order, requested)
            <==> NoneShared(order[1..], requested) && AllUnknown(units', product, order[1..], requested)
  {
    var first, rest := RequestAt(requested, order[0]).serials, order[1..];
    forall i | 0 <= i < |rest|
      ensures Unknown(units', product, RequestAt(requested, rest[i]).serials) <==>
                Unknown(units, product, RequestAt(requested, order[i + 1]).serials) && SharesNone(first, RequestAt(requested, order[i + 1]).serials)
    {
      RestOfSerialsIff(units, units', product, first, RequestAt(requested, rest[i]).serials);
    }
    if NoneShared(rest, requested) && AllUnknown(units', product, rest, requested) {
      forall i, j | 0 <= i < j < |order| ensures SharesNone(RequestAt(requested, order[i]).serials, RequestAt(requested, order[j]).serials) {
        assert order[j] == rest[j - 1];
        assert i > 0 ==> order[i] == rest[i - 1];
      }
      forall i | 0 <= i < |order| ensures Unknown(units, product, RequestAt(requested, order[i]).serials) {
        assert i > 0 ==> order[i] == rest[i - 1];
      }
    }
    if NoneShared(order, requested) && AllUnknown(units, product, order, requested) {
      forall i, j | 0 <= i < j < |rest| ensures SharesNone(RequestAt(requested, rest[i]).serials, RequestAt(requested, rest[j]).serials) {
        assert order[i + 1] == rest[i] && order[j + 1] == rest[j];
      }
    }
  }

  lemma RestOfSerialsIff(units: map<UnitId, SerialUnit>, units': map<UnitId, SerialUnit>, product: nat, first: seq<string>, other: seq<string>)
    requires Received(units, units', product, first)
    ensures Unknown(units', product, other) <==> Unknown(units, product, other) && SharesNone(first, other)
  {
    forall n | n in other ensures UnitId(product, n) in units' <==> UnitId(product, n) in units || n in first {
      var id := UnitId(product, n);
      assert id.product == product && id.number == n;
    }
    if Unknown(units', product, other) {
      forall n | n in first ensures n !in other {
        assert n in other ==> UnitId(product, n) in units';
      }
    }
  }

  lemma {:induction false} SetKeysIff(p: Progress, c: Catalog, product: nat, order: seq<Key>, requested: map<Key, Request>,
                                      current: map<Key, OpeningRow>, ref: Ref)
    requires Ready(p.stock, c, product, order, requested, current) && Editable(p.stock.movements, product)
    ensures var r := SetKeys(p, c, order, requested, current, ref);
            if c.products[product].mode.SerialTracked?
            then && (r.Success? <==> NoneShared(order, requested) && AllUnknown(p.stock.units, product, order, requested))
                 && (r.Failure? ==> r.error == Conflict)
            else r.Success?
    decreases |order|
  {
    if order != [] {
      var k := order[0];
      assert k in order && KeyFits(c, product, k, RequestAt(requested, k), RowAt(current, k));
      TurnThenRest(p, c, order, requested, current, ref);
      TurnIff(p, c, k, RequestAt(requested, k), RowAt(current, k), ref);
      if Turn(p, c, k, RequestAt(requested, k), RowAt(current, k), ref).Success? {
        var next := TurnReady(p, c, product, order, requested, current, ref);
        SetKeysIff(next, c, product, order[1..], requested, current, ref);
        if c.products[product].mode.SerialTracked? {
          RestOfKeysIff(p.stock.units, next.stock.units, product, order, requested);
        }
      }
    }
  }

  /** The serials of an entry, as they are received. */
  function SerialsOf(e: OpeningEntry): seq<string> {
    if NormalizeSerials(e.serials).Success? then NormalizeSerials(e.serials).value else []
  }

  /** No serial occurs in two entries. */
  predicate NoSerialTwice(entries: seq<OpeningEntry>) {
    forall i, j :: 0 <= i < j < |entries| ==> SharesNone(SerialsOf(entries[i]), SerialsOf(entries[j]))
  }

  lemma CheckedEntryUnknown(s: Stock, c: Catalog, product: nat, e: OpeningEntry)
    requires product in c.products && c.products[product].mode.SerialTracked? && CheckEntry(s, c, product, e).Pass?
    ensures Unknown(s.units, product, SerialsOf(e))
  {
    var numbers := NormalizeSerials(e.serials).value;
    NormalizeIdempotent(e.serials);
    assert SerialsReceivable(s.units, product, numbers, false).Pass?;
    ReceivableIsUnknown(s.units, product, numbers);
  }

  lemma ReceivableIsUnknown(units: map<UnitId, SerialUnit>, product: nat, serials: seq<string>)
    requires SerialsReceivable(units, product, serials, false).Pass?
    ensures NormalizeSerials(serials).Success? && Unknown(units, product, NormalizeSerials(serials).value)
  {
    var numbers := NormalizeSerials(serials).value;
    forall n | n in numbers ensures UnitId(product, n) !in units {
      var i :| 0 <= i < |numbers| && numbers[i] == n;
    }
  }

  lemma {:induction false} CheckedUnknown(s: Stock, c: Catalog, product: nat, entries: seq<OpeningEntry>, requested: map<Key, Request>)
    requires product in c.products && c.products[product].mode.SerialTracked? && Collect(s, c, product, entries, requested).Success?
    ensures forall i :: 0 <= i < |entries| ==> Unknown(s.units, product, SerialsOf(entries[i]))
    decreases |entries|
  {
    if entries != [] {
      CheckedEntryUnknown(s, c, product, entries[0]);
      CheckedUnknown(s, c, product, entries[1..], requested[EntryKey(product, entries[0]) := EntryRequest(c, product, entries[0])]);
      forall i | 0 <= i < |entries| ensures Unknown(s.units, product, SerialsOf(entries[i])) {
        assert i > 0 ==> entries[i] == entries[1..][i - 1];
      }
    }
  }

  /** What is asked for at a key is its entry's, and nothing where there is none. */
  lemma SerialsAtKeys(c: Catalog, product: nat, entries: seq<OpeningEntry>, requested: map<Key, Request>, k: Key) returns (e: Option<nat>)
    requires product in c.products && c.products[product].mode.SerialTracked? && CollectedFrom(c, product, entries, map[], requested)
    ensures if e.None? then k !in requested && RequestAt(requested, k).serials == []
            else e.value < |entries| && k == EntryKey(product, entries[e.value]) && RequestAt(requested, k).serials == SerialsOf(entries[e.value])
  {
    if k in requested {
      var i :| 0 <= i < |entries| && k == EntryKey(product, entries[i]);
      e := Some(i);
    } else {
      e := None;
    }
  }

  lemma EitherWay(a: seq<string>, b: seq<string>)
    requires SharesNone(a, b)
    ensures SharesNone(b, a)
  {
  }

  lemma TwoEntriesShareNone(entries: seq<OpeningEntry>, i: nat, j: nat)
    requires NoSerialTwice(entries) && i < |entries| && j < |entries| && i != j
    ensures SharesNone(SerialsOf(entries[i]), SerialsOf(entries[j]))
  {
    if j < i {
      EitherWay(SerialsOf(entries[j]), SerialsOf(entries[i]));
    }
  }

  lemma TwoKeysShareNone(c: Catalog, product: nat, entries: seq<OpeningEntry>, requested: map<Key, Request>, k: Key, l: Key)
    requires product in c.products && c.products[product].mode.SerialTracked? && CollectedFrom(c, product, entries, map[], requested)
    requires NoSerialTwice(entries) && k != l
    ensures SharesNone(RequestAt(requested, k).serials, RequestAt(requested, l).serials)
  {
    var x := SerialsAtKeys(c, product, entries, requested, k);
    var y := SerialsAtKeys(c, product, entries, requested, l);
    if x.Some? && y.Some? {
      TwoEntriesShareNone(entries, x.value, y.value);
    }
  }

  lemma EntriesShareNone(c: Catalog, product: nat, entries: seq<OpeningEntry>, requested: map<Key, Request>, order: seq<Key>)
    requires product in c.products && c.products[product].mode.SerialTracked? && CollectedFrom(c, product, entries, map[], requested)
    requires Distinct(order) && NoSerialTwice(entries)
    ensures NoneShared(order, requested)
  {
    forall i, j | 0 <= i < j < |order| ensures SharesNone(RequestAt(requested, order[i]).serials, RequestAt(requested, order[j]).serials) {
      TwoKeysShareNone(c, product, entries, requested, order[i], order[j]);
    }
  }

  lemma KeysShareNone(order: seq<Key>, requested: map<Key, Request>, x: Key, y: Key)
    requires NoneShared(order, requested) && x in order && y in order && x != y
    ensures SharesNone(RequestAt(requested, x).serials, RequestAt(requested, y).serials)
  {
    var m :| 0 <= m < |order| && order[m] == x;
    var n :| 0 <= n < |order| && order[n] == y;
    if n < m {
      assert SharesNone(RequestAt(requested, y).serials, RequestAt(requested, x).serials);
    }
  }

  lemma KeysDecide(c: Catalog, product: nat, entries: seq<OpeningEntry>, requested: map<Key, Request>, order: seq<Key>)
    requires product in c.products && c.products[product].mode.SerialTracked? && CollectedFrom(c, product, entries, map[], requested)
    requires OwnKeys(product, entries) && (forall k :: k in requested ==> k in order) && NoneShared(order, requested)
    ensures NoSerialTwice(entries)
  {
    forall i, j | 0 <= i < j < |entries| ensures SharesNone(SerialsOf(entries[i]), SerialsOf(entries[j])) {
      KeysShareNone(order, requested, EntryKey(product, entries[i]), EntryKey(product, entries[j]));
    }
  }

  /** For serial goods the serials of the entries decide whether the loop goes through. */
  lemma EntriesDecide(s: Stock, c: Catalog, product: nat, entries: seq<OpeningEntry>, order: seq<Key>, requested: map<Key, Request>)
    requires product in c.products && c.products[product].mode.SerialTracked?
    requires Collect(s, c, product, entries, map[]) == Success(requested) && Distinct(order) && forall k :: k in requested ==> k in order
    ensures AllUnknown(s.units, product, order, requested)
    ensures NoneShared(order, requested) <==> NoSerialTwice(entries)
  {
    CollectIsEntries(s, c, product, entries, map[]);
    CollectIsOwn(s, c, product, entries, map[]);
    CheckedUnknown(s, c, product, entries, map[]);
    forall i | 0 <= i < |order| ensures Unknown(s.units, product, RequestAt(requested, order[i]).serials) {
      var e := SerialsAtKeys(c, product, entries, requested, order[i]);
    }
    if NoSerialTwice(entries) {
      EntriesShareNone(c, product, entries, requested, order);
    }
    if NoneShared(order, requested) {
      KeysDecide(c, product, entries, requested, order);
    }
  }

  /** Setting opening stock is refused by its own checks or not at all: never for want of
      stock, and for serial goods otherwise exactly when a serial occurs in two entries. */
  lemma OpeningRefusals(s: Stock, c: Catalog, product: nat, entries: seq<OpeningEntry>, order: seq<Key>)
    requires StockInv(s, c) && ValidOrder(s, c, product, entries, order)
    requires CheckOpening(s, c, product).Pass? && Collect(s, c, product, entries, map[]).Success?
    ensures var r := SetOpeningStock(s, c, product, entries, order);
            && (r.Success? <==> c.products[product].mode.SerialTracked? ==> NoSerialTwice(entries))
            && (r.Failure? ==> r.error == Conflict)
  {
    var requested := OpeningRunFits(s, c, product, entries, order);
    SetKeysIff(Progress(s, 0), c, product, order, requested, OpeningState(s.movements, product), OpeningRef(|s.movements|));
    if c.products[product].mode.SerialTracked? {
      EntriesDecide(s, c, product, entries, order, requested);
    }
  }

  // ------------------------------------------------------------- asking again

  lemma {:induction false} CollectIgnoresStock(s: Stock, s': Stock, c: Catalog, product: nat, entries: seq<OpeningEntry>, requested: map<Key, Request>)
    requires product in c.products && (s'.units == s.units || !c.products[product].mode.SerialTracked?)
    ensures Collect(s', c, product, entries, requested) == Collect(s, c, product, entries, requested)
    decreases |entries|
  {
    if entries != [] {
      CollectIgnoresStock(s, s', c, product, entries[1..], requested[EntryKey(product, entries[0]) := EntryRequest(c, product, entries[0])]);
    }
  }

  /** Nothing is left to do at any key of an order. */
  predicate AllDone(order: seq<Key>, requested: map<Key, Request>, current: map<Key, OpeningRow>) {
    forall i :: 0 <= i < |order| ==> NothingToDo(RequestAt(requested, order[i]), RowAt(current, order[i]))
  }

  /** The loop makes a movement exactly when something is left to do, and otherwise
      changes and reports nothing. */
  lemma {:induction false} MovesIff(p: Progress, c: Catalog, product: nat, order: seq<Key>, requested: map<Key, Request>,
                                    current: map<Key, OpeningRow>, ref: Ref)
    requires Ready(p.stock, c, product, order, requested, current) && SetKeys(p, c, order, requested, current, ref).Success?
    ensures var q := SetKeys(p, c, order, requested, current, ref).value;
            && p.stock.movements <= q.stock.movements
            && (|q.stock.movements| == |p.stock.movements| <==> AllDone(order, requested, current))
            && (AllDone(order, requested, current) ==> q == p)
    decreases |order|
  {
    if order != [] {
      TurnThenRest(p, c, order, requested, current, ref);
      var next := TurnReady(p, c, product, order, requested, current, ref);
      TurnMovesIff(p, c, order[0], RequestAt(requested, order[0]), RowAt(current, order[0]), ref, next);
      MovesIff(next, c, product, order[1..], requested, current, ref);
      RestDoneIff(order, requested, current);
    }
  }

  lemma TurnMovesIff(p: Progress, c: Catalog, k: Key, request: Request, row: OpeningRow, ref: Ref, next: Progress)
    requires UnitsPlaced(p.stock.units) && Turn(p, c, k, request, row, ref) == Success(next)
    ensures if NothingToDo(request, row) then next == p else |next.stock.movements| == |p.stock.movements| + 1
  {
    if !NothingToDo(request, row) {
      SetKeyAppends(p.stock, c, k, request, row, ref);
    }
  }

  lemma RestDoneIff(order: seq<Key>, requested: map<Key, Request>, current: map<Key, OpeningRow>)
    requires order != []
    ensures AllDone(order, requested, current) <==>
              NothingToDo(RequestAt(requested, order[0]), RowAt(current, order[0])) && AllDone(order[1..], requested, current)
  {
    if AllDone(order[1..], requested, current) && NothingToDo(RequestAt(requested, order[0]), RowAt(current, order[0])) {
      forall i | 0 <= i < |order| ensures NothingToDo(RequestAt(requested, order[i]), RowAt(current, order[i])) {
        assert i > 0 ==> order[i] == order[1..][i - 1];
      }
    }
  }

  /** Nothing is left to do right after a call exactly when all it asked for is at the
      column's scale. */
  lemma DoneAfterIff(s: Stock, c: Catalog, product: nat, entries: seq<OpeningEntry>, order: seq<Key>, order': seq<Key>)
    requires StockInv(s, c) && StoredAtScale(s.movements) && ValidOrder(s, c, product, entries, order)
    requires SetOpeningStock(s, c, product, entries, order).Success?
    requires forall k :: k in order' ==> k.product == product
    requires forall k :: k in Collect(s, c, product, entries, map[]).value ==> k in order'
    ensures var after := SetOpeningStock(s, c, product, entries, order).value.stock;
            AllDone(order', Collect(s, c, product, entries, map[]).value, OpeningState(after.movements, product)) <==> EntriesAtScale(entries)
  {
    var requested := Collect(s, c, product, entries, map[]).value;
    var current := OpeningState(SetOpeningStock(s, c, product, entries, order).value.stock.movements, product);
    EntriesAtScaleIff(s, c, product, entries);
    forall i | 0 <= i < |order'|
      ensures NothingToDo(RequestAt(requested, order'[i]), RowAt(current, order'[i])) <==> AtScale(RequestedValue(RequestAt(requested, order'[i])))
    {
      OpeningMatchesRequest(s, c, product, entries, order, order'[i]);
    }
    if AllDone(order', requested, current) {
      forall k | k in requested ensures AtScale(RequestedValue(requested[k])) {
        var i :| 0 <= i < |order'| && order'[i] == k;
      }
    }
    if EntriesAtScale(entries) {
      forall i | 0 <= i < |order'| ensures AtScale(RequestedValue(RequestAt(requested, order'[i]))) {
        AskedAtScale(requested, order'[i]);
      }
    }
  }

  lemma KeysOfProduct(s: Stock, c: Catalog, product: nat, entries: seq<OpeningEntry>, order: seq<Key>)
    requires StockInv(s, c) && CheckOpening(s, c, product).Pass?
    requires Collect(s, c, product, entries, map[]).Success? && ValidOrder(s, c, product, entries, order)
    ensures forall k :: k in order ==> k.product == product
  {
    CollectKeys(s, c, product, entries, map[]);
    StateIsSums(s.movements, product, Key(product, 0, None, None));
  }

  /** Asked again, a call for goods not tracked by serial is accepted; it makes no
      movement, and reports nothing, exactly when every quantity times its cost is a
      whole number of ten-thousandths. */
  lemma RepeatMovesNothing(s: Stock, c: Catalog, product: nat, entries: seq<OpeningEntry>, order: seq<Key>, order': seq<Key>)
    requires StockInv(s, c) && StoredAtScale(s.movements) && ValidOrder(s, c, product, entries, order)
    requires SetOpeningStock(s, c, product, entries, order).Success? && !c.products[product].mode.SerialTracked?
    requires ValidOrder(SetOpeningStock(s, c, product, entries, order).value.stock, c, product, entries, order')
    ensures var after := SetOpeningStock(s, c, product, entries, order).value.stock;
            var again := SetOpeningStock(after, c, product, entries, order');
            && again.Success?
            && (|again.value.stock.movements| == |after.movements| <==> EntriesAtScale(entries))
            && (EntriesAtScale(entries) ==> again == Success(Progress(after, 0)))
  {
    var after := SetOpeningStock(s, c, product, entries, order).value.stock;
    OpeningKeeps(s, c, product, entries, order);
    CollectIgnoresStock(s, after, c, product, entries, map[]);
    assert CheckOpening(after, c, product).Pass?;
    OpeningRefusals(after, c, product, entries, order');
    var requested := OpeningRunFits(after, c, product, entries, order');
    KeysOfProduct(after, c, product, entries, order');
    DoneAfterIff(s, c, product, entries, order, order');
    MovesIff(Progress(after, 0), c, product, order', requested, OpeningState(after.movements, product), OpeningRef(|after.movements|));
  }

  /** Serial goods whose opening stock is set refuse every further call. */
  lemma SerialsSetOnce(s: Stock, c: Catalog, product: nat, entries: seq<OpeningEntry>, order: seq<Key>, i: nat)
    requires product in c.products && c.products[product].mode.SerialTracked?
    requires i < |s.movements| && s.movements[i].kind.Opening? && s.movements[i].key.product == product
    ensures SetOpeningStock(s, c, product, entries, order).Failure?
  {
    HeldState(s.movements, product, i);
  }

  lemma {:induction false} HeldState(ms: seq<Movement>, product: nat, i: nat)
    requires i < |ms| && ms[i].kind.Opening? && ms[i].key.product == product
    ensures OpeningState(ms, product) != map[]
  {
    if i < |ms| - 1 {
      HeldState(ms[..|ms| - 1], product, i);
    }
    var m := ms[|ms| - 1];
    if m.kind.Opening? && m.key.product == product {
      assert m.key in OpeningState(ms, product);
    }
  }

  // ---------------------------------------------------------- one entry, again

  /** Where an item's opening stock is at one key and asked for there, a call reports what
      is asked for less what is held, and leaves the latter settled on the former. */
  lemma OneEntry(s: Stock, c: Catalog, product: nat, e: OpeningEntry)
    requires StockInv(s, c) && CheckOpening(s, c, product).Pass? && !c.products[product].mode.SerialTracked?
    requires CheckEntry(s, c, product, e).Pass? && OpeningState(s.movements, product).Keys <= {EntryKey(product, e)}
    ensures var k, r := EntryKey(product, e), SetOpeningStock(s, c, product, [e], [EntryKey(product, e)]);
            var asked, held := e.quantity * e.unitCost.GetOr(0), OpeningValue(s.movements, k);
            && ValidOrder(s, c, product, [e], [k]) && r.Success?
            && r.value.value == asked - held && OpeningValue(r.value.stock.movements, k) == Settled(asked, held)
            && OpeningState(r.value.stock.movements, product).Keys <= {k}
  {
    var k, ref := EntryKey(product, e), OpeningRef(|s.movements|);
    var requested, current := map[k := EntryRequest(c, product, e)], OpeningState(s.movements, product);
    assert [e][1..] == [] && [k][1..] == [];
    assert Collect(s, c, product, [e], map[]) == Collect(s, c, product, [], requested) == Success(requested);
    assert requested.Keys + current.Keys == {k};
    OpeningRefusals(s, c, product, [e], [k]);
    OpeningSettles(s, c, product, [e], [k], k);
    StateIsSums(s.movements, product, k);
    var r := SetOpeningStock(s, c, product, [e], [k]).value;
    TurnThenRest(Progress(s, 0), c, [k], requested, current, ref);
    assert Turn(Progress(s, 0), c, k, EntryRequest(c, product, e), RowAt(current, k), ref) == Success(r);
    OneKeyHeld(s, c, product, k, EntryRequest(c, product, e), RowAt(current, k), ref, r);
  }

  lemma OneKeyHeld(s: Stock, c: Catalog, product: nat, k: Key, request: Request, row: OpeningRow, ref: Ref, r: Progress)
    requires UnitsPlaced(s.units) && k.product == product && OpeningState(s.movements, product).Keys <= {k}
    requires Turn(Progress(s, 0), c, k, request, row, ref) == Success(r)
    ensures r.value == RequestedValue(request) - row.value && OpeningState(r.stock.movements, product).Keys <= {k}
  {
    if !NothingToDo(request, row) {
      SetKeyAppends(s, c, k, request, row, ref);
      assert r.stock.movements[..|s.movements|] == s.movements;
    }
  }

  /** Asked for once more, it reports half a ten-thousandth at most: nothing exactly when
      what is asked for is at scale, and a half exactly when it lies half way, and is then
      held as its other neighbour. */
  lemma OneEntryAgain(asked: int, held: int)
    requires AtScale(held)
    ensures var once := Settled(asked, held);
            && Abs(asked - once) <= 500 && (asked - once == 0 <==> AtScale(asked)) && (Abs(asked - once) == 500 <==> asked % 1000 == 500)
            && Settled(asked, once) == (if asked % 1000 == 500 then 2 * asked - once else once)
  {
    SettledNear(asked, held);
    HalfWayOff(asked, Settled(asked, held));
    SettledAgain(asked, held);
  }

  lemma HalfWayOff(asked: int, once: int)
    requires AtScale(once) && Abs(asked - once) <= 500
    ensures Abs(asked - once) == 500 <==> asked % 1000 == 500
  {
  }
}
