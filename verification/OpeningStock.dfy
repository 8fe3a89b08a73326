/** Opening stock: replacing what an item started with, key by key, through
    opening movements only. What a call asks for is worth cost times quantity, exactly;
    what a movement stores of it is rounded to the four decimals of its column. */
module OpeningStock {
  import opened Basics
  import opened Rounding
  import opened SerialNumbers
  import opened StockTables
  import opened Tracking
  import opened Inventory

  /** Quantity, recognized value and latest rate at one key. */
  datatype OpeningRow = OpeningRow(quantity: int, value: int, cost: Option<int>)

  function MovementValue(m: Movement): int {
    if m.valueDelta.Some? then m.valueDelta.value
    else if m.unitCost.Some? then m.qty * m.unitCost.value
    else 0
  }

  predicate IsOpeningAt(m: Movement, k: Key) {
    m.kind.Opening? && m.key == k
  }

  function OpeningQty(ms: seq<Movement>, k: Key): int {
    if ms == [] then 0
    else OpeningQty(ms[..|ms| - 1], k) + (if IsOpeningAt(ms[|ms| - 1], k) then ms[|ms| - 1].qty else 0)
  }

  function OpeningValue(ms: seq<Movement>, k: Key): int {
    if ms == [] then 0
    else OpeningValue(ms[..|ms| - 1], k) + (if IsOpeningAt(ms[|ms| - 1], k) then MovementValue(ms[|ms| - 1]) else 0)
  }

  /** The recognized opening value of a product over every key. */
  function OpeningTotal(ms: seq<Movement>, product: nat): int {
    if ms == [] then 0
    else
      var m := ms[|ms| - 1];
      OpeningTotal(ms[..|ms| - 1], product) + (if m.kind.Opening? && m.key.product == product then MovementValue(m) else 0)
  }

  function RowAt(state: map<Key, OpeningRow>, k: Key): OpeningRow {
    if k in state then state[k] else OpeningRow(0, 0, None)
  }

  /** `_opening_state`: the opening movements of a product folded in order. */
  function OpeningState(ms: seq<Movement>, product: nat): map<Key, OpeningRow> {
    if ms == [] then map[]
    else
      var state := OpeningState(ms[..|ms| - 1], product);
      var m := ms[|ms| - 1];
      if m.kind.Opening? && m.key.product == product then
        var row := RowAt(state, m.key);
        state[m.key := OpeningRow(row.quantity + m.qty, row.value + MovementValue(m), m.unitCost)]
      else state
  }

  /** `_opening_editable`: nothing but opening movements so far. */
  predicate Editable(ms: seq<Movement>, product: nat) {
    forall i :: 0 <= i < |ms| && ms[i].key.product == product ==> ms[i].kind.Opening?
  }

  datatype OpeningEntry = OpeningEntry(location: nat, bin: Option<nat>, lot: Option<nat>, serials: seq<string>,
                                       quantity: nat, unitCost: Option<nat>)

  datatype Request = Request(quantity: nat, cost: Option<nat>, serials: seq<string>)

  function RequestAt(requested: map<Key, Request>, k: Key): Request {
    if k in requested then requested[k] else Request(0, None, [])
  }

  function RequestedValue(r: Request): int {
    r.quantity * r.cost.GetOr(0)
  }

  function CheckEntry(s: Stock, c: Catalog, product: nat, e: OpeningEntry): Check
    requires product in c.products
  {
    if !ActiveLocation(c, e.location) || !UsableBin(c, e.location, e.bin) then Fail(NotFound)
    else
      match c.products[product].mode
      case LotTracked =>
        if e.lot.None? then Fail(BadRequest)
        else if !LotOf(c, e.lot.value, product) then Fail(NotFound)
        else Need(e.serials == [], BadRequest)
      case SerialTracked =>
        if e.lot.Some? then Fail(BadRequest)
        else
          var r := NormalizeSerials(e.serials);
          if r.Failure? then Fail(r.error)
          else if 1000 * |r.value| != e.quantity then Fail(BadRequest)
          else SerialsReceivable(s.units, product, r.value, false)
      case Untracked => Need(e.lot.None? && e.serials == [], BadRequest)
  }

  function EntryKey(product: nat, e: OpeningEntry): Key {
    Key(product, e.location, e.bin, e.lot)
  }

  function EntryRequest(c: Catalog, product: nat, e: OpeningEntry): Request
    requires product in c.products
  {
    var r := NormalizeSerials(e.serials);
    Request(e.quantity, e.unitCost, if c.products[product].mode.SerialTracked? && r.Success? then r.value else [])
  }

  /** The loop that checks the entries and collects them by key. */
  function Collect(s: Stock, c: Catalog, product: nat, entries: seq<OpeningEntry>, requested: map<Key, Request>)
    : Result<map<Key, Request>>
    requires product in c.products
    decreases |entries|
  {
    if entries == [] then Success(requested)
    else
      :- CheckEntry(s, c, product, entries[0]);
      var key := EntryKey(product, entries[0]);
      :- Need(key !in requested, BadRequest);
      Collect(s, c, product, entries[1..], requested[key := EntryRequest(c, product, entries[0])])
  }

  /** The tables after some keys, and the value recognized on the way. */
  datatype Progress = Progress(stock: Stock, value: int)

  /** A value as the `value_delta` column keeps it: to a ten-thousandth, half away from
      zero. */
  function StoredValue(value: int): int {
    if value >= 0 then (value + 500) / 1000 * 1000 else -((500 - value) / 1000 * 1000)
  }

  function OpeningMovement(k: Key, request: Request, row: OpeningRow, ref: Ref): Movement {
    var valueDelta := RequestedValue(request) - row.value;
    Movement(k, request.quantity - row.quantity, Opening, ref, request.cost,
             if request.cost.Some? || row.value != 0 then Some(StoredValue(valueDelta)) else None)
  }

  /** What a key holds after a call that asks for a value, from what it held. */
  function Settled(asked: int, held: int): int {
    held + StoredValue(asked - held)
  }

  predicate NothingToDo(request: Request, row: OpeningRow) {
    request.quantity == row.quantity && RequestedValue(request) == row.value
  }

  /** One turn of the loop over the keys. */
  function SetKey(s: Stock, c: Catalog, k: Key, request: Request, row: OpeningRow, ref: Ref): Result<Stock> {
    var posted :- Post(s, OpeningMovement(k, request, row, ref));
    if ModeOf(c, k.product).SerialTracked? then
      ApplySerialMovement(posted, k.product, k.location, k.bin, request.serials, |s.movements|, true, Cause(Opening, false))
    else
      Success(posted)
  }

  function SetKeys(p: Progress, c: Catalog, order: seq<Key>, requested: map<Key, Request>, current: map<Key, OpeningRow>, ref: Ref)
    : Result<Progress>
    decreases |order|
  {
    if order == [] then Success(p)
    else
      var request, row := RequestAt(requested, order[0]), RowAt(current, order[0]);
      if NothingToDo(request, row) then SetKeys(p, c, order[1..], requested, current, ref)
      else
        var stock :- SetKey(p.stock, c, order[0], request, row, ref);
        SetKeys(Progress(stock, p.value + RequestedValue(request) - row.value), c, order[1..], requested, current, ref)
  }

  /** The keys a call visits, each once; the sorting of them is immaterial. */
  predicate Enumerates(order: seq<Key>, keys: set<Key>) {
    Distinct(order) && (forall k :: k in keys ==> k in order) && (forall k :: k in order ==> k in keys)
  }

  function CheckOpening(s: Stock, c: Catalog, product: nat): Check {
    if product !in c.products then Fail(NotFound)
    else
      var item := c.products[product];
      if item.variable || !item.good || !item.tracked then Fail(BadRequest)
      else if !Editable(s.movements, product) then Fail(Conflict)
      else Need(item.mode.SerialTracked? ==> OpeningState(s.movements, product) == map[], Conflict)
  }

  /** `set_opening_stock`, up to the ledger posting of the value. */
  function SetOpeningStock(s: Stock, c: Catalog, product: nat, entries: seq<OpeningEntry>, order: seq<Key>): Result<Progress> {
    if CheckOpening(s, c, product).Fail? then Failure(CheckOpening(s, c, product).error)
    else
      var requested :- Collect(s, c, product, entries, map[]);
      SetKeys(Progress(s, 0), c, order, requested, OpeningState(s.movements, product), OpeningRef(|s.movements|))
  }

  /** The orders a call may take: any enumeration of the keys asked for or held. */
  predicate ValidOrder(s: Stock, c: Catalog, product: nat, entries: seq<OpeningEntry>, order: seq<Key>) {
    product in c.products && Collect(s, c, product, entries, map[]).Success? ==>
      Enumerates(order, Collect(s, c, product, entries, map[]).value.Keys + OpeningState(s.movements, product).Keys)
  }

  // --------------------------------------------------------- what the column keeps

  predicate AtScale(value: int) {
    value % 1000 == 0
  }

  /** Every opening value stored is one the column can keep. */
  predicate StoredAtScale(ms: seq<Movement>) {
    forall i :: 0 <= i < |ms| && ms[i].kind.Opening? ==> AtScale(MovementValue(ms[i]))
  }

  /** What a caller can see of a call: whether each quantity times its cost is a whole
      number of ten-thousandths. */
  predicate EntriesAtScale(entries: seq<OpeningEntry>) {
    forall i :: 0 <= i < |entries| ==> AtScale(entries[i].quantity * entries[i].unitCost.GetOr(0))
  }

  lemma StoredNear(value: int)
    ensures AtScale(StoredValue(value)) && Abs(StoredValue(value) - value) <= 500
    ensures StoredValue(value) == value <==> AtScale(value)
  {
    if value >= 0 {
      Nearest(value);
    } else {
      Nearest(-value);
    }
  }

  lemma Nearest(value: nat)
    ensures var near := (value + 500) / 1000 * 1000; near % 1000 == 0 && -500 < near - value <= 500 && (near == value <==> value % 1000 == 0)
  {
  }

  lemma StoredIsHalfUp(value: int)
    ensures StoredValue(value) == 1000 * HalfUp(value, 1000)
  {
  }

  /** The value held is within half a ten-thousandth of the value asked for, and it is
      that value exactly when it is a whole number of them. */
  lemma SettledNear(asked: int, held: int)
    ensures Abs(Settled(asked, held) - asked) <= 500
    ensures AtScale(held) ==> AtScale(Settled(asked, held)) && (Settled(asked, held) == asked <==> AtScale(asked))
    ensures asked == held ==> Settled(asked, held) == asked
  {
    StoredNear(asked - held);
  }

  /** Asked for again, a value off the scale is held as it was, unless it lies half way:
      then it is held as the other neighbour, back and forth. */
  lemma SettledAgain(asked: int, held: int)
    requires AtScale(held)
    ensures var once := Settled(asked, held);
            Settled(asked, once) == if Abs(asked - once) == 500 then 2 * asked - once else once
  {
    var once := Settled(asked, held);
    SettledNear(asked, held);
    StoredNear(asked - once);
  }

  // -------------------------------------------------------------------- proofs

  lemma OpeningAppend(ms: seq<Movement>, m: Movement, k: Key)
    ensures OpeningQty(ms + [m], k) == OpeningQty(ms, k) + if IsOpeningAt(m, k) then m.qty else 0
    ensures OpeningValue(ms + [m], k) == OpeningValue(ms, k) + if IsOpeningAt(m, k) then MovementValue(m) else 0
    ensures OpeningTotal(ms + [m], k.product) == OpeningTotal(ms, k.product) + if m.kind.Opening? && m.key.product == k.product then MovementValue(m) else 0
  {
    assert (ms + [m])[..|ms|] == ms;
  }

  /** The folded state is the sums, key by key. */
  lemma {:induction false} StateIsSums(ms: seq<Movement>, product: nat, k: Key)
    requires k.product == product
    ensures var row := RowAt(OpeningState(ms, product), k);
            row.quantity == OpeningQty(ms, k) && row.value == OpeningValue(ms, k)
    ensures forall j :: j in OpeningState(ms, product) ==> j.product == product
  {
    if ms != [] {
      StateIsSums(ms[..|ms| - 1], product, k);
    }
  }

  /** While only opening movements exist, they are all there is to a level. */
  lemma {:induction false} EditableOnHand(ms: seq<Movement>, k: Key)
    requires Editable(ms, k.product)
    ensures OnHand(ms, k) == OpeningQty(ms, k)
  {
    if ms != [] {
      EditableOnHand(ms[..|ms| - 1], k);
    }
  }

  lemma {:induction false} CollectKeys(s: Stock, c: Catalog, product: nat, entries: seq<OpeningEntry>, requested: map<Key, Request>)
    requires product in c.products && Collect(s, c, product, entries, requested).Success?
    requires forall k :: k in requested ==> FitsRequest(c, product, k, requested[k])
    ensures forall k :: k in Collect(s, c, product, entries, requested).value ==>
              FitsRequest(c, product, k, Collect(s, c, product, entries, requested).value[k])
    decreases |entries|
  {
    if entries != [] {
      NormalizeIdempotent(entries[0].serials);
      CollectKeys(s, c, product, entries[1..], requested[EntryKey(product, entries[0]) := EntryRequest(c, product, entries[0])]);
    }
  }

  /** What checking an entry guarantees about the request it becomes. */
  ghost predicate FitsRequest(c: Catalog, product: nat, k: Key, r: Request)
    requires product in c.products
  {
    && k.product == product
    && match c.products[product].mode
       case LotTracked => k.lot.Some?
       case SerialTracked => k.lot.None? && NormalizeSerials(r.serials) == Success(r.serials) && 1000 * |r.serials| == r.quantity
       case Untracked => k.lot.None?
  }

  /** The held rows not yet visited still describe the tables. */
  ghost predicate RowsCurrent(s: Stock, order: seq<Key>, current: map<Key, OpeningRow>) {
    forall k :: k in order ==> RowAt(current, k).quantity == OpeningQty(s.movements, k) && RowAt(current, k).value == OpeningValue(s.movements, k)
  }

  /** The not-enough-stock check cannot fire while opening stock is editable. */
  lemma OpeningNeverShort(s: Stock, c: Catalog, k: Key, request: Request, row: OpeningRow, ref: Ref)
    requires LevelsRefineLedger(s) && Editable(s.movements, k.product)
    requires row.quantity == OpeningQty(s.movements, k)
    ensures Post(s, OpeningMovement(k, request, row, ref)).Success?
    ensures Level(Post(s, OpeningMovement(k, request, row, ref)).value, k) == request.quantity
  {
    EditableOnHand(s.movements, k);
    assert Level(s, k) == OnHand(s.movements, k);
  }

  /** A visited key ends at the requested quantity, and at its value as the column keeps
      the change; no other key moves. */
  lemma SetKeyEffect(s: Stock, c: Catalog, k: Key, request: Request, row: OpeningRow, ref: Ref, j: Key)
    requires row.quantity == OpeningQty(s.movements, k) && row.value == OpeningValue(s.movements, k)
    requires UnitsPlaced(s.units) && SetKey(s, c, k, request, row, ref).Success?
    ensures var s' := SetKey(s, c, k, request, row, ref).value;
            && s'.movements == s.movements + [OpeningMovement(k, request, row, ref)]
            && OpeningQty(s'.movements, j) == (if j == k then request.quantity else OpeningQty(s.movements, j))
            && OpeningValue(s'.movements, j) == (if j == k then Settled(RequestedValue(request), row.value) else OpeningValue(s.movements, j))
            && OpeningTotal(s'.movements, k.product) == OpeningTotal(s.movements, k.product) + StoredValue(RequestedValue(request) - row.value)
  {
    var m := OpeningMovement(k, request, row, ref);
    MovementIsWorth(k, request, row, ref);
    OpeningAppend(s.movements, m, j);
    OpeningAppend(s.movements, m, k);
    SetKeyAppends(s, c, k, request, row, ref);
  }

  lemma MovementIsWorth(k: Key, request: Request, row: OpeningRow, ref: Ref)
    ensures MovementValue(OpeningMovement(k, request, row, ref)) == StoredValue(RequestedValue(request) - row.value)
  {
  }

  lemma SetKeyAppends(s: Stock, c: Catalog, k: Key, request: Request, row: OpeningRow, ref: Ref)
    requires UnitsPlaced(s.units) && SetKey(s, c, k, request, row, ref).Success?
    ensures SetKey(s, c, k, request, row, ref).value.movements == s.movements + [OpeningMovement(k, request, row, ref)]
  {
    if ModeOf(c, k.product).SerialTracked? {
      var m, numbers := OpeningMovement(k, request, row, ref), NormalizeSerials(request.serials).value;
      MoveUnitsCounts(Post(s, m).value, k.product, k.location, k.bin, numbers, |s.movements|, true, Cause(Opening, false), 0, 0, None);
    }
  }

  lemma SetKeyKeepsStock(s: Stock, c: Catalog, k: Key, request: Request, row: OpeningRow, ref: Ref)
    requires StockInv(s, c) && k.product in c.products
    requires if c.products[k.product].mode.SerialTracked? then FitsRequest(c, k.product, k, request) && row == OpeningRow(0, 0, None)
             else request.quantity != row.quantity ==> (k.lot.Some? <==> c.products[k.product].mode.LotTracked?)
    requires SetKey(s, c, k, request, row, ref).Success?
    ensures StockInv(SetKey(s, c, k, request, row, ref).value, c)
  {
    var m := OpeningMovement(k, request, row, ref);
    if c.products[k.product].mode.SerialTracked? {
      PostSerialsKeepsStock(s, c, m, request.serials, true, Cause(Opening, false), Post(s, m).value,
                            SetKey(s, c, k, request, row, ref).value);
    } else {
      assert FitsMode(c, m, 0);
      PostKeepsStock(s, c, m);
    }
  }

  /** A key that is asked for or holds something is right for the item's tracking. */
  ghost predicate KeyFits(c: Catalog, product: nat, k: Key, request: Request, row: OpeningRow)
    requires product in c.products
  {
    && k.product == product
    && if c.products[product].mode.SerialTracked? then FitsRequest(c, product, k, request) && row == OpeningRow(0, 0, None)
       else request.quantity != row.quantity ==> (k.lot.Some? <==> c.products[product].mode.LotTracked?)
  }

  ghost predicate KeysFit(c: Catalog, product: nat, order: seq<Key>, requested: map<Key, Request>, current: map<Key, OpeningRow>)
    requires product in c.products
  {
    forall k :: k in order ==> KeyFits(c, product, k, RequestAt(requested, k), RowAt(current, k))
  }

  lemma RestFits(s: Stock, c: Catalog, product: nat, order: seq<Key>, requested: map<Key, Request>, current: map<Key, OpeningRow>)
    requires product in c.products && Distinct(order) && order != []
    requires RowsCurrent(s, order, current) && KeysFit(c, product, order, requested, current)
    ensures Distinct(order[1..]) && order[0] !in order[1..]
    ensures RowsCurrent(s, order[1..], current) && KeysFit(c, product, order[1..], requested, current)
    ensures forall j :: j in order <==> j == order[0] || j in order[1..]
  {
    assert order == [order[0]] + order[1..];
  }

  /** A movement at one key leaves the rows of the others as they were. */
  lemma RowsStay(s: Stock, next: Stock, m: Movement, rest: seq<Key>, current: map<Key, OpeningRow>)
    requires next.movements == s.movements + [m] && m.key !in rest && RowsCurrent(s, rest, current)
    ensures RowsCurrent(next, rest, current)
  {
    forall i | i in rest ensures OpeningQty(next.movements, i) == OpeningQty(s.movements, i) && OpeningValue(next.movements, i) == OpeningValue(s.movements, i) {
      OpeningAppend(s.movements, m, i);
    }
  }

  /** One turn of the loop leaves the remaining turns as it found them. */
  lemma SetKeyStep(s: Stock, c: Catalog, product: nat, order: seq<Key>, requested: map<Key, Request>,
                   current: map<Key, OpeningRow>, ref: Ref) returns (next: Stock)
    requires StockInv(s, c) && product in c.products && Distinct(order) && order != []
    requires RowsCurrent(s, order, current) && KeysFit(c, product, order, requested, current)
    requires SetKey(s, c, order[0], RequestAt(requested, order[0]), RowAt(current, order[0]), ref).Success?
    ensures next == SetKey(s, c, order[0], RequestAt(requested, order[0]), RowAt(current, order[0]), ref).value
    ensures StockInv(next, c) && RowsCurrent(next, order[1..], current)
    ensures next.movements == s.movements + [OpeningMovement(order[0], RequestAt(requested, order[0]), RowAt(current, order[0]), ref)]
    ensures Editable(s.movements, product) ==> Editable(next.movements, product)
  {
    var k := order[0];
    var request, row := RequestAt(requested, k), RowAt(current, k);
    next := SetKey(s, c, k, request, row, ref).value;
    RestFits(s, c, product, order, requested, current);
    SetKeyAppends(s, c, k, request, row, ref);
    RowsStay(s, next, OpeningMovement(k, request, row, ref), order[1..], current);
    assert k in order && KeyFits(c, product, k, request, row);
    SetKeyKeepsStock(s, c, k, request, row, ref);
  }

  /** What a key holds once it is settled. */
  ghost predicate SettledTo(now: seq<Movement>, j: Key, request: Request, row: OpeningRow) {
    OpeningQty(now, j) == request.quantity && OpeningValue(now, j) == Settled(RequestedValue(request), row.value)
  }

  ghost predicate Untouched(was: seq<Movement>, now: seq<Movement>, j: Key) {
    OpeningQty(now, j) == OpeningQty(was, j) && OpeningValue(now, j) == OpeningValue(was, j)
  }

  /** What it holds after a stretch of the loop. */
  ghost predicate SettledAt(was: seq<Movement>, now: seq<Movement>, order: seq<Key>, requested: map<Key, Request>,
                            current: map<Key, OpeningRow>, j: Key)
  {
    if j in order then SettledTo(now, j, RequestAt(requested, j), RowAt(current, j)) else Untouched(was, now, j)
  }

  lemma SettledLater(was: seq<Movement>, mid: seq<Movement>, now: seq<Movement>, order: seq<Key>, requested: map<Key, Request>,
                     current: map<Key, OpeningRow>, j: Key)
    requires order != [] && order[0] !in order[1..]
    requires SettledAt(mid, now, order[1..], requested, current, j)
    requires if j == order[0] then SettledTo(mid, j, RequestAt(requested, j), RowAt(current, j)) else Untouched(was, mid, j)
    ensures SettledAt(was, now, order, requested, current, j)
  {
    assert order == [order[0]] + order[1..];
  }

  /** One turn of the loop, whether it moves anything or not. */
  function Turn(p: Progress, c: Catalog, k: Key, request: Request, row: OpeningRow, ref: Ref): Result<Progress> {
    if NothingToDo(request, row) then Success(p)
    else
      var stock :- SetKey(p.stock, c, k, request, row, ref);
      Success(Progress(stock, p.value + RequestedValue(request) - row.value))
  }

  lemma TurnThenRest(p: Progress, c: Catalog, order: seq<Key>, requested: map<Key, Request>, current: map<Key, OpeningRow>, ref: Ref)
    requires order != []
    ensures var turn := Turn(p, c, order[0], RequestAt(requested, order[0]), RowAt(current, order[0]), ref);
            SetKeys(p, c, order, requested, current, ref) ==
              if turn.Failure? then Failure(turn.error) else SetKeys(turn.value, c, order[1..], requested, current, ref)
  {
  }

  /** The tables the loop works on, and what is left for it to do. */
  ghost predicate Ready(s: Stock, c: Catalog, product: nat, order: seq<Key>, requested: map<Key, Request>, current: map<Key, OpeningRow>) {
    && StockInv(s, c) && product in c.products && Distinct(order)
    && RowsCurrent(s, order, current) && KeysFit(c, product, order, requested, current)
  }

  lemma TurnReady(p: Progress, c: Catalog, product: nat, order: seq<Key>, requested: map<Key, Request>, current: map<Key, OpeningRow>, ref: Ref)
    returns (next: Progress)
    requires Ready(p.stock, c, product, order, requested, current) && order != []
    requires Turn(p, c, order[0], RequestAt(requested, order[0]), RowAt(current, order[0]), ref).Success?
    ensures Turn(p, c, order[0], RequestAt(requested, order[0]), RowAt(current, order[0]), ref) == Success(next)
    ensures Ready(next.stock, c, product, order[1..], requested, current) && order[0] !in order[1..]
    ensures p.stock.movements <= next.stock.movements
    ensures Editable(p.stock.movements, product) ==> Editable(next.stock.movements, product)
  {
    RestFits(p.stock, c, product, order, requested, current);
    next := p;
    if !NothingToDo(RequestAt(requested, order[0]), RowAt(current, order[0])) {
      var stock := SetKeyStep(p.stock, c, product, order, requested, current, ref);
      next := Turn(p, c, order[0], RequestAt(requested, order[0]), RowAt(current, order[0]), ref).value;
    }
  }

  lemma TurnSettles(p: Progress, c: Catalog, k: Key, request: Request, row: OpeningRow, ref: Ref, next: Progress, j: Key)
    requires UnitsPlaced(p.stock.units) && row.quantity == OpeningQty(p.stock.movements, k) && row.value == OpeningValue(p.stock.movements, k)
    requires Turn(p, c, k, request, row, ref) == Success(next)
    ensures if j == k then SettledTo(next.stock.movements, j, request, row) else Untouched(p.stock.movements, next.stock.movements, j)
  {
    if NothingToDo(request, row) {
      SettledNear(RequestedValue(request), row.value);
    } else {
      SetKeyEffect(p.stock, c, k, request, row, ref, j);
    }
  }

  lemma TurnReports(p: Progress, c: Catalog, product: nat, order: seq<Key>, requested: map<Key, Request>, current: map<Key, OpeningRow>,
                    ref: Ref, next: Progress)
    requires Ready(p.stock, c, product, order, requested, current) && order != []
    requires Turn(p, c, order[0], RequestAt(requested, order[0]), RowAt(current, order[0]), ref) == Success(next)
    ensures ReportedNear(p.stock.movements, next.stock.movements, product, next.value - p.value, ChangesAtScale(order, requested, current))
    ensures ChangesAtScale(order, requested, current) ==> ChangesAtScale(order[1..], requested, current)
  {
    var k := order[0];
    var request, row := RequestAt(requested, k), RowAt(current, k);
    assert k in order && forall j :: j in order[1..] ==> j in order;
    assert KeyFits(c, product, k, request, row);
    if !NothingToDo(request, row) {
      ReportedOne(p.stock, c, k, request, row, ref, ChangesAtScale(order, requested, current));
    }
  }

  /** The loop over the keys appends movements and keeps the tables sound. */
  lemma {:induction false} SetKeysKeep(p: Progress, c: Catalog, product: nat, order: seq<Key>, requested: map<Key, Request>,
                                       current: map<Key, OpeningRow>, ref: Ref)
    requires Ready(p.stock, c, product, order, requested, current) && SetKeys(p, c, order, requested, current, ref).Success?
    ensures var q := SetKeys(p, c, order, requested, current, ref).value;
            && StockInv(q.stock, c)
            && (Editable(p.stock.movements, product) ==> Editable(q.stock.movements, product))
            && p.stock.movements <= q.stock.movements
    decreases |order|
  {
    if order != [] {
      TurnThenRest(p, c, order, requested, current, ref);
      var next := TurnReady(p, c, product, order, requested, current, ref);
      SetKeysKeep(next, c, product, order[1..], requested, current, ref);
    }
  }

  /** Every key in the order ends as requested, its value as the column keeps the change,
      and no other key moves. */
  lemma {:induction false} SetKeysEffect(p: Progress, c: Catalog, product: nat, order: seq<Key>, requested: map<Key, Request>,
                                         current: map<Key, OpeningRow>, ref: Ref, j: Key)
    requires Ready(p.stock, c, product, order, requested, current) && SetKeys(p, c, order, requested, current, ref).Success?
    ensures SettledAt(p.stock.movements, SetKeys(p, c, order, requested, current, ref).value.stock.movements, order, requested, current, j)
    decreases |order|
  {
    if order != [] {
      TurnThenRest(p, c, order, requested, current, ref);
      var next := TurnReady(p, c, product, order, requested, current, ref);
      assert order[0] in order;
      TurnSettles(p, c, order[0], RequestAt(requested, order[0]), RowAt(current, order[0]), ref, next, j);
      SetKeysEffect(next, c, product, order[1..], requested, current, ref, j);
      SettledLater(p.stock.movements, next.stock.movements, SetKeys(next, c, order[1..], requested, current, ref).value.stock.movements,
                   order, requested, current, j);
    }
  }

  /** A value reported is the change of an item's recognized value to half a
      ten-thousandth for each movement made, and exactly it when so said. */
  predicate ReportedNear(was: seq<Movement>, now: seq<Movement>, product: nat, value: int, exact: bool) {
    var change := OpeningTotal(now, product) - OpeningTotal(was, product);
    && |was| <= |now|
    && Abs(value - change) <= 500 * (|now| - |was|)
    && (exact ==> value == change)
  }

  predicate ChangesAtScale(order: seq<Key>, requested: map<Key, Request>, current: map<Key, OpeningRow>) {
    forall k :: k in order ==> AtScale(RequestedValue(RequestAt(requested, k)) - RowAt(current, k).value)
  }

  lemma ReportedLater(was: seq<Movement>, mid: seq<Movement>, now: seq<Movement>, product: nat, first: int, rest: int, exact: bool, restExact: bool)
    requires ReportedNear(was, mid, product, first, exact) && ReportedNear(mid, now, product, rest, restExact) && (exact ==> restExact)
    ensures ReportedNear(was, now, product, first + rest, exact)
  {
  }

  lemma ReportedOne(s: Stock, c: Catalog, k: Key, request: Request, row: OpeningRow, ref: Ref, exact: bool)
    requires row.quantity == OpeningQty(s.movements, k) && row.value == OpeningValue(s.movements, k)
    requires UnitsPlaced(s.units) && SetKey(s, c, k, request, row, ref).Success? && (exact ==> AtScale(RequestedValue(request) - row.value))
    ensures ReportedNear(s.movements, SetKey(s, c, k, request, row, ref).value.movements, k.product, RequestedValue(request) - row.value, exact)
  {
    SetKeyEffect(s, c, k, request, row, ref, k);
    StoredNear(RequestedValue(request) - row.value);
  }

  lemma {:induction false} SetKeysTotal(p: Progress, c: Catalog, product: nat, order: seq<Key>, requested: map<Key, Request>,
                                        current: map<Key, OpeningRow>, ref: Ref)
    requires Ready(p.stock, c, product, order, requested, current) && SetKeys(p, c, order, requested, current, ref).Success?
    ensures var q := SetKeys(p, c, order, requested, current, ref).value;
            ReportedNear(p.stock.movements, q.stock.movements, product, q.value - p.value, ChangesAtScale(order, requested, current))
    decreases |order|
  {
    if order != [] {
      TurnThenRest(p, c, order, requested, current, ref);
      var next := TurnReady(p, c, product, order, requested, current, ref);
      TurnReports(p, c, product, order, requested, current, ref, next);
      SetKeysTotal(next, c, product, order[1..], requested, current, ref);
      var q := SetKeys(next, c, order[1..], requested, current, ref).value;
      ReportedLater(p.stock.movements, next.stock.movements, q.stock.movements, product, next.value - p.value, q.value - next.value,
                    ChangesAtScale(order, requested, current), ChangesAtScale(order[1..], requested, current));
    }
  }

  /** The keys of a call fit the item: asked-for keys by the entry checks, held keys
      because stock only ever sits where the item's tracking allows. */
  lemma OrderFits(s: Stock, c: Catalog, product: nat, requested: map<Key, Request>, order: seq<Key>)
    requires StockInv(s, c) && CheckOpening(s, c, product).Pass?
    requires forall k :: k in requested ==> FitsRequest(c, product, k, requested[k])
    requires forall k :: k in order ==> k in requested || k in OpeningState(s.movements, product)
    ensures RowsCurrent(s, order, OpeningState(s.movements, product))
    ensures KeysFit(c, product, order, requested, OpeningState(s.movements, product))
  {
    var current := OpeningState(s.movements, product);
    forall k | k in order
      ensures RowAt(current, k).quantity == OpeningQty(s.movements, k) && RowAt(current, k).value == OpeningValue(s.movements, k)
      ensures KeyFits(c, product, k, RequestAt(requested, k), RowAt(current, k))
    {
      StateIsSums(s.movements, product, Key(product, 0, None, None));
      StateIsSums(s.movements, product, k);
      if k !in requested {
        EditableOnHand(s.movements, k);
        assert Level(s, k) == OnHand(s.movements, k);
      }
    }
  }

  lemma OpeningRunFits(s: Stock, c: Catalog, product: nat, entries: seq<OpeningEntry>, order: seq<Key>)
    returns (requested: map<Key, Request>)
    requires StockInv(s, c) && CheckOpening(s, c, product).Pass?
    requires Collect(s, c, product, entries, map[]).Success? && ValidOrder(s, c, product, entries, order)
    ensures requested == Collect(s, c, product, entries, map[]).value
    ensures RowsCurrent(s, order, OpeningState(s.movements, product))
    ensures KeysFit(c, product, order, requested, OpeningState(s.movements, product))
  {
    requested := Collect(s, c, product, entries, map[]).value;
    CollectKeys(s, c, product, entries, map[]);
    OrderFits(s, c, product, requested, order);
  }

  // ------------------------------------------------------------------ the calls

  /** What a call collects is its entries, each under its own key. */
  ghost predicate CollectedFrom(c: Catalog, product: nat, entries: seq<OpeningEntry>, was: map<Key, Request>, now: map<Key, Request>)
    requires product in c.products
  {
    && (forall i :: 0 <= i < |entries| ==> EntryKey(product, entries[i]) in now && now[EntryKey(product, entries[i])] == EntryRequest(c, product, entries[i]))
    && (forall k :: k in was ==> k in now && now[k] == was[k])
    && (forall k :: k in now && k !in was ==> exists i :: 0 <= i < |entries| && k == EntryKey(product, entries[i]))
  }

  lemma {:induction false} CollectIsEntries(s: Stock, c: Catalog, product: nat, entries: seq<OpeningEntry>, requested: map<Key, Request>)
    requires product in c.products && Collect(s, c, product, entries, requested).Success?
    ensures CollectedFrom(c, product, entries, requested, Collect(s, c, product, entries, requested).value)
    decreases |entries|
  {
    if entries != [] {
      var key, rest := EntryKey(product, entries[0]), entries[1..];
      var more := requested[key := EntryRequest(c, product, entries[0])];
      CollectIsEntries(s, c, product, rest, more);
      var now := Collect(s, c, product, entries, requested).value;
      assert key in more && more[key] == EntryRequest(c, product, entries[0]);
      forall i | 0 <= i < |entries|
        ensures EntryKey(product, entries[i]) in now && now[EntryKey(product, entries[i])] == EntryRequest(c, product, entries[i])
      {
        assert i > 0 ==> entries[i] == rest[i - 1];
      }
      forall k | k in now && k !in requested ensures exists i :: 0 <= i < |entries| && k == EntryKey(product, entries[i]) {
        if k == key {
          assert k == EntryKey(product, entries[0]);
        } else {
          var i :| 0 <= i < |rest| && k == EntryKey(product, rest[i]);
          assert k == EntryKey(product, entries[i + 1]);
        }
      }
    }
  }

  /** No two entries are under one key. */
  predicate OwnKeys(product: nat, entries: seq<OpeningEntry>) {
    forall i, j :: 0 <= i < j < |entries| ==> EntryKey(product, entries[i]) != EntryKey(product, entries[j])
  }

  lemma {:induction false} CollectIsOwn(s: Stock, c: Catalog, product: nat, entries: seq<OpeningEntry>, requested: map<Key, Request>)
    requires product in c.products && Collect(s, c, product, entries, requested).Success?
    ensures OwnKeys(product, entries) && forall i :: 0 <= i < |entries| ==> EntryKey(product, entries[i]) !in requested
    decreases |entries|
  {
    if entries != [] {
      var key, rest := EntryKey(product, entries[0]), entries[1..];
      CollectIsOwn(s, c, product, rest, requested[key := EntryRequest(c, product, entries[0])]);
      forall i | 0 <= i < |entries| ensures EntryKey(product, entries[i]) !in requested && (i > 0 ==> EntryKey(product, entries[i]) != key) {
        assert i > 0 ==> entries[i] == rest[i - 1];
      }
      forall i, j | 0 <= i < j < |entries| ensures EntryKey(product, entries[i]) != EntryKey(product, entries[j]) {
        assert entries[j] == rest[j - 1];
        assert i > 0 ==> entries[i] == rest[i - 1];
      }
    }
  }

  /** So the scale of what it asks for can be read off its entries. */
  lemma EntriesAtScaleIff(s: Stock, c: Catalog, product: nat, entries: seq<OpeningEntry>)
    requires product in c.products && Collect(s, c, product, entries, map[]).Success?
    ensures EntriesAtScale(entries) <==>
              forall k :: k in Collect(s, c, product, entries, map[]).value ==> AtScale(RequestedValue(Collect(s, c, product, entries, map[]).value[k]))
  {
    CollectIsEntries(s, c, product, entries, map[]);
    var now := Collect(s, c, product, entries, map[]).value;
    forall i | 0 <= i < |entries|
      ensures RequestedValue(now[EntryKey(product, entries[i])]) == entries[i].quantity * entries[i].unitCost.GetOr(0)
    {
    }
  }

  lemma {:induction false} HeldAtScale(ms: seq<Movement>, k: Key)
    requires StoredAtScale(ms)
    ensures AtScale(OpeningValue(ms, k))
  {
    if ms != [] {
      HeldAtScale(ms[..|ms| - 1], k);
    }
  }

  lemma {:induction false} SetKeysKeepScale(p: Progress, c: Catalog, product: nat, order: seq<Key>, requested: map<Key, Request>,
                                            current: map<Key, OpeningRow>, ref: Ref)
    requires Ready(p.stock, c, product, order, requested, current) && SetKeys(p, c, order, requested, current, ref).Success?
    requires StoredAtScale(p.stock.movements)
    ensures StoredAtScale(SetKeys(p, c, order, requested, current, ref).value.stock.movements)
    decreases |order|
  {
    if order != [] {
      TurnThenRest(p, c, order, requested, current, ref);
      var next := TurnReady(p, c, product, order, requested, current, ref);
      TurnKeepsScale(p, c, order[0], RequestAt(requested, order[0]), RowAt(current, order[0]), ref, next);
      SetKeysKeepScale(next, c, product, order[1..], requested, current, ref);
    }
  }

  lemma TurnKeepsScale(p: Progress, c: Catalog, k: Key, request: Request, row: OpeningRow, ref: Ref, next: Progress)
    requires UnitsPlaced(p.stock.units) && StoredAtScale(p.stock.movements) && Turn(p, c, k, request, row, ref) == Success(next)
    ensures StoredAtScale(next.stock.movements)
  {
    if !NothingToDo(request, row) {
      SetKeyAppends(p.stock, c, k, request, row, ref);
      MovementIsWorth(k, request, row, ref);
      StoredNear(RequestedValue(request) - row.value);
    }
  }

  /** A call keeps the tables, and what the column can keep. */
  lemma OpeningKeeps(s: Stock, c: Catalog, product: nat, entries: seq<OpeningEntry>, order: seq<Key>)
    requires StockInv(s, c) && ValidOrder(s, c, product, entries, order) && SetOpeningStock(s, c, product, entries, order).Success?
    ensures var now := SetOpeningStock(s, c, product, entries, order).value.stock;
            && StockInv(now, c) && Editable(now.movements, product) && s.movements <= now.movements
            && (StoredAtScale(s.movements) ==> StoredAtScale(now.movements))
  {
    var requested := OpeningRunFits(s, c, product, entries, order);
    var current, ref := OpeningState(s.movements, product), OpeningRef(|s.movements|);
    SetKeysKeep(Progress(s, 0), c, product, order, requested, current, ref);
    if StoredAtScale(s.movements) {
      SetKeysKeepScale(Progress(s, 0), c, product, order, requested, current, ref);
    }
  }

  /** What every key of the item holds after a call, in terms of what it held. */
  lemma OpeningSettles(s: Stock, c: Catalog, product: nat, entries: seq<OpeningEntry>, order: seq<Key>, k: Key)
    requires StockInv(s, c) && ValidOrder(s, c, product, entries, order) && k.product == product
    requires SetOpeningStock(s, c, product, entries, order).Success?
    ensures var now := SetOpeningStock(s, c, product, entries, order).value.stock.movements;
            SettledTo(now, k, RequestAt(Collect(s, c, product, entries, map[]).value, k), RowAt(OpeningState(s.movements, product), k))
  {
    var requested := OpeningRunFits(s, c, product, entries, order);
    SetKeysEffect(Progress(s, 0), c, product, order, requested, OpeningState(s.movements, product), OpeningRef(|s.movements|), k);
    if k !in order {
      StateIsSums(s.movements, product, k);
      NothingAsked(s.movements, SetOpeningStock(s, c, product, entries, order).value.stock.movements, k);
    }
  }

  lemma NothingAsked(was: seq<Movement>, now: seq<Movement>, k: Key)
    requires Untouched(was, now, k) && OpeningQty(was, k) == 0 && OpeningValue(was, k) == 0
    ensures SettledTo(now, k, Request(0, None, []), OpeningRow(0, 0, None))
  {
  }

  /** After success every key of the item, asked for or not, holds exactly the requested
      quantity (nothing, when left out), and its level says so too. Its value is within
      half a ten-thousandth of quantity times cost, and exactly that when, and only when,
      it is a whole number of ten-thousandths. */
  lemma OpeningMatchesRequest(s: Stock, c: Catalog, product: nat, entries: seq<OpeningEntry>, order: seq<Key>, k: Key)
    requires StockInv(s, c) && StoredAtScale(s.movements) && ValidOrder(s, c, product, entries, order) && k.product == product
    requires SetOpeningStock(s, c, product, entries, order).Success?
    ensures var now := SetOpeningStock(s, c, product, entries, order).value.stock;
            var request := RequestAt(Collect(s, c, product, entries, map[]).value, k);
            var held := RowAt(OpeningState(now.movements, product), k);
            && held.quantity == request.quantity && Level(now, k) == request.quantity
            && Abs(held.value - RequestedValue(request)) <= 500
            && (held.value == RequestedValue(request) <==> AtScale(RequestedValue(request)))
  {
    OpeningKeeps(s, c, product, entries, order);
    OpeningSettles(s, c, product, entries, order, k);
    StateIsSums(s.movements, product, k);
    HeldAtScale(s.movements, k);
    SettledMatches(SetOpeningStock(s, c, product, entries, order).value.stock, k, RequestAt(Collect(s, c, product, entries, map[]).value, k),
                   RowAt(OpeningState(s.movements, product), k));
  }

  lemma SettledMatches(now: Stock, k: Key, request: Request, row: OpeningRow)
    requires LevelsRefineLedger(now) && Editable(now.movements, k.product) && SettledTo(now.movements, k, request, row) && AtScale(row.value)
    ensures var held := RowAt(OpeningState(now.movements, k.product), k);
            && held.quantity == request.quantity && Level(now, k) == request.quantity
            && Abs(held.value - RequestedValue(request)) <= 500
            && (held.value == RequestedValue(request) <==> AtScale(RequestedValue(request)))
  {
    StateIsSums(now.movements, k.product, k);
    SettledNear(RequestedValue(request), row.value);
    EditableOnHand(now.movements, k);
    assert Level(now, k) == OnHand(now.movements, k);
  }

  /** The value a call reports to the books is the change of the item's recognized value,
      to half a ten-thousandth for each movement it made, and exactly when all it asks
      for is at that scale. */
  lemma OpeningReports(s: Stock, c: Catalog, product: nat, entries: seq<OpeningEntry>, order: seq<Key>)
    requires StockInv(s, c) && StoredAtScale(s.movements) && ValidOrder(s, c, product, entries, order)
    requires SetOpeningStock(s, c, product, entries, order).Success?
    ensures var q := SetOpeningStock(s, c, product, entries, order).value;
            ReportedNear(s.movements, q.stock.movements, product, q.value, EntriesAtScale(entries))
  {
    var requested := OpeningRunFits(s, c, product, entries, order);
    var current := OpeningState(s.movements, product);
    SetKeysTotal(Progress(s, 0), c, product, order, requested, current, OpeningRef(|s.movements|));
    if EntriesAtScale(entries) {
      EntriesAtScaleIff(s, c, product, entries);
      AskedAndHeldAtScale(s, order, requested, current);
    }
  }

  lemma AskedAndHeldAtScale(s: Stock, order: seq<Key>, requested: map<Key, Request>, current: map<Key, OpeningRow>)
    requires StoredAtScale(s.movements) && RowsCurrent(s, order, current)
    requires forall k :: k in requested ==> AtScale(RequestedValue(requested[k]))
    ensures ChangesAtScale(order, requested, current)
  {
    forall k | k in order ensures AtScale(RequestedValue(RequestAt(requested, k)) - RowAt(current, k).value) {
      HeldAtScale(s.movements, k);
      AskedAtScale(requested, k);
    }
  }

  lemma AskedAtScale(requested: map<Key, Request>, k: Key)
    requires k in requested ==> AtScale(RequestedValue(requested[k]))
    ensures AtScale(RequestedValue(RequestAt(requested, k)))
  {
  }
}
