/** What opening stock is worth in the books: over any run, the inventory legs of the
    opening-stock vouchers come to the recognized opening value of the stock ledger. */
module OpeningLegs {
  import opened Basics
  import opened Rounding
  import opened StockTables
  import opened Inventory
  import opened OpeningStock
  import opened DocumentTables
  import opened DocumentStock
  import opened LedgerTables
  import opened Ledger
  import opened VoucherLegs
  import opened Poster
  import opened PartyOpenings
  import opened Documents
  import opened Lifecycle
  import opened DocumentMoney
  import opened GoodsInvariant
  import opened OrgInvariant

  const Openings: Which := AllOf(OpeningStockKind)

  /** The recognized opening value of the whole stock ledger, a thousand times finer
      than the books. */
  function Recognized(ms: seq<Movement>): int {
    if ms == [] then 0
    else Recognized(ms[..|ms| - 1]) + (if ms[|ms| - 1].kind.Opening? then MovementValue(ms[|ms| - 1]) else 0)
  }

  function OpeningCount(ms: seq<Movement>): nat {
    if ms == [] then 0 else OpeningCount(ms[..|ms| - 1]) + (if ms[|ms| - 1].kind.Opening? then 1 else 0)
  }

  /** Every opening-stock voucher is posted and names a movement that exists, and every
      opening value is one its column keeps. */
  ghost predicate OpeningInv(o: Org) {
    && AllPosted(o.books.vouchers, Openings) && NamesBelow(o.books.vouchers, Openings, |o.stock.movements|)
    && StoredAtScale(o.stock.movements)
  }

  /** Two sides half a unit of the books apart for each opening movement and each voucher,
      and together when so said. */
  predicate Near(legs: int, vouchers: nat, recognized: int, movements: nat, exact: bool) {
    && Abs(1000 * legs - recognized) <= 500 * (vouchers + movements)
    && (exact ==> 1000 * legs == recognized)
  }

  ghost predicate LegsInv(o: Org, inventory: nat, exact: bool) {
    var ms, vs := o.stock.movements, o.books.vouchers;
    OpeningInv(o) && Near(Legs(vs, Openings, inventory), CountOf(vs, Openings), Recognized(ms), OpeningCount(ms), exact)
  }

  // ------------------------------------------------------------- the two sides

  lemma {:induction false} OthersRecognizeNothing(ms: seq<Movement>, more: seq<Movement>)
    requires forall i :: 0 <= i < |more| ==> !more[i].kind.Opening?
    ensures Recognized(ms + more) == Recognized(ms) && OpeningCount(ms + more) == OpeningCount(ms)
    ensures StoredAtScale(ms) ==> StoredAtScale(ms + more)
  {
    if more == [] {
      assert ms + more == ms;
    } else {
      OthersRecognizeNothing(ms, more[..|more| - 1]);
      assert (ms + more)[..|ms + more| - 1] == ms + more[..|more| - 1];
    }
  }

  /** A step that adds no opening movement and posts no opening stock. */
  ghost predicate Aside(o: Org, o': Org, more: seq<Movement>, call: Option<BooksOp>) {
    && o'.stock.movements == o.stock.movements + more
    && (forall i :: 0 <= i < |more| ==> !more[i].kind.Opening?)
    && Calls(o.books, call, o'.books) && (call.Some? ==> Spares(call.value, Openings))
  }

  lemma AsideKeepsLegs(o: Org, o': Org, more: seq<Movement>, call: Option<BooksOp>, inventory: nat, exact: bool)
    requires OpeningInv(o) && Aside(o, o', more, call)
    ensures OpeningInv(o') && (LegsInv(o, inventory, exact) ==> LegsInv(o', inventory, exact))
  {
    OthersRecognizeNothing(o.stock.movements, more);
    if call.Some? {
      CallSparesLegs(o.books, call.value, Openings, inventory);
    }
  }

  // ---------------------------------------------------------- what steps append

  /** The row an adjustment makes. */
  function AdjustRow(c: Catalog, a: AdjustInput): Movement
    requires a.product in c.products
  {
    var key := Key(a.product, a.location, a.bin, a.lot);
    if a.byValue then Movement(key, 0, Revaluation, NoRef, None, Some(1000 * a.value.GetOr(0)))
    else Movement(key, a.qty, Adjustment, NoRef, if a.unitCost.Some? then a.unitCost else c.products[a.product].price, None)
  }

  lemma AdjustRowAppended(s: Stock, c: Catalog, a: AdjustInput)
    requires Adjust(s, c, a).Success?
    ensures a.product in c.products && Adjust(s, c, a).value.stock.movements == s.movements + [AdjustRow(c, a)]
  {
    var m := AdjustRow(c, a);
    if !a.byValue && c.products[a.product].mode.SerialTracked? {
      MoveUnitsMovements(Post(s, m).value, a.product, a.location, a.bin, SerialNumbers.NormalizeSerials(a.serials).value, |s.movements|, a.qty > 0,
                         Tracking.Cause(Adjustment, false));
    }
  }

  lemma AdjustReports(s: Stock, c: Catalog, a: AdjustInput, cost: int, value: int)
    requires Adjust(s, c, a).Success? && value == Adjust(s, c, a).value.value
    requires a.product in c.products && cost == (if a.unitCost.Some? then a.unitCost else c.products[a.product].price).GetOr(0)
    ensures if a.byValue then value == 1000 * a.value.GetOr(0) else value == cost * a.qty
  {
  }

  lemma Commutes(a: int, b: int)
    ensures a * b == b * a
  {
  }

  lemma AdjustRowWorth(s: Stock, c: Catalog, a: AdjustInput)
    requires Adjust(s, c, a).Success? && a.product in c.products
    ensures MovementValue(AdjustRow(c, a)) == Adjust(s, c, a).value.value
  {
    var cost := (if a.unitCost.Some? then a.unitCost else c.products[a.product].price).GetOr(0);
    AdjustReports(s, c, a, cost, Adjust(s, c, a).value.value);
    Commutes(cost, a.qty);
  }

  lemma AdjustAppends(s: Stock, c: Catalog, a: AdjustInput) returns (m: Movement)
    requires Adjust(s, c, a).Success?
    ensures Adjust(s, c, a).value.stock.movements == s.movements + [m] && !m.kind.Opening?
    ensures Adjusts(m) && MovementValue(m) == Adjust(s, c, a).value.value
  {
    AdjustRowAppended(s, c, a);
    AdjustRowWorth(s, c, a);
    m := AdjustRow(c, a);
  }

  lemma GoodsAppend(o: Org, id: nat, d: Document, reverse: bool) returns (more: seq<Movement>)
    requires StockInv(o.stock, o.catalog) && LinesTrackable(o.catalog, d.lines) && PostStock(o.stock, o.catalog, id, d, reverse).Success?
    ensures PostStock(o.stock, o.catalog, id, d, reverse).value.movements == o.stock.movements + more
    ensures forall i :: 0 <= i < |more| ==> !more[i].kind.Opening? && !Adjusts(more[i])
  {
    PostStockKeepsStock(o.stock, o.catalog, id, d, reverse);
    more := MovementsFor(o.catalog, id, d.kind, reverse, Postings(o.catalog, d), if reverse then PostedCosts(MovementsOf(o.stock.movements, id)) else map[]);
  }

  lemma FinalizeAside(o: Org, id: nat, filing: Filing) returns (more: seq<Movement>, call: Option<BooksOp>)
    requires MoneyInv(o) && StockInv(o.stock, o.catalog) && Finalize(o, id, filing).Success?
    ensures Aside(o, Finalize(o, id, filing).value, more, call) && forall i :: 0 <= i < |more| ==> !Adjusts(more[i])
  {
    ReadyIsTrackable(o, id);
    var d, moves := FinalizeEffect(o, id, filing);
    more := [];
    if moves {
      more := GoodsAppend(o, id, d, false);
    }
    call := FinalizeCalls(o, id, filing);
  }

  lemma VoidAside(o: Org, id: nat) returns (more: seq<Movement>, call: Option<BooksOp>)
    requires StockInv(o.stock, o.catalog) && GoodsInv(o.catalog, o.stock.movements, o.docs) && VoidDocument(o, id).Success?
    ensures Aside(o, VoidDocument(o, id).value, more, call) && forall i :: 0 <= i < |more| ==> !Adjusts(more[i])
  {
    VoidEffect(o, id);
    assert GoodsSound(o.catalog, o.stock.movements, o.docs, id);
    more := [];
    if o.docs[id].stockPosted {
      more := GoodsAppend(o, id, o.docs[id], true);
    }
    call := ReversingIsStep(o.books, Source(DocumentKind, id), o.docs[id].issued);
  }

  lemma AdjustAside(o: Org, a: AdjustInput, account: Option<nat>, day: Day) returns (more: seq<Movement>, call: Option<BooksOp>)
    requires AdjustStock(o, a, account, day).Success?
    ensures Aside(o, AdjustStock(o, a, account, day).value, more, call)
  {
    var m := AdjustAppends(o.stock, o.catalog, a);
    more := [m];
    call := ValueIsStep(o.books, o.roles, StockVoucher, Adjust(o.stock, o.catalog, a).value.value,
                        if account.Some? then Success(account.value) else AccountOf(o.roles, StockAdjustments), day,
                        Source(AdjustmentKind, |o.stock.movements|));
  }

  lemma TransferAside(o: Org, t: TransferInput) returns (more: seq<Movement>)
    requires StockInv(o.stock, o.catalog) && TransferStock(o, t).Success?
    ensures Aside(o, TransferStock(o, t).value, more, None) && forall i :: 0 <= i < |more| ==> !Adjusts(more[i])
  {
    TransferMovements(o.stock, o.catalog, t);
    more := [TransferMovement(t, true), TransferMovement(t, false)];
  }

  /** Steps that touch neither the stock nor the books. */
  predicate Quiet(op: OrgOp) {
    || op.CreateOp? || op.UpdateOp? || op.ConvertOp? || op.DeleteOp? || op.PayOp? || op.UnpayOp?
    || op.UpdateRateOp? || op.AddRateOp? || op.CatalogOp? || op.RolesOp?
  }

  lemma QuietSteps(o: Org, op: OrgOp)
    requires Quiet(op) && OrgStep(o, op).Success?
    ensures OrgStep(o, op).value.stock == o.stock && OrgStep(o, op).value.books == o.books
  {
  }

  /** A party's opening balance is none of the stock's, the one it replaces included. */
  lemma PartyOpeningAside(o: Org, party: nat, vendorOnly: bool, amount: int, asOf: Day)
      returns (clearing: Option<BooksOp>, cleared: Org, call: Option<BooksOp>)
    requires OpenParty(o, party, vendorOnly, amount, asOf).Success?
    ensures Aside(o, cleared, [], clearing) && Aside(cleared, OpenParty(o, party, vendorOnly, amount, asOf).value, [], call)
  {
    var books: Books;
    clearing, books, call := SettingCalls(o.books, o.roles, party, vendorOnly, amount, asOf);
    cleared := o.(books := books);
  }

  /** Every other step but opening stock itself stands aside. */
  lemma StepAside(o: Org, op: OrgOp) returns (more: seq<Movement>, call: Option<BooksOp>)
    requires MoneyInv(o) && StockInv(o.stock, o.catalog) && GoodsInv(o.catalog, o.stock.movements, o.docs)
    requires OrgStep(o, op).Success? && !op.OpeningOp? && !op.PartyOpeningOp?
    ensures Aside(o, OrgStep(o, op).value, more, call)
    ensures op.AdjustOp? || forall i :: 0 <= i < |more| ==> !Adjusts(more[i])
  {
    more, call := [], None;
    if Quiet(op) {
      QuietSteps(o, op);
    } else {
      match op
      case FinalizeOp(id, filing) => more, call := FinalizeAside(o, id, filing);
      case VoidOp(id) => more, call := VoidAside(o, id);
      case AdjustOp(adjust, account, day) => more, call := AdjustAside(o, adjust, account, day);
      case TransferOp(transfer) => more := TransferAside(o, transfer);
      case BooksCall(booksCall) => call := Some(booksCall);
    }
  }

  // -------------------------------------------------------------- opening stock

  /** Nothing but opening movements of one item were added. */
  predicate OnlyOpenings(was: seq<Movement>, now: seq<Movement>, product: nat) {
    && was <= now
    && forall i :: |was| <= i < |now| ==> now[i].kind.Opening? && now[i].key.product == product
  }

  lemma {:induction false} SetKeysAppend(p: Progress, c: Catalog, product: nat, order: seq<Key>, requested: map<Key, Request>,
                                         current: map<Key, OpeningRow>, ref: Ref)
    requires Ready(p.stock, c, product, order, requested, current) && SetKeys(p, c, order, requested, current, ref).Success?
    ensures OnlyOpenings(p.stock.movements, SetKeys(p, c, order, requested, current, ref).value.stock.movements, product)
    decreases |order|
  {
    if order != [] {
      var k := order[0];
      assert k in order && KeyFits(c, product, k, RequestAt(requested, k), RowAt(current, k));
      TurnThenRest(p, c, order, requested, current, ref);
      var next := TurnReady(p, c, product, order, requested, current, ref);
      TurnAppends(p, c, k, RequestAt(requested, k), RowAt(current, k), ref, next);
      SetKeysAppend(next, c, product, order[1..], requested, current, ref);
    }
  }

  lemma TurnAppends(p: Progress, c: Catalog, k: Key, request: Request, row: OpeningRow, ref: Ref, next: Progress)
    requires UnitsPlaced(p.stock.units) && Turn(p, c, k, request, row, ref) == Success(next)
    ensures OnlyOpenings(p.stock.movements, next.stock.movements, k.product)
  {
    if !NothingToDo(request, row) {
      SetKeyAppends(p.stock, c, k, request, row, ref);
    }
  }

  /** Then the recognized value changes by the item's, and each movement counts. */
  lemma {:induction false} OnlyOpeningsRecognize(was: seq<Movement>, now: seq<Movement>, product: nat)
    requires OnlyOpenings(was, now, product)
    ensures Recognized(now) - Recognized(was) == OpeningTotal(now, product) - OpeningTotal(was, product)
    ensures OpeningCount(now) - OpeningCount(was) == |now| - |was|
    decreases |now|
  {
    if now == was {
    } else {
      assert was <= now[..|now| - 1];
      OnlyOpeningsRecognize(was, now[..|now| - 1], product);
    }
  }

  lemma {:induction false} TotalAtScale(ms: seq<Movement>, product: nat)
    requires StoredAtScale(ms)
    ensures AtScale(OpeningTotal(ms, product))
  {
    if ms != [] {
      TotalAtScale(ms[..|ms| - 1], product);
    }
  }

  /** What a call recognizes and what it reports: half a unit of the books apart for each
      movement, and together, at their scale, when all it asks for is. */
  ghost predicate Recognizes(was: seq<Movement>, now: seq<Movement>, value: int, exact: bool) {
    var recognized := Recognized(now) - Recognized(was);
    && |was| <= |now| && OpeningCount(now) - OpeningCount(was) == |now| - |was|
    && (StoredAtScale(was) ==> StoredAtScale(now))
    && Abs(value - recognized) <= 500 * (|now| - |was|)
    && (exact ==> value == recognized && AtScale(value))
  }

  lemma CallRecognizes(s: Stock, c: Catalog, product: nat, entries: seq<OpeningEntry>, order: seq<Key>)
    requires StockInv(s, c) && StoredAtScale(s.movements) && ValidOrder(s, c, product, entries, order)
    requires SetOpeningStock(s, c, product, entries, order).Success?
    ensures var q := SetOpeningStock(s, c, product, entries, order).value;
            Recognizes(s.movements, q.stock.movements, q.value, EntriesAtScale(entries))
  {
    var requested := OpeningRunFits(s, c, product, entries, order);
    SetKeysAppend(Progress(s, 0), c, product, order, requested, OpeningState(s.movements, product), OpeningRef(|s.movements|));
    OpeningReports(s, c, product, entries, order);
    OpeningKeeps(s, c, product, entries, order);
    var now := SetOpeningStock(s, c, product, entries, order).value.stock.movements;
    ReportRecognizes(s.movements, now, product, SetOpeningStock(s, c, product, entries, order).value.value, EntriesAtScale(entries));
  }

  lemma ReportRecognizes(was: seq<Movement>, now: seq<Movement>, product: nat, value: int, exact: bool)
    requires StoredAtScale(was) && StoredAtScale(now) && OnlyOpenings(was, now, product) && ReportedNear(was, now, product, value, exact)
    ensures Recognizes(was, now, value, exact)
  {
    OnlyOpeningsRecognize(was, now, product);
    TotalAtScale(was, product);
    TotalAtScale(now, product);
  }

  /** The legs grew by a value, to the books' last digit for each voucher added. */
  predicate LegsGrow(vs: seq<Voucher>, ws: seq<Voucher>, value: int, inventory: nat) {
    var grown := Legs(ws, Openings, inventory) - Legs(vs, Openings, inventory);
    && Abs(1000 * grown - value) <= 500 * (CountOf(ws, Openings) - CountOf(vs, Openings))
    && (AtScale(value) ==> 1000 * grown == value)
  }

  /** The voucher of an opening-stock call, if any: posted, and naming the call's first
      movement. */
  lemma OpeningVoucherKept(b: Books, roles: Roles, value: int, day: Day, n: nat, m: nat)
    requires AllPosted(b.vouchers, Openings) && NamesBelow(b.vouchers, Openings, n)
    requires PostOpening(b, roles, value, day, n).Success? && n < m
    ensures var vs := PostOpening(b, roles, value, day, n).value.vouchers; AllPosted(vs, Openings) && NamesBelow(vs, Openings, m)
  {
    if value != 0 {
      assert !AlreadyPosted(b.vouchers, Source(OpeningStockKind, n));
      PostVoucherEffect(b, OpeningVoucher, day, ValueLines(roles[InventoryRole], roles[OpeningEquity], value), Source(OpeningStockKind, n), true);
    }
  }

  /** And its inventory leg is the call's value to the books' last digit. */
  lemma OpeningVoucherLeg(b: Books, roles: Roles, value: int, day: Day, n: nat)
    requires AllPosted(b.vouchers, Openings) && NamesBelow(b.vouchers, Openings, n) && PostOpening(b, roles, value, day, n).Success?
    requires InventoryRole in roles && (OpeningEquity in roles ==> roles[OpeningEquity] != roles[InventoryRole])
    ensures LegsGrow(b.vouchers, PostOpening(b, roles, value, day, n).value.vouchers, value, roles[InventoryRole])
  {
    if value != 0 {
      var source := Source(OpeningStockKind, n);
      assert !AlreadyPosted(b.vouchers, source);
      PostedLeg(b, OpeningVoucher, day, ValueLines(roles[InventoryRole], roles[OpeningEquity], value), source, Openings, roles[InventoryRole]);
      InventoryLegIsValue(roles[InventoryRole], roles[OpeningEquity], value);
    }
  }

  /** The two sides after an opening-stock call, from the two sides before it. */
  lemma BothSidesMove(o: Org, o': Org, value: int, inventory: nat, exact: bool, atScale: bool)
    requires LegsInv(o, inventory, exact) && OpeningInv(o') && (exact ==> atScale)
    requires Recognizes(o.stock.movements, o'.stock.movements, value, atScale)
    requires LegsGrow(o.books.vouchers, o'.books.vouchers, value, inventory)
    ensures LegsInv(o', inventory, exact)
  {
  }

  lemma OpeningParts(o: Org, product: nat, entries: seq<OpeningEntry>, order: seq<Key>, day: Day) returns (value: int)
    requires StockInv(o.stock, o.catalog) && StoredAtScale(o.stock.movements) && ValidOrder(o.stock, o.catalog, product, entries, order)
    requires SetOpening(o, product, entries, order, day).Success?
    ensures var o', ms := SetOpening(o, product, entries, order, day).value, o.stock.movements;
            && Recognizes(ms, o'.stock.movements, value, EntriesAtScale(entries))
            && (if |o'.stock.movements| == |ms| then o'.books == o.books && value == 0
                else PostOpening(o.books, o.roles, value, day, |ms|) == Success(o'.books))
  {
    CallRecognizes(o.stock, o.catalog, product, entries, order);
    OpeningKeeps(o.stock, o.catalog, product, entries, order);
    var q := SetOpeningStock(o.stock, o.catalog, product, entries, order).value;
    if |q.stock.movements| == |o.stock.movements| {
      assert q.stock.movements == o.stock.movements;
    }
    value := q.value;
  }

  lemma OpeningKeepsLegs(o: Org, o': Org, value: int, day: Day, inventory: nat, exact: bool, atScale: bool)
    requires OpeningInv(o) && Recognizes(o.stock.movements, o'.stock.movements, value, atScale) && (exact ==> atScale)
    requires if |o'.stock.movements| == |o.stock.movements| then o'.books == o.books && value == 0
             else PostOpening(o.books, o.roles, value, day, |o.stock.movements|) == Success(o'.books)
    ensures OpeningInv(o')
    ensures CarriedOn(o.roles, inventory) && LegsInv(o, inventory, exact) ==> LegsInv(o', inventory, exact)
  {
    var n, m := |o.stock.movements|, |o'.stock.movements|;
    if n < m {
      OpeningVoucherKept(o.books, o.roles, value, day, n, m);
      if CarriedOn(o.roles, inventory) {
        OpeningVoucherLeg(o.books, o.roles, value, day, n);
      }
    }
    if CarriedOn(o.roles, inventory) && LegsInv(o, inventory, exact) {
      BothSidesMove(o, o', value, inventory, exact, atScale);
    }
  }

  /** Goods are carried on the inventory account, and equity is another. */
  predicate CarriedOn(roles: Roles, inventory: nat) {
    InventoryRole in roles && roles[InventoryRole] == inventory && (OpeningEquity in roles ==> roles[OpeningEquity] != inventory)
  }

  lemma PartyStepKeepsLegs(o: Org, op: OrgOp, inventory: nat, exact: bool)
    requires OpeningInv(o) && op.PartyOpeningOp? && OrgStep(o, op).Success?
    ensures OpeningInv(OrgStep(o, op).value) && (LegsInv(o, inventory, exact) ==> LegsInv(OrgStep(o, op).value, inventory, exact))
  {
    var clearing, cleared, call := PartyOpeningAside(o, op.party, op.vendorOnly, op.amount, op.asOf);
    AsideKeepsLegs(o, cleared, [], clearing, inventory, exact);
    AsideKeepsLegs(cleared, OrgStep(o, op).value, [], call, inventory, exact);
  }

  lemma OpeningStepKeepsLegs(o: Org, op: OrgOp, inventory: nat, exact: bool)
    requires StockInv(o.stock, o.catalog) && OpeningInv(o) && op.OpeningOp? && OrgStep(o, op).Success?
    ensures OpeningInv(OrgStep(o, op).value)
    ensures CarriedOn(o.roles, inventory) && (exact ==> EntriesAtScale(op.entries)) && LegsInv(o, inventory, exact) ==>
              LegsInv(OrgStep(o, op).value, inventory, exact)
  {
    var value := OpeningParts(o, op.product, op.entries, op.order, op.day);
    var atScale := EntriesAtScale(op.entries);
    OpeningKeepsLegs(o, OrgStep(o, op).value, value, op.day, inventory, exact && atScale, atScale);
  }

  /** Every step keeps the rows sound, and the legs in step with the value recognized
      when goods are carried on the inventory account as opening stock is set. */
  lemma StepKeepsLegs(o: Org, op: OrgOp, inventory: nat, exact: bool)
    requires OrgInv(o) && OpeningInv(o) && OrgStep(o, op).Success?
    ensures OpeningInv(OrgStep(o, op).value)
    ensures (op.OpeningOp? ==> CarriedOn(o.roles, inventory) && (exact ==> EntriesAtScale(op.entries))) && LegsInv(o, inventory, exact) ==>
              LegsInv(OrgStep(o, op).value, inventory, exact)
  {
    if op.OpeningOp? {
      OpeningStepKeepsLegs(o, op, inventory, exact);
    } else if op.PartyOpeningOp? {
      PartyStepKeepsLegs(o, op, inventory, exact);
    } else {
      var more, call := StepAside(o, op);
      AsideKeepsLegs(o, OrgStep(o, op).value, more, call, inventory, exact);
    }
  }

  /** So they are whenever a run sets opening stock. */
  ghost predicate CarriedAt(o: Org, ops: seq<OrgOp>, n: nat, inventory: nat)
    requires n < |ops|
  {
    ops[n].OpeningOp? ==> CarriedOn(OrgRun(o, ops[..n]).roles, inventory)
  }

  ghost predicate CarriedThroughout(o: Org, ops: seq<OrgOp>, inventory: nat) {
    forall n {:trigger CarriedAt(o, ops, n, inventory)} :: 0 <= n < |ops| ==> CarriedAt(o, ops, n, inventory)
  }

  lemma CarriedFromThere(o: Org, ops: seq<OrgOp>, inventory: nat, next: Org)
    requires ops != [] && CarriedThroughout(o, ops, inventory)
    requires next == var r := OrgStep(o, ops[0]); if r.Success? then r.value else o
    ensures ops[0].OpeningOp? ==> CarriedOn(o.roles, inventory)
    ensures CarriedThroughout(next, ops[1..], inventory)
  {
    assert CarriedAt(o, ops, 0, inventory);
    assert OrgRun(o, ops[..0]) == o;
    forall n | 0 <= n < |ops[1..]| ensures CarriedAt(next, ops[1..], n, inventory) {
      assert CarriedAt(o, ops, n + 1, inventory);
      assert ops[..n + 1][1..] == ops[1..][..n];
    }
  }

  /** In every run each opening-stock voucher is posted and names a movement that exists,
      and every opening value is one its column keeps. */
  lemma {:induction false} OpeningsInRuns(o: Org, ops: seq<OrgOp>)
    requires OrgInv(o) && OpeningInv(o)
    ensures OpeningInv(OrgRun(o, ops))
    decreases |ops|
  {
    if ops != [] {
      var r := OrgStep(o, ops[0]);
      if r.Success? {
        StepKeepsOrg(o, ops[0]);
        StepKeepsLegs(o, ops[0], 0, false);
      }
      OpeningsInRuns(if r.Success? then r.value else o, ops[1..]);
    }
  }

  /** Every opening-stock call of a run asks only for whole numbers of ten-thousandths. */
  predicate RunAtScale(ops: seq<OrgOp>) {
    forall n :: 0 <= n < |ops| && ops[n].OpeningOp? ==> EntriesAtScale(ops[n].entries)
  }

  lemma {:induction false} RunKeepsLegs(o: Org, ops: seq<OrgOp>, inventory: nat, exact: bool)
    requires OrgInv(o) && LegsInv(o, inventory, exact) && CarriedThroughout(o, ops, inventory) && (exact ==> RunAtScale(ops))
    ensures LegsInv(OrgRun(o, ops), inventory, exact)
    decreases |ops|
  {
    if ops != [] {
      var r := OrgStep(o, ops[0]);
      var next := if r.Success? then r.value else o;
      CarriedFromThere(o, ops, inventory, next);
      if r.Success? {
        StepKeepsOrg(o, ops[0]);
        StepKeepsLegs(o, ops[0], inventory, exact);
      }
      RunKeepsLegs(next, ops[1..], inventory, exact);
    }
  }

  lemma NewOrgTied(o: Org, inventory: nat)
    requires IsNew(o)
    ensures OpeningInv(o) && forall exact :: LegsInv(o, inventory, exact)
  {
  }

  /** In every run of a new organization that carries its goods on one account whenever
      it sets opening stock, whatever it does with its accounts otherwise, the legs of
      its opening-stock vouchers on that account are the opening value its stock ledger
      recognizes: within half a unit for each voucher and each opening movement, and
      exactly when every call asks only for values at the books' scale. */
  lemma OpeningLegsAreOpeningValue(o: Org, ops: seq<OrgOp>, inventory: nat)
    requires IsNew(o) && CarriedThroughout(o, ops, inventory)
    ensures var ms, vs := OrgRun(o, ops).stock.movements, OrgRun(o, ops).books.vouchers;
            && Abs(1000 * Legs(vs, Openings, inventory) - Recognized(ms)) <= 500 * (CountOf(vs, Openings) + OpeningCount(ms))
            && (RunAtScale(ops) ==> 1000 * Legs(vs, Openings, inventory) == Recognized(ms))
  {
    NewOrgOk(o);
    NewOrgTied(o, inventory);
    RunKeepsLegs(o, ops, inventory, RunAtScale(ops));
  }
}
