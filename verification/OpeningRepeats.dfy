/** Setting the same opening stock again: when the repeat of an accepted call changes
    nothing, when it makes a movement all the same, and when the books refuse it. */
module OpeningRepeats {
  import opened Basics
  import opened StockTables
  import opened Inventory
  import opened OpeningStock
  import opened OpeningCalls
  import opened LedgerTables
  import opened Ledger
  import opened VoucherLegs
  import opened Poster
  import opened Documents
  import opened OrgInvariant
  import opened OpeningLegs

  /** A value that is something, but less than half a unit of the books, cannot be posted:
      its lines have neither debit nor credit. */
  lemma TooSmallIsRefused(b: Books, roles: Roles, value: int, day: Day, movement: nat)
    requires 0 < Abs(value) < 500 && !AlreadyPosted(b.vouchers, Source(OpeningStockKind, movement))
    ensures PostOpening(b, roles, value, day, movement).Failure?
  {
    if InventoryRole in roles && OpeningEquity in roles {
      var lines := ValueLines(roles[InventoryRole], roles[OpeningEquity], value);
      assert StockMoney(value) == 0 && StockMoney(-value) == 0;
      assert !ValidAmounts(lines[0]);
    }
  }

  /** A call accepted once and made again. */
  ghost predicate Repeats(o: Org, o': Org, product: nat, entries: seq<OpeningEntry>, order: seq<Key>, day: Day, order': seq<Key>) {
    && StockInv(o.stock, o.catalog) && OpeningInv(o)
    && ValidOrder(o.stock, o.catalog, product, entries, order) && SetOpening(o, product, entries, order, day) == Success(o')
    && !o.catalog.products[product].mode.SerialTracked?
    && ValidOrder(o'.stock, o'.catalog, product, entries, order')
  }

  lemma RepeatParts(o: Org, o': Org, product: nat, entries: seq<OpeningEntry>, order: seq<Key>, day: Day, order': seq<Key>) returns (again: Progress)
    requires product in o.catalog.products && Repeats(o, o', product, entries, order, day, order')
    ensures SetOpeningStock(o'.stock, o'.catalog, product, entries, order') == Success(again)
    ensures OpeningInv(o') && o'.catalog == o.catalog
    ensures |again.stock.movements| == |o'.stock.movements| <==> EntriesAtScale(entries)
    ensures EntriesAtScale(entries) ==> again == Progress(o'.stock, 0)
  {
    RepeatMovesNothing(o.stock, o.catalog, product, entries, order, order');
    again := SetOpeningStock(o'.stock, o'.catalog, product, entries, order').value;
    var value := OpeningParts(o, product, entries, order, day);
    OpeningKeepsLegs(o, o', value, day, 0, false, EntriesAtScale(entries));
  }

  /** The repeat of an accepted call leaves everything as it was exactly when every
      quantity times its cost is a whole number of ten-thousandths. Otherwise it makes a
      movement; and if what it then reports is less than half a unit of the books, but
      not nothing, it is refused. */
  lemma RepeatIsQuietIff(o: Org, o': Org, product: nat, entries: seq<OpeningEntry>, order: seq<Key>, day: Day, order': seq<Key>, day': Day)
    requires product in o.catalog.products && Repeats(o, o', product, entries, order, day, order')
    ensures SetOpening(o', product, entries, order', day') == Success(o') <==> EntriesAtScale(entries)
    ensures var again := SetOpeningStock(o'.stock, o'.catalog, product, entries, order');
            again.Success? && (0 < Abs(again.value.value) < 500 ==> SetOpening(o', product, entries, order', day').Failure?)
  {
    var again := RepeatParts(o, o', product, entries, order, day, order');
    if 0 < Abs(again.value) < 500 {
      assert !AlreadyPosted(o'.books.vouchers, Source(OpeningStockKind, |o'.stock.movements|));
      TooSmallIsRefused(o'.books, o'.roles, again.value, day', |o'.stock.movements|);
    }
  }

  /** So it is after every run of a new organization. */
  lemma RepeatIsQuietInRuns(o: Org, ops: seq<OrgOp>, product: nat, entries: seq<OpeningEntry>, order: seq<Key>, day: Day, order': seq<Key>, day': Day)
    requires IsNew(o)
    requires var before, call := OrgRun(o, ops), OpeningOp(product, entries, order, day);
             && product in before.catalog.products && !before.catalog.products[product].mode.SerialTracked?
             && OrgStep(before, call).Success?
             && ValidOrder(OrgStep(before, call).value.stock, before.catalog, product, entries, order')
    ensures var after := OrgStep(OrgRun(o, ops), OpeningOp(product, entries, order, day)).value;
            OrgStep(after, OpeningOp(product, entries, order', day')) == Success(after) <==> EntriesAtScale(entries)
  {
    NewOrgOk(o);
    RunKeepsOrg(o, ops);
    OpeningsInRuns(o, ops);
    var before := OrgRun(o, ops);
    RepeatSteps(before, product, entries, order, day, order', day');
  }

  lemma RepeatSteps(before: Org, product: nat, entries: seq<OpeningEntry>, order: seq<Key>, day: Day, order': seq<Key>, day': Day)
    requires StockInv(before.stock, before.catalog) && OpeningInv(before)
    requires product in before.catalog.products && !before.catalog.products[product].mode.SerialTracked?
    requires OrgStep(before, OpeningOp(product, entries, order, day)).Success?
    requires ValidOrder(OrgStep(before, OpeningOp(product, entries, order, day)).value.stock, before.catalog, product, entries, order')
    ensures var after := OrgStep(before, OpeningOp(product, entries, order, day)).value;
            OrgStep(after, OpeningOp(product, entries, order', day')) == Success(after) <==> EntriesAtScale(entries)
  {
    var after := OrgStep(before, OpeningOp(product, entries, order, day)).value;
    assert after == SetOpening(before, product, entries, order, day).value;
    RepeatIsQuietIff(before, after, product, entries, order, day, order', day');
  }

  /** What a key holds against what was asked for: the quantity, the level, and the value
      as near as its column allows. */
  ghost predicate Matches(s: Stock, request: Request, k: Key) {
    var held := RowAt(OpeningState(s.movements, k.product), k);
    && held.quantity == request.quantity && Level(s, k) == request.quantity
    && Abs(held.value - RequestedValue(request)) <= 500
    && (held.value == RequestedValue(request) <==> AtScale(RequestedValue(request)))
  }

  ghost predicate CallMatches(o: Org, o': Org, product: nat, entries: seq<OpeningEntry>, k: Key) {
    && product in o.catalog.products
    && var requested := Collect(o.stock, o.catalog, product, entries, map[]);
       requested.Success? && Matches(o'.stock, RequestAt(requested.value, k), k)
  }

  lemma SettingMatches(o: Org, product: nat, entries: seq<OpeningEntry>, order: seq<Key>, day: Day, k: Key)
    requires StockInv(o.stock, o.catalog) && OpeningInv(o) && k.product == product
    requires ValidOrder(o.stock, o.catalog, product, entries, order) && SetOpening(o, product, entries, order, day).Success?
    ensures CallMatches(o, SetOpening(o, product, entries, order, day).value, product, entries, k)
  {
    OpeningMatchesRequest(o.stock, o.catalog, product, entries, order, k);
  }

  /** The step is the call. */
  lemma StepIsSetting(o: Org, product: nat, entries: seq<OpeningEntry>, order: seq<Key>, day: Day)
    ensures OrgStep(o, OpeningOp(product, entries, order, day)).Success? ==>
              && ValidOrder(o.stock, o.catalog, product, entries, order)
              && OrgStep(o, OpeningOp(product, entries, order, day)) == SetOpening(o, product, entries, order, day)
    ensures ValidOrder(o.stock, o.catalog, product, entries, order) ==>
              OrgStep(o, OpeningOp(product, entries, order, day)) == SetOpening(o, product, entries, order, day)
  {
  }

  lemma StepMatches(o: Org, product: nat, entries: seq<OpeningEntry>, order: seq<Key>, day: Day, k: Key)
    requires StockInv(o.stock, o.catalog) && OpeningInv(o) && k.product == product
    requires OrgStep(o, OpeningOp(product, entries, order, day)).Success?
    ensures CallMatches(o, OrgStep(o, OpeningOp(product, entries, order, day)).value, product, entries, k)
  {
    StepIsSetting(o, product, entries, order, day);
    SettingMatches(o, product, entries, order, day, k);
  }

  /** And every accepted call of a run leaves each key of the item so. */
  lemma OpeningMatchesInRuns(o: Org, ops: seq<OrgOp>, product: nat, entries: seq<OpeningEntry>, order: seq<Key>, day: Day, k: Key)
    requires IsNew(o) && k.product == product && OrgStep(OrgRun(o, ops), OpeningOp(product, entries, order, day)).Success?
    ensures CallMatches(OrgRun(o, ops), OrgStep(OrgRun(o, ops), OpeningOp(product, entries, order, day)).value, product, entries, k)
  {
    NewOrgOk(o);
    RunKeepsOrg(o, ops);
    OpeningsInRuns(o, ops);
    StepMatches(OrgRun(o, ops), product, entries, order, day, k);
  }
}
