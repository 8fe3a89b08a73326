/** Opening stock off the scale of its column: a call whose repeat the books refuse, and
    one whose repeats are accepted and never settle. */
module ConcreteOpenings {
  import opened Basics
  import opened Rounding
  import opened StockTables
  import opened Inventory
  import opened OpeningStock
  import opened OpeningCalls
  import opened LedgerTables
  import opened Ledger
  import opened VoucherLegs
  import opened Poster
  import opened Documents
  import opened OrgInvariant
  import opened OpeningLegs
  import opened OpeningRepeats

  // ------------------------------------------------------------- a small store

  const Accounts: map<nat, Account> := map[1 := Account(None, "1300", Asset, false, true, true),
                                           2 := Account(None, "3900", Equity, false, true, true)]
  const FirstBooks: Books := Books(Accounts, {}, map[1 := FiscalYear(1, 365, true)], [Period(1, 1, 365, Open)], [], [])
  const Items: Catalog := Catalog(map[1 := Product(false, true, true, Untracked, None)], map[1 := true], map[], map[], None)
  const Store: Org := Org(Items, EmptyStock, FirstBooks, map[InventoryRole := 1, OpeningEquity := 2], map[], 0, map[])

  /** Where the one item is kept. */
  const Shelf: Key := Key(1, 1, None, None)

  function Holding(quantity: nat, cost: nat): OpeningEntry {
    OpeningEntry(1, None, None, [], quantity, Some(cost))
  }

  function Setting(quantity: nat, cost: nat): OrgOp {
    OpeningOp(1, [Holding(quantity, cost)], [Shelf], 10)
  }

  function Held(o: Org): int {
    OpeningValue(o.stock.movements, Shelf)
  }

  /** The store after some opening-stock calls: nothing moved but on its shelf, and the
      books differ from the first only by what was posted. */
  ghost predicate Stocked(o: Org) {
    && o.catalog == Items && o.roles == Store.roles && o.books.(vouchers := [], entries := []) == FirstBooks
    && StockInv(o.stock, o.catalog) && OpeningInv(o)
    && Editable(o.stock.movements, 1) && OpeningState(o.stock.movements, 1).Keys <= {Shelf}
  }

  lemma StoreStocked()
    ensures IsNew(Store) && Stocked(Store) && Held(Store) == 0
  {
    EmptyStockOk(Items);
  }

  // ------------------------------------------------------------------ one call

  lemma Posts(b: Books, value: int, n: nat)
    requires b.(vouchers := [], entries := []) == FirstBooks && Abs(value) >= 500 && !AlreadyPosted(b.vouchers, Source(OpeningStockKind, n))
    ensures var r := PostOpening(b, Store.roles, value, 10, n);
            r.Success? && r.value.(vouchers := [], entries := []) == FirstBooks && |r.value.vouchers| == |b.vouchers| + 1
  {
    var lines := ValueLines(1, 2, value);
    LinesValid(b, value);
    assert OpenPeriod(b, 10) == Success(Period(1, 1, 365, Open));
    var drafted := CreateVoucher(b, OpeningVoucher, 10, lines, Source(OpeningStockKind, n), true).value;
    LinesValid(drafted, value);
    assert OpenPeriod(drafted, 10) == Success(Period(1, 1, 365, Open));
  }

  lemma MoneyIsSomething(value: int)
    requires value >= 500
    ensures StockMoney(value) > 0
  {
  }

  lemma LinesValid(b: Books, value: int)
    requires b.accounts == Accounts && Abs(value) >= 500
    ensures ValidateLines(b, ValueLines(1, 2, value), true).Pass?
  {
    var lines := ValueLines(1, 2, value);
    MoneyIsSomething(if value > 0 then value else -value);
    assert lines[..1] == [lines[0]] && lines[..1][..0] == [];
    assert TotalDebit(lines[..1]) == lines[0].debit && TotalCredit(lines[..1]) == lines[0].credit;
  }

  /** What a call does to the stock. */
  lemma StockCall(s: Stock, quantity: nat, cost: nat, asked: int) returns (q: Progress)
    requires StockInv(s, Items) && StoredAtScale(s.movements) && asked == quantity * cost
    requires Editable(s.movements, 1) && OpeningState(s.movements, 1).Keys <= {Shelf}
    ensures ValidOrder(s, Items, 1, [Holding(quantity, cost)], [Shelf])
    ensures SetOpeningStock(s, Items, 1, [Holding(quantity, cost)], [Shelf]) == Success(q)
    ensures StockInv(q.stock, Items) && StoredAtScale(q.stock.movements)
    ensures Editable(q.stock.movements, 1) && OpeningState(q.stock.movements, 1).Keys <= {Shelf}
    ensures q.value == asked - OpeningValue(s.movements, Shelf)
    ensures OpeningValue(q.stock.movements, Shelf) == Settled(asked, OpeningValue(s.movements, Shelf))
    ensures |q.stock.movements| >= |s.movements| && (q.value != 0 ==> |q.stock.movements| > |s.movements|)
  {
    var e := Holding(quantity, cost);
    OneEntry(s, Items, 1, e);
    q := SetOpeningStock(s, Items, 1, [e], [Shelf]).value;
    OpeningKeeps(s, Items, 1, [e], [Shelf]);
    OpeningReports(s, Items, 1, [e], [Shelf]);
    if |q.stock.movements| == |s.movements| {
      assert q.stock.movements == s.movements;
      assert q.value == 0;
    }
  }

  /** A call that reports half a unit or more is accepted and posted. */
  lemma Accepted(o: Org, quantity: nat, cost: nat, asked: int) returns (o': Org)
    requires Stocked(o) && asked == quantity * cost && Abs(asked - Held(o)) >= 500
    ensures SetOpening(o, 1, [Holding(quantity, cost)], [Shelf], 10) == Success(o') && ValidOrder(o.stock, Items, 1, [Holding(quantity, cost)], [Shelf])
    ensures Stocked(o') && Held(o') == Settled(asked, Held(o)) && |o'.books.vouchers| == |o.books.vouchers| + 1
  {
    var q := StockCall(o.stock, quantity, cost, asked);
    var n := |o.stock.movements|;
    assert !AlreadyPosted(o.books.vouchers, Source(OpeningStockKind, n));
    Posts(o.books, q.value, n);
    OpeningVoucherKept(o.books, o.roles, q.value, 10, n, |q.stock.movements|);
    o' := o.(stock := q.stock, books := PostOpening(o.books, o.roles, q.value, 10, n).value);
  }

  lemma AcceptedStep(o: Org, quantity: nat, cost: nat, asked: int) returns (o': Org)
    requires Stocked(o) && asked == quantity * cost && Abs(asked - Held(o)) >= 500
    ensures OrgStep(o, Setting(quantity, cost)) == Success(o')
    ensures Stocked(o') && Held(o') == Settled(asked, Held(o)) && |o'.books.vouchers| == |o.books.vouchers| + 1
  {
    o' := Accepted(o, quantity, cost, asked);
    StepIsSetting(o, 1, [Holding(quantity, cost)], [Shelf], 10);
  }

  /** One that reports less, but not nothing, is refused. */
  lemma TooLittle(o: Org, quantity: nat, cost: nat, asked: int)
    requires Stocked(o) && asked == quantity * cost && 0 < Abs(asked - Held(o)) < 500
    ensures SetOpening(o, 1, [Holding(quantity, cost)], [Shelf], 10).Failure?
  {
    var n := |o.stock.movements|;
    var q := StockCall(o.stock, quantity, cost, asked);
    assert !AlreadyPosted(o.books.vouchers, Source(OpeningStockKind, n));
    TooSmallIsRefused(o.books, o.roles, q.value, 10, n);
  }

  lemma TooLittleStep(o: Org, quantity: nat, cost: nat, asked: int)
    requires Stocked(o) && asked == quantity * cost && 0 < Abs(asked - Held(o)) < 500
    ensures OrgStep(o, Setting(quantity, cost)).Failure?
  {
    TooLittle(o, quantity, cost, asked);
    StepIsSetting(o, 1, [Holding(quantity, cost)], [Shelf], 10);
  }

  // ------------------------------------------------------------- the two inputs

  lemma Inputs()
    ensures Settled(4095900, 0) == 4096000 && Settled(4162500, 0) == 4163000
    ensures Settled(4162500, 4163000) == 4162000 && Settled(4162500, 4162000) == 4163000
  {
  }

  /** A third of a unit at 1.23, where nothing is held: accepted once, and the repeat is
      refused. */
  lemma RepeatRefused(o: Org) returns (after: Org)
    requires Stocked(o) && Held(o) == 0
    ensures OrgStep(o, Setting(333, 12300)) == Success(after) && Held(after) == 4096000
    ensures OrgStep(after, Setting(333, 12300)).Failure?
  {
    Inputs();
    after := AcceptedStep(o, 333, 12300, 4095900);
    TooLittleStep(after, 333, 12300, 4095900);
  }

  /** An eighth of a unit at 3.33: each repeat is accepted, posts a voucher, and moves the
      value held from one neighbour to the other and back. */
  lemma RepeatNeverSettles(o: Org) returns (once: Org, twice: Org)
    requires Stocked(o) && Held(o) == 4163000
    ensures OrgStep(o, Setting(125, 33300)) == Success(once) && Held(once) == 4162000
    ensures OrgStep(once, Setting(125, 33300)) == Success(twice) && Held(twice) == 4163000
    ensures Stocked(twice) && |twice.books.vouchers| == |o.books.vouchers| + 2
  {
    Inputs();
    once := AcceptedStep(o, 125, 33300, 4162500);
    twice := AcceptedStep(once, 125, 33300, 4162500);
  }

  lemma FirstOfMany(o: Org) returns (after: Org)
    requires Stocked(o) && Held(o) == 0
    ensures OrgStep(o, Setting(125, 33300)) == Success(after) && Stocked(after) && Held(after) == 4163000
  {
    Inputs();
    after := AcceptedStep(o, 125, 33300, 4162500);
  }

  lemma TwoSteps(o: Org, first: OrgOp, second: OrgOp, once: Org, twice: Org, rest: seq<OrgOp>, all: seq<OrgOp>)
    requires OrgStep(o, first) == Success(once) && OrgStep(once, second) == Success(twice) && all == [first, second] + rest
    ensures OrgRun(o, all) == OrgRun(twice, rest)
  {
    assert all[0] == first && all[1..][0] == second && all[1..][1..] == rest;
    assert OrgRun(o, all) == OrgRun(once, all[1..]);
    assert OrgRun(once, all[1..]) == OrgRun(twice, rest);
  }

  /** Any number of pairs of repeats. */
  function Repeated(n: nat): seq<OrgOp> {
    if n == 0 then [] else [Setting(125, 33300), Setting(125, 33300)] + Repeated(n - 1)
  }

  lemma TwiceMore(o: Org, rest: seq<OrgOp>, all: seq<OrgOp>) returns (twice: Org)
    requires Stocked(o) && Held(o) == 4163000 && all == [Setting(125, 33300), Setting(125, 33300)] + rest
    ensures Stocked(twice) && Held(twice) == 4163000 && |twice.books.vouchers| == |o.books.vouchers| + 2
    ensures OrgRun(o, all) == OrgRun(twice, rest)
  {
    var once: Org;
    once, twice := RepeatNeverSettles(o);
    TwoSteps(o, Setting(125, 33300), Setting(125, 33300), once, twice, rest, all);
  }

  /** However often it is asked again, twice more always posts two vouchers more. */
  lemma {:induction false} NeverSettles(o: Org, n: nat)
    requires Stocked(o) && Held(o) == 4163000
    ensures var o' := OrgRun(o, Repeated(n)); Stocked(o') && Held(o') == 4163000 && |o'.books.vouchers| == |o.books.vouchers| + 2 * n
    decreases n
  {
    if n > 0 {
      var twice := TwiceMore(o, Repeated(n - 1), Repeated(n));
      NeverSettles(twice, n - 1);
    }
  }
}
