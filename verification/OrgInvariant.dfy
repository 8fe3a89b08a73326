/** The whole machine: what holds of stock, books and documents together in every
    state any run of service calls can reach. */
module OrgInvariant {
  import opened Basics
  import opened StockTables
  import opened DocumentTables
  import opened DocumentStock
  import opened GoodsMoved
  import opened LedgerTables
  import opened Ledger
  import opened PeriodLocks
  import opened Poster
  import opened PartyOpenings
  import opened Documents
  import opened Lifecycle
  import opened DocumentMoney
  import opened DocumentVouchers
  import opened CreditSettlement
  import opened GoodsInvariant
  import opened GoodsOnce

  ghost predicate OrgInv(o: Org) {
    && LifecycleInv(o.docs, o.next)
    && MoneyInv(o)
    && BooksInv(o.books)
    && VouchersInv(o.docs, o.books.vouchers)
    && CreditInv(o.docs, o.next)
    && StockInv(o.stock, o.catalog)
    && GoodsInv(o.catalog, o.stock.movements, o.docs)
  }

  /** An organization that has not done anything yet, whatever it is set up with. */
  predicate IsNew(o: Org) {
    o.docs == map[] && o.next == 0 && o.stock == EmptyStock && o.books.vouchers == [] && o.books.entries == []
  }

  lemma NewOrgOk(o: Org)
    requires IsNew(o)
    ensures OrgInv(o)
  {
    EmptyStockOk(o.catalog);
    forall id: nat ensures GoodsSound(o.catalog, o.stock.movements, o.docs, id) {
    }
  }

  // -------------------------------------------------------------- the books

  lemma PostingIsStep(b: Books, roles: Roles, id: nat, d: Document, value: int, sourceMoved: bool) returns (call: Option<BooksOp>)
    requires PostDocument(b, roles, id, d, value, sourceMoved).Success?
    ensures var b' := PostDocument(b, roles, id, d, value, sourceMoved).value;
            if call.None? then b' == b else Step(b, call.value) == Success(b') && call.value.PostOp? && call.value.source == DocSource(id)
  {
    if IsOrder(d.kind) || AlreadyPosted(b.vouchers, DocSource(id)) || DocumentVoucherLines(roles, d, value, sourceMoved).value == [] {
      call := None;
    } else {
      call := Some(PostOp(VoucherKindOf(d.kind), d.issued, DocumentVoucherLines(roles, d, value, sourceMoved).value, DocSource(id), true));
    }
  }

  lemma ReversingIsStep(b: Books, source: Source, day: Day) returns (call: Option<BooksOp>)
    requires ReverseSource(b, source, day).Success?
    ensures var b' := ReverseSource(b, source, day).value;
            if call.None? then b' == b
            else Step(b, call.value) == Success(b') && call.value.ReverseOp? && Standing(b.vouchers, source, call.value.id)
  {
    var standing := StandingVoucher(b.vouchers, source);
    call := if standing.None? then None else Some(ReverseOp(standing.value, Some(day)));
  }

  lemma ValueIsStep(b: Books, roles: Roles, kind: VoucherType, value: int, offset: Result<nat>, day: Day, source: Source) returns (call: Option<BooksOp>)
    requires kind != Reversal && PostValue(b, roles, kind, value, offset, day, source).Success?
    ensures var b' := PostValue(b, roles, kind, value, offset, day, source).value;
            if call.None? then b' == b else Step(b, call.value) == Success(b') && call.value.PostOp? && call.value.source == source
  {
    if value == 0 || AlreadyPosted(b.vouchers, source) {
      call := None;
    } else {
      call := Some(PostOp(kind, day, ValueLines(AccountOf(roles, InventoryRole).value, offset.value, value), source, true));
    }
  }

  lemma FinalizeCalls(o: Org, id: nat, filing: Filing) returns (call: Option<BooksOp>)
    requires Finalize(o, id, filing).Success?
    ensures var b' := Finalize(o, id, filing).value.books;
            if call.None? then b' == o.books else Step(o.books, call.value) == Success(b') && call.value.PostOp? && call.value.source == DocSource(id)
  {
    var d, moves := FinalizeEffect(o, id, filing);
    call := PostingIsStep(o.books, o.roles, id, d.(stockPosted := moves),
                          StockValue(MovementsOf(Finalize(o, id, filing).value.stock.movements, id)), SourceMoved(o.docs, d));
  }

  lemma OpeningCalls(o: Org, product: nat, entries: seq<OpeningStock.OpeningEntry>, order: seq<Key>, day: Day) returns (call: Option<BooksOp>)
    requires SetOpening(o, product, entries, order, day).Success?
    ensures var b' := SetOpening(o, product, entries, order, day).value.books;
            if call.None? then b' == o.books else Step(o.books, call.value) == Success(b') && call.value.PostOp? && call.value.source == Source(OpeningStockKind, |o.stock.movements|)
  {
    var progress := OpeningStock.SetOpeningStock(o.stock, o.catalog, product, entries, order).value;
    if |progress.stock.movements| == |o.stock.movements| {
      call := None;
    } else {
      call := ValueIsStep(o.books, o.roles, OpeningVoucher, progress.value, AccountOf(o.roles, OpeningEquity), day,
                          Source(OpeningStockKind, |o.stock.movements|));
    }
  }

  lemma AdjustCalls(o: Org, a: Inventory.AdjustInput, account: Option<nat>, day: Day) returns (call: Option<BooksOp>)
    requires AdjustStock(o, a, account, day).Success?
    ensures var b' := AdjustStock(o, a, account, day).value.books;
            if call.None? then b' == o.books else Step(o.books, call.value) == Success(b') && call.value.PostOp? && call.value.source == Source(AdjustmentKind, |o.stock.movements|)
  {
    call := ValueIsStep(o.books, o.roles, StockVoucher, Inventory.Adjust(o.stock, o.catalog, a).value.value,
                        if account.Some? then Success(account.value) else AccountOf(o.roles, StockAdjustments), day,
                        Source(AdjustmentKind, |o.stock.movements|));
  }

  /** A call for a document or the stock: it posts theirs, or takes back what stands of
      the document's. */
  predicate OwnCall(o: Org, op: OrgOp, call: BooksOp) {
    match call
    case PostOp(_, _, _, source, _) =>
      || (op.FinalizeOp? && source == DocSource(op.id))
      || (op.AdjustOp? && source == Source(AdjustmentKind, |o.stock.movements|))
      || (op.OpeningOp? && source == Source(OpeningStockKind, |o.stock.movements|))
    case ReverseOp(id, _) => op.VoidOp? && id < |o.books.vouchers| && o.books.vouchers[id].source == DocSource(op.id)
    case _ => false
  }

  lemma VoidCalls(o: Org, id: nat) returns (call: Option<BooksOp>)
    requires VoidDocument(o, id).Success?
    ensures Calls(o.books, call, VoidDocument(o, id).value.books) && (call.Some? ==> OwnCall(o, VoidOp(id), call.value))
  {
    VoidEffect(o, id);
    call := ReversingIsStep(o.books, DocSource(id), o.docs[id].issued);
  }

  /** Documents and stock make at most one call, and it is their own. */
  lemma StepCallsOwn(o: Org, op: OrgOp) returns (call: Option<BooksOp>)
    requires OrgStep(o, op).Success? && !op.PartyOpeningOp? && !op.BooksCall?
    ensures Calls(o.books, call, OrgStep(o, op).value.books) && (call.Some? ==> OwnCall(o, op, call.value))
  {
    call := None;
    if op.FinalizeOp? {
      call := FinalizeCalls(o, op.id, op.filing);
    } else if op.VoidOp? {
      call := VoidCalls(o, op.id);
    } else if op.AdjustOp? {
      call := AdjustCalls(o, op.adjust, op.account, op.day);
    } else if op.OpeningOp? {
      call := OpeningCalls(o, op.product, op.entries, op.order, op.day);
    }
  }

  /** Every step changes the books by at most one call of the ledger, unless it sets a
      party's opening balance, which first takes the last one back. */
  lemma StepCallsBooks(o: Org, op: OrgOp) returns (clearing: Option<BooksOp>, cleared: Books, call: Option<BooksOp>)
    requires OrgStep(o, op).Success?
    ensures Calls(o.books, clearing, cleared) && Calls(cleared, call, OrgStep(o, op).value.books)
    ensures clearing.Some? ==> op.PartyOpeningOp? && clearing.value.ReverseOp?
  {
    clearing, cleared := None, o.books;
    if op.PartyOpeningOp? {
      clearing, cleared, call := SettingCalls(o.books, o.roles, op.party, op.vendorOnly, op.amount, op.asOf);
    } else if op.BooksCall? {
      call := Some(op.op);
    } else {
      call := StepCallsOwn(o, op);
    }
  }

  lemma CallKeepsLedger(b: Books, call: Option<BooksOp>, b': Books)
    requires BooksInv(b) && Calls(b, call, b')
    ensures BooksInv(b')
  {
    if call.Some? {
      StepKeepsBooks(b, call.value);
    }
  }

  lemma StepKeepsLedger(o: Org, op: OrgOp)
    requires BooksInv(o.books) && OrgStep(o, op).Success?
    ensures BooksInv(OrgStep(o, op).value.books)
  {
    var clearing, cleared, call := StepCallsBooks(o, op);
    CallKeepsLedger(o.books, clearing, cleared);
    CallKeepsLedger(cleared, call, OrgStep(o, op).value.books);
  }

  // -------------------------------------------------------------- the whole

  lemma StepKeepsOrg(o: Org, op: OrgOp)
    requires OrgInv(o) && OrgStep(o, op).Success?
    ensures OrgInv(OrgStep(o, op).value)
  {
    StepKeepsLifecycle(o, op);
    StepKeepsMoney(o, op);
    StepKeepsLedger(o, op);
    StepKeepsVouchers(o, op);
    StepKeepsCredits(o, op);
    StepKeepsGoods(o, op);
  }

  /** In every run, over every mix of calls, accepted or refused, the stock agrees with
      its ledger, the serials with the stock, the books balance, and every document
      stands where its chain, its goods, its credits and its vouchers say. */
  lemma {:induction false} RunKeepsOrg(o: Org, ops: seq<OrgOp>)
    requires OrgInv(o)
    ensures OrgInv(OrgRun(o, ops))
    decreases |ops|
  {
    if ops != [] {
      var r := OrgStep(o, ops[0]);
      if r.Success? {
        StepKeepsOrg(o, ops[0]);
      }
      RunKeepsOrg(if r.Success? then r.value else o, ops[1..]);
    }
  }

  /** A step from a state where a range is locked leaves the entries dated in it alone. */
  lemma StepKeepsRangeFrozen(o: Org, op: OrgOp, from: Day, to: Day)
    requires Frozen(o.books, from, to) && OrgStep(o, op).Success?
    ensures EntriesBetween(OrgStep(o, op).value.books.entries, from, to) == EntriesBetween(o.books.entries, from, to)
  {
    var clearing, cleared, call := StepCallsBooks(o, op);
    if clearing.Some? {
      StepKeepsFrozen(o.books, clearing.value, from, to);
      ReversingKeepsLocks(o.books, clearing.value.id, clearing.value.to, from, to);
    }
    if call.Some? {
      StepKeepsFrozen(cleared, call.value, from, to);
    }
  }

  /** While a range stays locked through a run of any service's steps, none of them
      changes the entries dated in it. */
  lemma {:induction false} LockedOrgIsFrozen(o: Org, ops: seq<OrgOp>, from: Day, to: Day)
    requires forall n :: 0 <= n < |ops| ==> Frozen(OrgRun(o, ops[..n]).books, from, to)
    ensures EntriesBetween(OrgRun(o, ops).books.entries, from, to) == EntriesBetween(o.books.entries, from, to)
    decreases |ops|
  {
    if ops != [] {
      assert Frozen(OrgRun(o, ops[..0]).books, from, to);
      var r := OrgStep(o, ops[0]);
      var next := if r.Success? then r.value else o;
      if r.Success? {
        StepKeepsRangeFrozen(o, ops[0], from, to);
      }
      forall n | 0 <= n < |ops[1..]| ensures Frozen(OrgRun(next, ops[1..][..n]).books, from, to) {
        assert ops[..n + 1][1..] == ops[1..][..n];
        assert Frozen(OrgRun(o, ops[..n + 1]).books, from, to);
      }
      LockedOrgIsFrozen(next, ops[1..], from, to);
    }
  }

  // --------------------------------------------- the main results, in every run

  /** Priced alike, its goods are worth nothing together. */
  predicate NoValueLeft(c: Catalog, ms: seq<Movement>, d: Document, id: nat) {
    (PricedAtCost(d.kind) ==> OnePricePerKey(Postings(c, d))) ==> StockValue(MovementsOf(ms, id)) == 0
  }

  predicate ValueLeftIff(ms: seq<Movement>, id: nat, k: CostKey) {
    var mine := MovementsOf(ms, id);
    KeyValue(mine, k) == 0 <==> KeyValue(FirstPosted(mine), k) == LastCost(FirstPosted(mine), k) * KeyQty(FirstPosted(mine), k)
  }

  lemma VoidLeavesNoValue(c: Catalog, ms: seq<Movement>, docs: Docs, id: nat, k: CostKey)
    requires GoodsInv(c, ms, docs) && id in docs && docs[id].status.VoidDoc?
    ensures NoValueLeft(c, ms, docs[id], id) && ValueLeftIff(ms, id, k)
  {
    if PricedAtCost(docs[id].kind) ==> OnePricePerKey(Postings(c, docs[id])) {
      VoidIsWorthNothing(c, ms, docs, id);
    }
    VoidValueExactly(c, ms, docs, id, k);
  }

  /** In every reachable state a void document has left nothing behind: no quantity at
      any place; no value, for sales, and for purchases that price each product, bin and
      lot alike, and on a single product, bin and lot exactly when it was posted at the
      last cost there; and no balance on any account and party on any day unless a
      reversal was itself reversed. */
  lemma VoidUndoesFinalize(o: Org, ops: seq<OrgOp>, id: nat, k: Key, account: nat, party: Option<nat>, day: Day)
    requires IsNew(o)
    requires var o' := OrgRun(o, ops); id in o'.docs && o'.docs[id].status.VoidDoc?
    ensures var o' := OrgRun(o, ops);
            && OnHand(MovementsOf(o'.stock.movements, id), k) == 0
            && NoValueLeft(o'.catalog, o'.stock.movements, o'.docs[id], id)
            && ValueLeftIff(o'.stock.movements, id, CostKeyOf(k))
            && (ReversalsStand(o'.books.vouchers, id) ==>
                  Net(o'.books.entries, ReversalChains.OfVouchers(Family(o'.books.vouchers, id), account, party, day)) == 0)
  {
    NewOrgOk(o);
    RunKeepsOrg(o, ops);
    var o' := OrgRun(o, ops);
    VoidMovesNothing(o'.catalog, o'.stock.movements, o'.docs, id, k);
    VoidLeavesNoValue(o'.catalog, o'.stock.movements, o'.docs, id, CostKeyOf(k));
    if ReversalsStand(o'.books.vouchers, id) {
      VoidNetsToZero(o'.docs, o'.books, id, account, party, day);
    }
  }

  /** In every reachable state goods have moved exactly once along each chain. */
  lemma GoodsMoveOnceInRuns(o: Org, ops: seq<OrgOp>, id: nat, product: nat)
    requires IsNew(o)
    requires var o' := OrgRun(o, ops);
             && id in o'.docs && o'.docs[id].status.SentDoc? && Direction(o'.docs[id].kind) != 0
             && product in o'.catalog.products && o'.catalog.products[product].tracked
    ensures var o' := OrgRun(o, ops);
            var d, ms := o'.docs[id], o'.stock.movements;
            && (d.stockPosted <==> !SourceMoved(o'.docs, d))
            && Inventory.ProductTotal(MovementsOf(ms, id), product) + MovedBySource(ms, o'.docs, d, product)
               == Direction(d.kind) * LineQty(d.lines, product)
  {
    NewOrgOk(o);
    RunKeepsOrg(o, ops);
    var o' := OrgRun(o, ops);
    GoodsMoveOnce(o'.catalog, o'.stock.movements, o'.docs, id, product);
  }
}
