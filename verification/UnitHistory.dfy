/** Where every serial unit stands, and why: in every run it stands as the last movement
    linked to it left it. */
module UnitHistory {
  import opened Basics
  import opened SerialNumbers
  import opened StockTables
  import opened Tracking
  import opened Inventory
  import opened OpeningStock
  import opened DocumentTables
  import opened DocumentStock
  import opened Documents
  import opened Lifecycle
  import opened Pricing
  import opened DocumentMoney
  import opened GoodsCost
  import opened GoodsInvariant
  import opened StockUndone
  import opened OrgInvariant

  // --------------------------------------------------------------- one release

  /** Units taken out one by one are sold exactly by a sale, a delivery or a return undone,
      void exactly when anything else is undone, and removed otherwise. */
  lemma ReleasedStand(units: map<UnitId, SerialUnit>, ms: seq<UnitMove>, cause: Cause, i: nat)
    requires MoveEach(units, ms, false, cause).Success? && i < |ms|
    ensures var moved := MoveEach(units, ms, false, cause).value;
            && ms[i].id in moved && moved[ms[i].id].location.None? && moved[ms[i].id].bin.None?
            && (moved[ms[i].id].status.Sold? <==>
                  (!cause.reverse && (cause.kind.Sale? || cause.kind.Delivery?)) || (cause.reverse && cause.kind.SalesReturn?))
            && (moved[ms[i].id].status.Voided? <==> cause.reverse && !cause.kind.SalesReturn?)
            && (moved[ms[i].id].status.Removed? <==> !cause.reverse && !cause.kind.Sale? && !cause.kind.Delivery?)
  {
    MoveEachIff(units, ms, false, cause);
  }

  // ---------------------------------------------------------------- the history

  /** The movement a unit was last linked to. */
  function LastLink(links: seq<Link>, id: UnitId): Option<nat> {
    if links == [] then None
    else if links[|links| - 1].unit == id then Some(links[|links| - 1].movement)
    else LastLink(links[..|links| - 1], id)
  }

  /** How a movement leaves the units it moves: in stock at its place when it brings goods
      in; and when it takes them out, sold by a sale or a delivery, or a return undone,
      void by a purchase undone, removed by anything else. */
  function Left(m: Movement): SerialUnit {
    if m.qty > 0 then SerialUnit(InStock, Some(m.key.location), m.key.bin)
    else if m.kind.Sale? || m.kind.Delivery? || m.kind.SalesReturn? then SerialUnit(Sold, None, None)
    else if m.kind.GoodsReceived? || m.kind.Purchase? then SerialUnit(Voided, None, None)
    else SerialUnit(Removed, None, None)
  }

  /** A unit is known exactly when some movement is linked to it, and stands as the last
      one left it. */
  predicate HistoryAt(s: Stock, id: UnitId) {
    var last := LastLink(s.links, id);
    && (id in s.units <==> last.Some?)
    && (id in s.units ==>
          && last.value < |s.movements| && s.movements[last.value].key.product == id.product
          && s.units[id] == Left(s.movements[last.value]))
  }

  lemma LastLinkAppend(links: seq<Link>, link: Link, id: UnitId)
    ensures LastLink(links + [link], id) == if link.unit == id then Some(link.movement) else LastLink(links, id)
  {
    assert (links + [link])[..|links|] == links;
  }

  /** More movements change nothing for units they are not linked to. */
  lemma MovementsAppended(s: Stock, s': Stock, id: UnitId)
    requires HistoryAt(s, id) && s.movements <= s'.movements && s'.units == s.units && s'.links == s.links
    ensures HistoryAt(s', id)
  {
  }

  /** A movement accounts for moving units so. */
  predicate Accounts(m: Movement, product: nat, location: nat, bin: Option<nat>, inbound: bool, cause: Cause) {
    && m.key.product == product && m.key.location == location && m.key.bin == bin
    && (if inbound then m.qty > 0 else m.qty < 0 && Left(m).status == StatusAfterRelease(cause))
  }

  lemma MovedHistory(s: Stock, unit: UnitId, m: Movement, n: nat, location: nat, bin: Option<nat>, inbound: bool, cause: Cause, id: UnitId)
    requires HistoryAt(s, id) && n < |s.movements| && s.movements[n] == m && Accounts(m, unit.product, location, bin, inbound, cause)
    requires MoveUnit(s.units, unit, location, bin, inbound, cause).Success?
    ensures HistoryAt(s.(units := MoveUnit(s.units, unit, location, bin, inbound, cause).value, links := s.links + [Link(n, unit)]), id)
  {
    LastLinkAppend(s.links, Link(n, unit), id);
    MoveUnitIff(s.units, UnitMove(unit, location, bin), inbound, cause);
  }

  lemma {:induction false} MovesHistory(s: Stock, product: nat, location: nat, bin: Option<nat>, numbers: seq<string>, n: nat, inbound: bool, cause: Cause, id: UnitId)
    requires HistoryAt(s, id) && n < |s.movements| && (numbers != [] ==> Accounts(s.movements[n], product, location, bin, inbound, cause))
    requires MoveUnits(s, product, location, bin, numbers, n, inbound, cause).Success?
    ensures HistoryAt(MoveUnits(s, product, location, bin, numbers, n, inbound, cause).value, id)
    decreases |numbers|
  {
    if numbers != [] {
      var unit := UnitId(product, numbers[0]);
      MovedHistory(s, unit, s.movements[n], n, location, bin, inbound, cause, id);
      var units := MoveUnit(s.units, unit, location, bin, inbound, cause).value;
      MovesHistory(s.(units := units, links := s.links + [Link(n, unit)]), product, location, bin, numbers[1..], n, inbound, cause, id);
    }
  }

  lemma RelocatedHistory(s: Stock, unit: UnitId, location: nat, bin: Option<nat>, outgoing: nat, incoming: nat, id: UnitId)
    requires HistoryAt(s, id) && incoming < |s.movements|
    requires s.movements[incoming].key.product == unit.product && Left(s.movements[incoming]) == SerialUnit(InStock, Some(location), bin)
    ensures HistoryAt(s.(units := s.units[unit := SerialUnit(InStock, Some(location), bin)],
                         links := s.links + [Link(outgoing, unit), Link(incoming, unit)]), id)
  {
    LastLinkAppend(s.links, Link(outgoing, unit), id);
    LastLinkAppend(s.links + [Link(outgoing, unit)], Link(incoming, unit), id);
    assert s.links + [Link(outgoing, unit)] + [Link(incoming, unit)] == s.links + [Link(outgoing, unit), Link(incoming, unit)];
  }

  lemma {:induction false} RelocatesHistory(s: Stock, product: nat, location: nat, bin: Option<nat>, numbers: seq<string>, outgoing: nat, incoming: nat, id: UnitId)
    requires HistoryAt(s, id) && incoming < |s.movements|
    requires s.movements[incoming].key.product == product && Left(s.movements[incoming]) == SerialUnit(InStock, Some(location), bin)
    ensures HistoryAt(RelocateUnits(s, product, location, bin, numbers, outgoing, incoming), id)
    decreases |numbers|
  {
    if numbers != [] {
      var unit := UnitId(product, numbers[0]);
      RelocatedHistory(s, unit, location, bin, outgoing, incoming, id);
      RelocatesHistory(s.(units := s.units[unit := SerialUnit(InStock, Some(location), bin)],
                          links := s.links + [Link(outgoing, unit), Link(incoming, unit)]),
                       product, location, bin, numbers[1..], outgoing, incoming, id);
    }
  }

  // -------------------------------------------------------------- the operations

  /** A movement posted, and its serials with it. */
  lemma PostedHistory(s: Stock, m: Movement, posted: Stock, serials: seq<string>, inbound: bool, cause: Cause, id: UnitId)
    requires HistoryAt(s, id) && Post(s, m) == Success(posted)
    requires NormalizeSerials(serials).Success? && NormalizeSerials(serials).value != [] ==>
               Accounts(m, m.key.product, m.key.location, m.key.bin, inbound, cause)
    requires ApplySerialMovement(posted, m.key.product, m.key.location, m.key.bin, serials, |s.movements|, inbound, cause).Success?
    ensures HistoryAt(ApplySerialMovement(posted, m.key.product, m.key.location, m.key.bin, serials, |s.movements|, inbound, cause).value, id)
  {
    MovementsAppended(s, posted, id);
    MovesHistory(posted, m.key.product, m.key.location, m.key.bin, NormalizeSerials(serials).value, |s.movements|, inbound, cause, id);
  }

  lemma DocumentAccounts(c: Catalog, d: nat, kind: DocType, reverse: bool, p: Posting, costs: map<CostKey, Option<int>>)
    requires Direction(kind) != 0 && p.quantity > 0
    ensures var m := MovementFor(c, d, kind, reverse, p, costs);
            Accounts(m, p.key.product, p.key.location, p.key.bin, DirectionOf(kind, reverse) > 0, Cause(MovementOf(kind), reverse))
  {
  }

  lemma PostOneHistory(s: Stock, c: Catalog, d: nat, kind: DocType, reverse: bool, p: Posting, costs: map<CostKey, Option<int>>, id: UnitId)
    requires HistoryAt(s, id) && PostingFits(c, p) && Direction(kind) != 0 && PostOne(s, c, d, kind, reverse, p, costs).Success?
    ensures HistoryAt(PostOne(s, c, d, kind, reverse, p, costs).value, id)
  {
    var m := MovementFor(c, d, kind, reverse, p, costs);
    var posted := PostDocumentMovement(s, c, m).value;
    if c.products[p.key.product].mode.SerialTracked? {
      if p.serials != [] {
        DocumentAccounts(c, d, kind, reverse, p, costs);
      }
      PostedHistory(s, m, posted, p.serials, DirectionOf(kind, reverse) > 0, Cause(MovementOf(kind), reverse), id);
    } else {
      MovementsAppended(s, posted, id);
    }
  }

  lemma {:induction false} PostAllHistory(s: Stock, c: Catalog, d: nat, kind: DocType, reverse: bool, ps: seq<Posting>, costs: map<CostKey, Option<int>>, id: UnitId)
    requires HistoryAt(s, id) && PostingsFit(c, ps) && (ps != [] ==> Direction(kind) != 0)
    requires PostAll(s, c, d, kind, reverse, ps, costs).Success?
    ensures HistoryAt(PostAll(s, c, d, kind, reverse, ps, costs).value, id)
    decreases |ps|
  {
    if ps != [] {
      var front := ps[..|ps| - 1];
      assert PostingFits(c, ps[|ps| - 1]);
      PostAllHistory(s, c, d, kind, reverse, front, costs, id);
      PostOneHistory(PostAll(s, c, d, kind, reverse, front, costs).value, c, d, kind, reverse, ps[|ps| - 1], costs, id);
    }
  }

  lemma PostStockHistory(s: Stock, c: Catalog, n: nat, d: Document, reverse: bool, id: UnitId)
    requires HistoryAt(s, id) && LinesTrackable(c, d.lines) && PostStock(s, c, n, d, reverse).Success?
    ensures HistoryAt(PostStock(s, c, n, d, reverse).value, id)
  {
    PostingsOfTrackableFit(c, d);
    PostAllHistory(s, c, n, d.kind, reverse, Postings(c, d), if reverse then PostedCosts(MovementsOf(s.movements, n)) else map[], id);
  }

  lemma FinalizeHistory(o: Org, n: nat, filing: Filing, id: UnitId)
    requires OrgInv(o) && HistoryAt(o.stock, id) && Finalize(o, n, filing).Success?
    ensures HistoryAt(Finalize(o, n, filing).value.stock, id)
  {
    ReadyIsTrackable(o, n);
    var d, moves := FinalizeEffect(o, n, filing);
    if moves {
      PostStockHistory(o.stock, o.catalog, n, d, false, id);
    }
  }

  lemma VoidHistory(o: Org, n: nat, id: UnitId)
    requires OrgInv(o) && HistoryAt(o.stock, id) && VoidDocument(o, n).Success?
    ensures HistoryAt(VoidDocument(o, n).value.stock, id)
  {
    VoidEffect(o, n);
    assert GoodsSound(o.catalog, o.stock.movements, o.docs, n);
    if o.docs[n].stockPosted {
      PostStockHistory(o.stock, o.catalog, n, o.docs[n], true, id);
    }
  }

  lemma AdjustHistory(s: Stock, c: Catalog, a: AdjustInput, id: UnitId)
    requires HistoryAt(s, id) && Adjust(s, c, a).Success?
    ensures HistoryAt(Adjust(s, c, a).value.stock, id)
  {
    if a.byValue {
      MovementsAppended(s, Adjust(s, c, a).value.stock, id);
    } else {
      CountedHistory(s, c, a, id);
    }
  }

  lemma CountedHistory(s: Stock, c: Catalog, a: AdjustInput, id: UnitId)
    requires HistoryAt(s, id) && !a.byValue && Adjust(s, c, a).Success?
    ensures HistoryAt(Adjust(s, c, a).value.stock, id)
  {
    var m := Movement(Key(a.product, a.location, a.bin, a.lot), a.qty, Adjustment, NoRef,
                      if a.unitCost.Some? then a.unitCost else c.products[a.product].price, None);
    var posted := Post(s, m).value;
    if c.products[a.product].mode.SerialTracked? {
      PostedHistory(s, m, posted, a.serials, a.qty > 0, Cause(Adjustment, false), id);
    } else {
      MovementsAppended(s, posted, id);
    }
  }

  lemma TransferHistory(s: Stock, c: Catalog, t: TransferInput, id: UnitId)
    requires HistoryAt(s, id) && Transfer(s, c, t).Success?
    ensures HistoryAt(Transfer(s, c, t).value, id)
  {
    var received := PostBoth(s, t).value;
    MovementsAppended(s, received, id);
    if ModeOf(c, t.product).SerialTracked? {
      RelocatesHistory(received, t.product, t.toLocation, t.toBin, NormalizeSerials(t.serials).value, |s.movements|, |s.movements| + 1, id);
    }
  }

  lemma TurnHistory(p: Progress, c: Catalog, k: Key, request: Request, row: OpeningRow, ref: Ref, next: Progress, id: UnitId)
    requires HistoryAt(p.stock, id) && k.product in c.products && KeyFits(c, k.product, k, request, row)
    requires Turn(p, c, k, request, row, ref) == Success(next)
    ensures HistoryAt(next.stock, id)
  {
    if !NothingToDo(request, row) {
      var m := OpeningMovement(k, request, row, ref);
      var posted := Post(p.stock, m).value;
      if c.products[k.product].mode.SerialTracked? {
        PostedHistory(p.stock, m, posted, request.serials, true, Cause(Opening, false), id);
      } else {
        MovementsAppended(p.stock, posted, id);
      }
    }
  }

  lemma {:induction false} SetKeysHistory(p: Progress, c: Catalog, product: nat, order: seq<Key>, requested: map<Key, Request>,
                                          current: map<Key, OpeningRow>, ref: Ref, id: UnitId)
    requires Ready(p.stock, c, product, order, requested, current) && HistoryAt(p.stock, id)
    requires SetKeys(p, c, order, requested, current, ref).Success?
    ensures HistoryAt(SetKeys(p, c, order, requested, current, ref).value.stock, id)
    decreases |order|
  {
    if order != [] {
      var k := order[0];
      assert k in order && KeyFits(c, product, k, RequestAt(requested, k), RowAt(current, k));
      TurnThenRest(p, c, order, requested, current, ref);
      var next := TurnReady(p, c, product, order, requested, current, ref);
      TurnHistory(p, c, k, RequestAt(requested, k), RowAt(current, k), ref, next, id);
      SetKeysHistory(next, c, product, order[1..], requested, current, ref, id);
    }
  }

  lemma OpeningHistory(s: Stock, c: Catalog, product: nat, entries: seq<OpeningEntry>, order: seq<Key>, id: UnitId)
    requires StockInv(s, c) && HistoryAt(s, id) && ValidOrder(s, c, product, entries, order)
    requires SetOpeningStock(s, c, product, entries, order).Success?
    ensures HistoryAt(SetOpeningStock(s, c, product, entries, order).value.stock, id)
  {
    var requested := OpeningRunFits(s, c, product, entries, order);
    SetKeysHistory(Progress(s, 0), c, product, order, requested, OpeningState(s.movements, product), OpeningRef(|s.movements|), id);
  }

  // ---------------------------------------------------------------- in every run

  /** Steps that move no goods. */
  predicate MovesNone(op: OrgOp) {
    !op.FinalizeOp? && !op.VoidOp? && !op.AdjustOp? && !op.TransferOp? && !op.OpeningOp?
  }

  lemma OthersMoveNone(o: Org, op: OrgOp)
    requires MovesNone(op) && OrgStep(o, op).Success?
    ensures OrgStep(o, op).value.stock == o.stock
  {
  }

  lemma StepHistory(o: Org, op: OrgOp, id: UnitId)
    requires OrgInv(o) && HistoryAt(o.stock, id) && OrgStep(o, op).Success?
    ensures HistoryAt(OrgStep(o, op).value.stock, id)
  {
    if op.FinalizeOp? {
      FinalizeHistory(o, op.id, op.filing, id);
    } else if op.VoidOp? {
      VoidHistory(o, op.id, id);
    } else if op.AdjustOp? {
      AdjustHistory(o.stock, o.catalog, op.adjust, id);
    } else if op.TransferOp? {
      TransferHistory(o.stock, o.catalog, op.transfer, id);
    } else if op.OpeningOp? {
      OpeningHistory(o.stock, o.catalog, op.product, op.entries, op.order, id);
    } else {
      OthersMoveNone(o, op);
    }
  }

  lemma {:induction false} RunHistory(o: Org, ops: seq<OrgOp>, id: UnitId)
    requires OrgInv(o) && HistoryAt(o.stock, id)
    ensures HistoryAt(OrgRun(o, ops).stock, id)
    decreases |ops|
  {
    if ops != [] {
      var r := OrgStep(o, ops[0]);
      if r.Success? {
        StepKeepsOrg(o, ops[0]);
        StepHistory(o, ops[0], id);
      }
      RunHistory(if r.Success? then r.value else o, ops[1..], id);
    }
  }

  /** In every run a unit is known exactly when a movement is linked to it, and stands as
      the last one left it: in stock where that brought it, or gone the way its kind says. */
  lemma UnitsStandAsLeft(o: Org, ops: seq<OrgOp>, id: UnitId)
    requires IsNew(o)
    ensures HistoryAt(OrgRun(o, ops).stock, id)
  {
    NewOrgOk(o);
    RunHistory(o, ops, id);
  }

  /** So a unit is sold exactly when the last movement linked to it took goods out for a
      sale or a delivery, or undid a return. */
  lemma SoldIff(o: Org, ops: seq<OrgOp>, id: UnitId)
    requires IsNew(o) && id in OrgRun(o, ops).stock.units
    ensures var s := OrgRun(o, ops).stock;
            var last := LastLink(s.links, id);
            && last.Some? && last.value < |s.movements|
            && (s.units[id].status.Sold? <==> TakenBySale(s.movements[last.value]))
  {
    UnitsStandAsLeft(o, ops, id);
  }

  // -------------------------------------------------------------------- returns

  lemma {:induction false} CheckedReturnsSold(s: Stock, c: Catalog, d: Document, lines: seq<DocLine>, i: nat, n: string)
    requires CheckTracking(s, c, d, lines).Pass? && d.kind.CreditNote? && i < |lines| && n in lines[i].input.serials
    requires NormalizeSerials(lines[i].input.serials) == Success(lines[i].input.serials)
    requires Tracked(c, lines[i].input)
    ensures UnitId(lines[i].input.product.value, n) in s.units && s.units[UnitId(lines[i].input.product.value, n)].status.Sold?
    decreases |lines|
  {
    assert CheckLineTracking(s, c, d, lines[0].input).Pass?;
    if i > 0 {
      CheckedReturnsSold(s, c, d, lines[1..], i - 1, n);
    } else {
      var serials := lines[0].input.serials;
      var j :| 0 <= j < |serials| && serials[j] == n;
    }
  }

  lemma ReturnedWasSold(o: Org, id: nat, filing: Filing, i: nat, n: string)
    requires OrgInv(o) && Finalize(o, id, filing).Success? && id in o.docs && o.docs[id].kind.CreditNote? && MovesStock(o.docs, o.docs[id])
    requires i < |o.docs[id].lines| && n in o.docs[id].lines[i].input.serials
    requires Tracked(o.catalog, o.docs[id].lines[i].input)
    ensures var unit := UnitId(o.docs[id].lines[i].input.product.value, n); unit in o.stock.units && o.stock.units[unit].status.Sold?
  {
    ReadyChecks(o, id);
    var d, moves := FinalizeEffect(o, id, filing);
    assert MoneySound(o.docs[id], o.rates);
    assert LineSound(o.docs[id].lines[i], o.rates);
    CheckedReturnsSold(o.stock, o.catalog, d, d.lines, i, n);
  }

  /** In every run, a credit note that moves its goods is only accepted for serials that
      were sold: the last movement linked to each of them was a sale or a delivery, or a
      return undone. */
  lemma ReturnsOnlySold(o: Org, ops: seq<OrgOp>, id: nat, filing: Filing, i: nat, n: string)
    requires IsNew(o) && OrgStep(OrgRun(o, ops), FinalizeOp(id, filing)).Success?
    requires var before := OrgRun(o, ops);
             && id in before.docs && before.docs[id].kind.CreditNote? && MovesStock(before.docs, before.docs[id])
             && i < |before.docs[id].lines| && n in before.docs[id].lines[i].input.serials
             && Tracked(before.catalog, before.docs[id].lines[i].input)
    ensures var before := OrgRun(o, ops);
            var last := LastLink(before.stock.links, UnitId(before.docs[id].lines[i].input.product.value, n));
            && last.Some? && last.value < |before.stock.movements|
            && TakenBySale(before.stock.movements[last.value])
  {
    NewOrgOk(o);
    RunKeepsOrg(o, ops);
    var before := OrgRun(o, ops);
    var unit := UnitId(before.docs[id].lines[i].input.product.value, n);
    ReturnedWasSold(before, id, filing, i, n);
    UnitsStandAsLeft(o, ops, unit);
  }

  predicate TakenBySale(m: Movement) {
    m.qty <= 0 && (m.kind.Sale? || m.kind.Delivery? || m.kind.SalesReturn?)
  }
}
