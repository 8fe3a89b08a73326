/** What each stock call writes and what it takes to be accepted, and that no movement is
    ever taken out of the stock ledger or changed. */
module StockFacts {
  import opened Basics
  import opened StockTables
  import opened Inventory
  import opened OpeningStock
  import opened LedgerTables
  import opened Documents
  import opened OrgInvariant
  import opened OpeningLegs
  import opened StockLegs

  /** A place goods can be: a warehouse in use, and a bin of it in use, if any. */
  predicate InUse(c: Catalog, location: nat, bin: Option<nat>) {
    && location in c.locations && c.locations[location]
    && (bin.Some? ==> bin.value in c.bins && c.bins[bin.value].location == location && c.bins[bin.value].active)
  }

  /** An adjustment that is accepted is for an item that is no group of variants, at a place
      in use, of something; it writes one row: its quantity at the cost given, or else the
      item's own, or its value alone; and reports to the books what the row is worth. */
  lemma AdjustWrites(s: Stock, c: Catalog, a: AdjustInput)
    requires Adjust(s, c, a).Success?
    ensures a.product in c.products && !c.products[a.product].variable && InUse(c, a.location, a.bin)
    ensures var r := Adjust(s, c, a).value;
            && |r.stock.movements| == |s.movements| + 1 && s.movements <= r.stock.movements
            && var m, price := r.stock.movements[|s.movements|], c.products[a.product].price;
               && m.key == Key(a.product, a.location, a.bin, a.lot) && m.ref.NoRef?
               && (if a.byValue
                   then && m.kind.Revaluation? && m.qty == 0 && m.unitCost.None?
                        && a.value.Some? && a.value.value != 0 && m.valueDelta == Some(1000 * a.value.value) && r.value == 1000 * a.value.value
                   else && m.kind.Adjustment? && m.qty == a.qty && a.qty != 0 && m.valueDelta.None?
                        && m.unitCost == (if a.unitCost.Some? then a.unitCost else price)
                        && r.value == a.qty * (if a.unitCost.Some? then a.unitCost.value else price.GetOr(0)))
  {
    AdjustRowAppended(s, c, a);
    AdjustRowWorth(s, c, a);
    AdjustAccepted(s, c, a);
  }

  lemma AdjustAccepted(s: Stock, c: Catalog, a: AdjustInput)
    requires Adjust(s, c, a).Success?
    ensures a.product in c.products && !c.products[a.product].variable && InUse(c, a.location, a.bin)
    ensures if a.byValue then a.value.Some? && a.value.value != 0 else a.qty != 0
  {
  }

  /** A transfer that is accepted is between two places in use; it writes what leaves the
      one and what enters the other, neither at any cost. */
  lemma TransferWrites(s: Stock, c: Catalog, t: TransferInput)
    requires Transfer(s, c, t).Success?
    ensures t.product in c.products && !c.products[t.product].variable
    ensures InUse(c, t.fromLocation, t.fromBin) && InUse(c, t.toLocation, t.toBin) && (t.fromLocation, t.fromBin) != (t.toLocation, t.toBin)
    ensures var ms := Transfer(s, c, t).value.movements;
            ms == s.movements + [Movement(Key(t.product, t.fromLocation, t.fromBin, t.lot), -(t.quantity as int), Transferred, NoRef, None, None),
                                 Movement(Key(t.product, t.toLocation, t.toBin, t.lot), t.quantity, Transferred, NoRef, None, None)]
  {
    TransferAccepted(c, t);
    TransferMovements(s, c, t);
  }

  lemma TransferAccepted(c: Catalog, t: TransferInput)
    requires CheckTransfer(c, t).Pass?
    ensures t.product in c.products && !c.products[t.product].variable
    ensures InUse(c, t.fromLocation, t.fromBin) && InUse(c, t.toLocation, t.toBin) && (t.fromLocation, t.fromBin) != (t.toLocation, t.toBin)
  {
  }

  /** Opening stock is only set for goods that are kept, one by one, and have seen nothing
      but opening stock. */
  lemma OpeningAccepts(s: Stock, c: Catalog, product: nat, entries: seq<OpeningEntry>, order: seq<Key>, i: nat)
    requires SetOpeningStock(s, c, product, entries, order).Success?
    ensures product in c.products && c.products[product].good && c.products[product].tracked && !c.products[product].variable
    ensures i < |s.movements| && s.movements[i].key.product == product ==> s.movements[i].kind.Opening?
  {
  }

  // ------------------------------------------------------------------- every run

  lemma StepAppends(o: Org, op: OrgOp)
    requires OrgInv(o) && OrgStep(o, op).Success?
    ensures o.stock.movements <= OrgStep(o, op).value.stock.movements
  {
    if op.AdjustOp? {
      AdjustRowAppended(o.stock, o.catalog, op.adjust);
    } else {
      OthersAdjustNothing(o, op);
    }
  }

  /** No call of any service takes a movement out of the stock ledger or changes one. */
  lemma {:induction false} MovementsStay(o: Org, ops: seq<OrgOp>)
    requires OrgInv(o)
    ensures o.stock.movements <= OrgRun(o, ops).stock.movements
    decreases |ops|
  {
    if ops != [] {
      var r := OrgStep(o, ops[0]);
      if r.Success? {
        StepKeepsOrg(o, ops[0]);
        StepAppends(o, ops[0]);
      }
      MovementsStay(if r.Success? then r.value else o, ops[1..]);
    }
  }
}
