/** What it takes for a document to be drafted, converted and finalized: each check, and
    the whole of them, as conditions on the document, the catalogue and the stock. */
module DocumentChecks {
  import opened Basics
  import opened SerialNumbers
  import opened StockTables
  import opened Tracking
  import opened Inventory
  import opened DocumentTables
  import opened Pricing
  import opened DocumentStock
  import opened Documents
  import opened Lifecycle
  import opened StockFacts
  import opened DocumentFacts
  import GoodsCost

  // ------------------------------------------------------------------- drafting

  /** A line that names a bin: of a type that has them, a product that is kept, and a bin in
      use of the document's warehouse. */
  predicate BinOk(c: Catalog, kind: DocType, warehouse: Option<nat>, i: LineInput) {
    i.bin.Some? ==>
      && !kind.SalesOrder? && !kind.SalesReceipt? && !kind.PurchaseOrder?
      && GoodsCost.Tracked(c, i) && warehouse.Some?
      && i.bin.value in c.bins && c.bins[i.bin.value].location == warehouse.value && c.bins[i.bin.value].active
  }

  lemma BinsAcceptedIff(c: Catalog, kind: DocType, warehouse: Option<nat>, lines: seq<DocLine>)
    ensures CheckLineBins(c, kind, warehouse, lines).Pass? <==> forall n :: 0 <= n < |lines| ==> BinOk(c, kind, warehouse, lines[n].input)
  {
    if exists l :: l in lines && l.input.bin.Some? {
      var l :| l in lines && l.input.bin.Some?;
      var n :| 0 <= n < |lines| && lines[n] == l;
      if CheckLineBins(c, kind, warehouse, lines).Pass? {
        forall m | 0 <= m < |lines| ensures BinOk(c, kind, warehouse, lines[m].input) {
          assert lines[m] in lines;
        }
      }
    } else {
      forall n | 0 <= n < |lines| ensures lines[n].input.bin.None? {
        assert lines[n] in lines;
      }
    }
  }

  predicate WarehouseOk(c: Catalog, warehouse: Option<nat>) {
    warehouse.Some? ==> warehouse.value in c.locations && c.locations[warehouse.value]
  }

  predicate InputsOk(o: Org, kind: DocType, warehouse: Option<nat>, inputs: seq<LineInput>) {
    forall n :: 0 <= n < |inputs| ==> Acceptable(o.catalog, o.rates, kind, inputs[n]) && BinOk(o.catalog, kind, warehouse, inputs[n])
  }

  lemma BuiltBins(o: Org, kind: DocType, warehouse: Option<nat>, inputs: seq<LineInput>)
    requires BuildLines(o.catalog, o.rates, kind, inputs).Success?
    ensures CheckLineBins(o.catalog, kind, warehouse, BuildLines(o.catalog, o.rates, kind, inputs).value).Pass?
            <==> forall n :: 0 <= n < |inputs| ==> BinOk(o.catalog, kind, warehouse, inputs[n])
  {
    var lines := BuildLines(o.catalog, o.rates, kind, inputs).value;
    BuildLinesSound(o.catalog, o.rates, kind, inputs);
    BinsAcceptedIff(o.catalog, kind, warehouse, lines);
    forall n | 0 <= n < |inputs| ensures BinOk(o.catalog, kind, warehouse, lines[n].input) <==> BinOk(o.catalog, kind, warehouse, inputs[n]) {
      assert lines[n].input.(serials := []) == inputs[n].(serials := []);
    }
  }

  lemma InputsIff(o: Org, kind: DocType, warehouse: Option<nat>, inputs: seq<LineInput>)
    ensures (BuildLines(o.catalog, o.rates, kind, inputs).Success?
             && CheckLineBins(o.catalog, kind, warehouse, BuildLines(o.catalog, o.rates, kind, inputs).value).Pass?)
            <==> InputsOk(o, kind, warehouse, inputs)
  {
    LinesAcceptedIff(o.catalog, o.rates, kind, inputs);
    if BuildLines(o.catalog, o.rates, kind, inputs).Success? {
      BuiltBins(o, kind, warehouse, inputs);
    }
  }

  /** A draft is accepted exactly when it has a known party, or is a sales receipt, a
      warehouse in use if any, and lines that are all in order. */
  lemma CreateAcceptedIff(o: Org, kind: DocType, i: DocInput)
    ensures Create(o, kind, i).Success? <==>
              && (i.party.Some? || kind.SalesReceipt?) && (i.party.Some? ==> i.party.value in o.books.parties)
              && WarehouseOk(o.catalog, i.warehouse) && InputsOk(o, kind, i.warehouse, i.lines)
  {
    InputsIff(o, kind, i.warehouse, i.lines);
  }

  /** A conversion is accepted exactly from a sent document, to a type it may become, with
      nothing live from it yet, and with lines that are still in order. */
  lemma ConvertAcceptedIff(o: Org, id: nat, target: DocType, today: int)
    ensures Convert(o, id, target, today).Success? <==>
              && id in o.docs && o.docs[id].status.SentDoc? && MayBecome(o.docs[id].kind, target)
              && (forall x :: x in o.docs && o.docs[x].source == Some(id) ==> o.docs[x].status.VoidDoc?)
              && forall n :: 0 <= n < |o.docs[id].lines| ==>
                   Acceptable(o.catalog, o.rates, target, CarriedInput(o.docs[id].lines[n].input, WentAlready(o.docs[id], target)))
  {
    if id in o.docs {
      NoDependentsIff(o.docs, id);
      assert MayBecome(o.docs[id].kind, target) <==> Converts(o.docs[id].kind, target);
      if MayBecome(o.docs[id].kind, target) {
        CarriedAcceptedIff(o, o.docs[id], target);
      }
    }
  }

  lemma CarriedAcceptedIff(o: Org, source: Document, target: DocType)
    requires MayBecome(source.kind, target)
    ensures BuildLines(o.catalog, o.rates, target, CarriedInputs(source.lines, PreservesGoods(source, target))).Success? <==>
              forall n :: 0 <= n < |source.lines| ==> Acceptable(o.catalog, o.rates, target, CarriedInput(source.lines[n].input, WentAlready(source, target)))
  {
    assert PreservesGoods(source, target) <==> WentAlready(source, target);
    LinesAcceptedIff(o.catalog, o.rates, target, CarriedInputs(source.lines, PreservesGoods(source, target)));
  }

  lemma NoDependentsIff(docs: Docs, id: nat)
    ensures ActiveDependents(docs, id, None) == {} <==> forall x :: x in docs && docs[x].source == Some(id) ==> docs[x].status.VoidDoc?
  {
    if forall x :: x in docs && docs[x].source == Some(id) ==> docs[x].status.VoidDoc? {
      forall x ensures x !in ActiveDependents(docs, id, None) {
      }
    }
    if ActiveDependents(docs, id, None) == {} {
      forall x | x in docs && docs[x].source == Some(id) ensures docs[x].status.VoidDoc? {
        assert x !in ActiveDependents(docs, id, None);
      }
    }
  }

  // ------------------------------------------------------------------ finalizing

  /** A line whose tracking is in order: lots that add up and have not expired when goods
      leave; one serial for each whole unit, at their place when goods leave, sold when they
      come back, and new when they come; and neither where there is no tracking. */
  ghost predicate TrackingOk(s: Stock, c: Catalog, d: Document, i: LineInput) {
    GoodsCost.Tracked(c, i) ==>
      match c.products[i.product.value].mode
      case LotTracked =>
        && SumLots(i.lots) == i.quantity && i.serials == []
        && (GoodsLeave(d.kind) ==> forall a :: a in i.lots && a.lot in c.lots && c.lots[a.lot].expiry.Some? ==> d.issued <= c.lots[a.lot].expiry.value)
      case SerialTracked =>
        && i.lots == [] && i.quantity == 1000 * |i.serials| && NormalizeSerials(i.serials).Success?
        && (GoodsLeave(d.kind) ==> d.warehouse.Some?)
        && forall n :: n in NormalizeSerials(i.serials).value ==>
             var id := UnitId(i.product.value, n);
             if GoodsLeave(d.kind) then d.warehouse.Some? && id in s.units && s.units[id] == SerialUnit(InStock, Some(d.warehouse.value), i.bin)
             else if d.kind.CreditNote? then id in s.units && s.units[id].status.Sold?
             else id !in s.units
      case Untracked => i.lots == [] && i.serials == []
  }

  predicate GoodsLeave(kind: DocType) {
    kind.Invoice? || kind.SalesReceipt? || kind.DeliveryChallan?
  }

  lemma AvailableIff(units: map<UnitId, SerialUnit>, product: nat, location: nat, bin: Option<nat>, serials: seq<string>)
    ensures SerialsAvailable(units, product, location, bin, serials).Pass? <==>
              NormalizeSerials(serials).Success?
              && forall n :: n in NormalizeSerials(serials).value ==> UnitId(product, n) in units && units[UnitId(product, n)] == SerialUnit(InStock, Some(location), bin)
  {
    var r := NormalizeSerials(serials);
    if r.Success? && forall i :: 0 <= i < |r.value| ==> UnitId(product, r.value[i]) in units && units[UnitId(product, r.value[i])] == SerialUnit(InStock, Some(location), bin) {
      forall n | n in r.value ensures UnitId(product, n) in units && units[UnitId(product, n)] == SerialUnit(InStock, Some(location), bin) {
        var i :| 0 <= i < |r.value| && r.value[i] == n;
      }
    }
  }

  lemma ReceivableIff(units: map<UnitId, SerialUnit>, product: nat, serials: seq<string>, back: bool)
    ensures SerialsReceivable(units, product, serials, back).Pass? <==>
              NormalizeSerials(serials).Success?
              && forall n :: n in NormalizeSerials(serials).value ==>
                   if back then UnitId(product, n) in units && units[UnitId(product, n)].status.Sold? else UnitId(product, n) !in units
  {
    var r := NormalizeSerials(serials);
    if r.Success? && forall i :: 0 <= i < |r.value| ==>
         if back then UnitId(product, r.value[i]) in units && units[UnitId(product, r.value[i])].status.Sold? else UnitId(product, r.value[i]) !in units
    {
      forall n | n in r.value ensures if back then UnitId(product, n) in units && units[UnitId(product, n)].status.Sold? else UnitId(product, n) !in units {
        var i :| 0 <= i < |r.value| && r.value[i] == n;
      }
    }
  }

  lemma LineTrackingIff(s: Stock, c: Catalog, d: Document, i: LineInput)
    requires !IsOrder(d.kind)
    ensures CheckLineTracking(s, c, d, i).Pass? <==> TrackingOk(s, c, d, i)
  {
    if GoodsCost.Tracked(c, i) && c.products[i.product.value].mode.SerialTracked? {
      if d.warehouse.Some? {
        AvailableIff(s.units, i.product.value, d.warehouse.value, i.bin, i.serials);
      }
      ReceivableIff(s.units, i.product.value, i.serials, d.kind.CreditNote?);
    }
  }

  lemma {:induction false} TrackingIff(s: Stock, c: Catalog, d: Document, lines: seq<DocLine>)
    requires !IsOrder(d.kind)
    ensures CheckTracking(s, c, d, lines).Pass? <==> forall n :: 0 <= n < |lines| ==> TrackingOk(s, c, d, lines[n].input)
    decreases |lines|
  {
    if lines != [] {
      var rest := lines[1..];
      LineTrackingIff(s, c, d, lines[0].input);
      TrackingIff(s, c, d, rest);
      assert lines == [lines[0]] + rest;
      if forall n :: 0 <= n < |lines| ==> TrackingOk(s, c, d, lines[n].input) {
        forall n | 0 <= n < |rest| ensures TrackingOk(s, c, d, rest[n].input) {
          assert lines[n + 1] == rest[n];
        }
      }
    }
  }

  // ------------------------------------------------------------------ goods at hand

  /** What the lines of goods without tracking take from a bin, together. */
  function TakenFrom(c: Catalog, lines: seq<DocLine>, product: nat, bin: Option<nat>): int {
    if lines == [] then 0
    else
      var i := lines[|lines| - 1].input;
      TakenFrom(c, lines[..|lines| - 1], product, bin)
      + (if NeedsBinStock(c, i) && i.product == Some(product) && i.bin == bin then i.quantity else 0)
  }

  lemma {:induction false} RequiredIsTaken(c: Catalog, lines: seq<DocLine>, key: BinKey)
    ensures TakenFrom(c, lines, key.0, key.1) == if key in Required(c, lines) then Required(c, lines)[key] else 0
    ensures key in Required(c, lines) <==> exists n :: 0 <= n < |lines| && NeedsBinStock(c, lines[n].input) && BinKeyOf(lines[n].input) == key
  {
    if lines != [] {
      var front, last := lines[..|lines| - 1], |lines| - 1;
      RequiredIsTaken(c, front, key);
      if n :| 0 <= n < |front| && NeedsBinStock(c, front[n].input) && BinKeyOf(front[n].input) == key {
        assert lines[n] == front[n];
      }
      if n :| 0 <= n < |lines| && NeedsBinStock(c, lines[n].input) && BinKeyOf(lines[n].input) == key {
        assert n < last ==> front[n] == lines[n];
      }
    }
  }

  lemma InUseIff(c: Catalog, location: nat, bin: Option<nat>)
    ensures InUse(c, location, bin) <==> ActiveLocation(c, location) && UsableBin(c, location, bin)
  {
    if bin.Some? && bin.value in c.bins {
      assert c.bins[bin.value] == Bin(c.bins[bin.value].location, c.bins[bin.value].active);
    }
  }

  lemma {:induction false} RequiredCheckedIff(s: Stock, c: Catalog, warehouse: nat, required: map<BinKey, int>, order: seq<BinKey>)
    requires forall k :: k in order ==> k in required
    ensures CheckRequired(s, c, warehouse, required, order).Pass? <==>
              forall k :: k in order ==> InUse(c, warehouse, k.1) && OnHandInBin(s, k.0, warehouse, k.1) >= required[k]
    decreases |order|
  {
    if order != [] {
      assert order == [order[0]] + order[1..] && order[0] in order;
      InUseIff(c, warehouse, order[0].1);
      RequiredCheckedIff(s, c, warehouse, required, order[1..]);
    }
  }

  /** A lot has what is allocated from it, at its place. */
  predicate AllocationOk(s: Stock, c: Catalog, warehouse: nat, i: LineInput, a: LotAllocation)
    requires i.product.Some?
  {
    && InUse(c, warehouse, i.bin) && a.lot in c.lots && c.lots[a.lot].product == i.product.value
    && Level(s, Key(i.product.value, warehouse, i.bin, Some(a.lot))) >= a.quantity
  }

  lemma {:induction false} AllocationsIff(s: Stock, c: Catalog, warehouse: nat, i: LineInput, lots: seq<LotAllocation>)
    requires i.product.Some?
    ensures CheckAllocations(s, c, warehouse, i, lots).Pass? <==> forall a :: a in lots ==> AllocationOk(s, c, warehouse, i, a)
    decreases |lots|
  {
    if lots != [] {
      assert lots == [lots[0]] + lots[1..] && lots[0] in lots;
      InUseIff(c, warehouse, i.bin);
      AllocationsIff(s, c, warehouse, i, lots[1..]);
    }
  }

  predicate LotsAtHand(s: Stock, c: Catalog, warehouse: nat, i: LineInput) {
    GoodsCost.Tracked(c, i) && c.products[i.product.value].mode.LotTracked? ==> forall a :: a in i.lots ==> AllocationOk(s, c, warehouse, i, a)
  }

  lemma {:induction false} LotsIff(s: Stock, c: Catalog, warehouse: nat, lines: seq<DocLine>)
    ensures CheckLots(s, c, warehouse, lines).Pass? <==> forall n :: 0 <= n < |lines| ==> LotsAtHand(s, c, warehouse, lines[n].input)
    decreases |lines|
  {
    if lines != [] {
      var i, rest := lines[0].input, lines[1..];
      if i.product.Some? {
        AllocationsIff(s, c, warehouse, i, i.lots);
      }
      LotsIff(s, c, warehouse, rest);
      assert lines == [lines[0]] + rest;
      if forall n :: 0 <= n < |lines| ==> LotsAtHand(s, c, warehouse, lines[n].input) {
        forall n | 0 <= n < |rest| ensures LotsAtHand(s, c, warehouse, rest[n].input) {
          assert lines[n + 1] == rest[n];
        }
      }
    }
  }

  /** Goods without tracking are at hand: the line's bin has all that the document takes
      from it. */
  ghost predicate BinAtHand(s: Stock, c: Catalog, warehouse: nat, lines: seq<DocLine>, i: LineInput) {
    NeedsBinStock(c, i) ==>
      InUse(c, warehouse, i.bin) && OnHandInBin(s, i.product.value, warehouse, i.bin) >= TakenFrom(c, lines, i.product.value, i.bin)
  }

  lemma BinsIff(s: Stock, c: Catalog, warehouse: nat, lines: seq<DocLine>)
    ensures CheckRequired(s, c, warehouse, Required(c, lines), RequiredOrder(c, lines)).Pass?
            <==> forall n :: 0 <= n < |lines| ==> BinAtHand(s, c, warehouse, lines, lines[n].input)
  {
    var required, order := Required(c, lines), RequiredOrder(c, lines);
    RequiredCheckedIff(s, c, warehouse, required, order);
    if CheckRequired(s, c, warehouse, required, order).Pass? {
      forall n | 0 <= n < |lines| ensures BinAtHand(s, c, warehouse, lines, lines[n].input) {
        if NeedsBinStock(c, lines[n].input) {
          RequiredIsTaken(c, lines, BinKeyOf(lines[n].input));
        }
      }
    }
    if forall n :: 0 <= n < |lines| ==> BinAtHand(s, c, warehouse, lines, lines[n].input) {
      forall k | k in order ensures InUse(c, warehouse, k.1) && OnHandInBin(s, k.0, warehouse, k.1) >= required[k] {
        RequiredIsTaken(c, lines, k);
        var n :| 0 <= n < |lines| && NeedsBinStock(c, lines[n].input) && BinKeyOf(lines[n].input) == k;
        assert BinAtHand(s, c, warehouse, lines, lines[n].input);
      }
    }
  }

  /** Everything a document takes out is at hand. */
  ghost predicate AtHand(s: Stock, c: Catalog, d: Document) {
    d.warehouse.Some? ==>
      forall n :: 0 <= n < |d.lines| ==>
        LotsAtHand(s, c, d.warehouse.value, d.lines[n].input) && BinAtHand(s, c, d.warehouse.value, d.lines, d.lines[n].input)
  }

  lemma PreflightIff(s: Stock, c: Catalog, d: Document)
    ensures Preflight(s, c, d).Pass? <==> AtHand(s, c, d)
  {
    if d.warehouse.Some? {
      LotsIff(s, c, d.warehouse.value, d.lines);
      BinsIff(s, c, d.warehouse.value, d.lines);
    }
  }

  // ------------------------------------------------------------- ready to finalize

  /** What a draft came from lets it be sent: of a type it may come from, still active, of
      the same party, and with the same lines, or no fewer of each for a credit note. */
  predicate SourceOk(docs: Docs, d: Document) {
    d.source.Some? ==>
      && d.source.value in docs
      && var source := docs[d.source.value];
         && MayBecome(source.kind, d.kind) && d.party == source.party
         && (source.status.SentDoc? || (source.status.ClosedDoc? && (source.kind.SalesOrder? || source.kind.PurchaseOrder?)))
         && (if d.kind.CreditNote? then forall s :: s in LineQuantities(d.lines) ==> s in LineQuantities(source.lines) && LineQuantities(d.lines)[s] <= LineQuantities(source.lines)[s]
             else LineQuantities(d.lines) == LineQuantities(source.lines))
  }

  lemma SourceIff(docs: Docs, d: Document)
    ensures GuardSource(docs, d).Pass? <==> SourceOk(docs, d)
  {
    if d.source.Some? && d.source.value in docs {
      var have, want := LineQuantities(docs[d.source.value].lines), LineQuantities(d.lines);
    }
  }

  /** The warehouse a document is sent from: its own, or the default one if it is to move
      goods and has none. */
  function SentFrom(c: Catalog, docs: Docs, d: Document): Option<nat> {
    if d.warehouse.None? && GoodsToMove(docs, d) && exists n :: 0 <= n < |d.lines| && d.lines[n].input.product.Some?
    then c.defaultLocation else d.warehouse
  }

  /** A draft is ready to be finalized exactly when it has lines, its source lets it, it has
      a warehouse in use where it needs one, and, if it is to move goods, the tracking of
      every line is in order and what it takes out is at hand. */
  ghost predicate Ready(o: Org, id: nat) {
    && id in o.docs && o.docs[id].status.DraftDoc? && o.docs[id].lines != [] && SourceOk(o.docs, o.docs[id])
    && var d, moves := o.docs[id].(warehouse := SentFrom(o.catalog, o.docs, o.docs[id])), GoodsToMove(o.docs, o.docs[id]);
       && (d.warehouse.Some? ==> d.warehouse.value in o.catalog.locations && o.catalog.locations[d.warehouse.value])
       && (moves ==> (forall n :: 0 <= n < |d.lines| && d.lines[n].input.product.Some? ==> d.warehouse.Some?))
       && (moves ==> forall n :: 0 <= n < |d.lines| ==> TrackingOk(o.stock, o.catalog, d, d.lines[n].input))
       && (moves && GoodsLeave(d.kind) ==> AtHand(o.stock, o.catalog, d))
  }

  lemma PlacedIff(c: Catalog, docs: Docs, d: Document)
    ensures var w := SentFrom(c, docs, d);
            var r := Placed(c, d, MovesStock(docs, d));
            && (r.Success? <==>
                  && (w.Some? ==> w.value in c.locations && c.locations[w.value])
                  && (GoodsToMove(docs, d) ==> forall n :: 0 <= n < |d.lines| && d.lines[n].input.product.Some? ==> w.Some?))
            && (r.Success? ==> r.value == d.(warehouse := w))
  {
    MovesIff(docs, d);
  }

  lemma ReadyIff(o: Org, id: nat)
    ensures ReadyToFinalize(o, id).Success? <==> Ready(o, id)
  {
    if id in o.docs && o.docs[id].status.DraftDoc? && o.docs[id].lines != [] {
      var d := o.docs[id];
      SourceIff(o.docs, d);
      PlacedIff(o.catalog, o.docs, d);
      MovesIff(o.docs, d);
      if Placed(o.catalog, d, MovesStock(o.docs, d)).Success? {
        var placed := Placed(o.catalog, d, MovesStock(o.docs, d)).value;
        PreflightIff(o.stock, o.catalog, placed);
        if MovesStock(o.docs, d) {
          TrackingIff(o.stock, o.catalog, placed, placed.lines);
        }
      }
    }
  }
}
