/** Serial tracking: which units a movement may touch, what happens to them, and
    how many units that leaves at each place. */
module Tracking {
  import opened Basics
  import opened SerialNumbers
  import opened StockTables

  /** Why units are being moved: the movement's type and whether it undoes an
      earlier one. */
  datatype Cause = Cause(kind: MovementType, reverse: bool)

  predicate Returns(cause: Cause) {
    cause.reverse || cause.kind.SalesReturn?
  }

  /** One unit coming in: a new serial, or a sold one when goods come back. */
  function ReceiveUnit(units: map<UnitId, SerialUnit>, id: UnitId, location: nat, bin: Option<nat>, cause: Cause)
    : Result<map<UnitId, SerialUnit>>
  {
    if id !in units then
      if Returns(cause) then Failure(BadRequest) else Success(units[id := SerialUnit(InStock, Some(location), bin)])
    else if Returns(cause) && units[id].status.Sold? then
      Success(units[id := SerialUnit(InStock, Some(location), bin)])
    else
      Failure(Conflict)
  }

  function StatusAfterRelease(cause: Cause): UnitStatus {
    if cause.reverse && cause.kind.SalesReturn? then Sold
    else if cause.reverse then Voided
    else if cause.kind.Sale? || cause.kind.Delivery? then Sold
    else Removed
  }

  /** One unit going out: it must be in stock in that very place. */
  function ReleaseUnit(units: map<UnitId, SerialUnit>, id: UnitId, location: nat, bin: Option<nat>, cause: Cause)
    : Result<map<UnitId, SerialUnit>>
  {
    if id !in units || !units[id].status.InStock? then Failure(BadRequest)
    else if units[id].location != Some(location) || units[id].bin != bin then Failure(BadRequest)
    else Success(units[id := SerialUnit(StatusAfterRelease(cause), None, None)])
  }

  function MoveUnit(units: map<UnitId, SerialUnit>, id: UnitId, location: nat, bin: Option<nat>, inbound: bool, cause: Cause)
    : Result<map<UnitId, SerialUnit>>
  {
    if inbound then ReceiveUnit(units, id, location, bin, cause) else ReleaseUnit(units, id, location, bin, cause)
  }

  /** The loop of `apply_serial_movement`: each number in turn, linked to the movement. */
  function MoveUnits(s: Stock, product: nat, location: nat, bin: Option<nat>, numbers: seq<string>,
                     movement: nat, inbound: bool, cause: Cause): Result<Stock>
    decreases |numbers|
  {
    if numbers == [] then Success(s)
    else
      var id := UnitId(product, numbers[0]);
      var units :- MoveUnit(s.units, id, location, bin, inbound, cause);
      MoveUnits(s.(units := units, links := s.links + [Link(movement, id)]),
                product, location, bin, numbers[1..], movement, inbound, cause)
  }

  /** `apply_serial_movement`. */
  function ApplySerialMovement(s: Stock, product: nat, location: nat, bin: Option<nat>, serials: seq<string>,
                               movement: nat, inbound: bool, cause: Cause): Result<Stock>
  {
    var numbers :- NormalizeSerials(serials);
    MoveUnits(s, product, location, bin, numbers, movement, inbound, cause)
  }

  /** `validate_serials_available`. */
  function SerialsAvailable(units: map<UnitId, SerialUnit>, product: nat, location: nat, bin: Option<nat>,
                            serials: seq<string>): Check
  {
    var r := NormalizeSerials(serials);
    if r.Failure? then Fail(r.error)
    else Need(forall i :: 0 <= i < |r.value| ==>
                var id := UnitId(product, r.value[i]);
                id in units && units[id] == SerialUnit(InStock, Some(location), bin), BadRequest)
  }

  /** `validate_serials_receivable`: only sold units come back on a sales return,
      and only unknown serials come in otherwise. */
  function SerialsReceivable(units: map<UnitId, SerialUnit>, product: nat, serials: seq<string>, salesReturn: bool): Check
  {
    var r := NormalizeSerials(serials);
    if r.Failure? then Fail(r.error)
    else Need(forall i :: 0 <= i < |r.value| ==>
                var id := UnitId(product, r.value[i]);
                if salesReturn then id in units && units[id].status.Sold? else id !in units, Conflict)
  }

  /** The units of `transfer_serials` end up in the new place. */
  function RelocateUnits(s: Stock, product: nat, location: nat, bin: Option<nat>, numbers: seq<string>,
                         outgoing: nat, incoming: nat): Stock
    decreases |numbers|
  {
    if numbers == [] then s
    else
      var id := UnitId(product, numbers[0]);
      RelocateUnits(s.(units := s.units[id := SerialUnit(InStock, Some(location), bin)],
                       links := s.links + [Link(outgoing, id), Link(incoming, id)]),
                    product, location, bin, numbers[1..], outgoing, incoming)
  }

  /** `transfer_serials`. */
  function TransferSerials(s: Stock, product: nat, fromLocation: nat, fromBin: Option<nat>, toLocation: nat, toBin: Option<nat>,
                           serials: seq<string>, outgoing: nat, incoming: nat): Result<Stock>
  {
    var numbers :- NormalizeSerials(serials);
    :- SerialsAvailable(s.units, product, fromLocation, fromBin, numbers);
    Success(RelocateUnits(s, product, toLocation, toBin, numbers, outgoing, incoming))
  }

  // -------------------------------------------------------------------- proofs

  function InboundSign(inbound: bool): int {
    if inbound then 1 else -1
  }

  /** Rewriting one unit row adds it to the place it now has and takes it from
      every other. */
  lemma SetUnitAt(units: map<UnitId, SerialUnit>, id: UnitId, unit: SerialUnit, p: nat, l: nat, b: Option<nat>)
    ensures var before, after := UnitsAt(units, p, l, b), UnitsAt(units[id := unit], p, l, b);
            if id.product == p && unit == SerialUnit(InStock, Some(l), b)
            then after == before + {id} else after == before - {id}
  {
  }

  lemma SetUnitCount(units: map<UnitId, SerialUnit>, id: UnitId, unit: SerialUnit, p: nat, l: nat, b: Option<nat>)
    ensures |UnitsAt(units[id := unit], p, l, b)| == |UnitsAt(units, p, l, b)|
              + (if id.product == p && unit == SerialUnit(InStock, Some(l), b) then 1 else 0)
              - (if id in UnitsAt(units, p, l, b) then 1 else 0)
  {
    SetUnitAt(units, id, unit, p, l, b);
    var before, after := UnitsAt(units, p, l, b), UnitsAt(units[id := unit], p, l, b);
    if id in before && id in after {
      assert after == before;
    }
  }

  lemma MoveUnitRow(units: map<UnitId, SerialUnit>, id: UnitId, location: nat, bin: Option<nat>, inbound: bool, cause: Cause)
    returns (unit: SerialUnit)
    requires MoveUnit(units, id, location, bin, inbound, cause).Success?
    ensures MoveUnit(units, id, location, bin, inbound, cause).value == units[id := unit]
    ensures if inbound
            then unit == SerialUnit(InStock, Some(location), bin) && (id in units ==> !units[id].status.InStock?)
            else id in units && units[id] == SerialUnit(InStock, Some(location), bin) && !unit.status.InStock? && unit.location.None? && unit.bin.None?
  {
    unit := if inbound then SerialUnit(InStock, Some(location), bin) else SerialUnit(StatusAfterRelease(cause), None, None);
  }

  /** One unit moved changes the count at its place by one, and nowhere else. */
  lemma MoveUnitCounts(units: map<UnitId, SerialUnit>, id: UnitId, location: nat, bin: Option<nat>, inbound: bool, cause: Cause,
                       p: nat, l: nat, b: Option<nat>)
    requires UnitsPlaced(units)
    requires MoveUnit(units, id, location, bin, inbound, cause).Success?
    ensures var units' := MoveUnit(units, id, location, bin, inbound, cause).value;
            && UnitsPlaced(units')
            && units'.Keys == units.Keys + {id}
            && |UnitsAt(units', p, l, b)| ==
               |UnitsAt(units, p, l, b)| + if (p, l, b) == (id.product, location, bin) then InboundSign(inbound) else 0
  {
    var unit := MoveUnitRow(units, id, location, bin, inbound, cause);
    SetUnitCount(units, id, unit, p, l, b);
  }

  lemma {:induction false} MoveUnitsCounts(s: Stock, product: nat, location: nat, bin: Option<nat>, numbers: seq<string>,
                                           movement: nat, inbound: bool, cause: Cause, p: nat, l: nat, b: Option<nat>)
    requires UnitsPlaced(s.units)
    requires MoveUnits(s, product, location, bin, numbers, movement, inbound, cause).Success?
    ensures var s' := MoveUnits(s, product, location, bin, numbers, movement, inbound, cause).value;
            && UnitsPlaced(s'.units)
            && (forall id :: id in s'.units ==> id in s.units || id.product == product)
            && s'.movements == s.movements && s'.levels == s.levels
            && |UnitsAt(s'.units, p, l, b)| ==
               |UnitsAt(s.units, p, l, b)| + if (p, l, b) == (product, location, bin) then InboundSign(inbound) * |numbers| else 0
    decreases |numbers|
  {
    if numbers != [] {
      var id := UnitId(product, numbers[0]);
      var units := MoveUnit(s.units, id, location, bin, inbound, cause).value;
      MoveUnitCounts(s.units, id, location, bin, inbound, cause, p, l, b);
      MoveUnitsCounts(s.(units := units, links := s.links + [Link(movement, id)]),
                      product, location, bin, numbers[1..], movement, inbound, cause, p, l, b);
    }
  }

  lemma {:induction false} MoveUnitsLinks(s: Stock, product: nat, location: nat, bin: Option<nat>, numbers: seq<string>,
                                          movement: nat, inbound: bool, cause: Cause, i: nat)
    requires MoveUnits(s, product, location, bin, numbers, movement, inbound, cause).Success?
    ensures var s' := MoveUnits(s, product, location, bin, numbers, movement, inbound, cause).value;
            && LinkCount(s'.links, i) == LinkCount(s.links, i) + (if i == movement then |numbers| else 0)
            && (forall j :: 0 <= j < |s'.links| ==> s'.links[j].movement == movement || s'.links[j] in s.links)
    decreases |numbers|
  {
    if numbers != [] {
      var id := UnitId(product, numbers[0]);
      var units := MoveUnit(s.units, id, location, bin, inbound, cause).value;
      var next := s.(units := units, links := s.links + [Link(movement, id)]);
      LinkCountAppend(s.links, Link(movement, id), i);
      MoveUnitsLinks(next, product, location, bin, numbers[1..], movement, inbound, cause, i);
      assert forall link :: link in next.links ==> link.movement == movement || link in s.links;
    }
  }

  /** Relocating units that are all in stock at one place empties it of them and
      fills the other; no other place changes. */
  lemma {:induction false} RelocateCounts(s: Stock, product: nat, fromLocation: nat, fromBin: Option<nat>,
                                          toLocation: nat, toBin: Option<nat>, numbers: seq<string>,
                                          outgoing: nat, incoming: nat, p: nat, l: nat, b: Option<nat>)
    requires UnitsPlaced(s.units) && Distinct(numbers)
    requires (fromLocation, fromBin) != (toLocation, toBin)
    requires forall n :: n in numbers ==> UnitId(product, n) in UnitsAt(s.units, product, fromLocation, fromBin)
    ensures var s' := RelocateUnits(s, product, toLocation, toBin, numbers, outgoing, incoming);
            && UnitsPlaced(s'.units)
            && s'.units.Keys == s.units.Keys
            && s'.movements == s.movements && s'.levels == s.levels
            && |UnitsAt(s'.units, p, l, b)| == |UnitsAt(s.units, p, l, b)|
               + (if (p, l, b) == (product, toLocation, toBin) then |numbers| else 0)
               - (if (p, l, b) == (product, fromLocation, fromBin) then |numbers| else 0)
    decreases |numbers|
  {
    if numbers != [] {
      var id := UnitId(product, numbers[0]);
      var unit := SerialUnit(InStock, Some(toLocation), toBin);
      var next := s.(units := s.units[id := unit], links := s.links + [Link(outgoing, id), Link(incoming, id)]);
      assert id in UnitsAt(s.units, product, fromLocation, fromBin);
      SetUnitCount(s.units, id, unit, p, l, b);
      forall n | n in numbers[1..] ensures UnitId(product, n) in UnitsAt(next.units, product, fromLocation, fromBin) {
        assert UnitId(product, n) != id;
      }
      RelocateCounts(next, product, fromLocation, fromBin, toLocation, toBin, numbers[1..], outgoing, incoming, p, l, b);
    }
  }

  lemma {:induction false} RelocateLinks(s: Stock, product: nat, location: nat, bin: Option<nat>, numbers: seq<string>,
                                         outgoing: nat, incoming: nat, i: nat)
    requires outgoing != incoming
    ensures var s' := RelocateUnits(s, product, location, bin, numbers, outgoing, incoming);
            && LinkCount(s'.links, i) == LinkCount(s.links, i) + (if i == outgoing || i == incoming then |numbers| else 0)
            && (forall j :: 0 <= j < |s'.links| ==>
                  s'.links[j].movement == outgoing || s'.links[j].movement == incoming || s'.links[j] in s.links)
    decreases |numbers|
  {
    if numbers != [] {
      var id := UnitId(product, numbers[0]);
      var l1, l2 := Link(outgoing, id), Link(incoming, id);
      var next := s.(units := s.units[id := SerialUnit(InStock, Some(location), bin)], links := s.links + [l1, l2]);
      LinkCountAppend(s.links, l1, i);
      LinkCountAppend(s.links + [l1], l2, i);
      assert s.links + [l1] + [l2] == next.links;
      RelocateLinks(next, product, location, bin, numbers[1..], outgoing, incoming, i);
      assert forall link :: link in next.links ==> link == l1 || link == l2 || link in s.links;
    }
  }
}
