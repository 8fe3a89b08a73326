/** Undoing goods: reversing what a document has just moved always succeeds, and puts
    every level and every serial unit back where it was. */
module StockUndone {
  import opened Basics
  import opened SerialNumbers
  import opened StockTables
  import opened Tracking
  import opened Inventory
  import opened DocumentTables
  import opened DocumentStock

  // ------------------------------------------------------------------ the units

  /** One unit to move, in or out of a place. */
  datatype UnitMove = UnitMove(id: UnitId, location: nat, bin: Option<nat>)

  function MoveEach(units: map<UnitId, SerialUnit>, ms: seq<UnitMove>, inbound: bool, cause: Cause): Result<map<UnitId, SerialUnit>>
    decreases |ms|
  {
    if ms == [] then Success(units)
    else
      var moved :- MoveUnit(units, ms[0].id, ms[0].location, ms[0].bin, inbound, cause);
      MoveEach(moved, ms[1..], inbound, cause)
  }

  lemma {:induction false} MoveEachConcat(units: map<UnitId, SerialUnit>, ms: seq<UnitMove>, more: seq<UnitMove>, inbound: bool, cause: Cause)
    ensures MoveEach(units, ms + more, inbound, cause) ==
              var moved := MoveEach(units, ms, inbound, cause);
              if moved.Failure? then moved else MoveEach(moved.value, more, inbound, cause)
    decreases |ms|
  {
    if ms == [] {
      assert ms + more == more;
    } else {
      assert (ms + more)[1..] == ms[1..] + more;
      var moved := MoveUnit(units, ms[0].id, ms[0].location, ms[0].bin, inbound, cause);
      if moved.Success? {
        MoveEachConcat(moved.value, ms[1..], more, inbound, cause);
      }
    }
  }

  /** How a unit stands once moved. */
  function MovedUnit(m: UnitMove, inbound: bool, cause: Cause): SerialUnit {
    if inbound then SerialUnit(InStock, Some(m.location), m.bin) else SerialUnit(StatusAfterRelease(cause), None, None)
  }

  /** Whether a unit may be moved so. */
  predicate Movable(units: map<UnitId, SerialUnit>, m: UnitMove, inbound: bool, cause: Cause) {
    if !inbound then m.id in units && units[m.id] == SerialUnit(InStock, Some(m.location), m.bin)
    else if Returns(cause) then m.id in units && units[m.id].status.Sold?
    else m.id !in units
  }

  predicate OneEach(ms: seq<UnitMove>) {
    forall i, j :: 0 <= i < j < |ms| ==> ms[i].id != ms[j].id
  }

  predicate Touched(ms: seq<UnitMove>, id: UnitId) {
    exists i :: 0 <= i < |ms| && ms[i].id == id
  }

  lemma MoveUnitIff(units: map<UnitId, SerialUnit>, m: UnitMove, inbound: bool, cause: Cause)
    ensures MoveUnit(units, m.id, m.location, m.bin, inbound, cause).Success? <==> Movable(units, m, inbound, cause)
    ensures Movable(units, m, inbound, cause) ==>
              MoveUnit(units, m.id, m.location, m.bin, inbound, cause).value == units[m.id := MovedUnit(m, inbound, cause)]
  {
  }

  /** A unit just moved cannot be moved the same way again. */
  lemma MovedOnce(units: map<UnitId, SerialUnit>, m: UnitMove, n: UnitMove, inbound: bool, cause: Cause)
    requires Movable(units, m, inbound, cause) && n.id == m.id
    ensures !Movable(units[m.id := MovedUnit(m, inbound, cause)], n, inbound, cause)
  {
  }

  /** Moving units one by one succeeds exactly when each can be moved and none comes
      twice; then each stands as moved, and no other changes. */
  lemma {:induction false} MoveEachIff(units: map<UnitId, SerialUnit>, ms: seq<UnitMove>, inbound: bool, cause: Cause)
    ensures MoveEach(units, ms, inbound, cause).Success? <==> OneEach(ms) && forall i :: 0 <= i < |ms| ==> Movable(units, ms[i], inbound, cause)
    ensures MoveEach(units, ms, inbound, cause).Success? ==>
              var moved := MoveEach(units, ms, inbound, cause).value;
              && (forall i :: 0 <= i < |ms| ==> ms[i].id in moved && moved[ms[i].id] == MovedUnit(ms[i], inbound, cause))
              && (forall id :: !Touched(ms, id) ==> (id in moved <==> id in units) && (id in units ==> moved[id] == units[id]))
    decreases |ms|
  {
    if ms != [] {
      var first, rest := ms[0], ms[1..];
      MoveUnitIff(units, first, inbound, cause);
      if Movable(units, first, inbound, cause) {
        var moved := units[first.id := MovedUnit(first, inbound, cause)];
        MoveEachIff(moved, rest, inbound, cause);
        RestIff(units, ms, moved, inbound, cause);
        if MoveEach(moved, rest, inbound, cause).Success? {
          RestMoved(units, ms, moved, inbound, cause);
        }
      }
    }
  }

  /** The units still to be moved, before and after the first one was. */
  lemma RestIff(units: map<UnitId, SerialUnit>, ms: seq<UnitMove>, moved: map<UnitId, SerialUnit>, inbound: bool, cause: Cause)
    requires ms != [] && Movable(units, ms[0], inbound, cause) && moved == units[ms[0].id := MovedUnit(ms[0], inbound, cause)]
    ensures (OneEach(ms[1..]) && forall i :: 0 <= i < |ms[1..]| ==> Movable(moved, ms[1..][i], inbound, cause))
            <==> (OneEach(ms) && forall i :: 0 <= i < |ms| ==> Movable(units, ms[i], inbound, cause))
  {
    var rest := ms[1..];
    forall i | 0 <= i < |rest| ensures rest[i] == ms[i + 1] && (Movable(moved, rest[i], inbound, cause) <==> rest[i].id != ms[0].id && Movable(units, rest[i], inbound, cause)) {
      if rest[i].id == ms[0].id {
        MovedOnce(units, ms[0], rest[i], inbound, cause);
      }
    }
    if OneEach(rest) && forall i :: 0 <= i < |rest| ==> Movable(moved, rest[i], inbound, cause) {
      forall i, j | 0 <= i < j < |ms| ensures ms[i].id != ms[j].id {
        assert ms[j] == rest[j - 1];
        assert i > 0 ==> ms[i] == rest[i - 1];
      }
      forall i | 0 <= i < |ms| ensures Movable(units, ms[i], inbound, cause) {
        assert i > 0 ==> ms[i] == rest[i - 1];
      }
    }
  }

  lemma RestMoved(units: map<UnitId, SerialUnit>, ms: seq<UnitMove>, moved: map<UnitId, SerialUnit>, inbound: bool, cause: Cause)
    requires ms != [] && Movable(units, ms[0], inbound, cause) && moved == units[ms[0].id := MovedUnit(ms[0], inbound, cause)]
    requires MoveEach(moved, ms[1..], inbound, cause).Success? && OneEach(ms)
    requires var last := MoveEach(moved, ms[1..], inbound, cause).value;
             && (forall i :: 0 <= i < |ms[1..]| ==> ms[1..][i].id in last && last[ms[1..][i].id] == MovedUnit(ms[1..][i], inbound, cause))
             && (forall id :: !Touched(ms[1..], id) ==> (id in last <==> id in moved) && (id in moved ==> last[id] == moved[id]))
    ensures var last := MoveEach(moved, ms[1..], inbound, cause).value;
            && (forall i :: 0 <= i < |ms| ==> ms[i].id in last && last[ms[i].id] == MovedUnit(ms[i], inbound, cause))
            && (forall id :: !Touched(ms, id) ==> (id in last <==> id in units) && (id in units ==> last[id] == units[id]))
  {
    var rest, last := ms[1..], MoveEach(moved, ms[1..], inbound, cause).value;
    forall i | 0 <= i < |ms| ensures ms[i].id in last && last[ms[i].id] == MovedUnit(ms[i], inbound, cause) {
      if i > 0 {
        assert ms[i] == rest[i - 1];
      } else {
        assert !Touched(rest, ms[0].id);
      }
    }
    forall id | !Touched(ms, id) ensures (id in last <==> id in units) && (id in units ==> last[id] == units[id]) {
      assert id != ms[0].id;
      forall i | 0 <= i < |rest| ensures rest[i].id != id {
        assert rest[i] == ms[i + 1];
      }
      assert !Touched(rest, id);
    }
  }

  /** Why goods move with a document: out by a sale or a delivery, in otherwise. */
  predicate DocumentCause(inbound: bool, cause: Cause) {
    !cause.reverse && (!inbound ==> cause.kind.Sale? || cause.kind.Delivery?)
  }

  /** Units moved with a document can always be moved back at once; those that were there
      before stand as they stood, and new ones are left as void. */
  lemma UnitsMoveBack(units: map<UnitId, SerialUnit>, ms: seq<UnitMove>, inbound: bool, cause: Cause)
    requires UnitsPlaced(units) && DocumentCause(inbound, cause) && MoveEach(units, ms, inbound, cause).Success?
    ensures MoveEach(MoveEach(units, ms, inbound, cause).value, ms, !inbound, cause.(reverse := true)).Success?
    ensures var back := MoveEach(MoveEach(units, ms, inbound, cause).value, ms, !inbound, cause.(reverse := true)).value;
            && (forall id :: id in units ==> id in back && back[id] == units[id])
            && (forall id :: id in back && id !in units ==> back[id] == SerialUnit(Voided, None, None))
  {
    var moved, undo := MoveEach(units, ms, inbound, cause).value, cause.(reverse := true);
    MoveEachIff(units, ms, inbound, cause);
    forall i | 0 <= i < |ms| ensures Movable(moved, ms[i], !inbound, undo) {
      assert moved[ms[i].id] == MovedUnit(ms[i], inbound, cause);
    }
    MoveEachIff(moved, ms, !inbound, undo);
    var back := MoveEach(moved, ms, !inbound, undo).value;
    forall id ensures (id in units ==> id in back && back[id] == units[id]) && (id in back && id !in units ==> back[id] == SerialUnit(Voided, None, None)) {
      if Touched(ms, id) {
        var i :| 0 <= i < |ms| && ms[i].id == id;
        assert Movable(units, ms[i], inbound, cause);
        assert back[ms[i].id] == MovedUnit(ms[i], !inbound, undo);
      }
    }
  }

  // ------------------------------------------------------------- from the postings

  function MovesOf(k: Key, numbers: seq<string>): (r: seq<UnitMove>)
    ensures |r| == |numbers| && forall i :: 0 <= i < |r| ==> r[i] == UnitMove(UnitId(k.product, numbers[i]), k.location, k.bin)
  {
    if numbers == [] then [] else [UnitMove(UnitId(k.product, numbers[0]), k.location, k.bin)] + MovesOf(k, numbers[1..])
  }

  function PostingMoves(c: Catalog, p: Posting): seq<UnitMove> {
    if ModeOf(c, p.key.product).SerialTracked? then MovesOf(p.key, p.serials) else []
  }

  function AllMoves(c: Catalog, ps: seq<Posting>): seq<UnitMove> {
    if ps == [] then [] else AllMoves(c, ps[..|ps| - 1]) + PostingMoves(c, ps[|ps| - 1])
  }

  lemma {:induction false} MoveUnitsIsEach(s: Stock, k: Key, numbers: seq<string>, movement: nat, inbound: bool, cause: Cause)
    ensures var r, e := MoveUnits(s, k.product, k.location, k.bin, numbers, movement, inbound, cause), MoveEach(s.units, MovesOf(k, numbers), inbound, cause);
            && (r.Success? <==> e.Success?)
            && (r.Success? ==> r.value.units == e.value && r.value.levels == s.levels)
    decreases |numbers|
  {
    if numbers != [] {
      var id := UnitId(k.product, numbers[0]);
      var units := MoveUnit(s.units, id, k.location, k.bin, inbound, cause);
      assert MovesOf(k, numbers)[1..] == MovesOf(k, numbers[1..]);
      if units.Success? {
        MoveUnitsIsEach(s.(units := units.value, links := s.links + [Link(movement, id)]), k, numbers[1..], movement, inbound, cause);
      }
    }
  }

  /** What postings carry to one key. */
  function QtyAt(ps: seq<Posting>, k: Key): int {
    if ps == [] then 0 else QtyAt(ps[..|ps| - 1], k) + (if ps[|ps| - 1].key == k then ps[|ps| - 1].quantity else 0)
  }

  /** The same as it changes a level: into stock, out of it, or not at all. */
  function Change(dir: int, quantity: int): int {
    if dir > 0 then quantity else if dir < 0 then -quantity else 0
  }

  lemma ChangeIsProduct(kind: DocType, reverse: bool, quantity: int)
    ensures DirectionOf(kind, reverse) * quantity == Change(DirectionOf(kind, reverse), quantity)
  {
  }

  predicate Placeable(c: Catalog, p: Posting) {
    UsableBin(c, p.key.location, p.key.bin) && (p.key.lot.Some? ==> LotOf(c, p.key.lot.value, p.key.product))
  }

  /** When one posting is accepted. */
  predicate Accepts(s: Stock, c: Catalog, kind: DocType, reverse: bool, p: Posting) {
    var dir := DirectionOf(kind, reverse);
    && Placeable(c, p) && Level(s, p.key) + Change(dir, p.quantity) >= 0
    && MoveEach(s.units, PostingMoves(c, p), dir > 0, Cause(MovementOf(kind), reverse)).Success?
  }

  /** What it leaves. */
  ghost predicate Leaves(s: Stock, s': Stock, c: Catalog, kind: DocType, reverse: bool, p: Posting) {
    var dir := DirectionOf(kind, reverse);
    && MoveEach(s.units, PostingMoves(c, p), dir > 0, Cause(MovementOf(kind), reverse)) == Success(s'.units)
    && forall k :: Level(s', k) == Level(s, k) + if k == p.key then Change(dir, p.quantity) else 0
  }

  /** The movement alone. */
  lemma MovementIff(s: Stock, c: Catalog, m: Movement)
    ensures PostDocumentMovement(s, c, m).Success? <==>
              UsableBin(c, m.key.location, m.key.bin) && (m.key.lot.Some? ==> LotOf(c, m.key.lot.value, m.key.product)) && Level(s, m.key) + m.qty >= 0
    ensures PostDocumentMovement(s, c, m).Success? ==>
              var posted := PostDocumentMovement(s, c, m).value;
              posted.units == s.units && forall k :: Level(posted, k) == Level(s, k) + if k == m.key then m.qty else 0
  {
  }

  /** And its serials. */
  lemma SerialsIff(posted: Stock, c: Catalog, kind: DocType, reverse: bool, p: Posting, movement: nat)
    requires PostingFits(c, p) && ModeOf(c, p.key.product).SerialTracked?
    ensures var r := ApplySerialMovement(posted, p.key.product, p.key.location, p.key.bin, p.serials, movement, DirectionOf(kind, reverse) > 0,
                                         Cause(MovementOf(kind), reverse));
            var e := MoveEach(posted.units, PostingMoves(c, p), DirectionOf(kind, reverse) > 0, Cause(MovementOf(kind), reverse));
            && (r.Success? <==> e.Success?)
            && (r.Success? ==> r.value.units == e.value && r.value.levels == posted.levels)
  {
    MoveUnitsIsEach(posted, p.key, p.serials, movement, DirectionOf(kind, reverse) > 0, Cause(MovementOf(kind), reverse));
  }

  lemma PostOneIff(s: Stock, c: Catalog, id: nat, kind: DocType, reverse: bool, p: Posting, costs: map<CostKey, Option<int>>)
    requires PostingFits(c, p)
    ensures PostOne(s, c, id, kind, reverse, p, costs).Success? <==> Accepts(s, c, kind, reverse, p)
    ensures Accepts(s, c, kind, reverse, p) ==> Placeable(c, p) && Leaves(s, PostOne(s, c, id, kind, reverse, p, costs).value, c, kind, reverse, p)
  {
    var m := MovementFor(c, id, kind, reverse, p, costs);
    ChangeIsProduct(kind, reverse, p.quantity);
    MovementIff(s, c, m);
    var r := PostDocumentMovement(s, c, m);
    if r.Success? && ModeOf(c, p.key.product).SerialTracked? {
      SerialsIff(r.value, c, kind, reverse, p, |s.movements|);
      var moved := PostOne(s, c, id, kind, reverse, p, costs);
      assert moved.Success? ==> forall k :: Level(moved.value, k) == Level(r.value, k);
    }
  }

  /** The last posting, after the others were accepted. */
  lemma PostLastIff(s: Stock, before: Stock, c: Catalog, id: nat, kind: DocType, reverse: bool, ps: seq<Posting>, costs: map<CostKey, Option<int>>)
    requires ps != [] && PostingFits(c, ps[|ps| - 1]) && PostAll(s, c, id, kind, reverse, ps[..|ps| - 1], costs) == Success(before)
    ensures PostAll(s, c, id, kind, reverse, ps, costs).Success? <==> Accepts(before, c, kind, reverse, ps[|ps| - 1])
    ensures PostAll(s, c, id, kind, reverse, ps, costs).Success? ==>
              Placeable(c, ps[|ps| - 1]) && Leaves(before, PostAll(s, c, id, kind, reverse, ps, costs).value, c, kind, reverse, ps[|ps| - 1])
  {
    PostOneIff(before, c, id, kind, reverse, ps[|ps| - 1], costs);
  }

  /** What all postings together leave: each level moved by what they carry to it, the
      units moved as listed, and each posting in a place that fits. */
  ghost predicate LeavesAll(s: Stock, s': Stock, c: Catalog, kind: DocType, reverse: bool, ps: seq<Posting>) {
    var dir := DirectionOf(kind, reverse);
    && MoveEach(s.units, AllMoves(c, ps), dir > 0, Cause(MovementOf(kind), reverse)) == Success(s'.units)
    && (forall k :: Level(s', k) == Level(s, k) + Change(dir, QtyAt(ps, k)))
    && (forall i :: 0 <= i < |ps| ==> Placeable(c, ps[i]))
  }

  lemma LeavesOneMore(s: Stock, before: Stock, after: Stock, c: Catalog, kind: DocType, reverse: bool, ps: seq<Posting>)
    requires ps != [] && LeavesAll(s, before, c, kind, reverse, ps[..|ps| - 1])
    requires Placeable(c, ps[|ps| - 1]) && Leaves(before, after, c, kind, reverse, ps[|ps| - 1])
    ensures LeavesAll(s, after, c, kind, reverse, ps)
  {
    var front, p := ps[..|ps| - 1], ps[|ps| - 1];
    MoveEachConcat(s.units, AllMoves(c, front), PostingMoves(c, p), DirectionOf(kind, reverse) > 0, Cause(MovementOf(kind), reverse));
    forall i | 0 <= i < |ps| ensures Placeable(c, ps[i]) {
      assert i < |front| ==> front[i] == ps[i];
    }
  }

  lemma {:induction false} PostAllLeaves(s: Stock, c: Catalog, id: nat, kind: DocType, reverse: bool, ps: seq<Posting>, costs: map<CostKey, Option<int>>, after: Stock)
    requires PostingsFit(c, ps) && PostAll(s, c, id, kind, reverse, ps, costs) == Success(after)
    ensures LeavesAll(s, after, c, kind, reverse, ps)
    decreases |ps|
  {
    if ps != [] {
      var front := ps[..|ps| - 1];
      var before := PostAll(s, c, id, kind, reverse, front, costs).value;
      assert PostingFits(c, ps[|ps| - 1]);
      PostAllLeaves(s, c, id, kind, reverse, front, costs, before);
      PostLastIff(s, before, c, id, kind, reverse, ps, costs);
      LeavesOneMore(s, before, after, c, kind, reverse, ps);
    }
  }

  /** No level runs short on the way. */
  predicate NeverShort(s: Stock, dir: int, ps: seq<Posting>, j: nat, k: Key)
    requires j <= |ps|
  {
    Level(s, k) + Change(dir, QtyAt(ps[..j], k)) >= 0
  }

  /** When all of them are accepted: places fit, no level runs short on the way, and the
      units can be moved. */
  lemma {:induction false} PostAllSucceeds(s: Stock, c: Catalog, id: nat, kind: DocType, reverse: bool, ps: seq<Posting>, costs: map<CostKey, Option<int>>)
    requires PostingsFit(c, ps) && forall i :: 0 <= i < |ps| ==> Placeable(c, ps[i])
    requires forall j: nat, k {:trigger NeverShort(s, DirectionOf(kind, reverse), ps, j, k)} :: j <= |ps| ==> NeverShort(s, DirectionOf(kind, reverse), ps, j, k)
    requires MoveEach(s.units, AllMoves(c, ps), DirectionOf(kind, reverse) > 0, Cause(MovementOf(kind), reverse)).Success?
    ensures PostAll(s, c, id, kind, reverse, ps, costs).Success?
    decreases |ps|
  {
    if ps != [] {
      var front, p, dir := ps[..|ps| - 1], ps[|ps| - 1], DirectionOf(kind, reverse);
      assert PostingFits(c, ps[|ps| - 1]) && Placeable(c, ps[|ps| - 1]);
      MoveEachConcat(s.units, AllMoves(c, front), PostingMoves(c, p), dir > 0, Cause(MovementOf(kind), reverse));
      forall j: nat, k | j <= |front| ensures NeverShort(s, dir, front, j, k) {
        assert front[..j] == ps[..j] && NeverShort(s, dir, ps, j, k);
      }
      PostAllSucceeds(s, c, id, kind, reverse, front, costs);
      var before := PostAll(s, c, id, kind, reverse, front, costs).value;
      PostAllLeaves(s, c, id, kind, reverse, front, costs, before);
      LastAccepted(s, before, c, kind, reverse, ps);
      PostLastIff(s, before, c, id, kind, reverse, ps, costs);
    }
  }

  lemma LastAccepted(s: Stock, before: Stock, c: Catalog, kind: DocType, reverse: bool, ps: seq<Posting>)
    requires ps != [] && Placeable(c, ps[|ps| - 1]) && LeavesAll(s, before, c, kind, reverse, ps[..|ps| - 1])
    requires NeverShort(s, DirectionOf(kind, reverse), ps, |ps|, ps[|ps| - 1].key)
    requires MoveEach(s.units, AllMoves(c, ps), DirectionOf(kind, reverse) > 0, Cause(MovementOf(kind), reverse)).Success?
    ensures Accepts(before, c, kind, reverse, ps[|ps| - 1])
  {
    assert ps[..|ps|] == ps;
    MoveEachConcat(s.units, AllMoves(c, ps[..|ps| - 1]), PostingMoves(c, ps[|ps| - 1]), DirectionOf(kind, reverse) > 0, Cause(MovementOf(kind), reverse));
  }

  // --------------------------------------------------------------- the round trip

  predicate AllPositive(ps: seq<Posting>) {
    forall i :: 0 <= i < |ps| ==> ps[i].quantity > 0
  }

  lemma {:induction false} LotPostingsPositive(i: LineInput, location: nat, lots: seq<LotAllocation>)
    requires i.product.Some?
    ensures AllPositive(LotPostings(i, location, lots))
  {
    if lots != [] {
      LotPostingsPositive(i, location, lots[..|lots| - 1]);
    }
  }

  lemma {:induction false} PostingsPositive(c: Catalog, lines: seq<LineInput>, location: nat)
    requires forall l :: l in lines ==> l.product.Some?
    ensures AllPositive(AllPostings(c, lines, location))
  {
    if lines != [] {
      PostingsPositive(c, lines[..|lines| - 1], location);
      LotPostingsPositive(lines[|lines| - 1], location, lines[|lines| - 1].lots);
    }
  }

  lemma {:induction false} QtyGrows(ps: seq<Posting>, j: nat, k: Key)
    requires AllPositive(ps) && j <= |ps|
    ensures 0 <= QtyAt(ps[..j], k) <= QtyAt(ps, k)
    decreases |ps|
  {
    if j < |ps| {
      QtyGrows(ps[..|ps| - 1], j, k);
      assert ps[..|ps| - 1][..j] == ps[..j];
    } else {
      assert ps[..j] == ps;
      if ps != [] {
        QtyGrows(ps[..|ps| - 1], |ps| - 1, k);
        assert ps[..|ps| - 1][..|ps| - 1] == ps[..|ps| - 1];
      }
    }
  }

  /** On the way back no level runs short. */
  lemma NoShortageBack(s: Stock, there: Stock, c: Catalog, kind: DocType, ps: seq<Posting>, j: nat, k: Key)
    requires LevelsRefineLedger(s) && LevelsRefineLedger(there) && AllPositive(ps) && Direction(kind) != 0 && j <= |ps|
    requires LeavesAll(s, there, c, kind, false, ps)
    ensures NeverShort(there, DirectionOf(kind, true), ps, j, k)
  {
    QtyGrows(ps, j, k);
    assert Level(s, k) >= 0 && Level(there, k) >= 0;
    assert Level(there, k) == Level(s, k) + Change(Direction(kind), QtyAt(ps, k));
  }

  lemma BackWhereTheyWere(s: Stock, there: Stock, back: Stock, c: Catalog, kind: DocType, ps: seq<Posting>, k: Key)
    requires LeavesAll(s, there, c, kind, false, ps) && LeavesAll(there, back, c, kind, true, ps)
    ensures Level(back, k) == Level(s, k)
  {
    assert Level(there, k) == Level(s, k) + Change(Direction(kind), QtyAt(ps, k));
    assert Level(back, k) == Level(there, k) + Change(-Direction(kind), QtyAt(ps, k));
  }

  lemma CauseOfDocument(kind: DocType)
    requires Direction(kind) != 0
    ensures DocumentCause(Direction(kind) > 0, Cause(MovementOf(kind), false))
  {
  }

  /** The goods of a document moved and moved straight back: always accepted; every level
      is what it was, every unit stands as it stood, and units it brought in are void. */
  lemma GoodsMoveBack(s: Stock, c: Catalog, id: nat, kind: DocType, ps: seq<Posting>, costs: map<CostKey, Option<int>>, undoCosts: map<CostKey, Option<int>>)
    requires StockInv(s, c) && PostingsFit(c, ps) && AllPositive(ps) && Direction(kind) != 0
    requires PostAll(s, c, id, kind, false, ps, costs).Success?
    ensures var there := PostAll(s, c, id, kind, false, ps, costs).value;
            PostAll(there, c, id, kind, true, ps, undoCosts).Success?
    ensures var there := PostAll(s, c, id, kind, false, ps, costs).value;
            var back := PostAll(there, c, id, kind, true, ps, undoCosts).value;
            && (forall k :: Level(back, k) == Level(s, k))
            && (forall u :: u in s.units ==> u in back.units && back.units[u] == s.units[u])
            && (forall u :: u in back.units && u !in s.units ==> back.units[u] == SerialUnit(Voided, None, None))
  {
    var there := PostAll(s, c, id, kind, false, ps, costs).value;
    PostAllLeaves(s, c, id, kind, false, ps, costs, there);
    PostAllKeepsStock(s, c, id, kind, false, ps, costs);
    CauseOfDocument(kind);
    UnitsMoveBack(s.units, AllMoves(c, ps), Direction(kind) > 0, Cause(MovementOf(kind), false));
    forall j: nat, k | j <= |ps| ensures NeverShort(there, DirectionOf(kind, true), ps, j, k) {
      NoShortageBack(s, there, c, kind, ps, j, k);
    }
    PostAllSucceeds(there, c, id, kind, true, ps, undoCosts);
    var back := PostAll(there, c, id, kind, true, ps, undoCosts).value;
    PostAllLeaves(there, c, id, kind, true, ps, undoCosts, back);
    forall k ensures Level(back, k) == Level(s, k) {
      BackWhereTheyWere(s, there, back, c, kind, ps, k);
    }
  }

  /** `_post_stock` and then its reverse. */
  lemma StockMovesBack(s: Stock, c: Catalog, id: nat, d: Document)
    requires StockInv(s, c) && LinesTrackable(c, d.lines) && PostStock(s, c, id, d, false).Success?
    ensures PostStock(PostStock(s, c, id, d, false).value, c, id, d, true).Success?
    ensures var back := PostStock(PostStock(s, c, id, d, false).value, c, id, d, true).value;
            && (forall k :: Level(back, k) == Level(s, k))
            && (forall u :: u in s.units ==> u in back.units && back.units[u] == s.units[u])
            && (forall u :: u in back.units && u !in s.units ==> back.units[u] == SerialUnit(Voided, None, None))
  {
    var there := PostStock(s, c, id, d, false).value;
    if Direction(d.kind) != 0 && d.warehouse.Some? {
      PostingsOfTrackableFit(c, d);
      PostingsPositive(c, Trackable(d.lines), d.warehouse.value);
      GoodsMoveBack(s, c, id, d.kind, Postings(c, d), map[], PostedCosts(MovementsOf(there.movements, id)));
    }
  }
}
