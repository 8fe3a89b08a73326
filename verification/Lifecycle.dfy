/** Documents and what came from them: in every reachable state a document has at most
    one live dependent, drafts and voids have none, and an order is closed exactly
    when its dependent is finalized. */
module Lifecycle {
  import opened Basics
  import opened DocumentTables
  import opened Pricing
  import opened DocumentStock
  import opened Documents

  /** The standing of one document among the others. */
  ghost predicate Linked(docs: Docs, id: nat)
    requires id in docs
  {
    var d := docs[id];
    && (d.source.Some? ==> d.source.value < id)
    && (Live(d) && d.source.Some? ==>
          d.source.value in docs && Converts(docs[d.source.value].kind, d.kind) && ActiveSource(docs[d.source.value]))
    && (forall i, j :: i in ActiveDependents(docs, id, None) && j in ActiveDependents(docs, id, None) ==> i == j)
    && (d.status.ClosedDoc? <==> IsOrder(d.kind) && exists i :: i in ActiveDependents(docs, id, None) && docs[i].status.SentDoc?)
  }

  ghost predicate LifecycleInv(docs: Docs, next: nat) {
    && (forall id :: id in docs ==> id < next)
    && (forall id {:trigger Linked(docs, id)} :: id in docs ==> Linked(docs, id))
  }

  /** A draft or a void document has nothing live that came from it. */
  lemma DraftsHaveNoDependents(docs: Docs, next: nat, id: nat)
    requires LifecycleInv(docs, next) && id in docs && (docs[id].status.DraftDoc? || docs[id].status.VoidDoc?)
    ensures ActiveDependents(docs, id, None) == {}
  {
    forall i ensures i !in ActiveDependents(docs, id, None) {
      assert i in docs ==> Linked(docs, i);
    }
  }

  /** Changes that touch neither what a document came from nor whether it is live. */
  ghost predicate SameLinks(docs: Docs, docs': Docs) {
    && docs'.Keys == docs.Keys
    && forall id :: id in docs ==>
         docs'[id].source == docs[id].source && docs'[id].kind == docs[id].kind && Live(docs'[id]) == Live(docs[id])
  }

  lemma SameDependents(docs: Docs, docs': Docs, id: nat)
    requires SameLinks(docs, docs')
    ensures ActiveDependents(docs', id, None) == ActiveDependents(docs, id, None)
  {
  }

  /** Nothing about the links or the statuses changed. */
  lemma SameStatusKeeps(docs: Docs, docs': Docs, next: nat)
    requires LifecycleInv(docs, next) && SameLinks(docs, docs')
    requires forall id :: id in docs ==> docs'[id].status == docs[id].status
    ensures LifecycleInv(docs', next)
  {
    forall id | id in docs' ensures Linked(docs', id) {
      assert Linked(docs, id);
      SameDependents(docs, docs', id);
      forall i | i in ActiveDependents(docs, id, None) ensures docs'[i].status == docs[i].status {
      }
    }
  }

  /** A new draft, standing alone or converted from a document with no live dependent. */
  lemma AddDraftKeeps(docs: Docs, next: nat, d: Document)
    requires LifecycleInv(docs, next) && d.status.DraftDoc?
    requires d.source.Some? ==>
               && d.source.value in docs && docs[d.source.value].status.SentDoc?
               && Converts(docs[d.source.value].kind, d.kind) && ActiveDependents(docs, d.source.value, None) == {}
    ensures LifecycleInv(docs[next := d], next + 1)
  {
    var docs' := docs[next := d];
    forall id | id in docs' ensures Linked(docs', id) {
      var before, after := ActiveDependents(docs, id, None), ActiveDependents(docs', id, None);
      assert after == if d.source == Some(id) then before + {next} else before;
      if id == next {
        forall i ensures i !in before {
          assert i in docs ==> Linked(docs, i);
        }
      } else {
        assert Linked(docs, id);
        assert forall i :: i in before ==> docs'[i] == docs[i];
        if docs[id].source.Some? && Live(docs[id]) {
          assert docs[id].source.value != next;
        }
      }
    }
  }

  /** A draft that becomes sent, closing the order it came from. */
  lemma SendKeeps(docs: Docs, next: nat, id: nat, docs': Docs)
    requires LifecycleInv(docs, next) && id in docs && docs[id].status.DraftDoc? && SameLinks(docs, docs')
    requires docs'[id].status.SentDoc?
    requires forall i :: i in docs && i != id ==>
               docs'[i].status == if docs[id].source == Some(i) && IsOrder(docs[i].kind) then ClosedDoc else docs[i].status
    ensures LifecycleInv(docs', next)
  {
    forall x | x in docs' ensures Linked(docs', x) {
      assert Linked(docs, x);
      assert Linked(docs, id);
      SameDependents(docs, docs', x);
      var dependents := ActiveDependents(docs, x, None);
      if docs[id].source == Some(x) {
        assert id in dependents;
        assert x != id;
      } else {
        assert id !in dependents;
        if x == id {
          DraftsHaveNoDependents(docs, next, id);
        }
        forall i | i in dependents ensures docs'[i].status.SentDoc? <==> docs[i].status.SentDoc? {
          if docs[id].source == Some(i) && IsOrder(docs[i].kind) {
            assert Linked(docs, i);
            assert docs[i].source == Some(x);
            OrdersHaveNoSource(docs, i);
          }
        }
      }
      if docs[x].source.Some? && Live(docs[x]) {
        assert docs[x].source.value in docs;
      }
    }
  }

  lemma OrdersHaveNoSource(docs: Docs, i: nat)
    requires i in docs && Linked(docs, i) && Live(docs[i]) && IsOrder(docs[i].kind)
    ensures docs[i].source.None?
  {
  }

  /** One document gone or void, the others as they were. */
  ghost predicate Leaves(docs: Docs, id: nat, left: Docs)
    requires id in docs
  {
    && (id in left ==> left[id].status.VoidDoc? && left[id].source == docs[id].source && left[id].kind == docs[id].kind)
    && (forall i :: i in left ==> i in docs)
    && (forall i :: i in docs && i != id ==>
          i in left && left[i].source == docs[i].source && left[i].kind == docs[i].kind && left[i].status == docs[i].status)
  }

  /** A document without live dependents leaves: it is voided or, as a draft, deleted;
      the order it closed reopens. */
  lemma LeaveKeeps(docs: Docs, next: nat, id: nat, left: Docs)
    requires LifecycleInv(docs, next) && id in docs && Live(docs[id]) && ActiveDependents(docs, id, None) == {}
    requires Leaves(docs, id, left)
    ensures LifecycleInv(ReopenOrder(left, docs[id].source, id), next)
  {
    LeaveEffect(docs, next, id, left);
    forall x | x in left ensures Linked(ReopenOrder(left, docs[id].source, id), x) {
      LeaveLinked(docs, next, id, left, x);
    }
  }

  lemma LeaveLinked(docs: Docs, next: nat, id: nat, left: Docs, x: nat)
    requires LifecycleInv(docs, next) && id in docs && Live(docs[id]) && ActiveDependents(docs, id, None) == {}
    requires Leaves(docs, id, left) && x in left
    ensures x in ReopenOrder(left, docs[id].source, id) && Linked(ReopenOrder(left, docs[id].source, id), x)
  {
    var docs' := ReopenOrder(left, docs[id].source, id);
    LeaveEffect(docs, next, id, left);
    LeaveDependents(docs, next, id, left, x);
    assert Linked(docs, x);
    var after := ActiveDependents(docs', x, None);
    assert docs[x].source == Some(id) ==> !Live(docs[x]) by {
      assert x !in ActiveDependents(docs, id, None);
    }
    forall i | i in after ensures docs'[i].status == docs[i].status {
      assert Linked(docs, i);
    }
  }

  lemma LeavingEmptiesSource(docs: Docs, next: nat, id: nat, left: Docs, s: nat)
    requires LifecycleInv(docs, next) && id in docs && Live(docs[id]) && docs[id].source == Some(s)
    requires Leaves(docs, id, left)
    ensures s in docs && s in left && s != id && ActiveDependents(left, s, Some(id)) == {}
  {
    assert Linked(docs, id);
    assert Linked(docs, s);
    assert id in ActiveDependents(docs, s, None);
    forall i ensures i !in ActiveDependents(left, s, Some(id)) {
      assert i in left && i != id ==> Live(left[i]) == Live(docs[i]);
      assert i in ActiveDependents(left, s, Some(id)) ==> i in ActiveDependents(docs, s, None);
    }
  }

  /** When a document leaves, only it and its order change. */
  lemma LeaveEffect(docs: Docs, next: nat, id: nat, left: Docs)
    requires LifecycleInv(docs, next) && id in docs && Live(docs[id])
    requires Leaves(docs, id, left)
    ensures var docs' := ReopenOrder(left, docs[id].source, id);
            && docs'.Keys == left.Keys
            && (forall i :: i in left ==> docs'[i].(status := DraftDoc) == left[i].(status := DraftDoc))
            && (forall i :: i in left ==>
                  docs'[i].status == if docs[id].source == Some(i) && IsOrder(left[i].kind) && left[i].status.ClosedDoc? then SentDoc else left[i].status)
            && (docs[id].source.Some? ==> docs[id].source.value in left && docs[id].source.value != id)
  {
    if docs[id].source.Some? {
      LeavingEmptiesSource(docs, next, id, left, docs[id].source.value);
    }
  }

  lemma LeaveDependents(docs: Docs, next: nat, id: nat, left: Docs, x: nat)
    requires LifecycleInv(docs, next) && id in docs && Live(docs[id]) && ActiveDependents(docs, id, None) == {}
    requires Leaves(docs, id, left)
    ensures ActiveDependents(ReopenOrder(left, docs[id].source, id), x, None) == ActiveDependents(docs, x, None) - {id}
    ensures docs[id].source == Some(x) && x in docs ==> ActiveDependents(ReopenOrder(left, docs[id].source, id), x, None) == {}
  {
    var docs' := ReopenOrder(left, docs[id].source, id);
    LeaveEffect(docs, next, id, left);
    DependentsAfterLeaving(docs, id, left, docs', x);
    if docs[id].source == Some(x) && x in docs {
      assert Linked(docs, x);
      assert id in ActiveDependents(docs, x, None);
    }
  }

  lemma DependentsAfterLeaving(docs: Docs, id: nat, left: Docs, docs': Docs, x: nat)
    requires id in docs && Leaves(docs, id, left) && docs'.Keys == left.Keys
    requires forall i :: i in left ==> docs'[i].(status := DraftDoc) == left[i].(status := DraftDoc) && (Live(docs'[i]) <==> Live(left[i]))
    ensures ActiveDependents(docs', x, None) == ActiveDependents(docs, x, None) - {id}
  {
    forall i ensures i in ActiveDependents(docs', x, None) <==> i in ActiveDependents(docs, x, None) - {id} {
      if i in left {
        assert docs'[i].(status := DraftDoc) == left[i].(status := DraftDoc);
      }
    }
  }

  // ------------------------------------------------------------ the operations

  lemma ConvertKeepsLifecycle(o: Org, id: nat, target: DocType, today: int)
    requires LifecycleInv(o.docs, o.next) && Convert(o, id, target, today).Success?
    ensures LifecycleInv(Convert(o, id, target, today).value.docs, Convert(o, id, target, today).value.next)
  {
    var o' := Convert(o, id, target, today).value;
    AddDraftKeeps(o.docs, o.next, o'.docs[o.next]);
  }

  /** What passing the checks of `finalize` says of the draft. */
  lemma ReadyEffect(o: Org, id: nat) returns (d: Document)
    requires ReadyToFinalize(o, id).Success?
    ensures ReadyToFinalize(o, id) == Success(d)
    ensures id in o.docs && o.docs[id].status.DraftDoc? && d.(warehouse := o.docs[id].warehouse) == o.docs[id]
    ensures GuardSource(o.docs, d).Pass?
  {
    d := ReadyToFinalize(o, id).value;
    assert GuardSource(o.docs, o.docs[id]).Pass?;
  }

  /** The documents after `finalize`: the draft is sent, its source credited or closed,
      and no other document changes. */
  lemma FinalizeEffect(o: Org, id: nat, filing: Filing) returns (d: Document, moves: bool)
    requires Finalize(o, id, filing).Success?
    ensures ReadyToFinalize(o, id) == Success(d) && moves == MovesStock(o.docs, d)
    ensures id in o.docs && o.docs[id].status.DraftDoc? && d.(warehouse := o.docs[id].warehouse) == o.docs[id]
    ensures GuardSource(o.docs, d).Pass?
    ensures SourcesAfter(o.docs, d).Success?
    ensures Finalize(o, id, filing).value.docs == SourcesAfter(o.docs, d).value[id := FinalDocument(o.docs, d, moves, filing)]
    ensures Finalize(o, id, filing).value.next == o.next && Finalize(o, id, filing).value.rates == o.rates
  {
    d := ReadyEffect(o, id);
    moves := MovesStock(o.docs, d);
  }

  lemma SourceAfterEffect(source: Document, d: Document)
    requires SourceAfter(source, d).Success?
    ensures var s := SourceAfter(source, d).value;
            && s.(status := DraftDoc, credited := 0, paymentStatus := Unpaid) == source.(status := DraftDoc, credited := 0, paymentStatus := Unpaid)
            && s.status == if IsOrder(source.kind) then ClosedDoc else source.status
  {
  }

  lemma SourcesAfterEffect(docs: Docs, d: Document)
    requires SourcesAfter(docs, d).Success?
    ensures var docs' := SourcesAfter(docs, d).value;
            && docs'.Keys == docs.Keys
            && (forall i :: i in docs && d.source != Some(i) ==> docs'[i] == docs[i])
            && (forall i :: i in docs ==> docs'[i].(status := DraftDoc, credited := 0, paymentStatus := Unpaid)
                                          == docs[i].(status := DraftDoc, credited := 0, paymentStatus := Unpaid))
            && (forall i :: i in docs ==> docs'[i].status == if d.source == Some(i) && IsOrder(docs[i].kind) then ClosedDoc else docs[i].status)
  {
    if d.source.Some? && d.source.value in docs {
      SourceAfterEffect(docs[d.source.value], d);
    }
  }

  lemma FinalizeKeepsLifecycle(o: Org, id: nat, filing: Filing)
    requires LifecycleInv(o.docs, o.next) && Finalize(o, id, filing).Success?
    ensures LifecycleInv(Finalize(o, id, filing).value.docs, Finalize(o, id, filing).value.next)
  {
    var d, moves := FinalizeEffect(o, id, filing);
    SentIsLive(o.docs, d, moves, filing);
    SendingKeeps(o.docs, o.next, id, d, FinalDocument(o.docs, d, moves, filing));
  }

  lemma SendingKeeps(docs: Docs, next: nat, id: nat, d: Document, sent: Document)
    requires LifecycleInv(docs, next) && id in docs && docs[id].status.DraftDoc? && d.(warehouse := docs[id].warehouse) == docs[id]
    requires GuardSource(docs, d).Pass? && SourcesAfter(docs, d).Success?
    requires sent.status.SentDoc? && sent.source == d.source && sent.kind == d.kind
    ensures LifecycleInv(SourcesAfter(docs, d).value[id := sent], next)
  {
    var docs' := SourcesAfter(docs, d).value[id := sent];
    SourcesAfterEffect(docs, d);
    assert Linked(docs, id);
    assert SameLinks(docs, docs') by {
      SourcesKeepLinks(docs, d);
    }
    SendKeeps(docs, next, id, docs');
  }

  lemma SourcesKeepLinks(docs: Docs, d: Document)
    requires GuardSource(docs, d).Pass? && SourcesAfter(docs, d).Success?
    ensures SameLinks(docs, SourcesAfter(docs, d).value)
  {
    SourcesAfterEffect(docs, d);
    var docs' := SourcesAfter(docs, d).value;
    forall i | i in docs ensures docs'[i].source == docs[i].source && docs'[i].kind == docs[i].kind && Live(docs'[i]) == Live(docs[i]) {
      assert docs'[i].(status := DraftDoc, credited := 0, paymentStatus := Unpaid) == docs[i].(status := DraftDoc, credited := 0, paymentStatus := Unpaid);
    }
  }

  lemma SentIsLive(docs: Docs, d: Document, moves: bool, filing: Filing)
    ensures var f := FinalDocument(docs, d, moves, filing);
            f.status.SentDoc? && f.source == d.source && f.kind == d.kind && f.lines == d.lines && f.party == d.party && f.warehouse == d.warehouse
  {
  }

  lemma VoidEffect(o: Org, id: nat)
    requires VoidDocument(o, id).Success?
    ensures CheckVoid(o.docs, id).Pass? && id in o.docs
    ensures var d := o.docs[id];
            VoidDocument(o, id).value.docs == ReopenOrder(WithoutCredit(o.docs, d)[id := VoidedDocument(d)], d.source, id)
    ensures VoidDocument(o, id).value.next == o.next
  {
  }

  lemma VoidKeepsLifecycle(o: Org, id: nat)
    requires LifecycleInv(o.docs, o.next) && VoidDocument(o, id).Success?
    ensures LifecycleInv(VoidDocument(o, id).value.docs, VoidDocument(o, id).value.next)
  {
    VoidEffect(o, id);
    var d := o.docs[id];
    assert Linked(o.docs, id);
    LeaveKeeps(o.docs, o.next, id, WithoutCredit(o.docs, d)[id := VoidedDocument(d)]);
  }

  lemma DeleteKeepsLifecycle(o: Org, id: nat)
    requires LifecycleInv(o.docs, o.next) && Delete(o, id).Success?
    ensures LifecycleInv(Delete(o, id).value.docs, Delete(o, id).value.next)
  {
    DraftsHaveNoDependents(o.docs, o.next, id);
    LeaveKeeps(o.docs, o.next, id, o.docs - {id});
  }

  lemma CreateKeepsLifecycle(o: Org, kind: DocType, i: DocInput)
    requires LifecycleInv(o.docs, o.next) && Create(o, kind, i).Success?
    ensures LifecycleInv(Create(o, kind, i).value.docs, Create(o, kind, i).value.next)
  {
    AddDraftKeeps(o.docs, o.next, Create(o, kind, i).value.docs[o.next]);
  }

  lemma UpdateKeepsLifecycle(o: Org, id: nat, u: DocUpdate)
    requires LifecycleInv(o.docs, o.next) && Update(o, id, u).Success?
    ensures LifecycleInv(Update(o, id, u).value.docs, o.next)
  {
    SameStatusKeeps(o.docs, Update(o, id, u).value.docs, o.next);
  }

  lemma SettlementKeepsLifecycle(docs: Docs, next: nat, id: nat, delta: int)
    requires LifecycleInv(docs, next) && id in docs
    ensures LifecycleInv(docs[id := ApplySettlement(docs[id], delta)], next)
  {
    SameStatusKeeps(docs, docs[id := ApplySettlement(docs[id], delta)], next);
  }

  /** Every step keeps the chains of documents in order. */
  lemma StepKeepsLifecycle(o: Org, op: OrgOp)
    requires LifecycleInv(o.docs, o.next) && OrgStep(o, op).Success?
    ensures LifecycleInv(OrgStep(o, op).value.docs, OrgStep(o, op).value.next)
  {
    if LeavesDocs(op) {
      OtherStepsLeaveDocs(o, op);
    } else {
      match op
      case ConvertOp(id, target, today) => ConvertKeepsLifecycle(o, id, target, today);
      case FinalizeOp(id, filing) => FinalizeKeepsLifecycle(o, id, filing);
      case VoidOp(id) => VoidKeepsLifecycle(o, id);
      case DeleteOp(id) => DeleteKeepsLifecycle(o, id);
      case CreateOp(kind, input) => CreateKeepsLifecycle(o, kind, input);
      case UpdateOp(id, update) => UpdateKeepsLifecycle(o, id, update);
      case PayOp(id, amount) => SettlementKeepsLifecycle(o.docs, o.next, id, amount);
      case UnpayOp(id, amount) => SettlementKeepsLifecycle(o.docs, o.next, id, -amount);
      case _ =>
    }
  }

  /** When the dependent of a document leaves, nothing is left behind it but a sent
      document. */
  lemma LeavingFreesSource(docs: Docs, next: nat, id: nat, left: Docs, s: nat)
    requires LifecycleInv(docs, next) && id in docs && Live(docs[id]) && ActiveDependents(docs, id, None) == {}
    requires Leaves(docs, id, left) && docs[id].source == Some(s)
    ensures var docs' := ReopenOrder(left, docs[id].source, id);
            s in docs' && docs'[s].status.SentDoc? && ActiveDependents(docs', s, None) == {}
  {
    assert Linked(docs, id);
    LeavingEmptiesSource(docs, next, id, left, s);
    LeaveEffect(docs, next, id, left);
    LeaveDependents(docs, next, id, left, s);
  }

  /** So when the dependent of an order leaves, the order can be converted again. */
  lemma ReopenedOrderConverts(o: Org, op: OrgOp, id: nat, s: nat)
    requires LifecycleInv(o.docs, o.next) && (op == VoidOp(id) || op == DeleteOp(id)) && OrgStep(o, op).Success?
    requires id in o.docs && o.docs[id].source == Some(s)
    ensures var docs' := OrgStep(o, op).value.docs;
            s in docs' && docs'[s].status.SentDoc? && ActiveDependents(docs', s, None) == {}
  {
    var d := o.docs[id];
    assert Linked(o.docs, id);
    if op == VoidOp(id) {
      VoidEffect(o, id);
      LeavingFreesSource(o.docs, o.next, id, WithoutCredit(o.docs, d)[id := VoidedDocument(d)], s);
    } else {
      DraftsHaveNoDependents(o.docs, o.next, id);
      LeavingFreesSource(o.docs, o.next, id, o.docs - {id}, s);
    }
  }
}
