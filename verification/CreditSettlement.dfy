/** Settlement: what credit notes write back against an invoice is always what it
    says was credited, and the payment status is always the stated function. */
module CreditSettlement {
  import opened Basics
  import opened DocumentTables
  import opened DocumentStock
  import opened LedgerTables
  import opened Ledger
  import opened Poster
  import opened Documents
  import opened Lifecycle
  import opened DocumentVouchers

  /** What one document writes back against another. */
  function Credit(docs: Docs, source: nat, i: nat): int {
    if i in docs && docs[i].source == Some(source) && docs[i].kind.CreditNote? && docs[i].status.SentDoc? then docs[i].settled else 0
  }

  /** What the sent credit notes against a document settled, all together. */
  function CreditedBy(docs: Docs, source: nat, n: nat): int {
    if n == 0 then 0 else CreditedBy(docs, source, n - 1) + Credit(docs, source, n - 1)
  }

  /** The settlement fields of one document: what it was credited with is what its
      credit notes settled; a sent credit note against an invoice settled its whole,
      positive total, and nothing else ever settles; no draft or void is paid. */
  ghost predicate Settled(docs: Docs, next: nat, id: nat)
    requires id in docs
  {
    var d := docs[id];
    && d.credited == CreditedBy(docs, id, next)
    && d.paid >= 0
    && (d.status.DraftDoc? || d.status.VoidDoc? ==> d.paid == 0)
    && d.paymentStatus == PaymentStatusOf(d.paid, d.credited, d.total)
    && d.settled == (if d.kind.CreditNote? && d.status.SentDoc? && d.source.Some? then d.total else 0)
    && d.settled >= 0
    && (d.kind.CreditNote? && d.status.SentDoc? && d.source.Some? ==> d.total > 0)
  }

  ghost predicate CreditInv(docs: Docs, next: nat) {
    forall id {:trigger Settled(docs, next, id)} :: id in docs ==> Settled(docs, next, id)
  }

  // -------------------------------------------------------------- sums of credit

  lemma {:induction false} OneCreditChanges(docs: Docs, docs': Docs, source: nat, id: nat, n: nat)
    requires forall i: nat :: i != id ==> Credit(docs', source, i) == Credit(docs, source, i)
    ensures CreditedBy(docs', source, n) == CreditedBy(docs, source, n) + if id < n then Credit(docs', source, id) - Credit(docs, source, id) else 0
  {
    if n > 0 {
      OneCreditChanges(docs, docs', source, id, n - 1);
    }
  }

  lemma {:induction false} CreditedNonNegative(docs: Docs, next: nat, source: nat, n: nat)
    requires CreditInv(docs, next)
    ensures CreditedBy(docs, source, n) >= 0
    ensures forall i: nat :: i < n ==> CreditedBy(docs, source, n) >= Credit(docs, source, i)
  {
    if n > 0 {
      CreditedNonNegative(docs, next, source, n - 1);
      assert n - 1 in docs ==> Settled(docs, next, n - 1);
    }
  }

  lemma {:induction false} NoCredits(docs: Docs, source: nat, n: nat)
    requires forall i: nat :: i < n ==> Credit(docs, source, i) == 0
    ensures CreditedBy(docs, source, n) == 0
  {
    if n > 0 {
      NoCredits(docs, source, n - 1);
    }
  }

  /** A document with nothing live behind it was credited with nothing. */
  lemma UncreditedWithoutDependents(docs: Docs, source: nat, n: nat)
    requires ActiveDependents(docs, source, None) == {}
    ensures CreditedBy(docs, source, n) == 0
  {
    forall i: nat ensures Credit(docs, source, i) == 0 {
      assert i !in ActiveDependents(docs, source, None);
    }
    NoCredits(docs, source, n);
  }

  /** Settlement depends only on these fields of a document. */
  predicate SameSettlement(d: Document, d': Document) {
    && d'.credited == d.credited && d'.paid == d.paid && d'.paymentStatus == d.paymentStatus && d'.settled == d.settled
    && d'.kind == d.kind && d'.source == d.source
  }

  // ------------------------------------------------------------------- the steps

  /** A change of one document that writes nothing back, before or after. */
  lemma SetKeepsCredits(docs: Docs, docs': Docs, next: nat, id: nat)
    requires CreditInv(docs, next) && id in docs && id in docs' && docs' == docs[id := docs'[id]]
    requires forall source: nat :: Credit(docs', source, id) == Credit(docs, source, id)
    requires Settled(docs', next, id)
    ensures CreditInv(docs', next)
  {
    forall x | x in docs' ensures Settled(docs', next, x) {
      if x != id {
        assert Settled(docs, next, x);
        OneCreditChanges(docs, docs', x, id, next);
      }
    }
  }

  lemma AddKeepsCredits(docs: Docs, next: nat, d: Document)
    requires LifecycleInv(docs, next) && CreditInv(docs, next)
    requires d.status.DraftDoc? && d.paid == 0 && d.credited == 0 && d.settled == 0 && d.paymentStatus.Unpaid?
    requires d.source != Some(next)
    ensures CreditInv(docs[next := d], next + 1)
  {
    var docs' := docs[next := d];
    forall x | x in docs' ensures Settled(docs', next + 1, x) {
      OneCreditChanges(docs, docs', x, next, next + 1);
      if x != next {
        assert Settled(docs, next, x);
      } else {
        forall i ensures i !in ActiveDependents(docs, next, None) {
          assert i in docs ==> Linked(docs, i);
        }
        UncreditedWithoutDependents(docs, next, next);
      }
    }
  }

  lemma UpdateKeepsCredits(o: Org, id: nat, u: DocUpdate)
    requires LifecycleInv(o.docs, o.next) && CreditInv(o.docs, o.next) && Update(o, id, u).Success?
    ensures CreditInv(Update(o, id, u).value.docs, o.next)
  {
    var docs' := Update(o, id, u).value.docs;
    assert Settled(o.docs, o.next, id);
    assert SameSettlement(o.docs[id], docs'[id]);
    DraftsHaveNoDependents(o.docs, o.next, id);
    UncreditedWithoutDependents(o.docs, id, o.next);
    assert Linked(o.docs, id);
    OneCreditChanges(o.docs, docs', id, id, o.next);
    SetKeepsCredits(o.docs, docs', o.next, id);
  }

  lemma PayKeepsCredits(o: Org, id: nat, docs': Docs, delta: int)
    requires CreditInv(o.docs, o.next) && id in o.docs && (o.docs[id].kind.Invoice? || o.docs[id].kind.Bill?)
    requires o.docs[id].paid + delta >= 0 && (delta > 0 ==> o.docs[id].status.SentDoc?)
    requires docs' == o.docs[id := ApplySettlement(o.docs[id], delta)]
    ensures CreditInv(docs', o.next)
  {
    assert Settled(o.docs, o.next, id);
    OneCreditChanges(o.docs, docs', id, id, o.next);
    SetKeepsCredits(o.docs, docs', o.next, id);
  }

  /** A finalized credit note against an invoice is worth something. */
  lemma FinalizedCreditPositive(o: Org, id: nat, filing: Filing)
    requires VouchersInv(o.docs, o.books.vouchers) && Finalize(o, id, filing).Success? && o.docs[id].kind.CreditNote?
    ensures o.docs[id].total > 0
  {
    var d, moves := FinalizeEffect(o, id, filing);
    DraftHasNoVoucher(o.docs, o.books.vouchers, id);
    var stock := Finalize(o, id, filing).value.stock;
    PostedCreditNotePositive(o.books, o.roles, id, d.(stockPosted := moves), StockValue(MovementsOf(stock.movements, id)), SourceMoved(o.docs, d));
  }

  /** An invoice is sent while anything is credited against it. */
  lemma CreditSourceIsSent(docs: Docs, d: Document)
    requires GuardSource(docs, d).Pass? && d.kind.CreditNote? && d.source.Some?
    ensures d.source.value in docs && docs[d.source.value].kind.Invoice? && docs[d.source.value].status.SentDoc?
  {
  }

  /** The document finalized, and what it is settled with. */
  lemma FinalizedSettles(docs: Docs, docs': Docs, next: nat, id: nat, d: Document, moves: bool, filing: Filing)
    requires LifecycleInv(docs, next) && CreditInv(docs, next) && id in docs && id in docs' && docs[id].status.DraftDoc?
    requires d.(warehouse := docs[id].warehouse) == docs[id] && GuardSource(docs, d).Pass?
    requires d.kind.CreditNote? ==> d.total > 0
    requires docs'[id] == FinalDocument(docs, d, moves, filing) && CreditedBy(docs', id, next) == CreditedBy(docs, id, next)
    ensures Settled(docs', next, id)
  {
    assert Settled(docs, next, id);
    if d.kind.CreditNote? && d.source.Some? {
      CreditSourceIsSent(docs, d);
    }
  }

  /** Every other document: only the credited invoice changes, by as much as was written
      back against it. */
  lemma OthersSettle(docs: Docs, docs': Docs, next: nat, d: Document, x: nat)
    requires LifecycleInv(docs, next) && CreditInv(docs, next) && x in docs && x in docs'
    requires GuardSource(docs, d).Pass? && SourcesAfter(docs, d).Success? && docs'[x] == SourcesAfter(docs, d).value[x]
    requires CreditedBy(docs', x, next) == CreditedBy(docs, x, next) + if d.kind.CreditNote? && d.source == Some(x) then d.total else 0
    requires d.kind.CreditNote? ==> d.total > 0
    ensures Settled(docs', next, x)
  {
    assert Settled(docs, next, x);
    CreditedNonNegative(docs, next, x, next);
    if d.source == Some(x) {
      if d.kind.CreditNote? {
        CreditSourceIsSent(docs, d);
      }
    }
  }

  lemma FinalizeKeepsCredits(o: Org, id: nat, filing: Filing)
    requires LifecycleInv(o.docs, o.next) && VouchersInv(o.docs, o.books.vouchers) && CreditInv(o.docs, o.next)
    requires Finalize(o, id, filing).Success?
    ensures CreditInv(Finalize(o, id, filing).value.docs, o.next)
  {
    var d, moves := FinalizeEffect(o, id, filing);
    var docs' := Finalize(o, id, filing).value.docs;
    assert d.kind.CreditNote? ==> d.total > 0 by {
      if d.kind.CreditNote? {
        FinalizedCreditPositive(o, id, filing);
      }
    }
    CreditsAfterFinalize(o.docs, docs', o.next, id, d, moves, filing);
  }

  lemma CreditsAfterFinalize(docs: Docs, docs': Docs, next: nat, id: nat, d: Document, moves: bool, filing: Filing)
    requires LifecycleInv(docs, next) && CreditInv(docs, next) && id in docs && docs[id].status.DraftDoc?
    requires d.(warehouse := docs[id].warehouse) == docs[id] && GuardSource(docs, d).Pass? && SourcesAfter(docs, d).Success?
    requires d.kind.CreditNote? ==> d.total > 0
    requires docs' == SourcesAfter(docs, d).value[id := FinalDocument(docs, d, moves, filing)]
    ensures CreditInv(docs', next)
  {
    SourcesAfterEffect(docs, d);
    assert Linked(docs, id);
    forall x | x in docs' ensures Settled(docs', next, x) {
      FinalizeCredits(docs, id, filing, d, moves, x);
      OneCreditChanges(docs, docs', x, id, next);
      if x == id {
        FinalizedSettles(docs, docs', next, id, d, moves, filing);
      } else {
        OthersSettle(docs, docs', next, d, x);
      }
    }
  }

  /** Finalizing changes what one document writes back, against its own source only. */
  lemma FinalizeCredits(docs: Docs, id: nat, filing: Filing, d: Document, moves: bool, x: nat)
    requires id in docs && docs[id].status.DraftDoc? && d.(warehouse := docs[id].warehouse) == docs[id]
    requires GuardSource(docs, d).Pass? && SourcesAfter(docs, d).Success?
    ensures var docs' := SourcesAfter(docs, d).value[id := FinalDocument(docs, d, moves, filing)];
            && (forall i: nat :: i != id ==> Credit(docs', x, i) == Credit(docs, x, i))
            && Credit(docs, x, id) == 0
            && Credit(docs', x, id) == if d.kind.CreditNote? && d.source == Some(x) then d.total else 0
  {
    var docs' := SourcesAfter(docs, d).value[id := FinalDocument(docs, d, moves, filing)];
    SourcesAfterEffect(docs, d);
    if d.kind.CreditNote? && d.source.Some? {
      CreditSourceIsSent(docs, d);
    }
    forall i: nat | i != id ensures Credit(docs', x, i) == Credit(docs, x, i) {
      if i in docs {
        assert docs'[i].(status := DraftDoc, credited := 0, paymentStatus := Unpaid) == docs[i].(status := DraftDoc, credited := 0, paymentStatus := Unpaid);
      }
    }
  }

  /** When a document that is void, or was a draft, leaves, nobody else's credit
      changes. */
  lemma LeaveKeepsCredits(docs: Docs, next: nat, id: nat, left: Docs)
    requires LifecycleInv(docs, next) && id in docs && Live(docs[id]) && Leaves(docs, id, left)
    requires CreditInv(left, next)
    ensures CreditInv(ReopenOrder(left, docs[id].source, id), next)
  {
    var docs' := ReopenOrder(left, docs[id].source, id);
    LeaveEffect(docs, next, id, left);
    forall x | x in docs' ensures Settled(docs', next, x) {
      assert Settled(left, next, x);
      assert docs'[x].(status := DraftDoc) == left[x].(status := DraftDoc);
      forall i: nat ensures Credit(docs', x, i) == Credit(left, x, i) {
        if i in left {
          assert docs'[i].(status := DraftDoc) == left[i].(status := DraftDoc);
        }
      }
      OneCreditChanges(left, docs', x, 0, next);
    }
  }

  /** A credit note's invoice gets its credit back when the note is voided. */
  lemma MarkedKeepsCredits(o: Org, id: nat, left: Docs)
    requires LifecycleInv(o.docs, o.next) && CreditInv(o.docs, o.next) && CheckVoid(o.docs, id).Pass?
    requires left == WithoutCredit(o.docs, o.docs[id])[id := VoidedDocument(o.docs[id])]
    ensures CreditInv(left, o.next)
  {
    assert Linked(o.docs, id);
    assert Settled(o.docs, o.next, id);
    if o.docs[id].settled > 0 {
      ClampNeverBites(o, id);
    }
    forall x | x in left ensures Settled(left, o.next, x) {
      assert Settled(o.docs, o.next, x);
      OneCreditChanges(o.docs, left, x, id, o.next);
    }
  }

  lemma VoidKeepsCredits(o: Org, id: nat)
    requires LifecycleInv(o.docs, o.next) && CreditInv(o.docs, o.next) && VoidDocument(o, id).Success?
    ensures CreditInv(VoidDocument(o, id).value.docs, o.next)
  {
    VoidEffect(o, id);
    var left := WithoutCredit(o.docs, o.docs[id])[id := VoidedDocument(o.docs[id])];
    assert Linked(o.docs, id);
    MarkedKeepsCredits(o, id, left);
    LeaveKeepsCredits(o.docs, o.next, id, left);
  }

  /** Taking a credit back never meets the clamp at zero: the invoice was credited with
      at least as much. */
  lemma ClampNeverBites(o: Org, id: nat)
    requires LifecycleInv(o.docs, o.next) && CreditInv(o.docs, o.next) && id in o.docs && o.docs[id].settled > 0
    ensures o.docs[id].source.Some? && o.docs[id].source.value in o.docs && o.docs[id].source.value != id
    ensures o.docs[o.docs[id].source.value].credited >= o.docs[id].settled
  {
    assert Linked(o.docs, id);
    assert Settled(o.docs, o.next, id);
    var s := o.docs[id].source.value;
    assert Settled(o.docs, o.next, s);
    CreditedNonNegative(o.docs, o.next, s, o.next);
    assert Credit(o.docs, s, id) == o.docs[id].settled;
  }

  lemma DeleteKeepsCredits(o: Org, id: nat)
    requires LifecycleInv(o.docs, o.next) && CreditInv(o.docs, o.next) && Delete(o, id).Success?
    ensures CreditInv(Delete(o, id).value.docs, o.next)
  {
    var left := o.docs - {id};
    forall x | x in left ensures Settled(left, o.next, x) {
      assert Settled(o.docs, o.next, x);
      OneCreditChanges(o.docs, left, x, id, o.next);
    }
    LeaveKeepsCredits(o.docs, o.next, id, left);
  }

  lemma CreateKeepsCredits(o: Org, kind: DocType, i: DocInput)
    requires LifecycleInv(o.docs, o.next) && CreditInv(o.docs, o.next) && Create(o, kind, i).Success?
    ensures CreditInv(Create(o, kind, i).value.docs, Create(o, kind, i).value.next)
  {
    AddKeepsCredits(o.docs, o.next, Create(o, kind, i).value.docs[o.next]);
  }

  lemma ConvertKeepsCredits(o: Org, id: nat, target: DocType, today: int)
    requires LifecycleInv(o.docs, o.next) && CreditInv(o.docs, o.next) && Convert(o, id, target, today).Success?
    ensures CreditInv(Convert(o, id, target, today).value.docs, Convert(o, id, target, today).value.next)
  {
    AddKeepsCredits(o.docs, o.next, Convert(o, id, target, today).value.docs[o.next]);
  }

  lemma PaymentKeepsCredits(o: Org, id: nat, amount: int)
    requires CreditInv(o.docs, o.next) && Pay(o, id, amount).Success?
    ensures CreditInv(Pay(o, id, amount).value.docs, o.next)
  {
    assert Settled(o.docs, o.next, id);
    PayKeepsCredits(o, id, Pay(o, id, amount).value.docs, amount);
  }

  lemma RefundKeepsCredits(o: Org, id: nat, amount: int)
    requires CreditInv(o.docs, o.next) && Unpay(o, id, amount).Success?
    ensures CreditInv(Unpay(o, id, amount).value.docs, o.next)
  {
    PayKeepsCredits(o, id, Unpay(o, id, amount).value.docs, -amount);
  }

  lemma DraftsKeepCredits(o: Org, op: OrgOp)
    requires LifecycleInv(o.docs, o.next) && CreditInv(o.docs, o.next) && OrgStep(o, op).Success?
    requires op.CreateOp? || op.UpdateOp? || op.ConvertOp? || op.DeleteOp?
    ensures CreditInv(OrgStep(o, op).value.docs, OrgStep(o, op).value.next)
  {
    match op
    case CreateOp(kind, input) => CreateKeepsCredits(o, kind, input);
    case UpdateOp(id, update) => UpdateKeepsCredits(o, id, update);
    case ConvertOp(id, target, today) => ConvertKeepsCredits(o, id, target, today);
    case DeleteOp(id) => DeleteKeepsCredits(o, id);
  }

  /** Every step keeps the settlement of every document. */
  lemma StepKeepsCredits(o: Org, op: OrgOp)
    requires LifecycleInv(o.docs, o.next) && VouchersInv(o.docs, o.books.vouchers) && CreditInv(o.docs, o.next)
    requires OrgStep(o, op).Success?
    ensures CreditInv(OrgStep(o, op).value.docs, OrgStep(o, op).value.next)
  {
    if LeavesDocs(op) {
      OtherStepsLeaveDocs(o, op);
    } else if op.FinalizeOp? {
      FinalizeKeepsCredits(o, op.id, op.filing);
    } else if op.VoidOp? {
      VoidKeepsCredits(o, op.id);
    } else if op.PayOp? {
      PaymentKeepsCredits(o, op.id, op.amount);
    } else if op.UnpayOp? {
      RefundKeepsCredits(o, op.id, op.amount);
    } else {
      DraftsKeepCredits(o, op);
    }
  }

  // ------------------------------------------------------- paid against total

  /** Settled within the total. */
  predicate WithinTotal(d: Document) {
    d.paid + d.credited <= d.total
  }

  /** What one step may do to a document's settlement, payments aside. */
  predicate StaysWithin(d: Document, d': Document) {
    && (d'.credited > d.credited ==> WithinTotal(d'))
    && (WithinTotal(d) && d.status.SentDoc? ==> WithinTotal(d'))
  }

  lemma FinalizeStaysWithin(docs: Docs, next: nat, d: Document, x: nat)
    requires LifecycleInv(docs, next) && CreditInv(docs, next) && x in docs
    requires GuardSource(docs, d).Pass? && SourcesAfter(docs, d).Success?
    ensures x in SourcesAfter(docs, d).value && StaysWithin(docs[x], SourcesAfter(docs, d).value[x])
  {
    assert Settled(docs, next, x);
    CreditedNonNegative(docs, next, x, next);
    if d.source == Some(x) && d.kind.CreditNote? {
      CreditSourceIsSent(docs, d);
    }
  }

  lemma LeavingStaysWithin(docs: Docs, next: nat, id: nat, left: Docs, x: nat)
    requires LifecycleInv(docs, next) && id in docs && Live(docs[id]) && Leaves(docs, id, left)
    requires x in docs && x in left && left[x].credited <= docs[x].credited && left[x].paid == docs[x].paid && left[x].total == docs[x].total
    ensures x in ReopenOrder(left, docs[id].source, id) && StaysWithin(docs[x], ReopenOrder(left, docs[id].source, id)[x])
  {
    LeaveEffect(docs, next, id, left);
    assert ReopenOrder(left, docs[id].source, id)[x].(status := DraftDoc) == left[x].(status := DraftDoc);
  }

  lemma VoidStaysWithin(o: Org, id: nat, x: nat)
    requires LifecycleInv(o.docs, o.next) && CreditInv(o.docs, o.next) && VoidDocument(o, id).Success? && x in o.docs
    ensures x in VoidDocument(o, id).value.docs && StaysWithin(o.docs[x], VoidDocument(o, id).value.docs[x])
  {
    VoidEffect(o, id);
    var d := o.docs[id];
    assert Linked(o.docs, id);
    assert Settled(o.docs, o.next, x);
    CreditedNonNegative(o.docs, o.next, x, o.next);
    LeavingStaysWithin(o.docs, o.next, id, WithoutCredit(o.docs, d)[id := VoidedDocument(d)], x);
  }

  lemma DraftsStayWithin(o: Org, op: OrgOp, x: nat)
    requires OrgStep(o, op).Success? && (op.CreateOp? || op.UpdateOp? || op.ConvertOp? || op.UnpayOp?)
    requires CreditInv(o.docs, o.next) && LifecycleInv(o.docs, o.next) && x in o.docs
    ensures x in OrgStep(o, op).value.docs && StaysWithin(o.docs[x], OrgStep(o, op).value.docs[x])
  {
    assert Settled(o.docs, o.next, x);
  }

  lemma FinalizingStaysWithin(o: Org, id: nat, filing: Filing, x: nat)
    requires LifecycleInv(o.docs, o.next) && CreditInv(o.docs, o.next) && Finalize(o, id, filing).Success? && x in o.docs
    ensures x in Finalize(o, id, filing).value.docs && StaysWithin(o.docs[x], Finalize(o, id, filing).value.docs[x])
  {
    var d, moves := FinalizeEffect(o, id, filing);
    FinalizeStaysWithin(o.docs, o.next, d, x);
  }

  /** No credit step takes an invoice beyond its total: whatever was credited is
      within it at that moment, and every step but a payment leaves a sent document
      within its total if it was. */
  lemma CreditsStayWithin(o: Org, op: OrgOp, x: nat)
    requires LifecycleInv(o.docs, o.next) && CreditInv(o.docs, o.next)
    requires OrgStep(o, op).Success? && !op.PayOp? && x in o.docs && x in OrgStep(o, op).value.docs
    ensures StaysWithin(o.docs[x], OrgStep(o, op).value.docs[x])
  {
    if LeavesDocs(op) {
      OtherStepsLeaveDocs(o, op);
    } else if op.FinalizeOp? {
      FinalizingStaysWithin(o, op.id, op.filing, x);
    } else if op.VoidOp? {
      VoidStaysWithin(o, op.id, x);
    } else if op.DeleteOp? {
      LeavingStaysWithin(o.docs, o.next, op.id, o.docs - {op.id}, x);
    } else {
      DraftsStayWithin(o, op, x);
    }
  }

  /** A payment is checked against what is unpaid, not against what is due: it takes an
      invoice beyond its total exactly when it is more than the balance after credits. */
  lemma PaymentsIgnoreCredits(o: Org, id: nat, amount: int)
    requires CreditInv(o.docs, o.next) && Pay(o, id, amount).Success?
    ensures WithinTotal(Pay(o, id, amount).value.docs[id]) <==> amount <= BalanceDue(o.docs[id])
  {
    assert Settled(o.docs, o.next, id);
  }

  /** So an invoice that was credited and then paid in full is over-settled. */
  lemma FullPaymentOverSettles(o: Org, id: nat)
    requires CreditInv(o.docs, o.next) && id in o.docs && o.docs[id].kind.Invoice? && o.docs[id].status.SentDoc?
    requires o.docs[id].paid < o.docs[id].total
    ensures Pay(o, id, o.docs[id].total - o.docs[id].paid).Success?
    ensures WithinTotal(Pay(o, id, o.docs[id].total - o.docs[id].paid).value.docs[id]) <==> o.docs[id].credited == 0
  {
    assert Settled(o.docs, o.next, id);
    CreditedNonNegative(o.docs, o.next, id, o.next);
  }
}
