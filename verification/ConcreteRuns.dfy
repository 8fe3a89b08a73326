/** Two runs from a new organization that reach what the rules were meant to keep out: an
    invoice settled twice over, and a void invoice whose posting still stands. */
module ConcreteRuns {
  import opened Basics
  import opened Rounding
  import opened SerialNumbers
  import opened StockTables
  import opened DocumentTables
  import opened Pricing
  import opened DocumentStock
  import opened LedgerTables
  import opened Ledger
  import opened ReversalChains
  import opened Poster
  import opened Documents
  import opened Lifecycle
  import opened DocumentVouchers
  import opened OrgInvariant

  // ---------------------------------------------------------------- a small shop

  const Customer: nat := 7
  const Accounts: map<nat, Account> := map[1 := Account(None, "1100", Asset, true, true, true),
                                           2 := Account(None, "4000", Income, false, true, true),
                                           3 := Account(None, "4900", Income, false, true, true)]
  const FirstBooks: Books := Books(Accounts, {Customer}, map[1 := FiscalYear(1, 365, true)], [Period(1, 1, 365, Open)], [], [])
  const Shop: Org := Org(Catalog(map[], map[], map[], map[], None), EmptyStock, FirstBooks,
                         map[Receivable := 1, Revenue := 2, Returns := 3], map[], 0, map[])

  /** One hour of work at a hundred, with nothing to move and nothing to tax. */
  const Work: LineInput := LineInput(None, None, "work", 1000, 10000, Amount, 0, None, [], [])
  const WorkLine: DocLine := DocLine(Work, 0, 0, 10000)

  function Paper(kind: DocType, status: DocStatus, source: Option<nat>, moved: bool): Document {
    Document(kind, status, Some(Customer), None, 10, source, [WorkLine], 10000, 0, 0, 0, 0, 10000, 0, 0, Unpaid, 0, moved, false, None)
  }

  const NewInvoice: OrgOp := OrgOp.CreateOp(Invoice, DocInput(Some(Customer), None, 10, 0, 0, [Work], None))

  // ------------------------------------------------------------------- its steps

  lemma {:induction false} RunAppend(o: Org, ops: seq<OrgOp>, op: OrgOp)
    ensures OrgRun(o, ops + [op]) == OrgRun(OrgRun(o, ops), [op])
    decreases |ops|
  {
    if ops == [] {
      assert [] + [op] == [op];
    } else {
      var r := OrgStep(o, ops[0]);
      assert (ops + [op])[0] == ops[0] && (ops + [op])[1..] == ops[1..] + [op];
      RunAppend(if r.Success? then r.value else o, ops[1..], op);
    }
  }

  /** One accepted step more. */
  lemma OneStep(o: Org, ops: seq<OrgOp>, op: OrgOp, before: Org, after: Org, all: seq<OrgOp>)
    requires OrgRun(o, ops) == before && OrgStep(before, op) == Success(after) && all == ops + [op]
    ensures OrgRun(o, all) == after
  {
    RunAppend(o, ops, op);
    assert [op][1..] == [];
    assert OrgRun(after, []) == after;
  }

  lemma WorkIsWorth()
    ensures Base(Work) == 10000 && PricedLine(Work, map[]) == WorkLine
    ensures SubtotalOf([WorkLine]) == 10000 && DiscountTotalOf([WorkLine]) == 0 && TaxTotalOf([WorkLine]) == 0
  {
    assert HalfEven(10000000, 1000) == 10000 && HalfEven(0, 100000) == 0;
    assert DiscountOf(Work) == 0;
    assert [WorkLine][..0] == [];
    assert SubtotalOf([]) == 0 && DiscountTotalOf([]) == 0 && TaxTotalOf([]) == 0;
  }

  lemma WorkPriced(kind: DocType)
    ensures BuildLines(Shop.catalog, map[], kind, [Work]) == Success([WorkLine])
  {
    WorkIsWorth();
    assert Work.(serials := []) == Work;
    assert BuildLine(Shop.catalog, map[], kind, Work) == Success(WorkLine);
    assert [Work][..0] == [] && BuildEach(Shop.catalog, map[], kind, []) == Success([]);
    assert BuildEach(Shop.catalog, map[], kind, [Work]) == Success([] + [WorkLine]);
    assert [] + [WorkLine] == [WorkLine] && LinesKnown(Shop.catalog, map[], [Work]);
  }

  lemma PaperDrafted(kind: DocType, source: Option<nat>)
    ensures NewDocument(kind, Some(Customer), None, 10, source, [WorkLine], 0, 0, None) == Paper(kind, DraftDoc, source, false)
  {
    WorkIsWorth();
  }

  lemma InvoiceDrafted()
    ensures Create(Shop, Invoice, NewInvoice.input) == Success(Shop.(docs := map[0 := Paper(Invoice, DraftDoc, None, false)], next := 1))
  {
    WorkPriced(Invoice);
    PaperDrafted(Invoice, None);
    assert CheckLineBins(Shop.catalog, Invoice, None, [WorkLine]) == Pass;
    var drafted: Docs := map[0 := Paper(Invoice, DraftDoc, None, false)];
    assert Shop.docs[0 := Paper(Invoice, DraftDoc, None, false)] == drafted;
  }

  /** Books that differ from the first only by what was posted. */
  predicate Running(b: Books) {
    b.(vouchers := [], entries := []) == FirstBooks
  }

  /** A hundred from one account to another. */
  predicate Moves(lines: seq<Line>) {
    && |lines| == 2
    && (forall i :: 0 <= i < 2 ==> 1 <= lines[i].account <= 3 && (lines[i].party.Some? ==> lines[i].party.value == Customer))
    && (|| (lines[0].debit == 1000000 && lines[0].credit == 0 && lines[1].debit == 0 && lines[1].credit == 1000000)
        || (lines[1].debit == 1000000 && lines[1].credit == 0 && lines[0].debit == 0 && lines[0].credit == 1000000))
  }

  lemma MovesIsValid(b: Books, lines: seq<Line>)
    requires Running(b) && Moves(lines)
    ensures ValidateLines(b, lines, true).Pass?
  {
    assert lines[..1] == [lines[0]] && lines[..1][..0] == [];
    assert TotalDebit(lines[..1]) == lines[0].debit && TotalCredit(lines[..1]) == lines[0].credit;
  }

  lemma Posts(b: Books, kind: VoucherType, lines: seq<Line>, source: Source)
    requires Running(b) && Moves(lines)
    ensures var r := PostVoucher(b, kind, 10, lines, source, true);
            r.Success? && Running(r.value) && r.value.vouchers == b.vouchers + [Voucher(kind, 10, Posted, source, lines, None, 1)]
  {
    MovesIsValid(b, lines);
    assert OpenPeriod(b, 10) == Success(Period(1, 1, 365, Open));
    var drafted := CreateVoucher(b, kind, 10, lines, source, true).value;
    MovesIsValid(drafted, lines);
    assert OpenPeriod(drafted, 10) == Success(Period(1, 1, 365, Open));
  }

  /** What finalizing a paper of the shop asks of the books. */
  function LinesOf(kind: DocType): seq<Line> {
    if kind.Invoice? then [Line(1, Some(Customer), 1000000, 0), Line(2, None, 0, 1000000)]
    else [Line(1, Some(Customer), 0, 1000000), Line(3, None, 1000000, 0)]
  }

  function VoucherOf(kind: DocType, id: nat): Voucher {
    Voucher(VoucherKindOf(kind), 10, Posted, DocSource(id), LinesOf(kind), None, 1)
  }

  lemma {:induction false} NothingToMove(id: nat, d: Document, reverse: bool)
    requires d.lines == [WorkLine] && d.warehouse == None
    ensures CheckTracking(EmptyStock, Shop.catalog, d, d.lines).Pass? && Preflight(EmptyStock, Shop.catalog, d).Pass?
    ensures Placed(Shop.catalog, d, true) == Success(d)
    ensures PostStock(EmptyStock, Shop.catalog, id, d, reverse) == Success(EmptyStock)
  {
    assert [WorkLine][1..] == [];
  }

  lemma PaperPosted(b: Books, kind: DocType, id: nat, source: Option<nat>)
    requires Running(b) && (kind.Invoice? || kind.CreditNote?) && !AlreadyPosted(b.vouchers, DocSource(id))
    ensures var r := PostDocument(b, Shop.roles, id, Paper(kind, DraftDoc, source, true), 0, false);
            r.Success? && Running(r.value) && r.value.vouchers == b.vouchers + [VoucherOf(kind, id)]
  {
    var d := Paper(kind, DraftDoc, source, true);
    assert DocumentVoucherLines(Shop.roles, d, 0, false).value == LinesOf(kind);
    Posts(b, VoucherKindOf(kind), LinesOf(kind), DocSource(id));
  }

  /** The shop with these papers and these books. */
  function At(docs: Docs, next: nat, b: Books): Org {
    Shop.(docs := docs, next := next, books := b)
  }

  lemma InvoiceSent(b: Books) returns (b': Books)
    requires Running(b) && b.vouchers == []
    ensures Running(b') && b'.vouchers == [VoucherOf(Invoice, 0)]
    ensures Finalize(At(map[0 := Paper(Invoice, DraftDoc, None, false)], 1, b), 0, NotFiled)
            == Success(At(map[0 := Paper(Invoice, SentDoc, None, true)], 1, b'))
  {
    var d, docs := Paper(Invoice, DraftDoc, None, false), map[0 := Paper(Invoice, DraftDoc, None, false)];
    var o := At(docs, 1, b);
    NothingToMove(0, d, false);
    PaperPosted(b, Invoice, 0, None);
    b' := PostDocument(b, Shop.roles, 0, d.(stockPosted := true), 0, false).value;
    assert ReadyToFinalize(o, 0) == Success(d);
    NothingIsWorth(0);
    assert SourcesAfter(docs, d) == Success(docs);
    assert FinalDocument(docs, d, true, NotFiled) == Paper(Invoice, SentDoc, None, true);
    assert docs[0 := Paper(Invoice, SentDoc, None, true)] == map[0 := Paper(Invoice, SentDoc, None, true)];
    assert SendOff(o, 0, d, NotFiled) == Success(o.(books := b', docs := docs[0 := Paper(Invoice, SentDoc, None, true)]));
  }

  lemma {:induction false} NothingIsWorth(id: nat)
    ensures StockValue(MovementsOf(EmptyStock.movements, id)) == 0
  {
  }

  const ToSend: seq<OrgOp> := [NewInvoice, FinalizeOp(0, NotFiled)]

  lemma InvoiceSentInRun() returns (b: Books)
    ensures Running(b) && b.vouchers == [VoucherOf(Invoice, 0)]
    ensures OrgRun(Shop, ToSend) == At(map[0 := Paper(Invoice, SentDoc, None, true)], 1, b)
  {
    var drafted := At(map[0 := Paper(Invoice, DraftDoc, None, false)], 1, FirstBooks);
    InvoiceDrafted();
    OneStep(Shop, [], NewInvoice, Shop, drafted, [NewInvoice]);
    b := InvoiceSent(FirstBooks);
    OneStep(Shop, [NewInvoice], FinalizeOp(0, NotFiled), drafted, At(map[0 := Paper(Invoice, SentDoc, None, true)], 1, b), ToSend);
  }

  // ---------------------------------------------------- credited, then paid in full

  const Sent: Document := Paper(Invoice, SentDoc, None, true)
  const Note: Document := Paper(CreditNote, DraftDoc, Some(0), false)
  const Credited: Document := Sent.(credited := 10000, paymentStatus := PaymentStatus.Credited)
  const SentNote: Document := Note.(status := SentDoc, stockPosted := true, settled := 10000)

  lemma NoteDrafted(b: Books)
    ensures Convert(At(map[0 := Sent], 1, b), 0, CreditNote, 10) == Success(At(map[0 := Sent, 1 := Note], 2, b))
  {
    WorkPriced(CreditNote);
    PaperDrafted(CreditNote, Some(0));
    assert [WorkLine][..0] == [] && CarriedInputs([], false) == [];
    assert CarriedInputs([WorkLine], false) == [Work];
    assert ActiveDependents(map[0 := Sent], 0, None) == {};
    assert map[0 := Sent][1 := Note] == map[0 := Sent, 1 := Note];
  }

  lemma InvoiceCredited()
    ensures var docs: Docs := map[0 := Sent, 1 := Note];
            && GuardSource(docs, Note).Pass? && MovesStock(docs, Note)
            && SourcesAfter(docs, Note) == Success(map[0 := Credited, 1 := Note])
            && FinalDocument(docs, Note, true, NotFiled) == SentNote
  {
    var docs: Docs := map[0 := Sent, 1 := Note];
    assert SourceAfter(Sent, Note) == Success(Credited);
    assert docs[0 := Credited] == map[0 := Credited, 1 := Note];
  }

  lemma NoteReady(b: Books)
    ensures ReadyToFinalize(At(map[0 := Sent, 1 := Note], 2, b), 1) == Success(Note)
  {
    InvoiceCredited();
    NothingToMove(1, Note, false);
  }

  lemma NoteSentOff(b: Books) returns (b': Books)
    requires Running(b) && b.vouchers == [VoucherOf(Invoice, 0)]
    ensures SendOff(At(map[0 := Sent, 1 := Note], 2, b), 1, Note, NotFiled) == Success(At(map[0 := Credited, 1 := SentNote], 2, b'))
  {
    InvoiceCredited();
    NothingToMove(1, Note, false);
    NothingIsWorth(1);
    PaperPosted(b, CreditNote, 1, Some(0));
    b' := PostDocument(b, Shop.roles, 1, Note.(stockPosted := true), 0, false).value;
    var docs: Docs := map[0 := Credited, 1 := Note];
    assert docs[1 := SentNote] == map[0 := Credited, 1 := SentNote];
  }

  lemma NoteSent(b: Books) returns (b': Books)
    requires Running(b) && b.vouchers == [VoucherOf(Invoice, 0)]
    ensures Finalize(At(map[0 := Sent, 1 := Note], 2, b), 1, NotFiled) == Success(At(map[0 := Credited, 1 := SentNote], 2, b'))
  {
    NoteReady(b);
    b' := NoteSentOff(b);
  }

  lemma CreditedPaid(b: Books)
    ensures Pay(At(map[0 := Credited, 1 := SentNote], 2, b), 0, 10000)
            == Success(At(map[0 := Credited.(paid := 10000, paymentStatus := Paid), 1 := SentNote], 2, b))
  {
    var docs: Docs := map[0 := Credited, 1 := SentNote];
    var paid := Credited.(paid := 10000, paymentStatus := Paid);
    assert docs[0 := paid] == map[0 := paid, 1 := SentNote];
  }

  const ToCredit: seq<OrgOp> := ToSend + [ConvertOp(0, CreditNote, 10)] + [FinalizeOp(1, NotFiled)]

  lemma CreditedInRun() returns (b: Books)
    ensures OrgRun(Shop, ToCredit) == At(map[0 := Credited, 1 := SentNote], 2, b)
  {
    var b0 := InvoiceSentInRun();
    var drafted := At(map[0 := Sent, 1 := Note], 2, b0);
    NoteDrafted(b0);
    OneStep(Shop, ToSend, ConvertOp(0, CreditNote, 10), At(map[0 := Sent], 1, b0), drafted, ToSend + [ConvertOp(0, CreditNote, 10)]);
    b := NoteSent(b0);
    OneStep(Shop, ToSend + [ConvertOp(0, CreditNote, 10)], FinalizeOp(1, NotFiled), drafted,
            At(map[0 := Credited, 1 := SentNote], 2, b), ToCredit);
  }

  /** An invoice drafted and sent, converted to a credit note for all of it, and paid in
      full all the same: every call is accepted, and it is settled twice over. */
  lemma SettledTwice()
    ensures IsNew(Shop)
    ensures var docs := OrgRun(Shop, ToCredit + [PayOp(0, 10000)]).docs;
            0 in docs && docs[0].kind.Invoice? && docs[0].total == 10000 && docs[0].paid == 10000 && docs[0].credited == 10000
  {
    var b := CreditedInRun();
    CreditedPaid(b);
    OneStep(Shop, ToCredit, PayOp(0, 10000), At(map[0 := Credited, 1 := SentNote], 2, b),
            At(map[0 := Credited.(paid := 10000, paymentStatus := Paid), 1 := SentNote], 2, b), ToCredit + [PayOp(0, 10000)]);
  }

  // -------------------------------------------------------- void, and still standing

  lemma MirrorMoves(lines: seq<Line>)
    requires Moves(lines)
    ensures Moves(Mirror(lines))
  {
    MirrorLines(lines);
    assert lines[..1] == [lines[0]] && lines[..1][..0] == [];
    assert Mirror(lines[..1]) == [lines[0].(debit := lines[0].credit, credit := lines[0].debit)];
  }

  /** A posted voucher of the shop can always be reversed. */
  lemma Reversed(b: Books, id: nat)
    requires Running(b) && id < |b.vouchers| && b.vouchers[id].status.Posted? && Moves(b.vouchers[id].lines) && b.vouchers[id].day == 10
    ensures var r, v := ReverseVoucher(b, id, None), b.vouchers[id];
            && r.Success? && Running(r.value)
            && r.value.vouchers == b.vouchers[id := v.(status := VoucherStatus.Reversed)]
                                   + [Voucher(Reversal, 10, Posted, v.source, Mirror(v.lines), Some(id), 1)]
  {
    MirrorMoves(b.vouchers[id].lines);
    Posts(b, Reversal, Mirror(b.vouchers[id].lines), b.vouchers[id].source);
  }

  const Posting0: Voucher := VoucherOf(Invoice, 0)
  const Back: Voucher := Voucher(Reversal, 10, Posted, DocSource(0), Mirror(LinesOf(Invoice)), Some(0), 1)
  const Again: Voucher := Voucher(Reversal, 10, Posted, DocSource(0), Mirror(Mirror(LinesOf(Invoice))), Some(1), 1)

  /** The posting reversed by hand, and the reversal too. */
  function Thrice(): seq<Voucher> {
    [Posting0.(status := VoucherStatus.Reversed), Back.(status := VoucherStatus.Reversed), Again]
  }

  lemma ReversedTwice(b: Books) returns (b1: Books, b2: Books)
    requires Running(b) && b.vouchers == [Posting0]
    ensures ReverseVoucher(b, 0, None) == Success(b1) && Running(b1) && |b1.vouchers| == 2
    ensures ReverseVoucher(b1, 1, None) == Success(b2) && Running(b2) && b2.vouchers == Thrice()
  {
    Reversed(b, 0);
    b1 := ReverseVoucher(b, 0, None).value;
    assert b1.vouchers == [Posting0.(status := VoucherStatus.Reversed), Back];
    MirrorMoves(LinesOf(Invoice));
    Reversed(b1, 1);
    b2 := ReverseVoucher(b1, 1, None).value;
  }

  lemma InvoiceVoided(b: Books)
    requires b.vouchers == Thrice()
    ensures VoidDocument(At(map[0 := Sent], 1, b), 0) == Success(At(map[0 := VoidedDocument(Sent)], 1, b))
  {
    var docs: Docs := map[0 := Sent];
    assert ActiveDependents(docs, 0, None) == {};
    NothingToMove(0, Sent, true);
    assert StandingVoucher(b.vouchers, DocSource(0)) == None;
    assert docs[0 := VoidedDocument(Sent)] == map[0 := VoidedDocument(Sent)];
  }

  lemma ByHand(ops: seq<OrgOp>, docs: Docs, b: Books, id: nat, b': Books, all: seq<OrgOp>)
    requires OrgRun(Shop, ops) == At(docs, 1, b) && id < |b.vouchers| && ReverseVoucher(b, id, None) == Success(b')
    requires all == ops + [BooksCall(ReverseOp(id, None))]
    ensures OrgRun(Shop, all) == At(docs, 1, b')
  {
    assert Step(b, ReverseOp(id, None)) == Success(b');
    OneStep(Shop, ops, BooksCall(ReverseOp(id, None)), At(docs, 1, b), At(docs, 1, b'), all);
  }

  const ToAgain: seq<OrgOp> := ToSend + [BooksCall(ReverseOp(0, None))] + [BooksCall(ReverseOp(1, None))]

  lemma AgainInRun() returns (b: Books)
    ensures b.vouchers == Thrice() && OrgRun(Shop, ToAgain) == At(map[0 := Sent], 1, b)
  {
    var b0 := InvoiceSentInRun();
    var b1: Books;
    b1, b := ReversedTwice(b0);
    ByHand(ToSend, map[0 := Sent], b0, 0, b1, ToSend + [BooksCall(ReverseOp(0, None))]);
    ByHand(ToSend + [BooksCall(ReverseOp(0, None))], map[0 := Sent], b1, 1, b, ToAgain);
  }

  const ToVoid: seq<OrgOp> := ToAgain + [VoidOp(0)]

  lemma VoidedInRun() returns (b: Books)
    ensures b.vouchers == Thrice() && OrgRun(Shop, ToVoid) == At(map[0 := VoidedDocument(Sent)], 1, b)
  {
    b := AgainInRun();
    InvoiceVoided(b);
    OneStep(Shop, ToAgain, VoidOp(0), At(map[0 := Sent], 1, b), At(map[0 := VoidedDocument(Sent)], 1, b), ToVoid);
  }

  lemma ChainOfThree()
    ensures |Chain(Thrice(), 0)| == 3
  {
    var vs := Thrice();
    assert vs[..2][..1] == [vs[0]] && vs[..2] == [vs[0], vs[1]] && vs[..1] == [vs[0]];
    assert NextOf(vs, 0) == Some(1);
    assert NextOf(vs, 1) == Some(2);
  }

  lemma ReceivableLeg()
    ensures LineNet(LinesOf(Invoice), 1, Some(Customer)) == 1000000
  {
    var lines := LinesOf(Invoice);
    assert lines[..1] == [lines[0]] && lines[..1][..0] == [];
  }

  /** An invoice drafted and sent, its posting reversed by hand and the reversal reversed
      too, then voided: every call is accepted, the invoice is void, and the customer
      still owes its total in the books. */
  lemma VoidAndStillOwed()
    ensures IsNew(Shop)
    ensures var o := OrgRun(Shop, ToVoid);
            && 0 in o.docs && o.docs[0].status.VoidDoc?
            && Net(o.books.entries, OfVouchers(Family(o.books.vouchers, 0), 1, Some(Customer), 10)) == 1000000
  {
    var b := VoidedInRun();
    NewOrgOk(Shop);
    RunKeepsOrg(Shop, ToVoid);
    ChainOfThree();
    ReceivableLeg();
    FamilyNets(map[0 := VoidedDocument(Sent)], b, 0, 0, 1, Some(Customer), 10);
  }
}
