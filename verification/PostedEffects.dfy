/** What each posting changes in the books, account by account and party by party: the
    voucher of every type of document, of stock, and of a party's opening balance. */
module PostedEffects {
  import opened Basics
  import opened StockTables
  import opened Inventory
  import opened DocumentTables
  import opened DocumentStock
  import opened LedgerTables
  import opened Ledger
  import opened Poster
  import opened PostingPaths
  import opened PartyOpenings
  import opened Documents
  import opened Lifecycle
  import opened DocumentVouchers
  import opened GoodsInvariant
  import opened OrgInvariant
  import Expenses

  /** A balance after a posting, from the balance before it. */
  ghost predicate Changes(b: Books, b': Books, from: Day, change: int, account: nat, party: Option<nat>, day: Day) {
    Net(b'.entries, OfParty(account, party, day)) == Net(b.entries, OfParty(account, party, day)) + if from <= day then change else 0
  }

  /** A voucher posted changes every balance from its date on by its lines. */
  lemma PostingChanges(b: Books, kind: VoucherType, from: Day, lines: seq<Line>, source: Source, allowControl: bool, account: nat, party: Option<nat>, day: Day)
    requires PostVoucher(b, kind, from, lines, source, allowControl).Success?
    ensures Changes(b, PostVoucher(b, kind, from, lines, source, allowControl).value, from, LineNet(lines, account, party), account, party, day)
  {
    PostVoucherEffect(b, kind, from, lines, source, allowControl);
    var b' := PostVoucher(b, kind, from, lines, source, allowControl).value;
    var year :| var v := Voucher(kind, from, Posted, source, lines, None, year);
      b' == b.(vouchers := b.vouchers + [v], entries := b.entries + EntriesFrom(|b.vouchers|, v, lines));
    var v := Voucher(kind, from, Posted, source, lines, None, year);
    SumsConcat(b.entries, EntriesFrom(|b.vouchers|, v, lines), OfParty(account, party, day));
    NetOfBlock(|b.vouchers|, v, lines, account, party, day);
  }

  // ------------------------------------------------------------------- documents

  /** Money to come in on an account or role, a sale's net earned, and its tax owed. */
  function SaleEffect(roles: Roles, d: Document, account: nat, party: Option<nat>): int {
    -OnRole(roles, Revenue, None, Cents(d.total - d.taxTotal), account, party) - OnRole(roles, SalesTax, None, Cents(d.taxTotal), account, party)
  }

  /** Goods gone: their cost booked, inventory relieved of it. */
  function CostEffect(roles: Roles, worth: int, account: nat, party: Option<nat>): int {
    OnRole(roles, CostOfGoods, None, worth, account, party) - OnRole(roles, InventoryRole, None, worth, account, party)
  }

  /** What a customer returned: taken off receivables, its net on returns, its tax back. */
  function ReturnEffect(roles: Roles, d: Document, account: nat, party: Option<nat>): int {
    OnRole(roles, Returns, None, Cents(d.total - d.taxTotal), account, party) + OnRole(roles, SalesTax, None, Cents(d.taxTotal), account, party)
    - OnRole(roles, Receivable, d.party, Cents(d.total), account, party)
  }

  /** A bill: owed to its party, its tax taken back, and its net on inventory when it moved
      goods, on goods received when its receipt did, and on expenses otherwise. */
  function BillEffect(roles: Roles, d: Document, value: int, sourceMoved: bool, account: nat, party: Option<nat>): int {
    OnRole(roles, if value != 0 then InventoryRole else if sourceMoved then Grni else OperatingExpenses, None,
           Cents(d.total - d.taxTotal), account, party)
    + OnRole(roles, InputTax, None, Cents(d.taxTotal), account, party) - OnRole(roles, Payable, d.party, Cents(d.total), account, party)
  }

  function TillEffect(roles: Roles, d: Document, account: nat, party: Option<nat>): int {
    if d.paidThrough.Some? then OnAccount(d.paidThrough.value, Cents(d.total), account, party)
    else OnRole(roles, CashRole, None, Cents(d.total), account, party)
  }

  /** What goods moved are worth to the books; nothing when none did. */
  function Worth(d: Document, value: int): int {
    if d.stockPosted then StockMoney(value) else 0
  }

  /** What finalizing a document changes, by its type. `value` is what the goods it moved
      are worth, in or out. */
  function DocumentNet(roles: Roles, d: Document, value: int, sourceMoved: bool, account: nat, party: Option<nat>): int {
    match d.kind
    case Invoice =>
      OnRole(roles, Receivable, d.party, Cents(d.total), account, party) + SaleEffect(roles, d, account, party)
      + CostEffect(roles, -Worth(d, value), account, party)
    case SalesReceipt => TillEffect(roles, d, account, party) + SaleEffect(roles, d, account, party) + CostEffect(roles, -Worth(d, value), account, party)
    case CreditNote => ReturnEffect(roles, d, account, party) + CostEffect(roles, -Worth(d, value), account, party)
    case DeliveryChallan => CostEffect(roles, -Worth(d, value), account, party)
    case GoodsReceipt =>
      OnRole(roles, InventoryRole, None, Worth(d, value), account, party) - OnRole(roles, Grni, None, Worth(d, value), account, party)
    case Bill => BillEffect(roles, d, value, sourceMoved, account, party)
    case SalesOrder => 0
    case PurchaseOrder => 0
  }

  lemma WorthZero()
    ensures StockMoney(0) == 0
  {
  }

  lemma CostNetIs(roles: Roles, d: Document, value: int, account: nat, party: Option<nat>)
    ensures CostNet(roles, value, d.stockPosted, account, party) == CostEffect(roles, -Worth(d, value), account, party)
    ensures ReturnNet(roles, value, d.stockPosted, account, party) == CostEffect(roles, -Worth(d, value), account, party)
  {
    OppositeMoney(value);
    WorthZero();
  }

  lemma InvoicedNet(roles: Roles, d: Document, value: int, account: nat, party: Option<nat>)
    requires InvoiceLines(roles, d, value).Success? && d.kind.Invoice?
    ensures LineNet(InvoiceLines(roles, d, value).value, account, party) == DocumentNet(roles, d, value, false, account, party)
  {
    InvoiceNet(roles, d, value, account, party);
    CostNetIs(roles, d, value, account, party);
  }

  lemma ReceiptedNet(roles: Roles, d: Document, value: int, account: nat, party: Option<nat>)
    requires ReceiptLines(roles, d, value).Success? && d.kind.SalesReceipt?
    ensures LineNet(ReceiptLines(roles, d, value).value, account, party) == DocumentNet(roles, d, value, false, account, party)
  {
    SalesReceiptNet(roles, d, value, account, party);
    CostNetIs(roles, d, value, account, party);
    assert TillEffect(roles, d, account, party) == OnAccount(Till(roles, d), Cents(d.total), account, party);
  }

  lemma ReturnedNet(roles: Roles, d: Document, value: int, account: nat, party: Option<nat>)
    requires CreditNoteLines(roles, d, value).Success? && d.kind.CreditNote?
    ensures LineNet(CreditNoteLines(roles, d, value).value, account, party) == DocumentNet(roles, d, value, false, account, party)
  {
    CreditNoteNet(roles, d, value, account, party);
    CostNetIs(roles, d, value, account, party);
  }

  lemma DeliveredNet(roles: Roles, d: Document, value: int, account: nat, party: Option<nat>)
    requires CostLegs(roles, value, d.stockPosted).Success? && d.kind.DeliveryChallan?
    ensures LineNet(CostLegs(roles, value, d.stockPosted).value, account, party) == DocumentNet(roles, d, value, false, account, party)
  {
    CostLegsNet(roles, value, d.stockPosted, account, party);
    CostNetIs(roles, d, value, account, party);
  }

  lemma ReceivedNet(roles: Roles, d: Document, value: int, account: nat, party: Option<nat>)
    requires GoodsReceiptLines(roles, d, value).Success? && d.kind.GoodsReceipt?
    ensures LineNet(GoodsReceiptLines(roles, d, value).value, account, party) == DocumentNet(roles, d, value, false, account, party)
  {
    ReceiptNet(roles, d, value, account, party);
    WorthZero();
  }

  lemma BilledNet(roles: Roles, d: Document, value: int, sourceMoved: bool, account: nat, party: Option<nat>)
    requires BillLines(roles, d, value, sourceMoved).Success? && d.kind.Bill?
    ensures LineNet(BillLines(roles, d, value, sourceMoved).value, account, party) == DocumentNet(roles, d, value, sourceMoved, account, party)
  {
    BillNet(roles, d, value, sourceMoved, account, party);
  }

  /** The lines of every type of document do exactly that. */
  lemma LinesNet(roles: Roles, d: Document, value: int, sourceMoved: bool, account: nat, party: Option<nat>)
    requires DocumentVoucherLines(roles, d, value, sourceMoved).Success?
    ensures LineNet(DocumentVoucherLines(roles, d, value, sourceMoved).value, account, party) == DocumentNet(roles, d, value, sourceMoved, account, party)
  {
    match d.kind
    case Invoice => InvoicedNet(roles, d, value, account, party);
    case SalesReceipt => ReceiptedNet(roles, d, value, account, party);
    case CreditNote => ReturnedNet(roles, d, value, account, party);
    case DeliveryChallan => DeliveredNet(roles, d, value, account, party);
    case GoodsReceipt => ReceivedNet(roles, d, value, account, party);
    case Bill => BilledNet(roles, d, value, sourceMoved, account, party);
    case _ =>
  }

  /** What the voucher of each type of document is. */
  predicate PostedAsKind(kind: DocType, v: VoucherType) {
    match kind
    case DeliveryChallan => v.DeliveryVoucher?
    case CreditNote => v.CreditVoucher?
    case Bill => v.BillVoucher?
    case GoodsReceipt => v.ReceiptVoucher?
    case _ => v.SalesInvoice?
  }

  /** A document posts one voucher, of its kind and on its date, or none. */
  lemma DocumentPostsOne(b: Books, roles: Roles, id: nat, d: Document, value: int, sourceMoved: bool)
    requires PostDocument(b, roles, id, d, value, sourceMoved).Success?
    ensures var vs := PostDocument(b, roles, id, d, value, sourceMoved).value.vouchers;
            vs == b.vouchers
            || (|vs| == |b.vouchers| + 1 && b.vouchers <= vs
                && var v := vs[|b.vouchers|]; PostedAsKind(d.kind, v.kind) && v.day == d.issued && v.source == DocSource(id) && v.status.Posted?)
  {
    if !IsOrder(d.kind) && !AlreadyPosted(b.vouchers, DocSource(id)) {
      var lines := DocumentVoucherLines(roles, d, value, sourceMoved).value;
      if lines != [] {
        PostVoucherEffect(b, VoucherKindOf(d.kind), d.issued, lines, DocSource(id), true);
      }
    }
  }

  lemma PostedDocumentChanges(b: Books, roles: Roles, id: nat, d: Document, value: int, sourceMoved: bool, account: nat, party: Option<nat>, day: Day)
    requires PostDocument(b, roles, id, d, value, sourceMoved).Success? && !AlreadyPosted(b.vouchers, DocSource(id))
    ensures Changes(b, PostDocument(b, roles, id, d, value, sourceMoved).value, d.issued, DocumentNet(roles, d, value, sourceMoved, account, party), account, party, day)
  {
    if !IsOrder(d.kind) {
      var lines := DocumentVoucherLines(roles, d, value, sourceMoved).value;
      LinesNet(roles, d, value, sourceMoved, account, party);
      if lines != [] {
        PostingChanges(b, VoucherKindOf(d.kind), d.issued, lines, DocSource(id), true, account, party, day);
      }
    }
  }

  /** Finalizing a document changes every balance, from the document's date on, by exactly
      what its type says of its total, its tax and the worth of the goods it moved. */
  lemma FinalizeChangesBooks(o: Org, id: nat, filing: Filing, account: nat, party: Option<nat>, day: Day)
    requires OrgInv(o) && Finalize(o, id, filing).Success?
    ensures var o' := Finalize(o, id, filing).value;
            && id in o'.docs
            && var d, value := o'.docs[id], StockValue(MovementsOf(o'.stock.movements, id));
               Changes(o.books, o'.books, d.issued, DocumentNet(o.roles, d, value, SourceMoved(o.docs, d), account, party), account, party, day)
  {
    var d, moves := FinalizeEffect(o, id, filing);
    var o' := Finalize(o, id, filing).value;
    DraftHasNoVoucher(o.docs, o.books.vouchers, id);
    var value := StockValue(MovementsOf(o'.stock.movements, id));
    PostedDocumentChanges(o.books, o.roles, id, d.(stockPosted := moves), value, SourceMoved(o.docs, d), account, party, day);
    SameNet(o.roles, o.docs, d, moves, filing, value, account, party);
  }

  /** The effect depends on a document's type, party, totals and till, and on whether it
      moved its goods. */
  lemma SameFields(roles: Roles, d: Document, f: Document, value: int, sourceMoved: bool, account: nat, party: Option<nat>)
    requires f.kind == d.kind && f.party == d.party && f.total == d.total && f.taxTotal == d.taxTotal && f.paidThrough == d.paidThrough && f.stockPosted == d.stockPosted
    ensures DocumentNet(roles, f, value, sourceMoved, account, party) == DocumentNet(roles, d, value, sourceMoved, account, party)
  {
  }

  lemma SameNet(roles: Roles, docs: Docs, d: Document, moves: bool, filing: Filing, value: int, account: nat, party: Option<nat>)
    ensures var f := FinalDocument(docs, d, moves, filing);
            && f.issued == d.issued && SourceMoved(docs, f) == SourceMoved(docs, d)
            && DocumentNet(roles, f, value, SourceMoved(docs, d), account, party)
               == DocumentNet(roles, d.(stockPosted := moves), value, SourceMoved(docs, d), account, party)
  {
    FinalFields(docs, d, moves, filing);
    SameFields(roles, d.(stockPosted := moves), FinalDocument(docs, d, moves, filing), value, SourceMoved(docs, d), account, party);
  }

  lemma FinalFields(docs: Docs, d: Document, moves: bool, filing: Filing)
    ensures var f := FinalDocument(docs, d, moves, filing);
            && f.issued == d.issued && f.source == d.source && f.kind == d.kind && f.party == d.party && f.total == d.total
            && f.taxTotal == d.taxTotal && f.paidThrough == d.paidThrough && f.stockPosted == moves
  {
  }

  /** An expense changes every balance, from its date on, by exactly what its lines, its tax
      and what it was paid through say. */
  lemma ExpenseChangesBooks(b: Books, roles: Roles, id: nat, e: Expenses.Expense, account: nat, party: Option<nat>, day: Day)
    requires Expenses.PostExpense(b, roles, id, e).Success? && !AlreadyPosted(b.vouchers, Source(ExpenseKind, id))
    ensures Changes(b, Expenses.PostExpense(b, roles, id, e).value, e.day,
                    if Expenses.ExpenseTotal(e) <= 0 then 0 else Expenses.ExpenseNet(roles, e, account, party), account, party, day)
  {
    if Expenses.ExpenseTotal(e) > 0 {
      var lines := Expenses.ExpenseVoucherLines(roles, e).value;
      Expenses.ExpenseLinesNet(roles, e, account, party);
      PostingChanges(b, ExpenseVoucher, e.day, lines, Source(ExpenseKind, id), true, account, party, day);
    }
  }

  // ----------------------------------------------------------------------- stock

  lemma ValueLinesNet(inventory: nat, offset: nat, value: int, account: nat, party: Option<nat>)
    ensures LineNet(ValueLines(inventory, offset, value), account, party) ==
              OnAccount(inventory, StockMoney(value), account, party) - OnAccount(offset, StockMoney(value), account, party)
  {
    var lines := ValueLines(inventory, offset, value);
    TwoLines(lines[0], lines[1], account, party);
    OppositeMoney(value);
  }

  lemma OppositeMoney(value: int)
    ensures StockMoney(-value) == -StockMoney(value)
  {
  }

  /** An adjustment's value goes on inventory, and off the account it names, or the one for
      adjustments. */
  lemma AdjustmentChangesBooks(b: Books, roles: Roles, value: int, against: Option<nat>, from: Day, n: nat, account: nat, party: Option<nat>, day: Day)
    requires PostAdjustment(b, roles, value, against, from, n).Success? && !AlreadyPosted(b.vouchers, Source(AdjustmentKind, n))
    ensures Changes(b, PostAdjustment(b, roles, value, against, from, n).value, from,
                    if value == 0 then 0
                    else OnRole(roles, InventoryRole, None, StockMoney(value), account, party)
                         - (if against.Some? then OnAccount(against.value, StockMoney(value), account, party)
                            else OnRole(roles, StockAdjustments, None, StockMoney(value), account, party)),
                    account, party, day)
  {
    if value != 0 {
      var offset := if against.Some? then against.value else roles[StockAdjustments];
      ValueLinesNet(roles[InventoryRole], offset, value, account, party);
      PostingChanges(b, StockVoucher, from, ValueLines(roles[InventoryRole], offset, value), Source(AdjustmentKind, n), true, account, party, day);
    }
  }

  /** Opening stock goes on inventory, and off opening equity. */
  lemma OpeningChangesBooks(b: Books, roles: Roles, value: int, from: Day, n: nat, account: nat, party: Option<nat>, day: Day)
    requires PostOpening(b, roles, value, from, n).Success? && !AlreadyPosted(b.vouchers, Source(OpeningStockKind, n))
    ensures Changes(b, PostOpening(b, roles, value, from, n).value, from,
                    if value == 0 then 0
                    else OnRole(roles, InventoryRole, None, StockMoney(value), account, party)
                         - OnRole(roles, OpeningEquity, None, StockMoney(value), account, party),
                    account, party, day)
  {
    if value != 0 {
      ValueLinesNet(roles[InventoryRole], roles[OpeningEquity], value, account, party);
      PostingChanges(b, OpeningVoucher, from, ValueLines(roles[InventoryRole], roles[OpeningEquity], value), Source(OpeningStockKind, n), true, account, party, day);
    }
  }
}
