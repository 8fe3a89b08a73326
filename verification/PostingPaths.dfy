/** The same trade by different paths of documents: what reaches each account. */
module PostingPaths {
  import opened Basics
  import opened DocumentTables
  import opened LedgerTables
  import opened Ledger
  import opened Poster

  lemma {:induction false} NetConcat(lines: seq<Line>, more: seq<Line>, account: nat, party: Option<nat>)
    ensures LineNet(lines + more, account, party) == LineNet(lines, account, party) + LineNet(more, account, party)
  {
    if more == [] {
      assert lines + more == lines;
    } else {
      NetConcat(lines, more[..|more| - 1], account, party);
      assert (lines + more)[..|lines + more| - 1] == lines + more[..|more| - 1];
    }
  }

  lemma ThreeParts(a: seq<Line>, b: seq<Line>, c: seq<Line>, account: nat, party: Option<nat>)
    ensures LineNet(a + b + c, account, party) == LineNet(a, account, party) + LineNet(b, account, party) + LineNet(c, account, party)
  {
    NetConcat(a, b, account, party);
    NetConcat(a + b, c, account, party);
  }

  /** One line's effect. */
  function Effect(line: Line, account: nat, party: Option<nat>): int {
    if line.account == account && line.party == party then line.debit - line.credit else 0
  }

  lemma OneLine(line: Line, account: nat, party: Option<nat>)
    ensures LineNet([line], account, party) == Effect(line, account, party)
  {
    assert [line][..0] == [];
  }

  lemma TwoLines(one: Line, two: Line, account: nat, party: Option<nat>)
    ensures LineNet([one, two], account, party) == Effect(one, account, party) + Effect(two, account, party)
  {
    assert [one] + [two] == [one, two];
    NetConcat([one], [two], account, party);
    OneLine(one, account, party);
    OneLine(two, account, party);
  }

  /** What an amount on a configured account comes to: debits positive. */
  function OnRole(roles: Roles, role: Role, owner: Option<nat>, amount: int, account: nat, party: Option<nat>): int {
    if role in roles && roles[role] == account && owner == party then amount else 0
  }

  lemma LegNet(roles: Roles, role: Role, owner: Option<nat>, debit: int, credit: int, when: bool, account: nat, party: Option<nat>)
    requires Leg(roles, role, owner, debit, credit, when).Success? && (!when ==> debit == credit)
    ensures LineNet(Leg(roles, role, owner, debit, credit, when).value, account, party) == OnRole(roles, role, owner, debit - credit, account, party)
  {
    if when {
      OneLine(Leg(roles, role, owner, debit, credit, when).value[0], account, party);
    }
  }

  /** Cost of goods, and inventory relieved of it. */
  function CostNet(roles: Roles, value: int, posted: bool, account: nat, party: Option<nat>): int {
    var cost := if posted && value != 0 then StockMoney(-value) else 0;
    OnRole(roles, CostOfGoods, None, cost, account, party) + OnRole(roles, InventoryRole, None, -cost, account, party)
  }

  lemma CostLegsNet(roles: Roles, value: int, posted: bool, account: nat, party: Option<nat>)
    requires CostLegs(roles, value, posted).Success?
    ensures LineNet(CostLegs(roles, value, posted).value, account, party) == CostNet(roles, value, posted, account, party)
  {
    if posted && value != 0 {
      var lines := CostLegs(roles, value, posted).value;
      TwoLines(lines[0], lines[1], account, party);
    }
  }

  // ------------------------------------------------------------------ net effects

  /** An invoice charges its party, earns its net, owes its tax, and books the cost of
      what it moved itself. */
  lemma InvoiceNet(roles: Roles, d: Document, value: int, account: nat, party: Option<nat>)
    requires InvoiceLines(roles, d, value).Success?
    ensures LineNet(InvoiceLines(roles, d, value).value, account, party) ==
              OnRole(roles, Receivable, d.party, Cents(d.total), account, party)
              + OnRole(roles, Revenue, None, -Cents(d.total - d.taxTotal), account, party)
              + OnRole(roles, SalesTax, None, -Cents(d.taxTotal), account, party)
              + CostNet(roles, value, d.stockPosted, account, party)
  {
    var revenue := d.total - d.taxTotal;
    var a := Leg(roles, Receivable, d.party, Cents(d.total), 0, true).value;
    var b := Leg(roles, Revenue, None, 0, Cents(revenue), revenue != 0).value;
    var c := Leg(roles, SalesTax, None, 0, Cents(d.taxTotal), d.taxTotal != 0).value;
    LegNet(roles, Receivable, d.party, Cents(d.total), 0, true, account, party);
    LegNet(roles, Revenue, None, 0, Cents(revenue), revenue != 0, account, party);
    LegNet(roles, SalesTax, None, 0, Cents(d.taxTotal), d.taxTotal != 0, account, party);
    CostLegsNet(roles, value, d.stockPosted, account, party);
    ThreeParts(a, b, c, account, party);
    NetConcat(a + b + c, CostLegs(roles, value, d.stockPosted).value, account, party);
  }

  /** Three legs together. */
  lemma ThreeLegs(a: seq<Line>, b: seq<Line>, c: seq<Line>, x: int, y: int, z: int, account: nat, party: Option<nat>)
    requires LineNet(a, account, party) == x && LineNet(b, account, party) == y && LineNet(c, account, party) == z
    ensures LineNet(a + b + c, account, party) == x + y + z
  {
    ThreeParts(a, b, c, account, party);
  }

  lemma GoodsBackNet(roles: Roles, value: int, account: nat, party: Option<nat>)
    requires value != 0 && InventoryRole in roles && CostOfGoods in roles
    ensures LineNet([Line(roles[InventoryRole], None, StockMoney(value), 0), Line(roles[CostOfGoods], None, 0, StockMoney(value))], account, party)
            == ReturnNet(roles, value, true, account, party)
  {
    TwoLines(Line(roles[InventoryRole], None, StockMoney(value), 0), Line(roles[CostOfGoods], None, 0, StockMoney(value)), account, party);
  }

  /** A credit note does the opposite, with returns for revenue. */
  lemma CreditNoteNet(roles: Roles, d: Document, value: int, account: nat, party: Option<nat>)
    requires CreditNoteLines(roles, d, value).Success?
    ensures LineNet(CreditNoteLines(roles, d, value).value, account, party) ==
              OnRole(roles, Receivable, d.party, -Cents(d.total), account, party)
              + OnRole(roles, Returns, None, Cents(d.total - d.taxTotal), account, party)
              + OnRole(roles, SalesTax, None, Cents(d.taxTotal), account, party)
              + ReturnNet(roles, value, d.stockPosted, account, party)
  {
    var returned := d.total - d.taxTotal;
    var a := Leg(roles, Receivable, d.party, 0, Cents(d.total), true).value;
    var b := Leg(roles, Returns, None, Cents(returned), 0, returned != 0).value;
    var c := Leg(roles, SalesTax, None, Cents(d.taxTotal), 0, d.taxTotal != 0).value;
    LegNet(roles, Receivable, d.party, 0, Cents(d.total), true, account, party);
    LegNet(roles, Returns, None, Cents(returned), 0, returned != 0, account, party);
    LegNet(roles, SalesTax, None, Cents(d.taxTotal), 0, d.taxTotal != 0, account, party);
    ThreeLegs(a, b, c, OnRole(roles, Receivable, d.party, -Cents(d.total), account, party), OnRole(roles, Returns, None, Cents(returned), account, party),
              OnRole(roles, SalesTax, None, Cents(d.taxTotal), account, party), account, party);
    if d.stockPosted && value != 0 {
      NetConcat(a + b + c, [Line(roles[InventoryRole], None, StockMoney(value), 0), Line(roles[CostOfGoods], None, 0, StockMoney(value))], account, party);
      GoodsBackNet(roles, value, account, party);
    }
  }

  function ReturnNet(roles: Roles, value: int, posted: bool, account: nat, party: Option<nat>): int {
    var worth := if posted && value != 0 then StockMoney(value) else 0;
    OnRole(roles, InventoryRole, None, worth, account, party) + OnRole(roles, CostOfGoods, None, -worth, account, party)
  }

  /** A bill owes its party, takes its tax back, and puts its net where the goods are. */
  lemma BillNet(roles: Roles, d: Document, value: int, sourceMoved: bool, account: nat, party: Option<nat>)
    requires BillLines(roles, d, value, sourceMoved).Success?
    ensures LineNet(BillLines(roles, d, value, sourceMoved).value, account, party) ==
              OnRole(roles, if value != 0 then InventoryRole else if sourceMoved then Grni else OperatingExpenses, None,
                     Cents(d.total - d.taxTotal), account, party)
              + OnRole(roles, InputTax, None, Cents(d.taxTotal), account, party)
              + OnRole(roles, Payable, d.party, -Cents(d.total), account, party)
  {
    var net := d.total - d.taxTotal;
    var target := PurchaseTarget(value, sourceMoved);
    var a := Leg(roles, target, None, Cents(net), 0, net != 0).value;
    var b := Leg(roles, InputTax, None, Cents(d.taxTotal), 0, d.taxTotal != 0).value;
    var c := Leg(roles, Payable, d.party, 0, Cents(d.total), true).value;
    LegNet(roles, target, None, Cents(net), 0, net != 0, account, party);
    LegNet(roles, InputTax, None, Cents(d.taxTotal), 0, d.taxTotal != 0, account, party);
    LegNet(roles, Payable, d.party, 0, Cents(d.total), true, account, party);
    ThreeParts(a, b, c, account, party);
  }

  /** An amount on an account and nobody's. */
  function OnAccount(own: nat, amount: int, account: nat, party: Option<nat>): int {
    if own == account && party.None? then amount else 0
  }

  /** Where a sales receipt's money goes: the account it names, or cash. */
  function Till(roles: Roles, d: Document): nat
    requires d.paidThrough.Some? || CashRole in roles
  {
    if d.paidThrough.Some? then d.paidThrough.value else roles[CashRole]
  }

  /** A sales receipt puts its total in the till, with nobody owing anything, earns its
      net, owes its tax, and books the cost of what it moved. */
  lemma SalesReceiptNet(roles: Roles, d: Document, value: int, account: nat, party: Option<nat>)
    requires ReceiptLines(roles, d, value).Success?
    ensures d.paidThrough.Some? || CashRole in roles
    ensures LineNet(ReceiptLines(roles, d, value).value, account, party) ==
              OnAccount(Till(roles, d), Cents(d.total), account, party)
              + OnRole(roles, Revenue, None, -Cents(d.total - d.taxTotal), account, party)
              + OnRole(roles, SalesTax, None, -Cents(d.taxTotal), account, party)
              + CostNet(roles, value, d.stockPosted, account, party)
  {
    var revenue := d.total - d.taxTotal;
    var a := [Line(TillOf(roles, d).value, None, Cents(d.total), 0)];
    var b := Leg(roles, Revenue, None, 0, Cents(revenue), revenue != 0).value;
    var c := Leg(roles, SalesTax, None, 0, Cents(d.taxTotal), d.taxTotal != 0).value;
    OneLine(a[0], account, party);
    LegNet(roles, Revenue, None, 0, Cents(revenue), revenue != 0, account, party);
    LegNet(roles, SalesTax, None, 0, Cents(d.taxTotal), d.taxTotal != 0, account, party);
    CostLegsNet(roles, value, d.stockPosted, account, party);
    ThreeLegs(a, b, c, OnAccount(Till(roles, d), Cents(d.total), account, party), OnRole(roles, Revenue, None, -Cents(revenue), account, party),
              OnRole(roles, SalesTax, None, -Cents(d.taxTotal), account, party), account, party);
    NetConcat(a + b + c, CostLegs(roles, value, d.stockPosted).value, account, party);
  }

  lemma ReceiptNet(roles: Roles, d: Document, value: int, account: nat, party: Option<nat>)
    requires GoodsReceiptLines(roles, d, value).Success?
    ensures var worth := if d.stockPosted && value != 0 then StockMoney(value) else 0;
            LineNet(GoodsReceiptLines(roles, d, value).value, account, party) ==
              OnRole(roles, InventoryRole, None, worth, account, party) + OnRole(roles, Grni, None, -worth, account, party)
  {
    if d.stockPosted && value != 0 {
      var lines := GoodsReceiptLines(roles, d, value).value;
      TwoLines(lines[0], lines[1], account, party);
    }
  }

  // --------------------------------------------------------------- path by path

  /** Delivered and then invoiced, or invoiced outright: every account and party ends up
      the same, the cost of the goods booked once. */
  lemma DeliveryThenInvoice(roles: Roles, delivery: Document, invoice: Document, value: int, none: int, account: nat, party: Option<nat>)
    requires delivery.stockPosted && !invoice.stockPosted
    requires CostLegs(roles, value, delivery.stockPosted).Success? && InvoiceLines(roles, invoice, none).Success?
    requires InvoiceLines(roles, invoice.(stockPosted := true), value).Success?
    ensures LineNet(CostLegs(roles, value, delivery.stockPosted).value, account, party) + LineNet(InvoiceLines(roles, invoice, none).value, account, party)
            == LineNet(InvoiceLines(roles, invoice.(stockPosted := true), value).value, account, party)
  {
    CostLegsNet(roles, value, true, account, party);
    InvoiceNet(roles, invoice, none, account, party);
    InvoiceNet(roles, invoice.(stockPosted := true), value, account, party);
  }

  /** A customer's payment of all of an invoice, as `post_payment` writes it. */
  function PaymentLines(roles: Roles, till: nat, owner: Option<nat>, total: int): seq<Line>
    requires Receivable in roles
  {
    [Line(till, None, Cents(total), 0), Line(roles[Receivable], owner, 0, Cents(total))]
  }

  /** Sold over the counter, or invoiced and then paid into the same till: every account
      and party ends up the same. */
  lemma ReceiptIsPaidInvoice(roles: Roles, receipt: Document, invoice: Document, value: int, account: nat, party: Option<nat>)
    requires invoice.total == receipt.total && invoice.taxTotal == receipt.taxTotal && invoice.stockPosted == receipt.stockPosted
    requires ReceiptLines(roles, receipt, value).Success? && InvoiceLines(roles, invoice, value).Success?
    ensures Receivable in roles && (receipt.paidThrough.Some? || CashRole in roles)
    ensures LineNet(ReceiptLines(roles, receipt, value).value, account, party) ==
              LineNet(InvoiceLines(roles, invoice, value).value, account, party)
              + LineNet(PaymentLines(roles, Till(roles, receipt), invoice.party, invoice.total), account, party)
  {
    SalesReceiptNet(roles, receipt, value, account, party);
    InvoiceNet(roles, invoice, value, account, party);
    var lines := PaymentLines(roles, Till(roles, receipt), invoice.party, invoice.total);
    TwoLines(lines[0], lines[1], account, party);
  }

  /** A credit note for all of an invoice, its goods back at what they went out for, takes
      everything off every account but revenue and returns, which mirror each other. */
  lemma FullCreditUndoesInvoice(roles: Roles, invoice: Document, note: Document, value: int, account: nat, party: Option<nat>)
    requires note.total == invoice.total && note.taxTotal == invoice.taxTotal && note.party == invoice.party && note.stockPosted == invoice.stockPosted
    requires InvoiceLines(roles, invoice, value).Success? && CreditNoteLines(roles, note, -value).Success?
    ensures LineNet(InvoiceLines(roles, invoice, value).value, account, party) + LineNet(CreditNoteLines(roles, note, -value).value, account, party)
            == OnRole(roles, Returns, None, Cents(invoice.total - invoice.taxTotal), account, party)
               - OnRole(roles, Revenue, None, Cents(invoice.total - invoice.taxTotal), account, party)
  {
    InvoiceNet(roles, invoice, value, account, party);
    CreditNoteNet(roles, note, -value, account, party);
  }

  /** What the two purchase paths differ by on an account. */
  function PathGap(roles: Roles, worth: int, net: int, account: nat, party: Option<nat>): int {
    OnRole(roles, InventoryRole, None, worth - net, account, party) + OnRole(roles, Grni, None, net - worth, account, party)
  }

  /** Received and then billed, or billed outright: the paths differ by what the goods
      were worth against what was billed for them, which stays between inventory and
      goods received not invoiced. */
  lemma ReceiptThenBill(roles: Roles, receipt: Document, bill: Document, value: int, account: nat, party: Option<nat>)
    requires receipt.stockPosted && value != 0
    requires GoodsReceiptLines(roles, receipt, value).Success? && BillLines(roles, bill, 0, true).Success? && BillLines(roles, bill, value, false).Success?
    ensures LineNet(GoodsReceiptLines(roles, receipt, value).value, account, party) + LineNet(BillLines(roles, bill, 0, true).value, account, party)
            == LineNet(BillLines(roles, bill, value, false).value, account, party)
               + PathGap(roles, StockMoney(value), Cents(bill.total - bill.taxTotal), account, party)
  {
    ReceiptNet(roles, receipt, value, account, party);
    BillNet(roles, bill, 0, true, account, party);
    BillNet(roles, bill, value, false, account, party);
  }

  /** The two purchase paths come to the same on an account. */
  predicate PathsAgree(roles: Roles, receipt: Document, bill: Document, value: int, account: nat, party: Option<nat>)
    requires GoodsReceiptLines(roles, receipt, value).Success? && BillLines(roles, bill, 0, true).Success? && BillLines(roles, bill, value, false).Success?
  {
    LineNet(GoodsReceiptLines(roles, receipt, value).value, account, party) + LineNet(BillLines(roles, bill, 0, true).value, account, party)
    == LineNet(BillLines(roles, bill, value, false).value, account, party)
  }

  /** They agree on every account exactly when the bill's net is the received value: a
      discount, shipping or adjustment on the bill stays in goods received. */
  lemma PurchasePathsAgreeIff(roles: Roles, receipt: Document, bill: Document, value: int)
    requires receipt.stockPosted && value != 0 && InventoryRole in roles && Grni in roles && roles[InventoryRole] != roles[Grni]
    requires GoodsReceiptLines(roles, receipt, value).Success? && BillLines(roles, bill, 0, true).Success? && BillLines(roles, bill, value, false).Success?
    ensures (forall account: nat, party :: PathsAgree(roles, receipt, bill, value, account, party)) <==> StockMoney(value) == Cents(bill.total - bill.taxTotal)
  {
    var worth, net := StockMoney(value), Cents(bill.total - bill.taxTotal);
    forall account: nat, party ensures PathsAgree(roles, receipt, bill, value, account, party) <==> PathGap(roles, worth, net, account, party) == 0 {
      ReceiptThenBill(roles, receipt, bill, value, account, party);
    }
    assert PathGap(roles, worth, net, roles[InventoryRole], None) == worth - net;
    if worth != net {
      assert !PathsAgree(roles, receipt, bill, value, roles[InventoryRole], None);
    }
  }
}
