/** Turning documents and stock events into balanced vouchers. Ledger amounts are
    ten-thousandths; stock values come a thousand times finer and are rounded half
    up when they become money. */
module Poster {
  import opened Basics
  import opened Rounding
  import opened DocumentTables
  import opened LedgerTables
  import opened Ledger

  /** What an account is configured for. */
  datatype Role =
    Receivable | Revenue | SalesTax | CostOfGoods | InventoryRole | CashRole | Returns | Grni | InputTax | Payable |
    OperatingExpenses | StockAdjustments | OpeningEquity

  type Roles = map<Role, nat>

  function Cents(amount: int): int {
    100 * amount
  }

  function StockMoney(value: int): int {
    HalfUp(value, 1000)
  }

  function AccountOf(roles: Roles, role: Role): Result<nat> {
    if role !in roles then Failure(BadRequest)
    else
      Success(roles[role])
  }

  /** One line on a configured account, unless there is nothing to post. */
  function Leg(roles: Roles, role: Role, party: Option<nat>, debit: int, credit: int, when: bool): Result<seq<Line>> {
    if !when then Success([])
    else
      var account :- AccountOf(roles, role);
      Success([Line(account, party, debit, credit)])
  }

  /** Cost of goods against inventory, or nothing when no value moved. */
  function CostLegs(roles: Roles, value: int, posted: bool): Result<seq<Line>> {
    if !posted || value == 0 then Success([])
    else
      var cogs :- AccountOf(roles, CostOfGoods);
      var inventory :- AccountOf(roles, InventoryRole);
      Success([Line(cogs, None, StockMoney(-value), 0), Line(inventory, None, 0, StockMoney(-value))])
  }

  function InvoiceLines(roles: Roles, d: Document, value: int): Result<seq<Line>> {
    var revenue := d.total - d.taxTotal;
    var receivable :- Leg(roles, Receivable, d.party, Cents(d.total), 0, true);
    var sales :- Leg(roles, Revenue, None, 0, Cents(revenue), revenue != 0);
    var tax :- Leg(roles, SalesTax, None, 0, Cents(d.taxTotal), d.taxTotal != 0);
    var cost :- CostLegs(roles, value, d.stockPosted);
    Success(receivable + sales + tax + cost)
  }

  function TillOf(roles: Roles, d: Document): Result<nat> {
    if d.paidThrough.Some? then Success(d.paidThrough.value) else AccountOf(roles, CashRole)
  }

  function ReceiptLines(roles: Roles, d: Document, value: int): Result<seq<Line>> {
    var revenue := d.total - d.taxTotal;
    var till :- TillOf(roles, d);
    var sales :- Leg(roles, Revenue, None, 0, Cents(revenue), revenue != 0);
    var tax :- Leg(roles, SalesTax, None, 0, Cents(d.taxTotal), d.taxTotal != 0);
    var cost :- CostLegs(roles, value, d.stockPosted);
    Success([Line(till, None, Cents(d.total), 0)] + sales + tax + cost)
  }

  function CreditNoteLines(roles: Roles, d: Document, value: int): Result<seq<Line>> {
    var returned := d.total - d.taxTotal;
    var receivable :- Leg(roles, Receivable, d.party, 0, Cents(d.total), true);
    var back :- Leg(roles, Returns, None, Cents(returned), 0, returned != 0);
    var tax :- Leg(roles, SalesTax, None, Cents(d.taxTotal), 0, d.taxTotal != 0);
    if !d.stockPosted || value == 0 then Success(receivable + back + tax)
    else
      var inventory :- AccountOf(roles, InventoryRole);
      var cogs :- AccountOf(roles, CostOfGoods);
      Success(receivable + back + tax
              + [Line(inventory, None, StockMoney(value), 0), Line(cogs, None, 0, StockMoney(value))])
  }

  function GoodsReceiptLines(roles: Roles, d: Document, value: int): Result<seq<Line>> {
    if !d.stockPosted || value == 0 then Success([])
    else
      var inventory :- AccountOf(roles, InventoryRole);
      var grni :- AccountOf(roles, Grni);
      Success([Line(inventory, None, StockMoney(value), 0), Line(grni, None, 0, StockMoney(value))])
  }

  /** What a bill's net is debited to: inventory when it moved stock itself, goods
      received when its receipt did, and an expense otherwise. */
  function PurchaseTarget(value: int, sourceMoved: bool): Role {
    if value != 0 then InventoryRole else if sourceMoved then Grni else OperatingExpenses
  }

  function BillLines(roles: Roles, d: Document, value: int, sourceMoved: bool): Result<seq<Line>> {
    var net := d.total - d.taxTotal;
    var cost :- Leg(roles, PurchaseTarget(value, sourceMoved), None, Cents(net), 0, net != 0);
    var tax :- Leg(roles, InputTax, None, Cents(d.taxTotal), 0, d.taxTotal != 0);
    var payable :- Leg(roles, Payable, d.party, 0, Cents(d.total), true);
    Success(cost + tax + payable)
  }

  /** The builder of each type that reaches the ledger. */
  function DocumentVoucherLines(roles: Roles, d: Document, value: int, sourceMoved: bool): Result<seq<Line>> {
    match d.kind
    case Invoice => InvoiceLines(roles, d, value)
    case SalesReceipt => ReceiptLines(roles, d, value)
    case CreditNote => CreditNoteLines(roles, d, value)
    case DeliveryChallan => CostLegs(roles, value, d.stockPosted)
    case GoodsReceipt => GoodsReceiptLines(roles, d, value)
    case Bill => BillLines(roles, d, value, sourceMoved)
    case SalesOrder => Success([])
    case PurchaseOrder => Success([])
  }

  function VoucherKindOf(kind: DocType): VoucherType {
    match kind
    case DeliveryChallan => DeliveryVoucher
    case CreditNote => CreditVoucher
    case Bill => BillVoucher
    case GoodsReceipt => ReceiptVoucher
    case _ => SalesInvoice
  }

  /** `_already_posted`: a voucher of this source, reversals aside, in any status. */
  predicate AlreadyPosted(vs: seq<Voucher>, source: Source) {
    exists i :: 0 <= i < |vs| && vs[i].source == source && vs[i].kind != Reversal
  }

  /** `post_document`. */
  function PostDocument(b: Books, roles: Roles, id: nat, d: Document, value: int, sourceMoved: bool): Result<Books> {
    var source := Source(DocumentKind, id);
    if IsOrder(d.kind) || AlreadyPosted(b.vouchers, source) then Success(b)
    else
      var lines :- DocumentVoucherLines(roles, d, value, sourceMoved);
      if lines == [] then Success(b) else PostVoucher(b, VoucherKindOf(d.kind), d.issued, lines, source, true)
  }

  /** The standing voucher of a source, reversals aside. */
  function StandingVoucher(vs: seq<Voucher>, source: Source): (r: Option<nat>)
    ensures r.Some? ==> r.value < |vs| && vs[r.value].source == source && vs[r.value].status.Posted? && vs[r.value].kind != Reversal
    ensures r.None? ==> forall i :: 0 <= i < |vs| ==> !(vs[i].source == source && vs[i].status.Posted? && vs[i].kind != Reversal)
  {
    if vs == [] then None
    else
      var front := StandingVoucher(vs[..|vs| - 1], source);
      var v := vs[|vs| - 1];
      if front.Some? then front
      else if v.source == source && v.status.Posted? && v.kind != Reversal then Some(|vs| - 1)
      else None
  }

  /** `_reverse`. */
  function ReverseSource(b: Books, source: Source, day: Day): Result<Books> {
    var voucher := StandingVoucher(b.vouchers, source);
    if voucher.None? then Success(b) else ReverseVoucher(b, voucher.value, Some(day))
  }

  /** Inventory against another account, whichever way the value goes. */
  function ValueLines(inventory: nat, offset: nat, value: int): seq<Line> {
    if value > 0 then [Line(inventory, None, StockMoney(value), 0), Line(offset, None, 0, StockMoney(value))]
    else [Line(offset, None, StockMoney(-value), 0), Line(inventory, None, 0, StockMoney(-value))]
  }

  /** `post_inventory_adjustment` and `post_opening_stock`: one value against inventory. */
  function PostValue(b: Books, roles: Roles, kind: VoucherType, value: int, offset: Result<nat>, day: Day, source: Source): Result<Books> {
    if value == 0 || AlreadyPosted(b.vouchers, source) then Success(b)
    else
      var inventory :- AccountOf(roles, InventoryRole);
      var other :- offset;
      PostVoucher(b, kind, day, ValueLines(inventory, other, value), source, true)
  }

  function PostAdjustment(b: Books, roles: Roles, value: int, account: Option<nat>, day: Day, movement: nat): Result<Books> {
    PostValue(b, roles, StockVoucher, value,
              if account.Some? then Success(account.value) else AccountOf(roles, StockAdjustments), day, Source(AdjustmentKind, movement))
  }

  function PostOpening(b: Books, roles: Roles, value: int, day: Day, movement: nat): Result<Books> {
    PostValue(b, roles, OpeningVoucher, value, AccountOf(roles, OpeningEquity), day, Source(OpeningStockKind, movement))
  }

  // -------------------------------------------------------------------- proofs

  lemma {:induction false} TotalsConcat(lines: seq<Line>, more: seq<Line>)
    ensures TotalDebit(lines + more) == TotalDebit(lines) + TotalDebit(more)
    ensures TotalCredit(lines + more) == TotalCredit(lines) + TotalCredit(more)
  {
    if more == [] {
      assert lines + more == lines;
    } else {
      TotalsConcat(lines, more[..|more| - 1]);
      assert lines + more == lines + more[..|more| - 1] + [more[|more| - 1]];
      TotalsAppend(lines + more[..|more| - 1], more[|more| - 1]);
    }
  }

  lemma LegTotals(roles: Roles, role: Role, party: Option<nat>, debit: int, credit: int, when: bool)
    requires Leg(roles, role, party, debit, credit, when).Success?
    ensures var lines := Leg(roles, role, party, debit, credit, when).value;
            && TotalDebit(lines) == (if when then debit else 0)
            && TotalCredit(lines) == (if when then credit else 0)
  {
    if when {
      TotalsAppend([], Leg(roles, role, party, debit, credit, when).value[0]);
    }
  }

  lemma PairTotals(one: Line, two: Line)
    ensures TotalDebit([one, two]) == one.debit + two.debit && TotalCredit([one, two]) == one.credit + two.credit
  {
    TotalsAppend([], one);
    TotalsAppend([one], two);
    assert [one] + [two] == [one, two];
  }

  lemma CostLegsTotals(roles: Roles, value: int, posted: bool)
    requires CostLegs(roles, value, posted).Success?
    ensures var lines := CostLegs(roles, value, posted).value; TotalDebit(lines) == TotalCredit(lines)
  {
    if posted && value != 0 {
      var lines := CostLegs(roles, value, posted).value;
      PairTotals(lines[0], lines[1]);
    }
  }

  /** Four groups of lines add up group by group. */
  lemma FourTotals(a: seq<Line>, b: seq<Line>, c: seq<Line>, d: seq<Line>)
    ensures TotalDebit(a + b + c + d) == TotalDebit(a) + TotalDebit(b) + TotalDebit(c) + TotalDebit(d)
    ensures TotalCredit(a + b + c + d) == TotalCredit(a) + TotalCredit(b) + TotalCredit(c) + TotalCredit(d)
  {
    TotalsConcat(a, b);
    TotalsConcat(a + b, c);
    TotalsConcat(a + b + c, d);
  }

  lemma InvoiceBalances(roles: Roles, d: Document, value: int)
    requires InvoiceLines(roles, d, value).Success?
    ensures var lines := InvoiceLines(roles, d, value).value; TotalDebit(lines) == TotalCredit(lines)
  {
    var revenue := d.total - d.taxTotal;
    LegTotals(roles, Receivable, d.party, Cents(d.total), 0, true);
    LegTotals(roles, Revenue, None, 0, Cents(revenue), revenue != 0);
    LegTotals(roles, SalesTax, None, 0, Cents(d.taxTotal), d.taxTotal != 0);
    CostLegsTotals(roles, value, d.stockPosted);
    FourTotals(Leg(roles, Receivable, d.party, Cents(d.total), 0, true).value,
               Leg(roles, Revenue, None, 0, Cents(revenue), revenue != 0).value,
               Leg(roles, SalesTax, None, 0, Cents(d.taxTotal), d.taxTotal != 0).value,
               CostLegs(roles, value, d.stockPosted).value);
  }

  lemma ReceiptBalances(roles: Roles, d: Document, value: int)
    requires ReceiptLines(roles, d, value).Success?
    ensures var lines := ReceiptLines(roles, d, value).value; TotalDebit(lines) == TotalCredit(lines)
  {
    var revenue := d.total - d.taxTotal;
    var till := [Line(TillOf(roles, d).value, None, Cents(d.total), 0)];
    TotalsAppend([], till[0]);
    LegTotals(roles, Revenue, None, 0, Cents(revenue), revenue != 0);
    LegTotals(roles, SalesTax, None, 0, Cents(d.taxTotal), d.taxTotal != 0);
    CostLegsTotals(roles, value, d.stockPosted);
    FourTotals(till, Leg(roles, Revenue, None, 0, Cents(revenue), revenue != 0).value,
               Leg(roles, SalesTax, None, 0, Cents(d.taxTotal), d.taxTotal != 0).value,
               CostLegs(roles, value, d.stockPosted).value);
  }

  lemma CreditNoteBalances(roles: Roles, d: Document, value: int)
    requires CreditNoteLines(roles, d, value).Success?
    ensures var lines := CreditNoteLines(roles, d, value).value; TotalDebit(lines) == TotalCredit(lines)
  {
    var returned := d.total - d.taxTotal;
    LegTotals(roles, Receivable, d.party, 0, Cents(d.total), true);
    LegTotals(roles, Returns, None, Cents(returned), 0, returned != 0);
    LegTotals(roles, SalesTax, None, Cents(d.taxTotal), 0, d.taxTotal != 0);
    var receivable := Leg(roles, Receivable, d.party, 0, Cents(d.total), true).value;
    var back := Leg(roles, Returns, None, Cents(returned), 0, returned != 0).value;
    var tax := Leg(roles, SalesTax, None, Cents(d.taxTotal), 0, d.taxTotal != 0).value;
    var lines := CreditNoteLines(roles, d, value).value;
    var goods := lines[|receivable + back + tax|..];
    assert lines == receivable + back + tax + goods;
    FourTotals(receivable, back, tax, goods);
    if goods != [] {
      assert goods == [goods[0], goods[1]];
      PairTotals(goods[0], goods[1]);
    }
  }

  lemma BillBalances(roles: Roles, d: Document, value: int, sourceMoved: bool)
    requires BillLines(roles, d, value, sourceMoved).Success?
    ensures var lines := BillLines(roles, d, value, sourceMoved).value; TotalDebit(lines) == TotalCredit(lines)
  {
    var net := d.total - d.taxTotal;
    LegTotals(roles, PurchaseTarget(value, sourceMoved), None, Cents(net), 0, net != 0);
    LegTotals(roles, InputTax, None, Cents(d.taxTotal), 0, d.taxTotal != 0);
    LegTotals(roles, Payable, d.party, 0, Cents(d.total), true);
    var cost := Leg(roles, PurchaseTarget(value, sourceMoved), None, Cents(net), 0, net != 0).value;
    var tax := Leg(roles, InputTax, None, Cents(d.taxTotal), 0, d.taxTotal != 0).value;
    TotalsConcat(cost, tax);
    TotalsConcat(cost + tax, Leg(roles, Payable, d.party, 0, Cents(d.total), true).value);
  }

  /** Every document's voucher balances, whatever its amounts and its goods were worth:
      the ledger's balance check never turns a document away. */
  lemma DocumentVouchersBalance(roles: Roles, d: Document, value: int, sourceMoved: bool)
    requires DocumentVoucherLines(roles, d, value, sourceMoved).Success?
    ensures var lines := DocumentVoucherLines(roles, d, value, sourceMoved).value; TotalDebit(lines) == TotalCredit(lines)
  {
    match d.kind
    case Invoice => InvoiceBalances(roles, d, value);
    case SalesReceipt => ReceiptBalances(roles, d, value);
    case CreditNote => CreditNoteBalances(roles, d, value);
    case DeliveryChallan => CostLegsTotals(roles, value, d.stockPosted);
    case GoodsReceipt =>
      if d.stockPosted && value != 0 {
        var lines := GoodsReceiptLines(roles, d, value).value;
        PairTotals(lines[0], lines[1]);
      }
    case Bill => BillBalances(roles, d, value, sourceMoved);
    case _ =>
  }

  /** A credit note that reaches the ledger is worth something: a total of zero or less
      makes a line the ledger refuses. */
  lemma PostedCreditNotePositive(b: Books, roles: Roles, id: nat, d: Document, value: int, sourceMoved: bool)
    requires d.kind.CreditNote? && !AlreadyPosted(b.vouchers, Source(DocumentKind, id))
    requires PostDocument(b, roles, id, d, value, sourceMoved).Success?
    ensures d.total > 0
  {
    var lines := CreditNoteLines(roles, d, value).value;
    PostVoucherEffect(b, CreditVoucher, d.issued, lines, Source(DocumentKind, id), true);
    assert lines[0].credit == Cents(d.total) && lines[0].debit == 0;
    assert ValidAmounts(lines[0]);
  }

  lemma ValueLeg(inventory: nat, offset: nat, value: int)
    requires inventory != offset
    ensures LineNet(ValueLines(inventory, offset, value), inventory, None) == StockMoney(value)
  {
    var lines := ValueLines(inventory, offset, value);
    assert lines[..1] == [lines[0]] && lines[..1][..0] == [];
    assert LineNet(lines[..1][..0], inventory, None) == 0;
  }

  /** The inventory leg of a stock value is that value to the nearest ten-thousandth,
      and exactly that value when it is a whole number of them. */
  lemma InventoryLegIsValue(inventory: nat, offset: nat, value: int)
    requires inventory != offset
    ensures var leg := LineNet(ValueLines(inventory, offset, value), inventory, None);
            && -500 <= 1000 * leg - value <= 500
            && (value % 1000 == 0 ==> 1000 * leg == value)
  {
    var lines := ValueLines(inventory, offset, value);
    assert lines[..1] == [lines[0]] && lines[..1][..0] == [];
    assert LineNet(lines[..1][..0], inventory, None) == 0;
    HalfUpNearest(value, 1000);
    HalfUpNearest(-value, 1000);
    if value % 1000 == 0 {
      ExactUntouched(value / 1000, 1000);
      ExactUntouched(-value / 1000, 1000);
    }
  }
}
