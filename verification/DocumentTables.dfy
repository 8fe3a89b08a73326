/** Sales and purchase documents: what each type does, and the rows of a document.
    Money is in cents, quantities in thousandths. */
module DocumentTables {
  import opened Basics
  import opened StockTables

  datatype DocType = SalesOrder | DeliveryChallan | Invoice | SalesReceipt | CreditNote | PurchaseOrder | GoodsReceipt | Bill

  datatype DocStatus = DraftDoc | SentDoc | ClosedDoc | VoidDoc

  datatype PaymentStatus = Unpaid | Partial | Paid | Credited

  datatype DiscountType = Amount | Percent

  datatype LotAllocation = LotAllocation(lot: nat, quantity: pos)

  datatype LineInput = LineInput(product: Option<nat>, bin: Option<nat>, description: string, quantity: pos, unitPrice: nat,
                                 discountType: DiscountType, discountValue: nat, taxRate: Option<nat>,
                                 lots: seq<LotAllocation>, serials: seq<string>)

  /** A stored line: what was entered, and what it was priced at. */
  datatype DocLine = DocLine(input: LineInput, discount: int, tax: int, lineTotal: int)

  datatype Document = Document(kind: DocType, status: DocStatus, party: Option<nat>, warehouse: Option<nat>, issued: int,
                               source: Option<nat>, lines: seq<DocLine>,
                               subtotal: int, discountTotal: int, taxTotal: int, shipping: int, adjustment: int, total: int,
                               paid: int, credited: int, paymentStatus: PaymentStatus, settled: int,
                               stockPosted: bool, filed: bool, paidThrough: Option<nat>)

  /** What moving goods with a document does to stock: out, nothing, or in. */
  function Direction(kind: DocType): int {
    match kind
    case Invoice => -1
    case SalesReceipt => -1
    case DeliveryChallan => -1
    case CreditNote => 1
    case GoodsReceipt => 1
    case Bill => 1
    case SalesOrder => 0
    case PurchaseOrder => 0
  }

  function MovementOf(kind: DocType): MovementType {
    match kind
    case Invoice => Sale
    case SalesReceipt => Sale
    case DeliveryChallan => Delivery
    case CreditNote => SalesReturn
    case GoodsReceipt => GoodsReceived
    case _ => Purchase
  }

  /** Where the line price is the cost of the goods. */
  predicate PricedAtCost(kind: DocType) {
    kind.GoodsReceipt? || kind.Bill?
  }

  predicate Converts(source: DocType, target: DocType) {
    match source
    case SalesOrder => target.DeliveryChallan? || target.Invoice?
    case DeliveryChallan => target.Invoice?
    case Invoice => target.CreditNote?
    case PurchaseOrder => target.GoodsReceipt? || target.Bill?
    case GoodsReceipt => target.Bill?
    case _ => false
  }

  /** Orders close when a document converted from them is finalized. */
  predicate IsOrder(kind: DocType) {
    kind.SalesOrder? || kind.PurchaseOrder?
  }

  predicate BinEnabled(kind: DocType) {
    kind.DeliveryChallan? || kind.Invoice? || kind.CreditNote? || kind.GoodsReceipt? || kind.Bill?
  }

  predicate Live(d: Document) {
    !d.status.VoidDoc?
  }
}
