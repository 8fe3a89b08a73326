/** What lines and documents are worth: bases, discounts and taxes to the cent, and
    the totals of a document. */
module Pricing {
  import opened Basics
  import opened Rounding
  import opened SerialNumbers
  import opened StockTables
  import opened DocumentTables

  /** A percentage in thousandths, and whether new lines may use it. */
  datatype TaxRate = TaxRate(rate: nat, active: bool)

  function Base(i: LineInput): nat {
    HalfEvenNonNegative(i.quantity * i.unitPrice, 1000);
    HalfEven(i.quantity * i.unitPrice, 1000)
  }

  function DiscountOf(i: LineInput): int {
    var discount := if i.discountType.Percent? then HalfEven(Base(i) * i.discountValue, 10000) else i.discountValue;
    if discount < Base(i) then discount else Base(i)
  }

  function RateOf(rates: map<nat, TaxRate>, rate: Option<nat>): nat {
    if rate.Some? && rate.value in rates then rates[rate.value].rate else 0
  }

  function Taxable(i: LineInput): int {
    Base(i) - DiscountOf(i)
  }

  function TaxOf(i: LineInput, rates: map<nat, TaxRate>): int {
    HalfEven(Taxable(i) * RateOf(rates, i.taxRate), 100000)
  }

  /** A line as `_build_lines` prices it. */
  function PricedLine(i: LineInput, rates: map<nat, TaxRate>): DocLine {
    DocLine(i, DiscountOf(i), TaxOf(i, rates), Taxable(i) + TaxOf(i, rates))
  }

  // ------------------------------------------------------------------- totals

  function SubtotalOf(lines: seq<DocLine>): int {
    if lines == [] then 0 else SubtotalOf(lines[..|lines| - 1]) + Base(lines[|lines| - 1].input)
  }

  function DiscountTotalOf(lines: seq<DocLine>): int {
    if lines == [] then 0 else DiscountTotalOf(lines[..|lines| - 1]) + lines[|lines| - 1].discount
  }

  function TaxTotalOf(lines: seq<DocLine>): int {
    if lines == [] then 0 else TaxTotalOf(lines[..|lines| - 1]) + lines[|lines| - 1].tax
  }

  function LineTotalsOf(lines: seq<DocLine>): int {
    if lines == [] then 0 else LineTotalsOf(lines[..|lines| - 1]) + lines[|lines| - 1].lineTotal
  }

  /** `_apply_totals`. */
  function WithTotals(d: Document, subtotal: int, discountTotal: int, taxTotal: int): Document {
    d.(subtotal := subtotal, discountTotal := discountTotal, taxTotal := taxTotal,
       total := subtotal - discountTotal + taxTotal + d.shipping + d.adjustment)
  }

  // ------------------------------------------------------------ building lines

  /** What `_validate_products` and `_tax_map` find: known products, active rates. */
  predicate LinesKnown(c: Catalog, rates: map<nat, TaxRate>, inputs: seq<LineInput>) {
    forall i :: 0 <= i < |inputs| ==>
      && (inputs[i].product.Some? ==> inputs[i].product.value in c.products)
      && (inputs[i].taxRate.Some? ==> inputs[i].taxRate.value in rates && rates[inputs[i].taxRate.value].active)
  }

  predicate LotsDistinct(lots: seq<LotAllocation>) {
    forall i, j :: 0 <= i < j < |lots| ==> lots[i].lot != lots[j].lot
  }

  /** One turn of `_build_lines`. */
  function BuildLine(c: Catalog, rates: map<nat, TaxRate>, kind: DocType, i: LineInput): Result<DocLine> {
    if !(BinEnabled(kind) || (i.lots == [] && i.serials == [])) then Failure(BadRequest)
    else
      :- Need(i.lots != [] ==> i.product.Some? && ModeOf(c, i.product.value).LotTracked?, BadRequest);
      :- Need(i.serials != [] ==> i.product.Some? && ModeOf(c, i.product.value).SerialTracked?, BadRequest);
      :- Need(i.product.Some? ==> forall a :: a in i.lots ==> LotOf(c, a.lot, i.product.value), NotFound);
      :- Need(LotsDistinct(i.lots), BadRequest);
      var serials :- NormalizeSerials(i.serials);
      Success(PricedLine(i.(serials := serials), rates))
  }

  function BuildEach(c: Catalog, rates: map<nat, TaxRate>, kind: DocType, inputs: seq<LineInput>): Result<seq<DocLine>>
    decreases |inputs|
  {
    if inputs == [] then Success([])
    else
      var front :- BuildEach(c, rates, kind, inputs[..|inputs| - 1]);
      var line :- BuildLine(c, rates, kind, inputs[|inputs| - 1]);
      Success(front + [line])
  }

  function BuildLines(c: Catalog, rates: map<nat, TaxRate>, kind: DocType, inputs: seq<LineInput>): Result<seq<DocLine>> {
    if !LinesKnown(c, rates, inputs) then Failure(NotFound)
    else
      BuildEach(c, rates, kind, inputs)
  }

  // ---------------------------------------------------------------- invariants

  /** A line is worth what its own terms and the rate's current percentage say, and
      its serials are stored clean. */
  ghost predicate LineSound(l: DocLine, rates: map<nat, TaxRate>) {
    && l == PricedLine(l.input, rates)
    && (l.input.taxRate.Some? ==> l.input.taxRate.value in rates)
    && NormalizeSerials(l.input.serials) == Success(l.input.serials)
  }

  ghost predicate LinesSound(lines: seq<DocLine>, rates: map<nat, TaxRate>) {
    forall i :: 0 <= i < |lines| ==> LineSound(lines[i], rates)
  }

  ghost predicate TotalsSound(d: Document) {
    && d.subtotal == SubtotalOf(d.lines)
    && d.discountTotal == DiscountTotalOf(d.lines)
    && d.taxTotal == TaxTotalOf(d.lines)
    && d.total == d.subtotal - d.discountTotal + d.taxTotal + d.shipping + d.adjustment
  }

  ghost predicate MoneySound(d: Document, rates: map<nat, TaxRate>) {
    LinesSound(d.lines, rates) && TotalsSound(d)
  }

  // -------------------------------------------------------------------- proofs

  lemma BuildLineSound(c: Catalog, rates: map<nat, TaxRate>, kind: DocType, i: LineInput)
    requires BuildLine(c, rates, kind, i).Success? && (i.taxRate.Some? ==> i.taxRate.value in rates)
    ensures var line := BuildLine(c, rates, kind, i).value;
            LineSound(line, rates) && SameTerms(line.input, i) && line.input.(serials := []) == i.(serials := [])
  {
    NormalizeIdempotent(i.serials);
  }

  lemma {:induction false} BuildEachSound(c: Catalog, rates: map<nat, TaxRate>, kind: DocType, inputs: seq<LineInput>)
    requires LinesKnown(c, rates, inputs) && BuildEach(c, rates, kind, inputs).Success?
    ensures var lines := BuildEach(c, rates, kind, inputs).value;
            |lines| == |inputs| && forall i :: 0 <= i < |inputs| ==> BuildLine(c, rates, kind, inputs[i]) == Success(lines[i])
    decreases |inputs|
  {
    if inputs != [] {
      BuildEachSound(c, rates, kind, inputs[..|inputs| - 1]);
    }
  }

  lemma BuildLinesSound(c: Catalog, rates: map<nat, TaxRate>, kind: DocType, inputs: seq<LineInput>)
    requires BuildLines(c, rates, kind, inputs).Success?
    ensures var lines := BuildLines(c, rates, kind, inputs).value;
            && |lines| == |inputs| && LinesSound(lines, rates)
            && forall i :: 0 <= i < |inputs| ==> SameTerms(lines[i].input, inputs[i]) && lines[i].input.(serials := []) == inputs[i].(serials := [])
  {
    BuildEachSound(c, rates, kind, inputs);
    forall i | 0 <= i < |inputs|
      ensures var lines := BuildLines(c, rates, kind, inputs).value;
              LineSound(lines[i], rates) && SameTerms(lines[i].input, inputs[i]) && lines[i].input.(serials := []) == inputs[i].(serials := [])
    {
      BuildLineSound(c, rates, kind, inputs[i]);
    }
  }

  // ------------------------------------------------------------- by the columns

  /** A whole number nearest to a fraction, the even one on a tie. */
  predicate NearestEven(n: int, d: int, r: int)
    requires d > 0
  {
    -d <= 2 * (d * r - n) <= d && (2 * (d * r - n) == d || 2 * (d * r - n) == -d ==> r % 2 == 0)
  }

  /** What is left of an amount asked for when it cannot be more than another. */
  predicate Capped(asked: int, most: int, r: int) {
    r == if asked < most then asked else most
  }

  /** A stored line, in its own columns: before tax and with its discount it is quantity
      times price to the nearest cent; the discount is the amount entered, or that
      percentage to the nearest cent, and no more than what it is taken from; and the tax
      is its rate's percentage of what is left, to the nearest cent. */
  ghost predicate PricedByColumns(l: DocLine, rates: map<nat, TaxRate>) {
    var i, taxed := l.input, l.lineTotal - l.tax;
    var whole := taxed + l.discount;
    var percent := if i.taxRate.Some? && i.taxRate.value in rates then rates[i.taxRate.value].rate else 0;
    && NearestEven(i.quantity * i.unitPrice, 1000, whole)
    && (if i.discountType.Amount? then Capped(i.discountValue, whole, l.discount)
        else exists off :: NearestEven(whole * i.discountValue, 10000, off) && Capped(off, whole, l.discount))
    && NearestEven(taxed * percent, 100000, l.tax)
  }

  lemma PricedLineByColumns(i: LineInput, rates: map<nat, TaxRate>)
    ensures PricedByColumns(PricedLine(i, rates), rates)
  {
    HalfEvenNearest(i.quantity * i.unitPrice, 1000, Base(i));
    if i.discountType.Percent? {
      var off := HalfEven(Base(i) * i.discountValue, 10000);
      HalfEvenNearest(Base(i) * i.discountValue, 10000, off);
      assert NearestEven(Base(i) * i.discountValue, 10000, off) && Capped(off, Base(i), DiscountOf(i));
    }
    HalfEvenNearest(Taxable(i) * RateOf(rates, i.taxRate), 100000, TaxOf(i, rates));
  }

  function SumTax(lines: seq<DocLine>): int {
    if lines == [] then 0 else SumTax(lines[..|lines| - 1]) + lines[|lines| - 1].tax
  }

  function SumDiscount(lines: seq<DocLine>): int {
    if lines == [] then 0 else SumDiscount(lines[..|lines| - 1]) + lines[|lines| - 1].discount
  }

  /** A document's totals, in its lines' columns. */
  predicate TotalsByColumns(d: Document) {
    && d.taxTotal == SumTax(d.lines)
    && d.discountTotal == SumDiscount(d.lines)
    && d.subtotal == LineTotalsOf(d.lines) - SumTax(d.lines) + SumDiscount(d.lines)
    && d.total == LineTotalsOf(d.lines) + d.shipping + d.adjustment
  }

  lemma {:induction false} TotalsOverColumns(lines: seq<DocLine>, rates: map<nat, TaxRate>)
    requires LinesSound(lines, rates)
    ensures TaxTotalOf(lines) == SumTax(lines) && DiscountTotalOf(lines) == SumDiscount(lines)
    ensures SubtotalOf(lines) == LineTotalsOf(lines) - SumTax(lines) + SumDiscount(lines)
  {
    if lines != [] {
      assert LineSound(lines[|lines| - 1], rates);
      TotalsOverColumns(lines[..|lines| - 1], rates);
    }
  }

  lemma SoundByColumns(d: Document, rates: map<nat, TaxRate>, i: nat)
    requires MoneySound(d, rates)
    ensures TotalsByColumns(d) && (i < |d.lines| ==> PricedByColumns(d.lines[i], rates))
  {
    TotalsOverColumns(d.lines, rates);
    if i < |d.lines| {
      assert LineSound(d.lines[i], rates);
      PricedLineByColumns(d.lines[i].input, rates);
    }
  }

  /** A discount is between nothing and the base, so what is taxed is never negative;
      and a percentage up to 100 is never cut short by the base. */
  lemma TaxableInRange(i: LineInput)
    ensures 0 <= Taxable(i) <= Base(i)
    ensures i.discountType.Percent? && i.discountValue <= 10000 ==> DiscountOf(i) == HalfEven(Base(i) * i.discountValue, 10000)
  {
    PercentInRange(Base(i), i.discountValue);
  }

  lemma PercentInRange(base: nat, percent: nat)
    ensures HalfEven(base * percent, 10000) >= 0
    ensures percent <= 10000 ==> HalfEven(base * percent, 10000) <= base
  {
    var n := base * percent;
    MulMono(base, 0, percent);
    HalfEvenNonNegative(n, 10000);
    if percent <= 10000 {
      MulMono(base, percent, 10000);
      HalfEvenAtMost(n, 10000, base);
    }
  }

  lemma MulMono(a: nat, b: int, c: int)
    requires b <= c
    ensures a * b <= a * c
  {
  }

  /** A sound document's total is its line totals plus shipping and adjustment. */
  lemma TotalIsLineTotals(d: Document, rates: map<nat, TaxRate>)
    requires MoneySound(d, rates)
    ensures d.total == LineTotalsOf(d.lines) + d.shipping + d.adjustment
  {
    LineTotalsAdd(d.lines, rates);
  }

  lemma {:induction false} LineTotalsAdd(lines: seq<DocLine>, rates: map<nat, TaxRate>)
    requires LinesSound(lines, rates)
    ensures LineTotalsOf(lines) == SubtotalOf(lines) - DiscountTotalOf(lines) + TaxTotalOf(lines)
  {
    if lines != [] {
      assert LineSound(lines[|lines| - 1], rates);
      LineTotalsAdd(lines[..|lines| - 1], rates);
    }
  }

  lemma PricedAlike(l: DocLine, l': DocLine, rates: map<nat, TaxRate>)
    requires LineSound(l, rates) && LineSound(l', rates) && SameTerms(l.input, l'.input)
    ensures Base(l'.input) == Base(l.input) && l'.discount == l.discount && l'.tax == l.tax
  {
  }

  /** Lines entered alike and priced at the same rates add up alike. */
  lemma {:induction false} SameLinesSameTotals(lines: seq<DocLine>, lines': seq<DocLine>, rates: map<nat, TaxRate>)
    requires LinesSound(lines, rates) && LinesSound(lines', rates) && |lines| == |lines'|
    requires forall i :: 0 <= i < |lines| ==> SameTerms(lines[i].input, lines'[i].input)
    ensures SubtotalOf(lines') == SubtotalOf(lines) && DiscountTotalOf(lines') == DiscountTotalOf(lines)
    ensures TaxTotalOf(lines') == TaxTotalOf(lines)
  {
    if lines != [] {
      var i := |lines| - 1;
      PricedAlike(lines[i], lines'[i], rates);
      SameLinesSameTotals(lines[..i], lines'[..i], rates);
    }
  }

  /** Two lines that say the same about money and goods, bins and tracking aside. */
  predicate SameTerms(i: LineInput, j: LineInput) {
    && i.product == j.product && i.description == j.description && i.quantity == j.quantity && i.unitPrice == j.unitPrice
    && i.discountType == j.discountType && i.discountValue == j.discountValue && i.taxRate == j.taxRate
  }
}
