/** Every document is always worth what its own lines say at current rates, and a
    conversion carries the money over unchanged. */
module DocumentMoney {
  import opened Basics
  import opened SerialNumbers
  import opened StockTables
  import opened DocumentTables
  import opened Pricing
  import opened DocumentStock
  import opened Documents
  import opened Lifecycle

  ghost predicate MoneyInv(o: Org) {
    forall id {:trigger MoneySound(o.docs[id], o.rates)} :: id in o.docs ==> MoneySound(o.docs[id], o.rates)
  }

  /** What money depends on. */
  predicate SameMoney(d: Document, d': Document) {
    && d'.lines == d.lines && d'.subtotal == d.subtotal && d'.discountTotal == d.discountTotal && d'.taxTotal == d.taxTotal
    && d'.shipping == d.shipping && d'.adjustment == d.adjustment && d'.total == d.total
  }

  lemma SameMoneySound(d: Document, d': Document, rates: map<nat, TaxRate>)
    requires MoneySound(d, rates) && SameMoney(d, d')
    ensures MoneySound(d', rates)
  {
  }

  lemma SameDocsKeepMoney(o: Org, o': Org)
    requires MoneyInv(o) && o'.rates == o.rates
    requires forall id :: id in o'.docs ==> id in o.docs && SameMoney(o.docs[id], o'.docs[id])
    ensures MoneyInv(o')
  {
    forall id | id in o'.docs ensures MoneySound(o'.docs[id], o'.rates) {
      SameMoneySound(o.docs[id], o'.docs[id], o.rates);
    }
  }

  lemma AddKeepsMoney(o: Org, o': Org)
    requires MoneyInv(o) && o'.rates == o.rates && o'.docs.Keys == o.docs.Keys + {o.next}
    requires forall id :: id in o.docs && id != o.next ==> o'.docs[id] == o.docs[id]
    requires o.next in o'.docs && MoneySound(o'.docs[o.next], o.rates)
    ensures MoneyInv(o')
  {
    forall id | id in o'.docs ensures MoneySound(o'.docs[id], o'.rates) {
      assert id != o.next ==> MoneySound(o.docs[id], o.rates);
    }
  }

  lemma CreateKeepsMoney(o: Org, kind: DocType, i: DocInput)
    requires MoneyInv(o) && Create(o, kind, i).Success?
    ensures MoneyInv(Create(o, kind, i).value)
  {
    BuildLinesSound(o.catalog, o.rates, kind, i.lines);
    AddKeepsMoney(o, Create(o, kind, i).value);
  }

  lemma UpdateKeepsMoney(o: Org, id: nat, u: DocUpdate)
    requires MoneyInv(o) && Update(o, id, u).Success?
    ensures MoneyInv(Update(o, id, u).value)
  {
    var o' := Update(o, id, u).value;
    assert MoneySound(o.docs[id], o.rates);
    if u.lines.Some? {
      BuildLinesSound(o.catalog, o.rates, o.docs[id].kind, u.lines.value);
    }
    forall x | x in o'.docs ensures MoneySound(o'.docs[x], o'.rates) {
      assert x != id ==> MoneySound(o.docs[x], o.rates);
    }
  }

  lemma ConvertKeepsMoney(o: Org, id: nat, target: DocType, today: int)
    requires MoneyInv(o) && Convert(o, id, target, today).Success?
    ensures MoneyInv(Convert(o, id, target, today).value)
  {
    BuildLinesSound(o.catalog, o.rates, target, CarriedInputs(o.docs[id].lines, PreservesGoods(o.docs[id], target)));
    AddKeepsMoney(o, Convert(o, id, target, today).value);
  }

  /** A rate's percentage only changes while no line uses it. */
  lemma RatesKeepLine(l: DocLine, rates: map<nat, TaxRate>, rates': map<nat, TaxRate>)
    requires LineSound(l, rates)
    requires l.input.taxRate.Some? ==> l.input.taxRate.value in rates' && rates'[l.input.taxRate.value].rate == rates[l.input.taxRate.value].rate
    ensures LineSound(l, rates')
  {
  }

  lemma RatesKeepMoney(o: Org, rates: map<nat, TaxRate>)
    requires MoneyInv(o)
    requires forall r :: r in o.rates ==> r in rates && (rates[r].rate == o.rates[r].rate || !RateInUse(o.docs, r))
    ensures MoneyInv(o.(rates := rates))
  {
    forall id | id in o.docs ensures MoneySound(o.docs[id], rates) {
      assert MoneySound(o.docs[id], o.rates);
      forall i | 0 <= i < |o.docs[id].lines| ensures LineSound(o.docs[id].lines[i], rates) {
        var l := o.docs[id].lines[i];
        assert LineSound(l, o.rates);
        assert l in o.docs[id].lines;
        RatesKeepLine(l, o.rates, rates);
      }
    }
  }

  lemma SendingKeepsMoney(docs: Docs, id: nat, d: Document, sent: Document, x: nat)
    requires id in docs && x in docs && d.(warehouse := docs[id].warehouse) == docs[id]
    requires SourcesAfter(docs, d).Success? && SameMoney(d, sent)
    ensures x in SourcesAfter(docs, d).value[id := sent] && SameMoney(docs[x], SourcesAfter(docs, d).value[id := sent][x])
  {
    SourcesAfterEffect(docs, d);
    var docs' := SourcesAfter(docs, d).value;
    assert docs'[x].(status := DraftDoc, credited := 0, paymentStatus := Unpaid) == docs[x].(status := DraftDoc, credited := 0, paymentStatus := Unpaid);
  }

  lemma SentIsWorthTheSame(docs: Docs, d: Document, moves: bool, filing: Filing)
    ensures SameMoney(d, FinalDocument(docs, d, moves, filing))
  {
  }

  lemma SentDocsKeepMoney(o: Org, o': Org, id: nat, d: Document, sent: Document)
    requires MoneyInv(o) && o'.rates == o.rates
    requires id in o.docs && d.(warehouse := o.docs[id].warehouse) == o.docs[id] && SourcesAfter(o.docs, d).Success? && SameMoney(d, sent)
    requires o'.docs == SourcesAfter(o.docs, d).value[id := sent]
    ensures MoneyInv(o')
  {
    SourcesAfterEffect(o.docs, d);
    forall x | x in o'.docs ensures x in o.docs && SameMoney(o.docs[x], o'.docs[x]) {
      SendingKeepsMoney(o.docs, id, d, sent, x);
    }
    SameDocsKeepMoney(o, o');
  }

  lemma FinalizeKeepsMoney(o: Org, id: nat, filing: Filing)
    requires MoneyInv(o) && Finalize(o, id, filing).Success?
    ensures MoneyInv(Finalize(o, id, filing).value)
  {
    var d, moves := FinalizeEffect(o, id, filing);
    var sent := FinalDocument(o.docs, d, moves, filing);
    assert SameMoney(d, sent) by {
      SentIsWorthTheSame(o.docs, d, moves, filing);
    }
    SentDocsKeepMoney(o, Finalize(o, id, filing).value, id, d, sent);
  }

  lemma VoidKeepsMoney(o: Org, id: nat)
    requires MoneyInv(o) && VoidDocument(o, id).Success?
    ensures MoneyInv(VoidDocument(o, id).value)
  {
    VoidEffect(o, id);
    SameDocsKeepMoney(o, VoidDocument(o, id).value);
  }

  lemma PaymentKeepsMoney(o: Org, id: nat, delta: int)
    requires MoneyInv(o) && id in o.docs
    ensures MoneyInv(o.(docs := o.docs[id := ApplySettlement(o.docs[id], delta)]))
  {
    SameDocsKeepMoney(o, o.(docs := o.docs[id := ApplySettlement(o.docs[id], delta)]));
  }

  lemma DeleteKeepsMoney(o: Org, id: nat)
    requires MoneyInv(o) && Delete(o, id).Success?
    ensures MoneyInv(Delete(o, id).value)
  {
    SameDocsKeepMoney(o, Delete(o, id).value);
  }

  lemma OtherStepsKeepMoney(o: Org, op: OrgOp)
    requires MoneyInv(o) && OrgStep(o, op).Success? && LeavesDocs(op)
    ensures MoneyInv(OrgStep(o, op).value)
  {
    var o' := OrgStep(o, op).value;
    OtherStepsLeaveDocs(o, op);
    if op.UpdateRateOp? || op.AddRateOp? {
      RatesKeepMoney(o, o'.rates);
    } else {
      SameDocsKeepMoney(o, o');
    }
  }

  /** In every run each line's tax is its taxable value at the rate's current
      percentage, and each total is its lines plus shipping and adjustment. */
  lemma StepKeepsMoney(o: Org, op: OrgOp)
    requires MoneyInv(o) && OrgStep(o, op).Success?
    ensures MoneyInv(OrgStep(o, op).value)
  {
    if LeavesDocs(op) {
      OtherStepsKeepMoney(o, op);
    } else {
      match op
      case CreateOp(kind, input) => CreateKeepsMoney(o, kind, input);
      case UpdateOp(id, update) => UpdateKeepsMoney(o, id, update);
      case ConvertOp(id, target, today) => ConvertKeepsMoney(o, id, target, today);
      case FinalizeOp(id, filing) => FinalizeKeepsMoney(o, id, filing);
      case VoidOp(id) => VoidKeepsMoney(o, id);
      case DeleteOp(id) => DeleteKeepsMoney(o, id);
      case PayOp(id, amount) => PaymentKeepsMoney(o, id, amount);
      case UnpayOp(id, amount) => PaymentKeepsMoney(o, id, -amount);
    }
  }

  lemma SameTermsSameMoney(l: DocLine, l': DocLine, rates: map<nat, TaxRate>)
    requires LineSound(l, rates) && LineSound(l', rates) && SameTerms(l.input, l'.input)
    ensures l'.discount == l.discount && l'.tax == l.tax && l'.lineTotal == l.lineTotal
  {
  }

  /** The lines a conversion rebuilds are its source's lines, priced the same. */
  lemma RebuiltLines(c: Catalog, rates: map<nat, TaxRate>, target: DocType, lines: seq<DocLine>, preserve: bool)
    requires LinesSound(lines, rates) && BuildLines(c, rates, target, CarriedInputs(lines, preserve)).Success?
    ensures var built := BuildLines(c, rates, target, CarriedInputs(lines, preserve)).value;
            && |built| == |lines| && LinesSound(built, rates)
            && forall i :: 0 <= i < |lines| ==> SameTerms(lines[i].input, built[i].input) && built[i].lineTotal == lines[i].lineTotal
  {
    var inputs := CarriedInputs(lines, preserve);
    var built := BuildLines(c, rates, target, inputs).value;
    BuildLinesSound(c, rates, target, inputs);
    forall i | 0 <= i < |lines| ensures SameTerms(lines[i].input, built[i].input) && built[i].lineTotal == lines[i].lineTotal {
      assert SameTerms(built[i].input, inputs[i]);
      assert LineSound(lines[i], rates) && LineSound(built[i], rates);
      SameTermsSameMoney(lines[i], built[i], rates);
    }
  }

  lemma ConvertedDocument(o: Org, id: nat, target: DocType, today: int)
    requires Convert(o, id, target, today).Success?
    ensures id in o.docs && o.next in Convert(o, id, target, today).value.docs
    ensures var d, source := Convert(o, id, target, today).value.docs[o.next], o.docs[id];
            && BuildLines(o.catalog, o.rates, target, CarriedInputs(source.lines, PreservesGoods(source, target))) == Success(d.lines)
            && d.party == source.party && d.source == Some(id) && d.shipping == source.shipping && d.adjustment == source.adjustment
            && TotalsSound(d)
  {
  }

  /** A freshly converted document is worth exactly what its source is. */
  lemma ConversionPreservesMoney(o: Org, id: nat, target: DocType, today: int)
    requires MoneyInv(o) && Convert(o, id, target, today).Success?
    ensures var d, source := Convert(o, id, target, today).value.docs[o.next], o.docs[id];
            && d.subtotal == source.subtotal && d.discountTotal == source.discountTotal
            && d.taxTotal == source.taxTotal && d.total == source.total
            && d.party == source.party && d.source == Some(id) && |d.lines| == |source.lines|
            && forall i :: 0 <= i < |d.lines| ==> SameTerms(source.lines[i].input, d.lines[i].input) && d.lines[i].lineTotal == source.lines[i].lineTotal
  {
    ConvertedDocument(o, id, target, today);
    var source := o.docs[id];
    assert MoneySound(source, o.rates);
    RebuiltLines(o.catalog, o.rates, target, source.lines, PreservesGoods(source, target));
    SameLinesSameTotals(source.lines, Convert(o, id, target, today).value.docs[o.next].lines, o.rates);
  }
}
