/** Finalizing a document and voiding it at once: when that is possible, and that it
    leaves everything but the document itself, and the ledger's history, as it was. */
module FinalizeUndone {
  import opened Basics
  import opened StockTables
  import opened Inventory
  import opened DocumentTables
  import opened DocumentStock
  import opened LedgerTables
  import opened Ledger
  import opened Poster
  import opened Documents
  import opened Lifecycle
  import opened DocumentMoney
  import opened DocumentVouchers
  import opened CreditSettlement
  import opened GoodsInvariant
  import opened OrgInvariant
  import opened StockUndone

  // ------------------------------------------------------------------ the books

  lemma MirrorValid(b: Books, b': Books, lines: seq<Line>)
    requires ValidateLines(b, lines, true).Pass? && b'.accounts == b.accounts && b'.parties == b.parties
    ensures ValidateLines(b', Mirror(lines), true).Pass?
  {
    var mirror := Mirror(lines);
    MirrorLines(lines);
    forall i | 0 <= i < |mirror|
      ensures ValidAccount(b', mirror[i].account, true) && ValidAmounts(mirror[i]) && (mirror[i].party.Some? ==> mirror[i].party.value in b'.parties)
    {
      assert ValidAccount(b, lines[i].account, true) && ValidAmounts(lines[i]);
    }
  }

  /** What was posted on a day can be reversed on that day, while nothing else changes. */
  lemma ReversalAccepted(b: Books, b': Books, id: nat, day: Day)
    requires id < |b'.vouchers| && b'.vouchers[id].status.Posted?
    requires ValidateLines(b, b'.vouchers[id].lines, true).Pass? && OpenPeriod(b, day).Success?
    requires b'.accounts == b.accounts && b'.parties == b.parties && b'.periods == b.periods && b'.years == b.years
    ensures ReverseVoucher(b', id, Some(day)).Success?
  {
    var lines := Mirror(b'.vouchers[id].lines);
    MirrorValid(b, b', b'.vouchers[id].lines);
    var drafted := CreateVoucher(b', Reversal, day, lines, b'.vouchers[id].source, true).value;
    assert OpenPeriod(drafted, day) == OpenPeriod(b', day) == OpenPeriod(b, day);
    MirrorValid(b, drafted, b'.vouchers[id].lines);
  }

  /** A voucher and its mirror on the same day cancel on every account and party. */
  lemma PairCancels(es: seq<Entry>, n: nat, v: Voucher, m: nat, w: Voucher, account: nat, party: Option<nat>, day: Day)
    requires w.day == v.day && w.lines == Mirror(v.lines)
    ensures Net(es + EntriesFrom(n, v, v.lines) + EntriesFrom(m, w, w.lines), OfParty(account, party, day)) == Net(es, OfParty(account, party, day))
  {
    var f := OfParty(account, party, day);
    SumsConcat(es, EntriesFrom(n, v, v.lines), f);
    SumsConcat(es + EntriesFrom(n, v, v.lines), EntriesFrom(m, w, w.lines), f);
    NetOfBlock(n, v, v.lines, account, party, day);
    NetOfBlock(m, w, w.lines, account, party, day);
    MirrorNet(v.lines, account, party);
  }

  /** No voucher names the source. */
  ghost predicate Unposted(vs: seq<Voucher>, source: Source) {
    forall i :: 0 <= i < |vs| ==> vs[i].source != source
  }

  lemma NewVoucherStands(vs: seq<Voucher>, v: Voucher, source: Source)
    requires Unposted(vs, source) && v.source == source && v.status.Posted? && v.kind != Reversal
    ensures StandingVoucher(vs + [v], source) == Some(|vs|)
  {
    var r := StandingVoucher(vs + [v], source);
    assert (vs + [v])[|vs|] == v;
  }

  lemma {:induction false} StandingGoesBack(b: Books, b': Books, v: Voucher, account: nat, party: Option<nat>, asOf: Day)
    requires Unposted(b.vouchers, v.source) && v.status.Posted? && v.kind != Reversal
    requires b'.vouchers == b.vouchers + [v] && b'.entries == b.entries + EntriesFrom(|b.vouchers|, v, v.lines)
    requires b'.accounts == b.accounts && b'.parties == b.parties && b'.periods == b.periods && b'.years == b.years
    requires ValidateLines(b, v.lines, true).Pass? && OpenPeriod(b, v.day).Success?
    ensures ReverseSource(b', v.source, v.day).Success?
    ensures Net(ReverseSource(b', v.source, v.day).value.entries, OfParty(account, party, asOf)) == Net(b.entries, OfParty(account, party, asOf))
  {
    var n := |b.vouchers|;
    NewVoucherStands(b.vouchers, v, v.source);
    assert b'.vouchers[n] == v;
    ReversalAccepted(b, b', n, v.day);
    var w := ReverseEffect(b', n, Some(v.day));
    PairCancels(b.entries, n, v, n + 1, w, account, party, asOf);
  }

  /** One posting, and its reversal. */
  lemma VoucherGoesBack(b: Books, kind: VoucherType, day: Day, lines: seq<Line>, source: Source, account: nat, party: Option<nat>, asOf: Day)
    requires kind != Reversal && Unposted(b.vouchers, source) && PostVoucher(b, kind, day, lines, source, true).Success?
    ensures ReverseSource(PostVoucher(b, kind, day, lines, source, true).value, source, day).Success?
    ensures var back := ReverseSource(PostVoucher(b, kind, day, lines, source, true).value, source, day).value;
            Net(back.entries, OfParty(account, party, asOf)) == Net(b.entries, OfParty(account, party, asOf))
  {
    PostVoucherEffect(b, kind, day, lines, source, true);
    var b' := PostVoucher(b, kind, day, lines, source, true).value;
    var year :| b' == b.(vouchers := b.vouchers + [Voucher(kind, day, Posted, source, lines, None, year)],
                         entries := b.entries + EntriesFrom(|b.vouchers|, Voucher(kind, day, Posted, source, lines, None, year), lines));
    StandingGoesBack(b, b', Voucher(kind, day, Posted, source, lines, None, year), account, party, asOf);
  }

  lemma NothingStands(vs: seq<Voucher>, source: Source)
    requires Unposted(vs, source)
    ensures StandingVoucher(vs, source) == None
  {
  }

  /** A document's posting, if it makes one, and its reversal: every balance returns. */
  lemma BooksGoBack(b: Books, roles: Roles, id: nat, d: Document, value: int, sourceMoved: bool, account: nat, party: Option<nat>, asOf: Day)
    requires Unposted(b.vouchers, DocSource(id)) && PostDocument(b, roles, id, d, value, sourceMoved).Success?
    ensures ReverseSource(PostDocument(b, roles, id, d, value, sourceMoved).value, DocSource(id), d.issued).Success?
    ensures var back := ReverseSource(PostDocument(b, roles, id, d, value, sourceMoved).value, DocSource(id), d.issued).value;
            Net(back.entries, OfParty(account, party, asOf)) == Net(b.entries, OfParty(account, party, asOf))
  {
    var call := PostingIsStep(b, roles, id, d, value, sourceMoved);
    if call.None? {
      NothingStands(b.vouchers, DocSource(id));
    } else {
      var lines := DocumentVoucherLines(roles, d, value, sourceMoved).value;
      assert !AlreadyPosted(b.vouchers, DocSource(id));
      VoucherGoesBack(b, VoucherKindOf(d.kind), d.issued, lines, DocSource(id), account, party, asOf);
    }
  }

  // -------------------------------------------------------------- the documents

  /** While its only dependent is a draft an order is not closed. */
  lemma SourceIsSent(docs: Docs, next: nat, id: nat, d: Document)
    requires LifecycleInv(docs, next) && id in docs && docs[id].status.DraftDoc? && docs[id].source == d.source && d.source.Some?
    requires GuardSource(docs, d).Pass?
    ensures d.source.value in docs && d.source.value != id && docs[d.source.value].status.SentDoc?
  {
    var s := d.source.value;
    assert Linked(docs, id);
    assert Linked(docs, s);
    assert id in ActiveDependents(docs, s, None);
  }

  /** The source of a document credited, and the credit taken back. */
  lemma CreditGoesBack(source: Document, total: int)
    requires source.credited >= 0 && total > 0 && source.paymentStatus == PaymentStatusOf(source.paid, source.credited, source.total)
    ensures ApplyCreditSettlement(ApplyCreditSettlement(source, total), -total) == source
  {
  }

  /** A draft about to be sent, as the invariants have it. */
  ghost predicate Departing(docs: Docs, next: nat, id: nat, d: Document) {
    && LifecycleInv(docs, next) && CreditInv(docs, next)
    && id in docs && docs[id].status.DraftDoc? && d.(warehouse := docs[id].warehouse) == docs[id]
    && GuardSource(docs, d).Pass? && SourcesAfter(docs, d).Success?
    && (d.kind.CreditNote? ==> d.total > 0)
  }

  /** What the document was settled with once it is sent: its total if it credits an
      invoice, else nothing. */
  lemma SentSettles(docs: Docs, next: nat, id: nat, d: Document, moves: bool, filing: Filing)
    requires Departing(docs, next, id, d)
    ensures FinalDocument(docs, d, moves, filing).settled == if d.kind.CreditNote? && d.source.Some? then d.total else 0
    ensures FinalDocument(docs, d, moves, filing).source == d.source
  {
    assert Settled(docs, next, id);
    if d.kind.CreditNote? && d.source.Some? {
      CreditSourceIsSent(docs, d);
    }
  }

  /** The source, credited or closed, and the credit taken back. */
  lemma SourceGoesBack(docs: Docs, next: nat, id: nat, d: Document, s: nat)
    requires Departing(docs, next, id, d) && d.source == Some(s)
    ensures s in docs && s != id && docs[s].status.SentDoc? && s in SourcesAfter(docs, d).value
    ensures var after := SourcesAfter(docs, d).value[s];
            if d.kind.CreditNote? then ApplyCreditSettlement(after, -d.total) == docs[s] && !IsOrder(docs[s].kind)
            else after == if IsOrder(docs[s].kind) then docs[s].(status := ClosedDoc) else docs[s]
  {
    SourceIsSent(docs, next, id, d);
    assert Settled(docs, next, s);
    CreditedNonNegative(docs, next, s, next);
    if d.kind.CreditNote? {
      CreditSourceIsSent(docs, d);
      CreditGoesBack(docs[s], d.total);
    }
  }

  /** What taking the credit back leaves of the sources. */
  lemma SourcesGoBack(docs: Docs, next: nat, id: nat, d: Document, moves: bool, filing: Filing)
    requires Departing(docs, next, id, d)
    ensures var sent := FinalDocument(docs, d, moves, filing);
            var docs' := SourcesAfter(docs, d).value[id := sent];
            var left := WithoutCredit(docs', sent)[id := VoidedDocument(sent)];
            && left.Keys == docs.Keys
            && (forall x :: x in docs && x != id && d.source != Some(x) ==> left[x] == docs[x])
            && (d.source.Some? ==> left[d.source.value] == if IsOrder(docs[d.source.value].kind) then docs[d.source.value].(status := ClosedDoc) else docs[d.source.value])
  {
    SourcesAfterEffect(docs, d);
    SentSettles(docs, next, id, d, moves, filing);
    if d.source.Some? {
      SourceGoesBack(docs, next, id, d, d.source.value);
    }
  }

  /** Finalized and voided, every other document is what it was. */
  lemma DocumentsGoBack(docs: Docs, next: nat, id: nat, d: Document, moves: bool, filing: Filing)
    requires Departing(docs, next, id, d)
    ensures var sent := FinalDocument(docs, d, moves, filing);
            var docs' := SourcesAfter(docs, d).value[id := sent];
            ReopenOrder(WithoutCredit(docs', sent)[id := VoidedDocument(sent)], d.source, id) == docs[id := VoidedDocument(sent)]
  {
    var sent := FinalDocument(docs, d, moves, filing);
    var docs' := SourcesAfter(docs, d).value[id := sent];
    var left := WithoutCredit(docs', sent)[id := VoidedDocument(sent)];
    SourcesGoBack(docs, next, id, d, moves, filing);
    if d.source.Some? {
      SourceIsSent(docs, next, id, d);
      NobodyElse(docs, next, id, left, d.source.value);
      assert docs[d.source.value].(status := ClosedDoc).(status := SentDoc) == docs[d.source.value];
    }
    var back := ReopenOrder(left, d.source, id);
    assert back.Keys == docs.Keys;
    forall x | x in docs ensures back[x] == docs[id := VoidedDocument(sent)][x] {
      if d.source == Some(x) {
        assert x != id;
      }
    }
    assert back == docs[id := VoidedDocument(sent)];
  }

  /** The source has no other live dependent. */
  lemma NobodyElse(docs: Docs, next: nat, id: nat, left: Docs, s: nat)
    requires LifecycleInv(docs, next) && id in docs && Live(docs[id]) && docs[id].source == Some(s) && s in docs && s != id
    requires left.Keys == docs.Keys && forall x :: x in docs && x != id && x != s ==> left[x] == docs[x]
    requires left[s].source == docs[s].source
    ensures ActiveDependents(left, s, Some(id)) == {}
  {
    assert Linked(docs, s);
    assert id in ActiveDependents(docs, s, None);
    forall i ensures i !in ActiveDependents(left, s, Some(id)) {
      if i in left && i != id && i != s {
        assert i in ActiveDependents(left, s, Some(id)) ==> i in ActiveDependents(docs, s, None);
      }
      if i == s {
        assert docs[s].source.Some? ==> docs[s].source.value < s;
      }
    }
  }

  // -------------------------------------------------------------------- the whole

  /** What keeps a document just finalized from being voided: an invoice was filed, or a
      receipt paid itself. */
  predicate Stays(d: Document, filing: Filing) {
    (d.kind.Invoice? && filing.Filed?) || (d.kind.SalesReceipt? && d.total > 0)
  }

  lemma FinalizedDeparts(o: Org, id: nat, filing: Filing) returns (d: Document, moves: bool)
    requires OrgInv(o) && Finalize(o, id, filing).Success?
    ensures Departing(o.docs, o.next, id, d) && moves == MovesStock(o.docs, d)
    ensures ReadyToFinalize(o, id) == Success(d) && o.docs[id].paid == 0
    ensures Finalize(o, id, filing).value.docs == SourcesAfter(o.docs, d).value[id := FinalDocument(o.docs, d, moves, filing)]
  {
    d, moves := FinalizeEffect(o, id, filing);
    if d.kind.CreditNote? {
      FinalizedCreditPositive(o, id, filing);
    }
    assert Settled(o.docs, o.next, id);
  }

  /** Whether the void passes its checks. */
  lemma VoidCheckIff(docs: Docs, next: nat, id: nat, d: Document, moves: bool, filing: Filing)
    requires Departing(docs, next, id, d) && docs[id].paid == 0
    ensures CheckVoid(SourcesAfter(docs, d).value[id := FinalDocument(docs, d, moves, filing)], id).Pass? <==> !Stays(d, filing)
  {
    var sent := FinalDocument(docs, d, moves, filing);
    var docs' := SourcesAfter(docs, d).value[id := sent];
    DraftsHaveNoDependents(docs, next, id);
    SourcesKeepLinks(docs, d);
    SentIsLive(docs, d, moves, filing);
    SameDependents(docs, docs', id);
  }

  /** The parts of the step that finalizing is. */
  lemma FinalizeParts(o: Org, id: nat, filing: Filing, d: Document, moves: bool)
    requires Finalize(o, id, filing).Success? && ReadyToFinalize(o, id) == Success(d) && moves == MovesStock(o.docs, d)
    ensures var o' := Finalize(o, id, filing).value;
            && o'.catalog == o.catalog && o'.roles == o.roles && o'.rates == o.rates && o'.next == o.next
            && (if moves then PostStock(o.stock, o.catalog, id, d, false) == Success(o'.stock) else o'.stock == o.stock)
            && PostDocument(o.books, o.roles, id, d.(stockPosted := moves), StockValue(MovementsOf(o'.stock.movements, id)), SourceMoved(o.docs, d)) == Success(o'.books)
  {
  }

  /** The stock of a document finalized, moved back. */
  lemma FinalStockGoesBack(o: Org, id: nat, d: Document, sent: Document, there: Stock)
    requires StockInv(o.stock, o.catalog) && LinesTrackable(o.catalog, d.lines) && PostStock(o.stock, o.catalog, id, d, false) == Success(there)
    requires sent.kind == d.kind && sent.lines == d.lines && sent.warehouse == d.warehouse
    ensures PostStock(there, o.catalog, id, sent, true).Success?
    ensures var back := PostStock(there, o.catalog, id, sent, true).value; SameStock(o.stock, back)
  {
    StockMovesBack(o.stock, o.catalog, id, d);
    assert Postings(o.catalog, sent) == Postings(o.catalog, d);
  }

  /** The same levels and units; what came in new is void. */
  ghost predicate SameStock(s: Stock, back: Stock) {
    && (forall k :: Level(back, k) == Level(s, k))
    && (forall u :: u in s.units ==> u in back.units && back.units[u] == s.units[u])
    && (forall u :: u in back.units && u !in s.units ==> back.units[u] == SerialUnit(Voided, None, None))
  }

  /** Voiding a document right after finalizing it succeeds exactly when nothing makes it
      stay, and then undoes it: every other document, every level, every unit that was
      there and every balance in the books is what it was before. */
  lemma VoidUndoesAtOnce(o: Org, id: nat, filing: Filing, account: nat, party: Option<nat>, asOf: Day)
    requires OrgInv(o) && Finalize(o, id, filing).Success?
    ensures VoidDocument(Finalize(o, id, filing).value, id).Success? <==> !Stays(o.docs[id], filing)
    ensures !Stays(o.docs[id], filing) ==>
              var back := VoidDocument(Finalize(o, id, filing).value, id).value;
              && id in back.docs && back.docs[id].status.VoidDoc? && back.docs == o.docs[id := back.docs[id]]
              && SameStock(o.stock, back.stock)
              && Net(back.books.entries, OfParty(account, party, asOf)) == Net(o.books.entries, OfParty(account, party, asOf))
  {
    var d, moves := FinalizedDeparts(o, id, filing);
    var o', sent := Finalize(o, id, filing).value, FinalDocument(o.docs, d, moves, filing);
    FinalizeParts(o, id, filing, d, moves);
    VoidCheckIff(o.docs, o.next, id, d, moves, filing);
    if !Stays(d, filing) {
      SentIsLive(o.docs, d, moves, filing);
      SentKeepsDate(o.docs, d, moves, filing);
      DocumentsGoBack(o.docs, o.next, id, d, moves, filing);
      DraftHasNoVoucher(o.docs, o.books.vouchers, id);
      BooksGoBack(o.books, o.roles, id, d.(stockPosted := moves), StockValue(MovementsOf(o'.stock.movements, id)), SourceMoved(o.docs, d), account, party, asOf);
      if moves {
        ReadyIsTrackable(o, id);
        FinalStockGoesBack(o, id, d, sent, o'.stock);
      }
      VoidParts(o', id, sent);
    }
  }

  lemma SentKeepsDate(docs: Docs, d: Document, moves: bool, filing: Filing)
    ensures FinalDocument(docs, d, moves, filing).issued == d.issued && FinalDocument(docs, d, moves, filing).stockPosted == moves
  {
  }

  /** The parts of the step that voiding is. */
  lemma VoidParts(o: Org, id: nat, d: Document)
    requires CheckVoid(o.docs, id).Pass? && o.docs[id] == d
    requires d.stockPosted ==> PostStock(o.stock, o.catalog, id, d, true).Success?
    requires ReverseSource(o.books, DocSource(id), d.issued).Success?
    ensures VoidDocument(o, id) ==
              Success(o.(stock := if d.stockPosted then PostStock(o.stock, o.catalog, id, d, true).value else o.stock,
                         books := ReverseSource(o.books, DocSource(id), d.issued).value,
                         docs := ReopenOrder(WithoutCredit(o.docs, d)[id := VoidedDocument(d)], d.source, id)))
  {
  }
}
