/** The poster as the object it is: it reads documents and stock movements, builds the
    lines, and hands them to the posting engine it is connected to. */
module PosterServices {
  import opened Basics
  import opened StockTables
  import opened DocumentTables
  import opened DocumentStock
  import opened LedgerTables
  import opened Ledger
  import opened Poster
  import opened PostingServices

  lemma ValueOfNext(ms: seq<Movement>, i: nat, id: nat)
    requires i < |ms|
    ensures StockValue(MovementsOf(ms[..i + 1], id)) ==
              StockValue(MovementsOf(ms[..i], id)) + if ms[i].ref == DocumentRef(id) then ms[i].qty * ms[i].unitCost.GetOr(0) else 0
  {
    var mine := MovementsOf(ms[..i], id);
    assert ms[..i + 1][..i] == ms[..i];
    assert (mine + [ms[i]])[..|mine|] == mine;
  }

  class LedgerPoster {
    const posting: PostingService
    var roles: Roles

    constructor (posting: PostingService, roles: Roles)
      ensures this.posting == posting && this.roles == roles
    {
      this.posting, this.roles := posting, roles;
    }

    /** `_already_posted`. */
    method FindPosted(source: Source) returns (found: bool)
      ensures found <==> AlreadyPosted(posting.vouchers, source)
    {
      found := false;
      for i := 0 to |posting.vouchers|
        invariant found <==> AlreadyPosted(posting.vouchers[..i], source)
      {
        assert posting.vouchers[..i + 1] == posting.vouchers[..i] + [posting.vouchers[i]];
        if posting.vouchers[i].source == source && posting.vouchers[i].kind != Reversal {
          assert posting.vouchers[..i + 1][i] == posting.vouchers[i];
          found := true;
        }
      }
      assert posting.vouchers[..|posting.vouchers|] == posting.vouchers;
    }

    /** `_stock_value`: the signed worth of one document's movements. */
    method SumStockValue(ms: seq<Movement>, id: nat) returns (total: int)
      ensures total == StockValue(MovementsOf(ms, id))
    {
      total := 0;
      for i := 0 to |ms|
        invariant total == StockValue(MovementsOf(ms[..i], id))
      {
        var m := ms[i];
        ValueOfNext(ms, i, id);
        if m.ref == DocumentRef(id) && m.unitCost.Some? {
          total := total + m.qty * m.unitCost.value;
        }
      }
      assert ms[..|ms|] == ms;
    }

    /** `post_document`. */
    method PostDocumentVoucher(id: nat, d: Document, ms: seq<Movement>, sourceMoved: bool) returns (r: Check)
      modifies posting
      ensures Kept(r, PostDocument(old(posting.State()), roles, id, d, StockValue(MovementsOf(ms, id)), sourceMoved),
                   old(posting.State()), posting.State())
    {
      if IsOrder(d.kind) {
        return Pass;
      }
      var found := FindPosted(Source(DocumentKind, id));
      if found {
        return Pass;
      }
      var value := SumStockValue(ms, id);
      var lines := DocumentVoucherLines(roles, d, value, sourceMoved);
      if lines.Failure? {
        return Fail(lines.error);
      }
      if lines.value == [] {
        return Pass;
      }
      r := posting.CreateAndPost(VoucherKindOf(d.kind), d.issued, lines.value, Source(DocumentKind, id), true);
    }

    /** `_reverse`. */
    method ReverseVouchersOf(source: Source, day: Day) returns (r: Check)
      modifies posting
      ensures Kept(r, ReverseSource(old(posting.State()), source, day), old(posting.State()), posting.State())
    {
      var standing := StandingVoucher(posting.vouchers, source);
      if standing.None? {
        return Pass;
      }
      r := posting.Reverse(standing.value, Some(day));
    }

    /** The value of an adjustment or of opening stock, against inventory. */
    method PostStockValue(kind: VoucherType, value: int, offset: Result<nat>, day: Day, source: Source) returns (r: Check)
      modifies posting
      ensures Kept(r, PostValue(old(posting.State()), roles, kind, value, offset, day, source), old(posting.State()), posting.State())
    {
      if value == 0 {
        return Pass;
      }
      var found := FindPosted(source);
      if found {
        return Pass;
      }
      var inventory := AccountOf(roles, InventoryRole);
      if inventory.Failure? {
        return Fail(inventory.error);
      }
      if offset.Failure? {
        return Fail(offset.error);
      }
      r := posting.CreateAndPost(kind, day, ValueLines(inventory.value, offset.value, value), source, true);
    }
  }
}
