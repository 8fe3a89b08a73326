/** The voucher service as the object it is: what it writes goes through the posting
    engine it is connected to, and a call that raises is rolled back. */
module VoucherServices {
  import opened Basics
  import opened LedgerTables
  import opened Ledger
  import opened Poster
  import opened PartyOpenings
  import opened PostingServices

  class VoucherService {
    const posting: PostingService
    var roles: Roles

    constructor (posting: PostingService, roles: Roles)
      ensures this.posting == posting && this.roles == roles
    {
      this.posting, this.roles := posting, roles;
    }

    /** The standing opening of a party. */
    method FindStanding(source: Source) returns (found: Option<nat>)
      ensures found == StandingVoucher(posting.vouchers, source)
    {
      found := None;
      var i := 0;
      while i < |posting.vouchers| && found.None?
        invariant i <= |posting.vouchers|
        invariant found == StandingVoucher(posting.vouchers[..i], source)
      {
        var v := posting.vouchers[i];
        assert posting.vouchers[..i + 1][..i] == posting.vouchers[..i];
        if v.source == source && v.status.Posted? && v.kind != Reversal {
          found := Some(i);
        }
        i := i + 1;
      }
      FirstStands(posting.vouchers, i, source);
    }

    /** `set_party_opening_balance`. */
    method SetPartyOpeningBalance(party: nat, vendorOnly: bool, amount: int, asOf: Day) returns (r: Check)
      modifies posting
      ensures Kept(r, SetPartyOpening(old(posting.State()), roles, party, vendorOnly, amount, asOf), old(posting.State()), posting.State())
    {
      if party !in posting.parties {
        return Fail(NotFound);
      }
      if amount < 0 {
        return Fail(BadRequest);
      }
      var before := posting.State();
      var existing := FindStanding(OpeningSource(party));
      if existing.Some? {
        r := posting.Reverse(existing.value, Some(asOf));
        if r.Fail? {
          return;
        }
      }
      if amount == 0 {
        return Pass;
      }
      var lines := PartyOpeningLines(roles, party, vendorOnly, amount);
      if lines.Failure? {
        posting.Restore(before);
        return Fail(lines.error);
      }
      r := posting.CreateAndPost(OpeningVoucher, asOf, lines.value, OpeningSource(party), true);
      if r.Fail? {
        posting.Restore(before);
      }
    }
  }

  /** The first voucher found to stand is the one the whole table gives. */
  lemma {:induction false} FirstStands(vs: seq<Voucher>, i: nat, source: Source)
    requires i <= |vs| && (StandingVoucher(vs[..i], source).Some? || i == |vs|)
    ensures StandingVoucher(vs, source) == StandingVoucher(vs[..i], source)
    decreases |vs|
  {
    if i == |vs| {
      assert vs[..i] == vs;
    } else {
      var front := vs[..|vs| - 1];
      assert front[..i] == vs[..i];
      FirstStands(front, i, source);
    }
  }
}
