/** Reversal chains: who reversed whom, and what a whole chain amounts to. */
module ReversalChains {
  import opened Basics
  import opened LedgerTables
  import opened Ledger

  /** A voucher and everything that reversed it, in order. */
  function Chain(vs: seq<Voucher>, id: nat): (ids: seq<nat>)
    requires id < |vs|
    ensures IdsOf(vs, ids) && ids != [] && ids[0] == id
    decreases |vs| - id
  {
    var next := NextOf(vs, id);
    if next.Some? && id < next.value < |vs| then [id] + Chain(vs, next.value) else [id]
  }

  predicate IdsOf(vs: seq<Voucher>, ids: seq<nat>) {
    forall i :: 0 <= i < |ids| ==> ids[i] < |vs|
  }

  function ToSet(ids: seq<nat>): set<nat> {
    set i | i in ids
  }

  /** What a list of vouchers posts on one account and party, by their lines. */
  function ChainNet(vs: seq<Voucher>, ids: seq<nat>, account: nat, party: Option<nat>): int
    requires IdsOf(vs, ids)
    decreases |ids|
  {
    if ids == [] then 0
    else LineNet(vs[ids[0]].lines, account, party) + ChainNet(vs, ids[1..], account, party)
  }

  predicate Ascending(ids: seq<nat>) {
    forall i, j :: 0 <= i < j < |ids| ==> ids[i] < ids[j]
  }

  /** Each voucher of a chain reversed the one before it. */
  predicate ReversedBy(vs: seq<Voucher>, ids: seq<nat>, i: nat)
    requires IdsOf(vs, ids) && i + 1 < |ids|
  {
    vs[ids[i + 1]].reversedFrom == Some(ids[i]) && vs[ids[i]].status.Reversed? && IsPosted(vs[ids[i + 1]])
  }

  lemma {:induction false} ChainShape(vs: seq<Voucher>, id: nat)
    requires ReversalsLinear(vs) && id < |vs|
    ensures var ids := Chain(vs, id);
            && Ascending(ids)
            && (forall i: nat {:trigger ReversedBy(vs, ids, i)} :: i < |ids| - 1 ==> ReversedBy(vs, ids, i))
            && !vs[ids[|ids| - 1]].status.Reversed?
    decreases |vs| - id
  {
    NextOfIs(vs, id);
    assert LinkSound(vs, id);
    var next := NextOf(vs, id);
    if next.Some? {
      assert LinkSound(vs, next.value);
      ChainShape(vs, next.value);
      ChainGrows(vs, id, next.value, Chain(vs, next.value));
    }
  }

  lemma ChainGrows(vs: seq<Voucher>, id: nat, next: nat, rest: seq<nat>)
    requires id < next < |vs| && IdsOf(vs, rest) && rest != [] && rest[0] == next && Ascending(rest)
    requires forall i: nat {:trigger ReversedBy(vs, rest, i)} :: i < |rest| - 1 ==> ReversedBy(vs, rest, i)
    requires vs[next].reversedFrom == Some(id) && vs[id].status.Reversed? && IsPosted(vs[next])
    ensures IdsOf(vs, [id] + rest) && Ascending([id] + rest)
    ensures forall i: nat {:trigger ReversedBy(vs, [id] + rest, i)} :: i < |rest| ==> ReversedBy(vs, [id] + rest, i)
  {
    var ids := [id] + rest;
    forall i: nat | i < |rest| ensures ReversedBy(vs, ids, i) {
      assert i > 0 ==> ReversedBy(vs, rest, i - 1);
    }
  }

  /** Reversals form a line: all but its last voucher are reversed, and if the first
      was ever posted the last is the only one that still stands. */
  lemma OnlyLastStands(vs: seq<Voucher>, id: nat, i: nat)
    requires ReversalsLinear(vs) && id < |vs| && IsPosted(vs[id]) && i < |Chain(vs, id)|
    ensures vs[Chain(vs, id)[i]].status.Posted? <==> i == |Chain(vs, id)| - 1
  {
    ChainShape(vs, id);
    var ids := Chain(vs, id);
    assert i > 0 ==> ReversedBy(vs, ids, i - 1);
    assert i < |ids| - 1 ==> ReversedBy(vs, ids, i);
  }

  lemma LongerChain(vs: seq<Voucher>, id: nat, rest: seq<nat>, account: nat, party: Option<nat>)
    requires id < |vs| && IdsOf(vs, rest)
    ensures IdsOf(vs, [id] + rest)
    ensures ChainNet(vs, [id] + rest, account, party) == LineNet(vs[id].lines, account, party) + ChainNet(vs, rest, account, party)
  {
    assert ([id] + rest)[1..] == rest;
  }

  /** A chain nets to nothing when it has an even number of vouchers, and to its
      first voucher's effect when odd, on every account and party. */
  lemma {:induction false} ChainNets(vs: seq<Voucher>, id: nat, account: nat, party: Option<nat>)
    requires ReversalsLinear(vs) && id < |vs|
    ensures ChainNet(vs, Chain(vs, id), account, party) ==
              if |Chain(vs, id)| % 2 == 0 then 0 else LineNet(vs[id].lines, account, party)
    decreases |vs| - id
  {
    NextOfIs(vs, id);
    var next := NextOf(vs, id);
    if next.Some? {
      assert LinkSound(vs, next.value);
      ChainNets(vs, next.value, account, party);
      MirrorNet(vs[id].lines, account, party);
      LongerChain(vs, id, Chain(vs, next.value), account, party);
    } else {
      LongerChain(vs, id, [], account, party);
      assert [id] + [] == [id];
    }
  }

  /** The entries of some vouchers, on one account and party up to a day. */
  function OfVouchers(ids: set<nat>, account: nat, party: Option<nat>, day: Day): Filter {
    OfParty(account, party, day).(vouchers := In(ids))
  }

  lemma OneVoucher(b: Books, id: nat, account: nat, party: Option<nat>, day: Day)
    requires BooksInv(b) && id < |b.vouchers| && IsPosted(b.vouchers[id])
    ensures Net(b.entries, OfVouchers({id}, account, party, day)) ==
              if b.vouchers[id].day <= day then LineNet(b.vouchers[id].lines, account, party) else 0
  {
    SumsOfVoucher(b.entries, id, OfParty(account, party, day));
    NetOfBlock(id, b.vouchers[id], b.vouchers[id].lines, account, party, day);
  }

  predicate PostedOn(vs: seq<Voucher>, id: nat, dated: Day) {
    id < |vs| && IsPosted(vs[id]) && vs[id].day == dated
  }

  /** The ledger entries of a chain dated alike sum to what its lines say. */
  lemma {:induction false} ChainEntries(b: Books, ids: seq<nat>, account: nat, party: Option<nat>, day: Day, dated: Day)
    requires BooksInv(b) && IdsOf(b.vouchers, ids) && Ascending(ids)
    requires forall i :: 0 <= i < |ids| ==> PostedOn(b.vouchers, ids[i], dated)
    ensures Net(b.entries, OfVouchers(ToSet(ids), account, party, day)) ==
              if dated <= day then ChainNet(b.vouchers, ids, account, party) else 0
    decreases |ids|
  {
    if ids == [] {
      SumsNone(b.entries, OfVouchers(ToSet(ids), account, party, day));
    } else {
      var first, rest := ids[0], ids[1..];
      ChainEntries(b, rest, account, party, day, dated);
      OneVoucher(b, first, account, party, day);
      assert ToSet(ids) == {first} + ToSet(rest);
      SplitFirst(b.entries, first, ToSet(rest), account, party, day);
    }
  }

  lemma SplitFirst(es: seq<Entry>, first: nat, rest: set<nat>, account: nat, party: Option<nat>, day: Day)
    requires first !in rest
    ensures Net(es, OfVouchers({first} + rest, account, party, day)) ==
              Net(es, OfVouchers({first}, account, party, day)) + Net(es, OfVouchers(rest, account, party, day))
  {
    SumsSplit(es, OfVouchers({first} + rest, account, party, day),
              OfVouchers({first}, account, party, day), OfVouchers(rest, account, party, day));
  }

  /** In the ledger: a posted voucher whose chain is dated alike nets, with all that
      reversed it, to nothing (even) or to its own effect (odd), as of every date. */
  lemma ChainNetsInLedger(b: Books, id: nat, account: nat, party: Option<nat>, day: Day)
    requires BooksInv(b) && id < |b.vouchers| && IsPosted(b.vouchers[id])
    requires forall i :: 0 <= i < |Chain(b.vouchers, id)| ==> b.vouchers[Chain(b.vouchers, id)[i]].day == b.vouchers[id].day
    ensures Net(b.entries, OfVouchers(ToSet(Chain(b.vouchers, id)), account, party, day)) ==
              if |Chain(b.vouchers, id)| % 2 == 0 || day < b.vouchers[id].day then 0
              else LineNet(b.vouchers[id].lines, account, party)
  {
    var ids := Chain(b.vouchers, id);
    ChainShape(b.vouchers, id);
    forall i | 0 <= i < |ids| ensures PostedOn(b.vouchers, ids[i], b.vouchers[id].day) {
      assert i > 0 ==> ReversedBy(b.vouchers, ids, i - 1);
    }
    ChainNets(b.vouchers, id, account, party);
    ChainEntries(b, ids, account, party, day, b.vouchers[id].day);
  }
}
