/** The double-entry engine as the object it is: every ledger write goes through it,
    row by row, and a call that raises is rolled back. */
module PostingServices {
  import opened Basics
  import opened LedgerTables
  import opened Ledger

  /** A call did to the books what its specification says, or was rolled back. */
  predicate Kept(r: Check, spec: Result<Books>, before: Books, after: Books) {
    match spec
    case Success(b) => r.Pass? && after == b
    case Failure(e) => r == Fail(e) && after == before
  }

  class PostingService {
    var accounts: map<nat, Account>
    var parties: set<nat>
    var years: map<nat, FiscalYear>
    var periods: seq<Period>
    var vouchers: seq<Voucher>
    var entries: seq<Entry>

    constructor (accounts: map<nat, Account>, parties: set<nat>, years: map<nat, FiscalYear>, periods: seq<Period>)
      ensures State() == Books(accounts, parties, years, periods, [], [])
    {
      this.accounts, this.parties, this.years, this.periods := accounts, parties, years, periods;
      vouchers, entries := [], [];
    }

    function State(): Books
      reads this
    {
      Books(accounts, parties, years, periods, vouchers, entries)
    }

    /** The transaction rolled back. */
    method Restore(b: Books)
      modifies this
      ensures State() == b
    {
      accounts, parties, years, periods, vouchers, entries := b.accounts, b.parties, b.years, b.periods, b.vouchers, b.entries;
    }

    /** `resolve_open_period`. */
    method ResolveOpenPeriod(day: Day) returns (r: Result<Period>)
      ensures r == OpenPeriod(State(), day)
    {
      var i := 0;
      while i < |periods| && !Covers(periods[i], day)
        invariant 0 <= i <= |periods|
        invariant PeriodFor(periods, day) == PeriodFor(periods[i..], day)
      {
        assert periods[i..][1..] == periods[i + 1..];
        i := i + 1;
      }
      if i == |periods| {
        return Failure(BadRequest);
      }
      var period := periods[i];
      if period.year !in years || !years[period.year].active || !period.status.Open? {
        return Failure(BadRequest);
      }
      r := Success(period);
    }

    /** `validate_lines`: the accounts, then the parties, then the amounts as they add up. */
    method Validate(lines: seq<Line>, allowControl: bool) returns (r: Check)
      ensures r == ValidateLines(State(), lines, allowControl)
    {
      if |lines| < 2 {
        return Fail(BadRequest);
      }
      for i := 0 to |lines|
        invariant forall j :: 0 <= j < i ==> ValidAccount(State(), lines[j].account, allowControl)
      {
        var a := lines[i].account;
        if a !in accounts || !accounts[a].active || !accounts[a].postable || (!allowControl && accounts[a].control) {
          assert !ValidAccount(State(), lines[i].account, allowControl);
          return Fail(BadRequest);
        }
      }
      for i := 0 to |lines|
        invariant forall j :: 0 <= j < i ==> lines[j].party.Some? ==> lines[j].party.value in parties
      {
        if lines[i].party.Some? && lines[i].party.value !in parties {
          return Fail(BadRequest);
        }
      }
      var totalDebit, totalCredit := 0, 0;
      for i := 0 to |lines|
        invariant totalDebit == TotalDebit(lines[..i]) && totalCredit == TotalCredit(lines[..i])
        invariant forall j :: 0 <= j < i ==> ValidAmounts(lines[j])
      {
        var line := lines[i];
        if line.debit < 0 || line.credit < 0 || (line.debit > 0 && line.credit > 0) || (line.debit == 0 && line.credit == 0) {
          assert !ValidAmounts(lines[i]);
          return Fail(BadRequest);
        }
        assert lines[..i + 1][..i] == lines[..i];
        totalDebit := totalDebit + line.debit;
        totalCredit := totalCredit + line.credit;
      }
      assert lines[..|lines|] == lines;
      r := if totalDebit <= 0 || totalCredit <= 0 || totalDebit != totalCredit then Fail(BadRequest) else Pass;
    }

    /** `create_voucher`. */
    method Create(kind: VoucherType, day: Day, lines: seq<Line>, source: Source, allowControl: bool) returns (r: Check)
      modifies this`vouchers
      ensures Kept(r, CreateVoucher(old(State()), kind, day, lines, source, allowControl), old(State()), State())
    {
      var period := ResolveOpenPeriod(day);
      if period.Failure? {
        return Fail(period.error);
      }
      r := Validate(lines, allowControl);
      if r.Pass? {
        vouchers := vouchers + [Voucher(kind, day, Draft, source, lines, None, period.value.year)];
      }
    }

    /** `post_draft`: one ledger entry for each line. */
    method Post(id: nat, allowControl: bool) returns (r: Check)
      requires id < |vouchers|
      modifies this`vouchers, this`entries
      ensures Kept(r, PostDraft(old(State()), id, allowControl), old(State()), State())
    {
      var v := vouchers[id];
      if !v.status.Draft? {
        return Fail(BadRequest);
      }
      var period := ResolveOpenPeriod(v.day);
      if period.Failure? {
        return Fail(period.error);
      }
      r := Validate(v.lines, allowControl);
      if r.Fail? {
        return;
      }
      ghost var posted := v.(status := Posted, year := period.value.year);
      for i := 0 to |v.lines|
        invariant vouchers == old(vouchers)
        invariant entries == old(entries) + EntriesFrom(id, posted, v.lines[..i])
      {
        var line := v.lines[i];
        assert v.lines[..i + 1][..i] == v.lines[..i];
        entries := entries + [Entry(line.account, line.party, id, v.day, v.kind, line.debit, line.credit, period.value.year)];
      }
      assert v.lines[..|v.lines|] == v.lines;
      vouchers := vouchers[id := vouchers[id].(year := period.value.year)];
      vouchers := vouchers[id := vouchers[id].(status := Posted)];
    }

    /** `post_voucher`. */
    method CreateAndPost(kind: VoucherType, day: Day, lines: seq<Line>, source: Source, allowControl: bool) returns (r: Check)
      modifies this`vouchers, this`entries
      ensures Kept(r, PostVoucher(old(State()), kind, day, lines, source, allowControl), old(State()), State())
    {
      var id := |vouchers|;
      r := Create(kind, day, lines, source, allowControl);
      if r.Fail? {
        return;
      }
      r := Post(id, allowControl);
      if r.Fail? {
        vouchers := vouchers[..id];
      }
    }

    /** `reverse_voucher`: the mirror image is posted and the two are linked. */
    method Reverse(id: nat, day: Option<Day>) returns (r: Check)
      requires id < |vouchers|
      modifies this`vouchers, this`entries
      ensures Kept(r, ReverseVoucher(old(State()), id, day), old(State()), State())
    {
      var v := vouchers[id];
      if !v.status.Posted? {
        return Fail(BadRequest);
      }
      var mirror: seq<Line> := [];
      for i := 0 to |v.lines|
        invariant mirror == Mirror(v.lines[..i])
      {
        var line := v.lines[i];
        assert v.lines[..i + 1][..i] == v.lines[..i];
        mirror := mirror + [Line(line.account, line.party, line.credit, line.debit)];
      }
      assert v.lines[..|v.lines|] == v.lines;
      var reversal := |vouchers|;
      r := CreateAndPost(Reversal, day.GetOr(v.day), mirror, v.source, true);
      if r.Fail? {
        return;
      }
      vouchers := vouchers[reversal := vouchers[reversal].(reversedFrom := Some(id))];
      vouchers := vouchers[id := v.(status := Reversed)];
    }

    // ---------------------------------------------------------- voucher service

    /** `update_journal_voucher`: the draft's lines are cleared and filled again. */
    method UpdateDraft(id: nat, day: Day, lines: seq<Line>) returns (r: Check)
      modifies this`vouchers
      ensures Kept(r, UpdateJournal(old(State()), id, day, lines), old(State()), State())
    {
      if id >= |vouchers| {
        return Fail(NotFound);
      }
      if !vouchers[id].status.Draft? {
        return Fail(Conflict);
      }
      r := Validate(lines, false);
      if r.Fail? {
        return;
      }
      vouchers := vouchers[id := vouchers[id].(day := day, lines := [])];
      for i := 0 to |lines|
        invariant id < |vouchers|
        invariant vouchers == old(vouchers)[id := old(vouchers)[id].(day := day, lines := lines[..i])]
      {
        assert lines[..i + 1] == lines[..i] + [lines[i]];
        vouchers := vouchers[id := vouchers[id].(lines := vouchers[id].lines + [lines[i]])];
      }
      assert lines[..|lines|] == lines;
    }

    /** `cancel_journal_voucher`. */
    method CancelDraft(id: nat) returns (r: Check)
      modifies this`vouchers
      ensures Kept(r, CancelJournal(old(State()), id), old(State()), State())
    {
      if id >= |vouchers| {
        return Fail(NotFound);
      }
      if !vouchers[id].status.Draft? {
        return Fail(Conflict);
      }
      vouchers := vouchers[id := vouchers[id].(status := Cancelled)];
      r := Pass;
    }

    // ------------------------------------------------------------ fiscal service

    method ChangePeriodStatus(index: nat, status: PeriodStatus) returns (r: Check)
      modifies this`periods
      ensures Kept(r, SetPeriodStatus(old(State()), index, status), old(State()), State())
    {
      if status.Closed? {
        return Fail(BadRequest);
      }
      if index >= |periods| {
        return Fail(NotFound);
      }
      if periods[index].status.Closed? {
        return Fail(Conflict);
      }
      periods := periods[index := periods[index].(status := status)];
      r := Pass;
    }

    /** `delete_fiscal_year`, and the cascade to its periods. */
    method RemoveYear(id: nat) returns (r: Check)
      modifies this`years, this`periods
      ensures Kept(r, DeleteYear(old(State()), id), old(State()), State())
    {
      if id !in years {
        return Fail(NotFound);
      }
      if |years| <= 1 {
        return Fail(Conflict);
      }
      for i := 0 to |entries|
        invariant forall j :: 0 <= j < i ==> entries[j].year != id
      {
        if entries[i].year == id {
          return Fail(Conflict);
        }
      }
      for i := 0 to |vouchers|
        invariant forall j :: 0 <= j < i ==> vouchers[j].year != id
      {
        if vouchers[i].year == id {
          return Fail(Conflict);
        }
      }
      var rest: seq<Period> := [];
      for i := 0 to |periods|
        invariant rest + WithoutYear(periods[i..], id) == WithoutYear(periods, id)
      {
        assert periods[i..][1..] == periods[i + 1..];
        if periods[i].year != id {
          rest := rest + [periods[i]];
        }
      }
      years := years - {id};
      periods := rest;
      r := Pass;
    }
  }
}
