/** Expense money: splitting tax-inclusive line amounts to the cent so that they still
    sum to the subtotal, and the voucher built from them. Amounts are cents. */
module Expenses {
  import opened Basics
  import opened Rounding
  import opened LedgerTables
  import opened Ledger
  import opened Poster
  import opened PostingPaths

  datatype Totals = Totals(subtotal: int, tax: int, total: int)

  /** `totals`, for amounts already at cents. */
  function TotalsOf(amounts: seq<int>, tax: int, inclusive: bool): Totals {
    if inclusive then Totals(Sum(amounts) - tax, tax, Sum(amounts)) else Totals(Sum(amounts), tax, Sum(amounts) + tax)
  }

  /** Where `net_amounts` has something to take out. */
  predicate Splits(amounts: seq<int>, tax: int, inclusive: bool) {
    inclusive && tax > 0 && Sum(amounts) > 0
  }

  /** The exact share of a line is its amount times (gross - tax) over gross; the first
      rounded shares, and the last line with what they leave of the subtotal. */
  function RoundedShares(amounts: seq<int>, net: int, gross: int): (r: seq<int>)
    requires gross > 0
    ensures |r| == |amounts|
  {
    if amounts == [] then []
    else RoundedShares(amounts[..|amounts| - 1], net, gross) + [HalfEven(amounts[|amounts| - 1] * net, gross)]
  }

  lemma {:induction false} ShareAt(amounts: seq<int>, net: int, gross: int, i: nat)
    requires gross > 0 && i < |amounts|
    ensures RoundedShares(amounts, net, gross)[i] == HalfEven(amounts[i] * net, gross)
  {
    if i < |amounts| - 1 {
      ShareAt(amounts[..|amounts| - 1], net, gross, i);
    }
  }

  function NetAmounts(amounts: seq<int>, tax: int, inclusive: bool): seq<int> {
    if !Splits(amounts, tax, inclusive) then amounts
    else
      var gross := Sum(amounts);
      var front := RoundedShares(amounts[..|amounts| - 1], gross - tax, gross);
      front + [gross - tax - Sum(front)]
  }

  /** `sum` of a list of amounts. */
  method Add(amounts: seq<int>) returns (sum: int)
    ensures sum == Sum(amounts)
  {
    sum := 0;
    for i := 0 to |amounts|
      invariant sum == Sum(amounts[..i])
    {
      assert amounts[..i + 1][..i] == amounts[..i];
      sum := sum + amounts[i];
    }
    assert amounts[..|amounts|] == amounts;
  }

  /** The comprehension of `net_amounts`: every line rounded. */
  method Shares(amounts: seq<int>, subtotal: int, gross: int) returns (net: seq<int>)
    requires gross > 0
    ensures net == RoundedShares(amounts, subtotal, gross)
  {
    net := [];
    for i := 0 to |amounts|
      invariant net == RoundedShares(amounts[..i], subtotal, gross)
    {
      assert amounts[..i + 1][..i] == amounts[..i];
      net := net + [HalfEven(amounts[i] * subtotal, gross)];
    }
    assert amounts[..|amounts|] == amounts;
  }

  /** `net_amounts`: every line rounded, then the last one set right in place. */
  method ComputeNetAmounts(amounts: seq<int>, tax: int, inclusive: bool) returns (net: seq<int>)
    ensures net == NetAmounts(amounts, tax, inclusive)
  {
    var gross := Add(amounts);
    if !inclusive || tax <= 0 || gross <= 0 {
      return amounts;
    }
    net := Shares(amounts, gross - tax, gross);
    var sum := Add(net);
    var last := |amounts| - 1;
    ghost var front := RoundedShares(amounts[..last], gross - tax, gross);
    assert net == front + [net[last]];
    SumAppend(front, net[last]);
    net := net[last := net[last] + (gross - tax - sum)];
    assert net == front + [net[last]];
  }

  /** The lines sum exactly to the subtotal, in both modes. */
  lemma NetSumsToSubtotal(amounts: seq<int>, tax: int, inclusive: bool)
    requires tax >= 0 && (inclusive && tax > 0 ==> Sum(amounts) > 0)
    ensures |NetAmounts(amounts, tax, inclusive)| == |amounts|
    ensures Sum(NetAmounts(amounts, tax, inclusive)) == TotalsOf(amounts, tax, inclusive).subtotal
  {
    if Splits(amounts, tax, inclusive) {
      var gross := Sum(amounts);
      var front := RoundedShares(amounts[..|amounts| - 1], gross - tax, gross);
      SumAppend(front, gross - tax - Sum(front));
    }
  }

  /** How far an amount is from its exact share, in half cents times the gross. */
  function Drift(net: int, amount: int, subtotal: int, gross: int): int {
    2 * (gross * net - amount * subtotal)
  }

  lemma DriftAdds(a: int, b: int, x: int, y: int, subtotal: int, gross: int)
    ensures Drift(a + b, x + y, subtotal, gross) == Drift(a, x, subtotal, gross) + Drift(b, y, subtotal, gross)
  {
    assert gross * (a + b) == gross * a + gross * b;
    assert (x + y) * subtotal == x * subtotal + y * subtotal;
  }

  /** One more line, within half a cent of its share. */
  lemma OneMoreDrift(sum: int, share: int, total: int, amount: int, subtotal: int, gross: int, n: nat)
    requires gross > 0 && Abs(Drift(sum, total, subtotal, gross)) <= n * gross && Abs(Drift(share, amount, subtotal, gross)) <= gross
    ensures Abs(Drift(sum + share, total + amount, subtotal, gross)) <= (n + 1) * gross
  {
    DriftAdds(sum, share, total, amount, subtotal, gross);
    assert (n + 1) * gross == n * gross + gross;
  }

  lemma {:induction false} SharesDrift(amounts: seq<int>, subtotal: int, gross: int)
    requires gross > 0
    ensures Abs(Drift(Sum(RoundedShares(amounts, subtotal, gross)), Sum(amounts), subtotal, gross)) <= |amounts| * gross
  {
    if amounts == [] {
      assert Drift(0, 0, subtotal, gross) == 0;
    } else {
      var n := |amounts| - 1;
      var share := HalfEven(amounts[n] * subtotal, gross);
      var front := RoundedShares(amounts[..n], subtotal, gross);
      SharesDrift(amounts[..n], subtotal, gross);
      HalfEvenNearest(amounts[n] * subtotal, gross, share);
      SumAppend(front, share);
      OneMoreDrift(Sum(front), share, Sum(amounts[..n]), amounts[n], subtotal, gross, n);
    }
  }

  /** Each line but the last is within half a cent of its exact share, and the last is
      within half a cent for each other line. */
  lemma NetNearShares(amounts: seq<int>, tax: int, i: nat)
    requires Splits(amounts, tax, true) && i < |amounts|
    ensures |NetAmounts(amounts, tax, true)| == |amounts|
    ensures var gross, others := Sum(amounts), if i < |amounts| - 1 then 1 else |amounts| - 1;
            Abs(Drift(NetAmounts(amounts, tax, true)[i], amounts[i], gross - tax, gross)) <= others * gross
  {
    var gross, n := Sum(amounts), |amounts| - 1;
    var subtotal := gross - tax;
    var front := RoundedShares(amounts[..n], subtotal, gross);
    if i < n {
      ShareAt(amounts[..n], subtotal, gross, i);
      HalfEvenNearest(amounts[i] * subtotal, gross, front[i]);
      assert NetAmounts(amounts, tax, true)[i] == front[i];
    } else {
      SharesDrift(amounts[..n], subtotal, gross);
      var last := subtotal - Sum(front);
      DriftAdds(Sum(front), last, Sum(amounts[..n]), amounts[n], subtotal, gross);
      assert Drift(subtotal, gross, subtotal, gross) == 0;
    }
  }

  // ----------------------------------------------------------------- the voucher

  datatype ExpenseLine = ExpenseLine(account: nat, amount: int)

  datatype Expense = Expense(lines: seq<ExpenseLine>, tax: int, inclusive: bool, vendor: Option<nat>, paidThrough: nat, day: int)

  function AmountsOf(lines: seq<ExpenseLine>): (r: seq<int>)
    ensures |r| == |lines| && forall i :: 0 <= i < |r| ==> r[i] == lines[i].amount
  {
    if lines == [] then [] else AmountsOf(lines[..|lines| - 1]) + [lines[|lines| - 1].amount]
  }

  /** One debit for each line that comes to anything. */
  function Debits(lines: seq<ExpenseLine>, net: seq<int>, vendor: Option<nat>): seq<Line>
    requires |net| == |lines|
  {
    if lines == [] then []
    else
      var n := |lines| - 1;
      var rest := Debits(lines[..n], net[..n], vendor);
      if net[n] != 0 then rest + [Line(lines[n].account, vendor, Cents(net[n]), 0)] else rest
  }

  function NetOf(e: Expense): (r: seq<int>)
    ensures |r| == |e.lines|
  {
    var amounts := AmountsOf(e.lines);
    NetAmounts(amounts, e.tax, e.inclusive)
  }

  function ExpenseTotal(e: Expense): int {
    TotalsOf(AmountsOf(e.lines), e.tax, e.inclusive).total
  }

  /** The lines `post_expense` builds. */
  function ExpenseVoucherLines(roles: Roles, e: Expense): Result<seq<Line>> {
    var tax :- Leg(roles, InputTax, None, Cents(e.tax), 0, e.tax != 0);
    Success(Debits(e.lines, NetOf(e), e.vendor) + tax + [Line(e.paidThrough, None, 0, Cents(ExpenseTotal(e)))])
  }

  /** `post_expense`. */
  function PostExpense(b: Books, roles: Roles, id: nat, e: Expense): Result<Books> {
    if ExpenseTotal(e) <= 0 || AlreadyPosted(b.vouchers, Source(ExpenseKind, id)) then Success(b)
    else
      var lines :- ExpenseVoucherLines(roles, e);
      PostVoucher(b, ExpenseVoucher, e.day, lines, Source(ExpenseKind, id), true)
  }

  lemma {:induction false} DebitsTotal(lines: seq<ExpenseLine>, net: seq<int>, vendor: Option<nat>)
    requires |net| == |lines|
    ensures TotalDebit(Debits(lines, net, vendor)) == Cents(Sum(net)) && TotalCredit(Debits(lines, net, vendor)) == 0
  {
    if lines != [] {
      var n := |lines| - 1;
      DebitsTotal(lines[..n], net[..n], vendor);
      if net[n] != 0 {
        TotalsAppend(Debits(lines[..n], net[..n], vendor), Line(lines[n].account, vendor, Cents(net[n]), 0));
      }
    }
  }

  /** An expense as its schema lets it in: positive amounts, no negative tax. */
  predicate Entered(e: Expense) {
    e.lines != [] && (forall i :: 0 <= i < |e.lines| ==> e.lines[i].amount > 0) && e.tax >= 0
  }

  lemma {:induction false} AmountsPositive(lines: seq<ExpenseLine>)
    requires forall i :: 0 <= i < |lines| ==> lines[i].amount > 0
    ensures Sum(AmountsOf(lines)) >= |lines|
  {
    if lines != [] {
      AmountsPositive(lines[..|lines| - 1]);
      SumAppend(AmountsOf(lines[..|lines| - 1]), lines[|lines| - 1].amount);
    }
  }

  /** Every expense voucher's debits equal its one credit, tax inside or on top. */
  lemma ExpenseVouchersBalance(roles: Roles, e: Expense)
    requires Entered(e) && ExpenseVoucherLines(roles, e).Success?
    ensures var lines := ExpenseVoucherLines(roles, e).value;
            TotalDebit(lines) == Cents(ExpenseTotal(e)) && TotalCredit(lines) == Cents(ExpenseTotal(e))
  {
    var amounts, net := AmountsOf(e.lines), NetOf(e);
    AmountsPositive(e.lines);
    NetSumsToSubtotal(amounts, e.tax, e.inclusive);
    DebitsTotal(e.lines, net, e.vendor);
    LegTotals(roles, InputTax, None, Cents(e.tax), 0, e.tax != 0);
    var tax := Leg(roles, InputTax, None, Cents(e.tax), 0, e.tax != 0).value;
    var credit := Line(e.paidThrough, None, 0, Cents(ExpenseTotal(e)));
    TotalsConcat(Debits(e.lines, net, e.vendor), tax);
    TotalsAppend(Debits(e.lines, net, e.vendor) + tax, credit);
  }

  // ------------------------------------------------------ account by account

  /** What the lines on one account net to. */
  function NetOn(lines: seq<ExpenseLine>, net: seq<int>, account: nat): int
    requires |net| == |lines|
  {
    if lines == [] then 0
    else
      var n := |lines| - 1;
      NetOn(lines[..n], net[..n], account) + (if lines[n].account == account then net[n] else 0)
  }

  lemma {:induction false} DebitsNet(lines: seq<ExpenseLine>, net: seq<int>, vendor: Option<nat>, account: nat, party: Option<nat>)
    requires |net| == |lines|
    ensures LineNet(Debits(lines, net, vendor), account, party) == if party == vendor then Cents(NetOn(lines, net, account)) else 0
  {
    if lines != [] {
      var n := |lines| - 1;
      DebitsNet(lines[..n], net[..n], vendor, account, party);
      if net[n] != 0 {
        var rest, all := Debits(lines[..n], net[..n], vendor), Debits(lines, net, vendor);
        assert all[..|all| - 1] == rest;
      }
    }
  }

  /** What an expense comes to on an account and party: there, in its vendor's name, the
      net of exactly the lines entered on that account; its tax on input tax; and its
      total off the account it was paid through. */
  function ExpenseNet(roles: Roles, e: Expense, account: nat, party: Option<nat>): int {
    (if party == e.vendor then Cents(NetOn(e.lines, NetAmounts(AmountsOf(e.lines), e.tax, e.inclusive), account)) else 0)
    + OnRole(roles, InputTax, None, Cents(e.tax), account, party)
    - OnAccount(e.paidThrough, Cents(Sum(AmountsOf(e.lines)) + (if e.inclusive then 0 else e.tax)), account, party)
  }

  /** Every expense voucher does exactly that. */
  lemma ExpenseLinesNet(roles: Roles, e: Expense, account: nat, party: Option<nat>)
    requires ExpenseVoucherLines(roles, e).Success?
    ensures LineNet(ExpenseVoucherLines(roles, e).value, account, party) == ExpenseNet(roles, e, account, party)
  {
    var debits, tax := Debits(e.lines, NetOf(e), e.vendor), Leg(roles, InputTax, None, Cents(e.tax), 0, e.tax != 0).value;
    var credit := [Line(e.paidThrough, None, 0, Cents(ExpenseTotal(e)))];
    DebitsNet(e.lines, NetOf(e), e.vendor, account, party);
    LegNet(roles, InputTax, None, Cents(e.tax), 0, e.tax != 0, account, party);
    OneLine(credit[0], account, party);
    ThreeParts(debits, tax, credit, account, party);
  }

  // ------------------------------------------------------ which amounts post

  lemma {:induction false} DebitsValid(lines: seq<ExpenseLine>, net: seq<int>, vendor: Option<nat>)
    requires |net| == |lines|
    ensures (forall i :: 0 <= i < |Debits(lines, net, vendor)| ==> ValidAmounts(Debits(lines, net, vendor)[i]))
            <==> (forall i :: 0 <= i < |net| ==> net[i] >= 0)
  {
    if lines != [] {
      var n := |lines| - 1;
      DebitsValid(lines[..n], net[..n], vendor);
      var rest, all := Debits(lines[..n], net[..n], vendor), Debits(lines, net, vendor);
      if net[n] != 0 {
        assert all[..|rest|] == rest && all[|rest|] == Line(lines[n].account, vendor, Cents(net[n]), 0);
        assert ValidAmounts(all[|rest|]) <==> net[n] > 0;
      }
      assert (forall i :: 0 <= i < |net| ==> net[i] >= 0) <==> (forall i :: 0 <= i < n ==> net[..n][i] >= 0) && net[n] >= 0;
      assert (forall i :: 0 <= i < |all| ==> ValidAmounts(all[i])) <==> (forall i :: 0 <= i < |rest| ==> ValidAmounts(rest[i])) && net[n] >= 0;
    }
  }

  /** What all lines but the last take of the subtotal once rounded. */
  function OthersTake(amounts: seq<int>, tax: int): int
    requires Sum(amounts) > 0
  {
    Sum(RoundedShares(amounts[..|amounts| - 1], Sum(amounts) - tax, Sum(amounts)))
  }

  lemma {:induction false} SumNonNegative(s: seq<int>)
    requires forall i :: 0 <= i < |s| ==> s[i] >= 0
    ensures Sum(s) >= 0
  {
    if s != [] {
      SumNonNegative(s[..|s| - 1]);
    }
  }

  lemma SharesNonNegative(amounts: seq<int>, subtotal: int, gross: int)
    requires gross > 0 && subtotal >= 0 && forall i :: 0 <= i < |amounts| ==> amounts[i] >= 0
    ensures forall i :: 0 <= i < |amounts| ==> RoundedShares(amounts, subtotal, gross)[i] >= 0
  {
    forall i | 0 <= i < |amounts| ensures RoundedShares(amounts, subtotal, gross)[i] >= 0 {
      ShareAt(amounts, subtotal, gross, i);
      assert amounts[i] * subtotal >= 0;
      HalfEvenNonNegative(amounts[i] * subtotal, gross);
    }
  }

  /** Amounts that add up to a total with the last one, none negative. */
  lemma NoneNegativeIff(front: seq<int>, last: int, total: int)
    requires last == total - Sum(front) && (total >= 0 ==> forall i :: 0 <= i < |front| ==> front[i] >= 0)
    ensures (forall i :: 0 <= i < |front + [last]| ==> (front + [last])[i] >= 0) <==> total >= 0 && Sum(front) <= total
  {
    var all := front + [last];
    SumAppend(front, last);
    if forall i :: 0 <= i < |all| ==> all[i] >= 0 {
      SumNonNegative(all);
      assert all[|front|] == last;
    }
  }

  /** The split of positive amounts has no negative line exactly when the tax is within
      the gross and the other lines, rounded, leave the last one something or nothing. */
  lemma SplitNonNegativeIff(amounts: seq<int>, tax: int)
    requires Splits(amounts, tax, true) && forall i :: 0 <= i < |amounts| ==> amounts[i] > 0
    ensures var net := NetAmounts(amounts, tax, true);
            (forall i :: 0 <= i < |net| ==> net[i] >= 0) <==> tax <= Sum(amounts) && OthersTake(amounts, tax) <= Sum(amounts) - tax
  {
    var gross, others := Sum(amounts), amounts[..|amounts| - 1];
    var total := gross - tax;
    if total >= 0 {
      forall i | 0 <= i < |others| ensures others[i] >= 0 {
        assert others[i] == amounts[i];
      }
      SharesNonNegative(others, total, gross);
    }
    var front := RoundedShares(others, total, gross);
    NoneNegativeIff(front, total - Sum(front), total);
    assert NetAmounts(amounts, tax, true) == front + [total - Sum(front)];
  }

  /** So the ledger accepts the debits of a tax-inclusive expense exactly then: rounding
      up many small lines can overdraw the last, and the voucher is refused. */
  lemma InclusiveAmountsValidIff(e: Expense)
    requires Entered(e) && e.inclusive && e.tax > 0
    ensures Sum(AmountsOf(e.lines)) > 0
    ensures var amounts, lines := AmountsOf(e.lines), Debits(e.lines, NetOf(e), e.vendor);
            (forall i :: 0 <= i < |lines| ==> ValidAmounts(lines[i]))
            <==> e.tax <= Sum(amounts) && OthersTake(amounts, e.tax) <= Sum(amounts) - e.tax
  {
    AmountsPositive(e.lines);
    DebitsValid(e.lines, NetOf(e), e.vendor);
    SplitNonNegativeIff(AmountsOf(e.lines), e.tax);
  }

  /** More than nothing less one, scaled: a whole number above minus one is not below zero. */
  lemma AboveMinusOne(x: int, gross: int, share: int, others: int)
    requires gross > 0 && Abs(2 * (x * gross - share)) <= others * gross && 2 * share > (others - 2) * gross
    ensures x >= 0
  {
    Below(x, gross);
  }

  lemma Below(x: int, gross: int)
    requires gross > 0
    ensures x <= -1 ==> x * gross <= -gross
  {
    if x <= -1 {
      assert (x + 1) * gross <= 0;
    }
  }

  /** A last line large enough for what rounding the others can take. */
  predicate RoomForRounding(amounts: seq<int>, tax: int)
    requires amounts != []
  {
    2 * (amounts[|amounts| - 1] * (Sum(amounts) - tax)) > (|amounts| - 3) * Sum(amounts)
  }

  lemma LastHasRoom(amounts: seq<int>, tax: int)
    requires Splits(amounts, tax, true) && RoomForRounding(amounts, tax)
    ensures OthersTake(amounts, tax) <= Sum(amounts) - tax
  {
    var n, gross := |amounts| - 1, Sum(amounts);
    var net := NetAmounts(amounts, tax, true);
    NetNearShares(amounts, tax, n);
    assert net[n] == gross - tax - OthersTake(amounts, tax);
    AboveMinusOne(net[n], gross, amounts[n] * (gross - tax), n);
  }

  /** So a tax within the gross and a last line with room for the rounding of the others
      always make an expense the ledger accepts: with up to three lines, any tax below
      the gross. */
  lemma RoomMakesValid(e: Expense)
    requires Entered(e) && e.inclusive && e.tax > 0 && e.tax <= Sum(AmountsOf(e.lines))
    requires e.lines != [] && RoomForRounding(AmountsOf(e.lines), e.tax)
    ensures var lines := Debits(e.lines, NetOf(e), e.vendor); forall i :: 0 <= i < |lines| ==> ValidAmounts(lines[i])
  {
    InclusiveAmountsValidIff(e);
    LastHasRoom(AmountsOf(e.lines), e.tax);
  }

  lemma FewLinesHaveRoom(amounts: seq<int>, tax: int)
    requires 1 <= |amounts| <= 3 && (forall i :: 0 <= i < |amounts| ==> amounts[i] > 0) && tax < Sum(amounts)
    ensures RoomForRounding(amounts, tax)
  {
    var last, rest := amounts[|amounts| - 1], Sum(amounts) - tax;
    SumNonNegative(amounts);
    assert last * rest > 0;
    assert (|amounts| - 3) * Sum(amounts) <= 0;
  }

  /** An expense that overdraws its last line cannot be posted at all. */
  lemma OverdrawnIsRefused(b: Books, roles: Roles, id: nat, e: Expense)
    requires Entered(e) && e.inclusive && e.tax > 0 && Sum(AmountsOf(e.lines)) > 0
    requires !(e.tax <= Sum(AmountsOf(e.lines)) && OthersTake(AmountsOf(e.lines), e.tax) <= Sum(AmountsOf(e.lines)) - e.tax)
    requires !AlreadyPosted(b.vouchers, Source(ExpenseKind, id))
    ensures PostExpense(b, roles, id, e).Failure?
  {
    InclusiveAmountsValidIff(e);
    var debits := Debits(e.lines, NetOf(e), e.vendor);
    var i :| 0 <= i < |debits| && !ValidAmounts(debits[i]);
    if ExpenseVoucherLines(roles, e).Success? {
      var lines := ExpenseVoucherLines(roles, e).value;
      assert lines[i] == debits[i];
      assert ValidateLines(b, lines, true).Fail?;
    }
  }

  /** Five lines of one cent with two cents of tax inside: four shares round up to a cent
      each, and the fifth line is left with minus one. */
  lemma OverdrawnLastLine()
    ensures NetAmounts([1, 1, 1, 1, 1], 2, true) == [1, 1, 1, 1, -1]
  {
    var amounts := [1, 1, 1, 1, 1];
    assert amounts[..4] == [1, 1, 1, 1] && amounts[..4][..3] == [1, 1, 1] && amounts[..4][..3][..2] == [1, 1] && amounts[..4][..3][..2][..1] == [1];
    assert Sum([1]) == 1 && Sum([1, 1]) == 2 && Sum([1, 1, 1]) == 3 && Sum(amounts[..4]) == 4;
    assert Sum(amounts) == 5;
    assert HalfEven(1 * 3, 5) == 1;
    assert RoundedShares(amounts[..4], 3, 5) == [1, 1, 1, 1];
  }
}
