/** Sequence numbers: the next number of a series is one more than the largest number
    any of its members ends in. */
module Numbering {
  import opened Basics
  import opened Decimals

  /** A series: its prefix, where it starts, and whether it restarts with each year. */
  datatype Series = Series(prefix: string, start: string, yearly: bool)

  /** What every number of the series begins with. */
  function Body(s: Series, year: nat): string {
    if s.yearly then s.prefix + Digits(year) + "-" else s.prefix
  }

  /** The numbers the series looks at: all, or those of the year. */
  predicate InScope(number: string, s: Series, year: nat) {
    s.yearly ==> Body(s, year) <= number
  }

  function TrailingValue(number: string): nat {
    ValueOf(Trailing(number))
  }

  /** `_peak`: the largest number those in scope end in, or zero. */
  function Peak(numbers: seq<string>, s: Series, year: nat): nat {
    if numbers == [] then 0
    else
      var rest := Peak(numbers[..|numbers| - 1], s, year);
      var last := numbers[|numbers| - 1];
      if InScope(last, s, year) && TrailingValue(last) > rest then TrailingValue(last) else rest
  }

  function NextSequence(numbers: seq<string>, s: Series, year: nat): nat
    requires AllDigits(s.start)
  {
    Max(Peak(numbers, s, year), ValueOf(s.start) - 1) + 1
  }

  /** `preview_number`. */
  function NextNumber(numbers: seq<string>, s: Series, year: nat): string
    requires AllDigits(s.start)
  {
    Body(s, year) + Padded(NextSequence(numbers, s, year), |s.start|)
  }

  lemma {:induction false} PeakIsLargest(numbers: seq<string>, s: Series, year: nat, number: string)
    requires number in numbers && InScope(number, s, year)
    ensures TrailingValue(number) <= Peak(numbers, s, year)
  {
    if numbers[|numbers| - 1] != number {
      PeakIsLargest(numbers[..|numbers| - 1], s, year, number);
    }
  }

  /** What a printed number ends in: its sequence, behind whatever digits the body
      itself ends in. */
  lemma NumberEndsIn(s: Series, year: nat, sequence: nat, width: nat)
    ensures var padded := Padded(sequence, width);
            TrailingValue(Body(s, year) + padded) == TrailingValue(Body(s, year)) * Pow10(|padded|) + sequence
  {
    var padded := Padded(sequence, width);
    TrailingConcat(Body(s, year), padded);
    ValueConcat(Trailing(Body(s, year)), padded);
    PaddedWrites(sequence, width);
  }

  lemma NumberEndsAtLeast(s: Series, year: nat, sequence: nat, width: nat)
    ensures TrailingValue(Body(s, year) + Padded(sequence, width)) >= sequence
  {
    NumberEndsIn(s, year, sequence, width);
    AtLeast(TrailingValue(Body(s, year)), Pow10(|Padded(sequence, width)|), sequence);
  }

  lemma AtLeast(a: nat, b: nat, c: nat)
    ensures a * b + c >= c
  {
  }

  /** A printed number reads back as its sequence exactly when the body ends in no
      digits, or in zeros alone. */
  lemma ReadsBackIff(s: Series, year: nat, sequence: nat, width: nat)
    ensures TrailingValue(Body(s, year) + Padded(sequence, width)) == sequence <==> TrailingValue(Body(s, year)) == 0
  {
    NumberEndsIn(s, year, sequence, width);
    var padded := Padded(sequence, width);
    Pow10Positive(|padded|);
    assert TrailingValue(Body(s, year)) > 0 ==> TrailingValue(Body(s, year)) * Pow10(|padded|) > 0;
  }

  /** A year's body ends in a dash, so yearly series always read back. */
  lemma YearlyReadsBack(s: Series, year: nat)
    requires s.yearly
    ensures TrailingValue(Body(s, year)) == 0
  {
    var body := Body(s, year);
    assert body[|body| - 1] == '-';
    assert Trailing(body) == "";
  }

  /** The new number is none of the existing ones, whatever the body ends in. */
  lemma NextIsNew(numbers: seq<string>, s: Series, year: nat)
    requires AllDigits(s.start)
    ensures NextNumber(numbers, s, year) !in numbers
  {
    var next := NextNumber(numbers, s, year);
    var sequence := NextSequence(numbers, s, year);
    NumberEndsAtLeast(s, year, sequence, |s.start|);
    assert InScope(next, s, year);
    if next in numbers {
      PeakIsLargest(numbers, s, year, next);
    }
  }

  /** Once a number is taken, the next one follows it by one exactly when the number
      reads back; a body that ends in digits makes the sequence jump. */
  lemma SequencesFollowIff(numbers: seq<string>, s: Series, year: nat)
    requires AllDigits(s.start)
    ensures NextSequence(numbers + [NextNumber(numbers, s, year)], s, year) == NextSequence(numbers, s, year) + 1
            <==> TrailingValue(Body(s, year)) == 0
  {
    var next, sequence := NextNumber(numbers, s, year), NextSequence(numbers, s, year);
    NumberEndsAtLeast(s, year, sequence, |s.start|);
    ReadsBackIff(s, year, sequence, |s.start|);
    assert (numbers + [next])[..|numbers|] == numbers;
    assert InScope(next, s, year);
  }

  lemma PrefixEndsInOne()
    ensures TrailingValue("A1") == 1
  {
    assert "A1"[..1] == "A" && Trailing("A") == "";
    assert Trailing("A1") == "1" && "1"[..0] == "";
  }

  lemma AfterEleven(s: Series, year: nat)
    requires s == Series("A1", "1", false) && TrailingValue("A11") == 11
    ensures NextSequence(["A11"], s, year) == 12
  {
    assert "1"[..0] == "" && ValueOf("1") == 1;
    assert ["A11"][..0] == [] && Peak([], s, year) == 0;
  }

  lemma FirstNumber(s: Series, year: nat)
    requires s == Series("A1", "1", false)
    ensures NextSequence([], s, year) == 1 && NextNumber([], s, year) == "A11"
  {
    assert "1"[..0] == "" && ValueOf("1") == 1;
    assert Digits(1) == "1" && "A1" + "1" == "A11";
  }

  /** A series whose prefix is A1 starts with A11, and goes on with the twelfth. */
  lemma SequenceJumps(year: nat)
    ensures var s := Series("A1", "1", false);
            NextNumber([], s, year) == "A11" && NextSequence([], s, year) == 1 && NextSequence(["A11"], s, year) == 12
  {
    var s := Series("A1", "1", false);
    FirstNumber(s, year);
    PrefixEndsInOne();
    NumberEndsIn(s, year, 1, 1);
    assert Digits(1) == "1" && Pow10(1) == 10 && "A1" + "1" == "A11";
    AfterEleven(s, year);
  }

  lemma YearWritten()
    ensures Digits(2024) == "2024"
  {
    assert Digits(2) == "2" && Digits(20) == Digits(2) + "0" && "2" + "0" == "20";
    assert Digits(202) == Digits(20) + "2" && "20" + "2" == "202";
    assert Digits(2024) == Digits(202) + "4" && "202" + "4" == "2024";
  }

  lemma StartsAtOne()
    ensures ValueOf("0001") == 1 && AllDigits("0001")
  {
    var start := "0001";
    assert start == "000" + "1" && "000" == Zeros(3) by {
      assert Zeros(1) == "0" && Zeros(2) == "00";
    }
    ZerosAreNothing(3);
    ValueConcat(Zeros(3), "1");
    assert "1"[..0] == "" && ValueOf("1") == 1;
  }

  lemma PaddedOne()
    ensures Padded(1, 4) == "0001"
  {
    assert Digits(1) == "1" && Zeros(1) == "0" && Zeros(2) == "00" && Zeros(3) == "000";
    assert "000" + "1" == "0001";
  }

  /** The first number of a yearly series: its prefix, the year, and where it starts. */
  lemma YearlyNumber(s: Series)
    requires s == Series("INV-", "0001", true)
    ensures AllDigits(s.start) && NextNumber([], s, 2024) == "INV-" + "2024" + "-" + "0001"
  {
    YearWritten();
    StartsAtOne();
    PaddedOne();
    assert Peak([], s, 2024) == 0;
  }

  /** The rows of one numbered table, each number unique. */
  class NumberedTable {
    var numbers: seq<string>

    constructor ()
      ensures numbers == []
    {
      numbers := [];
    }

    method ReadPeak(s: Series, year: nat) returns (peak: nat)
      ensures peak == Peak(numbers, s, year)
    {
      peak := 0;
      for i := 0 to |numbers|
        invariant peak == Peak(numbers[..i], s, year)
      {
        assert numbers[..i + 1][..i] == numbers[..i];
        if InScope(numbers[i], s, year) && TrailingValue(numbers[i]) > peak {
          peak := TrailingValue(numbers[i]);
        }
      }
      assert numbers[..|numbers|] == numbers;
    }

    method Make(s: Series, year: nat) returns (number: string)
      requires AllDigits(s.start)
      ensures number == NextNumber(numbers, s, year)
    {
      var peak := ReadPeak(s, year);
      number := Body(s, year) + Padded(Max(peak, ValueOf(s.start) - 1) + 1, |s.start|);
    }

    /** What other sessions commit, then the insertion, refused if the number is there. */
    method TryInsert(number: string, others: seq<string>) returns (inserted: bool)
      modifies this
      ensures inserted <==> number !in old(numbers) + others
      ensures numbers == old(numbers) + others + if inserted then [number] else []
    {
      numbers := numbers + others;
      inserted := number !in numbers;
      if inserted {
        numbers := numbers + [number];
      }
    }

    /** `assign_number`: made, inserted, and made again if it was taken meanwhile. What
        other sessions insert before each of the six attempts is given. The number
        that goes in is new; the call gives up only if every number it made was
        taken by the others just then; and with nobody else inserting the first
        attempt succeeds. */
    method Assign(s: Series, year: nat, others: seq<seq<string>>) returns (r: Result<string>, ghost failed: nat)
      requires AllDigits(s.start) && |others| == 6
      modifies this
      ensures failed <= 6 && forall k :: 0 <= k < failed ==> TakenAt(old(numbers), s, year, others, k)
      ensures if failed < 6 then r.Success? && AssignedAt(old(numbers), s, year, others, failed, r.value, numbers)
              else r == Failure(Conflict) && numbers == Joined(old(numbers), others)
      ensures others[0] == [] ==> r == Success(NextNumber(old(numbers), s, year)) && numbers == old(numbers) + [r.value]
    {
      failed := 0;
      ghost var before := numbers;
      var number := Make(s, year);
      for attempt := 0 to 6
        invariant failed == attempt && numbers == Joined(before, others[..attempt])
        invariant number == NextNumber(numbers, s, year)
        invariant forall k :: 0 <= k < attempt ==> TakenAt(before, s, year, others, k)
      {
        NextIsNew(numbers, s, year);
        JoinedNext(before, others, attempt);
        var inserted := TryInsert(number, others[attempt]);
        if inserted {
          assert AssignedAt(before, s, year, others, attempt, number, numbers);
          NobodyElse(before, s, year, others, attempt);
          return Success(number), attempt;
        }
        assert TakenAt(before, s, year, others, attempt);
        number := Make(s, year);
        failed := failed + 1;
      }
      assert others[..6] == others;
      NobodyElse(before, s, year, others, 6);
      r := Failure(Conflict);
    }
  }

  /** With nobody else inserting, no attempt fails. */
  lemma NobodyElse(before: seq<string>, s: Series, year: nat, others: seq<seq<string>>, failed: nat)
    requires AllDigits(s.start) && |others| == 6 && failed <= 6 && forall k :: 0 <= k < failed ==> TakenAt(before, s, year, others, k)
    ensures others[0] == [] ==> failed == 0
  {
    if failed > 0 {
      assert TakenAt(before, s, year, others, 0);
    }
  }

  /** The table with what other sessions inserted. */
  function Joined(numbers: seq<string>, others: seq<seq<string>>): seq<string> {
    if others == [] then numbers else Joined(numbers, others[..|others| - 1]) + others[|others| - 1]
  }

  lemma JoinedNext(numbers: seq<string>, others: seq<seq<string>>, k: nat)
    requires k < |others|
    ensures Joined(numbers, others[..k + 1]) == Joined(numbers, others[..k]) + others[k]
  {
    assert others[..k + 1][..k] == others[..k];
  }

  /** Someone else inserted the very number made, between its making and its insertion. */
  predicate TakenAt(before: seq<string>, s: Series, year: nat, others: seq<seq<string>>, k: nat)
    requires AllDigits(s.start) && k < |others|
  {
    NextNumber(Joined(before, others[..k]), s, year) in others[k]
  }

  /** Inserted at one attempt: made from what was there before the others' last rows,
      and new among them too. */
  predicate AssignedAt(before: seq<string>, s: Series, year: nat, others: seq<seq<string>>, k: nat, number: string, after: seq<string>)
    requires AllDigits(s.start) && k < |others|
  {
    && number == NextNumber(Joined(before, others[..k]), s, year)
    && number !in Joined(before, others[..k + 1])
    && after == Joined(before, others[..k + 1]) + [number]
  }
}
