/** Admission arithmetic on 64-bit integers (internal/resource/admit.go). */
module Admission {

  const MAX64: int := 0x7FFF_FFFF_FFFF_FFFF
  const MIN64: int := -0x8000_0000_0000_0000

  predicate Is64(x: int) { MIN64 <= x <= MAX64 }

  /** Two's-complement wrap-around of a sum or difference of two 64-bit values. */
  function Wrap(x: int): int {
    if x > MAX64 then x - 0x1_0000_0000_0000_0000
    else if x < MIN64 then x + 0x1_0000_0000_0000_0000
    else x
  }

  datatype Hold = Hold(bound: int, attributed: int)

  predicate Holds64(holds: seq<Hold>) {
    forall i :: 0 <= i < |holds| ==> Is64(holds[i].bound) && Is64(holds[i].attributed)
  }

  /** max(0, bound - attributed), as the machine computes it. */
  function Headroom(bound: int, attributed: int): int {
    if bound <= attributed then 0 else Wrap(bound - attributed)
  }

  /** The mathematical sum of the headrooms. */
  function SumOf(holds: seq<Hold>): int {
    if holds == [] then 0
    else SumOf(holds[..|holds| - 1]) + Headroom(holds[|holds| - 1].bound, holds[|holds| - 1].attributed)
  }

  /** What admission means: the margin is there, and the headrooms fit in what is left. */
  predicate Covers(free: int, margin: int, sum: int) {
    0 <= margin <= free && sum <= free - margin
  }

  /** Every headroom, added to the whole budget, stays a 64-bit number. */
  predicate NoOverflow(free: int, margin: int, holds: seq<Hold>) {
    forall i :: 0 <= i < |holds| ==>
      0 <= Headroom(holds[i].bound, holds[i].attributed) <= MAX64 - (free - margin)
  }

  /** The loop of Fits with its wrapping sum and early exit, from the left. */
  function Scan(budget: int, sum: int, holds: seq<Hold>): bool
    decreases |holds|
  {
    if holds == [] then true
    else
      var sum' := Wrap(sum + Headroom(holds[0].bound, holds[0].attributed));
      budget >= sum' && Scan(budget, sum', holds[1..])
  }

  predicate MachineFits(free: int, margin: int, holds: seq<Hold>) {
    free >= 0 && margin >= 0 && free >= margin && Scan(Wrap(free - margin), 0, holds)
  }

  method Fits(free: int, margin: int, holds: seq<Hold>) returns (r: bool)
    requires Is64(free) && Is64(margin) && Holds64(holds)
    ensures r == MachineFits(free, margin, holds)
    ensures NoOverflow(free, margin, holds) ==> r == Covers(free, margin, SumOf(holds))
  {
    if free < 0 || margin < 0 || free < margin {
      return false;
    }
    var sum := 0;
    var budget := Wrap(free - margin);
    for i := 0 to |holds|
      invariant Scan(budget, 0, holds) == Scan(budget, sum, holds[i..])
      invariant NoOverflow(free, margin, holds) ==> 0 <= sum == SumOf(holds[..i]) <= budget
    {
      var h := Headroom(holds[i].bound, holds[i].attributed);
      assert NoOverflow(free, margin, holds) ==> 0 <= h <= MAX64 - budget;
      assert holds[..i + 1][..i] == holds[..i];
      assert holds[i..][0] == holds[i] && holds[i..][1..] == holds[i + 1..];
      sum := Wrap(sum + h);
      if budget < sum {
        if NoOverflow(free, margin, holds) {
          assert sum == SumOf(holds[..i + 1]);
          SumGrows(holds, i + 1);
        }
        return false;
      }
    }
    assert holds[..|holds|] == holds;
    r := true;
  }

  /** Non-negative headrooms only add up. */
  lemma {:induction false} SumGrows(holds: seq<Hold>, i: nat)
    requires i <= |holds|
    requires forall k :: 0 <= k < |holds| ==> Headroom(holds[k].bound, holds[k].attributed) >= 0
    ensures SumOf(holds[..i]) <= SumOf(holds)
    decreases |holds| - i
  {
    if i < |holds| {
      assert holds[..i + 1][..i] == holds[..i];
      SumGrows(holds, i + 1);
    } else {
      assert holds[..i] == holds;
    }
  }

  lemma {:induction false} ScanIsSum(budget: int, done: seq<Hold>, holds: seq<Hold>)
    requires 0 <= SumOf(done) <= budget <= MAX64
    requires forall k :: 0 <= k < |holds| ==>
               0 <= Headroom(holds[k].bound, holds[k].attributed) <= MAX64 - budget
    ensures Scan(budget, SumOf(done), holds) == (SumOf(done + holds) <= budget)
    decreases |holds|
  {
    if holds == [] {
      assert done + holds == done;
    } else {
      var done' := done + [holds[0]];
      assert done'[..|done|] == done;
      assert done' + holds[1..] == done + holds;
      if SumOf(done') <= budget {
        ScanIsSum(budget, done', holds[1..]);
      } else {
        SumFrom(done', holds[1..]);
      }
    }
  }

  lemma {:induction false} SumFrom(done: seq<Hold>, holds: seq<Hold>)
    requires forall k :: 0 <= k < |holds| ==> Headroom(holds[k].bound, holds[k].attributed) >= 0
    ensures SumOf(done) <= SumOf(done + holds)
    decreases |holds|
  {
    if holds == [] {
      assert done + holds == done;
    } else {
      var init := holds[..|holds| - 1];
      assert (done + holds)[..|done + holds| - 1] == done + init;
      SumFrom(done, init);
    }
  }

  predicate UpTo(holds: seq<Hold>, cap: int) {
    forall k :: 0 <= k < |holds| ==> holds[k].attributed == 0 && 0 <= holds[k].bound <= cap
  }

  /**
   The exact bound. For one budget, the wrapping loop agrees with the arithmetic on
   every list of non-negative bounds up to `cap` if and only if `cap` added to the
   whole budget does not overflow.
   */
  ghost predicate AgreesUpTo(budget: nat, cap: int) {
    forall holds: seq<Hold> :: UpTo(holds, cap) ==> MachineFits(budget, 0, holds) == Covers(budget, 0, SumOf(holds))
  }

  /** Holds of at most `cap` that add up to exactly `sum`. */
  function Fill(sum: nat, cap: int): seq<Hold>
    requires cap > 0
  {
    if sum <= cap then [Hold(sum, 0)] else [Hold(cap, 0)] + Fill(sum - cap, cap)
  }

  lemma {:induction false} FillIsBounded(sum: nat, cap: int)
    requires 0 < cap <= MAX64 && sum <= MAX64
    ensures forall k :: 0 <= k < |Fill(sum, cap)| ==>
              Fill(sum, cap)[k].attributed == 0 && 0 <= Fill(sum, cap)[k].bound <= cap
    ensures SumOf(Fill(sum, cap)) == sum
  {
    if sum <= cap {
      assert Fill(sum, cap)[..0] == [];
    } else {
      FillIsBounded(sum - cap, cap);
      SumSplit(Hold(cap, 0), Fill(sum - cap, cap));
    }
  }

  lemma {:induction false} SumSplit(first: Hold, rest: seq<Hold>)
    ensures SumOf([first] + rest) == Headroom(first.bound, first.attributed) + SumOf(rest)
    decreases |rest|
  {
    var all := [first] + rest;
    if rest == [] {
      assert all[..0] == [];
    } else {
      assert all[..|all| - 1] == [first] + rest[..|rest| - 1];
      SumSplit(first, rest[..|rest| - 1]);
    }
  }

  /** A hold that overflows once the budget is used up wraps below zero and is let in. */
  lemma {:induction false} FillFools(budget: nat, sum: nat, left: nat, cap: int)
    requires sum + left == budget <= MAX64 && MAX64 - budget < cap <= MAX64
    ensures Scan(budget, sum, Fill(left, cap) + [Hold(cap, 0)])
    decreases left
  {
    var holds := Fill(left, cap) + [Hold(cap, 0)];
    if left <= cap {
      assert holds[1..] == [Hold(cap, 0)] && holds[1..][1..] == [];
      assert Scan(budget, budget, holds[1..]);
    } else {
      assert holds[1..] == Fill(left - cap, cap) + [Hold(cap, 0)];
      FillFools(budget, sum + cap, left - cap, cap);
    }
  }

  lemma ScansAll(budget: int, holds: seq<Hold>)
    requires 0 <= budget <= MAX64
    requires forall k :: 0 <= k < |holds| ==>
               0 <= Headroom(holds[k].bound, holds[k].attributed) <= MAX64 - budget
    ensures Scan(budget, 0, holds) == (SumOf(holds) <= budget)
  {
    assert SumOf([]) == 0;
    hide Scan, SumOf;
    ScanIsSum(budget, [], holds);
    assert [] + holds == holds;
  }

  /** If no headroom overflows the whole budget, the loop decides the arithmetic statement. */
  lemma MachineIsSum(free: int, margin: int, holds: seq<Hold>)
    requires Is64(free) && Is64(margin) && NoOverflow(free, margin, holds)
    ensures MachineFits(free, margin, holds) == Covers(free, margin, SumOf(holds))
  {
    hide Scan, SumOf;
    if 0 <= margin <= free { ScansAll(free - margin, holds); }
  }

  lemma SmallHoldsAgree(budget: nat, cap: int, holds: seq<Hold>)
    requires budget <= MAX64 && 0 < cap <= MAX64 - budget && UpTo(holds, cap)
    ensures MachineFits(budget, 0, holds) == Covers(budget, 0, SumOf(holds))
  {
    hide MachineFits, Covers, SumOf;
    MachineIsSum(budget, 0, holds);
  }

  /** Beyond the bound the loop lets in what does not fit. */
  lemma FooledBeyond(budget: nat, cap: int) returns (holds: seq<Hold>)
    requires budget <= MAX64 && MAX64 - budget < cap <= MAX64
    ensures UpTo(holds, cap) && MachineFits(budget, 0, holds) && !Covers(budget, 0, SumOf(holds))
  {
    hide Scan, Fill;
    var last := Hold(cap, 0);
    holds := Fill(budget, cap) + [last];
    FillFools(budget, 0, budget, cap);
    FillIsBounded(budget, cap);
    assert holds[..|holds| - 1] == Fill(budget, cap);
  }

  lemma FitsExactBound(budget: nat, cap: int)
    requires budget <= MAX64 && 0 < cap <= MAX64
    ensures AgreesUpTo(budget, cap) <==> cap <= MAX64 - budget
  {
    hide MachineFits, Covers, SumOf, UpTo;
    if cap <= MAX64 - budget {
      forall holds: seq<Hold> | UpTo(holds, cap)
        ensures MachineFits(budget, 0, holds) == Covers(budget, 0, SumOf(holds))
      {
        SmallHoldsAgree(budget, cap, holds);
      }
    } else {
      var holds := FooledBeyond(budget, cap);
    }
  }

  // ---------------------------------------------------------------- samples

  /** One observation of the GPU. `at` is 0 for the zero time. */
  datatype Snapshot = Snapshot(ok: bool, device: string, total: int, free: int, at: int)

  const NO_SAMPLE := Snapshot(false, "", 0, 0, 0)

  predicate Fresh(s: Snapshot, now: int, maxAge: int) {
    if !s.ok || s.device == "" || s.at == 0 || maxAge <= 0 then false
    else if now < s.at then false
    else now - s.at <= maxAge
  }
}
