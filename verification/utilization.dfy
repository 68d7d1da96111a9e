/**
 * The dashboard's utilization statistics: six numbers derived from the
 * availability percentages of all resources and the number of projects.
 * Availability is an unchecked integer: it may be negative or above 100.
 */
module Utilization {
  import opened Rounding

  datatype Stats = Stats(
    totalResources: nat,
    allocatedResources: nat,
    availableResources: nat,
    averageUtilization: int,
    overallocated: nat,
    totalProjects: nat)

  /** The three filters of the statistics query. */

  /** Overallocated: no free capacity left. */
  predicate Overallocated(a: int) { a <= 0 }

  /** Allocated: some capacity is taken. */
  predicate Allocated(a: int) { a < 100 }

  /** Available: some capacity is free; exactly the resources that are not overallocated. */
  predicate Available(a: int)
    ensures Available(a) <==> !Overallocated(a)
  {
    a > 0
  }

  /** Number of elements of s that satisfy p. */
  function Count(s: seq<int>, p: int -> bool): (n: nat)
    ensures n <= |s|
    ensures n == 0 <==> forall i :: 0 <= i < |s| ==> !p(s[i])
    ensures n == |s| <==> forall i :: 0 <= i < |s| ==> p(s[i])
  {
    if s == [] then 0
    else
      assert forall i :: 1 <= i < |s| ==> s[i] == s[1..][i - 1];
      (if p(s[0]) then 1 else 0) + Count(s[1..], p)
  }

  /**
   * Sum of the utilizations 100 - a, in list order: fully free resources
   * contribute nothing and fully allocated ones 100 each.
   */
  function TotalUtilization(s: seq<int>): (r: int)
    ensures (forall i :: 0 <= i < |s| ==> s[i] == 100) ==> r == 0
    ensures (forall i :: 0 <= i < |s| ==> s[i] == 0) ==> r == 100 * |s|
  {
    if s == [] then 0 else (100 - s[0]) + TotalUtilization(s[1..])
  }

  /** The statistics reported for the availabilities of all resources and the project count. */
  function UtilizationStats(availability: seq<int>, projectCount: nat): (r: Stats)
    ensures r.totalResources == |availability| && r.totalProjects == projectCount
    ensures r.overallocated + r.availableResources == r.totalResources
    ensures r.allocatedResources <= r.totalResources
    ensures availability == [] ==> r.averageUtilization == 0
    ensures availability != [] ==>
      RoundsTo(TotalUtilization(availability), |availability|, r.averageUtilization)
  {
    CountComplement(availability, Available, Overallocated);
    Stats(
      |availability|,
      Count(availability, Allocated),
      Count(availability, Available),
      if availability == [] then 0
      else RoundHalfEven(TotalUtilization(availability), |availability|),
      Count(availability, Overallocated),
      projectCount)
  }

  /** Every element satisfies exactly one of two complementary filters. */
  lemma {:induction false} CountComplement(s: seq<int>, p: int -> bool, q: int -> bool)
    requires forall x :: q(x) == !p(x)
    ensures Count(s, p) + Count(s, q) == |s|
  {
    if s != [] {
      CountComplement(s[1..], p, q);
    }
  }

  /** Counting distributes over concatenation, so the statistics do not depend on how the list is split. */
  lemma {:induction false} CountAppend(s: seq<int>, t: seq<int>, p: int -> bool)
    ensures Count(s + t, p) == Count(s, p) + Count(t, p)
  {
    if s == [] {
      assert s + t == t;
    } else {
      assert (s + t)[1..] == s[1..] + t;
      CountAppend(s[1..], t, p);
    }
  }

  /** Sum of the availabilities. */
  function SumOf(s: seq<int>): int {
    if s == [] then 0 else s[0] + SumOf(s[1..])
  }

  /** The utilization sum is the same as 100 times the count minus the sum of availabilities. */
  lemma {:induction false} TotalUtilizationIsComplement(s: seq<int>)
    ensures TotalUtilization(s) == 100 * |s| - SumOf(s)
  {
    if s != [] {
      TotalUtilizationIsComplement(s[1..]);
    }
  }

  predicate InPercentRange(s: seq<int>) {
    forall i :: 0 <= i < |s| ==> 0 <= s[i] <= 100
  }

  lemma {:induction false} TotalUtilizationBounds(s: seq<int>)
    requires InPercentRange(s)
    ensures 0 <= TotalUtilization(s) <= 100 * |s|
  {
    if s != [] {
      assert InPercentRange(s[1..]) by {
        forall i | 0 <= i < |s[1..]| ensures 0 <= s[1..][i] <= 100 {
          assert s[1..][i] == s[i + 1];
        }
      }
      TotalUtilizationBounds(s[1..]);
    }
  }

  /** With every availability in 0..100, the average utilization is a percentage as well. */
  lemma AverageIsPercentage(availability: seq<int>, projectCount: nat)
    requires InPercentRange(availability)
    ensures 0 <= UtilizationStats(availability, projectCount).averageUtilization <= 100
  {
    if availability != [] {
      TotalUtilizationBounds(availability);
      RoundingBetween(TotalUtilization(availability), |availability|, 0, 100);
    }
  }

  predicate PartlyFree(a: int) { 0 < a < 100 }
  predicate Free(a: int) { a == 100 }

  /**
   * Overallocated, partly free and fully free resources make up all resources,
   * provided no availability exceeds 100.
   */
  lemma {:induction false} ThreeBands(s: seq<int>)
    requires forall i :: 0 <= i < |s| ==> s[i] <= 100
    ensures Count(s, Overallocated) + Count(s, PartlyFree) + Count(s, Free) == |s|
  {
    if s != [] {
      assert forall i :: 0 <= i < |s[1..]| ==> s[1..][i] == s[i + 1];
      ThreeBands(s[1..]);
    }
  }

  /** An availability above 100 falls into none of the three bands. */
  lemma AboveHundredInNoBand()
    ensures Count([150], Overallocated) + Count([150], PartlyFree) + Count([150], Free) == 0
  {
  }

  /** Allocated resources are exactly those below full availability. */
  lemma AllocatedComplement(s: seq<int>, projectCount: nat)
    ensures UtilizationStats(s, projectCount).allocatedResources
         == |s| - Count(s, a => a >= 100)
  {
    CountComplement(s, Allocated, a => a >= 100);
  }

  lemma EmptyStats(projectCount: nat)
    ensures UtilizationStats([], projectCount) == Stats(0, 0, 0, 0, 0, projectCount)
  {
  }

  /** The seeded resources: availabilities 0, 20 and 0; 280 / 3 rounds to 93. */
  lemma SeededStats()
    ensures UtilizationStats([0, 20, 0], 3) == Stats(3, 3, 1, 93, 2, 3)
  {
  }

  /** 180 / 3 is exactly 60; availability 100 is still counted as available. */
  lemma MixedStats()
    ensures UtilizationStats([0, 20, 100], 0) == Stats(3, 2, 2, 60, 1, 0)
  {
  }

  /** 1 / 2 is a tie and rounds to the even 0, not to 1. */
  lemma TieRoundsToEven()
    ensures UtilizationStats([99, 100], 0).averageUtilization == 0
    ensures UtilizationStats([97, 100], 0).averageUtilization == 2
  {
  }

  /** Negative utilizations round half to even too: -1 / 2 gives 0 and -3 / 2 gives -2. */
  lemma NegativeTies()
    ensures UtilizationStats([101, 100], 0).averageUtilization == 0
    ensures UtilizationStats([103, 100], 0).averageUtilization == -2
  {
  }
}
