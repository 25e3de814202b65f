/** The pricing engine: flex pricing (piecewise accumulation over the tiers with a
    minimum invoice), commit pricing (one discounted rate for the committed block,
    flex pricing for the overflow) and the commitment-tier recommendation.
    Spend and commitment are exact reals; the table is passed in as a value. */
module Pricing {
  import opened Tiers

  /** Spends up to and including this amount are subject to the minimum invoice. */
  const FloorSpend: real := 125_000.0
  /** The minimum flex invoice. */
  const MinimumInvoice: real := 2500.0
  /** A spend above this fraction of its tier's upper bound is "near the top". */
  const NearTopFraction: real := 0.8

  function Min(a: real, b: real): real { if a <= b then a else b }
  function Max(a: real, b: real): real { if a >= b then a else b }

  // ---------------------------------------------------------------------------
  // First-match search

  /** The index of the first element satisfying p, or |s| when none does: the
      position `next(generator, default)` stops at. */
  function First<T>(s: seq<T>, p: T -> bool): (r: nat)
    ensures r <= |s|
    ensures forall j :: 0 <= j < r ==> !p(s[j])
    ensures r < |s| ==> p(s[r])
  {
    if |s| == 0 then 0
    else if p(s[0]) then 0
    else 1 + First(s[1..], p)
  }

  /** The index of the first entry equal to t, or |tiers| when there is none:
      the list lookup by value that `index` performs. */
  function IndexOf(tiers: seq<Tier>, t: Tier): (r: nat)
    ensures r <= |tiers|
    ensures forall j :: 0 <= j < r ==> tiers[j] != t
    ensures r < |tiers| ==> tiers[r] == t
  {
    First(tiers, (u: Tier) => u == t)
  }

  // ---------------------------------------------------------------------------
  // Flex pricing

  /** The spend the flex loop bills at each tier it visits, in table order. The
      walk stops once nothing remains or the table is exhausted; each visited tier
      takes the smaller of what remains and its capacity. */
  function Allocation(tiers: seq<Tier>, remaining: real): (a: seq<real>)
    ensures |a| <= |tiers|
  {
    if |tiers| == 0 || remaining <= 0.0 then []
    else
      var tierSpend := Min(remaining, Capacity(tiers[0]));
      [tierSpend] + Allocation(tiers[1..], remaining - tierSpend)
  }

  /** Each allocated amount billed at its own tier's rate. */
  function Cost(alloc: seq<real>, tiers: seq<Tier>): real
    requires |alloc| <= |tiers|
  {
    if |alloc| == 0 then 0.0 else alloc[0] * tiers[0].rate + Cost(alloc[1..], tiers[1..])
  }

  function Sum(a: seq<real>): real
  {
    if |a| == 0 then 0.0 else a[0] + Sum(a[1..])
  }

  /** The raw total the flex loop accumulates, before the minimum invoice. */
  function Accumulated(tiers: seq<Tier>, spend: real): real
  {
    Cost(Allocation(tiers, spend), tiers)
  }

  /** The spend the flex loop bills at all; whatever exceeds it is never billed. */
  function Billed(tiers: seq<Tier>, spend: real): real
  {
    Sum(Allocation(tiers, spend))
  }

  /** The flex price: the accumulated total, raised to the minimum invoice when
      the spend is at most the floor spend. */
  function FlexPrice(tiers: seq<Tier>, spend: real): (r: real)
    ensures spend <= FloorSpend ==> r >= MinimumInvoice && r >= Accumulated(tiers, spend)
    ensures spend <= FloorSpend && Accumulated(tiers, spend) >= MinimumInvoice ==> r == Accumulated(tiers, spend)
    ensures spend <= FloorSpend && Accumulated(tiers, spend) < MinimumInvoice ==> r == MinimumInvoice
    ensures spend > FloorSpend ==> r == Accumulated(tiers, spend)
  {
    var total := Accumulated(tiers, spend);
    if spend <= FloorSpend then Max(total, MinimumInvoice) else total
  }

  /** One step of the flex walk: a visited tier bills min(remaining, capacity) at
      its rate and hands the rest to the following tiers. */
  lemma AccumulatedStep(tiers: seq<Tier>, remaining: real)
    requires |tiers| > 0 && remaining > 0.0
    ensures var tierSpend := Min(remaining, Capacity(tiers[0]));
      Accumulated(tiers, remaining)
      == tierSpend * tiers[0].rate + Accumulated(tiers[1..], remaining - tierSpend)
  {
  }

  /** The flex price as the source computes it: a loop over the tiers that
      accumulates the cost and the remaining spend, stopping early once nothing
      remains, followed by the minimum invoice. */
  method CalculateFlexPrice(tiers: seq<Tier>, spend: real) returns (price: real)
    ensures price == FlexPrice(tiers, spend)
  {
    var total := 0.0;
    var remaining := spend;
    ghost var billed := 0.0;
    for i := 0 to |tiers|
      invariant total + Accumulated(tiers[i..], remaining) == Accumulated(tiers, spend)
      invariant billed + remaining == spend
      invariant billed + Billed(tiers[i..], remaining) == Billed(tiers, spend)
      invariant spend >= 0.0 ==> remaining >= 0.0
    {
      if remaining <= 0.0 {
        break;
      }
      var tierSpend := Min(remaining, (tiers[i].upper - tiers[i].lower) as real);
      AccumulatedStep(tiers[i..], remaining);
      assert tiers[i..][1..] == tiers[i + 1..];
      assert Allocation(tiers[i..], remaining)
        == [tierSpend] + Allocation(tiers[i + 1..], remaining - tierSpend);
      total := total + tierSpend * tiers[i].rate;
      remaining := remaining - tierSpend;
      billed := billed + tierSpend;
    }
    if spend <= FloorSpend {
      return Max(total, MinimumInvoice);
    }
    return total;
  }

  /** Each visited tier bills at most its own capacity, and nothing negative when
      that capacity is non-negative. */
  lemma {:induction false} AllocationWithinCapacity(tiers: seq<Tier>, remaining: real)
    ensures var a := Allocation(tiers, remaining);
      forall k :: 0 <= k < |a| ==> a[k] <= Capacity(tiers[k]) && (Capacity(tiers[k]) >= 0.0 ==> a[k] >= 0.0)
  {
    if |tiers| > 0 && remaining > 0.0 {
      var tierSpend := Min(remaining, Capacity(tiers[0]));
      AllocationWithinCapacity(tiers[1..], remaining - tierSpend);
      var a := Allocation(tiers, remaining);
      var rest := Allocation(tiers[1..], remaining - tierSpend);
      assert a == [tierSpend] + rest;
      forall k | 0 <= k < |a|
        ensures a[k] <= Capacity(tiers[k]) && (Capacity(tiers[k]) >= 0.0 ==> a[k] >= 0.0)
      {
        if k > 0 { assert a[k] == rest[k - 1] && tiers[k] == tiers[1..][k - 1]; }
      }
    }
  }

  /** For non-negative spend the loop bills exactly min(spend, total capacity):
      all of the spend when the table can hold it, and no more than the table's
      capacity otherwise. */
  lemma {:induction false} BilledIsCappedSpend(tiers: seq<Tier>, spend: real)
    requires NonNegativeCapacities(tiers) && spend >= 0.0
    ensures Billed(tiers, spend) == Min(spend, TotalCapacity(tiers))
  {
    TotalCapacityNonNegative(tiers);
    if |tiers| > 0 && spend > 0.0 {
      var tierSpend := Min(spend, Capacity(tiers[0]));
      assert Capacity(tiers[0]) >= 0.0;
      assert NonNegativeCapacities(tiers[1..]);
      BilledIsCappedSpend(tiers[1..], spend - tierSpend);
      TotalCapacityNonNegative(tiers[1..]);
      var a := Allocation(tiers, spend);
      assert a == [tierSpend] + Allocation(tiers[1..], spend - tierSpend);
      assert a[1..] == Allocation(tiers[1..], spend - tierSpend);
    }
  }

  /** Spend beyond the total capacity is never billed: the accumulated total at
      any such spend equals the total at the capacity itself. */
  lemma {:induction false} AccumulatedSaturates(tiers: seq<Tier>, spend: real)
    requires NonNegativeCapacities(tiers) && spend >= TotalCapacity(tiers)
    ensures Accumulated(tiers, spend) == Accumulated(tiers, TotalCapacity(tiers))
  {
    var total := TotalCapacity(tiers);
    if |tiers| > 0 {
      var c := Capacity(tiers[0]);
      assert c >= 0.0;
      assert NonNegativeCapacities(tiers[1..]);
      TotalCapacityNonNegative(tiers[1..]);
      var rest := TotalCapacity(tiers[1..]);
      assert total == c + rest;
      if total > 0.0 {
        AccumulatedStep(tiers, spend);
        AccumulatedStep(tiers, total);
        AccumulatedSaturates(tiers[1..], spend - c);
      } else if spend > 0.0 {
        AccumulatedStep(tiers, spend);
        AccumulatedSaturates(tiers[1..], spend);
      }
    }
  }

  lemma MulMonotone(x: real, y: real, r: real)
    requires x <= y && r >= 0.0
    ensures x * r <= y * r
  {
  }

  lemma {:induction false} AccumulatedNonNegative(tiers: seq<Tier>, spend: real)
    requires NonNegativeCapacities(tiers) && NonNegativeRates(tiers)
    ensures Accumulated(tiers, spend) >= 0.0
  {
    if |tiers| > 0 && spend > 0.0 {
      var tierSpend := Min(spend, Capacity(tiers[0]));
      assert Capacity(tiers[0]) >= 0.0 && tiers[0].rate >= 0.0;
      AccumulatedStep(tiers, spend);
      MulMonotone(0.0, tierSpend, tiers[0].rate);
      assert NonNegativeCapacities(tiers[1..]) && NonNegativeRates(tiers[1..]);
      AccumulatedNonNegative(tiers[1..], spend - tierSpend);
    }
  }

  /** More spend never accumulates a smaller total. */
  lemma {:induction false} AccumulatedMonotone(tiers: seq<Tier>, a: real, b: real)
    requires NonNegativeCapacities(tiers) && NonNegativeRates(tiers)
    requires a <= b
    ensures Accumulated(tiers, a) <= Accumulated(tiers, b)
  {
    if |tiers| > 0 {
      if a <= 0.0 {
        AccumulatedNonNegative(tiers, b);
      } else {
        var c := Capacity(tiers[0]);
        var sa, sb := Min(a, c), Min(b, c);
        AccumulatedStep(tiers, a);
        AccumulatedStep(tiers, b);
        MulMonotone(sa, sb, tiers[0].rate);
        assert NonNegativeCapacities(tiers[1..]) && NonNegativeRates(tiers[1..]);
        AccumulatedMonotone(tiers[1..], a - sa, b - sb);
      }
    }
  }

  /** Flex pricing is non-decreasing in spend for any table whose accumulated
      total at the floor spend already reaches the minimum invoice. */
  lemma FlexMonotone(tiers: seq<Tier>, a: real, b: real)
    requires NonNegativeCapacities(tiers) && NonNegativeRates(tiers)
    requires Accumulated(tiers, FloorSpend) >= MinimumInvoice
    requires a <= b
    ensures FlexPrice(tiers, a) <= FlexPrice(tiers, b)
  {
    AccumulatedMonotone(tiers, a, b);
    if b > FloorSpend {
      AccumulatedMonotone(tiers, FloorSpend, b);
    }
  }

  /** Zero or negative spend bills nothing, so the flex price is the minimum invoice. */
  lemma FlexNonPositiveSpend(tiers: seq<Tier>, spend: real)
    requires spend <= 0.0
    ensures FlexPrice(tiers, spend) == MinimumInvoice
  {
  }

  // ---------------------------------------------------------------------------
  // Commit pricing

  /** The commitment's tier: the first tier whose upper bound reaches the
      commitment, or the last tier when the commitment exceeds them all. */
  predicate IsCommitTier(tiers: seq<Tier>, commit: real, k: int)
  {
    0 <= k < |tiers|
    && (forall j :: 0 <= j < k ==> (tiers[j].upper as real) < commit)
    && ((tiers[k].upper as real) >= commit
        || (k == |tiers| - 1 && forall j :: 0 <= j < |tiers| ==> (tiers[j].upper as real) < commit))
  }

  function CommitTierIndex(tiers: seq<Tier>, commit: real): (k: nat)
    requires |tiers| > 0
    ensures IsCommitTier(tiers, commit, k)
  {
    var found := First(tiers, (t: Tier) => t.upper as real >= commit);
    if found < |tiers| then found else |tiers| - 1
  }

  /** The commit price: the smaller of spend and commitment at the commitment
      tier's rate, plus a fresh flex price (restarting at tier 0, with its own
      minimum invoice) for any spend above the commitment. A zero commitment is
      plain flex pricing. */
  function CommitPrice(tiers: seq<Tier>, spend: real, commit: real): (r: real)
    requires commit != 0.0 ==> |tiers| > 0
    ensures commit == 0.0 ==> r == FlexPrice(tiers, spend)
  {
    if commit == 0.0 then FlexPrice(tiers, spend)
    else
      var rate := tiers[CommitTierIndex(tiers, commit)].rate;
      var committed := Min(spend, commit) * rate;
      var overflow := if spend > commit then FlexPrice(tiers, spend - commit) else 0.0;
      committed + overflow
  }

  /** The commitment tier is determined uniquely by its characterisation. */
  lemma CommitTierUnique(tiers: seq<Tier>, commit: real, k: int)
    requires |tiers| > 0 && IsCommitTier(tiers, commit, k)
    ensures CommitTierIndex(tiers, commit) == k
  {
  }

  /** Spend within a non-zero commitment is billed entirely at the commitment
      tier's rate, with no overflow and no minimum invoice. */
  lemma CommitWithinCommitment(tiers: seq<Tier>, spend: real, commit: real, k: int)
    requires |tiers| > 0 && commit != 0.0 && spend <= commit
    requires IsCommitTier(tiers, commit, k)
    ensures CommitPrice(tiers, spend, commit) == spend * tiers[k].rate
  {
  }

  /** Spend above a non-zero commitment bills the whole commitment at the
      commitment tier's rate plus the flex price of the excess alone. */
  lemma CommitWithOverflow(tiers: seq<Tier>, spend: real, commit: real, k: int)
    requires |tiers| > 0 && commit != 0.0 && spend > commit
    requires IsCommitTier(tiers, commit, k)
    ensures CommitPrice(tiers, spend, commit) == commit * tiers[k].rate + FlexPrice(tiers, spend - commit)
  {
  }

  // ---------------------------------------------------------------------------
  // Commitment-tier recommendation

  predicate InTier(t: Tier, spend: real)
  {
    (t.lower as real) <= spend && spend <= (t.upper as real)
  }

  /** The tier the recommendation starts from: the first tier whose bounds
      contain the spend, or the last tier when none does. */
  function CurrentTier(tiers: seq<Tier>, spend: real): (t: Tier)
    requires |tiers| > 0
    ensures t in tiers
    ensures InTier(t, spend) || forall j :: 0 <= j < |tiers| ==> !InTier(tiers[j], spend)
    ensures (forall j :: 0 <= j < |tiers| ==> !InTier(tiers[j], spend)) ==> t == tiers[|tiers| - 1]
    ensures forall k ::
      (0 <= k < |tiers| && InTier(tiers[k], spend) && forall j :: 0 <= j < k ==> !InTier(tiers[j], spend))
      ==> t == tiers[k]
  {
    var k := First(tiers, (u: Tier) => InTier(u, spend));
    if k < |tiers| then tiers[k] else tiers[|tiers| - 1]
  }

  /** The recommended commitment: the next tier's upper bound when a next tier
      exists and the spend is above 80% of the current tier's upper bound, the
      current tier's upper bound otherwise. The next tier is the one after the
      first entry equal to the current tier. */
  function RecommendCommitTier(tiers: seq<Tier>, spend: real): (r: int)
    requires |tiers| > 0
    ensures exists k :: 0 <= k < |tiers| && tiers[k].upper == r
  {
    var current := CurrentTier(tiers, spend);
    var index := IndexOf(tiers, current);
    if index < |tiers| - 1 && spend > (current.upper as real) * NearTopFraction
    then tiers[index + 1].upper
    else current.upper
  }

  /** When tier k is the first to contain the spend, the recommendation is tier
      k+1's upper bound exactly when tier k+1 exists and the spend is above 80%
      of tier k's upper bound, and tier k's upper bound otherwise. */
  lemma RecommendFromContainingTier(tiers: seq<Tier>, spend: real, k: int)
    requires 0 <= k < |tiers| && InTier(tiers[k], spend)
    requires forall j :: 0 <= j < k ==> !InTier(tiers[j], spend)
    ensures RecommendCommitTier(tiers, spend)
      == if k < |tiers| - 1 && spend > (tiers[k].upper as real) * NearTopFraction
         then tiers[k + 1].upper else tiers[k].upper
  {
    var found := First(tiers, (u: Tier) => InTier(u, spend));
    assert found == k;
    assert IndexOf(tiers, tiers[k]) == k;
  }

  /** A spend no tier contains (below the table, above it, or in the gap between
      two whole-dollar bounds) falls back to the last tier, whose upper bound is
      recommended when the table's entries are distinct. */
  lemma RecommendOutsideTable(tiers: seq<Tier>, spend: real)
    requires |tiers| > 0 && Contiguous(tiers) && ProperBrackets(tiers)
    requires forall j :: 0 <= j < |tiers| ==> !InTier(tiers[j], spend)
    ensures RecommendCommitTier(tiers, spend) == tiers[|tiers| - 1].upper
  {
    var last := |tiers| - 1;
    assert CurrentTier(tiers, spend) == tiers[last];
    var index := IndexOf(tiers, tiers[last]);
    assert index == last by {
      if index < last { DistinctEntries(tiers, index, last); }
    }
  }

  /** Any spend at or above the last tier's lower bound is recommended the last
      tier's upper bound. */
  lemma RecommendAtTop(tiers: seq<Tier>, spend: real)
    requires ValidTable(tiers)
    requires spend >= (tiers[|tiers| - 1].lower as real)
    ensures RecommendCommitTier(tiers, spend) == tiers[|tiers| - 1].upper
  {
    var last := |tiers| - 1;
    forall j | 0 <= j < last ensures !InTier(tiers[j], spend) {
      BoundsIncrease(tiers, j, last);
    }
    if spend <= (tiers[last].upper as real) {
      RecommendFromContainingTier(tiers, spend, last);
    } else {
      RecommendOutsideTable(tiers, spend);
    }
  }

  /** For a valid table the recommendation never exceeds the table's last upper
      bound, and is at least the upper bound of any tier containing the spend. */
  lemma RecommendBounds(tiers: seq<Tier>, spend: real)
    requires ValidTable(tiers)
    ensures RecommendCommitTier(tiers, spend) <= tiers[|tiers| - 1].upper
    ensures forall k :: 0 <= k < |tiers| && InTier(tiers[k], spend) ==>
      tiers[k].upper <= RecommendCommitTier(tiers, spend)
  {
    var r := RecommendCommitTier(tiers, spend);
    var last := |tiers| - 1;
    var k :| 0 <= k < |tiers| && tiers[k].upper == r;
    if k < last { BoundsIncrease(tiers, k, last); }
    forall k' | 0 <= k' < |tiers| && InTier(tiers[k'], spend)
      ensures tiers[k'].upper <= r
    {
      forall j | 0 <= j < k' ensures !InTier(tiers[j], spend) {
        BoundsIncrease(tiers, j, k');
      }
      RecommendFromContainingTier(tiers, spend, k');
      if k' < last { BoundsIncrease(tiers, k', k' + 1); }
    }
  }
}
