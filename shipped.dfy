/** Facts about the engine running over the shipped table: the worked pricing
    scenarios, the whole-table guarantees and the edge cases the code exhibits. */
module ShippedPricing {
  import opened Tiers
  import opened Pricing

  /** $50,000 accumulates $1,650 in the first tier, which the minimum invoice
      raises to $2,500. */
  lemma FlexAt50000()
    ensures Accumulated(TIERS, 50_000.0) == 1650.0
    ensures FlexPrice(TIERS, 50_000.0) == 2500.0
  {
  }

  /** $125,000 fills the first tier exactly: $4,125, above the minimum. */
  lemma FlexAt125000()
    ensures FlexPrice(TIERS, 125_000.0) == 4125.0
  {
  }

  /** $200,000 bills $125,000 at 3.30% and $75,000 at 3.15%, with no floor. */
  lemma FlexAt200000()
    ensures FlexPrice(TIERS, 200_000.0) == 6487.5
  {
    AccumulatedStep(TIERS, 200_000.0);
    AccumulatedStep(TIERS[1..], 75_000.0);
  }

  /** Over the shipped table flex pricing is non-decreasing in spend everywhere,
      the minimum invoice included. */
  lemma ShippedFlexMonotone(a: real, b: real)
    requires a <= b
    ensures FlexPrice(TIERS, a) <= FlexPrice(TIERS, b)
  {
    ShippedTableIsValid();
    ValidTableIsNonNegative(TIERS);
    FlexAt125000();
    FlexMonotone(TIERS, a, b);
  }

  /** The flex price stops growing at $249,999,975, below the table's last upper
      bound, because each tier after the first bills one dollar less than it covers. */
  lemma ShippedFlexSaturates(spend: real)
    requires spend >= 249_999_975.0
    ensures FlexPrice(TIERS, spend) == FlexPrice(TIERS, 249_999_975.0)
    ensures Billed(TIERS, spend) == 249_999_975.0
  {
    ShippedTableIsValid();
    ValidTableIsNonNegative(TIERS);
    ShippedTotalCapacity();
    AccumulatedSaturates(TIERS, spend);
    BilledIsCappedSpend(TIERS, spend);
  }

  /** A zero commitment prices $500,000 exactly as flex does. */
  lemma CommitZeroAt500000()
    ensures CommitPrice(TIERS, 500_000.0, 0.0) == FlexPrice(TIERS, 500_000.0)
  {
  }

  lemma SecondTierIsCommitTierFor250000()
    ensures IsCommitTier(TIERS, 250_000.0, 1)
  {
  }

  /** Spending $10,000 against a $250,000 commitment bills $10,000 at 3.15%:
      $315, with no minimum invoice at the commit level. */
  lemma CommitHasNoFloor()
    ensures CommitPrice(TIERS, 10_000.0, 250_000.0) == 315.0
    ensures CommitPrice(TIERS, 10_000.0, 250_000.0) < MinimumInvoice
  {
    SecondTierIsCommitTierFor250000();
    CommitWithinCommitment(TIERS, 10_000.0, 250_000.0, 1);
  }

  /** Spending $300,000 against a $250,000 commitment bills the commitment at
      3.15% ($7,875) and prices the $50,000 overflow afresh from tier 0, so the
      overflow gets its own minimum invoice ($2,500). */
  lemma CommitOverflowRestartsFlex()
    ensures CommitPrice(TIERS, 300_000.0, 250_000.0) == 10_375.0
  {
    SecondTierIsCommitTierFor250000();
    CommitWithOverflow(TIERS, 300_000.0, 250_000.0, 1);
    FlexAt50000();
  }

  /** A commitment above the table's last upper bound takes the last tier's rate. */
  lemma CommitAboveTable(spend: real, commit: real)
    requires commit > 250_000_000.0 && spend <= commit
    ensures CommitPrice(TIERS, spend, commit) == spend * 0.0034
  {
    ShippedTableIsValid();
    forall j | 0 <= j < |TIERS| ensures (TIERS[j].upper as real) < commit {
      if j < 25 { BoundsIncrease(TIERS, j, 25); }
    }
    CommitWithinCommitment(TIERS, spend, commit, 25);
  }

  /** $110,000 lies in the first tier and above 80% of its $125,000 upper bound,
      so the second tier's upper bound is recommended. */
  lemma RecommendAt110000()
    ensures RecommendCommitTier(TIERS, 110_000.0) == 250_000
  {
    RecommendFromContainingTier(TIERS, 110_000.0, 0);
  }

  /** $100,000 is exactly 80% of the first tier's upper bound, not above it, so
      the first tier's upper bound is recommended. */
  lemma RecommendAt100000()
    ensures RecommendCommitTier(TIERS, 100_000.0) == 125_000
  {
    RecommendFromContainingTier(TIERS, 100_000.0, 0);
  }

  /** A non-integer spend between one tier's upper bound and the next tier's
      lower bound matches no tier and falls back to the last one. */
  lemma RecommendInGap()
    ensures RecommendCommitTier(TIERS, 125_000.5) == 250_000_000
  {
    ShippedTableIsValid();
    forall j | 0 <= j < |TIERS| ensures !InTier(TIERS[j], 125_000.5) {
      if j > 1 { BoundsIncrease(TIERS, 1, j); }
    }
    RecommendOutsideTable(TIERS, 125_000.5);
  }

  /** Negative spend is not rejected: it matches no tier and falls back to the
      last one. */
  lemma RecommendNegativeSpend(spend: real)
    requires spend < 0.0
    ensures RecommendCommitTier(TIERS, spend) == 250_000_000
  {
    ShippedTableIsValid();
    forall j | 0 <= j < |TIERS| ensures !InTier(TIERS[j], spend) {
      if j > 0 { BoundsIncrease(TIERS, 0, j); }
    }
    RecommendOutsideTable(TIERS, spend);
  }

  /** Spend in or beyond the last tier is recommended $250,000,000, and no spend
      is ever recommended more than that. */
  lemma ShippedRecommendBounds(spend: real)
    ensures spend >= 208_333_334.0 ==> RecommendCommitTier(TIERS, spend) == 250_000_000
    ensures RecommendCommitTier(TIERS, spend) <= 250_000_000
  {
    ShippedTableIsValid();
    RecommendBounds(TIERS, spend);
    if spend >= 208_333_334.0 {
      RecommendAtTop(TIERS, spend);
    }
  }
}
