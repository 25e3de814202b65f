/** The rate-tier table of the pricing calculator: an ordered, immutable list of
    brackets, each billing the spend inside [lower, upper] at a per-dollar rate. */
module Tiers {

  /** One pricing bracket. Bounds are whole dollars; the rate is an exact fraction
      (the source stores it as a float). */
  datatype Tier = Tier(lower: int, upper: int, rate: real)

  /** The shipped table: 26 brackets from $0 to $250,000,000. */
  const TIERS: seq<Tier> := [
    Tier(0, 125_000, 0.0330),
    Tier(125_001, 250_000, 0.0315),
    Tier(250_001, 416_667, 0.0297),
    Tier(416_668, 833_333, 0.0264),
    Tier(833_334, 1_666_667, 0.0231),
    Tier(1_666_668, 2_500_000, 0.0215),
    Tier(2_500_001, 3_333_333, 0.0198),
    Tier(3_333_334, 4_166_667, 0.0182),
    Tier(4_166_668, 6_250_000, 0.0165),
    Tier(6_250_001, 8_333_333, 0.0132),
    Tier(8_333_334, 12_500_000, 0.0116),
    Tier(12_500_001, 16_666_667, 0.0107),
    Tier(16_666_668, 20_833_333, 0.0100),
    Tier(20_833_334, 25_000_000, 0.0095),
    Tier(25_000_001, 29_166_667, 0.0091),
    Tier(29_166_668, 33_333_333, 0.0088),
    Tier(33_333_334, 41_666_667, 0.0084),
    Tier(41_666_668, 62_500_000, 0.0069),
    Tier(62_500_001, 83_333_333, 0.0062),
    Tier(83_333_334, 104_166_667, 0.0054),
    Tier(104_166_668, 125_000_000, 0.0050),
    Tier(125_000_001, 145_833_333, 0.0046),
    Tier(145_833_334, 166_666_667, 0.0043),
    Tier(166_666_668, 187_500_000, 0.0040),
    Tier(187_500_001, 208_333_333, 0.0038),
    Tier(208_333_334, 250_000_000, 0.0034)
  ]

  /** The dollar width the flex accumulation bills at a tier's rate: upper - lower,
      so every tier whose lower bound is not 0 bills one dollar less than the
      number of whole dollars it covers. */
  function Capacity(t: Tier): real
  {
    (t.upper - t.lower) as real
  }

  /** The sum of all tier capacities: the most spend the flex loop can ever bill. */
  function TotalCapacity(tiers: seq<Tier>): real
  {
    if |tiers| == 0 then 0.0 else Capacity(tiers[0]) + TotalCapacity(tiers[1..])
  }

  /** Every adjacent pair leaves neither a gap nor an overlap of whole dollars. */
  predicate Contiguous(tiers: seq<Tier>)
  {
    forall i :: 0 <= i < |tiers| - 1 ==> tiers[i + 1].lower == tiers[i].upper + 1
  }

  /** Every bracket covers at least two whole dollars. */
  predicate ProperBrackets(tiers: seq<Tier>)
  {
    forall i :: 0 <= i < |tiers| ==> tiers[i].lower < tiers[i].upper
  }

  /** Volume discount: each tier's rate is strictly below the previous one's. */
  predicate StrictlyDecreasingRates(tiers: seq<Tier>)
  {
    forall i :: 0 <= i < |tiers| - 1 ==> tiers[i + 1].rate < tiers[i].rate
  }

  predicate PositiveRates(tiers: seq<Tier>)
  {
    forall i :: 0 <= i < |tiers| ==> tiers[i].rate > 0.0
  }

  /** The invariants a well-formed table has: non-empty, starting at 0, contiguous,
      ascending, with strictly decreasing positive rates. The source never checks
      them; they are facts about the shipped table. */
  predicate ValidTable(tiers: seq<Tier>)
  {
    |tiers| > 0 && tiers[0].lower == 0 && Contiguous(tiers) && ProperBrackets(tiers)
    && StrictlyDecreasingRates(tiers) && PositiveRates(tiers)
  }

  predicate NonNegativeCapacities(tiers: seq<Tier>)
  {
    forall i :: 0 <= i < |tiers| ==> Capacity(tiers[i]) >= 0.0
  }

  predicate NonNegativeRates(tiers: seq<Tier>)
  {
    forall i :: 0 <= i < |tiers| ==> tiers[i].rate >= 0.0
  }

  /** The shipped table has 26 entries and every structural invariant; its rates
      run from 0.0330 down to 0.0034 and its last upper bound is $250,000,000. */
  lemma ShippedTableIsValid()
    ensures |TIERS| == 26
    ensures ValidTable(TIERS)
    ensures TIERS[0].lower == 0 && TIERS[0].rate == 0.0330
    ensures TIERS[25].rate == 0.0034 && TIERS[25].upper == 250_000_000
  {
    ShippedTableContiguous();
    ShippedTableProper();
    ShippedRatesDecrease();
    ShippedRatesPositive();
  }

  lemma ShippedTableContiguous() ensures Contiguous(TIERS) {}
  lemma ShippedTableProper() ensures ProperBrackets(TIERS) {}
  lemma ShippedRatesDecrease() ensures StrictlyDecreasingRates(TIERS) {}
  lemma ShippedRatesPositive() ensures PositiveRates(TIERS) {}

  /** A valid table can be billed at by the flex loop without negative widths
      or negative rates. */
  lemma ValidTableIsNonNegative(tiers: seq<Tier>)
    requires ValidTable(tiers)
    ensures NonNegativeCapacities(tiers) && NonNegativeRates(tiers)
  {
  }

  /** In a contiguous table of proper brackets, both bounds strictly increase
      with the index. */
  lemma {:induction false} BoundsIncrease(tiers: seq<Tier>, i: int, j: int)
    requires Contiguous(tiers) && ProperBrackets(tiers)
    requires 0 <= i < j < |tiers|
    ensures tiers[i].upper < tiers[j].lower && tiers[i].upper < tiers[j].upper
    ensures tiers[i].lower < tiers[j].lower
  {
    if i < j - 1 {
      BoundsIncrease(tiers, i, j - 1);
      assert tiers[j].lower == tiers[j - 1].upper + 1;
    } else {
      assert tiers[j].lower == tiers[i].upper + 1;
    }
  }

  /** The entries of a contiguous table of proper brackets are pairwise distinct. */
  lemma DistinctEntries(tiers: seq<Tier>, i: int, j: int)
    requires Contiguous(tiers) && ProperBrackets(tiers)
    requires 0 <= i < |tiers| && 0 <= j < |tiers| && i != j
    ensures tiers[i] != tiers[j]
  {
    if i < j { BoundsIncrease(tiers, i, j); } else { BoundsIncrease(tiers, j, i); }
  }

  lemma {:induction false} TotalCapacityNonNegative(tiers: seq<Tier>)
    requires NonNegativeCapacities(tiers)
    ensures TotalCapacity(tiers) >= 0.0
  {
    if |tiers| > 0 {
      assert Capacity(tiers[0]) >= 0.0;
      TotalCapacityNonNegative(tiers[1..]);
    }
  }

  /** In a contiguous table the capacities telescope: the total is the span from
      the first lower bound to the last upper bound, less one dollar per boundary. */
  lemma {:induction false} TotalCapacityOfContiguous(tiers: seq<Tier>)
    requires |tiers| > 0 && Contiguous(tiers)
    ensures TotalCapacity(tiers) == (tiers[|tiers| - 1].upper - tiers[0].lower - (|tiers| - 1)) as real
  {
    if |tiers| > 1 {
      var rest := tiers[1..];
      assert Contiguous(rest) by {
        forall i | 0 <= i < |rest| - 1 ensures rest[i + 1].lower == rest[i].upper + 1 {
          assert rest[i] == tiers[i + 1] && rest[i + 1] == tiers[i + 2];
        }
      }
      TotalCapacityOfContiguous(rest);
      assert tiers[1].lower == tiers[0].upper + 1;
    }
  }

  /** The shipped table can bill at most $249,999,975: the last $25 of its range
      are never billed. */
  lemma ShippedTotalCapacity()
    ensures TotalCapacity(TIERS) == 249_999_975.0
  {
    ShippedTableIsValid();
    TotalCapacityOfContiguous(TIERS);
  }
}
