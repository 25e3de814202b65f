# Tiered cloud-spend pricing engine

A Dafny model of the pricing engine of the CloudBolt pricing calculator
(`calculatorapp.py`). A static table of 26 rate tiers covers monthly spends from $0
to $250,000,000. Three operations run over that table:

- **flex price**: walk the tiers in order. Each tier bills the smaller of the
  remaining spend and its capacity (`upper - lower`) at its own rate. The walk stops
  once nothing remains. A $2,500 minimum invoice applies to spends up to $125,000.
- **commit price**: a zero commitment is plain flex pricing. Otherwise the
  commitment's tier is the first tier whose upper bound reaches the commitment, or
  the last tier. `min(spend, commit)` is billed at that tier's rate. Any spend above
  the commitment gets a fresh flex price, restarting at tier 0.
- **commitment recommendation**: find the first tier containing the spend, or fall
  back to the last tier. Recommend the next tier's upper bound when a next tier
  exists and the spend is above 80% of the current upper bound. Otherwise recommend
  the current upper bound.

Files:

- `tiers.dfy` (module `Tiers`): the `Tier` record, the shipped table `TIERS`, the
  table invariants (contiguous, proper brackets, strictly decreasing rates) and
  facts about capacities.
- `pricing.dfy` (module `Pricing`): the engine. Flex pricing is a method
  with the source's loop and early exit, proved equal to the specification function
  `FlexPrice`. Commit pricing and the recommendation are pure functions built on one
  first-match search, `First`. It models Python's `next(generator, default)`.
  `IndexOf` models the by-value `list.index` lookup. Both take the table as a
  parameter, so the general lemmas hold for any table that satisfies their
  requirements.
- `shipped.dfy` (module `ShippedPricing`): the worked examples and the
  whole-table guarantees for the shipped table.

Modelling decisions:

- Spend and commitment are exact `real`s and rates are exact decimal `real`s. The
  source types them as floats. Its UI only produces whole dollars, which a `real`
  covers. A `real` also captures the non-integer spend that falls between one
  tier's `upper` and the next tier's `lower`.
- The source's quirks are kept as written:
  - capacity is `upper - lower`, so the table can bill at most $249,999,975;
  - negative spend is not rejected: its flex price is the $2,500 minimum and its
    recommendation is the last tier;
  - a spend in a gap between tiers is recommended the last tier's upper bound;
  - overflow beyond a commitment restarts at tier 0 and carries its own minimum
    invoice; the commit total itself has none.
- The code neither rejects negative inputs nor validates the table, and the model
  follows it: there is no error path. `ValidTable` is a fact proved about the
  shipped table, not a check the engine performs.
- Over an arbitrary table, flex pricing can drop just above $125,000, where the
  minimum invoice stops applying. For the shipped table it never decreases
  (`ShippedFlexMonotone`). The general statement (`FlexMonotone`) needs the
  accumulated total at $125,000 to reach the minimum invoice.

## Model

| member | source | states |
|---|---|---|
| `Tiers.ShippedTableIsValid` | calculatorapp.py:10-37 | the table has 26 tiers and starts at 0; each lower bound is the previous upper bound plus one; each lower bound is below its upper bound; rates strictly decrease from 0.0330 to 0.0034, all positive; the last upper bound is 250,000,000 |
| `Tiers.Capacity` | calculatorapp.py:53 | a tier's billable width is `upper - lower`, one dollar less than the whole dollars it covers when its lower bound is not 0 |
| `Tiers.BoundsIncrease` | calculatorapp.py:10-37 | in a contiguous table of proper brackets, every earlier tier's upper bound is below every later tier's lower and upper bounds |
| `Tiers.DistinctEntries` | calculatorapp.py:10-37 | the entries of such a table are pairwise distinct, so a by-value lookup finds each tier at its own index |
| `Tiers.TotalCapacityOfContiguous` | calculatorapp.py:53 | for a contiguous table, the sum of the `upper - lower` capacities is the last upper bound minus the first lower bound minus one dollar per boundary |
| `Tiers.ShippedTotalCapacity` | calculatorapp.py:49-55 | the shipped table's capacities sum to 249,999,975, which is 25 dollars short of the last upper bound |
| `Pricing.First` | calculatorapp.py:69-72 | the search stops at the first element satisfying the condition, or past the end when none does; every element before it fails the condition |
| `Pricing.IndexOf` | calculatorapp.py:96 | the result is the index of the first entry equal to the given tier, or the table length when there is none |
| `Pricing.Allocation` | calculatorapp.py:46-55 | the spend the loop bills at each tier it visits, in order: min(remaining, `upper - lower`), stopping once nothing remains or the table ends; never longer than the table |
| `Pricing.Accumulated` | calculatorapp.py:46-55 | the loop's running `total`: each allocated amount times its own tier's rate |
| `Pricing.Billed` | calculatorapp.py:49-55 | the spend the loop subtracts from `remaining` over all visited tiers |
| `Pricing.CalculateFlexPrice` | calculatorapp.py:44-61 | the loop returns `FlexPrice(tiers, spend)` for every table and spend; its invariants keep billed + remaining == spend, and remaining never negative for non-negative spend |
| `Pricing.FlexPrice` | calculatorapp.py:57-61 | spend up to 125,000 costs exactly max(total, 2,500): 2,500 when the accumulated total is below it, the total otherwise; above 125,000 it is the raw accumulated total |
| `Pricing.AccumulatedStep` | calculatorapp.py:50-55 | with spend remaining and a tier left, that tier bills min(remaining, capacity) at its own rate and passes the rest on to the following tiers |
| `Pricing.AllocationWithinCapacity` | calculatorapp.py:53-55 | each visited tier bills at most `upper - lower`, and nothing negative when that capacity is non-negative |
| `Pricing.BilledIsCappedSpend` | calculatorapp.py:49-55 | for non-negative spend and capacities, the spend billed over all tiers is exactly min(spend, total capacity) |
| `Pricing.AccumulatedSaturates` | calculatorapp.py:49-55 | spend at or beyond the total capacity accumulates the same total as the capacity itself, so the excess is never billed |
| `Pricing.AccumulatedNonNegative` | calculatorapp.py:53-55 | with non-negative capacities and rates, the accumulated total is never negative |
| `Pricing.AccumulatedMonotone` | calculatorapp.py:49-55 | with non-negative capacities and rates, a larger spend never accumulates a smaller total |
| `Pricing.FlexMonotone` | calculatorapp.py:46-61 | if the total at 125,000 reaches the minimum invoice, then a <= b implies flex(a) <= flex(b), both sides of the floor included |
| `Pricing.FlexNonPositiveSpend` | calculatorapp.py:46-59 | zero or negative spend exits the loop at once and costs exactly the 2,500 minimum |
| `Pricing.CommitTierIndex` | calculatorapp.py:69-73 | the commitment tier is the first tier whose upper bound reaches the commitment; if no tier's does, it is the last tier |
| `Pricing.CommitPrice` | calculatorapp.py:65-66 | a zero commitment gives exactly the flex price |
| `Pricing.CommitTierUnique` | calculatorapp.py:69-73 | that characterisation picks out exactly one tier |
| `Pricing.CommitWithinCommitment` | calculatorapp.py:69-85 | with a non-zero commitment and spend <= commitment, the price is spend times the commitment tier's rate: no overflow and no floor |
| `Pricing.CommitWithOverflow` | calculatorapp.py:76-85 | with spend above a non-zero commitment, the price is commitment times the tier's rate plus the flex price of the excess alone, restarting at tier 0 |
| `Pricing.InTier` | calculatorapp.py:90-91 | a spend lies in a tier when lower <= spend <= upper, both bounds inclusive |
| `Pricing.CurrentTier` | calculatorapp.py:89-93 | the current tier is the first tier containing the spend; when no tier contains it, it is the last tier |
| `Pricing.RecommendCommitTier` | calculatorapp.py:87-103 | the recommendation is always the upper bound of some tier of the table |
| `Pricing.RecommendFromContainingTier` | calculatorapp.py:95-103 | when tier k is the first to contain the spend, the result is tier k+1's upper bound exactly when that tier exists and spend > 0.8 * tier k's upper bound; otherwise it is tier k's upper bound |
| `Pricing.RecommendOutsideTable` | calculatorapp.py:89-97 | a spend no tier contains falls back to the last tier, and the last upper bound is recommended |
| `Pricing.RecommendAtTop` | calculatorapp.py:96-103 | any spend at or above the last tier's lower bound gets the last tier's upper bound |
| `Pricing.RecommendBounds` | calculatorapp.py:99-103 | for a valid table the recommendation is at most the last upper bound and at least the upper bound of any tier containing the spend |
| `ShippedPricing.FlexAt50000` | calculatorapp.py:44-59 | 50,000 accumulates 1,650, which the floor raises to 2,500 |
| `ShippedPricing.FlexAt125000` | calculatorapp.py:44-59 | 125,000 costs 4,125 |
| `ShippedPricing.FlexAt200000` | calculatorapp.py:44-61 | 200,000 costs 4,125 + 75,000 * 0.0315 = 6,487.5, with no floor |
| `ShippedPricing.ShippedFlexMonotone` | calculatorapp.py:44-61 | over the shipped table, flex pricing is non-decreasing for all spends |
| `ShippedPricing.ShippedFlexSaturates` | calculatorapp.py:49-61 | from 249,999,975 on, the flex price stays constant and the billed spend stays 249,999,975 |
| `ShippedPricing.CommitZeroAt500000` | calculatorapp.py:65-66 | commit(500,000, 0) equals flex(500,000) |
| `ShippedPricing.SecondTierIsCommitTierFor250000` | calculatorapp.py:69-72 | for a 250,000 commitment, the commitment tier is the second tier |
| `ShippedPricing.CommitHasNoFloor` | calculatorapp.py:76-85 | spend 10,000 against a 250,000 commitment costs 315, less than the minimum invoice |
| `ShippedPricing.CommitOverflowRestartsFlex` | calculatorapp.py:76-85 | spend 300,000 against a 250,000 commitment costs 7,875 + 2,500 = 10,375: the 50,000 overflow restarts at tier 0 and gets its own floor |
| `ShippedPricing.CommitAboveTable` | calculatorapp.py:69-76 | a commitment above 250,000,000 uses the last rate, 0.0034 |
| `ShippedPricing.RecommendAt110000` | calculatorapp.py:89-101 | recommend(110,000) is 250,000 |
| `ShippedPricing.RecommendAt100000` | calculatorapp.py:99-103 | recommend(100,000) is 125,000, because exactly 80% counts as not near the top |
| `ShippedPricing.RecommendInGap` | calculatorapp.py:89-97 | recommend(125,000.5) matches no tier and returns 250,000,000 |
| `ShippedPricing.RecommendNegativeSpend` | calculatorapp.py:89-97 | any negative spend returns 250,000,000 |
| `ShippedPricing.ShippedRecommendBounds` | calculatorapp.py:89-103 | spend at or above 208,333,334 returns 250,000,000; no spend ever returns more than that |

## Left out

- The Streamlit UI and process bootstrap (`main`, calculatorapp.py:129-208) and
  the `pip install` line (calculatorapp.py:1) are not modelled. They are input
  collection and display only.
- `generate_comparison_chart` (calculatorapp.py:105-127) is not modelled. It only
  builds a Plotly figure from the two prices.
- The pandas DataFrames (calculatorapp.py:42 and 193-205) are not modelled. Nothing
  in the pricing logic reads them.
- The `PricingCalculator` object is not a class in the model. It is only a holder
  of a table that is assigned once and never changed. Each operation takes the table
  as a parameter, and `TIERS` plays the shipped instance.
- Floating-point semantics are not modelled: rounding of the rates, of
  `upper * 0.8` and of the accumulated totals. The model computes exactly. Currency
  string formatting is also left out.
- Table validation and rejection of negative inputs are not modelled. The source
  performs neither; its engine methods accept any number and any list.
- `CommitPrice` requires a non-empty table only for a non-zero commitment, and
  `RecommendCommitTier` requires one always, because `self.tiers[-1]` fails on an
  empty list. A zero commitment returns the flex price before that lookup runs.
  `CalculateFlexPrice` accepts any table.
- `RecommendOutsideTable`: stated only for contiguous tables of proper brackets.
  For a table with duplicate entries, `index` can find an earlier copy of the last
  tier. `RecommendCommitTier` itself models that case as written.
- `FlexMonotone`: stated only for tables whose total at $125,000 reaches the
  minimum invoice. Without that, the floor can make flex pricing decrease just
  above $125,000.
