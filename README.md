# RMF fund analytics: a verified model of the frontend's core

This project models the computational core of a React frontend that browses
Thai retirement mutual funds (RMF). The core has four parts:

- **The data service** (`rmfService.ts`). It decides which raw JSON records
  are RMF funds. It normalises a record into a fund: fees add up to the
  expense ratio, a numeric risk level becomes one of five English labels, and
  a category is inferred from the fund name by a chain of keyword rules. It
  also derives the option lists that the filter panel offers.
- **The scoring utilities** (`rmfUtils.ts`):
  - the weighted past return, a simple Sharpe ratio and the maximum drawdown;
  - min-max normalisation;
  - the value score: the three normalised statistics blended, less an
    expense penalty capped at 0.2, with a gate that scores losing funds 0;
  - the Thai risk score;
  - filtering, sorting and ranking by value.
- **The main page** (`App.tsx`):
  - inline scoring of the shown funds (a second copy of the value score);
  - the value ranking and pagination at 30 funds per page;
  - the pager's number strip;
  - the star scale handed to the cards;
  - a state object whose setters also run the effects that React runs after
    them.
- **The card and the statistics panel** (`RMFCard.tsx`,
  `StatisticsPanel.tsx`): the 0–3 star rating, the English risk label, and
  the two top-five lists.

Numbers are Dafny `real`s. `Math.sqrt` is a parameter `sqrt: real -> real`.
`Array.prototype.sort`, which the language guarantees to be stable, is
`Sorting.StableSort`, built by insertion from the right. The sorts that work
in place (`sortFunds` on its copy, `rankFundsByValue` on its `scored` array)
run `Sorting.SortInPlace` on an `array`, which is proved to produce exactly
`StableSort`.

The page state is `App.AppState`. Each method ends in the state React settles
in after the setter and the effects it triggers:

- On mount, the filter and sort effect runs. So does the effect that, on every
  change of the sort option, switches the value ranking off. As a result the
  initial `showValueRanking = true` does not survive mounting (`Mount`).
- A successful load reruns the filter and sort effect and returns to page 1.
- A failed load sets the error message and leaves the lists alone.

Three behaviours of the code that its names and comments do not suggest:

- `calculateValueScore` against an explicit empty list gives NaN, which is
  `None` here.
- A name containing "พลังงาน" is never classed as energy, because the
  infrastructure rule, which also lists that word, comes first.
- Sorting freshly loaded funds by risk leaves their order unchanged:
  `getRiskScore` knows only the Thai labels, and every loaded fund carries an
  English one.

The modules follow the source files:

| module | file |
|---|---|
| `Types` | the records |
| `Text` | lower-casing, substring search, string order |
| `JsMath` | `Math.min`/`Math.max` |
| `Sorting` | the stable sort |
| `RmfUtils` | `rmfUtils.ts` |
| `RmfService` | `rmfService.ts` |
| `RmfCard` | `RMFCard.tsx` |
| `StatisticsPanel` | `StatisticsPanel.tsx` |
| `App` | `App.tsx` |

## Model

Source paths are relative to the repository root.

| member | source | states |
|---|---|---|
| Text.LowerChar | packages/frontend/src/utils/rmfUtils.ts:129-134 | no ASCII capital survives lowering; a character is a lower-case Latin letter afterwards exactly when it was a Latin letter before, and it is left unchanged exactly when it is not a capital |
| Text.Lower | packages/frontend/src/services/rmfService.ts:9-10 | `toLowerCase` keeps the length and leaves no ASCII capital; it changes nothing exactly when the text has no capital |
| Text.LowerIdempotent | packages/frontend/src/services/rmfService.ts:53 | lowering an already lowered text changes nothing |
| Text.ContainsLower | packages/frontend/src/services/rmfService.ts:9-11 | if a text contains a piece, the lowered text contains the lowered piece |
| Text.StringCompare | packages/frontend/src/utils/rmfUtils.ts:140-144 | the string comparison is 0 exactly for equal texts and at most 0 exactly when the first text comes first lexicographically |
| Text.StringCompareFlips | packages/frontend/src/utils/rmfUtils.ts:141-143 | swapping the operands (the `desc` branch) negates the comparison |
| Text.LexLeReflexive | packages/frontend/src/utils/rmfUtils.ts:140-144 | every text precedes itself |
| Text.LexLeTotal | packages/frontend/src/utils/rmfUtils.ts:140-144 | of any two texts, one precedes the other |
| Text.LexLeAntisymmetric | packages/frontend/src/utils/rmfUtils.ts:140-144 | two texts that precede each other are equal |
| Text.LexLeTransitive | packages/frontend/src/utils/rmfUtils.ts:140-144 | the text order is transitive |
| JsMath.Min | packages/frontend/src/utils/rmfUtils.ts:53 | `Math.min` of two numbers is one of them and no larger than either |
| JsMath.Max | packages/frontend/src/utils/rmfUtils.ts:54 | `Math.max` of two numbers is one of them and no smaller than either |
| JsMath.MinOf | packages/frontend/src/utils/rmfUtils.ts:45-47 | `Math.min(...xs)` of a non-empty list is an element and a lower bound of all of them |
| JsMath.MaxOf | packages/frontend/src/utils/rmfUtils.ts:45-47 | `Math.max(...xs)` of a non-empty list is an element and an upper bound of all of them |
| Sorting.Insert | packages/frontend/src/utils/rmfUtils.ts:91 | one insertion step adds exactly the inserted element to the multiset |
| Sorting.StableSort | packages/frontend/src/utils/rmfUtils.ts:91 | the sorted list is a permutation of the input (same length, same multiset) |
| Sorting.InsertSorted | packages/frontend/src/utils/rmfUtils.ts:91 | inserting into a sorted list under a total-preorder comparator keeps it sorted |
| Sorting.StableSortSorted | packages/frontend/src/utils/rmfUtils.ts:91 | under a total-preorder comparator the result is sorted |
| Sorting.SortedUnchanged | packages/frontend/src/utils/rmfUtils.ts:91 | an already sorted list comes back unchanged |
| Sorting.SortIdempotent | packages/frontend/src/utils/rmfUtils.ts:90-152 | sorting twice with the same comparator equals sorting once |
| Sorting.StableSortStable | packages/frontend/src/utils/rmfUtils.ts:91 | the elements tied with any key keep their input order (stability) |
| Sorting.StableSortMapMultiset | packages/frontend/src/utils/rmfUtils.ts:73-75 | projecting a sorted list gives the multiset of the projected input |
| Sorting.StableSortMap | packages/frontend/src/utils/rmfUtils.ts:73-75 | when the comparator only looks at a projection, sorting then projecting equals projecting then sorting |
| Sorting.InsertAt | packages/frontend/src/utils/rmfUtils.ts:74 | the in-place step moves element i left to the slot j just after the last element not after it, and shifts the ones between right by one; nothing else moves |
| Sorting.InsertStep | packages/frontend/src/utils/rmfUtils.ts:74 | after the in-place step on a prefix sorted so far, the prefix one longer is the stable sort of the input's prefix and the rest is untouched |
| Sorting.SortInPlace | packages/frontend/src/utils/rmfUtils.ts:74 | the array ends as the stable sort of its old contents |
| RmfUtils.WeightedAvgReturn | packages/frontend/src/utils/rmfUtils.ts:4-8 | the 40/35/25 weighted return lies between the smallest and the largest return, and equals a return shared by all three periods |
| RmfUtils.Mean | packages/frontend/src/utils/rmfUtils.ts:13 | the mean of the three returns lies between their smallest and largest value |
| RmfUtils.Variance | packages/frontend/src/utils/rmfUtils.ts:15 | the population variance is never negative, and it is 0 when the three returns are equal |
| RmfUtils.SharpeStd | packages/frontend/src/utils/rmfUtils.ts:15 | the `\|\| 1` fallback makes the divisor never 0, and positive when the square root is non-negative |
| RmfUtils.CalcSharpe | packages/frontend/src/utils/rmfUtils.ts:11-17 | the Sharpe value is positive exactly when the mean return beats the risk-free 1, and negative exactly when it falls short |
| RmfUtils.SharpeAllEqual | packages/frontend/src/utils/rmfUtils.ts:11-17 | with three equal returns the deviation falls back to 1 and the Sharpe value is that return less 1 |
| RmfUtils.CalcMaxDrawdown | packages/frontend/src/utils/rmfUtils.ts:20-22 | the drawdown is the negation of one return and at least the negation of each |
| RmfUtils.Normalize | packages/frontend/src/utils/rmfUtils.ts:25-28 | a degenerate range gives 0.5; a value inside the range maps into [0, 1], the low end to 0 and the high end to 1 |
| RmfUtils.ExpensePenalty | packages/frontend/src/utils/rmfUtils.ts:53 | the penalty is a tenth of the expense ratio up to 2 and 0.2 from there; never above 0.2, never negative for a non-negative ratio |
| RmfUtils.AllNegativeIsNegativeAverage | packages/frontend/src/utils/rmfUtils.ts:35 | three negative returns always make the weighted return negative, so the gate's first half is subsumed by its second |
| RmfUtils.Disqualified | packages/frontend/src/utils/rmfUtils.ts:35 | the gate (all three returns negative, or a negative weighted return) closes exactly when the weighted return is negative |
| RmfUtils.RangeOf | packages/frontend/src/utils/rmfUtils.ts:45-47 | the spread minimum and maximum bound every element |
| RmfUtils.Components | packages/frontend/src/utils/rmfUtils.ts:45-47 | statistics inside their ranges give radar components in [0, 1] (the drawdown component inverted) |
| RmfUtils.MemberInRange | packages/frontend/src/utils/rmfUtils.ts:39-47 | each statistic of a member of the comparison set lies within that statistic's range over the set |
| RmfUtils.Norms | packages/frontend/src/utils/rmfUtils.ts:39-47 | a member of the comparison set gets all three normalised components in [0, 1] |
| RmfUtils.BlendScore | packages/frontend/src/utils/rmfUtils.ts:50-55 | the blend less the penalty, floored at 0, is never negative, and at most 1 for unit components and a non-negative ratio |
| RmfUtils.Blend | packages/frontend/src/utils/rmfUtils.ts:45-55 | a member's blended score against its set lies in [0, 1] for a non-negative ratio |
| RmfUtils.ValueScore | packages/frontend/src/utils/rmfUtils.ts:31-56 | a fund failing the gate scores 0 against any set; the result is NaN (`None`) exactly for a passing fund scored against an explicit empty list; otherwise it is at least 0 |
| RmfUtils.AbsentSetScore | packages/frontend/src/utils/rmfUtils.ts:39-40 | scored against itself alone, a passing fund scores 0.5 less its penalty, between 0.3 and 0.5 |
| RmfUtils.InSetBounded | packages/frontend/src/utils/rmfUtils.ts:31-56 | a member of the set with a non-negative ratio scores a number in [0, 1] |
| RmfUtils.StatsIgnoreExpense | packages/frontend/src/utils/rmfUtils.ts:4-22 | the three statistics, the gate and the normalised components do not depend on the expense ratio |
| RmfUtils.PenaltyCap | packages/frontend/src/utils/rmfUtils.ts:53 | two funds that differ only in expense ratios of 2 or more get the same score against any set |
| RmfUtils.RiskScore | packages/frontend/src/utils/rmfUtils.ts:59-68 | the i-th Thai risk label scores i + 1, every other text 3, always between 1 and 5 |
| RmfUtils.FilterFunds | packages/frontend/src/utils/rmfUtils.ts:79-87 | the result keeps only funds of the input that meet every criterion |
| RmfUtils.FilterFundsOrder | packages/frontend/src/utils/rmfUtils.ts:80 | the result is a subsequence of the input (relative order kept) |
| RmfUtils.FilterFundsCounts | packages/frontend/src/utils/rmfUtils.ts:80-86 | a fund that meets the criteria keeps its multiplicity; any other fund disappears |
| RmfUtils.FilterFundsExact | packages/frontend/src/utils/rmfUtils.ts:79-87 | both of the above: a subsequence with exactly the matching funds and their multiplicities |
| RmfUtils.FilterFundsAllMatch | packages/frontend/src/utils/rmfUtils.ts:80-86 | when every fund meets the criteria the list comes back unchanged |
| RmfUtils.FilterFundsIdempotent | packages/frontend/src/utils/rmfUtils.ts:79-87 | filtering twice with the same criteria equals filtering once |
| RmfUtils.FilterFundsAgree | packages/frontend/src/utils/rmfUtils.ts:80-86 | criteria that accept the same funds of a list filter it identically |
| RmfUtils.FilterFundsNoConstraint | packages/frontend/src/utils/rmfUtils.ts:81-84 | criteria that are all absent or falsy leave the list unchanged |
| RmfUtils.FalsyCriterionIgnored | packages/frontend/src/utils/rmfUtils.ts:81-84 | an empty category, company or risk and a zero minimum investment filter exactly as an absent one |
| RmfUtils.Compare | packages/frontend/src/utils/rmfUtils.ts:91-151 | a numeric key compares by the key's order (reversed for `desc`), name and company by the lowered text's order (reversed for `desc`), an unrecognised key ties everything |
| RmfUtils.FundCmpConsistent | packages/frontend/src/utils/rmfUtils.ts:91-151 | every sort option's comparator is a total preorder, so the sort is well defined |
| RmfUtils.SortFunds | packages/frontend/src/utils/rmfUtils.ts:90-152 | the in-place sort of a copy returns the stable sort of the input: a permutation, sorted by the comparator |
| RmfUtils.SortFundsNumericOrder | packages/frontend/src/utils/rmfUtils.ts:96-127 | a numeric key comes out non-decreasing for `asc` and non-increasing for `desc` |
| RmfUtils.SortFundsTextOrder | packages/frontend/src/utils/rmfUtils.ts:128-144 | name and company come out in the lowered text's order, reversed for `desc` |
| RmfUtils.SortFundsStable | packages/frontend/src/utils/rmfUtils.ts:146-148 | funds with equal numeric keys keep their input order |
| RmfUtils.SortFundsUnrecognised | packages/frontend/src/utils/rmfUtils.ts:136-137 | an unrecognised key leaves the order unchanged |
| RmfUtils.RankFundsByValue | packages/frontend/src/utils/rmfUtils.ts:71-76 | the in-place sort of the pairs returns the funds of the stable sort by descending score |
| RmfUtils.RankFundsByValueOrder | packages/frontend/src/utils/rmfUtils.ts:71-76 | the ranking is a permutation of the input with non-increasing scores against the list |
| RmfUtils.RankFundsByValueStable | packages/frontend/src/utils/rmfUtils.ts:74 | funds with equal scores keep their input order |
| RmfService.IsRMF | packages/frontend/src/services/rmfService.ts:4-15 | the source's disjunction: tagged 'RMF' at the root or in the overview, or 'rmf' in the lowered name or symbol; a root tag always suffices, and a record without an overview is an RMF exactly when tagged at the root |
| RmfService.IsRMFByName | packages/frontend/src/services/rmfService.ts:9-13 | a name containing "rmf" in any ASCII case makes the record an RMF |
| RmfService.GetRiskText | packages/frontend/src/services/rmfService.ts:24-43 | the label is always one of the five English levels, and "Moderate" for an absent or unknown level |
| RmfService.GetRiskTextPairs | packages/frontend/src/services/rmfService.ts:31-40 | levels 2k+1 and 2k+2 map to the k-th label of the risk order |
| RmfService.FirstMatch | packages/frontend/src/services/rmfService.ts:52-164 | the index found is a matching rule and no earlier rule matches, or no rule matches at all |
| RmfService.Classify | packages/frontend/src/services/rmfService.ts:52-164 | the category is that of the first matching rule, and "อื่นๆ" when none matches |
| RmfService.ClassifyBefore | packages/frontend/src/services/rmfService.ts:52-164 | when rule i matches, the category is that of rule i or an earlier one, and rule i's own when no earlier rule matches |
| RmfService.InferCategory | packages/frontend/src/services/rmfService.ts:52-164 | the category of the first of the twenty-one rules, in source order, whose keyword occurs in the lowered name; 'อื่นๆ' when none does |
| RmfService.SetIsThaiEquity | packages/frontend/src/services/rmfService.ts:58-60 | any lowered name containing "set" (including words like "asset") is Thai equity |
| RmfService.InfrastructureMatches | packages/frontend/src/services/rmfService.ts:118 | a name containing "พลังงาน" matches the infrastructure rule |
| RmfService.EarlyCategoriesNotEnergy | packages/frontend/src/services/rmfService.ts:58-120 | none of the first thirteen rules yields the energy category |
| RmfService.EnergyNeverEnergy | packages/frontend/src/services/rmfService.ts:118-145 | a name containing "พลังงาน" is never classed as energy; it is infrastructure unless an earlier rule matches |
| RmfService.BeforeT | packages/frontend/src/services/rmfService.ts:172-174 | `split('T')[0]` is the longest prefix without a 'T', followed by a 'T' unless it is the whole text |
| RmfService.TransformFundData | packages/frontend/src/services/rmfService.ts:166-193 | the expense ratio and the total expense ratio are both the sum of the management and trustee fees (each NaN-to-0); the risk is an English label and the category is inferred from the name |
| RmfService.LoadFunds | packages/frontend/src/services/rmfService.ts:214-248 | an empty record list is the error case; otherwise the i-th loaded fund is the transform of the i-th RMF record, one per RMF record |
| RmfService.KeepRMF | packages/frontend/src/services/rmfService.ts:219 | every RMF record is kept as often as it occurs, and every other record is dropped |
| RmfService.KeepRMFOrder | packages/frontend/src/services/rmfService.ts:219 | the kept records are a subsequence of the input: their order is kept |
| RmfService.EnglishRiskScore | packages/frontend/src/utils/rmfUtils.ts:59-68 | every English risk label scores the middle 3 |
| RmfService.LoadedFundsRiskScore | packages/frontend/src/services/rmfService.ts:179 | every loaded fund carries an English label and so scores 3 |
| RmfService.LoadedFundsRiskSortIdentity | packages/frontend/src/utils/rmfUtils.ts:112-115 | sorting loaded funds by risk leaves their order unchanged |
| RmfService.Dedup | packages/frontend/src/services/rmfService.ts:260 | `[...new Set(xs)]` has no repeats and the same members |
| RmfService.RiskIndex | packages/frontend/src/services/rmfService.ts:268-270 | `riskOrder.indexOf(s)` is the label's position, or -1 exactly for a text not in the order |
| RmfService.WithoutOther | packages/frontend/src/services/rmfService.ts:261 | dropping "อื่นๆ" keeps every other member |
| RmfService.SortKeeps | packages/frontend/src/services/rmfService.ts:262-271 | sorting a repeat-free list keeps it repeat-free with the same members |
| RmfService.GetUniqueValues | packages/frontend/src/services/rmfService.ts:258-271 | every fund's company and risk label is offered, and every category other than 'อื่นๆ'; 'อื่นๆ' never is |
| RmfService.CategoriesSpec | packages/frontend/src/services/rmfService.ts:260-262 | the categories are the distinct categories of the funds other than "อื่นๆ", in text order |
| RmfService.CompaniesSpec | packages/frontend/src/services/rmfService.ts:265 | the companies are the distinct companies of the funds in text order |
| RmfService.RisksSpec | packages/frontend/src/services/rmfService.ts:268-271 | the risks are the distinct risk labels of the funds ordered by their place in the risk order |
| RmfCard.GetStarCount | packages/frontend/src/components/RMFCard.tsx:101-105 | the count is the score's share of the scale times three, clamped to [0, 3]; a zero scale makes it NaN (`None`) exactly for a zero score |
| RmfCard.RenderStars | packages/frontend/src/components/RMFCard.tsx:107-127 | the loop produces the three icons of star positions 1, 2 and 3 |
| RmfCard.CountOf | packages/frontend/src/components/RMFCard.tsx:110-125 | a count of icons of one kind is at most the number of icons |
| RmfCard.StarsShape | packages/frontend/src/components/RMFCard.tsx:107-127 | for a count in [0, 3]: the filled stars number its whole part, a half star appears exactly when it has a fraction, and filled come before half before grey |
| RmfCard.TopScoreThreeStars | packages/frontend/src/components/RMFCard.tsx:100-105 | a score equal to a positive scale shows three filled stars; a score of 0 or below, and a NaN count, show three grey ones |
| RmfCard.GetRiskLabelEn | packages/frontend/src/components/RMFCard.tsx:137-152 | each Thai risk label becomes the English label of the same level; any other text is unchanged |
| RmfCard.RiskLabelAgreesWithScore | packages/frontend/src/components/RMFCard.tsx:137-152 | a Thai label's risk score is one more than the position of its English label in the risk order |
| RmfCard.LoadedFundsLabelUnchanged | packages/frontend/src/components/RMFCard.tsx:149-150 | the card shows a loaded fund's risk label unchanged |
| StatisticsPanel.TakeFive | packages/frontend/src/components/StatisticsPanel.tsx:12 | `slice(0, 5)` is the first min(5, n) elements |
| StatisticsPanel.PositiveExpense | packages/frontend/src/components/StatisticsPanel.tsx:15 | the filter keeps exactly the funds with a positive ratio, with their multiplicities |
| StatisticsPanel.PositiveExpenseSub | packages/frontend/src/components/StatisticsPanel.tsx:15 | the positive-ratio funds are a sub-multiset of the list |
| StatisticsPanel.PrefixOfSorted | packages/frontend/src/components/StatisticsPanel.tsx:10-17 | the first five of a sorted list are a sub-multiset in order, and no element left out ranks before the last one kept |
| StatisticsPanel.TopPerformers | packages/frontend/src/components/StatisticsPanel.tsx:10-12 | min(5, n) funds, each taken from the list |
| StatisticsPanel.TopPerformersSpec | packages/frontend/src/components/StatisticsPanel.tsx:10-12 | min(5, n) funds of the list in non-increasing 1-year return; no fund left out has a higher return than the last one shown |
| StatisticsPanel.LowestExpenseSubPositive | packages/frontend/src/components/StatisticsPanel.tsx:14-17 | the lowest-expense list is a sub-multiset of the positive-ratio funds |
| StatisticsPanel.LowestExpense | packages/frontend/src/components/StatisticsPanel.tsx:14-17 | at most five funds, each taken from the list and each with a positive expense ratio |
| StatisticsPanel.LowestExpenseSub | packages/frontend/src/components/StatisticsPanel.tsx:14-17 | the lowest-expense list is a sub-multiset of the list |
| StatisticsPanel.LowestExpensePositive | packages/frontend/src/components/StatisticsPanel.tsx:15 | every fund in the lowest-expense list has a positive ratio |
| StatisticsPanel.LowestExpenseOrder | packages/frontend/src/components/StatisticsPanel.tsx:16-17 | the ratios are non-decreasing, and no positive-ratio fund left out has a lower ratio than the last one shown |
| StatisticsPanel.LowestExpenseSpec | packages/frontend/src/components/StatisticsPanel.tsx:14-17 | at most five funds of the list, all with positive ratios, in non-decreasing ratio, none of the other positive-ratio funds cheaper than the last one shown |
| App.ScoredFunds | packages/frontend/src/App.tsx:71-104 | one entry per shown fund, in order, carrying that fund |
| App.InlineStatsAgree | packages/frontend/src/App.tsx:74-82 | the page's own weighted-return, Sharpe and drawdown callbacks compute what `weightedAvgReturn`, `calcSharpe` and `calcMaxDrawdown` compute |
| App.InlineListsAgree | packages/frontend/src/App.tsx:74-82 | hence the page's three precomputed lists are the utilities' `all.map(...)` lists |
| App.LocalNormalizeAgrees | packages/frontend/src/App.tsx:86 | the page's own `normalize` arrow function is the utilities' `normalize` |
| App.ScoreOneIs | packages/frontend/src/App.tsx:87-101 | one inline callback: its radar is the normalised components on the same spreads, its score 0 behind the gate and the capped blend otherwise |
| App.ScoreOneAgrees | packages/frontend/src/App.tsx:87-103 | the inline score of one fund equals `calculateValueScore(fund, list)` and its radar the normalised components |
| App.ScoredFundsAgree | packages/frontend/src/App.tsx:70-104 | every inline score equals `calculateValueScore(fund, filteredFunds)`; every radar component lies in [0, 1]; every score is at least 0 (at most 1 for a non-negative ratio) |
| App.ValueRankedOrder | packages/frontend/src/App.tsx:107-109 | the value ranking is a permutation of the scored funds with non-increasing scores |
| App.ScoredListIsProjection | packages/frontend/src/App.tsx:70-104 | dropping the radar from the scored funds gives `rankFundsByValue`'s score pairs |
| App.ValueRankedFunds | packages/frontend/src/App.tsx:107-109 | the value ranking is a permutation of the scored funds |
| App.ValueRankingIsRankFundsByValue | packages/frontend/src/App.tsx:107-109 | the page's value ranking lists the funds in exactly the order `rankFundsByValue` returns for the same list |
| App.TotalPages | packages/frontend/src/App.tsx:115 | `Math.ceil(n / 30)`: the least number of pages of 30 that hold n funds; 0 exactly for no funds |
| App.SliceIndex | packages/frontend/src/App.tsx:120 | a `slice` index clamps into the list and is kept when already in it |
| App.JsSlice | packages/frontend/src/App.tsx:120 | `slice(start, end)` is never longer than the list and holds only its elements; for `0 <= start <= end` it is the run from `start` to `end` cut off at the end of the list, at most `end - start` long |
| App.PagedFundsSpec | packages/frontend/src/App.tsx:115-121 | a page holds at most 30 entries; pages 1 to the last hold the entries from their offset and are non-empty; page 0 and pages past the last are empty |
| App.PagedFunds | packages/frontend/src/App.tsx:117-121 | a page holds at most 30 entries, each taken from the list paged |
| App.FirstPagesPrefix | packages/frontend/src/App.tsx:116-120 | the first k pages together are the first 30k entries |
| App.PagesCover | packages/frontend/src/App.tsx:115-121 | all pages together are exactly the list |
| App.AllPagesShape | packages/frontend/src/App.tsx:153-156 | up to five pages: the strip is 1 to the last page |
| App.LeftWindowShape | packages/frontend/src/App.tsx:158-163 | near the start: 1 to 4, a gap, the last page |
| App.RightWindowShape | packages/frontend/src/App.tsx:164-169 | near the end: 1, a gap, the last four pages |
| App.MiddleWindowShape | packages/frontend/src/App.tsx:170-177 | in the middle: 1, a gap, the current page with its neighbours, a gap, the last page |
| App.GetPageNumbers | packages/frontend/src/App.tsx:149-182 | the strip is 1 to t for up to five pages; otherwise 6 or 7 entries from page 1 to page t that show a valid current page (and its neighbours in the middle window), with consecutive numbers and a gap marker only where pages are skipped |
| App.MaxValueScore | packages/frontend/src/App.tsx:185 | 1 for no shown funds; otherwise the largest single-fund score, attained by some fund |
| App.MaxValueScoreRange | packages/frontend/src/App.tsx:185 | with non-negative ratios that maximum is 0 or lies in [0.3, 0.5], and in [0.3, 0.5] once a shown fund passes the gate |
| App.StarScaleSaturates | packages/frontend/src/App.tsx:185 | as written: three flat funds whose in-list scores are 1 and 0.5 both show three full stars, because the scale is 0.5 |
| App.MaxShownScore | packages/frontend/src/components/RMFCard.tsx:100-103 | the corrected scale: 1 for no cards, otherwise the best score among the cards, attained by one of them |
| App.StarOnScale | packages/frontend/src/components/RMFCard.tsx:101-105 | a score between 0 and a positive scale gets three times its share of the scale |
| App.StarsOrdered | packages/frontend/src/components/RMFCard.tsx:101-105 | on a positive scale, a higher score in range gets strictly more stars |
| App.ScaleProportional | packages/frontend/src/components/RMFCard.tsx:100-105 | on the corrected scale the best card gets three full stars, every card its proportional share, and a higher score more stars |
| App.ShownScaleProportional | packages/frontend/src/App.tsx:70-104 | the same for the page's scored funds |
| App.PageOf | packages/frontend/src/App.tsx:118-121 | a page of the ranking or of the shown order holds at most 30 entries |
| App.PageStarsOnScale | packages/frontend/src/App.tsx:118-121 | every entry of a page, in either order, scores between 0 and the best shown score |
| App.StarCounts | packages/frontend/src/components/RMFCard.tsx:101-105 | on a positive scale above every score, each card's count is three times its share of the scale |
| App.Shown | packages/frontend/src/App.tsx:51-59 | the shown list is a permutation of the filtered funds |
| App.ShownSpec | packages/frontend/src/App.tsx:50-62 | the shown list holds exactly the funds passing the filters, with their multiplicities, sorted by the option |
| App.AppState.constructor | packages/frontend/src/App.tsx:10-25 | the initial state: no funds, loading, no error, no filters, the default sort, value ranking on, page 1 |
| App.AppState.Refresh | packages/frontend/src/App.tsx:51-63 | the filter and sort effect: the shown list is the sorted filtered funds, page 1, nothing else changes |
| App.AppState.Mount | packages/frontend/src/App.tsx:50-68 | after mounting, the shown list is consistent, the value ranking is off and the page is 1 |
| App.AppState.LoadSucceeded | packages/frontend/src/App.tsx:31-63 | a successful load stores the funds, clears the error and loading, and reruns the filter and sort effect |
| App.AppState.LoadFailed | packages/frontend/src/App.tsx:39-44 | a failed load sets the error text and clears loading; lists and page are unchanged |
| App.AppState.SetFilters | packages/frontend/src/App.tsx:50-63 | new filters re-derive the shown list and return to page 1 |
| App.AppState.SetSortOption | packages/frontend/src/App.tsx:50-68 | a new sort option re-derives the shown list, returns to page 1 and switches the value ranking off |
| App.AppState.SetShowValueRanking | packages/frontend/src/App.tsx:21 | the toggle changes only the ranking flag |
| App.AppState.PageEntries | packages/frontend/src/App.tsx:118-121 | the current page holds at most 30 entries |
| App.AppState.PageStars | packages/frontend/src/App.tsx:418-427 | the current page's star counts on the corrected scale are each card's share of the best shown score times three |
| App.AppState.GoToPage | packages/frontend/src/App.tsx:124-126 | any requested page number becomes the current page; nothing else changes |
| App.AppState.GoToPreviousPage | packages/frontend/src/App.tsx:129-131 | `max(prev - 1, 1)`: one page back, never below 1 |
| App.AppState.GoToNextPage | packages/frontend/src/App.tsx:134-136 | `min(prev + 1, totalPages)`: one page on, never past the last |
| App.AppState.GoToFirstPage | packages/frontend/src/App.tsx:139-141 | page 1 |
| App.AppState.GoToLastPage | packages/frontend/src/App.tsx:144-146 | the last page (0 for an empty list) |

## Findings

| source | as written | input that shows it | evidently intended | confidence | as-written member | corrected member |
|---|---|---|---|---|---|---|
| packages/frontend/src/App.tsx:185 | the star scale handed to every card is the best `calculateValueScore(f)` *without* a comparison list (at most 0.5), while each card's score is taken against the whole shown list (up to 1), so every card scoring at least that scale shows three full stars | three fee-free funds with flat returns of 10, 5 and 7.5 (any other fields): the first and the last score 1 and 0.5 against the list, the scale is 0.5, and both cards show three full stars | the card comment says the top-ranked fund gets three full stars, which means scaling by the best in-list score; then stars are proportional to score and a higher score shows more stars | medium, not executed | App.StarScaleSaturates | App.ShownScaleProportional |

The page model's `App.AppState.PageStars` uses the corrected scale
(`App.MaxShownScore`). `App.MaxValueScore` is kept as written.

## Left out

- `Math.sqrt` is a parameter. Only the flat-return lemmas assume `sqrt(0) == 0`.
- Floating point is not modelled: numbers are exact reals. Rounding, infinities and NaN are absent, except for the two NaN cases modelled as `None` (`calculateValueScore` on an explicit empty list, and `getStarCount` of 0 on a 0 scale).
- RmfUtils.Variance: states that equal returns give 0, not the converse.
- Case folding is ASCII-only (`toLowerCase` folds all of Unicode). Thai has no case, so only Latin letters matter.
- `localeCompare` and the default `.sort()` are both modelled as lexicographic order on code points. The locale's collation is not modelled.
- Characters above U+FFFF: JavaScript's default `.sort()` compares UTF-16 code units, so a character above U+FFFF sorts before U+E000–U+FFFF there but after them here; lone surrogates cannot be represented.
- `loadRMFData`'s I/O is not modelled: the fetch, the response status check, JSON parsing, the `Array.isArray` check and the console logging. `LoadFunds` takes the record list as input; its `None` is the thrown error for an empty list.
- `Math.random()` ids and today's date in `transformFundData` are parameters.
- `riskMap[riskLevel]` and `riskMap[risk]` read inherited object keys such as "constructor", which are not modelled. Such a key would return a function rather than the default.
- `getUniqueValues`' `categoryStats` is only logged, so it is left out.
- Formatting helpers and colour lookups are presentation only and left out: `formatNumber`, `formatPercentage`, `formatCurrency`, `formatFundSize`, `getRiskColor`, `getReturnColor`.
- `getReturnIcon` and all JSX rendering are left out, as are the filter panel component, the graph comparison toggle and the charts.
- The `filtering` flag and its 350 ms timer are left out.
- Between `setFilteredFunds(data)` and the filter and sort effect, React renders once with the unsorted data. The model shows only the settled state.
- A filter key that is present but `undefined` is modelled as absent. The filtered list is the same either way.
- A raw record's `overviewInfo`, `performanceInfo` and `feeInfo` that are present but not objects are modelled as absent. So are string fields that are not strings.
- On the corrected star scale, a shown list whose every score is 0 still yields NaN star counts. The source does the same when its own scale is 0.
