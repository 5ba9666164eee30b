/** The scoring, filtering, sorting and ranking engine of the frontend
    (packages/frontend/src/utils/rmfUtils.ts). `Math.sqrt` is the parameter
    `sqrt`, so every property below holds for any square-root function; the
    few that need `sqrt(0) == 0` say so. */
module RmfUtils {
  import opened Types
  import opened JsMath
  import opened Text
  import opened Sorting

  // ---------------------------------------------------------------------
  // Per-fund statistics
  // ---------------------------------------------------------------------

  /** `weightedAvgReturn`: the 40/35/25 blend of the 1-, 3- and 5-year
      returns. The weights sum to 1, so the blend lies between the smallest
      and the largest of the three. */
  function WeightedAvgReturn(f: Fund): (r: real)
    ensures Min(Min(f.return1Y, f.return3Y), f.return5Y) <= r <= Max(Max(f.return1Y, f.return3Y), f.return5Y)
    ensures f.return1Y == f.return3Y == f.return5Y ==> r == f.return1Y
  {
    f.return1Y * 0.4 + f.return3Y * 0.35 + f.return5Y * 0.25
  }

  /** `Math.pow(x, 2)`. */
  function Square(x: real): (r: real)
    ensures r >= 0.0
  {
    x * x
  }

  /** The mean of the three returns, reduced from 0 as the source does. */
  function Mean(f: Fund): (r: real)
    ensures Min(Min(f.return1Y, f.return3Y), f.return5Y) <= r <= Max(Max(f.return1Y, f.return3Y), f.return5Y)
  {
    ((0.0 + f.return1Y) + f.return3Y + f.return5Y) / 3.0
  }

  /** The population variance of the three returns: never negative, and zero
      when the three returns are equal. */
  function Variance(f: Fund): (r: real)
    ensures r >= 0.0
    ensures f.return1Y == f.return3Y == f.return5Y ==> r == 0.0
  {
    var m := Mean(f);
    ((0.0 + Square(f.return1Y - m)) + Square(f.return3Y - m) + Square(f.return5Y - m)) / 3.0
  }

  /** The standard deviation as the source uses it: a zero square root is
      replaced by 1 (`Math.sqrt(...) || 1`). */
  function SharpeStd(f: Fund, sqrt: real -> real): (s: real)
    ensures s != 0.0
    ensures sqrt(Variance(f)) >= 0.0 ==> s > 0.0
  {
    var s := sqrt(Variance(f));
    if s == 0.0 then 1.0 else s
  }

  /** `calcSharpe`: excess mean return over a risk-free rate of 1, per unit of
      standard deviation. Whenever the square root is non-negative the sign of
      the ratio is the sign of the excess return. */
  function CalcSharpe(f: Fund, sqrt: real -> real): (r: real)
    ensures sqrt(Variance(f)) >= 0.0 ==> (r > 0.0 <==> Mean(f) > 1.0) && (r < 0.0 <==> Mean(f) < 1.0)
  {
    var std := SharpeStd(f, sqrt);
    DivSign(Mean(f) - 1.0, std);
    (Mean(f) - 1.0) / std
  }

  lemma DivSign(a: real, b: real)
    requires b > 0.0 || b < 0.0
    ensures b > 0.0 ==> (a / b > 0.0 <==> a > 0.0) && (a / b < 0.0 <==> a < 0.0)
  {
    if b > 0.0 {
      assert a == (a / b) * b;
      if a / b > 0.0 { assert (a / b) * b > 0.0; }
      if a / b < 0.0 { assert (a / b) * b < 0.0; }
    }
  }

  /** With three equal returns the variance is zero, the standard deviation
      falls back to 1, and the ratio is the return minus the risk-free 1. */
  lemma SharpeAllEqual(f: Fund, sqrt: real -> real)
    requires sqrt(0.0) == 0.0
    requires f.return1Y == f.return3Y == f.return5Y
    ensures CalcSharpe(f, sqrt) == f.return1Y - 1.0
  {
    assert Mean(f) == f.return1Y;
    assert SharpeStd(f, sqrt) == 1.0;
  }

  /** `calcMaxDrawdown`: the largest of the three losses, i.e. the worst
      return negated. */
  function CalcMaxDrawdown(f: Fund): (r: real)
    ensures r >= -f.return1Y && r >= -f.return3Y && r >= -f.return5Y
    ensures r == -f.return1Y || r == -f.return3Y || r == -f.return5Y
  {
    Min(Min(f.return1Y, f.return3Y), f.return5Y) * -1.0
  }

  /** `normalize`: min-max scaling, 0.5 for a degenerate range. */
  function Normalize(v: real, lo: real, hi: real): (r: real)
    ensures hi == lo ==> r == 0.5
    ensures lo <= v <= hi ==> 0.0 <= r <= 1.0
    ensures lo != hi && v == lo ==> r == 0.0
    ensures lo != hi && v == hi ==> r == 1.0
  {
    if hi == lo then 0.5
    else
      UnitRatio(v - lo, hi - lo);
      (v - lo) / (hi - lo)
  }

  lemma UnitRatio(a: real, b: real)
    requires b != 0.0
    ensures 0.0 <= a <= b ==> 0.0 <= a / b <= 1.0
  {
    if 0.0 <= a <= b {
      var q := a / b;
      assert q * b == a;
    }
  }

  /** The expense penalty `Math.min(0.2, expenseRatio / 10)`: a tenth of the
      ratio, capped at 0.2 (reached from a ratio of 2 upwards). */
  function ExpensePenalty(er: real): (r: real)
    ensures r <= 0.2
    ensures er >= 2.0 ==> r == 0.2
    ensures er <= 2.0 ==> r == er / 10.0
    ensures er >= 0.0 ==> r >= 0.0
  {
    Min(0.2, er / 10.0)
  }

  // ---------------------------------------------------------------------
  // calculateValueScore
  // ---------------------------------------------------------------------

  /** The disqualification gate: all three returns negative, or a negative
      weighted average. The first half never decides anything: the gate
      closes exactly when the weighted average is negative. */
  predicate Disqualified(f: Fund)
    ensures Disqualified(f) <==> WeightedAvgReturn(f) < 0.0
  {
    (f.return1Y < 0.0 && f.return3Y < 0.0 && f.return5Y < 0.0) || WeightedAvgReturn(f) < 0.0
  }

  /** The first half of the gate is implied by the second: three negative
      returns always give a negative weighted average. */
  lemma AllNegativeIsNegativeAverage(f: Fund)
    requires f.return1Y < 0.0 && f.return3Y < 0.0 && f.return5Y < 0.0
    ensures WeightedAvgReturn(f) < 0.0
  {
  }

  /** `all.map(weightedAvgReturn)`. */
  function Pasts(all: seq<Fund>): (r: seq<real>)
    ensures |r| == |all| && forall i :: 0 <= i < |all| ==> r[i] == WeightedAvgReturn(all[i])
  {
    seq(|all|, i requires 0 <= i < |all| => WeightedAvgReturn(all[i]))
  }

  /** `all.map(calcSharpe)`. */
  function Sharpes(all: seq<Fund>, sqrt: real -> real): (r: seq<real>)
    ensures |r| == |all| && forall i :: 0 <= i < |all| ==> r[i] == CalcSharpe(all[i], sqrt)
  {
    seq(|all|, i requires 0 <= i < |all| => CalcSharpe(all[i], sqrt))
  }

  /** `all.map(calcMaxDrawdown)`. */
  function Drawdowns(all: seq<Fund>): (r: seq<real>)
    ensures |r| == |all| && forall i :: 0 <= i < |all| ==> r[i] == CalcMaxDrawdown(all[i])
  {
    seq(|all|, i requires 0 <= i < |all| => CalcMaxDrawdown(all[i]))
  }

  /** The extremes of one statistic over a comparison set. */
  datatype Range = Range(lo: real, hi: real)

  /** `Math.min(...xs)` and `Math.max(...xs)`. */
  function RangeOf(xs: seq<real>): (r: Range)
    requires |xs| > 0
    ensures forall i :: 0 <= i < |xs| ==> r.lo <= xs[i] <= r.hi
  {
    Range(MinOf(xs), MaxOf(xs))
  }

  /** Each statistic normalised against its range, the drawdown inverted
      (a smaller drawdown is better). Statistics within their ranges give
      components in [0, 1]. */
  function Components(past: real, sharpe: real, drawdown: real, p: Range, s: Range, d: Range): (n: Radar)
    ensures p.lo <= past <= p.hi && s.lo <= sharpe <= s.hi && d.lo <= drawdown <= d.hi ==>
      0.0 <= n.pastNorm <= 1.0 && 0.0 <= n.sharpeNorm <= 1.0 && 0.0 <= n.drawdownNorm <= 1.0
  {
    Radar(Normalize(past, p.lo, p.hi), Normalize(sharpe, s.lo, s.hi), 1.0 - Normalize(drawdown, d.lo, d.hi))
  }

  /** The three normalised components of `f`, each scaled against the range
      its statistic takes over the comparison set `all`. When `f` belongs to
      `all`, each component lies in [0, 1]. */
  function Norms(f: Fund, all: seq<Fund>, sqrt: real -> real): (n: Radar)
    requires |all| > 0
    ensures f in all ==> 0.0 <= n.pastNorm <= 1.0 && 0.0 <= n.sharpeNorm <= 1.0 && 0.0 <= n.drawdownNorm <= 1.0
  {
    MemberInRange(f, all, sqrt);
    Components(WeightedAvgReturn(f), CalcSharpe(f, sqrt), CalcMaxDrawdown(f),
      RangeOf(Pasts(all)), RangeOf(Sharpes(all, sqrt)), RangeOf(Drawdowns(all)))
  }

  /** A member's statistics lie within the ranges of those statistics over
      the whole set. */
  lemma MemberInRange(f: Fund, all: seq<Fund>, sqrt: real -> real)
    requires |all| > 0
    ensures f in all ==> RangeOf(Pasts(all)).lo <= WeightedAvgReturn(f) <= RangeOf(Pasts(all)).hi
    ensures f in all ==> RangeOf(Sharpes(all, sqrt)).lo <= CalcSharpe(f, sqrt) <= RangeOf(Sharpes(all, sqrt)).hi
    ensures f in all ==> RangeOf(Drawdowns(all)).lo <= CalcMaxDrawdown(f) <= RangeOf(Drawdowns(all)).hi
  {
    if f in all {
      var k :| 0 <= k < |all| && all[k] == f;
      assert Pasts(all)[k] == WeightedAvgReturn(f);
      assert Sharpes(all, sqrt)[k] == CalcSharpe(f, sqrt);
      assert Drawdowns(all)[k] == CalcMaxDrawdown(f);
    }
  }

  /** The equally weighted blend of the components, less the expense
      penalty, floored at 0; at most 1 for components in [0, 1] and a
      non-negative expense ratio. */
  function BlendScore(n: Radar, expenseRatio: real): (r: real)
    ensures r >= 0.0
    ensures 0.0 <= n.pastNorm <= 1.0 && 0.0 <= n.sharpeNorm <= 1.0 && 0.0 <= n.drawdownNorm <= 1.0 && expenseRatio >= 0.0 ==> r <= 1.0
  {
    Max(0.0, (n.pastNorm + n.sharpeNorm + n.drawdownNorm) / 3.0 - ExpensePenalty(expenseRatio))
  }

  /** The blended score of `f` against `all`. */
  function Blend(f: Fund, all: seq<Fund>, sqrt: real -> real): (r: real)
    requires |all| > 0
    ensures r >= 0.0
    ensures f in all && f.expenseRatio >= 0.0 ==> r <= 1.0
  {
    BlendScore(Norms(f, all, sqrt), f.expenseRatio)
  }

  /** `calculateValueScore(fund, allFunds)`. `allFunds` absent means the
      fund is scored against itself alone. `None` as a result stands for the
      NaN the source computes when it is handed an explicit empty list (the
      extremes of an empty spread are infinite). */
  function ValueScore(f: Fund, allFunds: Option<seq<Fund>>, sqrt: real -> real): (r: Option<real>)
    ensures Disqualified(f) ==> r == Some(0.0)
    ensures r.None? <==> !Disqualified(f) && allFunds == Some([])
    ensures r.Some? ==> r.value >= 0.0
  {
    if Disqualified(f) then Some(0.0)
    else match allFunds
      case None => Some(Blend(f, [f], sqrt))
      case Some(all) => if |all| == 0 then None else Some(Blend(f, all, sqrt))
  }

  /** Against itself alone every component is the degenerate 0.5, so a fund
      that passes the gate scores exactly 0.5 less its expense penalty, which
      is never below 0.3. */
  lemma AbsentSetScore(f: Fund, sqrt: real -> real)
    requires !Disqualified(f)
    ensures ValueScore(f, None, sqrt) == Some(0.5 - ExpensePenalty(f.expenseRatio))
    ensures ValueScore(f, None, sqrt).value >= 0.3
    ensures f.expenseRatio >= 0.0 ==> ValueScore(f, None, sqrt).value <= 0.5
  {
    var n := Norms(f, [f], sqrt);
    assert Pasts([f]) == [WeightedAvgReturn(f)];
    assert Sharpes([f], sqrt) == [CalcSharpe(f, sqrt)];
    assert Drawdowns([f]) == [CalcMaxDrawdown(f)];
    assert n == Radar(0.5, 0.5, 0.5);
  }

  /** A fund scored within a comparison set that contains it, with a
      non-negative expense ratio, scores in [0, 1]. */
  lemma InSetBounded(f: Fund, all: seq<Fund>, sqrt: real -> real)
    requires f in all && f.expenseRatio >= 0.0
    ensures ValueScore(f, Some(all), sqrt).Some?
    ensures 0.0 <= ValueScore(f, Some(all), sqrt).value <= 1.0
  {
  }

  /** A fund's statistics, gate and components depend on its returns only,
      not on its expense ratio. */
  lemma StatsIgnoreExpense(f: Fund, e: real, all: seq<Fund>, sqrt: real -> real)
    ensures var g := f.(expenseRatio := e);
      && WeightedAvgReturn(g) == WeightedAvgReturn(f)
      && CalcSharpe(g, sqrt) == CalcSharpe(f, sqrt)
      && CalcMaxDrawdown(g) == CalcMaxDrawdown(f)
      && Disqualified(g) == Disqualified(f)
      && (|all| > 0 ==> Norms(g, all, sqrt) == Norms(f, all, sqrt))
  {
    var g := f.(expenseRatio := e);
    assert g.return1Y == f.return1Y && g.return3Y == f.return3Y && g.return5Y == f.return5Y;
    assert Mean(g) == Mean(f) && Variance(g) == Variance(f);
  }

  /** Expense ratios of 2 and above all cost the full 0.2: two funds that
      differ only in such ratios get the same score, against any set. */
  lemma PenaltyCap(f: Fund, e1: real, e2: real, allFunds: Option<seq<Fund>>, sqrt: real -> real)
    requires e1 >= 2.0 && e2 >= 2.0
    ensures ValueScore(f.(expenseRatio := e1), allFunds, sqrt) == ValueScore(f.(expenseRatio := e2), allFunds, sqrt)
  {
    var f1, f2 := f.(expenseRatio := e1), f.(expenseRatio := e2);
    var all := if allFunds.Some? then allFunds.value else [];
    StatsIgnoreExpense(f, e1, all, sqrt);
    StatsIgnoreExpense(f, e2, all, sqrt);
    assert ExpensePenalty(e1) == ExpensePenalty(e2);
    if !Disqualified(f) {
      match allFunds
      case None =>
        AbsentSetScore(f1, sqrt);
        AbsentSetScore(f2, sqrt);
      case Some(_) =>
        if |all| > 0 {
          assert Blend(f1, all, sqrt) == Blend(f2, all, sqrt);
        }
    }
  }

  // ---------------------------------------------------------------------
  // getRiskScore
  // ---------------------------------------------------------------------

  /** The five Thai risk labels, from lowest to highest. */
  const ThaiRiskLabels: seq<string> := ["ต่ำ", "ต่ำถึงปานกลาง", "ปานกลาง", "ปานกลางถึงสูง", "สูง"]

  /** `getRiskScore`: a Thai label's rank in the five-level order, counted
      from 1; any other label (an English one included) is the middle 3. */
  function RiskScore(risk: string): (r: int)
    ensures 1 <= r <= 5
    ensures forall i :: 0 <= i < |ThaiRiskLabels| && ThaiRiskLabels[i] == risk ==> r == i + 1
    ensures risk !in ThaiRiskLabels ==> r == 3
  {
    if risk == "ต่ำ" then 1
    else if risk == "ต่ำถึงปานกลาง" then 2
    else if risk == "ปานกลาง" then 3
    else if risk == "ปานกลางถึงสูง" then 4
    else if risk == "สูง" then 5
    else 3
  }

  // ---------------------------------------------------------------------
  // filterFunds
  // ---------------------------------------------------------------------

  /** A string criterion constrains only when present and non-empty (a
      truthy JavaScript value). */
  predicate TextCriterion(c: Option<string>, v: string) {
    c.None? || c.value == "" || v == c.value
  }

  /** The numeric criterion constrains only when present and non-zero. */
  predicate MinCriterion(c: Option<real>, v: real) {
    c.None? || c.value == 0.0 || v >= c.value
  }

  /** The per-fund test of `filterFunds`: every truthy criterion holds. */
  predicate Matches(f: Fund, filters: FilterOption) {
    && TextCriterion(filters.category, f.category)
    && TextCriterion(filters.company, f.company)
    && TextCriterion(filters.risk, f.risk)
    && MinCriterion(filters.minInvestment, f.minInvestment)
  }

  /** `filterFunds`. */
  function FilterFunds(funds: seq<Fund>, filters: FilterOption): (r: seq<Fund>)
    ensures |r| <= |funds|
    ensures forall f :: f in r ==> f in funds && Matches(f, filters)
    decreases |funds|
  {
    if |funds| == 0 then []
    else (if Matches(funds[0], filters) then [funds[0]] else []) + FilterFunds(funds[1..], filters)
  }

  /** `a` is `b` with some elements left out, the rest in their order. */
  predicate Subsequence<T(==)>(a: seq<T>, b: seq<T>)
    decreases |b|
  {
    |a| == 0 || (|b| > 0 && ((a[0] == b[0] && Subsequence(a[1..], b[1..])) || Subsequence(a, b[1..])))
  }

  /** `filterFunds` keeps the matching funds, each as often as it occurs,
      in their original order, and drops every other fund. */
  lemma FilterFundsExact(funds: seq<Fund>, filters: FilterOption)
    ensures Subsequence(FilterFunds(funds, filters), funds)
    ensures forall f :: multiset(FilterFunds(funds, filters))[f] == if Matches(f, filters) then multiset(funds)[f] else 0
  {
    FilterFundsOrder(funds, filters);
    FilterFundsCounts(funds, filters);
  }

  lemma {:induction false} FilterFundsOrder(funds: seq<Fund>, filters: FilterOption)
    ensures Subsequence(FilterFunds(funds, filters), funds)
    decreases |funds|
  {
    if |funds| > 0 {
      FilterFundsOrder(funds[1..], filters);
      var rest := FilterFunds(funds[1..], filters);
      if Matches(funds[0], filters) {
        assert FilterFunds(funds, filters) == [funds[0]] + rest;
        assert ([funds[0]] + rest)[1..] == rest;
      } else {
        assert FilterFunds(funds, filters) == rest;
      }
    }
  }

  lemma {:induction false} FilterFundsCounts(funds: seq<Fund>, filters: FilterOption)
    ensures forall f :: multiset(FilterFunds(funds, filters))[f] == if Matches(f, filters) then multiset(funds)[f] else 0
    decreases |funds|
  {
    if |funds| > 0 {
      FilterFundsCounts(funds[1..], filters);
      var rest := FilterFunds(funds[1..], filters);
      assert funds == [funds[0]] + funds[1..];
      assert multiset(funds) == multiset{funds[0]} + multiset(funds[1..]);
      if Matches(funds[0], filters) {
        assert FilterFunds(funds, filters) == [funds[0]] + rest;
        assert multiset(FilterFunds(funds, filters)) == multiset{funds[0]} + multiset(rest);
      } else {
        assert FilterFunds(funds, filters) == rest;
      }
    }
  }

  /** A list whose every fund matches passes the filter unchanged. */
  lemma {:induction false} FilterFundsAllMatch(funds: seq<Fund>, filters: FilterOption)
    requires forall f :: f in funds ==> Matches(f, filters)
    ensures FilterFunds(funds, filters) == funds
    decreases |funds|
  {
    if |funds| > 0 {
      assert funds[0] in funds;
      FilterFundsAllMatch(funds[1..], filters);
      assert [funds[0]] + funds[1..] == funds;
    }
  }

  /** Filtering twice with the same criteria is filtering once. */
  lemma FilterFundsIdempotent(funds: seq<Fund>, filters: FilterOption)
    ensures FilterFunds(FilterFunds(funds, filters), filters) == FilterFunds(funds, filters)
  {
    FilterFundsAllMatch(FilterFunds(funds, filters), filters);
  }

  /** Two filters that accept the same funds filter every list alike. */
  lemma {:induction false} FilterFundsAgree(funds: seq<Fund>, f1: FilterOption, f2: FilterOption)
    requires forall f :: f in funds ==> (Matches(f, f1) <==> Matches(f, f2))
    ensures FilterFunds(funds, f1) == FilterFunds(funds, f2)
    decreases |funds|
  {
    if |funds| > 0 {
      assert funds[0] in funds;
      FilterFundsAgree(funds[1..], f1, f2);
    }
  }

  /** A filter whose every criterion is absent or falsy. */
  predicate NoConstraint(filters: FilterOption) {
    && (filters.category.None? || filters.category.value == "")
    && (filters.company.None? || filters.company.value == "")
    && (filters.risk.None? || filters.risk.value == "")
    && (filters.minInvestment.None? || filters.minInvestment.value == 0.0)
  }

  /** Criteria that are all absent, '' or 0 return the list unchanged; in
      particular the empty filter `{}` does. */
  lemma FilterFundsNoConstraint(funds: seq<Fund>, filters: FilterOption)
    requires NoConstraint(filters)
    ensures FilterFunds(funds, filters) == funds
  {
    FilterFundsAllMatch(funds, filters);
  }

  /** A criterion of '' or 0 imposes no constraint: it filters exactly as if
      that criterion were absent. */
  lemma FalsyCriterionIgnored(funds: seq<Fund>, filters: FilterOption)
    ensures FilterFunds(funds, filters.(category := Some(""))) == FilterFunds(funds, filters.(category := None))
    ensures FilterFunds(funds, filters.(company := Some(""))) == FilterFunds(funds, filters.(company := None))
    ensures FilterFunds(funds, filters.(risk := Some(""))) == FilterFunds(funds, filters.(risk := None))
    ensures FilterFunds(funds, filters.(minInvestment := Some(0.0))) == FilterFunds(funds, filters.(minInvestment := None))
  {
    FilterFundsAgree(funds, filters.(category := Some("")), filters.(category := None));
    FilterFundsAgree(funds, filters.(company := Some("")), filters.(company := None));
    FilterFundsAgree(funds, filters.(risk := Some("")), filters.(risk := None));
    FilterFundsAgree(funds, filters.(minInvestment := Some(0.0)), filters.(minInvestment := None));
  }

  // ---------------------------------------------------------------------
  // sortFunds
  // ---------------------------------------------------------------------

  /** The eight keys compared as numbers. */
  predicate IsNumericKey(key: SortKey) {
    !(key.Name? || key.Company? || key.Unrecognised?)
  }

  /** The number a numeric key reads from a fund (`risk` through
      `getRiskScore`). */
  function NumericKey(key: SortKey, f: Fund): real
    requires IsNumericKey(key)
  {
    match key
    case ExpenseRatio => f.expenseRatio
    case Return1Y => f.return1Y
    case Return3Y => f.return3Y
    case Return5Y => f.return5Y
    case Risk => RiskScore(f.risk) as real
    case FundSize => f.fundSize
    case ManagementFee => f.managementFee
    case MinInvestment => f.minInvestment
  }

  /** The lowered text a text key reads from a fund. */
  function TextKey(key: SortKey, f: Fund): string
    requires key.Name? || key.Company?
  {
    if key.Name? then Lower(f.name) else Lower(f.company)
  }

  /** The comparator `sortFunds` hands to `Array.prototype.sort`. A number
      at most 0 keeps `a` before `b`: for a numeric key that is `a`'s key
      being no greater (ascending) or no smaller (descending) than `b`'s; for
      a text key, `a`'s lowered text coming first (ascending) or last
      (descending); an unrecognised key ties everything. */
  function Compare(opt: SortOption, a: Fund, b: Fund): (r: real)
    ensures IsNumericKey(opt.value) && opt.direction == Asc ==> (r <= 0.0 <==> NumericKey(opt.value, a) <= NumericKey(opt.value, b))
    ensures IsNumericKey(opt.value) && opt.direction == Desc ==> (r <= 0.0 <==> NumericKey(opt.value, a) >= NumericKey(opt.value, b))
    ensures (opt.value.Name? || opt.value.Company?) && opt.direction == Asc ==> (r <= 0.0 <==> LexLe(TextKey(opt.value, a), TextKey(opt.value, b)))
    ensures (opt.value.Name? || opt.value.Company?) && opt.direction == Desc ==> (r <= 0.0 <==> LexLe(TextKey(opt.value, b), TextKey(opt.value, a)))
    ensures opt.value.Unrecognised? ==> r == 0.0
  {
    match opt.value
    case Unrecognised(_) => 0.0
    case Name | Company =>
      var x, y := TextKey(opt.value, a), TextKey(opt.value, b);
      if opt.direction == Asc then StringCompare(x, y) else StringCompare(y, x)
    case _ =>
      var x, y := NumericKey(opt.value, a), NumericKey(opt.value, b);
      if opt.direction == Asc then x - y else y - x
  }

  function FundCmp(opt: SortOption): (Fund, Fund) -> real {
    (a: Fund, b: Fund) => Compare(opt, a, b)
  }

  /** Every sort option's comparator is a total preorder, so the stable
      sort it drives is well defined. */
  lemma FundCmpConsistent(opt: SortOption)
    ensures Consistent(FundCmp(opt))
  {
    var cmp := FundCmp(opt);
    if opt.value.Name? || opt.value.Company? {
      forall a, b ensures cmp(a, b) <= 0.0 || cmp(b, a) <= 0.0 {
        LexLeTotal(TextKey(opt.value, a), TextKey(opt.value, b));
      }
      forall a, b, c | cmp(a, b) <= 0.0 && cmp(b, c) <= 0.0 ensures cmp(a, c) <= 0.0 {
        var x, y, z := TextKey(opt.value, a), TextKey(opt.value, b), TextKey(opt.value, c);
        if opt.direction == Asc { LexLeTransitive(x, y, z); } else { LexLeTransitive(z, y, x); }
      }
    }
  }

  /** `sortFunds`: sorts a fresh copy of the list (the caller's list is a
      value and stays as it was) with the comparator above. */
  method SortFunds(funds: seq<Fund>, opt: SortOption) returns (r: seq<Fund>)
    ensures r == StableSort(funds, FundCmp(opt))
    ensures multiset(r) == multiset(funds)
    ensures Sorted(r, FundCmp(opt))
  {
    var copy := new Fund[|funds|](i requires 0 <= i < |funds| => funds[i]);
    assert copy[..] == funds;
    SortInPlace(copy, FundCmp(opt));
    r := copy[..];
    FundCmpConsistent(opt);
    StableSortSorted(funds, FundCmp(opt));
  }

  /** A numeric key comes out non-decreasing for `asc` and non-increasing
      for `desc`. */
  lemma SortFundsNumericOrder(funds: seq<Fund>, opt: SortOption)
    requires IsNumericKey(opt.value)
    ensures var r := StableSort(funds, FundCmp(opt));
      forall i, j :: 0 <= i < j < |r| ==>
        if opt.direction == Asc then NumericKey(opt.value, r[i]) <= NumericKey(opt.value, r[j])
        else NumericKey(opt.value, r[i]) >= NumericKey(opt.value, r[j])
  {
    FundCmpConsistent(opt);
    StableSortSorted(funds, FundCmp(opt));
  }

  /** A text key comes out in lexicographic order of the lowered text,
      reversed for `desc`. */
  lemma SortFundsTextOrder(funds: seq<Fund>, opt: SortOption)
    requires opt.value.Name? || opt.value.Company?
    ensures var r := StableSort(funds, FundCmp(opt));
      forall i, j :: 0 <= i < j < |r| ==>
        if opt.direction == Asc then LexLe(TextKey(opt.value, r[i]), TextKey(opt.value, r[j]))
        else LexLe(TextKey(opt.value, r[j]), TextKey(opt.value, r[i]))
  {
    FundCmpConsistent(opt);
    StableSortSorted(funds, FundCmp(opt));
  }

  /** Funds whose numeric key is equal keep their input order. */
  lemma SortFundsStable(funds: seq<Fund>, opt: SortOption, k: Fund)
    requires IsNumericKey(opt.value)
    ensures TiesOf(StableSort(funds, FundCmp(opt)), FundCmp(opt), k) == TiesOf(funds, FundCmp(opt), k)
    ensures forall e :: e in TiesOf(funds, FundCmp(opt), k) ==> NumericKey(opt.value, e) == NumericKey(opt.value, k)
  {
    FundCmpConsistent(opt);
    StableSortStable(funds, FundCmp(opt), k);
  }

  /** An unrecognised key ties every pair, so the order is left as it was. */
  lemma SortFundsUnrecognised(funds: seq<Fund>, opt: SortOption)
    requires opt.value.Unrecognised?
    ensures StableSort(funds, FundCmp(opt)) == funds
  {
    SortedUnchanged(funds, FundCmp(opt));
  }

  // ---------------------------------------------------------------------
  // rankFundsByValue
  // ---------------------------------------------------------------------

  /** One `{ fund, score }` pair of `rankFundsByValue`. */
  datatype Scored = Scored(fund: Fund, score: real)

  /** Each fund paired with its score against the whole list. */
  function ScoredList(funds: seq<Fund>, sqrt: real -> real): (r: seq<Scored>)
    ensures |r| == |funds|
    ensures forall i :: 0 <= i < |funds| ==> r[i].fund == funds[i] && Some(r[i].score) == ValueScore(funds[i], Some(funds), sqrt)
  {
    seq(|funds|, i requires 0 <= i < |funds| => Scored(funds[i], ValueScore(funds[i], Some(funds), sqrt).value))
  }

  /** The comparator `(a, b) => b.score - a.score`. */
  function ByScoreDesc(a: Scored, b: Scored): real {
    b.score - a.score
  }

  function FundOf(s: Scored): Fund {
    s.fund
  }

  /** `rankFundsByValue`: the funds ordered by their score within the list,
      highest first. */
  method RankFundsByValue(funds: seq<Fund>, sqrt: real -> real) returns (r: seq<Fund>)
    ensures r == Map(StableSort(ScoredList(funds, sqrt), ByScoreDesc), FundOf)
  {
    var scored := ScoredList(funds, sqrt);
    var a := new Scored[|scored|](i requires 0 <= i < |scored| => scored[i]);
    assert a[..] == scored;
    SortInPlace(a, ByScoreDesc);
    r := Map(a[..], FundOf);
  }

  lemma ByScoreDescConsistent()
    ensures Consistent(ByScoreDesc)
  {
  }

  /** The ranking is a permutation of the input, ordered by non-increasing
      score, and each fund carries its own score. */
  lemma RankFundsByValueOrder(funds: seq<Fund>, sqrt: real -> real)
    ensures var r := Map(StableSort(ScoredList(funds, sqrt), ByScoreDesc), FundOf);
      && multiset(r) == multiset(funds)
      && forall i, j :: 0 <= i < j < |r| ==> ValueScore(r[i], Some(funds), sqrt).value >= ValueScore(r[j], Some(funds), sqrt).value
  {
    var scored := ScoredList(funds, sqrt);
    var sorted := StableSort(scored, ByScoreDesc);
    StableSortMapMultiset(scored, ByScoreDesc, FundOf);
    assert Map(scored, FundOf) == funds;
    StableSortSorted(scored, ByScoreDesc);
    forall i | 0 <= i < |sorted| ensures Some(sorted[i].score) == ValueScore(sorted[i].fund, Some(funds), sqrt) {
      assert sorted[i] in multiset(scored);
    }
  }

  /** Funds with equal scores keep their input order. */
  lemma RankFundsByValueStable(funds: seq<Fund>, sqrt: real -> real, k: Scored)
    ensures TiesOf(StableSort(ScoredList(funds, sqrt), ByScoreDesc), ByScoreDesc, k) == TiesOf(ScoredList(funds, sqrt), ByScoreDesc, k)
    ensures forall e :: e in TiesOf(ScoredList(funds, sqrt), ByScoreDesc, k) ==> e.score == k.score
  {
    StableSortStable(ScoredList(funds, sqrt), ByScoreDesc, k);
  }
}
