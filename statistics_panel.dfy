/** The two top-five selections of the statistics panel
    (packages/frontend/src/components/StatisticsPanel.tsx). Both sort a copy
    of the list, so the caller's list is untouched (it is a value here). */
module StatisticsPanel {
  import opened Types
  import opened Sorting

  /** `.slice(0, 5)`. */
  function TakeFive<T>(s: seq<T>): (r: seq<T>)
    ensures |r| == if |s| < 5 then |s| else 5
    ensures r == s[..|r|]
  {
    if |s| < 5 then s else s[..5]
  }

  /** `(a, b) => b.return1Y - a.return1Y`. */
  function ByReturnDesc(a: Fund, b: Fund): real {
    b.return1Y - a.return1Y
  }

  /** `(a, b) => a.expenseRatio - b.expenseRatio`. */
  function ByExpenseAsc(a: Fund, b: Fund): real {
    a.expenseRatio - b.expenseRatio
  }

  /** `topPerformers`: the five best 1-year returns. */
  function TopPerformers(funds: seq<Fund>): (r: seq<Fund>)
    ensures |r| == if |funds| < 5 then |funds| else 5
    ensures forall f :: f in r ==> f in funds
  {
    var s := StableSort(funds, ByReturnDesc);
    assert forall f :: f in TakeFive(s) ==> f in multiset(s);
    TakeFive(s)
  }

  /** `.filter(fund => fund.expenseRatio > 0)`. */
  function PositiveExpense(funds: seq<Fund>): (r: seq<Fund>)
    ensures |r| <= |funds|
    ensures forall f :: f in r ==> f.expenseRatio > 0.0
    ensures forall f :: multiset(r)[f] == if f.expenseRatio > 0.0 then multiset(funds)[f] else 0
    decreases |funds|
  {
    if |funds| == 0 then []
    else
      assert funds == [funds[0]] + funds[1..];
      (if funds[0].expenseRatio > 0.0 then [funds[0]] else []) + PositiveExpense(funds[1..])
  }

  /** `lowestExpense`: the five lowest positive expense ratios. */
  function LowestExpense(funds: seq<Fund>): (r: seq<Fund>)
    ensures |r| <= 5 && |r| <= |funds|
    ensures forall f :: f in r ==> f in funds && f.expenseRatio > 0.0
  {
    var p := PositiveExpense(funds);
    var s := StableSort(p, ByExpenseAsc);
    assert forall f :: f in TakeFive(s) ==> f in multiset(s) && f in multiset(p);
    PositiveExpenseSub(funds);
    assert forall f :: f in p ==> f in multiset(funds);
    TakeFive(s)
  }

  /** Taking a prefix of a sorted list: the prefix is a sub-multiset, and
      every element left out is preceded by (so ranks no better than) the
      last one kept. */
  lemma PrefixOfSorted<T>(s: seq<T>, cmp: (T, T) -> real)
    requires Sorted(s, cmp)
    ensures var t := TakeFive(s);
      && multiset(t) <= multiset(s)
      && (forall i, j :: 0 <= i < j < |t| ==> cmp(t[i], t[j]) <= 0.0)
      && (|t| > 0 ==> forall e :: e in multiset(s) - multiset(t) ==> cmp(t[|t| - 1], e) <= 0.0)
  {
    var t := TakeFive(s);
    var rest := s[|t|..];
    assert s == t + rest;
    assert multiset(s) == multiset(t) + multiset(rest);
    forall e | e in multiset(s) - multiset(t) ensures cmp(t[|t| - 1], e) <= 0.0 {
      assert e in multiset(rest);
      var k :| 0 <= k < |rest| && rest[k] == e;
      assert s[|t| + k] == e;
    }
  }

  /** `topPerformers` has min(5, n) entries, all taken from `funds`, in
      non-increasing order of 1-year return; no fund left out has a higher
      return than the last one shown. */
  lemma TopPerformersSpec(funds: seq<Fund>)
    ensures var t := TopPerformers(funds);
      && |t| == (if |funds| < 5 then |funds| else 5)
      && multiset(t) <= multiset(funds)
      && (forall i, j :: 0 <= i < j < |t| ==> t[i].return1Y >= t[j].return1Y)
      && (|t| > 0 ==> forall f :: f in multiset(funds) - multiset(t) ==> f.return1Y <= t[|t| - 1].return1Y)
  {
    var s := StableSort(funds, ByReturnDesc);
    assert Consistent(ByReturnDesc);
    StableSortSorted(funds, ByReturnDesc);
    PrefixOfSorted(s, ByReturnDesc);
  }

  /** `lowestExpense` has at most five entries, all from `funds` and all
      with a positive expense ratio, in non-decreasing order of that ratio;
      no positive-ratio fund left out has a lower ratio than the last one
      shown. */
  lemma LowestExpenseSpec(funds: seq<Fund>)
    ensures var t := LowestExpense(funds);
      && |t| <= 5
      && multiset(t) <= multiset(funds)
      && (forall f :: f in t ==> f.expenseRatio > 0.0)
      && (forall i, j :: 0 <= i < j < |t| ==> t[i].expenseRatio <= t[j].expenseRatio)
      && (|t| > 0 ==> forall f :: f in multiset(PositiveExpense(funds)) - multiset(t) ==> f.expenseRatio >= t[|t| - 1].expenseRatio)
  {
    LowestExpenseSub(funds);
    LowestExpensePositive(funds);
    LowestExpenseOrder(funds);
  }

  /** The selection is a sub-multiset of the positive-ratio funds. */
  lemma LowestExpenseSubPositive(funds: seq<Fund>)
    ensures multiset(LowestExpense(funds)) <= multiset(PositiveExpense(funds))
  {
    var p := PositiveExpense(funds);
    var s := StableSort(p, ByExpenseAsc);
    assert multiset(s) == multiset(p);
    assert s == TakeFive(s) + s[|TakeFive(s)|..];
    assert multiset(s) == multiset(TakeFive(s)) + multiset(s[|TakeFive(s)|..]);
  }

  lemma LowestExpenseSub(funds: seq<Fund>)
    ensures multiset(LowestExpense(funds)) <= multiset(funds)
  {
    LowestExpenseSubPositive(funds);
    PositiveExpenseSub(funds);
  }

  lemma LowestExpensePositive(funds: seq<Fund>)
    ensures forall f :: f in LowestExpense(funds) ==> f.expenseRatio > 0.0
  {
    var t := LowestExpense(funds);
    var p := PositiveExpense(funds);
    LowestExpenseSubPositive(funds);
    forall f | f in t ensures f.expenseRatio > 0.0 {
      assert f in multiset(t);
      assert f in multiset(p);
    }
  }

  lemma LowestExpenseOrder(funds: seq<Fund>)
    ensures var t := LowestExpense(funds);
      && (forall i, j :: 0 <= i < j < |t| ==> t[i].expenseRatio <= t[j].expenseRatio)
      && (|t| > 0 ==> forall f :: f in multiset(PositiveExpense(funds)) - multiset(t) ==> f.expenseRatio >= t[|t| - 1].expenseRatio)
  {
    var p := PositiveExpense(funds);
    var s := StableSort(p, ByExpenseAsc);
    ByExpenseAscConsistent();
    StableSortSorted(p, ByExpenseAsc);
    PrefixOfSorted(s, ByExpenseAsc);
  }

  lemma ByExpenseAscConsistent()
    ensures Consistent(ByExpenseAsc)
  {
  }

  /** The positive-ratio funds are a sub-multiset of the list. */
  lemma PositiveExpenseSub(funds: seq<Fund>)
    ensures multiset(PositiveExpense(funds)) <= multiset(funds)
  {
    forall f ensures multiset(PositiveExpense(funds))[f] <= multiset(funds)[f] { }
  }
}
