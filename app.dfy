/** The computations of the main page (packages/frontend/src/App.tsx): the
    memoised scoring of the shown funds, the value ranking, pagination, and
    the page state that the filter and sort controls update. */
module App {
  import opened Types
  import opened JsMath
  import opened Sorting
  import opened RmfUtils
  import RmfCard

  // ---------------------------------------------------------------------
  // scoredFunds
  // ---------------------------------------------------------------------

  /** One entry of `scoredFunds`. */
  datatype ScoredFund = ScoredFund(fund: Fund, valueScore: real, radar: Radar)

  /** The page's own statistics callbacks, written out again in the page
      rather than taken from the utilities: the weighted past return, ... */
  function InlinePast(f: Fund): real {
    f.return1Y * 0.4 + f.return3Y * 0.35 + f.return5Y * 0.25
  }

  /** ... the Sharpe ratio's mean, reduced from 0, ... */
  function InlineMean(f: Fund): real {
    ((0.0 + f.return1Y) + f.return3Y + f.return5Y) / 3.0
  }

  /** ... its sum of `Math.pow(r - mean, 2)`, reduced from 0, ... */
  function InlineSumSq(f: Fund): real {
    var mean := InlineMean(f);
    (0.0 + (f.return1Y - mean) * (f.return1Y - mean))
      + (f.return3Y - mean) * (f.return3Y - mean)
      + (f.return5Y - mean) * (f.return5Y - mean)
  }

  /** ... the ratio itself, with the `|| 1` fallback, ... */
  function InlineSharpe(f: Fund, sqrt: real -> real): real {
    var root := sqrt(InlineSumSq(f) / 3.0);
    var std := if root == 0.0 then 1.0 else root;
    (InlineMean(f) - 1.0) / std
  }

  /** ... and the drawdown `Math.min(r1, r3, r5) * -1`. */
  function InlineDrawdown(f: Fund): real {
    Min(Min(f.return1Y, f.return3Y), f.return5Y) * -1.0
  }

  function InlinePasts(fs: seq<Fund>): (r: seq<real>)
    ensures |r| == |fs| && forall i :: 0 <= i < |fs| ==> r[i] == InlinePast(fs[i])
  {
    seq(|fs|, i requires 0 <= i < |fs| => InlinePast(fs[i]))
  }

  function InlineSharpes(fs: seq<Fund>, sqrt: real -> real): (r: seq<real>)
    ensures |r| == |fs| && forall i :: 0 <= i < |fs| ==> r[i] == InlineSharpe(fs[i], sqrt)
  {
    seq(|fs|, i requires 0 <= i < |fs| => InlineSharpe(fs[i], sqrt))
  }

  function InlineDrawdowns(fs: seq<Fund>): (r: seq<real>)
    ensures |r| == |fs| && forall i :: 0 <= i < |fs| ==> r[i] == InlineDrawdown(fs[i])
  {
    seq(|fs|, i requires 0 <= i < |fs| => InlineDrawdown(fs[i]))
  }

  /** The page's own `normalize` arrow function. */
  function LocalNormalize(v: real, lo: real, hi: real): real {
    if hi == lo then 0.5 else (v - lo) / (hi - lo)
  }

  /** The body of the `filteredFunds.map((fund, idx) => ...)` callback,
      given the fund's precomputed statistics and the spreads
      `Math.min(...xs)`/`Math.max(...xs)` of the three lists: the radar is
      computed for every fund, the value score is 0 for one that fails the
      gate. */
  function ScoreOne(fund: Fund, past: real, sharpe: real, drawdown: real, p: Range, s: Range, d: Range): ScoredFund {
    var pastNorm := LocalNormalize(past, p.lo, p.hi);
    var sharpeNorm := LocalNormalize(sharpe, s.lo, s.hi);
    var drawdownNorm := 1.0 - LocalNormalize(drawdown, d.lo, d.hi);
    var radar := Radar(pastNorm, sharpeNorm, drawdownNorm);
    if (fund.return1Y < 0.0 && fund.return3Y < 0.0 && fund.return5Y < 0.0) || past < 0.0 then
      ScoredFund(fund, 0.0, radar)
    else
      var score := (pastNorm + sharpeNorm + drawdownNorm) / 3.0;
      var expensePenalty := Min(0.2, fund.expenseRatio / 10.0);
      ScoredFund(fund, Max(0.0, score - expensePenalty), radar)
  }

  /** `Math.min(...xs)` and `Math.max(...xs)` of one precomputed list. */
  function Spread(xs: seq<real>): Range
    requires |xs| > 0
  {
    Range(MinOf(xs), MaxOf(xs))
  }

  /** The callback applied at every index. */
  function ScoreAll(fs: seq<Fund>, pasts: seq<real>, sharpes: seq<real>, drawdowns: seq<real>): (r: seq<ScoredFund>)
    requires |fs| > 0 && |pasts| == |sharpes| == |drawdowns| == |fs|
    ensures |r| == |fs|
    ensures forall i :: 0 <= i < |fs| ==>
      r[i] == ScoreOne(fs[i], pasts[i], sharpes[i], drawdowns[i], Spread(pasts), Spread(sharpes), Spread(drawdowns))
  {
    var p, s, d := Spread(pasts), Spread(sharpes), Spread(drawdowns);
    seq(|fs|, i requires 0 <= i < |fs| => ScoreOne(fs[i], pasts[i], sharpes[i], drawdowns[i], p, s, d))
  }

  /** `scoredFunds`: the three statistics are computed once for the whole
      list, then every fund is normalised against their extremes. */
  function ScoredFunds(fs: seq<Fund>, sqrt: real -> real): (r: seq<ScoredFund>)
    ensures |r| == |fs| && forall i :: 0 <= i < |fs| ==> r[i].fund == fs[i]
  {
    if |fs| == 0 then []
    else ScoreAll(fs, InlinePasts(fs), InlineSharpes(fs, sqrt), InlineDrawdowns(fs))
  }

  /** The page's statistics callbacks compute what the utilities'
      `weightedAvgReturn`, `calcSharpe` and `calcMaxDrawdown` compute. */
  lemma InlineStatsAgree(f: Fund, sqrt: real -> real)
    ensures InlinePast(f) == WeightedAvgReturn(f)
    ensures InlineSharpe(f, sqrt) == CalcSharpe(f, sqrt)
    ensures InlineDrawdown(f) == CalcMaxDrawdown(f)
  {
    assert Variance(f) == InlineSumSq(f) / 3.0;
  }

  /** Hence the page's three precomputed lists are the utilities' lists. */
  lemma InlineListsAgree(fs: seq<Fund>, sqrt: real -> real)
    ensures InlinePasts(fs) == Pasts(fs)
    ensures InlineSharpes(fs, sqrt) == Sharpes(fs, sqrt)
    ensures InlineDrawdowns(fs) == Drawdowns(fs)
  {
    forall i | 0 <= i < |fs|
      ensures InlinePasts(fs)[i] == Pasts(fs)[i]
      ensures InlineSharpes(fs, sqrt)[i] == Sharpes(fs, sqrt)[i]
      ensures InlineDrawdowns(fs)[i] == Drawdowns(fs)[i]
    {
      InlineStatsAgree(fs[i], sqrt);
    }
  }

  /** The page's `normalize` is the utilities' `normalize`. */
  lemma LocalNormalizeAgrees(v: real, lo: real, hi: real)
    ensures LocalNormalize(v, lo, hi) == Normalize(v, lo, hi)
  {
  }

  /** One inline callback, in the utilities' terms: its radar is their
      components on the same spreads, and its score is 0 behind the gate and
      their blend otherwise. */
  lemma ScoreOneIs(fund: Fund, past: real, sharpe: real, drawdown: real, p: Range, s: Range, d: Range)
    ensures var r := ScoreOne(fund, past, sharpe, drawdown, p, s, d);
      && r.radar == Components(past, sharpe, drawdown, p, s, d)
      && r.valueScore == if (fund.return1Y < 0.0 && fund.return3Y < 0.0 && fund.return5Y < 0.0) || past < 0.0
        then 0.0 else BlendScore(r.radar, fund.expenseRatio)
  {
    LocalNormalizeAgrees(past, p.lo, p.hi);
    LocalNormalizeAgrees(sharpe, s.lo, s.hi);
    LocalNormalizeAgrees(drawdown, d.lo, d.hi);
  }

  /** One fund of the list, scored inline, against its
      `calculateValueScore(fund, list)`: the page's copy of the scoring
      agrees with the utilities', radar included. */
  lemma ScoreOneAgrees(f: Fund, all: seq<Fund>, sqrt: real -> real)
    requires |all| > 0 && f in all
    ensures var r := ScoreOne(f, InlinePast(f), InlineSharpe(f, sqrt), InlineDrawdown(f),
      Spread(InlinePasts(all)), Spread(InlineSharpes(all, sqrt)), Spread(InlineDrawdowns(all)));
      r.radar == Norms(f, all, sqrt) && Some(r.valueScore) == ValueScore(f, Some(all), sqrt)
  {
    InlineStatsAgree(f, sqrt);
    InlineListsAgree(all, sqrt);
    var p, s, d := RangeOf(Pasts(all)), RangeOf(Sharpes(all, sqrt)), RangeOf(Drawdowns(all));
    assert Spread(InlinePasts(all)) == p && Spread(InlineSharpes(all, sqrt)) == s && Spread(InlineDrawdowns(all)) == d;
    ScoreOneIs(f, WeightedAvgReturn(f), CalcSharpe(f, sqrt), CalcMaxDrawdown(f), p, s, d);
  }

  /** The inline scoring agrees with `calculateValueScore(fund,
      filteredFunds)` and its radar with that function's components; hence
      every radar component lies in [0, 1] and every score is at least 0
      (and at most 1 for a non-negative expense ratio). */
  lemma ScoredFundsAgree(fs: seq<Fund>, sqrt: real -> real)
    ensures var r := ScoredFunds(fs, sqrt);
      forall i :: 0 <= i < |fs| ==>
        && Some(r[i].valueScore) == ValueScore(fs[i], Some(fs), sqrt)
        && r[i].radar == Norms(fs[i], fs, sqrt)
        && 0.0 <= r[i].radar.pastNorm <= 1.0 && 0.0 <= r[i].radar.sharpeNorm <= 1.0 && 0.0 <= r[i].radar.drawdownNorm <= 1.0
        && r[i].valueScore >= 0.0
        && (fs[i].expenseRatio >= 0.0 ==> r[i].valueScore <= 1.0)
  {
    if |fs| > 0 {
      var r := ScoredFunds(fs, sqrt);
      var pasts, sharpes, drawdowns := InlinePasts(fs), InlineSharpes(fs, sqrt), InlineDrawdowns(fs);
      forall i | 0 <= i < |fs|
        ensures Some(r[i].valueScore) == ValueScore(fs[i], Some(fs), sqrt) && r[i].radar == Norms(fs[i], fs, sqrt)
      {
        assert pasts[i] == InlinePast(fs[i]);
        assert sharpes[i] == InlineSharpe(fs[i], sqrt);
        assert drawdowns[i] == InlineDrawdown(fs[i]);
        ScoreOneAgrees(fs[i], fs, sqrt);
      }
      forall i | 0 <= i < |fs| ensures fs[i].expenseRatio >= 0.0 ==> r[i].valueScore <= 1.0 {
        if fs[i].expenseRatio >= 0.0 {
          InSetBounded(fs[i], fs, sqrt);
        }
      }
    }
  }

  // ---------------------------------------------------------------------
  // valueRankedFunds
  // ---------------------------------------------------------------------

  /** The comparator `(a, b) => b.valueScore - a.valueScore`. */
  function ByValueDesc(a: ScoredFund, b: ScoredFund): real {
    b.valueScore - a.valueScore
  }

  /** `valueRankedFunds`: the scored funds, highest score first. */
  function ValueRankedFunds(scored: seq<ScoredFund>): (r: seq<ScoredFund>)
    ensures multiset(r) == multiset(scored)
  {
    StableSort(scored, ByValueDesc)
  }

  /** The ranking is a permutation of the scored funds in non-increasing
      order of score. */
  lemma ValueRankedOrder(scored: seq<ScoredFund>)
    ensures var v := ValueRankedFunds(scored);
      && multiset(v) == multiset(scored)
      && forall i, j :: 0 <= i < j < |v| ==> v[i].valueScore >= v[j].valueScore
  {
    assert Consistent(ByValueDesc);
    StableSortSorted(scored, ByValueDesc);
  }

  function AsScored(s: ScoredFund): Scored {
    Scored(s.fund, s.valueScore)
  }

  /** The page's value ranking lists the funds in exactly the order
      `rankFundsByValue` returns for the same list. */
  lemma ValueRankingIsRankFundsByValue(fs: seq<Fund>, sqrt: real -> real)
    ensures var v := ValueRankedFunds(ScoredFunds(fs, sqrt));
      var ranked := Map(StableSort(ScoredList(fs, sqrt), ByScoreDesc), FundOf);
      |v| == |ranked| && forall i :: 0 <= i < |v| ==> v[i].fund == ranked[i]
  {
    var sf := ScoredFunds(fs, sqrt);
    ScoredListIsProjection(fs, sqrt);
    StableSortMap(sf, ByValueDesc, AsScored, ByScoreDesc);
    var v := ValueRankedFunds(sf);
    var ranked := Map(StableSort(ScoredList(fs, sqrt), ByScoreDesc), FundOf);
    forall i | 0 <= i < |v| ensures v[i].fund == ranked[i] {
      assert AsScored(v[i]) == Map(v, AsScored)[i];
    }
  }

  /** Dropping the radar from the scored funds gives `rankFundsByValue`'s
      `{ fund, score }` list. */
  lemma ScoredListIsProjection(fs: seq<Fund>, sqrt: real -> real)
    ensures Map(ScoredFunds(fs, sqrt), AsScored) == ScoredList(fs, sqrt)
  {
    ScoredFundsAgree(fs, sqrt);
    var l, r := Map(ScoredFunds(fs, sqrt), AsScored), ScoredList(fs, sqrt);
    forall i | 0 <= i < |fs| ensures l[i] == r[i] {
    }
  }

  // ---------------------------------------------------------------------
  // Pagination
  // ---------------------------------------------------------------------

  const FundsPerPage: nat := 30

  /** `Math.ceil(filteredFunds.length / fundsPerPage)`. */
  function TotalPages(n: nat): (t: nat)
    ensures t * FundsPerPage >= n
    ensures t == 0 || (t - 1) * FundsPerPage < n
    ensures t == 0 <==> n == 0
  {
    (n + FundsPerPage - 1) / FundsPerPage
  }

  /** A `slice` index: a negative one counts from the end; both are clamped to
      the list. */
  function SliceIndex(i: int, len: nat): (r: nat)
    ensures r <= len
    ensures 0 <= i <= len ==> r == i
  {
    if i < 0 then (if len + i < 0 then 0 else len + i)
    else if i > len then len
    else i
  }

  /** `Array.prototype.slice(start, end)`: never longer than `s` and made
      of its elements; for indices `0 <= start <= end` it is the run from
      `start` to `end`, cut off at the end of the list. */
  function JsSlice<T>(s: seq<T>, start: int, end: int): (r: seq<T>)
    ensures |r| <= |s|
    ensures forall x :: x in r ==> x in s
    ensures 0 <= start <= end ==> r == s[NatMin(start, |s|)..NatMin(end, |s|)]
    ensures 0 <= start <= end ==> |r| <= end - start
  {
    var a, b := SliceIndex(start, |s|), SliceIndex(end, |s|);
    if a < b then s[a..b] else []
  }

  /** `pagedFunds` of a list for a page number. */
  function PagedFunds<T>(arr: seq<T>, page: int): (r: seq<T>)
    ensures |r| <= FundsPerPage
    ensures forall x :: x in r ==> x in arr
  {
    JsSlice(arr, (page - 1) * FundsPerPage, page * FundsPerPage)
  }

  function NatMin(a: nat, b: nat): nat {
    if a <= b then a else b
  }

  /** A page holds at most 30 entries; a page from 1 to the last holds the
      30 entries starting at its offset (fewer on the last page, and at
      least one); a positive page beyond the last, and page 0, are empty. */
  lemma PagedFundsSpec<T>(arr: seq<T>, page: int)
    ensures |PagedFunds(arr, page)| <= FundsPerPage
    ensures 1 <= page <= TotalPages(|arr|) ==>
      && PagedFunds(arr, page) == arr[(page - 1) * FundsPerPage .. NatMin(page * FundsPerPage, |arr|)]
      && |PagedFunds(arr, page)| > 0
    ensures page == 0 || page > TotalPages(|arr|) ==> PagedFunds(arr, page) == []
  {
  }

  /** The first k pages, concatenated. */
  function FirstPages<T>(arr: seq<T>, k: nat): seq<T> {
    if k == 0 then [] else FirstPages(arr, k - 1) + PagedFunds(arr, k)
  }

  /** Pages 1 to k list the first 30 k entries in order, without gap or
      overlap. */
  lemma {:induction false} FirstPagesPrefix<T>(arr: seq<T>, k: nat)
    ensures FirstPages(arr, k) == arr[..NatMin(k * FundsPerPage, |arr|)]
  {
    if k > 0 {
      FirstPagesPrefix(arr, k - 1);
      var lo, hi := NatMin((k - 1) * FundsPerPage, |arr|), NatMin(k * FundsPerPage, |arr|);
      assert arr[..hi] == arr[..lo] + arr[lo..hi];
    }
  }

  /** The pages up to the last list every entry exactly once, in order. */
  lemma PagesCover<T>(arr: seq<T>)
    ensures FirstPages(arr, TotalPages(|arr|)) == arr
  {
    FirstPagesPrefix(arr, TotalPages(|arr|));
  }

  /** An entry of the pager: a page number or the `'...'` marker. */
  datatype PageItem = Num(n: int) | Ellipsis

  /** What the pager shows for page `c` of `t`: every page when there are
      at most five; otherwise six or seven entries from page 1 to page `t`
      that include the current page (and its neighbours when it is away
      from both ends). Adjacent numbers are consecutive pages, and a `'...'`
      always stands between two numbers with pages missing between them. */
  predicate PagerShape(pages: seq<PageItem>, c: int, t: nat) {
    && (t <= 5 ==> |pages| == t && forall i :: 0 <= i < |pages| ==> pages[i] == Num(i + 1))
    && (t > 5 ==> 6 <= |pages| <= 7 && pages[0] == Num(1) && pages[|pages| - 1] == Num(t))
    && (1 <= c <= t ==> Num(c) in pages)
    && (3 < c < t - 2 ==> Num(c - 1) in pages && Num(c + 1) in pages)
    && (forall i :: 0 <= i < |pages| && pages[i].Num? ==> 1 <= pages[i].n <= t)
    && (forall i :: 0 <= i < |pages| - 1 && pages[i].Num? && pages[i + 1].Num? ==> pages[i + 1].n == pages[i].n + 1)
    && (forall i :: 0 <= i < |pages| && pages[i] == Ellipsis ==>
         0 < i < |pages| - 1 && pages[i - 1].Num? && pages[i + 1].Num? && pages[i + 1].n > pages[i - 1].n + 1)
  }

  lemma AllPagesShape(pages: seq<PageItem>, c: int, t: nat)
    requires t <= 5 && |pages| == t && forall i :: 0 <= i < |pages| ==> pages[i] == Num(i + 1)
    ensures PagerShape(pages, c, t)
  {
    if 1 <= c <= t {
      assert pages[c - 1] == Num(c);
    }
  }

  lemma LeftWindowShape(c: int, t: nat)
    requires t > 5 && c <= 3
    ensures PagerShape([Num(1), Num(2), Num(3), Num(4), Ellipsis, Num(t)], c, t)
  {
    var pages := [Num(1), Num(2), Num(3), Num(4), Ellipsis, Num(t)];
    if 1 <= c {
      assert pages[c - 1] == Num(c);
    }
    forall i | 0 <= i < |pages| && pages[i] == Ellipsis
      ensures 0 < i < |pages| - 1 && pages[i - 1].Num? && pages[i + 1].Num? && pages[i + 1].n > pages[i - 1].n + 1
    {
      assert i == 4;
    }
  }

  lemma RightWindowShape(c: int, t: nat)
    requires t > 5 && 3 < c && c >= t - 2
    ensures PagerShape([Num(1), Ellipsis, Num(t - 3), Num(t - 2), Num(t - 1), Num(t)], c, t)
  {
    var pages := [Num(1), Ellipsis, Num(t - 3), Num(t - 2), Num(t - 1), Num(t)];
    if c <= t {
      assert pages[c - t + 5] == Num(c);
    }
  }

  lemma MiddleWindowShape(c: int, t: nat)
    requires t > 5 && 3 < c < t - 2
    ensures PagerShape([Num(1), Ellipsis, Num(c - 1), Num(c), Num(c + 1), Ellipsis, Num(t)], c, t)
  {
    var pages := [Num(1), Ellipsis, Num(c - 1), Num(c), Num(c + 1), Ellipsis, Num(t)];
    assert pages[2] == Num(c - 1) && pages[3] == Num(c) && pages[4] == Num(c + 1);
  }

  /** `getPageNumbers`: all pages when there are at most five, otherwise
      the first and the last page, a window around the current page and
      `'...'` markers for the pages left out. */
  method GetPageNumbers(currentPage: int, totalPages: nat) returns (pages: seq<PageItem>)
    ensures PagerShape(pages, currentPage, totalPages)
  {
    pages := [];
    if totalPages <= 5 {
      for i := 1 to totalPages + 1
        invariant |pages| == i - 1
        invariant forall k :: 0 <= k < |pages| ==> pages[k] == Num(k + 1)
      {
        pages := pages + [Num(i)];
      }
      AllPagesShape(pages, currentPage, totalPages);
    } else if currentPage <= 3 {
      for i := 1 to 5
        invariant |pages| == i - 1
        invariant forall k :: 0 <= k < |pages| ==> pages[k] == Num(k + 1)
      {
        pages := pages + [Num(i)];
      }
      pages := pages + [Ellipsis, Num(totalPages)];
      assert pages == [Num(1), Num(2), Num(3), Num(4), Ellipsis, Num(totalPages)];
      LeftWindowShape(currentPage, totalPages);
    } else if currentPage >= totalPages - 2 {
      pages := [Num(1), Ellipsis];
      for i := totalPages - 3 to totalPages + 1
        invariant |pages| == 2 + (i - (totalPages - 3))
        invariant pages[0] == Num(1) && pages[1] == Ellipsis
        invariant forall k :: 2 <= k < |pages| ==> pages[k] == Num(totalPages - 3 + k - 2)
      {
        pages := pages + [Num(i)];
      }
      assert pages == [Num(1), Ellipsis, Num(totalPages - 3), Num(totalPages - 2), Num(totalPages - 1), Num(totalPages)];
      RightWindowShape(currentPage, totalPages);
    } else {
      pages := [Num(1), Ellipsis];
      for i := currentPage - 1 to currentPage + 2
        invariant |pages| == 2 + (i - (currentPage - 1))
        invariant pages[0] == Num(1) && pages[1] == Ellipsis
        invariant forall k :: 2 <= k < |pages| ==> pages[k] == Num(currentPage - 1 + k - 2)
      {
        pages := pages + [Num(i)];
      }
      pages := pages + [Ellipsis, Num(totalPages)];
      assert pages == [Num(1), Ellipsis, Num(currentPage - 1), Num(currentPage), Num(currentPage + 1), Ellipsis, Num(totalPages)];
      MiddleWindowShape(currentPage, totalPages);
    }
  }

  // ---------------------------------------------------------------------
  // maxValueScore
  // ---------------------------------------------------------------------

  /** Each fund's `calculateValueScore(f)`, that is, scored against itself
      alone. */
  function AbsentSetScores(fs: seq<Fund>, sqrt: real -> real): (r: seq<real>)
    ensures |r| == |fs| && forall i :: 0 <= i < |fs| ==> Some(r[i]) == ValueScore(fs[i], None, sqrt)
  {
    seq(|fs|, i requires 0 <= i < |fs| => ValueScore(fs[i], None, sqrt).value)
  }

  /** `maxValueScore`: the largest score of a shown fund against itself
      alone, or 1 when nothing is shown. */
  function MaxValueScore(fs: seq<Fund>, sqrt: real -> real): (m: real)
    ensures |fs| == 0 ==> m == 1.0
    ensures |fs| > 0 ==> exists i :: 0 <= i < |fs| && Some(m) == ValueScore(fs[i], None, sqrt)
    ensures forall i :: 0 <= i < |fs| ==> ValueScore(fs[i], None, sqrt).value <= m
  {
    if |fs| == 0 then 1.0
    else
      var scores := AbsentSetScores(fs, sqrt);
      var m := MaxOf(scores);
      var k :| 0 <= k < |scores| && scores[k] == m;
      assert Some(m) == ValueScore(fs[k], None, sqrt);
      m
  }

  /** Scored alone, a fund with a non-negative expense ratio scores 0 (it
      fails the gate) or between 0.3 and 0.5; so does the maximum, and it is
      never 0 once some shown fund passes the gate. */
  lemma MaxValueScoreRange(fs: seq<Fund>, sqrt: real -> real)
    requires |fs| > 0 && forall i :: 0 <= i < |fs| ==> fs[i].expenseRatio >= 0.0
    ensures var m := MaxValueScore(fs, sqrt); m == 0.0 || 0.3 <= m <= 0.5
    ensures (exists i :: 0 <= i < |fs| && !Disqualified(fs[i])) ==> 0.3 <= MaxValueScore(fs, sqrt) <= 0.5
  {
    var m := MaxValueScore(fs, sqrt);
    var k :| 0 <= k < |fs| && Some(m) == ValueScore(fs[k], None, sqrt);
    if !Disqualified(fs[k]) {
      AbsentSetScore(fs[k], sqrt);
    }
    if i :| 0 <= i < |fs| && !Disqualified(fs[i]) {
      AbsentSetScore(fs[i], sqrt);
      assert ValueScore(fs[i], None, sqrt).value <= m;
    }
  }

  // ---------------------------------------------------------------------
  // The star scale of the cards
  // ---------------------------------------------------------------------

  /** A fund whose three returns all equal `r`, with no expense ratio. */
  function Flat(base: Fund, r: real): Fund {
    base.(return1Y := r, return3Y := r, return5Y := r, expenseRatio := 0.0)
  }

  lemma FlatStats(base: Fund, r: real, sqrt: real -> real)
    requires sqrt(0.0) == 0.0
    ensures WeightedAvgReturn(Flat(base, r)) == r
    ensures CalcSharpe(Flat(base, r), sqrt) == r - 1.0
    ensures CalcMaxDrawdown(Flat(base, r)) == -r
  {
    SharpeAllEqual(Flat(base, r), sqrt);
  }

  /** The three flat funds of the example below. */
  function FlatSet(base: Fund): seq<Fund> {
    [Flat(base, 10.0), Flat(base, 5.0), Flat(base, 7.5)]
  }

  lemma FlatSetRanges(base: Fund, sqrt: real -> real)
    requires sqrt(0.0) == 0.0
    ensures RangeOf(Pasts(FlatSet(base))) == Range(5.0, 10.0)
    ensures RangeOf(Sharpes(FlatSet(base), sqrt)) == Range(4.0, 9.0)
    ensures RangeOf(Drawdowns(FlatSet(base))) == Range(-10.0, -5.0)
  {
    var fs := FlatSet(base);
    FlatStats(base, 10.0, sqrt);
    FlatStats(base, 5.0, sqrt);
    FlatStats(base, 7.5, sqrt);
    assert Pasts(fs) == [10.0, 5.0, 7.5];
    assert Sharpes(fs, sqrt) == [9.0, 4.0, 6.5];
    assert Drawdowns(fs) == [-10.0, -5.0, -7.5];
    assert [10.0, 5.0, 7.5][1..] == [5.0, 7.5] && [5.0, 7.5][1..] == [7.5];
    assert [9.0, 4.0, 6.5][1..] == [4.0, 6.5] && [4.0, 6.5][1..] == [6.5];
    assert [-10.0, -5.0, -7.5][1..] == [-5.0, -7.5] && [-5.0, -7.5][1..] == [-7.5];
  }

  lemma FlatSetRadars(p: Range, s: Range, d: Range)
    requires p == Range(5.0, 10.0) && s == Range(4.0, 9.0) && d == Range(-10.0, -5.0)
    ensures Components(10.0, 9.0, -10.0, p, s, d) == Radar(1.0, 1.0, 1.0)
    ensures Components(7.5, 6.5, -7.5, p, s, d) == Radar(0.5, 0.5, 0.5)
  {
  }

  /** Within the list, the best flat fund scores 1 and the middle one 0.5. */
  lemma FlatSetScores(base: Fund, sqrt: real -> real)
    requires sqrt(0.0) == 0.0
    ensures ValueScore(FlatSet(base)[0], Some(FlatSet(base)), sqrt) == Some(1.0)
    ensures ValueScore(FlatSet(base)[2], Some(FlatSet(base)), sqrt) == Some(0.5)
  {
    var fs := FlatSet(base);
    FlatSetRanges(base, sqrt);
    FlatStats(base, 10.0, sqrt);
    FlatStats(base, 7.5, sqrt);
    FlatSetRadars(RangeOf(Pasts(fs)), RangeOf(Sharpes(fs, sqrt)), RangeOf(Drawdowns(fs)));
    assert Norms(fs[0], fs, sqrt) == Radar(1.0, 1.0, 1.0);
    assert Norms(fs[2], fs, sqrt) == Radar(0.5, 0.5, 0.5);
  }

  /** Each flat fund scores 0.5 against itself alone, so that is the scale. */
  lemma FlatSetMax(base: Fund, sqrt: real -> real)
    ensures MaxValueScore(FlatSet(base), sqrt) == 0.5
  {
    var fs := FlatSet(base);
    AbsentSetScore(fs[0], sqrt);
    AbsentSetScore(fs[1], sqrt);
    AbsentSetScore(fs[2], sqrt);
    assert forall i :: 0 <= i < 3 ==> ValueScore(fs[i], None, sqrt) == Some(0.5);
    var k :| 0 <= k < |fs| && Some(MaxValueScore(fs, sqrt)) == ValueScore(fs[k], None, sqrt);
  }

  /** As written, the cards are scaled by `maxValueScore`, the best score of
      a shown fund against itself alone, while each card shows the score
      taken against the whole shown list. For three fee-free funds with flat
      returns of 10, 5 and 7.5, the first and the last score 1 and 0.5
      within the list, the scale is 0.5, and both cards show three full
      stars. */
  lemma StarScaleSaturates(base: Fund, sqrt: real -> real)
    requires sqrt(0.0) == 0.0
    ensures var fs := FlatSet(base);
      && ValueScore(fs[0], Some(fs), sqrt) == Some(1.0)
      && ValueScore(fs[2], Some(fs), sqrt) == Some(0.5)
      && MaxValueScore(fs, sqrt) == 0.5
      && RmfCard.GetStarCount(1.0, MaxValueScore(fs, sqrt)) == Some(3.0)
      && RmfCard.GetStarCount(0.5, MaxValueScore(fs, sqrt)) == Some(3.0)
  {
    FlatSetScores(base, sqrt);
    FlatSetMax(base, sqrt);
  }

  /** The scores the cards show, in list order. */
  function ShownScores(scored: seq<ScoredFund>): (r: seq<real>)
    ensures |r| == |scored| && forall i :: 0 <= i < |scored| ==> r[i] == scored[i].valueScore
  {
    seq(|scored|, i requires 0 <= i < |scored| => scored[i].valueScore)
  }

  /** The scale the star rating is evidently meant to have: the best score
      among the cards themselves (1 for an empty list, as in the source). */
  function MaxShownScore(scored: seq<ScoredFund>): (m: real)
    ensures |scored| == 0 ==> m == 1.0
    ensures |scored| > 0 ==> exists i :: 0 <= i < |scored| && m == scored[i].valueScore
    ensures forall i :: 0 <= i < |scored| ==> scored[i].valueScore <= m
  {
    if |scored| == 0 then 1.0
    else
      var scores := ShownScores(scored);
      var m := MaxOf(scores);
      var k :| 0 <= k < |scores| && scores[k] == m;
      m
  }

  /** A score between 0 and a positive scale gets its share of three stars. */
  lemma StarOnScale(score: real, m: real)
    requires 0.0 <= score <= m && m > 0.0
    ensures RmfCard.GetStarCount(score, m).Some?
    ensures RmfCard.GetStarCount(score, m).value * m == 3.0 * score
  {
  }

  /** ... and a higher score more stars. */
  lemma StarsOrdered(a: real, b: real, m: real)
    requires 0.0 <= a < b <= m && m > 0.0
    ensures RmfCard.GetStarCount(a, m).value < RmfCard.GetStarCount(b, m).value
  {
    StarOnScale(a, m);
    StarOnScale(b, m);
    var ca, cb := RmfCard.GetStarCount(a, m).value, RmfCard.GetStarCount(b, m).value;
    assert ca * m < cb * m;
  }

  lemma ScoredNonNegative(fs: seq<Fund>, sqrt: real -> real)
    ensures forall i :: 0 <= i < |ScoredFunds(fs, sqrt)| ==> ScoredFunds(fs, sqrt)[i].valueScore >= 0.0
  {
    ScoredFundsAgree(fs, sqrt);
  }

  /** For cards scored at least 0, on the scale of their best score (when
      that is above 0): the best card gets three full stars, every card its
      proportional share, and a higher score more stars. */
  lemma ScaleProportional(entries: seq<ScoredFund>)
    requires forall i :: 0 <= i < |entries| ==> entries[i].valueScore >= 0.0
    ensures var m := MaxShownScore(entries);
      |entries| > 0 && m > 0.0 ==>
        && (exists i :: 0 <= i < |entries| && RmfCard.GetStarCount(entries[i].valueScore, m) == Some(3.0))
        && (forall i :: 0 <= i < |entries| ==>
              RmfCard.GetStarCount(entries[i].valueScore, m).Some? &&
              RmfCard.GetStarCount(entries[i].valueScore, m).value * m == 3.0 * entries[i].valueScore)
        && (forall i, j :: 0 <= i < |entries| && 0 <= j < |entries| && entries[i].valueScore < entries[j].valueScore ==>
              RmfCard.GetStarCount(entries[i].valueScore, m).value < RmfCard.GetStarCount(entries[j].valueScore, m).value)
  {
    var m := MaxShownScore(entries);
    if |entries| > 0 && m > 0.0 {
      ScaleTop(entries);
      ScaleShares(entries, m);
      ScaleOrdered(entries, m);
    }
  }

  lemma ScaleTop(entries: seq<ScoredFund>)
    requires |entries| > 0 && MaxShownScore(entries) > 0.0
    ensures exists i :: 0 <= i < |entries| && RmfCard.GetStarCount(entries[i].valueScore, MaxShownScore(entries)) == Some(3.0)
  {
    var m := MaxShownScore(entries);
    var k :| 0 <= k < |entries| && m == entries[k].valueScore;
    StarOnScale(m, m);
  }

  lemma ScaleShares(entries: seq<ScoredFund>, m: real)
    requires m > 0.0 && InScale(entries, m)
    ensures forall i :: 0 <= i < |entries| ==>
      RmfCard.GetStarCount(entries[i].valueScore, m).Some? &&
      RmfCard.GetStarCount(entries[i].valueScore, m).value * m == 3.0 * entries[i].valueScore
  {
    forall i | 0 <= i < |entries|
      ensures RmfCard.GetStarCount(entries[i].valueScore, m).Some?
      ensures RmfCard.GetStarCount(entries[i].valueScore, m).value * m == 3.0 * entries[i].valueScore
    {
      StarOnScale(entries[i].valueScore, m);
    }
  }

  lemma ScaleOrdered(entries: seq<ScoredFund>, m: real)
    requires m > 0.0 && InScale(entries, m)
    ensures forall i, j :: 0 <= i < |entries| && 0 <= j < |entries| && entries[i].valueScore < entries[j].valueScore ==>
      RmfCard.GetStarCount(entries[i].valueScore, m).value < RmfCard.GetStarCount(entries[j].valueScore, m).value
  {
    forall i, j | 0 <= i < |entries| && 0 <= j < |entries| && entries[i].valueScore < entries[j].valueScore
      ensures RmfCard.GetStarCount(entries[i].valueScore, m).value < RmfCard.GetStarCount(entries[j].valueScore, m).value
    {
      StarsOrdered(entries[i].valueScore, entries[j].valueScore, m);
    }
  }

  /** With the best shown score as the scale, the best shown fund gets three
      full stars and every other card its proportional share, so a higher
      score always shows more stars (when some shown fund scores above 0). */
  lemma ShownScaleProportional(fs: seq<Fund>, sqrt: real -> real)
    ensures var scored := ScoredFunds(fs, sqrt); var m := MaxShownScore(scored);
      |fs| > 0 && m > 0.0 ==>
        && (exists i :: 0 <= i < |scored| && RmfCard.GetStarCount(scored[i].valueScore, m) == Some(3.0))
        && (forall i :: 0 <= i < |scored| ==>
              RmfCard.GetStarCount(scored[i].valueScore, m).Some? &&
              RmfCard.GetStarCount(scored[i].valueScore, m).value * m == 3.0 * scored[i].valueScore)
        && (forall i, j :: 0 <= i < |scored| && 0 <= j < |scored| && scored[i].valueScore < scored[j].valueScore ==>
              RmfCard.GetStarCount(scored[i].valueScore, m).value < RmfCard.GetStarCount(scored[j].valueScore, m).value)
  {
    ScoredNonNegative(fs, sqrt);
    ScaleProportional(ScoredFunds(fs, sqrt));
  }

  /** The entries on a page: of the value ranking or of the shown order. */
  function PageOf(fs: seq<Fund>, ranked: bool, page: int, sqrt: real -> real): (r: seq<ScoredFund>)
    ensures |r| <= FundsPerPage
  {
    var scored := ScoredFunds(fs, sqrt);
    var arr := if ranked then ValueRankedFunds(scored) else scored;
    PagedFundsSpec(arr, page);
    PagedFunds(arr, page)
  }

  /** Every entry of a page comes from the list paged. */
  lemma PagedFromList<T>(arr: seq<T>, page: int)
    ensures forall k :: 0 <= k < |PagedFunds(arr, page)| ==> PagedFunds(arr, page)[k] in arr
  {
    var a, b := SliceIndex((page - 1) * FundsPerPage, |arr|), SliceIndex(page * FundsPerPage, |arr|);
    forall k | 0 <= k < |PagedFunds(arr, page)| ensures PagedFunds(arr, page)[k] in arr {
      assert PagedFunds(arr, page)[k] == arr[a + k];
    }
  }

  // ---------------------------------------------------------------------
  // Page state
  // ---------------------------------------------------------------------

  /** `Object.keys(filters).length > 0`: some criterion is present. */
  predicate HasKeys(filters: FilterOption) {
    filters != NoFilters
  }

  /** The default sort option. */
  const DefaultSort := SortOption("ความคุ้มค่า (สูงสุด)", ExpenseRatio, Desc)

  const LoadError := "ไม่สามารถโหลดข้อมูลกองทุนได้"

  /** The shown list: the funds that pass the filters, sorted by the current
      sort option. */
  function Shown(funds: seq<Fund>, filters: FilterOption, opt: SortOption): (r: seq<Fund>)
    ensures multiset(r) == multiset(FilterFunds(funds, filters))
  {
    StableSort(FilterFunds(funds, filters), FundCmp(opt))
  }

  /** The shown list holds exactly the funds that pass the filters (with
      their multiplicities), ordered by the sort option. */
  lemma ShownSpec(funds: seq<Fund>, filters: FilterOption, opt: SortOption)
    ensures multiset(Shown(funds, filters, opt)) == multiset(FilterFunds(funds, filters))
    ensures forall f :: f in Shown(funds, filters, opt) <==> f in funds && Matches(f, filters)
    ensures Sorted(Shown(funds, filters, opt), FundCmp(opt))
  {
    var ff := FilterFunds(funds, filters);
    FilterFundsExact(funds, filters);
    forall f ensures f in Shown(funds, filters, opt) <==> f in funds && Matches(f, filters) {
      assert f in Shown(funds, filters, opt) <==> f in multiset(ff);
    }
    FundCmpConsistent(opt);
    StableSortSorted(ff, FundCmp(opt));
  }

  /** The entries of any page, in either order, score between 0 and the
      best shown score. */
  lemma PageStarsOnScale(fs: seq<Fund>, ranked: bool, page: int, sqrt: real -> real)
    ensures InScale(PageOf(fs, ranked, page, sqrt), MaxShownScore(ScoredFunds(fs, sqrt)))
  {
    var scored := ScoredFunds(fs, sqrt);
    var arr := if ranked then ValueRankedFunds(scored) else scored;
    var m := MaxShownScore(scored);
    OrderOnScale(fs, ranked, sqrt);
    PagedFromList(arr, page);
    var entries := PagedFunds(arr, page);
    forall i | 0 <= i < |entries| ensures 0.0 <= entries[i].valueScore <= m {
      assert entries[i] in arr;
    }
  }

  /** Every entry of either order scores between 0 and the best shown
      score. */
  lemma OrderOnScale(fs: seq<Fund>, ranked: bool, sqrt: real -> real)
    ensures var scored := ScoredFunds(fs, sqrt);
      forall e :: e in (if ranked then ValueRankedFunds(scored) else scored) ==>
        0.0 <= e.valueScore <= MaxShownScore(scored)
  {
    var scored := ScoredFunds(fs, sqrt);
    var arr := if ranked then ValueRankedFunds(scored) else scored;
    ScoredNonNegative(fs, sqrt);
    ValueRankedOrder(scored);
    forall e | e in arr ensures 0.0 <= e.valueScore <= MaxShownScore(scored) {
      assert e in multiset(arr);
      assert e in multiset(scored);
      var k :| 0 <= k < |scored| && scored[k] == e;
    }
  }

  /** Every card scores between 0 and the scale. */
  predicate InScale(entries: seq<ScoredFund>, m: real) {
    forall i :: 0 <= i < |entries| ==> 0.0 <= entries[i].valueScore <= m
  }

  /** Every card's star count is its score's share of the scale times
      three. */
  predicate OnScale(entries: seq<ScoredFund>, stars: seq<Option<real>>, m: real) {
    |stars| == |entries| &&
    forall i :: 0 <= i < |stars| ==> stars[i].Some? && stars[i].value * m == 3.0 * entries[i].valueScore
  }

  /** `renderStars`' counts for a list of cards on a scale; on a positive
      scale with every score between 0 and it, each count is the score's
      share of the scale times three. */
  function StarCounts(entries: seq<ScoredFund>, m: real): (r: seq<Option<real>>)
    ensures |r| == |entries|
    ensures m > 0.0 && InScale(entries, m) ==> OnScale(entries, r, m)
  {
    var r := seq(|entries|, i requires 0 <= i < |entries| => RmfCard.GetStarCount(entries[i].valueScore, m));
    assert m > 0.0 && InScale(entries, m) ==> OnScale(entries, r, m) by {
      if m > 0.0 && InScale(entries, m) {
        forall i | 0 <= i < |r| ensures r[i].Some? && r[i].value * m == 3.0 * entries[i].valueScore {
          StarOnScale(entries[i].valueScore, m);
        }
      }
    }
    r
  }

  /** The state of `App`. Every setter that the source follows with an
      effect also runs that effect, so each method ends in the state React
      settles in. */
  class AppState {
    var funds: seq<Fund>
    var filteredFunds: seq<Fund>
    var loading: bool
    var error: Option<string>
    var filters: FilterOption
    var sortOption: SortOption
    var showValueRanking: bool
    var currentPage: int

    /** The shown list is always the filtered, sorted funds. */
    ghost predicate Valid()
      reads this`funds, this`filteredFunds, this`filters, this`sortOption
    {
      filteredFunds == Shown(funds, filters, sortOption)
    }

    /** The initial `useState` values. */
    constructor()
      ensures Valid()
      ensures funds == [] && filteredFunds == [] && loading && error == None
      ensures filters == NoFilters && sortOption == DefaultSort
      ensures showValueRanking && currentPage == 1
    {
      funds := [];
      filteredFunds := [];
      loading := true;
      error := None;
      filters := NoFilters;
      sortOption := DefaultSort;
      showValueRanking := true;
      currentPage := 1;
    }

    /** The filter-and-sort effect: filter only when some key is present,
        then sort, then return to the first page. */
    method Refresh()
      modifies this
      ensures Valid()
      ensures filteredFunds == Shown(funds, filters, sortOption) && currentPage == 1
      ensures funds == old(funds) && filters == old(filters) && sortOption == old(sortOption)
      ensures showValueRanking == old(showValueRanking) && loading == old(loading) && error == old(error)
    {
      var result := funds;
      if HasKeys(filters) {
        result := FilterFunds(result, filters);
      } else {
        FilterFundsNoConstraint(funds, filters);
      }
      result := SortFunds(result, sortOption);
      filteredFunds := result;
      currentPage := 1;
    }

    /** The first render's effects: the filter-and-sort effect, and the
        sort-option effect, which switches the value ranking off straight
        away. */
    method Mount()
      modifies this
      ensures Valid()
      ensures !showValueRanking && currentPage == 1
      ensures funds == old(funds) && filters == old(filters) && sortOption == old(sortOption)
      ensures loading == old(loading) && error == old(error)
    {
      Refresh();
      showValueRanking := false;
    }

    /** The end of `loadData` when the service returns the funds: they
        replace the list, which reruns the filter-and-sort effect. */
    method LoadSucceeded(data: seq<Fund>)
      modifies this
      ensures Valid() && !loading && error == None
      ensures funds == data && currentPage == 1
      ensures filters == old(filters) && sortOption == old(sortOption) && showValueRanking == old(showValueRanking)
    {
      funds := data;
      filteredFunds := data;
      error := None;
      loading := false;
      Refresh();
    }

    /** The end of `loadData` when the service throws: the error message is
        set and the funds stay as they were. */
    method LoadFailed()
      modifies this
      requires Valid()
      ensures Valid() && !loading && error == Some(LoadError)
      ensures funds == old(funds) && filteredFunds == old(filteredFunds) && currentPage == old(currentPage)
      ensures filters == old(filters) && sortOption == old(sortOption) && showValueRanking == old(showValueRanking)
    {
      error := Some(LoadError);
      loading := false;
    }

    /** A new filter object from the filter panel. */
    method SetFilters(f: FilterOption)
      modifies this
      ensures Valid()
      ensures filters == f && currentPage == 1
      ensures funds == old(funds) && sortOption == old(sortOption) && showValueRanking == old(showValueRanking)
      ensures loading == old(loading) && error == old(error)
    {
      filters := f;
      Refresh();
    }

    /** A new sort option: the list is re-sorted and the value ranking is
        switched off. */
    method SetSortOption(o: SortOption)
      modifies this
      ensures Valid()
      ensures sortOption == o && !showValueRanking && currentPage == 1
      ensures funds == old(funds) && filters == old(filters)
      ensures loading == old(loading) && error == old(error)
    {
      sortOption := o;
      Refresh();
      showValueRanking := false;
    }

    /** The value-ranking toggle. */
    method SetShowValueRanking(b: bool)
      modifies this
      requires Valid()
      ensures Valid()
      ensures showValueRanking == b
      ensures funds == old(funds) && filteredFunds == old(filteredFunds) && filters == old(filters)
      ensures sortOption == old(sortOption) && currentPage == old(currentPage)
      ensures loading == old(loading) && error == old(error)
    {
      showValueRanking := b;
    }

    function TotalPagesNow(): nat
      reads this
    {
      TotalPages(|filteredFunds|)
    }

    /** The entries on the current page: the value ranking or the shown
        order, as the toggle says. */
    function PageEntries(sqrt: real -> real): (r: seq<ScoredFund>)
      reads this
      ensures |r| <= FundsPerPage
    {
      PageOf(filteredFunds, showValueRanking, currentPage, sqrt)
    }

    /** The star counts of the cards on the current page, on the scale of
        the best shown score: each is the card's share of that scale times
        three, whenever some shown fund scores above 0. */
    function PageStars(sqrt: real -> real): (r: seq<Option<real>>)
      reads this
      ensures |r| == |PageEntries(sqrt)|
      ensures var m := MaxShownScore(ScoredFunds(filteredFunds, sqrt));
        m > 0.0 ==> OnScale(PageEntries(sqrt), r, m)
    {
      PageStarsOnScale(filteredFunds, showValueRanking, currentPage, sqrt);
      StarCounts(PageEntries(sqrt), MaxShownScore(ScoredFunds(filteredFunds, sqrt)))
    }

    method GoToPage(pageNumber: int)
      modifies this
      requires Valid()
      ensures Valid() && currentPage == pageNumber
      ensures funds == old(funds) && filteredFunds == old(filteredFunds) && filters == old(filters)
      ensures sortOption == old(sortOption) && showValueRanking == old(showValueRanking)
      ensures loading == old(loading) && error == old(error)
    {
      currentPage := pageNumber;
    }

    /** One page back, never below page 1. */
    method GoToPreviousPage()
      modifies this
      requires Valid()
      ensures Valid()
      ensures old(currentPage) > 1 ==> currentPage == old(currentPage) - 1
      ensures old(currentPage) <= 1 ==> currentPage == 1
      ensures funds == old(funds) && filteredFunds == old(filteredFunds) && filters == old(filters)
      ensures sortOption == old(sortOption) && showValueRanking == old(showValueRanking)
      ensures loading == old(loading) && error == old(error)
    {
      currentPage := if currentPage - 1 >= 1 then currentPage - 1 else 1;
    }

    /** One page on, never past the last page (which is 0 for an empty
        list). */
    method GoToNextPage()
      modifies this
      requires Valid()
      ensures Valid()
      ensures currentPage <= TotalPagesNow()
      ensures old(currentPage) < TotalPagesNow() ==> currentPage == old(currentPage) + 1
      ensures old(currentPage) >= TotalPagesNow() ==> currentPage == TotalPagesNow()
      ensures funds == old(funds) && filteredFunds == old(filteredFunds) && filters == old(filters)
      ensures sortOption == old(sortOption) && showValueRanking == old(showValueRanking)
      ensures loading == old(loading) && error == old(error)
    {
      var t := TotalPagesNow();
      currentPage := if currentPage + 1 <= t then currentPage + 1 else t;
    }

    method GoToFirstPage()
      modifies this
      requires Valid()
      ensures Valid() && currentPage == 1
      ensures funds == old(funds) && filteredFunds == old(filteredFunds) && filters == old(filters)
      ensures sortOption == old(sortOption) && showValueRanking == old(showValueRanking)
      ensures loading == old(loading) && error == old(error)
    {
      currentPage := 1;
    }

    method GoToLastPage()
      modifies this
      requires Valid()
      ensures Valid() && currentPage == TotalPagesNow()
      ensures funds == old(funds) && filteredFunds == old(filteredFunds) && filters == old(filters)
      ensures sortOption == old(sortOption) && showValueRanking == old(showValueRanking)
      ensures loading == old(loading) && error == old(error)
    {
      currentPage := TotalPagesNow();
    }
  }
}
