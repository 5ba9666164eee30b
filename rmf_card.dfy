/** The computations of one fund card
    (packages/frontend/src/components/RMFCard.tsx): the zero-to-three star
    rating of a value score and the English risk label. */
module RmfCard {
  import opened Types
  import opened JsMath
  import RmfUtils
  import RmfService

  /** `getStarCount`: the score as a share of `maxValueScore`, scaled to
      three stars and clamped to [0, 3]. With `maxValueScore` zero the
      division gives an infinity (clamped to 3 or 0) or, for a zero score,
      NaN, which is `None` here. */
  function GetStarCount(score: real, maxValueScore: real): (r: Option<real>)
    ensures r.Some? ==> 0.0 <= r.value <= 3.0
    ensures r.None? <==> maxValueScore == 0.0 && score == 0.0
    ensures maxValueScore > 0.0 && score >= maxValueScore ==> r == Some(3.0)
    ensures maxValueScore > 0.0 && score <= 0.0 ==> r == Some(0.0)
    ensures maxValueScore > 0.0 && 0.0 <= score <= maxValueScore ==> r.Some? && r.value * maxValueScore == 3.0 * score
  {
    if maxValueScore == 0.0 then
      if score > 0.0 then Some(3.0) else if score < 0.0 then Some(0.0) else None
    else
      var x := score / maxValueScore * 3.0;
      assert maxValueScore > 0.0 && score >= maxValueScore ==> x >= 3.0 by {
        if maxValueScore > 0.0 && score >= maxValueScore {
          assert score / maxValueScore >= 1.0;
        }
      }
      assert maxValueScore > 0.0 && score <= 0.0 ==> x <= 0.0 by {
        if maxValueScore > 0.0 && score <= 0.0 {
          assert score / maxValueScore <= 0.0;
        }
      }
      assert maxValueScore > 0.0 && 0.0 <= score <= maxValueScore ==> 0.0 <= x <= 3.0 by {
        if maxValueScore > 0.0 && 0.0 <= score <= maxValueScore {
          assert 0.0 <= score / maxValueScore <= 1.0;
        }
      }
      Some(Max(0.0, Min(3.0, x)))
  }

  /** The three star icons: filled, the faded "half" star, or grey. */
  datatype Star = Full | Half | Empty

  /** The icon of the i-th star (i from 1) for a star count; NaN fails both
      comparisons and gives a grey star. */
  function StarAt(count: Option<real>, i: int): Star {
    match count
    case None => Empty
    case Some(c) =>
      if c >= i as real then Full
      else if c > (i - 1) as real && c < i as real then Half
      else Empty
  }

  function Stars(count: Option<real>): seq<Star> {
    [StarAt(count, 1), StarAt(count, 2), StarAt(count, 3)]
  }

  /** `renderStars`: one icon for each of the stars 1, 2 and 3. */
  method RenderStars(score: real, maxValueScore: real) returns (stars: seq<Star>)
    ensures stars == Stars(GetStarCount(score, maxValueScore))
  {
    var starCount := GetStarCount(score, maxValueScore);
    stars := [];
    for i := 1 to 4
      invariant |stars| == i - 1
      invariant forall k :: 0 <= k < i - 1 ==> stars[k] == StarAt(starCount, k + 1)
    {
      stars := stars + [StarAt(starCount, i)];
    }
  }

  function CountOf(stars: seq<Star>, s: Star): (n: nat)
    ensures n <= |stars|
  {
    if |stars| == 0 then 0
    else (if stars[0] == s then 1 else 0) + CountOf(stars[1..], s)
  }

  lemma CountOfThree(s: seq<Star>, x: Star)
    requires |s| == 3
    ensures CountOf(s, x) == (if s[0] == x then 1 else 0) + (if s[1] == x then 1 else 0) + (if s[2] == x then 1 else 0)
  {
    assert s[1..][1..][1..] == [];
    assert CountOf(s[1..][1..], x) == (if s[2] == x then 1 else 0);
    assert CountOf(s[1..], x) == (if s[1] == x then 1 else 0) + (if s[2] == x then 1 else 0);
  }

  function Weight(s: Star): int {
    match s
    case Full => 2
    case Half => 1
    case Empty => 0
  }

  /** For a count in [0, 3]: the filled stars are its whole part, there is
      a half star exactly when it has a fractional part, and filled stars
      come before the half star, which comes before the grey ones. */
  lemma StarsShape(c: real)
    requires 0.0 <= c <= 3.0
    ensures var s := Stars(Some(c));
      && CountOf(s, Full) == c.Floor
      && CountOf(s, Half) <= 1
      && (CountOf(s, Half) == 1 <==> c != c.Floor as real)
      && (forall i, j :: 0 <= i < j < |s| ==> Weight(s[i]) >= Weight(s[j]))
  {
    var s := Stars(Some(c));
    CountOfThree(s, Full);
    CountOfThree(s, Half);
    if c < 1.0 {
      assert c.Floor == 0;
    } else if c < 2.0 {
      assert c.Floor == 1;
    } else if c < 3.0 {
      assert c.Floor == 2;
    } else {
      assert c.Floor == 3;
    }
  }

  /** A fund at the top of the value ranking (score equal to the positive
      maximum) gets three filled stars; a score of zero or below gets none;
      NaN shows three grey stars. */
  lemma TopScoreThreeStars(score: real, maxValueScore: real)
    ensures maxValueScore > 0.0 && score == maxValueScore ==> Stars(GetStarCount(score, maxValueScore)) == [Full, Full, Full]
    ensures maxValueScore > 0.0 && score <= 0.0 ==> Stars(GetStarCount(score, maxValueScore)) == [Empty, Empty, Empty]
    ensures maxValueScore == 0.0 && score == 0.0 ==> Stars(GetStarCount(score, maxValueScore)) == [Empty, Empty, Empty]
  {
  }

  /** `getRiskLabelEn`: a Thai risk label becomes the English label of the
      same level; anything else passes through unchanged. */
  function GetRiskLabelEn(risk: string): (r: string)
    ensures forall i :: 0 <= i < |RmfUtils.ThaiRiskLabels| && RmfUtils.ThaiRiskLabels[i] == risk ==> r == RmfService.RiskOrder[i]
    ensures risk !in RmfUtils.ThaiRiskLabels ==> r == risk
  {
    match risk
    case "ต่ำ" => "Low"
    case "ต่ำถึงปานกลาง" => "Low to Moderate"
    case "ปานกลาง" => "Moderate"
    case "ปานกลางถึงสูง" => "Moderate to High"
    case "สูง" => "High"
    case _ => risk
  }

  /** The label translation agrees with `getRiskScore`: a Thai label's
      score is one more than its English label's place in the risk order. */
  lemma RiskLabelAgreesWithScore(risk: string)
    requires risk in RmfUtils.ThaiRiskLabels
    ensures GetRiskLabelEn(risk) in RmfService.RiskOrder
    ensures RmfService.RiskIndex(GetRiskLabelEn(risk)) + 1 == RmfUtils.RiskScore(risk)
  {
    var i :| 0 <= i < 5 && RmfUtils.ThaiRiskLabels[i] == risk;
    assert GetRiskLabelEn(risk) == RmfService.RiskOrder[i];
  }

  /** Every loaded fund already carries an English label, which the card
      shows unchanged. */
  lemma LoadedFundsLabelUnchanged(rawFunds: seq<RmfService.RawFund>, ids: nat -> string, now: string)
    requires RmfService.LoadFunds(rawFunds, ids, now).Some?
    ensures forall f :: f in RmfService.LoadFunds(rawFunds, ids, now).value ==> GetRiskLabelEn(f.risk) == f.risk
  {
    RmfService.LoadedFundsRiskScore(rawFunds, ids, now);
    EnglishLabelsUnchanged(RmfService.LoadFunds(rawFunds, ids, now).value);
  }

  /** An English label is no Thai label, so the card keeps it. */
  lemma EnglishLabelsUnchanged(fs: seq<Fund>)
    requires forall f :: f in fs ==> f.risk in RmfService.RiskOrder
    ensures forall f :: f in fs ==> GetRiskLabelEn(f.risk) == f.risk
  {
    forall f | f in fs ensures GetRiskLabelEn(f.risk) == f.risk {
      assert f.risk !in RmfUtils.ThaiRiskLabels;
    }
  }
}
