/** Record normalisation of the data service
    (packages/frontend/src/services/rmfService.ts): which raw records are RMF
    funds, how a raw record becomes a `Fund`, and the option lists the filter
    panel offers. Fetching the JSON file is not part of this model; the raw
    records are its input. */
module RmfService {
  import opened Types
  import opened Text
  import opened Sorting
  import RmfUtils

  // ---------------------------------------------------------------------
  // Raw records
  // ---------------------------------------------------------------------

  /** A JSON string field: absent (or not a string). */
  type Field = Option<string>

  /** `parseFloat(...)` of a JSON field: `None` is NaN. */
  type Number = Option<real>

  datatype Overview = Overview(
    taxAllowance: Field,
    name: Field,
    symbol: Field,
    amcName: Field,
    riskLevel: Field)

  datatype Performance = Performance(
    navPerUnit: Number,
    date: Field,
    oneYearPercentChange: Number,
    threeYearPercentChange: Number,
    fiveYearPercentChange: Number,
    nav: Number)

  datatype FeeInfo = FeeInfo(actualManagementFee: Number, actualTrusteeFee: Number)

  datatype RawFund = RawFund(
    taxAllowance: Field,
    overviewInfo: Option<Overview>,
    performanceInfo: Option<Performance>,
    feeInfo: Option<FeeInfo>)

  /** `s || fallback` for a string field: absent and '' both fall back. */
  function OrElse(s: Field, fallback: string): (r: string)
    ensures s.Some? && s.value != "" ==> r == s.value
    ensures (s.None? || s.value == "") ==> r == fallback
  {
    if s.Some? && s.value != "" then s.value else fallback
  }

  /** `parseFloat(x) || 0`: NaN and 0 both give 0. */
  function OrZero(x: Number): (r: real)
    ensures x.Some? ==> r == x.value
    ensures x.None? ==> r == 0.0
  {
    if x.Some? then x.value else 0.0
  }

  function OverviewOf(raw: RawFund): Overview {
    if raw.overviewInfo.Some? then raw.overviewInfo.value else Overview(None, None, None, None, None)
  }

  function PerformanceOf(raw: RawFund): Performance {
    if raw.performanceInfo.Some? then raw.performanceInfo.value else Performance(None, None, None, None, None, None)
  }

  function FeeOf(raw: RawFund): FeeInfo {
    if raw.feeInfo.Some? then raw.feeInfo.value else FeeInfo(None, None)
  }

  // ---------------------------------------------------------------------
  // isRMF
  // ---------------------------------------------------------------------

  /** `isRMF`: the record is tagged 'RMF' at the root or in its overview, or
      its lowered name or symbol contains "rmf". */
  predicate IsRMF(raw: RawFund)
    ensures raw.taxAllowance == Some("RMF") ==> IsRMF(raw)
    ensures raw.overviewInfo.None? ==> (IsRMF(raw) <==> raw.taxAllowance == Some("RMF"))
  {
    var overview := OverviewOf(raw);
    || raw.taxAllowance == Some("RMF")
    || overview.taxAllowance == Some("RMF")
    || Contains(Lower(OrElse(overview.name, "")), "rmf")
    || Contains(Lower(OrElse(overview.symbol, "")), "rmf")
  }

  /** The name test ignores case: a name containing "RMF", "Rmf" or any other
      spelling that lowers to "rmf" marks the record as an RMF fund. */
  lemma IsRMFByName(raw: RawFund, t: string)
    requires raw.overviewInfo.Some? && raw.overviewInfo.value.name.Some?
    requires Lower(t) == "rmf" && Contains(raw.overviewInfo.value.name.value, t)
    ensures IsRMF(raw)
  {
    var name := raw.overviewInfo.value.name.value;
    ContainsLower(name, t);
    if name == "" {
      var i := ContainsWitness(name, t);
    }
  }

  // ---------------------------------------------------------------------
  // getRiskText
  // ---------------------------------------------------------------------

  /** The five English risk labels, from lowest to highest (the `riskOrder`
      of `getUniqueValues`). */
  const RiskOrder: seq<string> := ["Low", "Low to Moderate", "Moderate", "Moderate to High", "High"]

  /** The ten risk levels the service recognises. */
  const RiskLevels: seq<string> := ["1", "2", "3", "4", "5", "6", "7", "8", "9", "10"]

  /** `getRiskText`: always one of the five English labels; 'Moderate' for
      any level outside '1'..'10' (or a missing one). */
  function GetRiskText(level: Field): (r: string)
    ensures r in RiskOrder
    ensures (level.None? || level.value !in RiskLevels) ==> r == "Moderate"
  {
    if level.None? then "Moderate"
    else match level.value
      case "1" => "Low"
      case "2" => "Low"
      case "3" => "Low to Moderate"
      case "4" => "Low to Moderate"
      case "5" => "Moderate"
      case "6" => "Moderate"
      case "7" => "Moderate to High"
      case "8" => "Moderate to High"
      case "9" => "High"
      case "10" => "High"
      case _ => "Moderate"
  }

  /** Levels pair up: 2k-1 and 2k both give the k-th label. */
  lemma GetRiskTextPairs(i: nat)
    requires i < |RiskLevels|
    ensures GetRiskText(Some(RiskLevels[i])) == RiskOrder[i / 2]
  {
  }

  // ---------------------------------------------------------------------
  // inferCategory
  // ---------------------------------------------------------------------

  /** One branch of `inferCategory`: a regular-expression alternation of
      keywords and the category it assigns. */
  datatype Rule = Rule(keywords: seq<string>, category: string)

  const Other := "อื่นๆ"

  /** The twenty-one branches, one constant each, in source order. */
  const ThaiEquity := Rule(["หุ้นไทย", "thai equity", "thai stock", "set", "ตลาดหลักทรัพย์", "หุ้นในประเทศ"], "หุ้นไทย")
  const ForeignEquity := Rule(["หุ้นต่างประเทศ", "foreign equity", "global equity", "world equity", "international equity", "หุ้นโลก"], "หุ้นต่างประเทศ")
  const UsEquity := Rule(["หุ้นสหรัฐ", "หุ้นอเมริกา", "us equity", "usa equity", "american equity", "หุ้นอเมริกัน"], "หุ้นสหรัฐอเมริกา")
  const ChinaEquity := Rule(["หุ้นจีน", "china equity", "chinese equity", "หุ้นประเทศจีน"], "หุ้นจีน")
  const JapanEquity := Rule(["หุ้นญี่ปุ่น", "japan equity", "japanese equity", "หุ้นประเทศญี่ปุ่น"], "หุ้นญี่ปุ่น")
  const EuropeEquity := Rule(["หุ้นยุโรป", "europe equity", "european equity", "หุ้นประเทศยุโรป"], "หุ้นยุโรป")
  const EmergingMarkets := Rule(["หุ้นตลาดเกิดใหม่", "emerging markets", "emerging equity", "หุ้นประเทศกำลังพัฒนา"], "หุ้นตลาดเกิดใหม่")
  const FixedIncome := Rule(["ตราสารหนี้", "fixed income", "bond", "debt", "พันธบัตร", "หุ้นกู้"], "ตราสารหนี้")
  const MoneyMarket := Rule(["ตลาดเงิน", "money market", "เงินฝาก", "deposit"], "ตลาดเงิน")
  const MixedFund := Rule(["ผสม", "mixed", "balanced", "สมดุล", "ผสมหุ้นและตราสารหนี้"], "กองทุนรวมผสม")
  const FlexibleFund := Rule(["ยืดหยุ่น", "flexible", "ปรับตัว", "ปรับสัดส่วน"], "กองทุนรวมยืดหยุ่น")
  const Property := Rule(["อสังหา", "property", "real estate", "ที่ดิน", "อาคาร"], "อสังหาริมทรัพย์")
  const Infrastructure := Rule(["โครงสร้างพื้นฐาน", "infrastructure", "สาธารณูปโภค", "พลังงาน", "คมนาคม"], "โครงสร้างพื้นฐาน")
  const Commodity := Rule(["สินค้าโภคภัณฑ์", "commodity", "ทองคำ", "ทอง", "ทองคำขาว", "น้ำมัน"], "สินค้าโภคภัณฑ์")
  const Technology := Rule(["เทคโนโลยี", "technology", "tech", "ดิจิทัล", "digital", "ai", "artificial intelligence"], "เทคโนโลยี")
  const Financial := Rule(["การเงิน", "financial", "ธนาคาร", "banking", "ประกัน", "insurance"], "การเงิน")
  const Consumer := Rule(["บริโภค", "consumer", "อาหาร", "เครื่องดื่ม", "retail", "ค้าปลีก"], "บริโภค")
  const Energy := Rule(["พลังงาน", "energy", "น้ำมัน", "gas", "ไฟฟ้า", "พลังงานทดแทน"], "พลังงาน")
  const Healthcare := Rule(["สุขภาพ", "healthcare", "medical", "ยา", "โรงพยาบาล", "biotech"], "สุขภาพ")
  const Reit := Rule(["reit", "real estate investment trust"], "REIT")
  const MoneyMarketFallback := Rule(["เงินฝาก", "deposit", "ตลาดเงิน", "money"], "ตลาดเงิน")

  const Rules: seq<Rule> := [
    ThaiEquity, ForeignEquity, UsEquity, ChinaEquity,
    JapanEquity, EuropeEquity, EmergingMarkets, FixedIncome,
    MoneyMarket, MixedFund, FlexibleFund, Property,
    Infrastructure, Commodity, Technology, Financial,
    Consumer, Energy, Healthcare, Reit,
    MoneyMarketFallback
  ]

  /** The alternation `/k1|k2|.../.test(n)`: some keyword occurs in `n`. */
  predicate RuleMatches(rule: Rule, n: string) {
    exists k :: k in rule.keywords && Contains(n, k)
  }

  /** The position of the first rule of `rules` at or after `from` that
      matches `n`, or `|rules|` when none does. */
  function FirstMatch(rules: seq<Rule>, n: string, from: nat): (k: nat)
    requires from <= |rules|
    ensures from <= k <= |rules|
    ensures k < |rules| ==> RuleMatches(rules[k], n)
    ensures forall j :: from <= j < k ==> !RuleMatches(rules[j], n)
    decreases |rules| - from
  {
    if from == |rules| then from
    else if RuleMatches(rules[from], n) then from
    else FirstMatch(rules, n, from + 1)
  }

  /** An if-chain of rules: the category of the first rule that matches,
      'อื่นๆ' when none does. */
  function Classify(rules: seq<Rule>, n: string): (c: string)
    ensures c == Other || exists k :: 0 <= k < |rules| && c == rules[k].category
    ensures (forall j :: 0 <= j < |rules| ==> !RuleMatches(rules[j], n)) ==> c == Other
    ensures forall i :: (0 <= i < |rules| && RuleMatches(rules[i], n) &&
      forall j :: 0 <= j < i ==> !RuleMatches(rules[j], n)) ==> c == rules[i].category
  {
    var k := FirstMatch(rules, n, 0);
    if k == |rules| then Other else rules[k].category
  }

  /** `inferCategory(name)`: the rules above applied to the lowered name;
      always one of the rules' categories or 'อื่นๆ'. */
  function InferCategory(name: Field): (c: string)
    ensures c == Other || exists k :: 0 <= k < |Rules| && c == Rules[k].category
    ensures var n := Lower(OrElse(name, ""));
      forall i :: (0 <= i < |Rules| && RuleMatches(Rules[i], n) &&
        forall j :: 0 <= j < i ==> !RuleMatches(Rules[j], n)) ==> c == Rules[i].category
    ensures (forall j :: 0 <= j < |Rules| ==> !RuleMatches(Rules[j], Lower(OrElse(name, "")))) ==> c == Other
  {
    Classify(Rules, Lower(OrElse(name, "")))
  }

  /** Any lowered name containing "set" (as in "asset") is Thai equity,
      because the first rule's alternation includes "set". */
  lemma SetIsThaiEquity(name: Field)
    requires Contains(Lower(OrElse(name, "")), "set")
    ensures InferCategory(name) == "หุ้นไทย"
  {
    assert Rules[0] == ThaiEquity && "set" in ThaiEquity.keywords;
    assert RuleMatches(Rules[0], Lower(OrElse(name, "")));
  }

  /** A name containing 'พลังงาน' never reaches the energy rule: the
      infrastructure rule (which also lists 'พลังงาน') comes first. It is
      classed as infrastructure unless one of the twelve rules before that
      one already matches. */
  lemma EnergyNeverEnergy(name: Field)
    requires Contains(Lower(OrElse(name, "")), "พลังงาน")
    ensures InferCategory(name) != "พลังงาน"
    ensures (forall j :: 0 <= j < 12 ==> !RuleMatches(Rules[j], Lower(OrElse(name, "")))) ==> InferCategory(name) == "โครงสร้างพื้นฐาน"
  {
    var n := Lower(OrElse(name, ""));
    InfrastructureMatches(n);
    EarlyCategoriesNotEnergy();
    ClassifyBefore(Rules, n, 12);
  }

  /** A name containing 'พลังงาน' matches the infrastructure rule. */
  lemma InfrastructureMatches(n: string)
    requires Contains(n, "พลังงาน")
    ensures RuleMatches(Rules[12], n)
  {
    assert Rules[12] == Infrastructure && "พลังงาน" in Infrastructure.keywords;
  }

  /** None of the first thirteen rules yields the energy category. */
  lemma EarlyCategoriesNotEnergy()
    ensures Rules[12].category == "โครงสร้างพื้นฐาน"
    ensures forall j :: 0 <= j <= 12 ==> Rules[j].category != "พลังงาน"
  {
  }

  /** When rule i matches, the chain stops at rule i or earlier. */
  lemma ClassifyBefore(rules: seq<Rule>, n: string, i: nat)
    requires i < |rules| && RuleMatches(rules[i], n)
    ensures exists k :: 0 <= k <= i && Classify(rules, n) == rules[k].category
    ensures (forall j :: 0 <= j < i ==> !RuleMatches(rules[j], n)) ==> Classify(rules, n) == rules[i].category
  {
    var k := FirstMatch(rules, n, 0);
    if i < k {
      assert false;
    }
    assert Classify(rules, n) == rules[k].category;
  }

  // ---------------------------------------------------------------------
  // transformFundData
  // ---------------------------------------------------------------------

  /** `s.split('T')[0]`: the text before the first 'T'. */
  function BeforeT(s: string): (r: string)
    ensures |r| <= |s| && r == s[..|r|] && 'T' !in r
    ensures |r| < |s| ==> s[|r|] == 'T'
  {
    if |s| == 0 || s[0] == 'T' then "" else [s[0]] + BeforeT(s[1..])
  }

  /** `transformFundData`. The random fallback id and today's ISO timestamp
      are parameters. */
  function TransformFundData(raw: RawFund, fallbackId: string, now: string): (f: Fund)
    ensures f.expenseRatio == f.totalExpenseRatio == f.managementFee + f.trusteeFee
    ensures f.managementFee == OrZero(FeeOf(raw).actualManagementFee) && f.trusteeFee == OrZero(FeeOf(raw).actualTrusteeFee)
    ensures f.risk in RiskOrder
    ensures f.category == InferCategory(OverviewOf(raw).name)
  {
    var overview, performance, fee := OverviewOf(raw), PerformanceOf(raw), FeeOf(raw);
    var managementFee := OrZero(fee.actualManagementFee);
    var trusteeFee := OrZero(fee.actualTrusteeFee);
    var totalExpenseRatio := managementFee + trusteeFee;
    Fund(
      id := OrElse(overview.symbol, fallbackId),
      name := OrElse(overview.name, "ไม่ระบุชื่อ"),
      fundCode := OrElse(overview.symbol, "ไม่ระบุรหัส"),
      company := OrElse(overview.amcName, "ไม่ระบุบริษัท"),
      nav := OrZero(performance.navPerUnit),
      navDate := BeforeT(OrElse(performance.date, now)),
      expenseRatio := totalExpenseRatio,
      return1Y := OrZero(performance.oneYearPercentChange),
      return3Y := OrZero(performance.threeYearPercentChange),
      return5Y := OrZero(performance.fiveYearPercentChange),
      risk := GetRiskText(overview.riskLevel),
      category := InferCategory(overview.name),
      minInvestment := 1000.0,
      managementFee := managementFee,
      trusteeFee := trusteeFee,
      custodianFee := 0.0,
      totalExpenseRatio := totalExpenseRatio,
      benchmark := "ไม่ระบุ",
      inceptionDate := "ไม่ระบุ",
      fundSize := OrZero(performance.nav),
      dividendYield := None,
      volatility := None,
      sharpeRatio := None,
      maxDrawdown := None)
  }

  /** The pure part of `loadRMFData`: keep the RMF records, then transform
      each. `ids(i)` is the random id drawn for the i-th kept record. An
      empty input is the service's error. */
  function LoadFunds(rawFunds: seq<RawFund>, ids: nat -> string, now: string): (r: Option<seq<Fund>>)
    ensures r.None? <==> |rawFunds| == 0
    ensures r.Some? ==> |r.value| == |KeepRMF(rawFunds)|
    ensures r.Some? ==> forall i :: 0 <= i < |r.value| ==> r.value[i] == TransformFundData(KeepRMF(rawFunds)[i], ids(i), now)
  {
    if |rawFunds| == 0 then None
    else
      var rmf := KeepRMF(rawFunds);
      Some(seq(|rmf|, i requires 0 <= i < |rmf| => TransformFundData(rmf[i], ids(i), now)))
  }

  /** `rawFunds.filter(isRMF)`: every RMF record, as often as it occurs,
      and nothing else. */
  function KeepRMF(rawFunds: seq<RawFund>): (r: seq<RawFund>)
    ensures |r| <= |rawFunds|
    ensures forall x :: x in r ==> x in rawFunds && IsRMF(x)
    ensures forall x :: x in rawFunds && IsRMF(x) ==> x in r
    ensures forall x :: multiset(r)[x] == if IsRMF(x) then multiset(rawFunds)[x] else 0
    decreases |rawFunds|
  {
    if |rawFunds| == 0 then []
    else
      assert rawFunds == [rawFunds[0]] + rawFunds[1..];
      (if IsRMF(rawFunds[0]) then [rawFunds[0]] else []) + KeepRMF(rawFunds[1..])
  }

  /** The filter keeps the RMF records in their original order. */
  lemma {:induction false} KeepRMFOrder(rawFunds: seq<RawFund>)
    ensures RmfUtils.Subsequence(KeepRMF(rawFunds), rawFunds)
    decreases |rawFunds|
  {
    if |rawFunds| > 0 {
      KeepRMFOrder(rawFunds[1..]);
      var rest := KeepRMF(rawFunds[1..]);
      if IsRMF(rawFunds[0]) {
        assert KeepRMF(rawFunds) == [rawFunds[0]] + rest;
        assert ([rawFunds[0]] + rest)[1..] == rest;
      } else {
        assert KeepRMF(rawFunds) == rest;
      }
    }
  }

  /** No English risk label is one of the Thai labels `getRiskScore` knows,
      so each scores the middle 3. */
  lemma EnglishRiskScore(r: string)
    requires r in RiskOrder
    ensures RmfUtils.RiskScore(r) == 3
  {
    assert r !in RmfUtils.ThaiRiskLabels;
  }

  /** Every loaded fund carries an English risk label, which `getRiskScore`
      does not know: every loaded fund therefore scores the middle 3. */
  lemma LoadedFundsRiskScore(rawFunds: seq<RawFund>, ids: nat -> string, now: string)
    requires LoadFunds(rawFunds, ids, now).Some?
    ensures forall f :: f in LoadFunds(rawFunds, ids, now).value ==> f.risk in RiskOrder && RmfUtils.RiskScore(f.risk) == 3
  {
    var rmf := KeepRMF(rawFunds);
    var fs := LoadFunds(rawFunds, ids, now).value;
    forall k | 0 <= k < |fs| ensures fs[k].risk in RiskOrder && RmfUtils.RiskScore(fs[k].risk) == 3 {
      assert fs[k] == TransformFundData(rmf[k], ids(k), now);
      EnglishRiskScore(fs[k].risk);
    }
  }

  /** Hence sorting loaded funds by risk, in either direction, never
      reorders them. */
  lemma LoadedFundsRiskSortIdentity(rawFunds: seq<RawFund>, ids: nat -> string, now: string, opt: SortOption)
    requires LoadFunds(rawFunds, ids, now).Some? && opt.value == Risk
    ensures StableSort(LoadFunds(rawFunds, ids, now).value, RmfUtils.FundCmp(opt)) == LoadFunds(rawFunds, ids, now).value
  {
    LoadedFundsRiskScore(rawFunds, ids, now);
    RiskTiesUnsorted(LoadFunds(rawFunds, ids, now).value, opt);
  }

  /** Funds that all score 3 are tied under the risk order, so sorting by
      risk keeps them as they are. */
  lemma RiskTiesUnsorted(fs: seq<Fund>, opt: SortOption)
    requires opt.value == Risk
    requires forall f :: f in fs ==> RmfUtils.RiskScore(f.risk) == 3
    ensures StableSort(fs, RmfUtils.FundCmp(opt)) == fs
  {
    forall i, j | 0 <= i < j < |fs| ensures RmfUtils.FundCmp(opt)(fs[i], fs[j]) <= 0.0 {
      assert fs[i] in fs && fs[j] in fs;
    }
    SortedUnchanged(fs, RmfUtils.FundCmp(opt));
  }

  // ---------------------------------------------------------------------
  // getUniqueValues
  // ---------------------------------------------------------------------

  /** No value occurs twice. */
  ghost predicate Distinct(s: seq<string>) {
    forall x :: multiset(s)[x] <= 1
  }

  lemma DistinctIndices(s: seq<string>)
    requires Distinct(s)
    ensures forall i, j :: 0 <= i < j < |s| ==> s[i] != s[j]
  {
    forall i, j | 0 <= i < j < |s| ensures s[i] != s[j] {
      assert s == s[..j] + [s[j]] + s[j + 1..];
      assert s[i] in multiset(s[..j]);
      assert multiset(s)[s[j]] == multiset(s[..j])[s[j]] + 1 + multiset(s[j + 1..])[s[j]];
    }
  }

  /** `[...new Set(xs)]`: the values of `xs` in order of first occurrence. */
  function Dedup(xs: seq<string>): (r: seq<string>)
    ensures Distinct(r)
    ensures forall x :: x in r <==> x in xs
    decreases |xs|
  {
    if |xs| == 0 then []
    else
      var d := Dedup(xs[..|xs| - 1]);
      var last := xs[|xs| - 1];
      assert xs == xs[..|xs| - 1] + [last];
      if last in d then d else d + [last]
  }

  /** The comparator `(a, b) => riskOrder.indexOf(a) - riskOrder.indexOf(b)`. */
  function RiskIndex(s: string): (r: int)
    ensures -1 <= r < |RiskOrder|
    ensures r >= 0 ==> RiskOrder[r] == s
    ensures r == -1 <==> s !in RiskOrder
  {
    if s == "Low" then 0
    else if s == "Low to Moderate" then 1
    else if s == "Moderate" then 2
    else if s == "Moderate to High" then 3
    else if s == "High" then 4
    else -1
  }

  function ByRiskOrder(a: string, b: string): real {
    (RiskIndex(a) - RiskIndex(b)) as real
  }

  function Values(funds: seq<Fund>, field: Fund -> string): (r: seq<string>)
    ensures |r| == |funds| && forall i :: 0 <= i < |funds| ==> r[i] == field(funds[i])
  {
    Map(funds, field)
  }

  function CategoryOf(f: Fund): string { f.category }
  function CompanyOf(f: Fund): string { f.company }
  function RiskOf(f: Fund): string { f.risk }

  /** `.filter(category => category !== 'อื่นๆ')`. */
  function WithoutOther(xs: seq<string>): (r: seq<string>)
    ensures forall x :: x in r <==> x in xs && x != Other
    ensures multiset(r) <= multiset(xs)
    decreases |xs|
  {
    if |xs| == 0 then []
    else
      assert xs == [xs[0]] + xs[1..];
      (if xs[0] != Other then [xs[0]] else []) + WithoutOther(xs[1..])
  }

  datatype UniqueValues = UniqueValues(categories: seq<string>, companies: seq<string>, risks: seq<string>)

  /** `getUniqueValues`: the distinct categories (less 'อื่นๆ') and
      companies in code-point order, and the distinct risk labels in the
      five-level order. */
  function GetUniqueValues(funds: seq<Fund>): (u: UniqueValues)
    ensures Other !in u.categories
    ensures forall f :: f in funds ==> f.company in u.companies && f.risk in u.risks
    ensures forall f :: f in funds && f.category != Other ==> f.category in u.categories
  {
    var cats := WithoutOther(Dedup(Values(funds, CategoryOf)));
    var comps := Dedup(Values(funds, CompanyOf));
    var risks := Dedup(Values(funds, RiskOf));
    ValuesOf(funds, CategoryOf);
    ValuesOf(funds, CompanyOf);
    ValuesOf(funds, RiskOf);
    SortMembers(cats, StringCompare);
    SortMembers(comps, StringCompare);
    SortMembers(risks, ByRiskOrder);
    UniqueValues(StableSort(cats, StringCompare), StableSort(comps, StringCompare), StableSort(risks, ByRiskOrder))
  }

  /** Sorting keeps a list's members. */
  lemma SortMembers(s: seq<string>, cmp: (string, string) -> real)
    ensures forall x :: x in StableSort(s, cmp) <==> x in s
  {
    var r := StableSort(s, cmp);
    forall x ensures x in r <==> x in s {
      assert x in r <==> x in multiset(r);
    }
  }

  lemma StringCompareConsistent()
    ensures Consistent(StringCompare)
  {
    forall a, b ensures StringCompare(a, b) <= 0.0 || StringCompare(b, a) <= 0.0 {
      LexLeTotal(a, b);
    }
    forall a, b, c | StringCompare(a, b) <= 0.0 && StringCompare(b, c) <= 0.0 ensures StringCompare(a, c) <= 0.0 {
      LexLeTransitive(a, b, c);
    }
  }

  /** Sorting keeps a list's elements and their multiplicities. */
  lemma SortKeeps(s: seq<string>, cmp: (string, string) -> real)
    requires Distinct(s)
    ensures Distinct(StableSort(s, cmp))
    ensures forall x :: x in StableSort(s, cmp) <==> x in s
  {
    SortMembers(s, cmp);
  }

  /** The categories are free of repeats, in code-point order, never
      'อื่นๆ', and exactly the other categories the funds carry. */
  lemma CategoriesSpec(funds: seq<Fund>)
    ensures var c := GetUniqueValues(funds).categories;
      && Distinct(c)
      && (forall i, j :: 0 <= i < j < |c| ==> LexLe(c[i], c[j]))
      && Other !in c
      && (forall x :: x in c <==> x != Other && exists f :: f in funds && f.category == x)
  {
    var d := Dedup(Values(funds, CategoryOf));
    var cats := WithoutOther(d);
    assert Distinct(cats) by {
      forall x ensures multiset(cats)[x] <= 1 {
        assert multiset(cats)[x] <= multiset(d)[x];
      }
    }
    SortKeeps(cats, StringCompare);
    StringCompareConsistent();
    StableSortSorted(cats, StringCompare);
    ValuesOf(funds, CategoryOf);
  }

  /** The companies are free of repeats, in code-point order, and exactly
      the companies the funds carry: every fund's company is offered. */
  lemma CompaniesSpec(funds: seq<Fund>)
    ensures var c := GetUniqueValues(funds).companies;
      && Distinct(c)
      && (forall i, j :: 0 <= i < j < |c| ==> LexLe(c[i], c[j]))
      && (forall x :: x in c <==> exists f :: f in funds && f.company == x)
  {
    var comps := Dedup(Values(funds, CompanyOf));
    SortKeeps(comps, StringCompare);
    StringCompareConsistent();
    StableSortSorted(comps, StringCompare);
    ValuesOf(funds, CompanyOf);
  }

  /** The risk labels are free of repeats, in the five-level order (labels
      outside it first), and exactly the labels the funds carry. */
  lemma RisksSpec(funds: seq<Fund>)
    ensures var c := GetUniqueValues(funds).risks;
      && Distinct(c)
      && (forall i, j :: 0 <= i < j < |c| ==> RiskIndex(c[i]) <= RiskIndex(c[j]))
      && (forall x :: x in c <==> exists f :: f in funds && f.risk == x)
  {
    var risks := Dedup(Values(funds, RiskOf));
    SortKeeps(risks, ByRiskOrder);
    StableSortSorted(risks, ByRiskOrder);
    ValuesOf(funds, RiskOf);
  }

  lemma ValuesOf(funds: seq<Fund>, field: Fund -> string)
    ensures forall c :: c in Values(funds, field) <==> exists f :: f in funds && field(f) == c
  {
    forall c ensures c in Values(funds, field) <==> exists f :: f in funds && field(f) == c {
      if c in Values(funds, field) {
        var i :| 0 <= i < |funds| && Values(funds, field)[i] == c;
        assert funds[i] in funds;
      }
      if exists f :: f in funds && field(f) == c {
        var f :| f in funds && field(f) == c;
        var i :| 0 <= i < |funds| && funds[i] == f;
        assert Values(funds, field)[i] == c;
      }
    }
  }
}
