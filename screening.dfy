/** The investment-screening engine of `src/routes/InvestmentScreening.tsx`:
    weighted criteria scoring, then the industry/stage filter and the
    descending sort that the page shows. */
module Screening {
  import opened Js
  import opened Seqs

  datatype Operator = Greater | Less | Equal | Between | Contains
  datatype CriterionCategory = Financial | Market | Team | Product | RiskCategory

  /** A criterion's value: a number in the defaults, text once edited in the form. */
  datatype CriterionValue = Num(n: int) | Text(s: string)

  datatype Criterion = Criterion(
    id: string, name: string, operator: Operator, value: CriterionValue,
    weight: int, category: CriterionCategory)

  datatype RiskLevel = Low | Medium | High

  datatype Company = Company(
    id: string, name: string, industry: string, stage: string,
    revenue: int, growthRate: int, teamSize: int, funding: int, marketSize: int,
    score: int, matchedCriteria: int, totalCriteria: int,
    aiInsights: seq<string>, riskLevel: RiskLevel, founded: int,
    location: string, description: string)

  // The five names the scoring switch recognises.
  const RevenueName := "Doanh Thu Tối Thiểu"
  const GrowthName := "Tăng Trưởng Doanh Thu"
  const MarketName := "Quy Mô Thị Trường"
  const TeamName := "Quy Mô Đội Ngũ"
  const StageName := "Giai Đoạn Phát Triển"

  const DefaultCriteria: seq<Criterion> := [
    Criterion("1", RevenueName, Greater, Num(1000000), 20, Financial),
    Criterion("2", GrowthName, Greater, Num(30), 25, Financial),
    Criterion("3", MarketName, Greater, Num(100000000), 20, Market),
    Criterion("4", TeamName, Greater, Num(10), 15, Team),
    Criterion("5", StageName, Contains, Text("Series A,Series B"), 20, Product)
  ]

  const GreenEnergy := Company(
    "4", "GreenEnergy Innovations", "CleanTech", "Seed",
    800000, 45, 18, 1200000, 450000000, 72, 3, 5,
    ["Công nghệ pin mặt trời hiệu suất cao", "Team có background kỹ thuật mạnh",
     "Cần tăng cường sales & marketing"],
    High, 2022, "Cần Thơ", "Giải pháp năng lượng sạch cho công nghiệp")

  /** `Number(criterion.value)`. */
  function NumberOf(v: CriterionValue): Number {
    match v
    case Num(n) => Finite(n as real)
    case Text(s) => ToNumber(s)
  }

  /** `criterion.value.toString()`. */
  function TextOf(v: CriterionValue): string {
    match v
    case Num(n) => IntToString(n)
    case Text(s) => s
  }

  /** One arm of the scoring switch: chosen by the criterion's name alone. */
  predicate Matches(company: Company, k: Criterion) {
    if k.name == RevenueName then AtLeast(company.revenue, NumberOf(k.value))
    else if k.name == GrowthName then AtLeast(company.growthRate, NumberOf(k.value))
    else if k.name == MarketName then AtLeast(company.marketSize, NumberOf(k.value))
    else if k.name == TeamName then AtLeast(company.teamSize, NumberOf(k.value))
    else if k.name == StageName then company.stage in Split(TextOf(k.value), ',')
    else false
  }

  function MatchTest(company: Company): Criterion -> bool {
    k => Matches(company, k)
  }

  /** The criteria a company meets, in criteria order. */
  function MatchedBy(criteria: seq<Criterion>, company: Company): seq<Criterion> {
    Filter(criteria, MatchTest(company))
  }

  /** Sum of the weights of a list of criteria. */
  function TotalWeight(ks: seq<Criterion>): int
    decreases |ks|
  {
    if ks == [] then 0 else ks[0].weight + TotalWeight(ks[1..])
  }

  lemma {:induction false} TotalWeightAppend(a: seq<Criterion>, b: seq<Criterion>)
    ensures TotalWeight(a + b) == TotalWeight(a) + TotalWeight(b)
    decreases |a|
  {
    if a == [] {
      assert a + b == b;
    } else {
      assert (a + b)[1..] == a[1..] + b;
      TotalWeightAppend(a[1..], b);
    }
  }

  /** One more criterion adds its weight and one match exactly when it passes. */
  lemma ScoreStep(criteria: seq<Criterion>, i: nat, p: Criterion -> bool)
    requires i < |criteria|
    ensures TotalWeight(Filter(criteria[..i + 1], p)) ==
      TotalWeight(Filter(criteria[..i], p)) + (if p(criteria[i]) then criteria[i].weight else 0)
    ensures |Filter(criteria[..i + 1], p)| == |Filter(criteria[..i], p)| + (if p(criteria[i]) then 1 else 0)
  {
    FilterSnoc(criteria, i, p);
    TotalWeightAppend(Filter(criteria[..i], p), if p(criteria[i]) then [criteria[i]] else []);
  }

  /** The `forEach` over the criteria: every criterion that passes `matches`
      adds its weight to the score and one to the count. */
  method Accumulate(criteria: seq<Criterion>, matches: Criterion -> bool) returns (score: int, matched: int)
    ensures score == TotalWeight(Filter(criteria, matches))
    ensures matched == |Filter(criteria, matches)|
  {
    score, matched := 0, 0;
    var i := 0;
    while i < |criteria|
      invariant 0 <= i <= |criteria|
      invariant score == TotalWeight(Filter(criteria[..i], matches))
      invariant matched == |Filter(criteria[..i], matches)|
    {
      var hit := matches(criteria[i]);
      if hit {
        score := score + criteria[i].weight;
        matched := matched + 1;
      }
      assert score == TotalWeight(Filter(criteria[..i + 1], matches))
          && matched == |Filter(criteria[..i + 1], matches)| by {
        ScoreStep(criteria, i, matches);
      }
      i := i + 1;
    }
    assert criteria[..i] == criteria;
  }

  /** The scoring of one company: the score is the total weight of the
      criteria it meets, the count is how many. */
  method ScoreCompany(company: Company, criteria: seq<Criterion>) returns (score: int, matched: int)
    ensures score == TotalWeight(MatchedBy(criteria, company))
    ensures matched == |MatchedBy(criteria, company)|
  {
    score, matched := Accumulate(criteria, MatchTest(company));
  }

  /** A company after screening: score, matched count and criteria count
      replaced, every other field as it was. */
  function Rescored(company: Company, criteria: seq<Criterion>): Company {
    company.(
      score := TotalWeight(MatchedBy(criteria, company)),
      matchedCriteria := |MatchedBy(criteria, company)|,
      totalCriteria := |criteria|)
  }

  /** `runScreening`'s `companies.map(...)`: one rescored company per company, in order. */
  method RunScreening(companies: seq<Company>, criteria: seq<Criterion>) returns (updated: seq<Company>)
    ensures |updated| == |companies|
    ensures forall i :: 0 <= i < |companies| ==> updated[i] == Rescored(companies[i], criteria)
  {
    updated := [];
    var i := 0;
    while i < |companies|
      invariant 0 <= i <= |companies|
      invariant |updated| == i
      invariant forall j :: 0 <= j < i ==> updated[j] == Rescored(companies[j], criteria)
    {
      var score, matched := ScoreCompany(companies[i], criteria);
      updated := updated + [companies[i].(score := score, matchedCriteria := matched,
                                          totalCriteria := |criteria|)];
      i := i + 1;
    }
  }

  /** Screening touches only the three score fields. */
  lemma RescoredKeepsOtherFields(company: Company, criteria: seq<Criterion>)
    ensures Rescored(company, criteria).(score := company.score,
      matchedCriteria := company.matchedCriteria, totalCriteria := company.totalCriteria) == company
  {
  }

  /** The matched count never exceeds the number of criteria. */
  lemma MatchedAtMostTotal(company: Company, criteria: seq<Criterion>)
    ensures 0 <= Rescored(company, criteria).matchedCriteria <= Rescored(company, criteria).totalCriteria
  {
  }

  /** With non-negative weights the score lies between 0 and the sum of all weights. */
  lemma {:induction false} MatchedWeightBounds(criteria: seq<Criterion>, p: Criterion -> bool)
    requires forall i :: 0 <= i < |criteria| ==> criteria[i].weight >= 0
    ensures 0 <= TotalWeight(Filter(criteria, p)) <= TotalWeight(criteria)
    decreases |criteria|
  {
    if criteria != [] {
      MatchedWeightBounds(criteria[1..], p);
      if p(criteria[0]) {
        assert Filter(criteria, p) == [criteria[0]] + Filter(criteria[1..], p);
        assert Filter(criteria, p)[1..] == Filter(criteria[1..], p);
      }
    }
  }

  lemma DefaultWeightsSumTo100()
    ensures TotalWeight(DefaultCriteria) == 100
  {
    var d := DefaultCriteria;
    assert d[4..][1..] == [];
    assert TotalWeight(d[4..]) == 20;
    assert d[3..][1..] == d[4..];
    assert d[2..][1..] == d[3..];
    assert TotalWeight(d[3..]) == 35;
    assert d[2..][1..] == d[3..];
    assert TotalWeight(d[2..]) == 55;
    assert d[1..][1..] == d[2..];
    assert TotalWeight(d[1..]) == 80;
  }

  /** Under the default criteria every score lies in [0, 100]. */
  lemma DefaultScoreRange(company: Company)
    ensures 0 <= Rescored(company, DefaultCriteria).score <= 100
  {
    MatchedWeightBounds(DefaultCriteria, MatchTest(company));
    DefaultWeightsSumTo100();
  }

  /** The criterion's operator plays no part in matching. */
  lemma OperatorIgnored(company: Company, k: Criterion, op: Operator)
    ensures Matches(company, k.(operator := op)) == Matches(company, k)
  {
  }

  /** A criterion under any other name (one renamed in the form, say) never matches. */
  lemma UnknownNameNeverMatches(company: Company, k: Criterion)
    requires k.name !in {RevenueName, GrowthName, MarketName, TeamName, StageName}
    ensures !Matches(company, k)
  {
  }

  /** The stage criterion holds exactly when the stage equals one of the pieces
      of the comma-separated list, untrimmed. */
  lemma StageCriterionIff(company: Company, k: Criterion)
    requires k.name == StageName
    ensures Matches(company, k) <==>
      exists j :: 0 <= j < |Split(TextOf(k.value), ',')| && Split(TextOf(k.value), ',')[j] == company.stage
  {
  }

  /** The default stage list splits into its two stages. */
  lemma DefaultStageList()
    ensures Split("Series A,Series B", ',') == ["Series A", "Series B"]
  {
    var parts := ["Series A", "Series B"];
    assert Join(parts, ',') == "Series A,Series B";
    SplitJoin(parts, ',');
  }

  /** Pieces are not trimmed: a space after the comma stays in the second piece. */
  lemma SpacedStageList()
    ensures Split("Series A, Series B", ',') == ["Series A", " Series B"]
  {
    var spaced := ["Series A", " Series B"];
    assert Join(spaced, ',') == "Series A, Series B";
    SplitJoin(spaced, ',');
  }

  lemma GreenEnergyRevenueBelow() ensures !Matches(GreenEnergy, DefaultCriteria[0]) {}
  lemma GreenEnergyGrowthMet() ensures Matches(GreenEnergy, DefaultCriteria[1]) {}
  lemma GreenEnergyMarketMet() ensures Matches(GreenEnergy, DefaultCriteria[2]) {}
  lemma GreenEnergyTeamMet() ensures Matches(GreenEnergy, DefaultCriteria[3]) {}
  lemma GreenEnergyStageMissed() ensures !Matches(GreenEnergy, DefaultCriteria[4]) { DefaultStageList(); }
  lemma GreenEnergyMatches()
    ensures !Matches(GreenEnergy, DefaultCriteria[0])
    ensures Matches(GreenEnergy, DefaultCriteria[1])
    ensures Matches(GreenEnergy, DefaultCriteria[2])
    ensures Matches(GreenEnergy, DefaultCriteria[3])
    ensures !Matches(GreenEnergy, DefaultCriteria[4])
  {
    GreenEnergyRevenueBelow();
    GreenEnergyGrowthMet();
    GreenEnergyMarketMet();
    GreenEnergyTeamMet();
    GreenEnergyStageMissed();
  }

  /** GreenEnergy Innovations meets growth, market size and team size but not
      revenue or stage: 25 + 20 + 15 = 60 with 3 of 5 matched. */
  lemma GreenEnergyScreening()
    ensures TotalWeight(MatchedBy(DefaultCriteria, GreenEnergy)) == 60
    ensures |MatchedBy(DefaultCriteria, GreenEnergy)| == 3
  {
    GreenEnergyMatches();
    MiddleThreeMatched(DefaultCriteria, GreenEnergy);
    MiddleThreeWeight();
  }

  /** Growth, market size and team size weigh 25 + 20 + 15. */
  lemma MiddleThreeWeight()
    ensures TotalWeight([DefaultCriteria[1], DefaultCriteria[2], DefaultCriteria[3]]) == 60
  {
    var d := DefaultCriteria;
    assert d[1].weight == 25 && d[2].weight == 20 && d[3].weight == 15;
    var m := [d[1], d[2], d[3]];
    assert m[1..] == [d[2], d[3]];
    assert m[1..][1..] == [d[3]];
    assert TotalWeight([d[3]]) == 15;
    assert TotalWeight([d[2], d[3]]) == 35;
  }

  /** The seed row shows 72, but a screening run with the defaults recomputes 60. */
  lemma GreenEnergyRow()
    ensures var r := Rescored(GreenEnergy, DefaultCriteria);
      GreenEnergy.score == 72 && r.score == 60 && r.matchedCriteria == 3 && r.totalCriteria == 5
  {
    GreenEnergyScreening();
  }

  lemma MiddleThreeMatched(d: seq<Criterion>, c: Company)
    requires |d| == 5 && !Matches(c, d[0]) && Matches(c, d[1]) && Matches(c, d[2])
    requires Matches(c, d[3]) && !Matches(c, d[4])
    ensures MatchedBy(d, c) == [d[1], d[2], d[3]]
  {
    var p := MatchTest(c);
    assert d[4..] == [d[4]] && Filter(d[4..], p) == [];
    assert d[3..][1..] == d[4..];
    assert Filter(d[3..], p) == [d[3]];
    assert d[2..][1..] == d[3..];
    assert Filter(d[2..], p) == [d[2], d[3]];
    assert d[1..][1..] == d[2..];
    assert Filter(d[1..], p) == [d[1], d[2], d[3]];
  }

  // ------------------------------------------------------------ filter and sort

  const AllIndustries := "Tất cả ngành"
  const AllStages := "Tất cả giai đoạn"

  datatype SortKey = ByScore | ByRevenue | ByGrowth

  function Key(c: Company, key: SortKey): int {
    match key
    case ByScore => c.score
    case ByRevenue => c.revenue
    case ByGrowth => c.growthRate
  }

  /** The industry filter (unless "all industries"), then the stage filter
      (unless "all stages"). */
  function Select(companies: seq<Company>, industry: string, stage: string): seq<Company> {
    var byIndustry := if industry != AllIndustries then Filter(companies, (c: Company) => c.industry == industry) else companies;
    if stage != AllStages then Filter(byIndustry, (c: Company) => c.stage == stage) else byIndustry
  }

  lemma SelectIff(companies: seq<Company>, industry: string, stage: string)
    ensures IsSubsequence(Select(companies, industry, stage), companies)
    ensures forall i :: 0 <= i < |companies| ==>
      (companies[i] in Select(companies, industry, stage) <==>
        (industry == AllIndustries || companies[i].industry == industry) &&
        (stage == AllStages || companies[i].stage == stage))
  {
    var byIndustry := if industry != AllIndustries then Filter(companies, (c: Company) => c.industry == industry) else companies;
    if industry != AllIndustries {
      FilterIsSubsequence(companies, (c: Company) => c.industry == industry);
    } else {
      IsSubsequenceRefl(companies);
    }
    if stage != AllStages {
      FilterIsSubsequence(byIndustry, (c: Company) => c.stage == stage);
      IsSubsequenceTrans(Select(companies, industry, stage), byIndustry, companies);
    }
  }
  /** A selected company appears as many times as in `companies`, any other not at all. */
  lemma SelectCounts(companies: seq<Company>, industry: string, stage: string)
    ensures forall c :: (multiset(Select(companies, industry, stage))[c] ==
      if (industry == AllIndustries || c.industry == industry) && (stage == AllStages || c.stage == stage)
      then multiset(companies)[c] else 0)
  {
    var byIndustry := if industry != AllIndustries then Filter(companies, (c: Company) => c.industry == industry) else companies;
    if industry != AllIndustries {
      FilterMultiset(companies, (c: Company) => c.industry == industry);
    }
    if stage != AllStages {
      FilterMultiset(byIndustry, (c: Company) => c.stage == stage);
    }
  }


  predicate SortedDesc(s: seq<Company>, key: SortKey) {
    forall i, j :: 0 <= i < j < |s| ==> Key(s[i], key) >= Key(s[j], key)
  }

  /** Places `x` before the first element whose key is not larger, so that
      equal keys keep their original order (`InsertStable`). */
  function Insert(x: Company, s: seq<Company>, key: SortKey): (r: seq<Company>)
    ensures |r| == |s| + 1
    ensures multiset(r) == multiset(s) + multiset{x}
    ensures r[0] == x || (s != [] && r[0] == s[0])
    decreases |s|
  {
    if s == [] || Key(s[0], key) <= Key(x, key) then [x] + s
    else
      assert s == [s[0]] + s[1..];
      [s[0]] + Insert(x, s[1..], key)
  }

  predicate AllAtMost(s: seq<Company>, key: SortKey, v: int) {
    forall j :: 0 <= j < |s| ==> Key(s[j], key) <= v
  }

  lemma {:induction false} InsertAtMost(x: Company, s: seq<Company>, key: SortKey, v: int)
    requires AllAtMost(s, key, v) && Key(x, key) <= v
    ensures AllAtMost(Insert(x, s, key), key, v)
    decreases |s|
  {
    if s != [] && Key(s[0], key) > Key(x, key) {
      InsertAtMost(x, s[1..], key, v);
      assert Insert(x, s, key) == [s[0]] + Insert(x, s[1..], key);
    }
  }

  /** A head no smaller than every key of a sorted tail gives a sorted sequence. */
  lemma SortedCons(h: Company, t: seq<Company>, key: SortKey)
    requires SortedDesc(t, key) && AllAtMost(t, key, Key(h, key))
    ensures SortedDesc([h] + t, key)
  {
    var r := [h] + t;
    forall i, j | 0 <= i < j < |r| ensures Key(r[i], key) >= Key(r[j], key) {
      assert r[j] == t[j - 1];
      if i > 0 {
        assert r[i] == t[i - 1];
      }
    }
  }

  lemma {:induction false} InsertSorted(x: Company, s: seq<Company>, key: SortKey)
    requires SortedDesc(s, key)
    ensures SortedDesc(Insert(x, s, key), key)
    decreases |s|
  {
    if s == [] || Key(s[0], key) <= Key(x, key) {
      assert AllAtMost(s, key, Key(x, key)) by {
        forall j | 0 <= j < |s| ensures Key(s[j], key) <= Key(x, key) {
          assert Key(s[j], key) <= Key(s[0], key);
        }
      }
      SortedCons(x, s, key);
    } else {
      var tail := s[1..];
      assert SortedDesc(tail, key);
      InsertSorted(x, tail, key);
      assert AllAtMost(tail, key, Key(s[0], key)) by {
        forall j | 0 <= j < |tail| ensures Key(tail[j], key) <= Key(s[0], key) {
          assert tail[j] == s[j + 1];
        }
      }
      InsertAtMost(x, tail, key, Key(s[0], key));
      SortedCons(s[0], Insert(x, tail, key), key);
    }
  }

  /** The order `filtered.sort(...)` leaves: keys non-increasing, equal keys
      in their original order (`SortStable`). */
  function SortDesc(s: seq<Company>, key: SortKey): (r: seq<Company>)
    ensures multiset(r) == multiset(s)
    ensures SortedDesc(r, key)
    decreases |s|
  {
    if s == [] then []
    else
      assert s == [s[0]] + s[1..];
      var sorted := SortDesc(s[1..], key);
      InsertSorted(s[0], sorted, key);
      Insert(s[0], sorted, key)
  }

  /** The companies whose key is `v`. */
  function KeyIs(key: SortKey, v: int): Company -> bool {
    (c: Company) => Key(c, key) == v
  }

  /** Insertion puts `x` in front of every element with the same key and
      leaves the order among the others alone. */
  lemma {:induction false} InsertStable(x: Company, s: seq<Company>, key: SortKey, v: int)
    ensures Filter(Insert(x, s, key), KeyIs(key, v))
         == (if Key(x, key) == v then [x] else []) + Filter(s, KeyIs(key, v))
    decreases |s|
  {
    var p := KeyIs(key, v);
    if s == [] || Key(s[0], key) <= Key(x, key) {
      FilterCons(x, s, p);
    } else {
      InsertStable(x, s[1..], key, v);
      FilterCons(s[0], Insert(x, s[1..], key), p);
      FilterCons(s[0], s[1..], p);
      assert [s[0]] + s[1..] == s;
    }
  }

  /** The sort is stable: for every key value, the companies with that key
      come out in the order they went in. */
  lemma {:induction false} SortStable(s: seq<Company>, key: SortKey, v: int)
    ensures Filter(SortDesc(s, key), KeyIs(key, v)) == Filter(s, KeyIs(key, v))
    decreases |s|
  {
    if s != [] {
      SortStable(s[1..], key, v);
      InsertStable(s[0], SortDesc(s[1..], key), key, v);
    }
  }

  /** Writes the sorted order back into the same array, as `Array.prototype.sort` does. */
  method SortInPlace(a: array<Company>, key: SortKey)
    modifies a
    ensures a[..] == SortDesc(old(a[..]), key)
  {
    var sorted := SortDesc(a[..], key);
    assert |sorted| == a.Length by {
      assert |multiset(sorted)| == |multiset(a[..])|;
    }
    var i := 0;
    while i < a.Length
      invariant 0 <= i <= a.Length
      invariant forall j :: 0 <= j < i ==> a[j] == sorted[j]
    {
      a[i] := sorted[i];
      i := i + 1;
    }
  }

  predicate NoFilter(industry: string, stage: string) {
    industry == AllIndustries && stage == AllStages
  }

  /** The page's effect: select, then sort. When neither filter applies the
      shown list IS the `companies` array, so the sort reorders it; otherwise
      `filter` made a new array and `companies` is left alone. */
  method ApplyView(companies: array<Company>, industry: string, stage: string, key: SortKey)
    returns (shown: array<Company>)
    modifies companies
    ensures shown[..] == SortDesc(Select(old(companies[..]), industry, stage), key)
    ensures NoFilter(industry, stage) ==> shown == companies
    ensures !NoFilter(industry, stage) ==> fresh(shown) && companies[..] == old(companies[..])
  {
    if NoFilter(industry, stage) {
      shown := companies;
    } else {
      var selected := Select(companies[..], industry, stage);
      shown := new Company[|selected|](j requires 0 <= j < |selected| => selected[j]);
      assert shown[..] == selected;
    }
    SortInPlace(shown, key);
  }
}
