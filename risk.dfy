/** The overall risk score, its band and the risk-card selection of
    `src/components/RiskManagement.tsx`. */
module Risk {
  import opened Js

  datatype RiskFactor = RiskFactor(name: string, value: int, severity: string, description: string)

  const RiskFactors: seq<RiskFactor> := [
    RiskFactor("Market Risk", 35, "High", "Economic downturn exposure"),
    RiskFactor("Operational Risk", 25, "Medium", "Execution and management risk"),
    RiskFactor("Financial Risk", 20, "Medium", "Leverage and liquidity concerns"),
    RiskFactor("Regulatory Risk", 15, "Low", "Compliance and policy changes"),
    RiskFactor("Technology Risk", 5, "Low", "Digital transformation risk")
  ]

  datatype CompanyRisk = CompanyRisk(name: string, riskScore: int)

  const CompanyRisks: seq<CompanyRisk> := [
    CompanyRisk("Acme HealthTech", 75),
    CompanyRisk("FinanceAI Corp", 45),
    CompanyRisk("CloudifyPro", 60)
  ]

  /** High weighs 3, Medium 2, any other severity 1. */
  function Multiplier(severity: string): int {
    if severity == "High" then 3 else if severity == "Medium" then 2 else 1
  }

  /** The `reduce`: the severity-weighted sum of the factor values. */
  function WeightedSum(fs: seq<RiskFactor>): int
    decreases |fs|
  {
    if fs == [] then 0 else fs[0].value * Multiplier(fs[0].severity) + WeightedSum(fs[1..])
  }

  /** `overallRiskScore`: the weighted sum divided by 3, rounded half up. */
  function OverallRiskScore(fs: seq<RiskFactor>): int {
    Round(WeightedSum(fs) as real / 3.0)
  }

  /** Rounding a third half up is integer division of the successor by 3. */
  lemma RoundThird(n: int)
    ensures Round(n as real / 3.0) == (n + 1) / 3
  {
    var k := Round(n as real / 3.0);
    assert k as real - 0.5 <= n as real / 3.0 < k as real + 0.5;
    assert 3.0 * (k as real) - 1.5 <= n as real < 3.0 * (k as real) + 1.5;
    assert 3 * k - 1 <= n <= 3 * k + 1;
  }

  lemma OverallIsSuccessorThird(fs: seq<RiskFactor>)
    ensures OverallRiskScore(fs) == (WeightedSum(fs) + 1) / 3
  {
    RoundThird(WeightedSum(fs));
  }

  datatype Band = LowRisk | MediumRisk | HighRisk

  /** The badge under the score, and the colour of a company's risk bar. */
  function BandOf(score: int): Band {
    if score >= 70 then HighRisk else if score >= 40 then MediumRisk else LowRisk
  }

  function BandLabel(b: Band): string {
    match b
    case HighRisk => "High Risk"
    case MediumRisk => "Medium Risk"
    case LowRisk => "Low Risk"
  }

  function Rank(b: Band): int {
    match b
    case LowRisk => 0
    case MediumRisk => 1
    case HighRisk => 2
  }

  /** The bands as intervals: [70, ∞), [40, 70) and below 40; a higher score
      never lands in a lower band. */
  lemma BandIntervals(a: int, b: int)
    ensures BandOf(a) == HighRisk <==> a >= 70
    ensures BandOf(a) == MediumRisk <==> 40 <= a < 70
    ensures BandOf(a) == LowRisk <==> a < 40
    ensures a <= b ==> Rank(BandOf(a)) <= Rank(BandOf(b))
  {
  }

  /** The sample factors weigh 215, score 72 and read "High Risk". */
  lemma SampleScore()
    ensures WeightedSum(RiskFactors) == 215
    ensures OverallRiskScore(RiskFactors) == 72
    ensures BandLabel(BandOf(OverallRiskScore(RiskFactors))) == "High Risk"
  {
    var fs := RiskFactors;
    assert Multiplier(fs[0].severity) == 3;
    assert Multiplier(fs[1].severity) == 2 && Multiplier(fs[2].severity) == 2;
    assert Multiplier(fs[3].severity) == 1 && Multiplier(fs[4].severity) == 1;
    assert fs[4..][1..] == [];
    assert fs[3..][1..] == fs[4..];
    assert fs[2..][1..] == fs[3..];
    assert fs[1..][1..] == fs[2..];
    assert WeightedSum(fs[4..]) == 5;
    assert WeightedSum(fs[3..]) == 20;
    assert WeightedSum(fs[2..]) == 60;
    assert WeightedSum(fs[1..]) == 110;
    OverallIsSuccessorThird(fs);
  }

  /** The colour class of a company's risk bar. */
  datatype BarColour = Red | Yellow | Green

  /** The bar's class: red from 70, yellow from 40, green below. */
  function BarColourOf(score: int): BarColour {
    if score >= 70 then Red else if score >= 40 then Yellow else Green
  }

  /** The bar colour and the band of a score always agree. */
  lemma BarFollowsBand(score: int)
    ensures BarColourOf(score) == Red <==> BandOf(score) == HighRisk
    ensures BarColourOf(score) == Yellow <==> BandOf(score) == MediumRisk
    ensures BarColourOf(score) == Green <==> BandOf(score) == LowRisk
  {
  }

  /** The company bars: Acme HealthTech red, the other two yellow. */
  lemma CompanyBars()
    ensures BarColourOf(CompanyRisks[0].riskScore) == Red
    ensures BarColourOf(CompanyRisks[1].riskScore) == Yellow
    ensures BarColourOf(CompanyRisks[2].riskScore) == Yellow
  {
  }

  /** The company scores 75, 45 and 60 fall in the High, Medium and Medium bands. */
  lemma CompanyBands()
    ensures BandOf(CompanyRisks[0].riskScore) == HighRisk
    ensures BandOf(CompanyRisks[1].riskScore) == MediumRisk
    ensures BandOf(CompanyRisks[2].riskScore) == MediumRisk
  {
  }

  /** A click on a risk card: the selected card is deselected, any other is selected. */
  function ClickRisk(selected: Option<string>, name: string): (r: Option<string>)
    ensures r == Some(name) <==> selected != Some(name)
    ensures r.None? <==> selected == Some(name)
  {
    if selected == Some(name) then None else Some(name)
  }

  /** Two clicks on the same card restore the selection when it was empty or that card. */
  lemma ClickTwice(selected: Option<string>, name: string)
    requires selected == None || selected == Some(name)
    ensures ClickRisk(ClickRisk(selected, name), name) == selected
  {
  }
}
