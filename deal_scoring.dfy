/** The deal score card of `src/components/DealScoring.tsx`: sector and round
    lookups, the score formulas and the recommendation thresholds. Arithmetic
    is on exact reals. */
module DealScoring {
  import opened Js

  datatype ScoredDeal = ScoredDeal(name: string, sector: string, revenue: real, growthRate: real, round: string)

  datatype Recommendation = StrongBuy | Buy | Hold | Pass

  datatype DealScore = DealScore(
    overall: int, market: int, financial: int, team: int, risk: int, recommendation: Recommendation)

  /** The sector lookup, 0.7 for any sector not in the table. */
  function SectorMultiplier(sector: string): real {
    if sector == "Healthcare" then 0.9
    else if sector == "FinTech" then 0.95
    else if sector == "AI/ML" then 1.0
    else if sector == "SaaS" then 0.85
    else if sector == "E-commerce" then 0.8
    else 0.7
  }

  /** The round lookup, 50 for any round not in the table. */
  function RoundScore(round: string): int {
    if round == "Seed" then 60
    else if round == "Series A" then 75
    else if round == "Series B" then 85
    else if round == "Series C" then 90
    else if round == "Growth" then 95
    else 50
  }

  function Min(a: real, b: real): real {
    if a <= b then a else b
  }

  function Market(sector: string): int {
    Round(SectorMultiplier(sector) * 100.0)
  }

  /** The mean of the capped revenue score (revenue / 50 × 100) and the
      capped growth score (growth × 2), rounded. */
  function Financial(revenue: real, growthRate: real): int {
    Round((Min(revenue / 50.0 * 100.0, 100.0) + Min(growthRate * 2.0, 100.0)) / 2.0)
  }

  /** The simulated team score for a random draw `r`. */
  function Team(r: real): int {
    Round(70.0 + r * 30.0)
  }

  /** `risk` before it is stored. */
  function RawRisk(financial: int, market: int, team: int): int {
    Round(100.0 - (financial as real * 0.3 + market as real * 0.2 + team as real * 0.2))
  }

  function Overall(market: int, financial: int, team: int, risk: int): int {
    Round((market as real + financial as real + team as real - risk as real / 2.0) / 3.0)
  }

  function RecommendationFor(overall: int): Recommendation {
    if overall >= 85 then StrongBuy
    else if overall >= 70 then Buy
    else if overall >= 55 then Hold
    else Pass
  }

  function RecommendationLabel(rec: Recommendation): string {
    match rec
    case StrongBuy => "Strong Buy"
    case Buy => "Buy"
    case Hold => "Hold"
    case Pass => "Pass"
  }

  function Rank(rec: Recommendation): int {
    match rec
    case Pass => 0
    case Hold => 1
    case Buy => 2
    case StrongBuy => 3
  }

  /** The score stored by the timer callback for the random draw `r`; the
      stored risk is 100 minus the computed risk. */
  function Score(deal: ScoredDeal, r: real): DealScore {
    var market := Market(deal.sector);
    var financial := Financial(deal.revenue, deal.growthRate);
    var team := Team(r);
    var risk := RawRisk(financial, market, team);
    var overall := Overall(market, financial, team, risk);
    DealScore(overall, market, financial, team, 100 - risk, RecommendationFor(overall))
  }

  /** The thresholds as intervals, and a higher overall never gets a weaker call. */
  lemma RecommendationThresholds(a: int, b: int)
    ensures RecommendationFor(a) == StrongBuy <==> a >= 85
    ensures RecommendationFor(a) == Buy <==> 70 <= a < 85
    ensures RecommendationFor(a) == Hold <==> 55 <= a < 70
    ensures RecommendationFor(a) == Pass <==> a < 55
    ensures a <= b ==> Rank(RecommendationFor(a)) <= Rank(RecommendationFor(b))
  {
  }

  lemma RoundTable(round: string)
    ensures RoundScore("Seed") == 60 && RoundScore("Series A") == 75 && RoundScore("Series B") == 85
    ensures RoundScore("Series C") == 90 && RoundScore("Growth") == 95
    ensures round !in {"Seed", "Series A", "Series B", "Series C", "Growth"} ==> RoundScore(round) == 50
  {
  }

  /** The market scores of the listed sectors, and 70 for any other. */
  lemma MarketTable(sector: string)
    ensures Market("Healthcare") == 90 && Market("FinTech") == 95 && Market("AI/ML") == 100
    ensures Market("SaaS") == 85 && Market("E-commerce") == 80
    ensures sector !in {"Healthcare", "FinTech", "AI/ML", "SaaS", "E-commerce"} ==> Market(sector) == 70
    ensures 70 <= Market(sector) <= 100
  {
  }

  /** Both halves are capped at 100, so the financial score is too; with
      non-negative inputs it is non-negative. */
  lemma FinancialBounds(revenue: real, growthRate: real)
    ensures Financial(revenue, growthRate) <= 100
    ensures revenue >= 0.0 && growthRate >= 0.0 ==> Financial(revenue, growthRate) >= 0
  {
  }

  /** For a draw in [0, 1) the team score lies in [70, 100]. */
  lemma TeamRange(r: real)
    requires 0.0 <= r < 1.0
    ensures 70 <= Team(r) <= 100
  {
  }

  /** The round lookup plays no part in the score: changing a deal's round
      changes nothing. */
  lemma ScoreIgnoresRound(deal: ScoredDeal, round: string, r: real)
    ensures Score(deal.(round := round), r) == Score(deal, r)
  {
  }

  /** For a non-negative deal and a draw in [0, 1), every stored number lies in [0, 100]. */
  lemma ScoreBounds(deal: ScoredDeal, r: real)
    requires deal.revenue >= 0.0 && deal.growthRate >= 0.0
    requires 0.0 <= r < 1.0
    ensures var s := Score(deal, r);
      0 <= s.financial <= 100 && 70 <= s.market <= 100 && 70 <= s.team <= 100 &&
      0 <= s.risk <= 100 && 0 <= s.overall <= 100
  {
    var market := Market(deal.sector);
    var financial := Financial(deal.revenue, deal.growthRate);
    var team := Team(r);
    MarketTable(deal.sector);
    FinancialBounds(deal.revenue, deal.growthRate);
    TeamRange(r);
    var risk := RawRisk(financial, market, team);
    assert 30 <= risk <= 72;
  }

  /** The card's state: the last score (none at first) and the spinner flag. */
  class DealScoringCard {
    var score: Option<DealScore>
    var loading: bool

    constructor ()
      ensures score == None && !loading
    {
      score := None;
      loading := false;
    }

    /** `calculateScore` before its delay. */
    method BeginScoring()
      modifies this
      ensures loading && score == old(score)
    {
      loading := true;
    }

    /** The timer callback: the score is stored and the spinner stops. */
    method FinishScoring(deal: ScoredDeal, r: real)
      modifies this
      ensures score == Some(Score(deal, r)) && !loading
    {
      score := Some(Score(deal, r));
      loading := false;
    }

    /** The effect on a new deal: scoring runs only for a deal with a name. */
    method OnDeal(deal: ScoredDeal, r: real)
      modifies this
      ensures deal.name == "" ==> score == old(score) && loading == old(loading)
      ensures deal.name != "" ==> score == Some(Score(deal, r)) && !loading
    {
      if deal.name != "" {
        BeginScoring();
        FinishScoring(deal, r);
      }
    }
  }
}
