/** The mock deal listing `GET /` of `server/routes/deals.ts`. */
module DealsRoute {
  import opened Js
  import opened Seqs

  /** The `Deal` record shape. */
  datatype Deal = Deal(
    id: string, name: string, sector: string, round: string, revenue: int, geo: string, leadScore: int)

  const MockDeals: seq<Deal> := [
    Deal("1", "Acme Health", "Healthcare", "Series A", 12, "US", 88),
    Deal("2", "FinTechX", "Finance", "Seed", 2, "EU", 75),
    Deal("3", "Cloudify", "Tech", "Growth", 30, "US", 92)
  ]

  /** The query string; a parameter is None when it is absent. */
  datatype Query = Query(
    sector: Option<string>, round: Option<string>, revenueMin: Option<string>, geo: Option<string>)

  const NoQuery := Query(None, None, None, None)

  /** The handler's successive rebindings of `results`: sector, round, geo
      (all exact equality), then the numeric minimum. */
  function Results(q: Query): seq<Deal> {
    Chain(q, MockDeals)
  }

  function Chain(q: Query, deals: seq<Deal>): seq<Deal> {
    ByRevenue(q, ByGeo(q, ByRound(q, BySector(q, deals))))
  }

  /** `if (sector) results = results.filter(d => d.sector === sector)` */
  function BySector(q: Query, s: seq<Deal>): seq<Deal> {
    if Truthy(q.sector) then Filter(s, (d: Deal) => d.sector == q.sector.value) else s
  }

  /** `if (round) results = results.filter(d => d.round === round)` */
  function ByRound(q: Query, s: seq<Deal>): seq<Deal> {
    if Truthy(q.round) then Filter(s, (d: Deal) => d.round == q.round.value) else s
  }

  /** `if (geo) results = results.filter(d => d.geo === geo)` */
  function ByGeo(q: Query, s: seq<Deal>): seq<Deal> {
    if Truthy(q.geo) then Filter(s, (d: Deal) => d.geo == q.geo.value) else s
  }

  /** `if (revenueMin) results = results.filter(d => d.revenue >= Number(revenueMin))` */
  function ByRevenue(q: Query, s: seq<Deal>): seq<Deal> {
    if Truthy(q.revenueMin) then Filter(s, (d: Deal) => AtLeast(d.revenue, ToNumber(q.revenueMin.value))) else s
  }

  predicate SectorOk(q: Query, d: Deal) { !Truthy(q.sector) || d.sector == q.sector.value }
  predicate RoundOk(q: Query, d: Deal) { !Truthy(q.round) || d.round == q.round.value }
  predicate GeoOk(q: Query, d: Deal) { !Truthy(q.geo) || d.geo == q.geo.value }
  predicate RevenueOk(q: Query, d: Deal) {
    !Truthy(q.revenueMin) || AtLeast(d.revenue, ToNumber(q.revenueMin.value))
  }

  function SectorTest(q: Query): Deal -> bool { d => SectorOk(q, d) }
  function RoundTest(q: Query): Deal -> bool { d => RoundOk(q, d) }
  function GeoTest(q: Query): Deal -> bool { d => GeoOk(q, d) }
  function RevenueTest(q: Query): Deal -> bool { d => RevenueOk(q, d) }
  function AcceptsTest(q: Query): Deal -> bool { d => Accepts(q, d) }

  /** The conjunction of every supplied parameter's test. A non-numeric
      `revenueMin` fails every deal, because `>=` with NaN is false. */
  predicate Accepts(q: Query, d: Deal) {
    SectorOk(q, d) && RoundOk(q, d) && GeoOk(q, d) && RevenueOk(q, d)
  }

  lemma SectorStep(q: Query, s: seq<Deal>)
    ensures BySector(q, s)
         == Filter(s, SectorTest(q))
  {
    if Truthy(q.sector) {
      FilterExtensional(s, (d: Deal) => d.sector == q.sector.value, SectorTest(q));
    } else {
      FilterKeepsAll(s, SectorTest(q));
    }
  }

  lemma RoundStep(q: Query, s: seq<Deal>)
    ensures ByRound(q, s)
         == Filter(s, RoundTest(q))
  {
    if Truthy(q.round) {
      FilterExtensional(s, (d: Deal) => d.round == q.round.value, RoundTest(q));
    } else {
      FilterKeepsAll(s, RoundTest(q));
    }
  }

  lemma GeoStep(q: Query, s: seq<Deal>)
    ensures ByGeo(q, s)
         == Filter(s, GeoTest(q))
  {
    if Truthy(q.geo) {
      FilterExtensional(s, (d: Deal) => d.geo == q.geo.value, GeoTest(q));
    } else {
      FilterKeepsAll(s, GeoTest(q));
    }
  }

  lemma RevenueStep(q: Query, s: seq<Deal>)
    ensures ByRevenue(q, s)
         == Filter(s, RevenueTest(q))
  {
    if Truthy(q.revenueMin) {
      FilterExtensional(s, (d: Deal) => AtLeast(d.revenue, ToNumber(q.revenueMin.value)), RevenueTest(q));
    } else {
      FilterKeepsAll(s, RevenueTest(q));
    }
  }

  /** The chain of filters is one filter by the conjunction, whatever it is applied to. */
  lemma ChainIsConjunction(q: Query, deals: seq<Deal>)
    ensures Chain(q, deals) == Filter(deals, AcceptsTest(q))
  {
    var r1 := BySector(q, deals);
    var r2 := ByRound(q, r1);
    var r3 := ByGeo(q, r2);
    SectorStep(q, deals);
    RoundStep(q, r1);
    GeoStep(q, r2);
    RevenueStep(q, r3);
    var p1 := SectorTest(q);
    var p2 := RoundTest(q);
    var p3 := GeoTest(q);
    var p4 := RevenueTest(q);
    assert Chain(q, deals) == Filter(Filter(Filter(Filter(deals, p1), p2), p3), p4);
    FilterFilter4(deals, p1, p2, p3, p4, AcceptsTest(q));
  }

  lemma ResultsAreConjunction(q: Query)
    ensures Results(q) == Filter(MockDeals, AcceptsTest(q))
  {
    ChainIsConjunction(q, MockDeals);
  }

  /** The answer lists mock deals only, in their order. */
  lemma ResultsAreSubsequence(q: Query)
    ensures IsSubsequence(Results(q), MockDeals)
  {
    ResultsAreConjunction(q);
    FilterIsSubsequence(MockDeals, AcceptsTest(q));
  }

  /** Without parameters every mock deal is returned, in seed order. */
  lemma NoQueryListsAll()
    ensures Results(NoQuery) == MockDeals
  {
  }

  /** A `revenueMin` that is not a number empties the answer. */
  lemma NonNumericRevenueMinExcludesAll(q: Query)
    requires Truthy(q.revenueMin) && ToNumber(q.revenueMin.value).NaN?
    ensures Results(q) == []
  {
    ResultsAreConjunction(q);
    CountZeroIff(MockDeals, AcceptsTest(q));
  }

  /** Geography is compared whole: "U" does not select the "US" deals. */
  lemma GeoIsExact()
    ensures Results(NoQuery.(geo := Some("U"))) == []
  {
  }

  /** Any numeric minimum above the smallest seed revenue (2) and at most the
      next one (12) keeps exactly the first and the third deal. */
  lemma RevenueMinBetweenSeeds(t: string)
    requires t != "" && ToNumber(t).Finite? && 2.0 < ToNumber(t).value <= 12.0
    ensures Results(NoQuery.(revenueMin := Some(t))) == [MockDeals[0], MockDeals[2]]
  {
    var q := NoQuery.(revenueMin := Some(t));
    assert Accepts(q, MockDeals[0]) && !Accepts(q, MockDeals[1]) && Accepts(q, MockDeals[2]);
    ResultsAreConjunction(q);
    assert MockDeals[1..][1..] == [MockDeals[2]];
  }

  lemma RevenueMinTen()
    ensures Results(NoQuery.(revenueMin := Some("10"))) == [MockDeals[0], MockDeals[2]]
  {
    ReadsTen();
    RevenueMinBetweenSeeds("10");
  }

  /** A fractional minimum is compared as a fraction: 2.5 drops the deal with
      revenue 2 and keeps the other two. */
  lemma RevenueMinFraction()
    ensures Results(NoQuery.(revenueMin := Some("2.5"))) == [MockDeals[0], MockDeals[2]]
  {
    ReadsFraction();
    RevenueMinBetweenSeeds("2.5");
  }
}
