/** The deal-search store and the alert store of `src/store/pipeline.ts`. */
module Pipeline {
  import opened Js
  import opened Seqs

  /** A lead of the seed list (the `Deal` shape plus growth rate and founding year). */
  datatype Lead = Lead(
    id: string, name: string, sector: string, round: string, revenue: int,
    growthRate: int, founded: int, geo: string, leadScore: int)

  /** The fixed seed every search filters. */
  const MockLeads: seq<Lead> := [
    Lead("1", "Acme HealthTech", "Healthcare", "Series B", 45, 120, 2019, "SF Bay Area", 87),
    Lead("2", "FinanceAI Corp", "FinTech", "Series A", 25, 85, 2020, "New York", 92),
    Lead("3", "CloudifyPro", "SaaS", "Growth", 75, 65, 2017, "Austin", 78)
  ]

  /** The argument of `searchDeals`: every key may be missing. */
  datatype Criteria = Criteria(
    sector: Option<string>, round: Option<string>, minRevenue: Option<string>, geo: Option<string>)

  /** The stored `filters` record: every key present. */
  datatype Filters = Filters(sector: string, round: string, minRevenue: string, geo: string)

  const NoCriteria := Criteria(None, None, None, None)
  const EmptyFilters := Filters("", "", "", "")

  /** The callback given to `mockLeads.filter`: a chain of early rejections. */
  predicate Keep(c: Criteria, lead: Lead) {
    if Truthy(c.sector) && lead.sector != c.sector.value then false
    else if Truthy(c.round) && lead.round != c.round.value then false
    else if Truthy(c.minRevenue) && LessThan(lead.revenue, ToNumber(c.minRevenue.value)) then false
    else if Truthy(c.geo) && !Includes(Lower(lead.geo), Lower(c.geo.value)) then false
    else true
  }

  function KeepTest(c: Criteria): Lead -> bool {
    lead => Keep(c, lead)
  }

  /** The leads a search with `c` produces. */
  function Search(c: Criteria): seq<Lead> {
    Filter(MockLeads, KeepTest(c))
  }

  /** `filters.x || ''` for each key. */
  function Normalize(c: Criteria): (f: Filters)
    ensures f.sector == (if c.sector.Some? then c.sector.value else "")
    ensures f.round == (if c.round.Some? then c.round.value else "")
    ensures f.minRevenue == (if c.minRevenue.Some? then c.minRevenue.value else "")
    ensures f.geo == (if c.geo.Some? then c.geo.value else "")
  {
    Filters(
      if Truthy(c.sector) then c.sector.value else "",
      if Truthy(c.round) then c.round.value else "",
      if Truthy(c.minRevenue) then c.minRevenue.value else "",
      if Truthy(c.geo) then c.geo.value else "")
  }

  /** The stored filters submitted again as criteria. */
  function AsCriteria(f: Filters): Criteria {
    Criteria(Some(f.sector), Some(f.round), Some(f.minRevenue), Some(f.geo))
  }

  /** A lead is kept exactly when each supplied criterion accepts it; a
      minimum revenue that reads as NaN accepts every lead, because `<` with NaN is false. */
  lemma KeepIff(c: Criteria, lead: Lead)
    ensures Keep(c, lead) <==>
      (!Truthy(c.sector) || lead.sector == c.sector.value) &&
      (!Truthy(c.round) || lead.round == c.round.value) &&
      (!Truthy(c.minRevenue) || ToNumber(c.minRevenue.value).NaN?
        || AtLeast(lead.revenue, ToNumber(c.minRevenue.value))) &&
      (!Truthy(c.geo) || exists i :: OccursAt(Lower(lead.geo), Lower(c.geo.value), i))
  {
    if Truthy(c.minRevenue) {
      LessThanIff(lead.revenue, ToNumber(c.minRevenue.value));
    }
    if Truthy(c.geo) {
      IncludesIff(Lower(lead.geo), Lower(c.geo.value));
    }
  }

  /** A search returns seed leads only, in seed order, and every seed lead the
      criteria accept. */
  lemma SearchIsSubsequence(c: Criteria)
    ensures IsSubsequence(Search(c), MockLeads)
    ensures forall i :: 0 <= i < |MockLeads| ==> (MockLeads[i] in Search(c) <==> Keep(c, MockLeads[i]))
  {
    FilterIsSubsequence(MockLeads, KeepTest(c));
  }

  /** A kept lead appears as many times as in the seed, any other not at all. */
  lemma SearchCounts(c: Criteria)
    ensures forall l :: multiset(Search(c))[l] == if Keep(c, l) then multiset(MockLeads)[l] else 0
  {
    FilterMultiset(MockLeads, KeepTest(c));
  }

  /** Empty criteria (missing or '' keys) return the whole seed. */
  lemma EmptyCriteriaReturnsSeed(c: Criteria)
    requires !Truthy(c.sector) && !Truthy(c.round) && !Truthy(c.minRevenue) && !Truthy(c.geo)
    ensures Search(c) == MockLeads
  {
    FilterKeepsAll(MockLeads, KeepTest(c));
  }

  lemma KeepIgnoresNaN(c: Criteria, lead: Lead)
    requires c.minRevenue.Some? && ToNumber(c.minRevenue.value).NaN?
    ensures Keep(c, lead) == Keep(c.(minRevenue := None), lead)
  {
  }

  /** A minimum revenue that is not a number filters nothing out. */
  lemma NonNumericMinRevenueIgnored(c: Criteria)
    requires c.minRevenue.Some? && ToNumber(c.minRevenue.value).NaN?
    ensures Search(c) == Search(c.(minRevenue := None))
  {
    forall i | 0 <= i < |MockLeads|
      ensures Keep(c, MockLeads[i]) == Keep(c.(minRevenue := None), MockLeads[i])
    {
      KeepIgnoresNaN(c, MockLeads[i]);
    }
    FilterExtensional(MockLeads, KeepTest(c), KeepTest(c.(minRevenue := None)));
  }

  /** Searching again with the stored, normalised filters gives the same leads
      and stores the same filters. */
  lemma ResubmitStoredFilters(c: Criteria)
    ensures Search(AsCriteria(Normalize(c))) == Search(c)
    ensures Normalize(AsCriteria(Normalize(c))) == Normalize(c)
  {
    FilterExtensional(MockLeads, KeepTest(c), KeepTest(AsCriteria(Normalize(c))));
  }

  lemma HealthcareSearch()
    ensures Search(NoCriteria.(sector := Some("Healthcare"))) == [MockLeads[0]]
  {
    var c := NoCriteria.(sector := Some("Healthcare"));
    assert Keep(c, MockLeads[0]) && !Keep(c, MockLeads[1]) && !Keep(c, MockLeads[2]);
    assert MockLeads[1..][1..] == [MockLeads[2]];
  }

  /** A numeric minimum above every seed revenue (the largest is 75) leaves no lead. */
  lemma MinRevenueAboveAll(t: string)
    requires t != "" && ToNumber(t).Finite? && ToNumber(t).value > 75.0
    ensures Search(NoCriteria.(minRevenue := Some(t))) == []
  {
    var c := NoCriteria.(minRevenue := Some(t));
    assert !Keep(c, MockLeads[0]) && !Keep(c, MockLeads[1]) && !Keep(c, MockLeads[2]);
    assert MockLeads[1..][1..] == [MockLeads[2]];
  }

  lemma ReadsHundred()
    ensures ToNumber("100") == Finite(100.0)
  {
    assert !IsSpace('1') && !IsSpace('0');
    assert TrimStart("100") == "100";
    assert TrimEnd("100") == "100";
    assert ExponentAt("100") == 3;
    assert "100"[..3] == "100";
    assert DigitsValue("100") == 100 by {
      assert "100"[..2] == "10" && "10"[..1] == "1" && "1"[..0] == "";
    }
  }

  lemma MinRevenueAboveAllLeads()
    ensures Search(NoCriteria.(minRevenue := Some("100"))) == []
  {
    ReadsHundred();
    MinRevenueAboveAll("100");
  }

  /** Any numeric minimum above the smallest seed revenue (25) and at most the
      next one (45) keeps exactly the first and the third lead. */
  lemma MinRevenueBetweenSeeds(t: string)
    requires t != "" && ToNumber(t).Finite? && 25.0 < ToNumber(t).value <= 45.0
    ensures Search(NoCriteria.(minRevenue := Some(t))) == [MockLeads[0], MockLeads[2]]
  {
    var c := NoCriteria.(minRevenue := Some(t));
    assert Keep(c, MockLeads[0]) && !Keep(c, MockLeads[1]) && Keep(c, MockLeads[2]);
    assert MockLeads[1..][1..] == [MockLeads[2]];
  }

  lemma ReadsFractionalMinimum()
    ensures ToNumber("30.5") == Finite(30.5)
  {
    assert "30.5" == "30" + "." + "5";
    DecimalNumber("30", "5");
    assert DigitsValue("30") == 30 by { assert "30"[..1] == "3" && "3"[..0] == ""; }
    assert DigitsValue("5") == 5 by { assert "5"[..0] == ""; }
    assert Pow10(1) == 10;
    assert DecimalValue("30", "5") == 30.0 + 5.0 / 10.0;
  }

  /** A fractional minimum is compared as a fraction: 30.5 drops the lead with
      revenue 25 and keeps the leads with 45 and 75. */
  lemma MinRevenueFraction()
    ensures Search(NoCriteria.(minRevenue := Some("30.5"))) == [MockLeads[0], MockLeads[2]]
  {
    ReadsFractionalMinimum();
    MinRevenueBetweenSeeds("30.5");
  }

  /** The deal-search store: results, the filters they were found with, and a
      flag raised while a search is in flight. */
  class DealSearchStore {
    var leads: seq<Lead>
    var filters: Filters
    var loading: bool

    constructor ()
      ensures leads == MockLeads && filters == EmptyFilters && !loading
    {
      leads := MockLeads;
      filters := EmptyFilters;
      loading := false;
    }

    /** First update of `searchDeals`, before the simulated delay. */
    method BeginSearch()
      modifies this
      ensures loading
      ensures leads == old(leads) && filters == old(filters)
    {
      loading := true;
    }

    /** Final update of `searchDeals`: results, filters and the flag at once.
        The new leads depend on `c` alone, never on the current ones. */
    method CompleteSearch(c: Criteria)
      modifies this
      ensures leads == Search(c) && filters == Normalize(c) && !loading
    {
      var filtered := Filter(MockLeads, KeepTest(c));
      var updatedFilters := Normalize(c);
      leads, filters, loading := filtered, updatedFilters, false;
    }

    /** `searchDeals(c)` with nothing interleaved during its delay. */
    method SearchDeals(c: Criteria)
      modifies this
      ensures leads == Search(c) && filters == Normalize(c) && !loading
    {
      BeginSearch();
      CompleteSearch(c);
    }
  }

  /** An alert of the shared store. */
  datatype Alert = Alert(message: string, time: string)

  /** The alert store: an append-only list and a counter that mirrors its length. */
  class AlertStore {
    var alerts: seq<Alert>
    var alertCount: int

    ghost predicate Valid()
      reads this
    {
      alertCount == |alerts|
    }

    constructor ()
      ensures alerts == [] && alertCount == 0 && Valid()
    {
      alerts := [];
      alertCount := 0;
    }

    method AddAlert(a: Alert)
      modifies this
      ensures alerts == old(alerts) + [a]
      ensures alertCount == old(alertCount) + 1
      ensures old(Valid()) ==> Valid()
    {
      alerts := alerts + [a];
      alertCount := alertCount + 1;
    }
  }
}
