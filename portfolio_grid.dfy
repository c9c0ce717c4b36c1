/** The filtered company table of `src/components/PortfolioGrid.tsx` and its
    removable filter chips. */
module PortfolioGrid {
  import opened Seqs
  import opened Kpi

  /** The three filter keys, in the order the chips are listed. */
  datatype FilterKey = Fund | Sector | Status

  /** The `filters` state; '' means "any". */
  datatype GridFilters = GridFilters(fund: string, sector: string, status: string)

  const NoFilters := GridFilters("", "", "")

  function Get(f: GridFilters, key: FilterKey): string {
    match key
    case Fund => f.fund
    case Sector => f.sector
    case Status => f.status
  }

  function Set(f: GridFilters, key: FilterKey, v: string): GridFilters {
    match key
    case Fund => f.(fund := v)
    case Sector => f.(sector := v)
    case Status => f.(status := v)
  }

  function Field(c: PortfolioCompany, key: FilterKey): string {
    match key
    case Fund => c.fund
    case Sector => c.sector
    case Status => c.status
  }

  /** The `filter` callback: each non-empty filter must equal the company's field. */
  predicate Accepts(f: GridFilters, c: PortfolioCompany) {
    (f.fund == "" || c.fund == f.fund) &&
    (f.sector == "" || c.sector == f.sector) &&
    (f.status == "" || c.status == f.status)
  }

  function AcceptsTest(f: GridFilters): PortfolioCompany -> bool {
    c => Accepts(f, c)
  }

  /** `filtered`. */
  function Shown(companies: seq<PortfolioCompany>, f: GridFilters): seq<PortfolioCompany> {
    Filter(companies, AcceptsTest(f))
  }

  /** A company is shown exactly when, for every key, the filter is empty or
      equals the company's field; the order of `companies` is kept. */
  lemma ShownIff(companies: seq<PortfolioCompany>, f: GridFilters)
    ensures IsSubsequence(Shown(companies, f), companies)
    ensures forall i :: 0 <= i < |companies| ==>
      (companies[i] in Shown(companies, f) <==>
        forall key: FilterKey :: Get(f, key) == "" || Field(companies[i], key) == Get(f, key))
  {
    FilterIsSubsequence(companies, AcceptsTest(f));
    forall i | 0 <= i < |companies|
      ensures Accepts(f, companies[i]) <==>
        forall key: FilterKey :: Get(f, key) == "" || Field(companies[i], key) == Get(f, key)
    {
      var c := companies[i];
      if forall key: FilterKey :: Get(f, key) == "" || Field(c, key) == Get(f, key) {
        assert Get(f, Fund) == "" || Field(c, Fund) == Get(f, Fund);
        assert Get(f, Sector) == "" || Field(c, Sector) == Get(f, Sector);
        assert Get(f, Status) == "" || Field(c, Status) == Get(f, Status);
      }
    }
  }

  /** A shown company appears as many times as in `companies`, a hidden one not at all. */
  lemma ShownCounts(companies: seq<PortfolioCompany>, f: GridFilters)
    ensures forall c :: multiset(Shown(companies, f))[c] == if Accepts(f, c) then multiset(companies)[c] else 0
  {
    FilterMultiset(companies, AcceptsTest(f));
  }

  /** The initial, empty filters show every company in order. */
  lemma NoFiltersShowAll(companies: seq<PortfolioCompany>)
    ensures Shown(companies, NoFilters) == companies
  {
    FilterKeepsAll(companies, AcceptsTest(NoFilters));
  }

  /** A chip: a filter key with its current, non-empty value. */
  datatype Chip = Chip(key: FilterKey, value: string)

  /** The chips rendered from `Object.entries(filters)`: non-empty values only,
      in the order fund, sector, status. */
  function Chips(f: GridFilters): seq<Chip> {
    (if f.fund != "" then [Chip(Fund, f.fund)] else []) +
    (if f.sector != "" then [Chip(Sector, f.sector)] else []) +
    (if f.status != "" then [Chip(Status, f.status)] else [])
  }

  lemma ChipsAreTheNonEmptyFilters(f: GridFilters)
    ensures forall ch :: ch in Chips(f) <==> ch.value != "" && ch.value == Get(f, ch.key)
    ensures |Chips(f)| <= 3
  {
  }

  /** The × button's setter: the key is cleared when its value is still the
      chip's, and set to the chip's value otherwise. */
  function ClickChip(f: GridFilters, key: FilterKey, val: string): GridFilters {
    Set(f, key, if Get(f, key) == val then "" else val)
  }

  /** Clicking a rendered chip clears that key, keeps the others, and removes
      exactly that chip. */
  lemma ClickChipClears(f: GridFilters, ch: Chip)
    requires ch in Chips(f)
    ensures Get(ClickChip(f, ch.key, ch.value), ch.key) == ""
    ensures forall k :: k != ch.key ==> Get(ClickChip(f, ch.key, ch.value), k) == Get(f, k)
    ensures |Chips(ClickChip(f, ch.key, ch.value))| == |Chips(f)| - 1
    ensures ch !in Chips(ClickChip(f, ch.key, ch.value))
  {
  }
}
