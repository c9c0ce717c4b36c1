/** The portfolio store of `src/store/kpi.ts`: seeded companies with six
    monthly KPI points, a selection, and the periodic tick that perturbs
    KPI values and revenue while keeping everything else. */
module Kpi {
  import opened Js

  /** A calendar month, the `YYYY-MM` key of a KPI point. */
  datatype YearMonth = YearMonth(year: int, month: int)

  predicate ValidMonth(d: YearMonth) {
    1 <= d.month <= 12
  }

  /** Strictly earlier in the calendar. */
  predicate Before(a: YearMonth, b: YearMonth) {
    a.year < b.year || (a.year == b.year && a.month < b.month)
  }

  datatype KpiPoint = KpiPoint(date: YearMonth, value: real)

  datatype PortfolioCompany = PortfolioCompany(
    id: string, name: string, fund: string, sector: string, status: string,
    irr: real, mom: real, revenue: real, kpis: seq<KpiPoint>)

  /** The month `k` months before `now` (`new Date(year, month - k, 1)`). */
  function MonthsBack(now: YearMonth, k: int): (d: YearMonth)
    requires ValidMonth(now)
    ensures ValidMonth(d)
    ensures d.year * 12 + d.month == now.year * 12 + now.month - k
  {
    var index := now.year * 12 + (now.month - 1) - k;
    YearMonth(index / 12, index % 12 + 1)
  }

  /** `months`: the six months ending with the current one, oldest first. */
  function Months(now: YearMonth): (ms: seq<YearMonth>)
    requires ValidMonth(now)
    ensures |ms| == 6
  {
    seq(6, i requires 0 <= i < 6 => MonthsBack(now, 5 - i))
  }

  function SeedKpis(now: YearMonth, base: int, step: int): seq<KpiPoint>
    requires ValidMonth(now)
  {
    seq(6, i requires 0 <= i < 6 => KpiPoint(Months(now)[i], (base + step * i) as real))
  }

  function SeedCompanies(now: YearMonth): seq<PortfolioCompany>
    requires ValidMonth(now)
  {
    [
      PortfolioCompany("c1", "Acme Health", "Fund I", "Healthcare", "Active",
        18.2, 2.1, 12.0, SeedKpis(now, 10, 1)),
      PortfolioCompany("c2", "FinTechX", "Fund II", "Finance", "Exited",
        25.5, 3.4, 20.0, SeedKpis(now, 15, 2))
    ]
  }

  /** Six points, months strictly ascending and ending with the current
      month, values strictly increasing. */
  predicate AscendingSeries(kpis: seq<KpiPoint>, now: YearMonth) {
    |kpis| == 6 && kpis[5].date == now &&
    (forall i, j :: 0 <= i < j < 6 ==> Before(kpis[i].date, kpis[j].date)) &&
    (forall i, j :: 0 <= i < j < 6 ==> kpis[i].value < kpis[j].value)
  }

  lemma SeedSeriesAscending(now: YearMonth)
    requires ValidMonth(now)
    ensures forall c :: c in SeedCompanies(now) ==> AscendingSeries(c.kpis, now)
  {
    var ms := Months(now);
    forall i, j | 0 <= i < j < 6 ensures Before(ms[i], ms[j]) {
      var a, b := ms[i], ms[j];
      assert a.year * 12 + a.month < b.year * 12 + b.month;
      if a.year >= b.year {
        assert a.year * 12 >= b.year * 12;
      }
    }
    assert ms[5] == now;
  }

  // ------------------------------------------------------------------- tick

  /** One company after a tick: every KPI value and the revenue take the new
      values given by the noise functions (indexed by company and point). */
  function TickCompany(c: PortfolioCompany, ci: nat,
                       kpiValue: (nat, nat, real) -> real, revenueValue: (nat, real) -> real): PortfolioCompany
  {
    c.(kpis := seq(|c.kpis|, j requires 0 <= j < |c.kpis| =>
                 c.kpis[j].(value := kpiValue(ci, j, c.kpis[j].value))),
       revenue := revenueValue(ci, c.revenue))
  }

  function Ticked(cs: seq<PortfolioCompany>,
                  kpiValue: (nat, nat, real) -> real, revenueValue: (nat, real) -> real): seq<PortfolioCompany>
  {
    seq(|cs|, i requires 0 <= i < |cs| => TickCompany(cs[i], i, kpiValue, revenueValue))
  }

  /** Everything but revenue and the KPI points agrees. */
  predicate SameIdentity(x: PortfolioCompany, y: PortfolioCompany) {
    x.id == y.id && x.name == y.name && x.fund == y.fund && x.sector == y.sector &&
    x.status == y.status && x.irr == y.irr && x.mom == y.mom
  }

  /** The same number of KPI points, with the same dates. */
  predicate SameDates(x: seq<KpiPoint>, y: seq<KpiPoint>) {
    |x| == |y| && forall j :: 0 <= j < |x| ==> x[j].date == y[j].date
  }

  /** Two company lists that differ at most in KPI values and revenue. */
  predicate SameShape(a: seq<PortfolioCompany>, b: seq<PortfolioCompany>) {
    |a| == |b| &&
    forall i :: 0 <= i < |a| ==> SameIdentity(a[i], b[i]) && SameDates(a[i].kpis, b[i].kpis)
  }

  /** A tick keeps the company list's length and order, every field other
      than KPI values and revenue, every KPI date and the number of points. */
  lemma TickKeepsShape(cs: seq<PortfolioCompany>,
                       kpiValue: (nat, nat, real) -> real, revenueValue: (nat, real) -> real)
    ensures SameShape(Ticked(cs, kpiValue, revenueValue), cs)
  {
  }

  lemma SameShapeTrans(a: seq<PortfolioCompany>, b: seq<PortfolioCompany>, c: seq<PortfolioCompany>)
    requires SameShape(a, b) && SameShape(b, c)
    ensures SameShape(a, c)
  {
  }

  /** The noise of one tick. */
  datatype Noise = Noise(kpiValue: (nat, nat, real) -> real, revenueValue: (nat, real) -> real)

  /** The companies after the ticks in `noises`, in order. */
  function AfterTicks(cs: seq<PortfolioCompany>, noises: seq<Noise>): seq<PortfolioCompany>
    decreases |noises|
  {
    if noises == [] then cs
    else AfterTicks(Ticked(cs, noises[0].kpiValue, noises[0].revenueValue), noises[1..])
  }

  /** However many ticks run, the shape of the portfolio never changes. */
  lemma {:induction false} TicksKeepShape(cs: seq<PortfolioCompany>, noises: seq<Noise>)
    ensures SameShape(AfterTicks(cs, noises), cs)
    decreases |noises|
  {
    if noises != [] {
      var next := Ticked(cs, noises[0].kpiValue, noises[0].revenueValue);
      TickKeepsShape(cs, noises[0].kpiValue, noises[0].revenueValue);
      TicksKeepShape(next, noises[1..]);
      SameShapeTrans(AfterTicks(cs, noises), next, cs);
    }
  }

  /** The store: the company list and the selected id (null at first). */
  class PortfolioStore {
    var companies: seq<PortfolioCompany>
    var selectedCompany: Option<string>

    constructor (now: YearMonth)
      requires ValidMonth(now)
      ensures companies == SeedCompanies(now) && selectedCompany == None
    {
      companies := SeedCompanies(now);
      selectedCompany := None;
    }

    /** `selectCompany(id)`: any id is accepted, listed or not. */
    method SelectCompany(id: string)
      modifies this
      ensures selectedCompany == Some(id) && companies == old(companies)
    {
      selectedCompany := Some(id);
    }

    /** The interval callback: the company list is replaced by its ticked copy. */
    method Tick(noise: Noise)
      modifies this
      ensures companies == Ticked(old(companies), noise.kpiValue, noise.revenueValue)
      ensures selectedCompany == old(selectedCompany)
      ensures SameShape(companies, old(companies))
    {
      TickKeepsShape(companies, noise.kpiValue, noise.revenueValue);
      companies := Ticked(companies, noise.kpiValue, noise.revenueValue);
    }
  }
}
