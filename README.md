# Private-equity dashboard: the state and selection rules, in Dafny

This project models the logic inside a React/Express private-equity dashboard.

- **Client stores**
  - Deal search and the alert list (`pipeline.ts`).
  - The session role and token (`user.ts`).
  - The portfolio companies and their KPI tick (`kpi.ts`).
- **Permissions and login**
  - The role × action permission matrix (`useAuth.ts`).
  - The mock login endpoint and the mock deal listing endpoint (`server/routes`).
- **Page logic**
  - Investment screening: weighted criteria scoring, the industry/stage filter and the descending sort.
  - The alert centre: tabs, categories, read/delete, counters and relative time.
  - The valuation-method weight sliders.
  - The portfolio grid filter and its chips.
  - The deal-sourcing filter chips.
  - The risk score and its bands.
  - The deal score card.
  - Report generation and the greeting.
  - The valuation form's validation and request paths.

One Dafny module per source file:

| module | file | what it holds |
|---|---|---|
| `Pipeline` | `pipeline.ts` | lead predicate; `DealSearchStore` and `AlertStore` classes |
| `Session` | `user.ts` | `UserStore` class over one optional persisted token |
| `Access` | `useAuth.ts` | `canAccess` |
| `AuthRoute` | `auth.ts` | the login response |
| `DealsRoute` | `deals.ts` | the chain of query filters |
| `Screening` | `InvestmentScreening.tsx` | scoring loop as a method; in-place sort over an `array` |
| `Alerts` | `Alerts.tsx` | the list operations and `formatTime` |
| `AdvancedValuation` | `AdvancedValuation.tsx` | `updateWeight` |
| `PortfolioGrid` | `PortfolioGrid.tsx` | filter and chips |
| `DealSourcing` | `DealSourcing.tsx` | `toggleFilter`; page class |
| `Risk` | `RiskManagement.tsx` | score, bands, card toggle |
| `DealScoring` | `DealScoring.tsx` | score formulas; card class |
| `Reports` | `Reports.tsx` | report creation; page class; greeting |
| `ValuationForm` | `ValuationForm.tsx` | `validate` as a loop; form class |
| `Kpi` | `kpi.ts` | seed data, tick, `PortfolioStore` class |

Two helper modules support the rest:

- `Seqs`: an order-keeping `Filter`, subsequences and counting.
- `Js`: the JavaScript semantics the code relies on.
  - `Number(s)` follows the string-to-number grammar of ECMAScript. Surrounding white space is ignored and empty text is 0. It accepts signed decimals with a fraction and an exponent, unsigned `0b`/`0o`/`0x` literals and signed `Infinity`. Anything else is NaN.
  - The result is NaN, an exact finite value or an infinity. Every comparison with NaN is false.
  - Truthiness of optional strings.
  - ASCII `toLowerCase`.
  - `includes` on strings.
  - `split`/`join` on one separator.
  - `Math.round`.

What the proofs bring out about the code as written:

- **The deal search store** (`pipeline.ts`):
  - A `minRevenue` that `Number` reads as NaN filters nothing out.
  - A fractional minimum such as "30.5" is compared as a fraction.
- **The deal listing endpoint** (`deals.ts`):
  - A `revenueMin` that `Number` reads as NaN removes every deal.
  - Geography must match exactly; it is not a substring match.
- **Screening** (`InvestmentScreening.tsx`):
  - Criteria are recognised only by their name. The operator field plays no part in matching.
  - A renamed criterion never matches.
  - The stage list is split on commas without trimming.
  - The sample company GreenEnergy Innovations is seeded with score 72. A screening run with the default criteria recomputes 60, with 3 of 5 criteria met.
  - When neither filter is selected, the sort reorders the `companies` array itself.
- **The deal score card** (`DealScoring.tsx`):
  - The round lookup is computed but never affects the score.

## Model

| member | source | states |
|---|---|---|
| Pipeline.Keep | src/store/pipeline.ts:58-62 | The `filter` callback as a chain of early rejections: sector, round, minimum revenue (`revenue < Number(minRevenue)`), then a lower-cased geo substring test. |
| Pipeline.Search | src/store/pipeline.ts:57-63 | The seed leads filtered by `Keep`; the current leads are never the input. |
| Pipeline.KeepIff | src/store/pipeline.ts:58-62 | A lead is kept iff each supplied criterion holds: sector equal, round equal, revenue at least the minimum, geo a case-insensitive substring. A minimum that `Number` reads as NaN accepts every lead. |
| Pipeline.SearchIsSubsequence | src/store/pipeline.ts:57-63 | A search result is an order-preserving subsequence of the seed leads. A seed lead is in it iff the predicate keeps it. |
| Pipeline.SearchCounts | src/store/pipeline.ts:57-63 | A kept lead appears in the result as often as in the seed; any other lead does not appear at all. |
| Pipeline.EmptyCriteriaReturnsSeed | src/store/pipeline.ts:57-63 | Criteria that are all missing or empty return the whole seed, in order. |
| Pipeline.KeepIgnoresNaN | src/store/pipeline.ts:60 | For each lead, a minimum revenue that is NaN behaves as if absent. |
| Pipeline.NonNumericMinRevenueIgnored | src/store/pipeline.ts:57-63 | A minimum revenue that `Number` reads as NaN (such as "10M") gives the same leads as no minimum. |
| Pipeline.MinRevenueAboveAll | src/store/pipeline.ts:5-63 | Any minimum that reads as a number above 75, the largest seed revenue, yields the empty list. |
| Pipeline.MinRevenueAboveAllLeads | src/store/pipeline.ts:57-63 | A minimum revenue of "100" yields the empty list, not an error. |
| Pipeline.MinRevenueBetweenSeeds | src/store/pipeline.ts:5-63 | Any minimum that reads as a number in (25, 45] keeps exactly the leads with revenue 45 and 75. |
| Pipeline.MinRevenueFraction | src/store/pipeline.ts:60 | "30.5" is read as 30.5: the lead with revenue 25 is dropped and the other two are kept. |
| Pipeline.HealthcareSearch | src/store/pipeline.ts:5-63 | Searching for sector Healthcare yields exactly the lead with id "1". |
| Pipeline.Normalize | src/store/pipeline.ts:66-71 | The stored filters have all four keys. Each is the supplied value, or "" when missing. |
| Pipeline.ResubmitStoredFilters | src/store/pipeline.ts:57-71 | Resubmitting the stored filters gives the same leads and stores the same filters. |
| Pipeline.DealSearchStore.constructor | src/store/pipeline.ts:47-50 | Starts with the seed leads, empty filters and no loading. |
| Pipeline.DealSearchStore.BeginSearch | src/store/pipeline.ts:52 | Raises `loading` and changes nothing else. |
| Pipeline.DealSearchStore.CompleteSearch | src/store/pipeline.ts:57-73 | The new leads are the search of the seed by the criteria, never of the current leads. Filters and `loading` are set in the same update. |
| Pipeline.DealSearchStore.SearchDeals | src/store/pipeline.ts:51-74 | After a search, leads are the search result, filters are normalised and `loading` is false. |
| Pipeline.AlertStore.constructor | src/store/pipeline.ts:83-85 | Starts with no alerts and a count of 0, so the count equals the length. |
| Pipeline.AlertStore.AddAlert | src/store/pipeline.ts:86 | Appends at the end and keeps earlier alerts. The count goes up by exactly 1, so count == length is preserved. |
| Session.GetRole | src/store/user.ts:4-9 | "partner" gives partner and "lp" gives lp. Any other token, or none, gives analyst (both directions). |
| Session.GetIsAuthenticated | src/store/user.ts:11-14 | A token counts as a login iff it is present and not empty. |
| Session.RoleRoundTrip | src/store/user.ts:4-14 | The stored name of each role reads back as that role, authenticated. |
| Session.UnknownTokenIsAnalyst | src/store/user.ts:4-14 | Any other token reads as analyst. It counts as authenticated iff it is non-empty. |
| Session.UserStore.constructor | src/store/user.ts:23-25 | The initial role and flag are those derived from storage. |
| Session.UserStore.SetRole | src/store/user.ts:26-29 | Stores the role name, then sets the role and `isAuthenticated`. Memory stays consistent with storage. |
| Session.UserStore.Logout | src/store/user.ts:30-33 | Removes the token and resets to an unauthenticated analyst. Memory stays consistent with storage. |
| Session.LoginLogoutScenario | src/store/user.ts:26-33 | Log in as partner, then log out twice. The second logout leaves the same state. |
| Access.CanAccess | src/hooks/useAuth.ts:6-11 | The three role branches and the denial for any other role. |
| Access.CanAccessIsMatrix | src/hooks/useAuth.ts:6-11 | `canAccess` is exactly the five-entry permission matrix. Any other role is denied everything. |
| Access.ReadForEveryRole | src/hooks/useAuth.ts:7-9 | Read is allowed iff the role is one of the three. |
| Access.ApproveAndCrudAreExclusive | src/hooks/useAuth.ts:7-10 | Approve is allowed iff the role is partner. CRUD is allowed iff the role is analyst. |
| Access.LpReadsOnly | src/hooks/useAuth.ts:9 | A limited partner may only read. |
| AuthRoute.Login | server/routes/auth.ts:4-9 | A token is issued iff the role is one of the three, and the token equals the role. Otherwise the one response is 400 with "Invalid role". |
| AuthRoute.IssuedTokenRestoresRole | server/routes/auth.ts:7-8 | Each session role logs in. The issued token reads back as that role in the session store. |
| AuthRoute.CaseMatters | server/routes/auth.ts:7 | "Partner" is refused. |
| DealsRoute.Results | server/routes/deals.ts:10-17 | The response body: the chain of filters applied to the mock deals. |
| DealsRoute.Chain | server/routes/deals.ts:12-16 | The successive rebindings of `results`: sector, round, geo, then revenue. |
| DealsRoute.BySector | server/routes/deals.ts:13 | Keeps deals whose sector equals the parameter, if the parameter is truthy. |
| DealsRoute.ByRound | server/routes/deals.ts:14 | Keeps deals whose round equals the parameter, if the parameter is truthy. |
| DealsRoute.ByGeo | server/routes/deals.ts:15 | Keeps deals whose geo equals the parameter, if the parameter is truthy. |
| DealsRoute.ByRevenue | server/routes/deals.ts:16 | Keeps deals with revenue >= `Number(revenueMin)`, if the parameter is truthy. |
| DealsRoute.SectorStep | server/routes/deals.ts:13 | The sector step filters by exact equality, or is skipped when the parameter is absent or empty. |
| DealsRoute.RoundStep | server/routes/deals.ts:14 | The round step filters by exact equality, or is skipped. |
| DealsRoute.GeoStep | server/routes/deals.ts:15 | The geo step filters by exact equality, or is skipped. |
| DealsRoute.RevenueStep | server/routes/deals.ts:16 | The revenue step keeps revenue >= Number(revenueMin), or is skipped. |
| DealsRoute.ChainIsConjunction | server/routes/deals.ts:12-16 | The four successive filters equal one filter by the AND of the supplied tests. |
| DealsRoute.ResultsAreConjunction | server/routes/deals.ts:10-17 | The response is the mock deals filtered by that AND. |
| DealsRoute.ResultsAreSubsequence | server/routes/deals.ts:12-16 | The response is an order-preserving subsequence of the mock deals. |
| DealsRoute.NoQueryListsAll | server/routes/deals.ts:4-12 | With no parameters, all three deals are returned in seed order. |
| DealsRoute.NonNumericRevenueMinExcludesAll | server/routes/deals.ts:16 | A `revenueMin` that `Number` reads as NaN empties the response. |
| DealsRoute.GeoIsExact | server/routes/deals.ts:15 | geo "U" selects nothing, although two deals are in "US". |
| DealsRoute.RevenueMinBetweenSeeds | server/routes/deals.ts:4-16 | Any revenueMin that reads as a number in (2, 12] yields Acme Health and Cloudify only. |
| DealsRoute.RevenueMinTen | server/routes/deals.ts:4-16 | revenueMin "10" yields Acme Health and Cloudify only. |
| DealsRoute.RevenueMinFraction | server/routes/deals.ts:16 | revenueMin "2.5" is read as 2.5: FinTechX (revenue 2) is dropped and the other two are kept. |
| Screening.Matches | src/routes/InvestmentScreening.tsx:273-290 | The switch on the criterion's name: four `>= Number(value)` tests, the stage list test, and no match for any other name. |
| Screening.Accumulate | src/routes/InvestmentScreening.tsx:270-296 | The `forEach` over the criteria with any match test: the score is the total weight of the criteria that pass, and the count is how many pass. |
| Screening.ScoreCompany | src/routes/InvestmentScreening.tsx:266-296 | Scoring one company with the name-switch match test: the score is the total weight of the criteria the company meets, and the count is how many it meets. |
| Screening.RunScreening | src/routes/InvestmentScreening.tsx:266-304 | One rescored company per company, in order. Only score, matched count and criteria count are replaced. |
| Screening.RescoredKeepsOtherFields | src/routes/InvestmentScreening.tsx:298-303 | Screening changes no field other than the three score fields. |
| Screening.MatchedAtMostTotal | src/routes/InvestmentScreening.tsx:294-302 | 0 <= matchedCriteria <= totalCriteria = criteria.length. |
| Screening.MatchedWeightBounds | src/routes/InvestmentScreening.tsx:292-295 | With non-negative weights, the score lies between 0 and the sum of all weights. |
| Screening.DefaultWeightsSumTo100 | src/routes/InvestmentScreening.tsx:33-74 | The default weights sum to 100. |
| Screening.DefaultScoreRange | src/routes/InvestmentScreening.tsx:33-74 | Under the defaults, every score lies in [0, 100]. |
| Screening.OperatorIgnored | src/routes/InvestmentScreening.tsx:273-290 | Changing a criterion's operator never changes whether it matches. |
| Screening.UnknownNameNeverMatches | src/routes/InvestmentScreening.tsx:273-290 | A criterion whose name is not one of the five never matches. |
| Screening.StageCriterionIff | src/routes/InvestmentScreening.tsx:286-289 | The stage criterion matches iff the stage equals one of the comma-split pieces. |
| Screening.DefaultStageList | src/routes/InvestmentScreening.tsx:287 | The default list splits into "Series A" and "Series B". |
| Screening.SpacedStageList | src/routes/InvestmentScreening.tsx:287 | "Series A, Series B" splits into "Series A" and " Series B", untrimmed. |
| Screening.GreenEnergyMatches | src/routes/InvestmentScreening.tsx:146-168 | GreenEnergy meets growth, market size and team size, but not revenue or stage. |
| Screening.GreenEnergyScreening | src/routes/InvestmentScreening.tsx:146-168 | GreenEnergy's default score is 60, with 3 criteria matched. |
| Screening.GreenEnergyRow | src/routes/InvestmentScreening.tsx:146-168 | The row is seeded with 72. Screening it gives 60, 3 matched and 5 in total. |
| Screening.Select | src/routes/InvestmentScreening.tsx:229-240 | The industry filter unless "all industries", then the stage filter unless "all stages". |
| Screening.SelectIff | src/routes/InvestmentScreening.tsx:229-240 | The filtered list is an order-preserving subsequence. A company is in it iff its industry and stage equal the selections, or the selection is the "all" value. |
| Screening.SelectCounts | src/routes/InvestmentScreening.tsx:229-240 | A company that meets both selections appears as often as in the input; any other company does not appear at all. |
| Screening.Insert | src/routes/InvestmentScreening.tsx:243-254 | Inserting one company adds it to the list's multiset and adds one to the length. |
| Screening.InsertSorted | src/routes/InvestmentScreening.tsx:243-254 | Insertion keeps the list non-increasing in the key. |
| Screening.SortDesc | src/routes/InvestmentScreening.tsx:243-254 | The sort order is a permutation of its input, non-increasing in the chosen key. |
| Screening.InsertStable | src/routes/InvestmentScreening.tsx:243-254 | Insertion puts the new company ahead of the companies with the same key and keeps their order. |
| Screening.SortStable | src/routes/InvestmentScreening.tsx:243-254 | The sort is stable: for each key value, the companies with that key keep their input order. |
| Screening.SortInPlace | src/routes/InvestmentScreening.tsx:243-254 | The array holds that order afterwards. |
| Screening.ApplyView | src/routes/InvestmentScreening.tsx:229-257 | Shown is the sorted selection. With no filter, shown is the `companies` array itself, now reordered. Otherwise it is a new array and `companies` is unchanged. |
| Alerts.ByTab | src/routes/Alerts.tsx:162-172 | The switch on the tab: unread, critical and action-required filters. The "all" tab has no case and keeps the list. |
| Alerts.ByCategory | src/routes/Alerts.tsx:175-177 | The category filter, unless the category is "all". |
| Alerts.Visible | src/routes/Alerts.tsx:158-180 | The tab filter, then the category filter. |
| Alerts.MarkAsRead | src/routes/Alerts.tsx:182-186 | Each alert with the id is copied with `isRead` set; the others are kept. |
| Alerts.MarkAllAsRead | src/routes/Alerts.tsx:188-190 | Every alert is copied with `isRead` set. |
| Alerts.DeleteAlert | src/routes/Alerts.tsx:192-194 | The alerts whose id differs. |
| Alerts.UnreadCount | src/routes/Alerts.tsx:196 | The number of unread alerts. |
| Alerts.CriticalCount | src/routes/Alerts.tsx:197 | The number of critical alerts. |
| Alerts.Bucket | src/routes/Alerts.tsx:133-140 | Whole hours and whole days of the age, rounded down, choose one of the four outcomes. A NaN age falls through to the date. |
| Alerts.FormatTime | src/routes/Alerts.tsx:130-141 | The label text of each outcome; the locale date is a parameter. |
| Alerts.TabIsSubsequence | src/routes/Alerts.tsx:162-172 | Each tab keeps, in order, exactly the alerts it accepts. "all" accepts every alert. |
| Alerts.VisibleIff | src/routes/Alerts.tsx:158-180 | The shown list is an order-preserving subsequence. It holds only, and all, the alerts that the tab and the category accept. |
| Alerts.VisibleCounts | src/routes/Alerts.tsx:158-180 | An alert the tab and the category accept appears as often as in the list; any other alert does not appear at all. |
| Alerts.NoFilterShowsAll | src/routes/Alerts.tsx:158-180 | The "all" tab with the "all" category shows every alert. |
| Alerts.CountsBounded | src/routes/Alerts.tsx:196-197 | Each counter is at most the number of alerts. |
| Alerts.MarkAsReadEffect | src/routes/Alerts.tsx:182-186 | Exactly the alerts with the id become read. Length, order and all other fields are kept. |
| Alerts.MarkAsReadUnreadCount | src/routes/Alerts.tsx:182-197 | Afterwards the unread count is the number of unread alerts with another id, so it never grows. |
| Alerts.MarkAsReadIdempotent | src/routes/Alerts.tsx:182-186 | Marking the same id twice is the same as marking it once. |
| Alerts.MarkAllAsReadClearsUnread | src/routes/Alerts.tsx:188-197 | Afterwards the unread count is 0. A second call changes nothing, and the critical count is kept. |
| Alerts.DeleteAlertEffect | src/routes/Alerts.tsx:192-194 | The result is an order-preserving subsequence without the id that keeps every other alert. Its length is the old length minus the alerts with that id. |
| Alerts.BucketBounds | src/routes/Alerts.tsx:130-140 | The labels stated on the age itself (see below). |
| Alerts.InvalidTimestampShowsDate | src/routes/Alerts.tsx:130-140 | An unparseable timestamp shows the date text. |
| Alerts.FutureIsJustNow | src/routes/Alerts.tsx:133-137 | A negative age reads "Vừa xong". |
| AdvancedValuation.UpdateWeight | src/components/AdvancedValuation.tsx:46-54 | The capped weight written into every entry of the method. |
| AdvancedValuation.Adjusted | src/components/AdvancedValuation.tsx:47-49 | The adjusted weight is the smaller of the request and 100 minus the others' weights. |
| AdvancedValuation.Retarget | src/components/AdvancedValuation.tsx:51-53 | Entries for the method get the new weight. Every other entry and the order are kept. |
| AdvancedValuation.InitialBudget | src/components/AdvancedValuation.tsx:31-35 | The initial weights 40/35/25 are distinct, non-negative and sum to exactly 100. |
| AdvancedValuation.RetargetTotal | src/components/AdvancedValuation.tsx:46-53 | With distinct methods, the new total is the others' weight plus the new weight if the method is present. |
| AdvancedValuation.UpdateKeepsBudget | src/components/AdvancedValuation.tsx:46-53 | A slider value in [0, 100] keeps weights non-negative, distinct and summing to at most 100. |
| AdvancedValuation.UpdateWeightEffect | src/components/AdvancedValuation.tsx:46-53 | Only the method's weight changes. It becomes exactly w when the others leave room. |
| AdvancedValuation.DcfCappedAtStart | src/components/AdvancedValuation.tsx:31-49 | Pushing DCF to 100 from the start leaves it at 40. |
| PortfolioGrid.Accepts | src/components/PortfolioGrid.tsx:13-15 | Each non-empty filter must equal the company's field. |
| PortfolioGrid.Shown | src/components/PortfolioGrid.tsx:12-16 | The companies the callback accepts, in order. |
| PortfolioGrid.Chips | src/components/PortfolioGrid.tsx:21-33 | One chip per non-empty filter value, in the order fund, sector, status. |
| PortfolioGrid.ClickChip | src/components/PortfolioGrid.tsx:27 | The key is cleared if its value is still the chip's; otherwise it is set to the chip's value. |
| PortfolioGrid.ShownIff | src/components/PortfolioGrid.tsx:12-16 | The shown list is an order-preserving subsequence. A company is shown iff each non-empty filter equals its field. |
| PortfolioGrid.ShownCounts | src/components/PortfolioGrid.tsx:12-16 | A company every non-empty filter accepts appears as often as in the input; any other company does not appear at all. |
| PortfolioGrid.NoFiltersShowAll | src/components/PortfolioGrid.tsx:10-16 | The initial, empty filters show every company in order. |
| PortfolioGrid.ChipsAreTheNonEmptyFilters | src/components/PortfolioGrid.tsx:21-24 | A chip is rendered exactly for each non-empty filter value. |
| PortfolioGrid.ClickChipClears | src/components/PortfolioGrid.tsx:21-27 | Clicking a rendered chip's × clears that key and keeps the others. That chip disappears. |
| DealSourcing.ToggleFilter | src/routes/DealSourcing.tsx:99-105 | A selected filter is removed, every occurrence. An unselected one is appended. |
| DealSourcing.ToggleOffRemoves | src/routes/DealSourcing.tsx:99-105 | Toggling a selected filter removes all its occurrences. Every copy of each other filter is kept, in order: the multiset is the old one with that filter's count set to 0. |
| DealSourcing.ToggleOnAppends | src/routes/DealSourcing.tsx:103 | Toggling an unselected filter appends it at the end. |
| DealSourcing.ToggleTwiceRestores | src/routes/DealSourcing.tsx:99-105 | Toggling an unselected filter twice restores the list. |
| DealSourcing.ToggleKeepsNoDuplicates | src/routes/DealSourcing.tsx:99-105 | A list without duplicates stays without duplicates. |
| DealSourcing.DealSourcingPage.constructor | src/routes/DealSourcing.tsx:12-14 | No filters are selected and no search is running. |
| DealSourcing.DealSourcingPage.Toggle | src/routes/DealSourcing.tsx:99-105 | Applies `toggleFilter` and leaves the search flag alone. |
| DealSourcing.DealSourcingPage.BeginSearch | src/routes/DealSourcing.tsx:93 | Raises `isSearching`. |
| DealSourcing.DealSourcingPage.EndSearch | src/routes/DealSourcing.tsx:96 | Lowers `isSearching`. |
| DealSourcing.DealSourcingPage.HandleSearch | src/routes/DealSourcing.tsx:92-97 | The flag ends false and the filters are unchanged. |
| Risk.Multiplier | src/components/RiskManagement.tsx:41 | High weighs 3, Medium 2, any other severity 1. |
| Risk.WeightedSum | src/components/RiskManagement.tsx:41 | The `reduce`: the sum of value times multiplier. |
| Risk.OverallRiskScore | src/components/RiskManagement.tsx:40-42 | `Math.round` of the weighted sum over 3. |
| Risk.BandOf | src/components/RiskManagement.tsx:104-109 | High from 70, Medium from 40, Low below. |
| Risk.RoundThird | src/components/RiskManagement.tsx:40-42 | Rounding n/3 half up is (n+1) div 3. |
| Risk.OverallIsSuccessorThird | src/components/RiskManagement.tsx:40-42 | The overall score is (weighted sum + 1) div 3. |
| Risk.BandIntervals | src/components/RiskManagement.tsx:104-109 | The bands are [70, ∞), [40, 70) and below 40. The band is monotone in the score. |
| Risk.SampleScore | src/components/RiskManagement.tsx:4-42 | The sample factors sum to 215, score 72 and read "High Risk". |
| Risk.CompanyBands | src/components/RiskManagement.tsx:19-23 | The three company risk scores 75, 45 and 60 fall in the bands High, Medium and Medium. |
| Risk.BarColourOf | src/components/RiskManagement.tsx:248-250 | The bar colour: red from 70, yellow from 40, green below. |
| Risk.BarFollowsBand | src/components/RiskManagement.tsx:248-250 | For every score, the bar is red, yellow or green exactly when the band is High, Medium or Low. |
| Risk.CompanyBars | src/components/RiskManagement.tsx:248-250 | The three company bars are red, yellow and yellow. |
| Risk.ClickRisk | src/components/RiskManagement.tsx:140 | Clicking the selected card clears the selection. Clicking any other card selects it. |
| Risk.ClickTwice | src/components/RiskManagement.tsx:140 | From no selection or that card, two clicks restore the selection. |
| DealScoring.SectorMultiplier | src/components/DealScoring.tsx:44-50 | The sector table, with 0.7 for any other sector. |
| DealScoring.RoundScore | src/components/DealScoring.tsx:54-60 | The round table, with 50 for any other round. |
| DealScoring.Market | src/components/DealScoring.tsx:62 | The sector multiplier times 100, rounded. |
| DealScoring.Financial | src/components/DealScoring.tsx:52-63 | The mean of the capped revenue and growth scores, rounded. |
| DealScoring.Team | src/components/DealScoring.tsx:64 | 70 plus 30 times the random draw, rounded. |
| DealScoring.RawRisk | src/components/DealScoring.tsx:65 | 100 minus the weighted financial, market and team scores, rounded. |
| DealScoring.Overall | src/components/DealScoring.tsx:66 | Market plus financial plus team minus half the risk, over 3, rounded. |
| DealScoring.RecommendationFor | src/components/DealScoring.tsx:68-72 | The four recommendation thresholds. |
| DealScoring.Score | src/components/DealScoring.tsx:62-81 | The stored score; its risk field is 100 minus the computed risk. |
| DealScoring.RecommendationThresholds | src/components/DealScoring.tsx:68-72 | The recommendation bands are >= 85, [70, 85), [55, 70) and < 55, monotone in `overall`. |
| DealScoring.RoundTable | src/components/DealScoring.tsx:54-60 | Round scores are 60/75/85/90/95, and 50 for any other round. |
| DealScoring.MarketTable | src/components/DealScoring.tsx:44-62 | Market scores are 90/95/100/85/80 for the listed sectors and 70 for any other. Every market score is in [70, 100]. |
| DealScoring.FinancialBounds | src/components/DealScoring.tsx:52-63 | The financial score is at most 100, and non-negative for non-negative inputs. |
| DealScoring.TeamRange | src/components/DealScoring.tsx:64 | For a draw in [0, 1), the team score is in [70, 100]. |
| DealScoring.ScoreIgnoresRound | src/components/DealScoring.tsx:54-81 | A deal's round never changes its score. |
| DealScoring.ScoreBounds | src/components/DealScoring.tsx:62-81 | Every stored number, including the stored risk 100 − risk, lies in [0, 100]. |
| DealScoring.DealScoringCard.constructor | src/components/DealScoring.tsx:36-37 | No score and no spinner. |
| DealScoring.DealScoringCard.BeginScoring | src/components/DealScoring.tsx:40 | The spinner goes on. |
| DealScoring.DealScoringCard.FinishScoring | src/components/DealScoring.tsx:74-82 | Stores the score and turns the spinner off. |
| DealScoring.DealScoringCard.OnDeal | src/components/DealScoring.tsx:86-90 | Scores only a deal with a non-empty name. Otherwise nothing changes. |
| Reports.FindTemplate | src/routes/Reports.tsx:138 | Finds a template with the id, or none iff no template has it. |
| Reports.NewReport | src/routes/Reports.tsx:138-148 | The report built after the delay: the template's name and description, or the fallbacks. |
| Reports.NewReportFixedFields | src/routes/Reports.tsx:139-148 | Every new report is portfolio, completed, PDF and "2.1 MB". It carries the given id and date. |
| Reports.TemplateIdsDistinct | src/routes/Reports.tsx:58-87 | The four template ids are distinct. |
| Reports.NewReportFromTemplate | src/routes/Reports.tsx:138-147 | A template's id gives that template's name and description. |
| Reports.NewReportFallback | src/routes/Reports.tsx:138-147 | Any other id gives "Báo Cáo Mới" and "Báo cáo được tạo tự động". |
| Reports.QuarterlyReport | src/routes/Reports.tsx:138-147 | The quarterly template gives "Báo Cáo Quý". |
| Reports.ReportsPage.constructor | src/routes/Reports.tsx:119 | Starts with the given reports, not generating and no template. |
| Reports.ReportsPage.BeginGenerate | src/routes/Reports.tsx:132-133 | Generating is true and the template is selected. The reports are unchanged. |
| Reports.ReportsPage.FinishGenerate | src/routes/Reports.tsx:150-152 | The new report is prepended. The flag becomes false and the template null. |
| Reports.ReportsPage.GenerateReport | src/routes/Reports.tsx:131-153 | Exactly one report is prepended, and the earlier ones follow unchanged and in order. |
| Reports.GreetingFor | src/routes/Reports.tsx:155-160 | Morning before 12, afternoon before 18, evening otherwise. |
| Reports.GreetingHours | src/routes/Reports.tsx:155-160 | Hours 0–11 give morning, 12–17 afternoon and 18–23 evening. |
| ValuationForm.Validate | src/components/ValuationForm.tsx:19-22 | The loop returns true iff all five fields are non-empty. |
| ValuationForm.ValuationFormState.constructor | src/components/ValuationForm.tsx:7-16 | Empty form, no result, no error, not loading. |
| ValuationForm.ValuationFormState.Start | src/components/ValuationForm.tsx:24-27 | A failed validation sets "All fields required" and leaves `loading` alone. A passed one clears the error and sets `loading`. |
| ValuationForm.ValuationFormState.Settle | src/components/ValuationForm.tsx:28-41 | Success stores the result. Failure sets "Calculation failed" and keeps the result. `loading` ends false either way. |
| ValuationForm.ValuationFormState.Compute | src/components/ValuationForm.tsx:24-42 | The three outcomes of `compute`: invalid, answered and failed. |
| Kpi.MonthsBack | src/store/kpi.ts:5-8 | The month k months back is a valid month whose month index is k less. |
| Kpi.Months | src/store/kpi.ts:5-8 | There are six months. |
| Kpi.SeedCompanies | src/store/kpi.ts:10-33 | The two seed companies; their KPI values are 10 + i and 15 + 2i over the six months. |
| Kpi.SeedSeriesAscending | src/store/kpi.ts:5-33 | Each seed series has six points with strictly ascending months ending at the current month, and strictly increasing values. |
| Kpi.TickCompany | src/store/kpi.ts:50-54 | One company after a tick: new KPI values and a new revenue from the noise functions. |
| Kpi.Ticked | src/store/kpi.ts:49-55 | Every company ticked, in order. |
| Kpi.TickKeepsShape | src/store/kpi.ts:48-56 | A tick keeps the number and order of companies, every field but revenue and KPI values, and every KPI date. |
| Kpi.TicksKeepShape | src/store/kpi.ts:48-56 | The same holds after any number of ticks. |
| Kpi.PortfolioStore.constructor | src/store/kpi.ts:41-43 | The seed companies, with no selection. |
| Kpi.PortfolioStore.SelectCompany | src/store/kpi.ts:44 | Selects any id, listed or not. The companies are unchanged. |
| Kpi.PortfolioStore.Tick | src/store/kpi.ts:48-55 | Replaces the companies by their ticked copy. The shape and the selection are kept. |

`Alerts.BucketBounds` states each label as an interval of the age:

- "Vừa xong" for less than one hour, including negative ages.
- "h giờ trước" for one hour up to one day, with h in 1–23 and h·3600000 ≤ age < (h+1)·3600000.
- "d ngày trước" for one day up to seven days, with d in 1–6 and d·86400000 ≤ age < (d+1)·86400000.
- The date text otherwise, or when the timestamp is NaN.

## Left out

- Js.ToNumber: a finite value is read exactly, not rounded to an IEEE double. Text with more than about 17 significant digits, or with an exponent beyond the double range, can compare differently from the browser.
- Js.Lower: `toLowerCase` is ASCII-only. Other letters are left as they are.
- DealScoring.Score: the arithmetic is on exact reals, not IEEE doubles. Rounding error in `x / 50 * 100` and the other products is not modelled.
- DealScoring.Score: the sector and round tables are keyed by string. The object's inherited keys (`"toString"` and the like) are not modelled.
- Kpi.TickCompany: the tick's new values come from caller-supplied noise functions. `Math.random`, the ±0.5 size and `toFixed(2)` rounding are not modelled, so only the shape of the tick is proved.
- Kpi.Months: months are calendar values, not the `toISOString().slice(0, 7)` labels. East of UTC (UTC+7, say) local midnight on the first of a month is still the previous day in UTC, so every label there names the month before.
- Kpi.SeedSeriesAscending: "ending at the current month" holds for the labels only at UTC or west of it; east of UTC each label is one month early (the series stays six strictly ascending months).
- Pipeline.DealSearchStore.SearchDeals: the two updates are composed with nothing in between. Overlapping searches (the last to finish wins) are concurrency and are left out.
- Alerts.FormatTime: the clock reading and `toLocaleDateString` are parameters. The age in milliseconds is given, or None when the timestamp does not parse.
- Reports.NewReport: `Date.now()` and today's date are parameters.
- The 3000 ms report delay, the 2000 ms screening and search delays, the 1500 ms deal-scoring timer (`DealScoring.tsx:43-83`), and the 1200 ms and 800 ms mock delays are not modelled. Each awaited step is split into a before and an after method.
- ValuationForm.ValuationFormState.Compute: the request body (`Number` of each field) and the server's valuation formulas are not modelled. The response is a parameter.
- The PDF export of `ValuationForm.tsx` and every rendering and styling branch are not modelled.
- DealsRoute.Results: each query parameter is a single string or absent. Express's repeated parameters (arrays) are not modelled.
- The sample companies other than GreenEnergy Innovations, the sample alerts and the sample reports are data only. They are not modelled.
- Screening.ApplyView: the comparators are modelled on integer keys, where `b - a` is exact.
- Screening.ScoreCompany: weights are integers. Clearing a weight field stores `parseInt("")`, which is NaN (`InvestmentScreening.tsx:698`). The score `+=` (`:293`) would then be NaN, and that is not modelled.
- Screening.RunScreening: for the same reason, only integer weights are covered. A NaN weight would make the scores NaN and the sort comparator NaN, and that case is not modelled.
- The weighted valuation and scenario averages of `AdvancedValuation.tsx` are floating-point display values and are not modelled.
