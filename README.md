# TruLead lead pipeline in Dafny

A verified model of the logic of TruLead AI, a lead discovery dashboard.
The model covers:

- **Generation** (`LeadGenerator`): synthetic leads are drawn from constant tables, honouring the filter form. A batch is ranked by relevance, highest first, with a stable sort.
- **Lead view** (`LeadManagement`): the lead manager's view is a search over four fields, then a status filter, then an industry filter, then a sort by a chosen key and direction. The module also covers the per-status counts, the distinct industry list and the with-notes count.
- **Card edits** (`LeadCard`): a lead card replaces, by id, the stored record with a copy carrying a new status or new notes.
- **Quota** (`Account`, `Discovery`):
  - the signed-in user record;
  - its daily quota rollover;
  - the discovery panel, a class holding the quota, the filter form, the last discovered batch and the stored leads. It refuses discovery when the quota is spent; otherwise it debits `min(8, remaining)` and appends the batch.
- **Analytics** (`Analytics`):
  - the four-way status split;
  - the industry and country tallies, built in first-appearance order by a loop that bumps or appends;
  - the weekly series totals;
  - the response rate, the average relevance and the status shares, each guarded against division by zero;
  - the best-performing industry.
- **Insights** (`Insights`): the sales insight for a lead is built by conditional pushes of tagged sections, closed by three conversation starters, and joined with blank lines.

Shared pieces:

- `Leads` holds the data model.
- `Sorting` holds the sort keys and a stable insertion sort that stands for `Array.prototype.sort`.
- `Text` holds the string helpers: ASCII lower-casing, substring search, decimal rendering and joining.
- `Collections` holds filtering, tabulation and first-appearance de-duplication.
- `Wrappers` holds `Option`.

### Modelling conventions

- **Randomness.** Each `Math.random()` is a draw `k < 2^53` standing for `k / 2^53`. The draws come from a caller-supplied stream, consumed in the order the source evaluates its calls. So `Math.floor(Math.random() * n)` is `(k * n) / 2^53`.
- **Ids.** Lead ids are issued by a caller-supplied function, because `Date.now()` and the base-36 suffix are not modelled. The suffix's draw is still consumed.
- **Storage.** The stored lead collection (`truleadai_leads`) is a value, or a field of the discovery panel, rather than browser storage.
- **Sort order.** The generator's comparator `b.relevanceScore - a.relevanceScore` is consistent. The sort is therefore modelled as a stable insertion sort. `Sorting.StableSortIsUnique` shows that any sorted, tie-preserving arrangement equals it.
- **The page's comparator.** It never returns 0 (components/dashboard/LeadManagement.tsx:74-78). For the view, therefore, only sortedness and contents are promised.

### Corner cases the model takes from the code

The model follows the code, as cited, in each of these cases:

- The relevance score (lib/leadGenerator.ts:80) is commented "60-100", but `Math.floor(Math.random() * 40) + 60` lies in [60, 99].
- The view comparator (components/dashboard/LeadManagement.tsx:74-78) answers only 1 or -1, never 0, so the view's tie order is not defined.
- A card edit whose id is not stored (components/dashboard/LeadCard.tsx:70-71 and 83-84) leaves every stored lead as it is. A discovery with no quota left (components/dashboard/LeadDiscoveryEngine.tsx:100-102) returns at once. Neither reports an error.
- The employee-count test (lib/aiInsights.ts:22) is a substring test, so the `501-1000` bracket also selects the startup section (`Insights.MidSizeCountsAsStartup`).

## Model

| member | source | states |
|---|---|---|
| Leads.StatusNameInjective | components/dashboard/LeadCard.tsx:129-132 | The four status labels are pairwise distinct, so a label names exactly one status |
| Leads.CountStatusIsMultiplicity | components/dashboard/LeadManagement.tsx:87-90 | Counting the leads with a status gives that status's multiplicity among the leads' statuses |
| Leads.StatusCountsSum | components/dashboard/LeadManagement.tsx:86-90 | The four per-status counts add up to the number of leads |
| Text.ToLower | components/dashboard/LeadManagement.tsx:47-50 | `toLowerCase` on ASCII: same length, each letter mapped to its lower case, no upper-case letter left |
| Text.ToLowerIdempotent | components/dashboard/LeadManagement.tsx:47-50 | Lower-casing twice is lower-casing once |
| Text.ToLowerAppend | lib/leadGenerator.ts:62 | Lower-casing a concatenation lower-cases each part |
| Text.KeepLowerAlnum | lib/leadGenerator.ts:62 | `replace(/[^a-z0-9]/g, '')`: every lower-case letter and digit of the input is kept, as often as it occurs, and nothing else remains |
| Text.KeepLowerAlnumAppend | lib/leadGenerator.ts:62 | The removal of a concatenation is the concatenation of the removals, so the kept characters stay in input order |
| Text.KeepLowerAlnumIsFilter | lib/leadGenerator.ts:62 | The removal is the filter by "lower-case letter or digit" |
| Text.KeepLowerAlnumIdentity | lib/leadGenerator.ts:62 | A string of lower-case letters and digits is left as it is |
| Text.KeepLowerAlnumIdempotent | lib/leadGenerator.ts:62 | Removing the non-alphanumerics twice is removing them once |
| Text.ContainsIffOccurs | components/dashboard/LeadManagement.tsx:47-50 | `includes` holds exactly when the term occurs at some position |
| Text.DecimalRoundTrip | lib/aiInsights.ts:74 | The decimal rendering of a number reads back as that number |
| Text.DecimalLength | lib/aiInsights.ts:74 | Three-digit numbers render with three digits, four-digit ones with four |
| Text.JoinEndsWithLast | lib/aiInsights.ts:79 | `join(sep)` of one item is the item; of more it is the join of all but the last, the separator and the last |
| Text.JoinContainsFirst | lib/aiInsights.ts:77 | Whatever the first joined item contains, the joined text contains |
| Text.JoinContainsLast | lib/aiInsights.ts:79 | Whatever the last joined item contains, the joined text contains |
| Text.StrLtIrreflexive | components/dashboard/LeadManagement.tsx:75-77 | No string is less than itself in code-point order |
| Text.StrLtTransitive | components/dashboard/LeadManagement.tsx:75-77 | The string order is transitive |
| Text.StrLtTrichotomy | components/dashboard/LeadManagement.tsx:75-77 | Any two strings are equal or ordered one way or the other |
| Collections.Filter | components/dashboard/LeadManagement.tsx:46-61 | `Array.prototype.filter`: never longer, members are exactly the input members satisfying the predicate |
| Collections.FilterMultiset | components/dashboard/LeadManagement.tsx:46-61 | Filtering keeps every occurrence of an accepted element and none of a rejected one |
| Collections.FilterAppend | components/dashboard/LeadManagement.tsx:46-61 | Filtering distributes over concatenation |
| Collections.DistinctHasNoDuplicates | components/dashboard/LeadManagement.tsx:95 | `[...new Set(xs)]` holds no element twice |
| Collections.DistinctFirstAppearanceOrder | components/dashboard/LeadManagement.tsx:95 | The de-duplicated elements keep the order of their first appearance |
| Collections.DistinctSnoc | components/dashboard/LeadManagement.tsx:95 | Appending a seen element leaves the set's list alone; appending a new one adds it at the end |
| Sorting.InOrderTotal | lib/leadGenerator.ts:94 | For any key and direction, of two leads one may precede the other |
| Sorting.InOrderTransitive | lib/leadGenerator.ts:94 | The sort order is transitive |
| Sorting.InOrderAntisymmetric | lib/leadGenerator.ts:94 | Leads ordered both ways have equal keys |
| Sorting.InsertPermutation | lib/leadGenerator.ts:94 | Inserting a lead adds exactly that lead |
| Sorting.SortLeadsPermutation | lib/leadGenerator.ts:94 | Sorting rearranges the leads: the same multiset |
| Sorting.InsertSorted | lib/leadGenerator.ts:94 | Inserting into a sorted list keeps it sorted |
| Sorting.SortLeadsSorted | lib/leadGenerator.ts:94 | The sort's output is sorted by the key in the direction |
| Sorting.WithKeyMembers | lib/leadGenerator.ts:94 | The leads with a given key are exactly the members having that key |
| Sorting.InsertStable | lib/leadGenerator.ts:94 | Inserting a lead does not reorder the leads of any one key |
| Sorting.SortLeadsStable | lib/leadGenerator.ts:94 | Leads with equal keys keep their input order: the sort is stable |
| Sorting.SortedStableUnique | lib/leadGenerator.ts:94 | Two sorted lists with the same leads per key, in the same order, are equal |
| Sorting.StableSortIsUnique | lib/leadGenerator.ts:94 | Any sorted arrangement keeping each key's input order is the insertion sort's output, so any stable engine sort agrees with the model |
| LeadGenerator.ShippedCountries | lib/leadGenerator.ts:39-45 | The keys of the shipped city table, in order, are the five countries |
| LeadGenerator.Pick | lib/leadGenerator.ts:56-80 | `Math.floor(Math.random() * n)` lies below `n` |
| LeadGenerator.PickReachesEvery | lib/leadGenerator.ts:56-80 | Every index below `n` is reached by some draw |
| LeadGenerator.PickFrom | lib/leadGenerator.ts:56-77 | A random table pick is an entry of the table |
| LeadGenerator.ListedIsMembership | lib/leadGenerator.ts:56-77 | Being picked from a table is being a member of it |
| LeadGenerator.LookupCities | lib/leadGenerator.ts:58 | The city lookup finds a list exactly when the country is a key, and then it is that key's list |
| LeadGenerator.AvailableCities | lib/leadGenerator.ts:58 | A listed country gives its city list; any other country gives `['Unknown City']` |
| LeadGenerator.FranceHasUnknownCity | lib/leadGenerator.ts:58-59 | France is not in the table, so its only city is `Unknown City` |
| LeadGenerator.DomainOf | lib/leadGenerator.ts:62 | The domain ends in `.com`; its stem holds exactly the lower-case letters and digits of the lower-cased name, each as often as there |
| LeadGenerator.DomainOfAppend | lib/leadGenerator.ts:62 | The stem of a name's first part comes first in the domain of the whole name, so the stem keeps the name's order |
| LeadGenerator.DomainOfPlainName | lib/leadGenerator.ts:62 | A name already in lower-case letters and digits becomes `name.com` |
| LeadGenerator.DescriptionMentions | lib/leadGenerator.ts:78 | The description names the lower-cased industry, the city and the country |
| LeadGenerator.Phone | lib/leadGenerator.ts:74 | The phone is `+1-ddd-ddd-dddd` |
| LeadGenerator.DrawsPerLead | lib/leadGenerator.ts:56-80 | A lead takes between 10 and 12 draws: 10, plus one each for an unfilled industry and country |
| LeadGenerator.DrawnIndustry | lib/leadGenerator.ts:56 | `filters.industry || pick(industries)`: a filled-in industry is copied, an empty one is drawn from the table |
| LeadGenerator.DrawnCountry | lib/leadGenerator.ts:57 | `filters.country || pick(Object.keys(cities))`: a filled-in country is copied, an empty one is drawn from the city table's keys |
| LeadGenerator.LeadFrom | lib/leadGenerator.ts:58-83 | The lead's city, company, website, email, brackets, founding year (2000-2023), relevance (60-99), description, status `New` and empty notes all come from the tables and templates; the phone has the `+1-ddd-ddd-dddd` shape |
| LeadGenerator.LeadFromFrame | lib/leadGenerator.ts:59-80 | After industry and country, a lead depends only on the ten draws from its start on |
| LeadGenerator.RandomLead | lib/leadGenerator.ts:55-84 | `generateRandomLead`: the lead is well formed; a filled-in industry or country is copied, an empty one is drawn from its table |
| LeadGenerator.RandomLeadFrame | lib/leadGenerator.ts:55-84 | A lead depends only on its own `DrawsPerLead` draws: two random streams that agree there give the same lead |
| LeadGenerator.FirstDrawIsProduct | lib/leadGenerator.ts:89-91 | Lead `i` of a batch starts drawing after `i` leads' worth of draws |
| LeadGenerator.DrawsDisjoint | lib/leadGenerator.ts:89-91 | The leads of a batch use disjoint stretches of draws: every draw of an earlier lead comes before the first draw of a later one |
| LeadGenerator.NthLead | lib/leadGenerator.ts:89-91 | The `i`-th generated lead is well formed and carries the `i`-th id |
| LeadGenerator.Generated | lib/leadGenerator.ts:87-91 | The loop produces `n` leads |
| LeadGenerator.GeneratedAt | lib/leadGenerator.ts:87-91 | The `i`-th pushed lead is the `i`-th generated lead |
| LeadGenerator.GeneratedWellFormed | lib/leadGenerator.ts:87-91 | Every pushed lead is well formed |
| LeadGenerator.RelevanceComparatorOrder | lib/leadGenerator.ts:94 | `b.relevanceScore - a.relevanceScore <= 0` exactly when `a` may come first, highest first; it is 0 exactly on equal scores |
| LeadGenerator.LeadBatch | lib/leadGenerator.ts:86-95 | A batch of `n` leads |
| LeadGenerator.GenerateLeadBatch | lib/leadGenerator.ts:86-95 | `generateLeadBatch(count)`: `count` leads for positive `count`, none otherwise, equal to the ranked batch |
| LeadGenerator.PushAndRank | lib/leadGenerator.ts:87-94 | The push loop followed by the sort gives the stable relevance sort of the tabulated leads |
| LeadGenerator.LeadBatchProperties | lib/leadGenerator.ts:86-95 | The batch is non-increasing in relevance and a permutation of the generated leads. Leads of equal relevance keep their generation order, and every lead is well formed |
| LeadGenerator.RelevanceSortProperties | lib/leadGenerator.ts:94 | Sorting well-formed leads by relevance is non-increasing, a stable permutation, and keeps them well formed |
| LeadManagement.MatchesSearchIffOccurs | components/dashboard/LeadManagement.tsx:45-52 | A lead matches a search exactly when the lower-cased term occurs in the lower-cased company, industry, city or country |
| LeadManagement.EmptySearchMatchesAll | components/dashboard/LeadManagement.tsx:45 | The empty term matches every lead |
| LeadManagement.StatusFilterSelects | components/dashboard/LeadManagement.tsx:55-57 | The filter for a status label keeps exactly the leads with that status |
| LeadManagement.ViewComparatorOrder | components/dashboard/LeadManagement.tsx:65-79 | The comparator returns 1 exactly when the pair is out of order, never returns 0, and so answers ±1 on ties |
| LeadManagement.ApplyView | components/dashboard/LeadManagement.tsx:41-82 | The view holds each selected lead as often as it is stored, and no unselected one. It is sorted by the key and direction, and never longer than the leads |
| LeadManagement.InitialViewShowsAll | components/dashboard/LeadManagement.tsx:25-29 | From the initial state (no search, both filters "all", relevance descending) the view shows every stored lead, highest relevance first |
| LeadManagement.ViewUnique | components/dashboard/LeadManagement.tsx:41-82 | Any two views of the same leads and criteria hold the same leads |
| LeadManagement.ViewIdempotent | components/dashboard/LeadManagement.tsx:45-62 | Viewing a view again with the same criteria shows the same leads |
| LeadManagement.ViewAdjacentOrder | components/dashboard/LeadManagement.tsx:65-79 | Adjacent shown keys are non-decreasing ascending and non-increasing descending; `company` is compared lower-cased |
| LeadManagement.Toggle | components/dashboard/LeadManagement.tsx:97-99 | Toggling always changes the direction |
| LeadManagement.ToggleInvolution | components/dashboard/LeadManagement.tsx:97-99 | Toggling twice restores the direction |
| LeadManagement.GetStatusCounts | components/dashboard/LeadManagement.tsx:84-92 | `all` is the number of leads, each entry is its status's multiplicity, and the four entries sum to `all` |
| LeadManagement.IndustriesOf | components/dashboard/LeadManagement.tsx:95 | `leads.map(lead => lead.industry)` |
| LeadManagement.IndustryList | components/dashboard/LeadManagement.tsx:95 | Every industry present appears exactly once, in order of first appearance |
| LeadManagement.WithNotesCount | components/dashboard/LeadManagement.tsx:154 | The count is the length of the leads filtered by non-empty notes: at most the number of leads, 0 exactly when no lead has notes, all exactly when every lead has notes |
| LeadCard.ReplaceById | components/dashboard/LeadCard.tsx:70-72 | The map over the stored leads keeps the length |
| LeadCard.ReplaceByIdPointwise | components/dashboard/LeadCard.tsx:70-72 | Records with the id become the updated lead; all others are unchanged |
| LeadCard.MissingIdUnchanged | components/dashboard/LeadCard.tsx:69-73 | If no record has the id, the collection is unchanged, with no error |
| LeadCard.IdsOf | components/dashboard/LeadCard.tsx:70-72 | The ids of the stored records, in order |
| LeadCard.ReplaceKeepsIds | components/dashboard/LeadCard.tsx:70-72 | Replacing by id keeps the ids and their order |
| LeadCard.ReplaceIdempotent | components/dashboard/LeadCard.tsx:70-72 | Applying the same replacement twice is applying it once |
| LeadCard.HandleStatusChange | components/dashboard/LeadCard.tsx:64-74 | The card shows the lead with the new status; the stored record with its id becomes that lead, the others are unchanged |
| LeadCard.HandleNotesChange | components/dashboard/LeadCard.tsx:76-87 | The card shows the lead with the new notes, wholesale; the matching stored record becomes that lead, the others are unchanged |
| LeadCard.AnyStatusReachable | components/dashboard/LeadCard.tsx:124-133 | Any status can be chosen from any status, and the stored record follows |
| LeadCard.EditsTouchOneField | components/dashboard/LeadCard.tsx:64-79 | A status edit changes only the status, a notes edit only the notes |
| Account.User.SignIn | app/auth/login/page.tsx:20-28 | The sign-in record for the role is built with quota 100, none used, reset today |
| Account.User.ResetIfNewDay | app/dashboard/page.tsx:35-40 | On a new day, the used quota becomes 0 and the reset date today. On the same day nothing changes. Identity, role and daily quota are untouched, and a valid quota stays valid |
| Account.RolloverIdempotent | app/dashboard/page.tsx:36-39 | Rolling over twice on one day is rolling over once, and the id, name, email, role and daily quota are untouched |
| Discovery.ChangeFilter | components/dashboard/LeadDiscoveryEngine.tsx:71-87 | The changed field takes the value, every location field below it is emptied, and every other field is kept |
| Discovery.LeafChangesClearNothing | components/dashboard/LeadDiscoveryEngine.tsx:70-88 | Changing the city or the industry leaves every other field alone |
| Discovery.BatchSize | components/dashboard/LeadDiscoveryEngine.tsx:111 | `min(8, dailyQuota - usedQuota)` |
| Discovery.BatchSizeBounds | components/dashboard/LeadDiscoveryEngine.tsx:101-111 | Past the guard the batch holds 1 to 8 leads and fits the remaining quota |
| Discovery.DiscoveryEngine.constructor | components/dashboard/LeadDiscoveryEngine.tsx:42-49 | The panel starts with the user's quota, empty filters, no discovered leads and the stored leads |
| Discovery.DiscoveryEngine.HandleFilterChange | components/dashboard/LeadDiscoveryEngine.tsx:70-88 | The form becomes the changed filters, and nothing else changes |
| Discovery.DiscoveryEngine.ClearFilters | components/dashboard/LeadDiscoveryEngine.tsx:90-98 | All five fields become empty, and nothing else changes |
| Discovery.DiscoveryEngine.EnabledPassesGuard | components/dashboard/LeadDiscoveryEngine.tsx:233 | The button is enabled exactly when no discovery runs and the quota guard would pass |
| Discovery.DiscoveryEngine.DiscoverLeads | components/dashboard/LeadDiscoveryEngine.tsx:100-131 | A spent quota changes nothing. Otherwise a batch of `min(8, remaining)` leads is generated with the current filters and shown. The quota is debited by its size, and the batch is appended to the stored leads. A valid quota stays valid, and the filters and daily quota are untouched |
| Discovery.DiscoveryEngine.Accept | components/dashboard/LeadDiscoveryEngine.tsx:114-128 | The batch is shown, debited and appended |
| Discovery.QuotaScenario | components/dashboard/LeadDiscoveryEngine.tsx:101-128 | With 96 of 100 used, discovery gives 4 leads and reaches 100; the next discovery adds nothing |
| Analytics.StatusData | components/dashboard/AnalyticsDashboard.tsx:47-52 | Four slices in the order New, High Potential, Follow-up, Not Connected, each the count of its status, summing to the number of leads |
| Analytics.KeysOf | components/dashboard/AnalyticsDashboard.tsx:54-73 | The keys of the tally rows, in order |
| Analytics.TotalCountSnoc | components/dashboard/AnalyticsDashboard.tsx:59 | Appending a row adds its count to the total |
| Analytics.TotalCountUpdate | components/dashboard/AnalyticsDashboard.tsx:57 | Changing one row changes the total by the difference |
| Analytics.FindKey | components/dashboard/AnalyticsDashboard.tsx:55 | `acc.find` gives the first row with the key, or none |
| Analytics.TallyBump | components/dashboard/AnalyticsDashboard.tsx:56-57 | Bumping the row of a seen key keeps the tally exact for the extended keys |
| Analytics.TallyAdd | components/dashboard/AnalyticsDashboard.tsx:58-59 | Appending a row with count 1 for an unseen key keeps the tally exact |
| Analytics.TalliedIsTally | components/dashboard/AnalyticsDashboard.tsx:54-62 | The reduce gives the keys' distinct list with each key's multiplicity, at least 1, totalling the number of keys |
| Analytics.TallyProperties | components/dashboard/AnalyticsDashboard.tsx:54-73 | A tally's keys are exactly the keys seen, each once, in order of first appearance |
| Analytics.CountByKey | components/dashboard/AnalyticsDashboard.tsx:54-73 | The find-and-bump-or-push loop yields distinct keys in first-appearance order, each counted exactly (at least 1), totalling the input length |
| Analytics.CountriesOf | components/dashboard/AnalyticsDashboard.tsx:65 | The leads' countries, in order |
| Analytics.IndustryData | components/dashboard/AnalyticsDashboard.tsx:54-62 | One row per distinct industry in first-appearance order, with its count (at least 1), counts summing to the number of leads |
| Analytics.LocationData | components/dashboard/AnalyticsDashboard.tsx:64-73 | The same per country |
| Analytics.ReduceMax | components/dashboard/AnalyticsDashboard.tsx:347 | The reduce with strict `>` ends on a row of maximal count that no earlier row reaches |
| Analytics.BestIndustry | components/dashboard/AnalyticsDashboard.tsx:346-348 | None exactly for no data; otherwise the key of the first row of maximal count |
| Analytics.WeeklyTotals | components/dashboard/AnalyticsDashboard.tsx:76-88 | The weekly series totals 92 discovered, 64 contacted, 30 responded |
| Analytics.TotalMonotone | components/dashboard/AnalyticsDashboard.tsx:86-88 | Summing a column that is row-wise smaller gives a smaller total |
| Analytics.ResponseRate | components/dashboard/AnalyticsDashboard.tsx:89 | Zero when nobody was contacted, else responded × 100 over contacted |
| Analytics.ResponseRateAtMost100 | components/dashboard/AnalyticsDashboard.tsx:89 | With responses never above contacts, the rate is between 0 and 100 |
| Analytics.WeeklyResponseRate | components/dashboard/AnalyticsDashboard.tsx:89 | For the fixed series the rate is 3000/64 (46.875) |
| Analytics.AvgRelevance | components/dashboard/AnalyticsDashboard.tsx:91-93 | Zero for no leads, else the score sum over the number of leads: no division by zero |
| Analytics.ScoreSumBounds | components/dashboard/AnalyticsDashboard.tsx:91-92 | Scores within bounds give a sum within the bounds times the count |
| Analytics.AvgRelevanceInRange | components/dashboard/AnalyticsDashboard.tsx:91-93 | For generated scores (60-99) the average lies in [60, 99] |
| Analytics.StatusShare | components/dashboard/AnalyticsDashboard.tsx:265 | Zero for no leads, else value × 100 over the lead count |
| Analytics.StatusSharesSum | components/dashboard/AnalyticsDashboard.tsx:265 | Each share is at most 100% and the four shares add up to exactly 100% |
| Insights.Category | lib/aiInsights.ts:21-77 | Each section belongs to one of the six blocks |
| Insights.Starters | lib/aiInsights.ts:71-75 | Three starters: the first names the company, lower-cased industry and city; the second the company and industry; the third the company and founding year |
| Insights.RenderAll | lib/aiInsights.ts:79 | Each section rendered in its place |
| Insights.GenerateInsight | lib/aiInsights.ts:14-80 | The sections are the insight's conditional blocks plus the starters, and the text is their rendering joined by a blank line |
| Insights.PushSections | lib/aiInsights.ts:19-77 | The sequence of conditional pushes yields the size, industry, revenue, location and age blocks, then the starters |
| Insights.BlocksAreSmall | lib/aiInsights.ts:21-68 | Each block holds at most one section, of its own category |
| Insights.OrderedAppend | lib/aiInsights.ts:19-77 | Pushing a later block keeps the sections in block order |
| Insights.InsightSectionsOrder | lib/aiInsights.ts:19-77 | Sections come in block order, 1 to 6 of them, the starters always last |
| Insights.InsightMembership | lib/aiInsights.ts:19-77 | A section is present exactly when one of the blocks holds it or it is the starters |
| Insights.SizeSections | lib/aiInsights.ts:22-26 | Startup exactly when the bracket contains `1-10`; enterprise exactly when it contains `1000+` and not `1-10`; never both |
| Insights.IndustrySectionsPresent | lib/aiInsights.ts:29-39 | An industry section exactly for the five tabled industries, and it is the table's section |
| Insights.RevenueSections | lib/aiInsights.ts:42-46 | Budget exactly for `<$1M` or `$1M-$10M`; else high value exactly for `$100M+` |
| Insights.LocationSectionsPresent | lib/aiInsights.ts:49-58 | A location section exactly for the four tabled countries, and it is the table's section |
| Insights.AgeSections | lib/aiInsights.ts:61-68 | Growth when younger than 5 years, established when older than 20, neither in between |
| Insights.MidSizeCountsAsStartup | lib/aiInsights.ts:22 | `501-1000` contains `1-10`, so mid-size companies get the startup section |
| Insights.InsightNamesCompany | lib/aiInsights.ts:71-79 | The insight text names the company |
| Insights.ClosingStartersName | lib/aiInsights.ts:77-79 | A text closing with starters contains whatever the first starter contains |

## Left out

- Browser storage (`localStorage`, `JSON.parse`/`stringify`): it is plumbing. The stored leads and the user record are values or fields.
- Timers, `async`/`await` and the `isDiscovering`/`showLeads` flags: they only pace the interface. The discover button's `isDiscovering` is a parameter.
- `Date.now()`, the base-36 id suffix and `new Date()`: ids, `today` and `currentYear` are parameters.
- Floating point:
  - `toFixed(1)` and the percentages are integer numerator/denominator pairs with their zero guards;
  - `Math.random() * n` is taken as exact, with no rounding of the float product.
- LeadManagement.ApplyView: promises sortedness and contents only, not the order of ties. The page's comparator never returns 0, so the engine's tie order is unspecified. The model's insertion sort is one admissible order.
- Text.ToLower: lower-cases ASCII letters only. The model has no Unicode case mapping.
- Text.StrLt: compares characters by code point. JavaScript compares UTF-16 code units, which differs for characters above U+FFFF against U+E000 to U+FFFF; that is not modelled.
- React state synchronisation between the card, the lead list and the user prop (`setUser`): the discovery panel keeps its own copy of the quota.
- The `tasks` field: it is always empty and never read.
- Emoji and advice text of the insights: sections are tags with their bold headings.
- The continent, country and industry option lists of the discovery form: the `Select` items limit which values reach `handleFilterChange`. The model accepts any string there, which generalises the form.
- The object-prototype lookups of the insight tables and of the generator's `cities[country]` (`LeadGenerator.AvailableCities`): an industry or country equal to an inherited property name such as `constructor` is not modelled.
- The generator works for any tables with no empty list. `Shipped` holds the repository's tables.
- The presentation-only components (quick stats, static insight and activity lists, layout, routing pages) and all rendering.
