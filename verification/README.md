# Community dashboard: filtering, sorting and tier gating

This project models the decision logic of a dashboard that lists residential
"communities" (developments by home builders). The logic covers:

- which records a set of filters keeps;
- how a click on a column header changes the sort;
- the order the sorted table shows;
- how the map view can replace the filtered list;
- which cells each subscription tier (Basic, Pro, Intelligence) sees;
- the small state machines of the table and of the filter panel.

Everything is pure functions over immutable values. The map library is
reduced to one `contains(lat, lng)` predicate. The modules follow the
program's files:

| module | file | what it holds |
|---|---|---|
| `Types` | src/types/dashboard.ts | `Community`, `FilterState`, `Status`, `Tier`, `Option` |
| `Seqs` | (library) | `Array.prototype.filter` as `Filter`, and the subsequence relation |
| `Text` | (library) | string `<`, ASCII `toLowerCase`, `includes`, decimal rendering |
| `Filtering` | src/components/Dashboard.tsx | the filter effect, the map-view handler |
| `Sorting` | src/components/Dashboard.tsx | `handleSort`, the comparator, the stable sort |
| `Dashboard` | src/components/Dashboard.tsx | the table rows: filter then sort, and worked scenarios |
| `Table` | src/components/DataTable.tsx | tier cells, unlock label, sort arrow, expanded rows, status colour |
| `Panel` | src/components/MapPanel.tsx | filter edits, county and status choices |
| `Tiers` | src/App.tsx | the tier switcher's cycle |

The sort is modelled as a stable insertion sort driven by the dashboard's
comparator. Since ES2019 `Array.prototype.sort` is stable, and with a
consistent comparator every stable sort produces the same sequence. The
proofs show that the comparator is consistent: it is antisymmetric and
transitive, and it returns 0 exactly on equal keys.

## Model

| member | source | states |
|---|---|---|
| Seqs.Filter | src/components/Dashboard.tsx:110-128 | one filter pass yields a subsequence of its input, no longer than it, whose every element satisfies the predicate |
| Seqs.FilterCounts | src/components/Dashboard.tsx:110-128 | one filter pass keeps every occurrence of each satisfying element and drops all others, so membership in the result is membership in the input plus the predicate |
| Seqs.SubsequenceTransitive | src/components/Dashboard.tsx:110-128 | passes applied one after another still yield a subsequence of the original list |
| Filtering.StagesAreSubsequences | src/components/Dashboard.tsx:110-128 | the list after each of the four passes is an order-preserving subsequence of the catalog |
| Seqs.FilterTwice | src/components/Dashboard.tsx:110-128 | two successive passes select what one pass by the conjunction selects |
| Text.Contains | src/components/Dashboard.tsx:122 | `includes` is true iff the needle occurs at some position of the text; the empty needle occurs everywhere |
| Text.Lower | src/components/Dashboard.tsx:122 | lower-casing keeps the length, turns each capital A-Z into its small letter, and changes no other character |
| Text.LowerIgnoresCase | src/components/Dashboard.tsx:122 | two strings that differ only in ASCII case lower-case to the same string |
| Text.LexLessTotal | src/components/Dashboard.tsx:200-201 | string `<` orders any two different strings one way or the other |
| Text.LexLessTransitive | src/components/Dashboard.tsx:200-201 | string `<` is transitive |
| Text.Decimal | src/components/DataTable.tsx:146 | a count renders as digits without a leading zero that read back as the count |
| Types.LabelInjective | src/types/dashboard.ts:15 | the four status labels are distinct |
| Filtering.ApplyFilters | src/components/Dashboard.tsx:109-131 | the result is an order-preserving subsequence of the catalog holding exactly the records that pass every active criterion, with their multiplicities |
| Filtering.PipelineIsOnePass | src/components/Dashboard.tsx:110-130 | the four gated passes equal one pass by the conjunction of the criteria |
| Filtering.UnconstrainedKeepsAll | src/components/Dashboard.tsx:110-131 | with state, county and builder empty and no status, every record is kept in its original order |
| Filtering.StateCriterion | src/components/Dashboard.tsx:112-114 | with a state set, every kept record has that state |
| Filtering.CountyCriterion | src/components/Dashboard.tsx:116-118 | with a county set, every kept record has that county, whether or not a state is set |
| Filtering.BuilderCriterion | src/components/Dashboard.tsx:120-124 | a record meeting the other criteria is kept iff the lower-cased builder text occurs in its lower-cased builder name |
| Filtering.BuilderSearchIgnoresCase | src/components/Dashboard.tsx:120-124 | builder search texts that differ only in letter case keep the same records |
| Filtering.StatusCriterion | src/components/Dashboard.tsx:126-128 | a record meeting the other criteria is kept iff the status list is empty or holds its label |
| Filtering.MapViewChange | src/components/Dashboard.tsx:151-163 | without bounds or with map filtering off the displayed list is unchanged; otherwise it is the subsequence of the full catalog whose coordinates the bounds contain |
| Filtering.MapViewIgnoresOtherFilters | src/components/Dashboard.tsx:152-161 | the map narrowing depends neither on the list on display nor on the other filter fields |
| Sorting.HandleSort | src/components/Dashboard.tsx:133-140 | a click makes that column active; a new column starts ascending, the active column flips direction; no click returns to "no column" |
| Sorting.ReselectTwiceRestores | src/components/Dashboard.tsx:134-135 | two clicks on the active column restore the sort state |
| Sorting.KeyTrichotomy | src/components/Dashboard.tsx:200-202 | for two keys exactly one of `<`, equal, `>` holds |
| Sorting.Compare | src/components/Dashboard.tsx:166-203 | the comparator is 0 with no column; otherwise it is in -1..1, 0 iff the keys are equal, negative iff the first key is smaller (ascending) or larger (descending) |
| Sorting.CompareAntisymmetric | src/components/Dashboard.tsx:200-202 | swapping the two records negates the comparator |
| Sorting.CompareTransitive | src/components/Dashboard.tsx:200-202 | "not after" under the comparator is transitive |
| Sorting.SortCommunities | src/components/Dashboard.tsx:166-203 | the sorted list is a permutation of its input in which each record is not after its successor |
| Sorting.SortIsStable | src/components/Dashboard.tsx:166-203 | with an active column, the records sharing any one key keep their input order |
| Sorting.NoColumnKeepsOrder | src/components/Dashboard.tsx:166-167 | with no active column the sort returns its input unchanged |
| Sorting.SortIdempotent | src/components/Dashboard.tsx:166-203 | sorting the sorted list again changes nothing |
| Sorting.SortedPairwise | src/components/Dashboard.tsx:200-202 | in the sorted list every record is not after any later record |
| Dashboard.View | src/components/Dashboard.tsx:166 | the table rows are exactly the records passing the filters, with their multiplicities, in sorted order |
| Dashboard.InitialViewIsCatalog | src/components/Dashboard.tsx:93-103 | before any edit or click the table shows the whole catalog in its original order |
| Dashboard.NoColumnShowsFilterOrder | src/components/Dashboard.tsx:166-167 | without an active column the rows are the filter result as it stands |
| Dashboard.DateAddedScenario | src/components/Dashboard.tsx:188-202 | records added on 2024-01-15 and 2024-01-10 show earlier-first after one click on "Date Added" and later-first after two |
| Dashboard.BuilderSearchScenario | src/components/Dashboard.tsx:120-124 | searching "lennar" keeps the Lennar record and drops the D.R. Horton one |
| Table.ToggleRow | src/components/DataTable.tsx:24-32 | the toggled id changes membership and every other id keeps it |
| Table.ToggleRowTwice | src/components/DataTable.tsx:24-32 | toggling the same row twice restores the expanded set |
| Table.StatusColor | src/components/DataTable.tsx:34-42 | any label other than PRIME, RECENT and AGED gets the gray classes |
| Table.StatusColorsDistinguishStatuses | src/components/DataTable.tsx:34-42 | two statuses get the same colour iff they are the same status; ARCHIVED gets the default gray |
| Table.SortIcon | src/components/DataTable.tsx:44-47 | an arrow appears only on the active column: up for ascending, down for descending |
| Table.ClickedHeaderShowsArrow | src/components/DataTable.tsx:44-47 | after a click only the clicked header shows an arrow, and clicking it again turns the arrow around |
| Table.SitemapCellFor | src/components/DataTable.tsx:150-158 | the sitemap cell is locked iff the tier is Basic |
| Table.MetricCellFor | src/components/DataTable.tsx:161-172 | the homes-sold and average-price cells show their figure iff the tier is Intelligence, else the "coming soon" dash |
| Table.UnlockLabel | src/components/DataTable.tsx:146 | the label is "Unlock for " and " Credits" around digits, with no leading zero, that read back as the credit count |
| Table.UnlockLabelThreeCredits | src/components/DataTable.tsx:146 | a record costing 3 credits shows "Unlock for 3 Credits" |
| Table.UnlockLabelInjective | src/components/DataTable.tsx:146 | different credit counts give different labels |
| Table.RenderRow | src/components/DataTable.tsx:143-205 | a row's unlock label is "Unlock for N Credits" for its credit count N; it has a detail panel iff its id is expanded, the panel repeats that label and pricing factors, and the cells follow the tier rules |
| Table.UnlockLabelForEveryTier | src/components/DataTable.tsx:146 | every tier, expanded or not, sees the same label "Unlock for N Credits" for the record's credit count N |
| Table.FeaturesPerTier | src/components/DataTable.tsx:150-172 | Basic sees no gated feature, Pro the sitemap link only, Intelligence the link and both metrics |
| Table.FeaturesMonotone | src/components/DataTable.tsx:150-172 | a higher tier sees every gated feature a lower tier sees |
| Panel.StatusOptionsAreTheStatuses | src/components/MapPanel.tsx:166 | the checkboxes offer exactly the four status labels, each once |
| Panel.CountiesOf | src/components/MapPanel.tsx:159-164 | a state outside the table has no counties |
| Panel.OfferedStatesHaveCounties | src/components/MapPanel.tsx:158-164 | a state has counties iff the state dropdown offers it |
| Panel.CountyChoices | src/components/MapPanel.tsx:242-245 | the county dropdown offers "All Counties" first and then exactly the chosen state's counties, every one of them; with no state, nothing else |
| Panel.NoStateNoCounties | src/components/MapPanel.tsx:240-243 | with no state chosen the county control is disabled and offers only "All Counties" |
| Panel.SelectState | src/components/MapPanel.tsx:223 | choosing a state sets it and clears the county; the other fields are unchanged |
| Panel.SelectCounty | src/components/MapPanel.tsx:238 | choosing a county replaces only the county |
| Panel.EditBuilder | src/components/MapPanel.tsx:255 | typing replaces only the builder text |
| Panel.SetFilterByMap | src/components/MapPanel.tsx:290 | the map checkbox replaces only the map flag |
| Panel.ToggleStatus | src/components/MapPanel.tsx:270-274 | checking appends the status; unchecking removes every occurrence and keeps the other entries in order and number; other fields unchanged |
| Panel.ClickStatus | src/components/MapPanel.tsx:269-274 | a click on the controlled checkbox puts the status in the list iff it was absent |
| Panel.ClickStatusKeepsNoDuplicates | src/components/MapPanel.tsx:269-274 | checkbox clicks keep a duplicate-free status list duplicate-free |
| Panel.CheckThenUncheck | src/components/MapPanel.tsx:270-274 | checking and then unchecking a status that was not selected restores the filters |
| Panel.EditsKeepCountyConsistent | src/components/MapPanel.tsx:223-245 | edits made through the controls keep the county unset or one of the chosen state's counties |
| Tiers.NextTier | src/App.tsx:13 | the next tier is never the current one and is one rank up, wrapping from Intelligence to Basic |
| Tiers.CycleOfThree | src/App.tsx:13 | three presses return to the starting tier and one or two do not |
| Tiers.NextTierBijective | src/App.tsx:13 | the switcher is one-to-one and reaches every tier |

## Left out

- Google Maps rendering, markers, info windows, `fitBounds` and the loader's states: these are calls into a foreign library. The viewport is a caller-supplied `contains(lat, lng)` predicate.
- `handleMapViewChange` is modelled on its own, as `Filtering.MapViewChange`. The panel never passes it the bounds, because it does not destructure `onMapViewChange`, so the handler is never called.
- `handleUnlock` only writes to the console. The record has no `unlocked` flag and there is no credit ledger, so no unlock action is modelled. The code has no insufficient-credits outcome either.
- Dates are day numbers and `lotSize` is a real. Parsing date strings with `new Date`, invalid dates (whose comparisons are all false, so the comparator returns 0) and floating-point rounding are not modelled.
- Text.Lower: lower-cases only the ASCII letters A-Z. JavaScript's `toLowerCase` also maps other Unicode letters.
- Text.LexLess: compares characters as Unicode scalar values. JavaScript compares UTF-16 code units, and the two orders differ for characters outside the Basic Multilingual Plane.
- Sorting.Compare: the column is one of six named columns or none. The code's `default: return 0` branch for an unknown column string is left out because only the six names are ever stored.
- Table.UnlockLabel: `creditsRequired` is a natural number. A JavaScript number can also be fractional or negative, and from 1e21 up the JSX text renders it (`String(n)`) in exponent form ("1e+21"); none of these renderings is modelled.
- Out-of-range coordinates get no special treatment, matching the code. The bounds predicate alone decides.
- The header click, the panel toggle and the page chrome are left out, along with the mock data array. The sample records in `Dashboard` are only examples.

Behaviour of the code worth noting:

- the map narrowing starts from the full catalog and replaces the filtered list, rather than narrowing it further;
- the status filter is a list, not a set; because the checkboxes are controlled, a click checks only an absent status and unchecking removes every occurrence, so clicks never create a duplicate (`Panel.ClickStatusKeepsNoDuplicates`);
- the county filter is applied literally even when no state is set.
