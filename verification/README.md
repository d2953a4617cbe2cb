# Country browser home page, modelled in Dafny

The home page of the country browser fetches the whole country collection
once, keeps it in component state together with a search query and a region
selector, and on every render shows one of three things: a loading text, an
error text, or a grid with one card per visible country. A country is visible
when its lower-cased common name contains the lower-cased query and, if a
region is selected, its region is exactly that region. Fetch order is kept.

The model, one module per concept:

- `Wrappers` (`wrappers.dfy`): `Option`, for JavaScript's `null` / `undefined`.
- `Text` (`text.dfy`): lower-casing as an ASCII fold, the substring predicate
  `Contains`, and `Includes`, the left-to-right scan that decides it.
- `Seqs` (`seqs.dfy`): `Filter`, the behaviour of `Array.prototype.filter`,
  and what it means to be a subsequence (an order-preserving embedding).
- `Countries` (`countries.dfy`): the `Country` record (the fields the page
  reads) and the text of the capital cell.
- `Search` (`search.dfy`): the two tests and `Visible`, the filtered list.
- `HomePage` (`homepage.dfy`): the five state hooks as one `State`, the fetch
  outcome as an input (`Fetched(data)` or `FetchFailed`), the transitions,
  the render selector, and sessions as sequences of events.
- `Scenarios` (`scenarios.dfy`): concrete sessions with one fetched country.

The network request is not modelled: its outcome is a parameter of
`HomePage.Resolve`. The effect is assumed to settle the fetch at most once per
session where a lemma says so (`HomePage.RunKeepsConsistent`); the transition
itself is total, and `HomePage.SuccessAfterFailureKeepsError` states what the
code does if a failure is followed by a success (the error is never cleared,
so the error text stays on screen even though the data is stored).

A present but empty `capital` array shows no capital (`capital[0]` is
`undefined`); "N/A" appears only when the array is absent. The page keeps
`loading` and `error` as separate hooks and the render checks them in that
order, loading first.

## Model

| member | source | states |
|---|---|---|
| Text.Lower | src/pages/HomePage.js:27 | lower-casing keeps the length and leaves no upper-case ASCII letter |
| Text.Contains | src/pages/HomePage.js:27 | a contained query is never longer than the name, and every string contains itself |
| Text.Includes | src/pages/HomePage.js:27 | the scan answers true exactly when the query occurs as a contiguous substring of the name at some position |
| Text.ContainsEmpty | src/pages/HomePage.js:27 | the empty query is a substring of every name |
| Text.LowerIdempotent | src/pages/HomePage.js:27 | lower-casing an already lower-cased string changes nothing |
| Text.LowerCharEqualIffSameCase | src/pages/HomePage.js:27 | two characters lower-case to the same character if and only if they are equal or are the same letter in the two cases |
| Text.LowerEqualIffSameUpToCase | src/pages/HomePage.js:27 | two strings lower-case to the same string if and only if, position by position, the characters are equal or are the same letter in the two cases |
| Text.UpperSameUpToCase | src/pages/HomePage.js:27 | upper-casing a string changes only the case of letters, so it lower-cases to the same string |
| Seqs.Filter | src/pages/HomePage.js:26-30 | the filtered list is never longer than its input |
| Seqs.FilterMembership | src/pages/HomePage.js:26-30 | every kept element comes from the input and passes the test, and every element of the input that passes is kept |
| Seqs.FilterIsSubsequence | src/pages/HomePage.js:26-30 | the kept elements embed into the input at strictly increasing positions, so the input order is kept |
| Seqs.FilterAppend | src/pages/HomePage.js:26-30 | filtering a concatenation is the concatenation of the filtered parts |
| Seqs.FilterAllPass | src/pages/HomePage.js:26-30 | when every element passes, the whole input is returned unchanged |
| Seqs.FilterCongruent | src/pages/HomePage.js:26-30 | two tests that agree on every element select the same list |
| Seqs.FilterFilter | src/pages/HomePage.js:26-30 | filtering by one test and then another equals filtering once by their conjunction |
| Seqs.FilterIdempotent | src/pages/HomePage.js:26-30 | filtering an already filtered list with the same test returns it unchanged |
| Search.Keep | src/pages/HomePage.js:27-29 | a kept country's name is at least as long as the query, with a selector set its region equals the selector, and with both inputs empty every country is kept |
| Search.Visible | src/pages/HomePage.js:26-30 | the visible list is no longer than the fetched list, holds only fetched countries that pass both tests, and holds every fetched country that passes both |
| Search.VisibleIsSubsequence | src/pages/HomePage.js:26-30 | the visible list is a subsequence of the fetched list: elements come from it, in fetch order |
| Search.VisibleMembership | src/pages/HomePage.js:27-29 | a country is visible if and only if it was fetched, its lower-cased name contains the lower-cased query, and the selector is empty or equals its region |
| Search.EmptyQueryOnlyRegion | src/pages/HomePage.js:27 | with an empty query the visible list is the fetched list filtered by region alone |
| Search.EmptyRegionOnlySearch | src/pages/HomePage.js:28 | with an empty selector the visible list is the fetched list filtered by the name search alone |
| Search.NoFilterShowsAll | src/pages/HomePage.js:26-30 | with an empty query and an empty selector every fetched country is visible, in fetch order |
| Search.RegionIsExact | src/pages/HomePage.js:28 | with a selector set, a country whose region is absent or differs from it in any character, case included, is not visible |
| Search.QueryCaseInsensitive | src/pages/HomePage.js:27 | two queries that differ only in the case of some of their letters give the same visible list |
| Search.UpperQuerySameList | src/pages/HomePage.js:27 | the upper-cased query gives the same visible list as the query itself |
| Search.VisibleIdempotent | src/pages/HomePage.js:26-30 | filtering the visible list again with the same query and selector returns it unchanged |
| Search.VisibleAppend | src/pages/HomePage.js:26-30 | the visible list of two collections one after the other is the two visible lists one after the other |
| Search.SearchThenRegion | src/pages/HomePage.js:26-30 | the combined filter equals the name search followed by the region selector |
| Countries.CapitalCell | src/pages/HomePage.js:113 | an absent capital array shows "N/A", a non-empty one shows its first name, and nothing is shown exactly when the array is present and empty |
| Countries.PlaceholderOnlyWhenAbsent | src/pages/HomePage.js:113 | the cell shows "N/A" only for an absent array or a first capital literally named "N/A" |
| HomePage.Initial | src/pages/HomePage.js:5-9 | the first state is loading, with no error, no countries, an empty query and no region |
| HomePage.Resolve | src/pages/HomePage.js:15-19 | settling ends loading and keeps the filters; a success stores the data and leaves the error as it was; a failure stores the fixed message and leaves the countries as they were |
| HomePage.SetSearchQuery | src/pages/HomePage.js:68 | typing replaces the query and no other part of the state |
| HomePage.SetRegionFilter | src/pages/HomePage.js:75 | choosing a region replaces the selector and no other part of the state |
| HomePage.CardOf | src/pages/HomePage.js:93-113 | a card carries the country's code as key, its flag image, its name and region, and the capital cell of its capital array |
| HomePage.Cards | src/pages/HomePage.js:91-117 | there is one card per country, in the same order |
| HomePage.Render | src/pages/HomePage.js:32-38 | while loading the loading view is shown; an error view shows the stored, non-empty error; the grid has at most one card per fetched country, and exactly one per country when no filter is set |
| HomePage.LoadingHidesError | src/pages/HomePage.js:32-37 | while loading, the loading view is shown even if an error is set |
| HomePage.FiltersOnlyAffectGrid | src/pages/HomePage.js:32-38 | while loading or failed, changing the query or the region does not change what is shown |
| HomePage.FiltersKeepStatus | src/pages/HomePage.js:66-76 | editing the query or the region keeps the fetched countries and the status |
| HomePage.InitialLoading | src/pages/HomePage.js:5-34 | the first state is consistent and shows the loading view |
| HomePage.StepsKeepConsistent | src/pages/HomePage.js:5-19 | filter edits, and the fetch settling while loading, keep the state consistent: countries only after a success, the error only the fixed message and only with no countries |
| HomePage.SuccessShowsGrid | src/pages/HomePage.js:15-16 | a success while loading leaves the page ready with the data, no error, and a grid of the cards of the visible countries |
| HomePage.FailureShowsMessage | src/pages/HomePage.js:18-19 | a failure while loading leaves no countries and shows the fixed message |
| HomePage.SuccessAfterFailureKeepsError | src/pages/HomePage.js:15-19 | a failure followed by a success stores the data but still shows the error text |
| HomePage.GridShowsVisible | src/pages/HomePage.js:89-118 | when ready, the grid has one card per visible country, with the names in visible order |
| HomePage.RunKeepsConsistent | src/pages/HomePage.js:11-23 | any session in which the fetch settles at most once, and only while loading, stays consistent |
| HomePage.FilterEditsKeepStatus | src/pages/HomePage.js:11-23 | a run of filter edits alone keeps the countries, `loading` and `error`, hence the status |
| HomePage.SessionState | src/pages/HomePage.js:5-19 | from a consistent loading state, with the fetch settling at most once: the page is loading exactly while nothing has settled, after a failure it holds the fixed message and no countries, after a success the data and no error |
| HomePage.SessionView | src/pages/HomePage.js:5-38 | from a consistent loading state, with the fetch settling at most once: the loading view exactly while nothing has settled, the fixed message exactly after a failure, the grid exactly after a success |
| HomePage.SessionGrid | src/pages/HomePage.js:15-38 | after such a session's fetch succeeded with some data, the grid holds the cards of that data's countries passing the filters in force at the end |
| HomePage.SettledSessionNotLoading | src/pages/HomePage.js:15-19 | once the fetch has settled in a session, the page is not loading at its end |
| HomePage.SettledLoadingStaysOff | src/pages/HomePage.js:8-19 | once loading is false, no event makes it true again |
| Scenarios.UpperCaseQueryFindsFrance | src/pages/HomePage.js:27 | the query "FRAN" shows the country named "France" |
| Scenarios.MixedCaseQueryFindsFrance | src/pages/HomePage.js:27 | the query "fRaN" shows the country named "France" |
| Scenarios.UnknownQueryFindsNothing | src/pages/HomePage.js:26-30 | the query "xyz" shows no country when only "France" was fetched |
| Scenarios.RegionPrefixExcluded | src/pages/HomePage.js:28 | the selector "Europe" does not show a country whose region is "Europe." |
| Scenarios.RegionCaseMatters | src/pages/HomePage.js:28 | the selector "europe" does not show a country whose region is "Europe" |
| Scenarios.LoadedFranceCard | src/pages/HomePage.js:15-16 | after loading one country the grid has one card with its code, flag, name, region and first capital |
| Scenarios.FailedLoadShowsMessage | src/pages/HomePage.js:18-37 | after a failed load the view is the text "Failed to fetch country data" |
| Scenarios.EmptyCapitalShowsNothing | src/pages/HomePage.js:113 | an empty capital array shows nothing and an absent one shows "N/A" |

## Left out

- The HTTP request and the effect that issues it (`axios.get`, `useEffect`): network I/O and component lifecycle. Only the outcome is modelled, as an input to `HomePage.Resolve`.
- The JSX markup, styling and icons: presentation only. A view is modelled as which of the three branches is taken and, for the grid, the card contents.
- The population on the card (`toLocaleString`): its text depends on the locale and the runtime library, so `HomePage.Card` has no population field.
- The flag image's alt text: presentation only.
- Records without `name.common`: the filter would throw on them; the model's `Country` always has a name.
- Malformed payloads: the `try`/`catch` only catches a rejected request. A successful response whose body is not an array is stored by `setCountries` and makes the render throw at `countries.filter`; records without `flags` or `population` make it throw when their card is built. In all these cases the page crashes instead of showing the error text. `Fetched(data)` always carries well-typed records, so the model cannot express these crashes.
- src/index.js: it only mounts the component. Its development-mode double effect is covered only through `HomePage.SuccessAfterFailureKeepsError`; a result arriving after unmount is not modelled.
- Search.QueryCaseInsensitive: letter case means the ASCII letters only, because `toLowerCase` follows the full Unicode case mapping, which is not modelled.
- Search.VisibleMembership: lower-casing of the name is the ASCII fold, for the same reason.
- Text.LowerEqualIffSameUpToCase: states the ASCII fold, not Unicode case mapping.
- Text.UpperSameUpToCase: `Upper` is the ASCII fold, not `toUpperCase`, which can change the length of a string (`"ß"` becomes `"SS"`), after which lower-casing does not give back the original.
- Search.UpperQuerySameList: holds for the ASCII upper-casing only; with full Unicode upper-casing a query such as `"ß"` would match a name that its upper-cased form `"SS"` does not.
