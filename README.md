# Country explorer: query engine and detail page, modelled in Dafny

This models the logic of a React front end for browsing countries. The front end gets its data from the REST Countries API. Two page components are modelled.

- **The list page** (`src/pages/Home.jsx`). It loads all countries once. From that list it derives a filtered view. A country stays in the view when its region equals the region filter (if one is set) and its common name contains the search term, ignoring case (if a term is set). The view keeps the order of the loaded list. The grid shows the results of an explicit search when there are any. Otherwise it shows the first 20 filtered countries. An explicit search asks the API by name, keeps only the response's countries in the chosen region, and turns an empty list into a "no results" message. "Clear Filters" resets the query.
- **The detail page** (`src/pages/CountryDetail.jsx`). It looks up one country by exact name. A failure shows an error alert. When the country has borders, a second lookup fetches the neighbours; its failure is only logged. A heart button adds the country's alpha-3 code to the favorites list in browser storage, or removes it. The page also has three display rules: the borders caption, the timezone chips (first five plus "+N more"), and the population band.

Files:

- `text.dfy` (`Text`): the JavaScript string operations the pages use. `trim` uses the exact ECMAScript whitespace set. `toLowerCase` is ASCII lowering. `includes` is here too, and so is the decimal rendering of a number, with its read-back.
- `countries.dfy` (`Countries`): the country record, `Option`, and the `Response` of one HTTP request: parsed body, non-ok status, or rejected promise.
- `sequences.dfy` (`Sequences`): two predicates, "subsequence" (order kept) and "no duplicates", and the `Min` both pages use for `slice` lengths.
- `home.dfy` (`Home`): the filter, the search post-filter, the display selection, and the `HomePage` class holding the page's state variables.
- `country_detail.dfy` (`CountryDetail`): the favorites list functions, the `FavoritesStore` class (the storage entry), the display rules, and the `DetailPage` class.

Each `async` handler is two methods. `Begin…` is what runs before the `await`; the spinner is visible in that state. `Complete…` is what runs once the response settles. A `Load…`/`HandleSearch` method runs both in a row. The network response is passed in as a parameter. `CompleteSearch` takes the region captured when the search began, because the handler's closure sees the render-time `regionFilter`.

Behaviour of the code worth knowing before reading the contracts:

- An explicit search that finds nothing stores its message in the same `error` state as a network failure, so the list is hidden the same way.
- Favorites are a list, not a set. Removal drops every occurrence of the code; adding appends without checking. The list stays free of duplicates only while the heart flag agrees with storage, which `ToggleKeepsNoDuplicates` and `ToggleFavorite` prove.
- The region filter accepts any string; only the selector limits the choice to the five regions.
- A detail lookup that returns an empty array fails at `data[0].cca3`. The error text is then the engine's TypeError message, and the country is cleared first.
- The detail page stays mounted when its route name changes (a neighbour card links to another country), so its state carries over into the reload for the new name.

## Model

| member | source | states |
|---|---|---|
| Text.TrimEmptyIffBlank | src/pages/Home.jsx:54 | `searchTerm.trim()` is empty exactly when every character is ECMAScript whitespace or a line terminator |
| Text.IncludesIffSuffix | src/pages/Home.jsx:48 | `hay.includes(needle)` holds exactly when `needle` is a prefix of some suffix of `hay` |
| Text.Trim | src/pages/Home.jsx:54 | `trim()` splits the term into a blank prefix, the result and a blank suffix, and the result neither starts nor ends with whitespace |
| Text.LowerChar | src/pages/Home.jsx:48 | 'A'..'Z' become the letter at the same offset in 'a'..'z'; a lowered character is never an upper-case letter, and a character that is not upper case is left as it is |
| Text.Lower | src/pages/Home.jsx:48 | lowering keeps the length, lowers each character on its own, and leaves no upper-case letter in the result |
| Text.LowerIdempotent | src/pages/Home.jsx:48 | lowering an already lowered string changes nothing |
| Text.Includes | src/pages/Home.jsx:48 | a needle that starts the string is found, and a found needle is never longer than the string |
| Text.NatToString | src/pages/CountryDetail.jsx:131 | a number renders as a non-empty string of decimal digits with no leading zero |
| Text.NatToStringRoundTrip | src/pages/CountryDetail.jsx:131 | the rendered digits read back as the number itself |
| Home.MatchesRegion | src/pages/Home.jsx:46 | `matchesRegion`: every country passes when no region is set; otherwise exactly the countries whose region equals the filter |
| Home.MatchesSearch | src/pages/Home.jsx:47-49 | `matchesSearch`: every country passes for an empty term; otherwise exactly those whose lowered name has the lowered term starting at some position |
| Home.Matches | src/pages/Home.jsx:50 | `matchesRegion && matchesSearch`: a matching country is in the region (if set) and its name is at least as long as the term (if set); with neither set every country matches |
| Home.FilteredCountries | src/pages/Home.jsx:45-51 | the filtered view is no longer than the loaded list, and every country in it matches both the region filter and the search term |
| Home.FilteredCaseInsensitive | src/pages/Home.jsx:48 | the filter gives the same view for a term and for its lowered form |
| Home.FilteredMembership | src/pages/Home.jsx:45-51 | a country is in the filtered view exactly when it is loaded, its region equals the filter (or no filter is set) and its lowered name includes the lowered term (or the term is empty) |
| Home.FilteredUnfiltered | src/pages/Home.jsx:46-50 | with an empty term and no region, the filtered view is the whole loaded list |
| Home.FilteredAppend | src/pages/Home.jsx:45 | filtering a concatenation is the concatenation of the filtered parts, so source order is kept |
| Home.FilteredIsSubsequence | src/pages/Home.jsx:45 | the filtered view is a subsequence of the loaded list |
| Home.FilteredIdempotent | src/pages/Home.jsx:45-51 | filtering the filtered view again changes nothing |
| Home.RegionOnly | src/pages/Home.jsx:60 | the post-filter keeps only response countries whose region is the chosen one |
| Home.SearchResults | src/pages/Home.jsx:60 | the stored results are response countries in the chosen region (any region when none is chosen), and with no region they are the whole response |
| Home.SearchResultsAreRegionFilter | src/pages/Home.jsx:60 | the search's post-filter (the region filter if set, else the whole response) equals the in-memory filter with an empty term |
| Home.Displayed | src/pages/Home.jsx:222 | the grid is the search results when there are any; otherwise a prefix of the filtered view of length min(20, its size) |
| Home.ShowingCount | src/pages/Home.jsx:216 | the "Showing N" count is the number of cards in the grid, and at most 20 without search results |
| Home.HomePage.Filtered | src/pages/Home.jsx:45-51 | a country is in the page's filtered view exactly when it is loaded and matches the current term and region |
| Home.HomePage.Shown | src/pages/Home.jsx:222 | the grid is the search results when there are any; otherwise at most 20 loaded countries, each matching the current term and region |
| Home.HomePage.ListVisible | src/pages/Home.jsx:211 | the list is rendered exactly when the grid is non-empty, nothing is loading and no error is set |
| Home.HomePage.constructor | src/pages/Home.jsx:32-37 | initial state: empty term, region, results and list; not loading; no error; nothing listed |
| Home.HomePage.LoadAllCountries | src/pages/Home.jsx:39-43 | success stores the full list; any failure keeps the list, sets "Failed to load countries data." and hides the list |
| Home.HomePage.SetSearchTerm | src/pages/Home.jsx:129 | the search box sets the term and nothing else |
| Home.HomePage.SetRegionFilter | src/pages/Home.jsx:150 | the selector sets the region and nothing else |
| Home.HomePage.BeginSearch | src/pages/Home.jsx:53-57 | a blank term changes no state and sends nothing; otherwise loading starts, error and results clear, and a request carries the term and the current region |
| Home.HomePage.CompleteSearch | src/pages/Home.jsx:58-67 | success stores the region-filtered response and sets the no-results message iff it is empty; failure sets "Country not found or API error."; loading ends; the query is unchanged |
| Home.HomePage.HandleSearch | src/pages/Home.jsx:53-68 | a search is issued iff the term is not blank, and a blank term leaves the page unchanged; success gives the in-memory region filter of the response, with an error iff that is empty; failure gives no results and the API error; non-empty results are listed as the grid |
| Home.HomePage.ClearFilters | src/pages/Home.jsx:172-177 | term and region become empty, results empty, error null; the grid is then the first min(20, n) loaded countries and is visible iff not loading and the list is non-empty |
| CountryDetail.StatusMessage | src/pages/CountryDetail.jsx:52 | the message is "Country not found (Status: ", then the status's decimal digits, then ")", and those digits read back as the status |
| CountryDetail.NeedsNeighbors | src/pages/CountryDetail.jsx:65 | defines the guard `borders && borders.length > 0`: the lookup is needed exactly when borders is present and non-empty |
| CountryDetail.Removed | src/pages/CountryDetail.jsx:110-112 | the code no longer occurs, and every other code occurs as often as before |
| CountryDetail.RemovedIsSubsequence | src/pages/CountryDetail.jsx:110-112 | the remaining codes keep their stored order |
| CountryDetail.RemovedAbsent | src/pages/CountryDetail.jsx:110-112 | removing an absent code leaves the list unchanged |
| CountryDetail.RemovedAppend | src/pages/CountryDetail.jsx:110-112 | removal distributes over concatenation |
| CountryDetail.Toggled | src/pages/CountryDetail.jsx:109-120 | after the toggle the code is stored iff it was not a favorite; every other code's count is unchanged |
| CountryDetail.ToggleAddAppends | src/pages/CountryDetail.jsx:117-119 | adding puts the code at the end and leaves the earlier entries as they were |
| CountryDetail.ToggleTwiceFromAbsent | src/pages/CountryDetail.jsx:102-123 | toggling an absent code twice restores the stored list exactly |
| CountryDetail.ToggleTwiceFromPresent | src/pages/CountryDetail.jsx:102-123 | toggling a present code twice in a duplicate-free list gives a permutation of it |
| CountryDetail.ToggleKeepsNoDuplicates | src/pages/CountryDetail.jsx:109-120 | while the flag agrees with the list, a toggle keeps the list free of duplicates |
| CountryDetail.FavoritesStore.constructor | src/pages/CountryDetail.jsx:105-107 | an unwritten entry reads as the empty list |
| CountryDetail.FavoritesStore.Read | src/pages/CountryDetail.jsx:105-107 | defines the read `JSON.parse(getItem(...) \|\| "[]")`: the stored list, or the empty list when nothing was ever written |
| CountryDetail.FavoritesStore.Write | src/pages/CountryDetail.jsx:113-119 | writing stores the whole list, which is what later reads return |
| CountryDetail.BordersLabel | src/pages/CountryDetail.jsx:382-384 | the caption is "No land borders" exactly when the neighbour lookup is not issued (borders missing or empty); otherwise it is `N countries` for N borders |
| CountryDetail.ShowsNoBordersAlert | src/pages/CountryDetail.jsx:608 | the alert appears exactly when borders is present and empty; then no neighbour lookup is issued and the caption is "No land borders" |
| CountryDetail.TimezoneChips | src/pages/CountryDetail.jsx:529-531 | the chips are the first min(5, n) timezones, and none when the field is missing |
| CountryDetail.MoreChip | src/pages/CountryDetail.jsx:532-538 | the "+N more" chip exists iff there are more than 5 timezones |
| CountryDetail.MoreChipCountsRest | src/pages/CountryDetail.jsx:529-538 | the chip reads "+", a number, " more", and the chips shown plus that number add up to the number of timezones |
| CountryDetail.FormatPopulation | src/pages/CountryDetail.jsx:125-133 | the million band iff population ≥ 1,000,000; the thousand band iff 1,000 ≤ population < 1,000,000; otherwise the plain decimal string (at most 3 digits, reading back as the population) |
| CountryDetail.DetailPage.View | src/pages/CountryDetail.jsx:176-196 | the skeleton shows exactly while loading; an error alert shows exactly when not loading and the error is non-empty, and it carries that error; the country content shows exactly when not loading, no error is set and a country is loaded, and it is that country |
| CountryDetail.DetailPage.constructor | src/pages/CountryDetail.jsx:33-39 | initial state: no country, loading, empty error, not a favorite, no neighbours; the skeleton is rendered |
| CountryDetail.DetailPage.BeginLoad | src/pages/CountryDetail.jsx:43-44 | loading starts, the error clears, and the lookup is for the route's name |
| CountryDetail.DetailPage.CompleteLoad | src/pages/CountryDetail.jsx:46-72 | a non-ok status, a rejection or an empty array sets an error starting "Failed to load country data: " (an empty array also clears the country); otherwise the first record is shown, the flag equals membership of its code in storage, and the neighbour lookup is issued iff borders are present and non-empty; loading always ends |
| CountryDetail.DetailPage.LoadCountryData | src/pages/CountryDetail.jsx:41-76 | the request is for the current route name; after a load, a failure renders an error alert and no country content; a success renders the country with the flag in agreement with storage |
| CountryDetail.DetailPage.Navigate | src/pages/CountryDetail.jsx:76 | a route change sets only the name, and the rest of the page state is kept |
| CountryDetail.DetailPage.NavigateAndLoad | src/pages/CountryDetail.jsx:41-76 | the effect keyed on `[name]` re-runs after a route change: the request is for the new name; a success renders its first record with the flag in sync with storage and the neighbour lookup issued iff it has borders; a failure renders an alert starting "Failed to load country data: " |
| CountryDetail.DetailPage.BeginNeighbors | src/pages/CountryDetail.jsx:78-79 | the neighbour spinner starts for the given codes |
| CountryDetail.DetailPage.CompleteNeighbors | src/pages/CountryDetail.jsx:80-95 | success stores the neighbours; failure keeps them; the spinner ends; the page error, country and loading flag are untouched |
| CountryDetail.DetailPage.ToggleFavorite | src/pages/CountryDetail.jsx:102-123 | without a country nothing changes; otherwise storage holds the toggled list and the flag flips; afterwards the flag agrees with storage, and a duplicate-free list stays duplicate-free when the flag agreed before |

## Left out

- Network I/O (`src/api/countries.js` and the inline `fetch` calls): each request's result is a `Response` parameter. URLs and `encodeURIComponent` are not modelled. `BeginSearch` and `BeginLoad` return the name the request would carry.
- Async ordering: late and stale responses, and the race between the two detail fetches, are not modelled. Each `Complete…` method is applied to the state its `Begin…` left, or to whatever state its caller holds.
- `localStorage`, `JSON.parse` and `JSON.stringify`: the storage entry is an in-memory `Option<seq<string>>`. A malformed stored value, which would make `JSON.parse` throw, is not modelled.
- Text.Lower: it models ASCII lowering only, not full Unicode `toLowerCase`. So a search for "åland" matches "Åland" in the page but not in the model.
- CountryDetail.FormatPopulation: the `toFixed(1)` digits of the million and thousand bands come from floating-point division and are not modelled; only the band is. `toLocaleString` is not modelled either.
- The TypeError text for an empty response depends on the JavaScript engine; the model uses V8's wording.
- Rendering: the MUI/JSX layout, animations, the tab switch (`handleTabChange`), the neighbour cards and the other country fields (flags, currencies, languages, maps and so on) are not modelled. `HomePage.ListVisible` and `DetailPage.View` model only which block is rendered.
- `console.error` in the neighbour lookup's catch is not modelled; the catch changes no modelled state, and the `finally` still ends the neighbour spinner (`CompleteNeighbors`).
- Header, Footer, CountryCard, Hero, About and App are presentation and routing and are not part of this model.
