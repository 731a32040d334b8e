# Character browser data layer

A Dafny model of the client-side data layer behind the Star Wars character
browser of `demo-react-app`. It covers:

- the API cache (four keyed maps of planets, species, films and people) and
  `fetchAllPages`, which follows a listing's `next` links, upgrades each link
  from `http:` to `https:` and concatenates the `results` of every page;
- the facet filter of the home page: the candidate person URLs are the
  intersection of the resident, member and character lists of the selected
  homeworld, species and film (in that order, skipping a selected facet whose
  resource is not cached), optionally narrowed by a case-insensitive name
  search, and cut into pages of ten;
- the cache-or-fetch resolvers for person details and homeworld names;
- the routing rule that sends a query with no facet to the server's paged
  people listing, and the URL it builds;
- the page state: the one-slot search debounce, the page reset on facet
  change, the reset button, the Previous/Next clamps and `totalPages`;
- the searchable dropdown: its option filter, its selected option and its
  open/filter/pick transitions.

The network is an oracle: a map from request URL to the page or record the
server answers with. A URL missing from the map is a request that fails. For
the plain listing that is a thrown `fetch`, a non-OK response or a body that
does not parse (`src/pages/Home.js:119-121`); for the crawl and the two
resolvers, which never look at `res.ok`, it is a thrown `fetch` or a body that
does not parse (see "Left out" for the non-OK reply with a JSON body). Each
method returns the requests it made, in order, so that "no request for a
cached URL" and "one request per unique planet" are stated on that trace.

Modules: `Wrappers` (Option, Result), `Text` (ASCII lower-casing, `indexOf`,
`includes`, first-occurrence `replace`, decimal rendering), `Seqs` (filter,
set-style de-duplication, JavaScript `slice`), `Api`, `Facets`, `Paging`,
`Resolvers`, `Listing` (plain-listing URL and the facet path's result),
`Dropdown`, `Home` (the `HomeView` class holding the page's state).

Where the code and its written description differ, the model follows the code:

- A selected facet whose planet, species or film is not in the cache is
  skipped, not treated as an empty list (`src/pages/Home.js:141-149`). So a
  selection can widen, rather than empty, the result.
- The initialisation error is cleared by the fetch effect that runs as soon
  as initialisation ends (`src/pages/Home.js:92-95`), so a failed bootstrap
  is followed by the plain listing, not by a standing error.
- The reset button clears the search box at once, but the published search
  becomes empty only when the restarted debounce fires, so the fetch right
  after a reset may still carry the old search (`src/pages/Home.js:76-83`, `215-221`).
- The page reset on a facet change is an effect of its own
  (`src/pages/Home.js:87-89`). The fetch effect of the same commit still sees
  the old page, so a facet change on page 3 fetches page 3 of the new facet
  before the reset brings page 1. The model keeps the two steps apart:
  `SelectHomeworld` and its siblings only make the reset due, `FetchData`
  may run in between, and `PageResetFires` applies it.
- Without a search, the facet path counts candidate URLs, including those
  whose detail request then fails; with a search it counts only the details
  that resolved (`src/pages/Home.js:160-172`).

## Model

| member | source | states |
|---|---|---|
| Api.ApiCache.constructor | src/utils/api.js:3-8 | the cache starts as four empty maps |
| Api.HttpsUpgrade | src/utils/api.js:15 | the link rewrite replaces only the first `http:`, wherever it occurs (a URL starting with `http:` gets the scheme `https:`); a URL in which `http:` does not occur is unchanged |
| Text.ReplaceFirstSpec | src/utils/api.js:15 | string `replace` with a string pattern: unchanged when the pattern does not occur, otherwise the text before the first occurrence, the replacement, and the rest |
| Api.WalksDeterministic | src/utils/api.js:11-22 | the request sequence of a crawl and whether it succeeds are determined by the pages and the start URL |
| Api.WalksLinks | src/utils/api.js:13-19 | no request iff the start link is null or empty; the first request is the upgraded base URL; each later request is the upgraded `next` of the page before; every request of a successful crawl was answered |
| Api.FetchAllPages | src/utils/api.js:11-22 | the loop makes exactly the requests of the link walk; on success it returns the concatenation of every page's results in request order; on failure it returns no list, only the failed URL, which is the last request |
| Text.Lower | src/components/SearchableDropdown.js:19 | lower-casing keeps the length and maps each character |
| Text.IndexOfSpec | src/components/SearchableDropdown.js:19 | `indexOf` is -1 iff the pattern occurs nowhere; otherwise it occurs at the result and at no earlier index |
| Text.IncludesEmpty | src/components/SearchableDropdown.js:18-20 | every string includes the empty string |
| Seqs.Filter | src/pages/Home.js:162 | `Array.filter` keeps exactly the elements satisfying the predicate and never lengthens the list |
| Seqs.FilterAppend | src/pages/Home.js:162 | filtering distributes over concatenation, so order is kept |
| Seqs.FilterNoDups | src/pages/Home.js:137 | filtering a duplicate-free list yields a duplicate-free list |
| Seqs.DedupSpec | src/pages/Home.js:133 | `new Set(list)` spread back to a list has the same members, no duplicates, and is no longer than the list |
| Seqs.DedupOrder | src/pages/Home.js:133 | the de-duplicated list is ordered by first occurrence in the input, the insertion order of a `Set` |
| Seqs.DedupOfNoDups | src/pages/Home.js:133 | de-duplicating a duplicate-free list changes nothing |
| Seqs.Slice | src/pages/Home.js:166 | `slice` returns, in order, the elements from the clamped start bound up to the clamped end bound (negative bounds counted from the end), and nothing when the end is not past the start |
| Facets.Contributing | src/pages/Home.js:141-149 | at most three lists contribute, and none when no facet is selected |
| Facets.ContributingSpec | src/pages/Home.js:141-149 | one list per facet that is selected and cached, residents first, then species members, then film characters; a selected but uncached facet contributes exactly what no selection does |
| Facets.FoldIsFilteredFirst | src/pages/Home.js:132-139 | folding `addToCandidates` over the contributing lists gives the de-duplicated first list filtered by membership in every later list |
| Facets.FoldSnoc | src/pages/Home.js:132-139 | one more `addToCandidates` call extends the fold by that list |
| Facets.CandidatesSpec | src/pages/Home.js:132-152 | a URL is a candidate iff some list contributes and it is in every contributing list; the candidates have no duplicates |
| Facets.SingleFacet | src/pages/Home.js:133-152 | with one contributing facet the candidates are its list de-duplicated, in first-occurrence order |
| Facets.DisjointFacets | src/pages/Home.js:137 | two contributing lists with no common URL leave no candidate |
| Facets.CandidateUrls | src/pages/Home.js:130-152 | the step-by-step reassignment of `candidates` yields the fold over the contributing lists, duplicate-free, holding exactly the URLs in every contributing list |
| Paging.TotalPages | src/pages/Home.js:223 | `ceil(count / 10)`: the smallest page count whose pages hold every result |
| Paging.PageOf | src/pages/Home.js:165-166 | the page is at most ten items taken from the list; for page p >= 1 it is exactly the items from index (p-1)*10 on, as many as remain up to ten |
| Paging.PagesUpToPrefix | src/pages/Home.js:165-172 | pages 1 to n laid end to end are the first 10n items (or the whole list) |
| Paging.PagesPartition | src/pages/Home.js:223 | pages 1 to `totalPages` laid end to end are the whole list, so nothing is left out or repeated |
| Paging.PageInRange | src/pages/Home.js:223 | a page from 1 on is non-empty iff it is at most `totalPages` |
| Paging.PreviousPage | src/pages/Home.js:351 | `Math.max(1, p - 1)`: one page back from above page 1, and page 1 otherwise |
| Paging.NextPage | src/pages/Home.js:359 | `Math.min(totalPages, p + 1)`: one page forward below `totalPages`, and `totalPages` from there on; at least 1 when there is a page |
| Paging.LabelPages | src/pages/Home.js:356 | the label shows `totalPages`, or 1 when that is 0 |
| Resolvers.HttpsAll | src/pages/Home.js:184 | each detail request goes to the upgraded URL, one per input URL, in order |
| Resolvers.DetailsAppend | src/pages/Home.js:181-192 | resolving a concatenation is the concatenation of the resolutions, so input order is kept |
| Resolvers.DetailsMembers | src/pages/Home.js:180-193 | every resolved person is the cached or fetched record of some input URL, and failures are dropped |
| Resolvers.AllCached | src/pages/Home.js:182 | when every URL is cached, the result is the cached records and nothing is requested |
| Resolvers.FetchPeopleDetails | src/pages/Home.js:180-193 | returns the records in input order with failures dropped; requests only URLs missing from the cache at entry, upgraded; stores each fetched record under the original URL and writes nothing else |
| Resolvers.FetchPerson | src/pages/Home.js:181-189 | one URL: the cached record with no request, or the upgraded URL requested and the answer cached under the original URL; a failure yields nothing and writes nothing |
| Resolvers.RepeatRequestsOnlyFailures | src/pages/Home.js:182-186 | resolving the same URLs again on the cache the first resolution left requests only URLs whose fetch failed, yields the same records and stores nothing new |
| Resolvers.PlanetRepeatOnlyFailures | src/pages/Home.js:199-210 | looking up the same homeworlds again on the planet cache the first lookup left requests only planets whose fetch failed, finds the same names and stores nothing new |
| Resolvers.OneRequestPerPlanet | src/pages/Home.js:196-210 | the number of planet requests equals the number of distinct non-empty homeworld URLs not in the cache |
| Resolvers.MergeKeepsEarlierNames | src/pages/Home.js:212 | merging never removes an earlier name, adds names only for resolvable homeworlds, and names every resolvable homeworld of the items |
| Resolvers.LookupPlanetNames | src/pages/Home.js:197-211 | the loop fills the new name map from the cache or the oracle, skips empty and failing URLs, and caches each fetched planet under its original URL |
| Resolvers.LookupPlanet | src/pages/Home.js:199-210 | one homeworld: an empty link is skipped; a cached planet gives its name with no request; otherwise the upgraded URL is requested and the answer cached under the original URL and named |
| Resolvers.ResolveHomeworlds | src/pages/Home.js:195-213 | the view's name map becomes the previous map overlaid with the names of the unique homeworlds; requests go only to uncached ones |
| Listing.PeopleListUrl | src/pages/Home.js:116-117 | the listing URL starts with the people endpoint, ends with `&search=` and the term when there is one, and has no `&` otherwise |
| Listing.PeopleListUrlInjective | src/pages/Home.js:116-117 | the URL determines the page: two pages with the same search never share a URL |
| Text.IntToStringInjective | src/pages/Home.js:116 | the template literal's rendering of an integer determines it |
| Text.DecimalInjective | src/pages/Home.js:116 | distinct natural numbers have distinct decimal digits |
| Listing.FilterResultAfterStore | src/pages/Home.js:160-177 | the facet path's page and count are the same on the people cache its own resolution left |
| Listing.FilterResultSpec | src/pages/Home.js:154-177 | one page holds at most ten people, each the record of a candidate; with a search each matches it; the count is at most the number of candidates, independent of the page, and equals it without a search |
| Listing.ShownUpToDetails | src/pages/Home.js:169-176 | without a search, pages 1 to n show the resolved details of the first 10n candidates |
| Listing.ShownUpToFiltered | src/pages/Home.js:160-168 | with a search, pages 1 to n show the first 10n matching details |
| Listing.PagesShowEveryResult | src/pages/Home.js:160-172 | paging from 1 to `totalPages` shows every person of the facet path once, in candidate order |
| Dropdown.FilteredOptionsSpec | src/components/SearchableDropdown.js:18-20 | an option is kept iff its lower-cased label includes the lower-cased filter text; the filter keeps order; an empty filter keeps every option |
| Dropdown.SelectedOption | src/components/SearchableDropdown.js:22 | absent iff no option has the value; otherwise the first option with that value |
| Dropdown.HeaderText | src/components/SearchableDropdown.js:22-31 | the header shows the label of the first option with the value, as `find` returns it, or the placeholder when none has it |
| Dropdown.Dropdown.constructor | src/components/SearchableDropdown.js:4-5 | the list starts closed with an empty filter |
| Dropdown.Dropdown.ClickHeader | src/components/SearchableDropdown.js:28 | clicking the header toggles the list unless the control is disabled |
| Dropdown.Dropdown.TypeFilter | src/components/SearchableDropdown.js:42 | typing in the open list sets the filter text |
| Dropdown.Dropdown.ClickOutside | src/components/SearchableDropdown.js:9-13 | a click outside closes the list and keeps the filter text |
| Dropdown.Dropdown.Pick | src/components/SearchableDropdown.js:51 | picking a shown option reports its value, closes the list and clears the filter |
| Home.IndexBySpec | src/pages/Home.js:62-64 | after the `forEach` writes, every item's URL is a key, and each key maps to the last item written under it |
| Home.CachePlanets | src/pages/Home.js:62 | the loop writes each planet under its URL over the previous cache |
| Home.CacheSpecies | src/pages/Home.js:63 | the loop writes each species under its URL over the previous cache |
| Home.CacheFilms | src/pages/Home.js:64 | the loop writes each film under its URL over the previous cache |
| Home.CrawlTraceIs | src/utils/api.js:11-22 | a crawl's walk fixes its request trace and whether it succeeds, and on success the items are those collected along it |
| Home.Crawl | src/pages/Home.js:45-49 | one crawl of the bootstrap returns the walk's items exactly when the walk succeeds, and its requests are the walk's trace |
| Home.HomeView.constructor | src/pages/Home.js:23-39 | the page mounts loading and initialising, on page 1, with empty query and options, and with the mount-time runs of the debounce (of the empty term) and of the page reset still due |
| Home.HomeView.Bootstrap | src/pages/Home.js:43-74 | if all three crawls succeed, the options are their url/name (or title) pairs and the cache holds every crawled resource; if any fails, the initialisation error is set and neither options nor cache change; initialisation ends either way; the requests are the three crawls' traces |
| Home.HomeView.Install | src/pages/Home.js:56-66 | the success branch builds the three option lists and fills the three caches |
| Home.HomeView.TypeSearch | src/pages/Home.js:76-83 | typing sets the search box; the pending debounce value is replaced only when the term changed |
| Home.HomeView.DebounceFires | src/pages/Home.js:78-81 | the debounce publishes the pending term, returns to page 1 and empties the slot |
| Home.HomeView.SelectHomeworld | src/pages/Home.js:86-89 | selecting a homeworld sets it and, when it changed, makes the page reset due; the page itself is not changed yet |
| Home.HomeView.SelectSpecies | src/pages/Home.js:86-89 | selecting a species sets it and, when it changed, makes the page reset due; the page itself is not changed yet |
| Home.HomeView.SelectFilm | src/pages/Home.js:86-89 | selecting a film sets it and, when it changed, makes the page reset due; the page itself is not changed yet |
| Home.HomeView.PageResetFires | src/pages/Home.js:87-89 | the effect on the facets returns to page 1 and is no longer due |
| Home.HomeView.ResetFilters | src/pages/Home.js:215-221 | when enabled, reset empties the search box and all facets and returns to page 1, so no facet applies and the next fetch takes the plain listing, and makes the page reset due when a facet was set; when disabled nothing changes |
| Home.HomeView.Previous | src/pages/Home.js:351-352 | Previous goes back one page and never below 1 |
| Home.HomeView.Next | src/pages/Home.js:359-360 | Next goes forward one page below the last, stays on the last (where it is disabled), and from past the last moves to `totalPages` |
| Home.ListingFetchSpec | src/pages/Home.js:115-126 | the plain listing requests its URL first and never writes the people cache; cached planets and resolved names are kept; a failure changes nothing; a success shows the page as answered and adds one request per distinct uncached homeworld |
| Home.FacetResolveSpec | src/pages/Home.js:154-177 | the facet path shows at most ten people, each a candidate's record and matching the search if any; the count is at most the candidates and equal to them without a search; cached entries and names are kept; no candidate means no request and no change; otherwise one request per uncached detail and per distinct uncached homeworld of the page |
| Home.FacetRepeatIsStable | src/pages/Home.js:154-212 | running the facet path again for the same candidate list on the caches and names the first run left shows the same page, count and names, stores nothing new, and requests only detail and planet URLs whose fetch failed, so no cached person or planet is fetched twice |
| Home.ContributingOnGrownCache | src/pages/Home.js:141-149 | a planet cache that keeps all its entries gives the same contributing lists when no homeworld is selected or the selected one was cached |
| Home.FacetQueryRepeatIsStable | src/pages/Home.js:129-212 | the whole facet query run again on the caches and names its first run left, when no homeworld is selected or the selected one was cached, has the same candidates and so the same page, count, names and caches; a selected homeworld that was not cached can be cached by the first run and change the candidates |
| Home.ResolveCandidates | src/pages/Home.js:160-177 | the search and no-search branches give the facet result's page and count, request the uncached details of all candidates or of the page, and cache what they fetch |
| Home.ResolveFacetPage | src/pages/Home.js:154-177 | from the candidates on, the page, count, names, caches and requests are those of `FacetResolve` |
| Home.HomeView.FetchPeopleData | src/pages/Home.js:115-126 | `ok` iff the built listing URL answers; what is shown, the names, both caches and the request log become exactly what `ListingFetch` gives for the state at entry |
| Home.HomeView.FetchFilterData | src/pages/Home.js:129-178 | what is shown, the names, both caches and the request log become exactly what `FacetResolve` gives for the candidates of the cached facets and the state at entry |
| Home.HomeView.Refresh | src/pages/Home.js:93-110 | loading ends; without a facet the outcome is `ListingFetch` and the error is set iff the listing failed; with a facet the outcome is `FacetResolve` of the candidates and the error is cleared |
| Home.HomeView.FetchData | src/pages/Home.js:91-112 | nothing happens and nothing is requested while initialising; otherwise the outcome is that of `Refresh` |

## Left out

- Real network I/O, `res.ok`, JSON parsing and `Promise.all`: every request
  is an oracle lookup; any failure is absence from the oracle, and requests
  are made one after another in list order.
- Concurrency between effects: each fetch completes before the next event.
  The code has no guard against a stale response overwriting a newer one,
  and the model adds none.
- `resolveHomeworldsForView` is not awaited by its callers; the model completes it
  inside the fetch.
- Timers: the 500 ms debounce is a one-slot pending value, fired by
  `DebounceFires`.
- The `localeCompare` sorts of the bootstrap lists (`src/pages/Home.js:52-54`)
  are locale-dependent; options and cache writes follow listing order.
- Home.HomeView.Bootstrap: the order of cache writes under a duplicated URL
  follows listing order, not the sorted order, for the same reason.
- Api.FetchAllPages: requires that the `next` chain ends (the walk reaches a
  null or empty `next` or a failing URL); a server whose links cycle makes
  the source loop forever, which the model does not represent.
- Home.HomeView.Bootstrap: requires, for the same reason, that each of the
  three crawls ends.
- Resolvers.FetchPeopleDetails: a non-OK reply with a JSON body is a success
  in the source (there is no `res.ok` check at `src/pages/Home.js:184-186`):
  the error body is cached under the URL and returned as a person. The model
  treats every failed reply as absent from the oracle, so it does not show
  that such an entry, lacking `name`, later makes the search filter at
  `src/pages/Home.js:162` throw and the whole query fail.
- Resolvers.LookupPlanetNames: likewise, a non-OK reply with a JSON body is
  cached as a planet and its (missing) `name` recorded
  (`src/pages/Home.js:205-208`); the model treats it as a failure.
- React's batching: the two setters of the debounce callback
  (`src/pages/Home.js:79-80`) and of the reset handler are applied in one
  commit, as automatic batching does; `DebounceFires` is one step.
- `toLowerCase` is ASCII lower-casing; Unicode case folding is not modelled.
- Server-side `search` semantics of the people endpoint: only the URL string
  is modelled. The search term is appended as is, without URL encoding, as
  the code does.
- Records and pages with missing fields (an undefined `residents`, `name` or
  `homeworld`) are not modelled; every record has all its fields.
- JSX rendering, skeleton and layout components, `src/context/AuthContext.js`,
  `src/pages/Login.js` and `src/components/CharacterModal.js` are not part of
  this model.
