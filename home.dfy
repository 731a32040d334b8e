/**
 * The state of the character browser page (`Home` in `src/pages/Home.js`)
 * and the events that change it: startup loading of the facet options, the
 * search box and its debounce, the facet selections, the reset button, the
 * pager, and the fetch effect that routes a query to the plain listing or to
 * the facet filter.
 *
 * React state becomes fields; each effect and handler becomes a method that
 * completes before the next begins (no request overlaps another in the model).
 */
module Home {
  import opened Wrappers
  import opened Text
  import opened Seqs
  import opened Api
  import opened Facets
  import opened Paging
  import opened Resolvers
  import opened Listing
  import opened Dropdown

  const PlanetsEndpoint: Url := "https://swapi.dev/api/planets/"
  const SpeciesEndpoint: Url := "https://swapi.dev/api/species/"
  const FilmsEndpoint: Url := "https://swapi.dev/api/films/"
  const FetchFailed: string := "Failed to fetch data."
  const InitFailed: string := "Failed to initialize galactic charts."

  /** The crawl of a listing from `baseUrl` ends normally. */
  ghost predicate CrawlSucceeds<T>(pages: map<Url, Page<T>>, baseUrl: Url) {
    exists reqs :: Walks(pages, Some(baseUrl), reqs, true)
  }

  /** All three startup crawls succeed. */
  ghost predicate CatalogLoads(remote: Remote) {
    CrawlSucceeds(remote.planetPages, PlanetsEndpoint) &&
    CrawlSucceeds(remote.speciesPages, SpeciesEndpoint) &&
    CrawlSucceeds(remote.filmPages, FilmsEndpoint)
  }

  /** The crawl of a listing from `baseUrl` ends, one way or the other. */
  ghost predicate CrawlEnds<T>(pages: map<Url, Page<T>>, baseUrl: Url) {
    exists reqs, ok :: Walks(pages, Some(baseUrl), reqs, ok)
  }

  /** The items a successful crawl collects. */
  ghost function Crawled<T>(pages: map<Url, Page<T>>, baseUrl: Url): seq<T>
    requires CrawlSucceeds(pages, baseUrl)
  {
    var reqs :| Walks(pages, Some(baseUrl), reqs, true);
    ResultsAlong(pages, reqs)
  }

  /** The requests a crawl that ends makes: they do not depend on which walk is picked. */
  ghost function CrawlTrace<T>(pages: map<Url, Page<T>>, baseUrl: Url): seq<Url>
    requires CrawlEnds(pages, baseUrl)
  {
    var reqs, ok :| Walks(pages, Some(baseUrl), reqs, ok);
    reqs
  }

  /**
   * A walk of the crawl fixes its trace, whether it succeeds, and on success
   * the items collected.
   */
  lemma CrawlTraceIs<T>(pages: map<Url, Page<T>>, baseUrl: Url, reqs: seq<Url>, ok: bool)
    requires Walks(pages, Some(baseUrl), reqs, ok)
    ensures CrawlEnds(pages, baseUrl) && CrawlTrace(pages, baseUrl) == reqs
    ensures CrawlSucceeds(pages, baseUrl) <==> ok
    ensures ok ==> Crawled(pages, baseUrl) == ResultsAlong(pages, reqs)
  {
    var r, o :| Walks(pages, Some(baseUrl), r, o) && CrawlTrace(pages, baseUrl) == r;
    WalksDeterministic(pages, Some(baseUrl), reqs, ok, r, o);
    if CrawlSucceeds(pages, baseUrl) {
      var other :| Walks(pages, Some(baseUrl), other, true) && Crawled(pages, baseUrl) == ResultsAlong(pages, other);
      WalksDeterministic(pages, Some(baseUrl), reqs, ok, other, true);
    }
  }

  /** One `fetchAllPages(baseUrl)` of the startup crawl, in terms of the crawl's trace and items. */
  method Crawl<T>(pages: map<Url, Page<T>>, baseUrl: Url) returns (r: Wrappers.Result<seq<T>, Url>, requests: seq<Url>)
    requires CrawlEnds(pages, baseUrl)
    ensures requests == CrawlTrace(pages, baseUrl)
    ensures r.Ok? <==> CrawlSucceeds(pages, baseUrl)
    ensures r.Ok? ==> r.value == Crawled(pages, baseUrl)
  {
    r, requests := FetchAllPages(pages, baseUrl);
    CrawlTraceIs(pages, baseUrl, requests, r.Ok?);
  }

  /** A dictionary filled item by item under each item's key: a later item overwrites an earlier one with the same key. */
  function IndexBy<T>(xs: seq<T>, key: T -> Url): map<Url, T> {
    if xs == [] then map[]
    else IndexBy(xs[..|xs| - 1], key)[key(xs[|xs| - 1]) := xs[|xs| - 1]]
  }

  /** `xs[i]` carries the key `k` and no later item does. */
  predicate LastWithKey<T>(xs: seq<T>, key: T -> Url, k: Url, i: int) {
    0 <= i < |xs| && key(xs[i]) == k && forall j :: i < j < |xs| ==> key(xs[j]) != k
  }

  /**
   * Each key present in the index belongs to some item, every item's key is
   * present, and the entry is the LAST item carrying that key.
   */
  lemma {:induction false} IndexBySpec<T>(xs: seq<T>, key: T -> Url)
    ensures forall i :: 0 <= i < |xs| ==> key(xs[i]) in IndexBy(xs, key)
    ensures forall k :: k in IndexBy(xs, key) ==>
      exists i :: LastWithKey(xs, key, k, i) && IndexBy(xs, key)[k] == xs[i]
  {
    if xs != [] {
      var n := |xs|;
      var init := xs[..n - 1];
      IndexBySpec(init, key);
      forall k | k in IndexBy(xs, key)
        ensures exists i :: LastWithKey(xs, key, k, i) && IndexBy(xs, key)[k] == xs[i]
      {
        if k != key(xs[n - 1]) {
          var i :| LastWithKey(init, key, k, i) && IndexBy(init, key)[k] == init[i];
          assert xs[i] == init[i];
          assert forall j :: i < j < n - 1 ==> xs[j] == init[j];
          assert LastWithKey(xs, key, k, i);
        } else {
          assert LastWithKey(xs, key, k, n - 1);
        }
      }
      forall i | 0 <= i < n ensures key(xs[i]) in IndexBy(xs, key) {
        if i < n - 1 { assert xs[i] == init[i]; }
      }
    }
  }

  const PlanetKey: Planet -> Url := (p: Planet) => p.url
  const SpeciesKey: Species -> Url := (s: Species) => s.url
  const FilmKey: Film -> Url := (f: Film) => f.url

  /** Dropdown entries `{ value: url, label: name }` for the planets, in listing order. */
  function PlanetChoices(ps: seq<Planet>): seq<Choice> {
    seq(|ps|, i requires 0 <= i < |ps| => Choice(ps[i].url, ps[i].name))
  }

  function SpeciesChoices(ss: seq<Species>): seq<Choice> {
    seq(|ss|, i requires 0 <= i < |ss| => Choice(ss[i].url, ss[i].name))
  }

  /** Films are labelled by their `title`. */
  function FilmChoices(fs: seq<Film>): seq<Choice> {
    seq(|fs|, i requires 0 <= i < |fs| => Choice(fs[i].url, fs[i].title))
  }

  /** Writes each crawled planet into the cache under its URL, in listing order. */
  method CachePlanets(cache: ApiCache, planets: seq<Planet>)
    modifies cache`planets
    ensures cache.planets == old(cache.planets) + IndexBy(planets, PlanetKey)
  {
    for i := 0 to |planets|
      invariant cache.planets == old(cache.planets) + IndexBy(planets[..i], PlanetKey)
    {
      assert planets[..i + 1][..i] == planets[..i];
      cache.planets := cache.planets[planets[i].url := planets[i]];
    }
    assert planets[..|planets|] == planets;
  }

  method CacheSpecies(cache: ApiCache, species: seq<Species>)
    modifies cache`species
    ensures cache.species == old(cache.species) + IndexBy(species, SpeciesKey)
  {
    for i := 0 to |species|
      invariant cache.species == old(cache.species) + IndexBy(species[..i], SpeciesKey)
    {
      assert species[..i + 1][..i] == species[..i];
      cache.species := cache.species[species[i].url := species[i]];
    }
    assert species[..|species|] == species;
  }

  method CacheFilms(cache: ApiCache, films: seq<Film>)
    modifies cache`films
    ensures cache.films == old(cache.films) + IndexBy(films, FilmKey)
  {
    for i := 0 to |films|
      invariant cache.films == old(cache.films) + IndexBy(films[..i], FilmKey)
    {
      assert films[..i + 1][..i] == films[..i];
      cache.films := cache.films[films[i].url := films[i]];
    }
    assert films[..|films|] == films;
  }

  /** What one fetch leaves behind: the people and count shown, the homeworld names, both caches and the requests. */
  datatype Outcome = Outcome(people: seq<Person>, totalCount: nat, names: map<Url, string>,
                             peopleCache: map<Url, Person>, planetCache: map<Url, Planet>, requests: seq<Url>)

  /**
   * `fetchPeopleData` for the listing URL `url`: when the page answers, its
   * results and count are shown, their homeworld names merged and the planets
   * fetched for them cached; when it fails, everything stays as it was. Only
   * the listing URL and the planet lookups are requested; the people cache is
   * not written.
   */
  function ListingFetch(url: Url, shown: seq<Person>, count: nat, names: map<Url, string>,
                        people: map<Url, Person>, planets: map<Url, Planet>, remote: Remote): Outcome
  {
    if url in remote.peoplePages then
      var data := remote.peoplePages[url];
      Outcome(data.results, data.count, NamesAfter(names, data.results, planets, remote.planets), people,
              PlanetsAfter(planets, data.results, remote.planets), [url] + PlanetLookups(data.results, planets))
    else Outcome(shown, count, names, people, planets, [url])
  }

  /**
   * `fetchFilterData` once the candidates are known: the facet result is
   * shown; with no candidate nothing is requested or written; otherwise the
   * details are resolved and the fetched ones cached, then the page's
   * homeworlds are.
   */
  function FacetResolve(urls: seq<Url>, search: string, page: int, people: map<Url, Person>,
                        planets: map<Url, Planet>, names: map<Url, string>, remote: Remote): Outcome
  {
    var r := FilterResult(urls, search, page, people, remote.people);
    if urls == [] then Outcome(r.people, r.totalCount, names, people, planets, [])
    else Outcome(r.people, r.totalCount, NamesAfter(names, r.people, planets, remote.planets),
                 people + Stored(DetailUrls(urls, search, page), people, remote.people),
                 PlanetsAfter(planets, r.people, remote.planets),
                 DetailRequests(urls, search, page, people) + PlanetLookups(r.people, planets))
  }

  /**
   * The plain listing always requests its URL first and never writes the
   * people cache; planet entries already cached and names already resolved are
   * kept; a failed listing changes nothing; a successful one shows the page
   * as answered and makes one request per distinct uncached homeworld.
   */
  lemma ListingFetchSpec(url: Url, shown: seq<Person>, count: nat, names: map<Url, string>,
                         people: map<Url, Person>, planets: map<Url, Planet>, remote: Remote)
    ensures var o := ListingFetch(url, shown, count, names, people, planets, remote);
      && |o.requests| > 0 && o.requests[0] == url
      && o.peopleCache == people
      && (forall u :: u in planets ==> u in o.planetCache && o.planetCache[u] == planets[u])
      && names.Keys <= o.names.Keys
      && (url !in remote.peoplePages ==> o == Outcome(shown, count, names, people, planets, [url]))
      && (url in remote.peoplePages ==>
            o.people == remote.peoplePages[url].results && o.totalCount == remote.peoplePages[url].count &&
            |o.requests| == 1 + |set u | u in Homeworlds(o.people) && u != "" && u !in planets|)
  {
    if url in remote.peoplePages {
      var results := remote.peoplePages[url].results;
      MergeKeepsEarlierNames(names, results, planets, remote.planets);
      OneRequestPerPlanet(results, planets);
    }
  }

  /**
   * The facet path shows at most one page, each person the record of some
   * candidate and matching the search when there is one; its count never
   * exceeds the candidates and equals them without a search; cached entries
   * and resolved names are kept; no candidate means no request and no change;
   * otherwise one request per uncached detail and per distinct uncached
   * homeworld of the page.
   */
  lemma FacetResolveSpec(urls: seq<Url>, search: string, page: int, people: map<Url, Person>,
                         planets: map<Url, Planet>, names: map<Url, string>, remote: Remote)
    ensures var o := FacetResolve(urls, search, page, people, planets, names, remote);
      && |o.people| <= PageSize
      && o.totalCount <= |urls|
      && (search == "" ==> o.totalCount == |urls|)
      && (search != "" ==> forall p :: p in o.people ==> NameMatches(search)(p))
      && (forall p :: p in o.people ==>
            exists i :: 0 <= i < |urls| && DetailOf(urls[i], people, remote.people) == Some(p))
      && (forall u :: u in people ==> u in o.peopleCache && o.peopleCache[u] == people[u])
      && (forall u :: u in planets ==> u in o.planetCache && o.planetCache[u] == planets[u])
      && names.Keys <= o.names.Keys
      && (urls == [] ==> o == Outcome([], 0, names, people, planets, []))
      && (urls != [] ==>
            |o.requests| == |Misses(DetailUrls(urls, search, page), people)| +
                            |set u | u in Homeworlds(o.people) && u != "" && u !in planets|)
  {
    FilterResultSpec(urls, search, page, people, remote.people);
    if urls != [] {
      var shown := FilterResult(urls, search, page, people, remote.people).people;
      MergeKeepsEarlierNames(names, shown, planets, remote.planets);
      OneRequestPerPlanet(shown, planets);
    }
  }

  /** Proof helper: merging no entries into a map changes nothing. */
  lemma UnionEmpty<K, V>(m: map<K, V>)
    ensures m + map[] == m
  {
  }

  /** Proof helper: merging the same entries into a map a second time changes nothing. */
  lemma UnionAgain<K, V>(m: map<K, V>, n: map<K, V>)
    ensures (m + n) + n == m + n
  {
    assert forall k :: k in (m + n) + n <==> k in m + n;
  }

  /**
   * Running the facet path again for the same candidates, on the caches and
   * names the first run left, shows the same page, count and names, writes
   * nothing new, and requests only detail and planet URLs whose fetch failed.
   */
  lemma FacetRepeatIsStable(urls: seq<Url>, search: string, page: int, people: map<Url, Person>,
                            planets: map<Url, Planet>, names: map<Url, string>, remote: Remote)
    ensures var o := FacetResolve(urls, search, page, people, planets, names, remote);
      var o2 := FacetResolve(urls, search, page, o.peopleCache, o.planetCache, o.names, remote);
      && o2.people == o.people && o2.totalCount == o.totalCount && o2.names == o.names
      && o2.peopleCache == o.peopleCache && o2.planetCache == o.planetCache
      && o2.requests == DetailRequests(urls, search, page, o.peopleCache) + PlanetLookups(o.people, o.planetCache)
      && (forall k :: 0 <= k < |DetailRequests(urls, search, page, o.peopleCache)| ==>
            DetailRequests(urls, search, page, o.peopleCache)[k] !in remote.people)
      && (forall k :: 0 <= k < |PlanetLookups(o.people, o.planetCache)| ==>
            PlanetLookups(o.people, o.planetCache)[k] !in remote.planets)
  {
    if urls != [] {
      var du := DetailUrls(urls, search, page);
      var pc := people + Stored(du, people, remote.people);
      var r := FilterResult(urls, search, page, people, remote.people);
      var d := Dedup(Homeworlds(r.people));
      var pl := planets + PlanetsStored(d, planets, remote.planets);
      var added := NewNames(d, planets, remote.planets);
      assert FacetResolve(urls, search, page, people, planets, names, remote) ==
             Outcome(r.people, r.totalCount, names + added, pc, pl,
                     DetailRequests(urls, search, page, people) + PlanetLookups(r.people, planets));
      assert FilterResult(urls, search, page, pc, remote.people) == r &&
             pc + Stored(du, pc, remote.people) == pc &&
             forall k :: 0 <= k < |DetailRequests(urls, search, page, pc)| ==>
               DetailRequests(urls, search, page, pc)[k] !in remote.people
      by {
        RepeatRequestsOnlyFailures(du, people, remote.people);
        FilterResultAfterStore(urls, search, page, people, remote.people);
        UnionEmpty(pc);
      }
      assert NewNames(d, pl, remote.planets) == added &&
             pl + PlanetsStored(d, pl, remote.planets) == pl &&
             forall k :: 0 <= k < |PlanetLookups(r.people, pl)| ==> PlanetLookups(r.people, pl)[k] !in remote.planets
      by {
        PlanetRepeatOnlyFailures(d, planets, remote.planets);
        UnionEmpty(pl);
      }
      UnionAgain(names, added);
      assert FacetResolve(urls, search, page, pc, pl, names + added, remote) ==
             Outcome(r.people, r.totalCount, names + added, pc, pl,
                     DetailRequests(urls, search, page, pc) + PlanetLookups(r.people, pl));
    }
  }

  /**
   * The contributing lists read the planet cache only at the selected
   * homeworld, so a cache that keeps every entry it had gives the same lists
   * when that homeworld was cached or none is selected.
   */
  lemma ContributingOnGrownCache(planets: map<Url, Planet>, after: map<Url, Planet>, species: map<Url, Species>,
                                 films: map<Url, Film>, hwUrl: Url, spUrl: Url, filmUrl: Url)
    requires forall u :: u in planets ==> u in after && after[u] == planets[u]
    ensures (hwUrl == "" || hwUrl in planets) ==>
      Contributing(after, species, films, hwUrl, spUrl, filmUrl) == Contributing(planets, species, films, hwUrl, spUrl, filmUrl)
  {
  }

  /**
   * The whole facet query repeated on the caches and names its first run
   * left: when no homeworld is selected or the selected one was cached, the
   * candidates are the same, so the rerun is the rerun of the same candidate
   * list and shows the same page, count and names with nothing new stored.
   * (A selected homeworld that was not cached can be cached by the first
   * run's homeworld lookup, and the second run then sees its residents.)
   */
  lemma FacetQueryRepeatIsStable(planets: map<Url, Planet>, species: map<Url, Species>, films: map<Url, Film>,
                                 hwUrl: Url, spUrl: Url, filmUrl: Url, search: string, page: int,
                                 people: map<Url, Person>, names: map<Url, string>, remote: Remote)
    ensures var urls := ResultUrls(Contributing(planets, species, films, hwUrl, spUrl, filmUrl));
      var o := FacetResolve(urls, search, page, people, planets, names, remote);
      var o2 := FacetResolve(ResultUrls(Contributing(o.planetCache, species, films, hwUrl, spUrl, filmUrl)),
                             search, page, o.peopleCache, o.planetCache, o.names, remote);
      (hwUrl == "" || hwUrl in planets) ==>
        && o2 == FacetResolve(urls, search, page, o.peopleCache, o.planetCache, o.names, remote)
        && o2.people == o.people && o2.totalCount == o.totalCount && o2.names == o.names
        && o2.peopleCache == o.peopleCache && o2.planetCache == o.planetCache
  {
    var urls := ResultUrls(Contributing(planets, species, films, hwUrl, spUrl, filmUrl));
    var o := FacetResolve(urls, search, page, people, planets, names, remote);
    FacetResolveSpec(urls, search, page, people, planets, names, remote);
    ContributingOnGrownCache(planets, o.planetCache, species, films, hwUrl, spUrl, filmUrl);
    FacetRepeatIsStable(urls, search, page, people, planets, names, remote);
  }

  /**
   * The non-empty branch of `fetchFilterData` up to the page: with a search,
   * resolve every candidate, keep the matching names, count them and cut the
   * page; without, count the candidates, cut the page of URLs and resolve
   * only that page.
   */
  method ResolveCandidates(cache: ApiCache, remote: map<Url, Person>, resultUrls: seq<Url>, search: string, page: int)
    returns (pageData: seq<Person>, count: nat, detailRequests: seq<Url>)
    requires resultUrls != []
    modifies cache`people
    ensures Listing.Result(pageData, count) == FilterResult(resultUrls, search, page, old(cache.people), remote)
    ensures detailRequests == DetailRequests(resultUrls, search, page, old(cache.people))
    ensures cache.people == old(cache.people) + Stored(DetailUrls(resultUrls, search, page), old(cache.people), remote)
  {
    if search != "" {
      var fullDetails;
      fullDetails, detailRequests := FetchPeopleDetails(cache, remote, resultUrls);
      var filtered := SearchFilter(fullDetails, search);
      count := |filtered|;
      pageData := PageOf(filtered, page);
    } else {
      count := |resultUrls|;
      pageData, detailRequests := FetchPeopleDetails(cache, remote, PageOf(resultUrls, page));
    }
  }

  /** The facet path after the candidates are computed: the page, its count, the merged names and the requests. */
  method ResolveFacetPage(cache: ApiCache, remote: Remote, resultUrls: seq<Url>, search: string, page: int,
                          names: map<Url, string>)
    returns (pageData: seq<Person>, count: nat, merged: map<Url, string>, requests: seq<Url>)
    modifies cache`people, cache`planets
    ensures Outcome(pageData, count, merged, cache.people, cache.planets, requests) ==
            FacetResolve(resultUrls, search, page, old(cache.people), old(cache.planets), names, remote)
  {
    if |resultUrls| == 0 {
      return [], 0, names, [];
    }
    var detailRequests;
    pageData, count, detailRequests := ResolveCandidates(cache, remote.people, resultUrls, search, page);
    var planetRequests;
    merged, planetRequests := ResolveHomeworlds(cache, remote.planets, pageData, names);
    requests := detailRequests + planetRequests;
  }

  class HomeView {
    var people: seq<Person>
    var totalCount: nat
    var loading: bool
    var initializing: bool
    var error: Option<string>
    var planetOptions: seq<Choice>
    var speciesOptions: seq<Choice>
    var filmOptions: seq<Choice>
    var resolvedPlanets: map<Url, string>
    var searchTerm: string
    var debouncedSearch: string
    var filterHomeworld: Url
    var filterSpecies: Url
    var filterFilm: Url
    var page: int
    /** The debounce timer's single slot: the term it will publish when it fires. */
    var pendingSearch: Option<string>
    /**
     * The page-reset effect is due: a facet changed in the last commit, and
     * its `setPage(1)` has not been applied yet.
     */
    var pageResetPending: bool

    /** Pages are numbered from 1. */
    ghost predicate Valid()
      reads this
    {
      page >= 1
    }

    /** The pager is rendered: not loading, no error, and something to page through. */
    predicate PagerShown()
      reads this
    {
      !loading && error.None? && PagerVisible(totalCount)
    }

    /**
     * The page as mounted: empty query, page 1, and the mount-time runs of the
     * debounce (of "") and of the page reset still due.
     */
    constructor ()
      ensures Valid()
      ensures people == [] && totalCount == 0 && loading && initializing && error == None
      ensures planetOptions == [] && speciesOptions == [] && filmOptions == [] && resolvedPlanets == map[]
      ensures searchTerm == "" && debouncedSearch == "" && page == 1
      ensures filterHomeworld == "" && filterSpecies == "" && filterFilm == ""
      ensures pendingSearch == Some("") && pageResetPending
    {
      people, totalCount, loading, initializing, error := [], 0, true, true, None;
      planetOptions, speciesOptions, filmOptions, resolvedPlanets := [], [], [], map[];
      searchTerm, debouncedSearch := "", "";
      filterHomeworld, filterSpecies, filterFilm := "", "", "";
      page := 1;
      pendingSearch := Some("");
      pageResetPending := true;
    }

    /**
     * The mount effect `filterOptionsData`: crawl the three listings; on
     * success build the options and fill the cache, on any failure record the
     * initialisation error. Either way initialisation ends.
     */
    method Bootstrap(cache: ApiCache, remote: Remote) returns (requests: seq<Url>)
      requires CrawlEnds(remote.planetPages, PlanetsEndpoint)
      requires CrawlEnds(remote.speciesPages, SpeciesEndpoint)
      requires CrawlEnds(remote.filmPages, FilmsEndpoint)
      modifies this`planetOptions, this`speciesOptions, this`filmOptions, this`error, this`initializing
      modifies cache`planets, cache`species, cache`films
      ensures !initializing
      ensures requests == CrawlTrace(remote.planetPages, PlanetsEndpoint) +
                          CrawlTrace(remote.speciesPages, SpeciesEndpoint) +
                          CrawlTrace(remote.filmPages, FilmsEndpoint)
      ensures !CatalogLoads(remote) ==>
                error == Some(InitFailed) && planetOptions == old(planetOptions) &&
                speciesOptions == old(speciesOptions) && filmOptions == old(filmOptions)
      ensures !CatalogLoads(remote) ==>
                cache.planets == old(cache.planets) && cache.species == old(cache.species) &&
                cache.films == old(cache.films)
      ensures CatalogLoads(remote) ==>
                error == old(error) &&
                planetOptions == PlanetChoices(Crawled(remote.planetPages, PlanetsEndpoint)) &&
                speciesOptions == SpeciesChoices(Crawled(remote.speciesPages, SpeciesEndpoint)) &&
                filmOptions == FilmChoices(Crawled(remote.filmPages, FilmsEndpoint))
      ensures CatalogLoads(remote) ==>
                cache.planets == old(cache.planets) + IndexBy(Crawled(remote.planetPages, PlanetsEndpoint), PlanetKey) &&
                cache.species == old(cache.species) + IndexBy(Crawled(remote.speciesPages, SpeciesEndpoint), SpeciesKey) &&
                cache.films == old(cache.films) + IndexBy(Crawled(remote.filmPages, FilmsEndpoint), FilmKey)
    {
      var planets, planetReqs := Crawl(remote.planetPages, PlanetsEndpoint);
      var species, speciesReqs := Crawl(remote.speciesPages, SpeciesEndpoint);
      var films, filmReqs := Crawl(remote.filmPages, FilmsEndpoint);
      requests := planetReqs + speciesReqs + filmReqs;
      if planets.Err? || species.Err? || films.Err? {
        error := Some(InitFailed);
        initializing := false;
        return;
      }
      Install(cache, planets.value, species.value, films.value);
    }

    /** The success branch of the mount effect: options in listing order, and the cache filled. */
    method Install(cache: ApiCache, planets: seq<Planet>, species: seq<Species>, films: seq<Film>)
      modifies this`planetOptions, this`speciesOptions, this`filmOptions, this`initializing
      modifies cache`planets, cache`species, cache`films
      ensures !initializing
      ensures planetOptions == PlanetChoices(planets) && speciesOptions == SpeciesChoices(species) &&
              filmOptions == FilmChoices(films)
      ensures cache.planets == old(cache.planets) + IndexBy(planets, PlanetKey)
      ensures cache.species == old(cache.species) + IndexBy(species, SpeciesKey)
      ensures cache.films == old(cache.films) + IndexBy(films, FilmKey)
    {
      planetOptions := PlanetChoices(planets);
      speciesOptions := SpeciesChoices(species);
      filmOptions := FilmChoices(films);
      CachePlanets(cache, planets);
      CacheSpecies(cache, species);
      CacheFilms(cache, films);
      initializing := false;
    }

    /** The search box: `setSearchTerm`, and the debounce effect restarts only when the term changed. */
    method TypeSearch(text: string)
      requires !initializing
      modifies this`searchTerm, this`pendingSearch
      ensures searchTerm == text
      ensures pendingSearch == if text != old(searchTerm) then Some(text) else old(pendingSearch)
    {
      if text != searchTerm {
        searchTerm := text;
        pendingSearch := Some(text);
      }
    }

    /** The debounce timer fires: the pending term becomes the query's search and page returns to 1. */
    method DebounceFires()
      requires Valid() && pendingSearch.Some?
      modifies this`debouncedSearch, this`page, this`pendingSearch
      ensures Valid()
      ensures debouncedSearch == old(pendingSearch).value && page == 1 && pendingSearch == None
    {
      debouncedSearch := pendingSearch.value;
      page := 1;
      pendingSearch := None;
    }

    /**
     * Choosing a facet value. The page is not touched here: a change makes the
     * page-reset effect due (`PageResetFires`), and the fetch effect of the same
     * commit still sees the old page.
     */
    method SelectHomeworld(url: Url)
      requires Valid() && !initializing
      modifies this`filterHomeworld, this`pageResetPending
      ensures Valid() && filterHomeworld == url
      ensures pageResetPending == (old(pageResetPending) || url != old(filterHomeworld))
    {
      if url != filterHomeworld {
        filterHomeworld := url;
        pageResetPending := true;
      }
    }

    method SelectSpecies(url: Url)
      requires Valid() && !initializing
      modifies this`filterSpecies, this`pageResetPending
      ensures Valid() && filterSpecies == url
      ensures pageResetPending == (old(pageResetPending) || url != old(filterSpecies))
    {
      if url != filterSpecies {
        filterSpecies := url;
        pageResetPending := true;
      }
    }

    method SelectFilm(url: Url)
      requires Valid() && !initializing
      modifies this`filterFilm, this`pageResetPending
      ensures Valid() && filterFilm == url
      ensures pageResetPending == (old(pageResetPending) || url != old(filterFilm))
    {
      if url != filterFilm {
        filterFilm := url;
        pageResetPending := true;
      }
    }

    /** The effect on the three facets runs: `setPage(1)`. */
    method PageResetFires()
      requires pageResetPending
      modifies this`page, this`pageResetPending
      ensures Valid() && page == 1 && !pageResetPending
    {
      page := 1;
      pageResetPending := false;
    }

    /**
     * `handleResetFilters`, whose button is disabled while the search box and
     * all facets are empty. It clears the box and the facets and returns to
     * page 1, so the next fetch takes the plain listing path; the published
     * search is left alone and becomes "" only when the restarted debounce fires.
     */
    method ResetFilters()
      requires Valid() && !initializing
      modifies this`searchTerm, this`filterHomeworld, this`filterSpecies, this`filterFilm, this`page, this`pendingSearch
      modifies this`pageResetPending
      ensures Valid()
      ensures pageResetPending == (old(pageResetPending) || IsFilterApplied(old(filterHomeworld), old(filterSpecies), old(filterFilm)))
      ensures var enabled := old(searchTerm) != "" || IsFilterApplied(old(filterHomeworld), old(filterSpecies), old(filterFilm));
        && (enabled ==> searchTerm == "" && filterHomeworld == "" && filterSpecies == "" && filterFilm == "" && page == 1 &&
                        !IsFilterApplied(filterHomeworld, filterSpecies, filterFilm) &&
                        pendingSearch == (if old(searchTerm) != "" then Some("") else old(pendingSearch)))
        && (!enabled ==> searchTerm == old(searchTerm) && page == old(page) && pendingSearch == old(pendingSearch) &&
                         filterHomeworld == old(filterHomeworld) && filterSpecies == old(filterSpecies) &&
                         filterFilm == old(filterFilm))
    {
      if searchTerm != "" || IsFilterApplied(filterHomeworld, filterSpecies, filterFilm) {
        if searchTerm != "" {
          pendingSearch := Some("");
        }
        if IsFilterApplied(filterHomeworld, filterSpecies, filterFilm) {
          pageResetPending := true;
        }
        searchTerm := "";
        filterHomeworld, filterSpecies, filterFilm := "", "", "";
        page := 1;
      }
    }

    /** Previous, disabled on page 1: `setPage(p => Math.max(1, p - 1))`. */
    method Previous()
      requires Valid() && PagerShown()
      modifies this`page
      ensures Valid() && page == PreviousPage(old(page))
      ensures old(page) > 1 ==> page == old(page) - 1
    {
      if page != 1 {
        page := PreviousPage(page);
      }
    }

    /** Next, disabled on the last page: `setPage(p => Math.min(totalPages, p + 1))`. */
    method Next()
      requires Valid() && PagerShown()
      modifies this`page
      ensures Valid() && page <= TotalPages(totalCount)
      ensures old(page) < TotalPages(totalCount) ==> page == old(page) + 1
      ensures old(page) == TotalPages(totalCount) ==> page == old(page)
      ensures old(page) > TotalPages(totalCount) ==> page == TotalPages(totalCount)
    {
      var totalPages := TotalPages(totalCount);
      if page != totalPages {
        page := NextPage(page, totalPages);
      }
    }

    /** `fetchPeopleData(page, debouncedSearch)`: the plain listing path; `ok` is false when it throws. */
    method FetchPeopleData(cache: ApiCache, remote: Remote) returns (ok: bool, requests: seq<Url>)
      modifies this`people, this`totalCount, this`resolvedPlanets, cache`planets
      ensures ok == (PeopleListUrl(page, debouncedSearch) in remote.peoplePages)
      ensures Outcome(people, totalCount, resolvedPlanets, cache.people, cache.planets, requests) ==
              ListingFetch(PeopleListUrl(page, debouncedSearch), old(people), old(totalCount), old(resolvedPlanets),
                           old(cache.people), old(cache.planets), remote)
    {
      var url := PeopleListUrl(page, debouncedSearch);
      requests := [url];
      if url !in remote.peoplePages {
        return false, requests;
      }
      var data := remote.peoplePages[url];
      people := data.results;
      totalCount := data.count;
      var merged, fetched := ResolveHomeworlds(cache, remote.planets, data.results, resolvedPlanets);
      resolvedPlanets := merged;
      requests := requests + fetched;
      ok := true;
    }

    /** `fetchFilterData(page, debouncedSearch, ...)`: the facet path. */
    method FetchFilterData(cache: ApiCache, remote: Remote) returns (requests: seq<Url>)
      requires Valid()
      modifies this`people, this`totalCount, this`resolvedPlanets, cache`people, cache`planets
      ensures Outcome(people, totalCount, resolvedPlanets, cache.people, cache.planets, requests) ==
              FacetResolve(ResultUrls(Contributing(old(cache.planets), old(cache.species), old(cache.films),
                                                   filterHomeworld, filterSpecies, filterFilm)),
                           debouncedSearch, page, old(cache.people), old(cache.planets), old(resolvedPlanets), remote)
    {
      var resultUrls := CandidateUrls(cache.planets, cache.species, cache.films, filterHomeworld, filterSpecies, filterFilm);
      var pageData, count, merged;
      pageData, count, merged, requests := ResolveFacetPage(cache, remote, resultUrls, debouncedSearch, page, resolvedPlanets);
      people, totalCount, resolvedPlanets := pageData, count, merged;
    }

    /**
     * The body of the fetch effect once initialised: clear the error, take the
     * plain listing when no facet is selected and the facet path when one is,
     * record a failure of the plain listing as the fetch error (the previous
     * people and count stay), and stop loading.
     */
    method Refresh(cache: ApiCache, remote: Remote) returns (requests: seq<Url>)
      requires Valid()
      modifies this`people, this`totalCount, this`resolvedPlanets, this`error, this`loading, cache`people, cache`planets
      ensures !loading
      ensures !IsFilterApplied(filterHomeworld, filterSpecies, filterFilm) ==>
        && Outcome(people, totalCount, resolvedPlanets, cache.people, cache.planets, requests) ==
           ListingFetch(PeopleListUrl(page, debouncedSearch), old(people), old(totalCount), old(resolvedPlanets),
                        old(cache.people), old(cache.planets), remote)
        && error == if PeopleListUrl(page, debouncedSearch) in remote.peoplePages then None else Some(FetchFailed)
      ensures IsFilterApplied(filterHomeworld, filterSpecies, filterFilm) ==>
        && Outcome(people, totalCount, resolvedPlanets, cache.people, cache.planets, requests) ==
           FacetResolve(ResultUrls(Contributing(old(cache.planets), old(cache.species), old(cache.films),
                                                filterHomeworld, filterSpecies, filterFilm)),
                        debouncedSearch, page, old(cache.people), old(cache.planets), old(resolvedPlanets), remote)
        && error == None
    {
      ghost var shown, count, names, people0, planets0 := people, totalCount, resolvedPlanets, cache.people, cache.planets;
      loading := true;
      error := None;
      if !IsFilterApplied(filterHomeworld, filterSpecies, filterFilm) {
        var ok;
        ok, requests := FetchPeopleData(cache, remote);
        assert Outcome(people, totalCount, resolvedPlanets, cache.people, cache.planets, requests) ==
               ListingFetch(PeopleListUrl(page, debouncedSearch), shown, count, names, people0, planets0, remote);
        if !ok {
          error := Some(FetchFailed);
        }
      } else {
        requests := FetchFilterData(cache, remote);
      }
      loading := false;
    }

    /**
     * The fetch effect: nothing while initialising, otherwise `Refresh`. The
     * query is the current page and published search, whether or not a page
     * reset is due.
     */
    method FetchData(cache: ApiCache, remote: Remote) returns (requests: seq<Url>)
      requires Valid()
      modifies this`people, this`totalCount, this`resolvedPlanets, this`error, this`loading, cache`people, cache`planets
      ensures initializing ==> requests == [] && people == old(people) && totalCount == old(totalCount) &&
                               error == old(error) && loading == old(loading) && resolvedPlanets == old(resolvedPlanets) &&
                               cache.people == old(cache.people) && cache.planets == old(cache.planets)
      ensures !initializing ==> !loading
      ensures !initializing && !IsFilterApplied(filterHomeworld, filterSpecies, filterFilm) ==>
        && Outcome(people, totalCount, resolvedPlanets, cache.people, cache.planets, requests) ==
           ListingFetch(PeopleListUrl(page, debouncedSearch), old(people), old(totalCount), old(resolvedPlanets),
                        old(cache.people), old(cache.planets), remote)
        && error == if PeopleListUrl(page, debouncedSearch) in remote.peoplePages then None else Some(FetchFailed)
      ensures !initializing && IsFilterApplied(filterHomeworld, filterSpecies, filterFilm) ==>
        && Outcome(people, totalCount, resolvedPlanets, cache.people, cache.planets, requests) ==
           FacetResolve(ResultUrls(Contributing(old(cache.planets), old(cache.species), old(cache.films),
                                                filterHomeworld, filterSpecies, filterFilm)),
                        debouncedSearch, page, old(cache.people), old(cache.planets), old(resolvedPlanets), remote)
        && error == None
    {
      if initializing {
        return [];
      }
      requests := Refresh(cache, remote);
    }
  }
}
