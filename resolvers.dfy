/**
 * The cache-or-fetch resolvers of the character browser (`src/pages/Home.js`):
 * `fetchPeopleDetailsInParallel` turns person URLs into person records and
 * `resolveHomeworldsForView` turns the home-planet links of a page into
 * display names.
 *
 * Both start all their lookups at once, and each lookup checks the cache before
 * its first `await`; every check therefore sees the cache as it was on entry,
 * and the model checks against that snapshot. The requests that miss are
 * returned as a log (`fetched`), in input order.
 */
module Resolvers {
  import opened Wrappers
  import opened Seqs
  import opened Api

  /** URLs absent from a cache map. */
  function Uncached<V>(cached: map<Url, V>): Url -> bool {
    u => u !in cached
  }

  /** The upgraded form of each URL, in order. */
  function HttpsAll(urls: seq<Url>): (r: seq<Url>)
    ensures |r| == |urls|
    ensures forall i :: 0 <= i < |urls| ==> r[i] == Https(urls[i])
  {
    seq(|urls|, i requires 0 <= i < |urls| => Https(urls[i]))
  }

  // ---- person details ----

  /** The outcome for one URL: the cached record, else the fetched one, else `null`. */
  function DetailOf(url: Url, cached: map<Url, Person>, remote: map<Url, Person>): Option<Person> {
    if url in cached then Some(cached[url])
    else if Https(url) in remote then Some(remote[Https(url)])
    else None
  }

  /** A record kept by `filter(Boolean)`, or nothing for `null`. */
  function Present(o: Option<Person>): seq<Person> {
    if o.Some? then [o.value] else []
  }

  /** `results.filter(Boolean)`: the outcomes that are records, in input order. */
  function Details(urls: seq<Url>, cached: map<Url, Person>, remote: map<Url, Person>): seq<Person> {
    if urls == [] then []
    else
      Present(DetailOf(urls[0], cached, remote)) +
      Details(urls[1..], cached, remote)
  }

  /** The requests made: one per URL missing from the cache, in input order. */
  function Misses(urls: seq<Url>, cached: map<Url, Person>): seq<Url> {
    HttpsAll(Filter(urls, Uncached(cached)))
  }

  /** The cache entries written: each fetched record under the URL as given, not the upgraded one. */
  function Stored(urls: seq<Url>, cached: map<Url, Person>, remote: map<Url, Person>): map<Url, Person> {
    map u | u in urls && u !in cached && Https(u) in remote :: remote[Https(u)]
  }

  /**
   * Resolving the same URLs again, on the cache the first resolution left,
   * requests only those whose fetch failed the first time, and yields the
   * same records.
   */
  lemma RepeatRequestsOnlyFailures(urls: seq<Url>, cached: map<Url, Person>, remote: map<Url, Person>)
    ensures var after := cached + Stored(urls, cached, remote);
      && (forall k :: 0 <= k < |Misses(urls, after)| ==> Misses(urls, after)[k] !in remote)
      && Details(urls, after, remote) == Details(urls, cached, remote)
      && Stored(urls, after, remote) == map[]
  {
    var after := cached + Stored(urls, cached, remote);
    var left := Filter(urls, Uncached(after));
    forall k | 0 <= k < |Misses(urls, after)| ensures Misses(urls, after)[k] !in remote {
      assert left[k] in left;
      assert left[k] in urls && left[k] !in after;
    }
    SameDetails(urls, cached, remote, after);
  }

  lemma {:induction false} SameDetails(urls: seq<Url>, cached: map<Url, Person>, remote: map<Url, Person>,
                                       after: map<Url, Person>)
    requires after == cached + Stored(urls, cached, remote)
    ensures Details(urls, after, remote) == Details(urls, cached, remote)
    decreases |urls|
  {
    if urls != [] {
      var rest := urls[1..];
      var later := cached + Stored(rest, cached, remote);
      SameDetails(rest, cached, remote, later);
      assert DetailOf(urls[0], after, remote) == DetailOf(urls[0], cached, remote);
      forall u | u in rest ensures DetailOf(u, after, remote) == DetailOf(u, later, remote) {
      }
      DetailsAgree(rest, after, later, remote);
    }
  }

  lemma {:induction false} DetailsAgree(urls: seq<Url>, c1: map<Url, Person>, c2: map<Url, Person>, remote: map<Url, Person>)
    requires forall u :: u in urls ==> DetailOf(u, c1, remote) == DetailOf(u, c2, remote)
    ensures Details(urls, c1, remote) == Details(urls, c2, remote)
  {
    if urls != [] {
      DetailsAgree(urls[1..], c1, c2, remote);
    }
  }

  /** Resolving a batch is resolving its two halves one after the other: order is kept and a failure drops only itself. */
  lemma {:induction false} DetailsAppend(a: seq<Url>, b: seq<Url>, cached: map<Url, Person>, remote: map<Url, Person>)
    ensures Details(a + b, cached, remote) == Details(a, cached, remote) + Details(b, cached, remote)
  {
    if a == [] {
      assert a + b == b;
    } else {
      assert (a + b)[0] == a[0] && (a + b)[1..] == a[1..] + b;
      DetailsAppend(a[1..], b, cached, remote);
    }
  }

  /**
   * Every resolved record comes from some input URL, and every URL whose lookup
   * succeeds contributes its record; at most one record per URL.
   */
  lemma {:induction false} DetailsMembers(urls: seq<Url>, cached: map<Url, Person>, remote: map<Url, Person>)
    ensures |Details(urls, cached, remote)| <= |urls|
    ensures forall p :: p in Details(urls, cached, remote) ==>
      exists i :: 0 <= i < |urls| && DetailOf(urls[i], cached, remote) == Some(p)
    ensures forall i :: 0 <= i < |urls| && DetailOf(urls[i], cached, remote).Some? ==>
      DetailOf(urls[i], cached, remote).value in Details(urls, cached, remote)
  {
    if urls != [] {
      DetailsMembers(urls[1..], cached, remote);
      var rest := Details(urls[1..], cached, remote);
      forall p | p in Details(urls, cached, remote)
        ensures exists i :: 0 <= i < |urls| && DetailOf(urls[i], cached, remote) == Some(p)
      {
        if p !in rest {
          assert DetailOf(urls[0], cached, remote) == Some(p);
        } else {
          var j :| 0 <= j < |urls[1..]| && DetailOf(urls[1..][j], cached, remote) == Some(p);
          assert urls[1..][j] == urls[j + 1];
        }
      }
      forall i | 0 <= i < |urls| && DetailOf(urls[i], cached, remote).Some?
        ensures DetailOf(urls[i], cached, remote).value in Details(urls, cached, remote)
      {
        if i > 0 { assert urls[i] == urls[1..][i - 1]; }
      }
    }
  }

  /** When every URL is cached, the cached records come back in order and nothing is requested. */
  lemma {:induction false} AllCached(urls: seq<Url>, cached: map<Url, Person>, remote: map<Url, Person>)
    requires forall u :: u in urls ==> u in cached
    ensures Details(urls, cached, remote) == seq(|urls|, i requires 0 <= i < |urls| => cached[urls[i]])
    ensures Misses(urls, cached) == []
  {
    FilterDropsAll(urls, Uncached(cached));
    if urls != [] {
      AllCached(urls[1..], cached, remote);
    }
  }

  lemma DetailsStep(urls: seq<Url>, i: nat, cached: map<Url, Person>, remote: map<Url, Person>)
    requires i < |urls|
    ensures Details(urls[..i + 1], cached, remote) ==
      Details(urls[..i], cached, remote) + Present(DetailOf(urls[i], cached, remote))
  {
    assert urls[..i + 1] == urls[..i] + [urls[i]];
    DetailsAppend(urls[..i], [urls[i]], cached, remote);
  }

  lemma MissesStep(urls: seq<Url>, i: nat, f: Url -> bool)
    requires i < |urls|
    ensures Filter(urls[..i + 1], f) == Filter(urls[..i], f) + (if f(urls[i]) then [urls[i]] else [])
    ensures HttpsAll(Filter(urls[..i + 1], f)) ==
      HttpsAll(Filter(urls[..i], f)) + (if f(urls[i]) then [Https(urls[i])] else [])
  {
    assert urls[..i + 1] == urls[..i] + [urls[i]];
    FilterAppend(urls[..i], [urls[i]], f);
  }

  lemma StoredStep(urls: seq<Url>, i: nat, cached: map<Url, Person>, remote: map<Url, Person>)
    requires i < |urls|
    ensures cached + Stored(urls[..i + 1], cached, remote) ==
      if urls[i] !in cached && Https(urls[i]) in remote
      then (cached + Stored(urls[..i], cached, remote))[urls[i] := remote[Https(urls[i])]]
      else cached + Stored(urls[..i], cached, remote)
  {
    assert urls[..i + 1] == urls[..i] + [urls[i]];
  }

  /**
   * The callback `fetchPeopleDetailsInParallel` runs for one URL: the record
   * cached at entry, else the record fetched from the upgraded URL (stored
   * under the URL as given), else `null`.
   */
  method FetchPerson(cache: ApiCache, remote: map<Url, Person>, snapshot: map<Url, Person>, url: Url)
    returns (found: Option<Person>, request: seq<Url>)
    modifies cache`people
    ensures found == DetailOf(url, snapshot, remote)
    ensures request == if url in snapshot then [] else [Https(url)]
    ensures cache.people == if url !in snapshot && Https(url) in remote
                            then old(cache.people)[url := remote[Https(url)]] else old(cache.people)
  {
    if url in snapshot {
      return Some(snapshot[url]), [];
    }
    var httpsUrl := Https(url);
    request := [httpsUrl];
    if httpsUrl in remote {
      var data := remote[httpsUrl];
      cache.people := cache.people[url := data];
      found := Some(data);
    } else {
      found := None;
    }
  }

  /**
   * `fetchPeopleDetailsInParallel(urls)`: a cached record is returned as it is;
   * otherwise the upgraded URL is requested, a success is stored under the
   * original URL, and a failure yields nothing.
   */
  method FetchPeopleDetails(cache: ApiCache, remote: map<Url, Person>, urls: seq<Url>)
    returns (details: seq<Person>, fetched: seq<Url>)
    modifies cache`people
    ensures details == Details(urls, old(cache.people), remote)
    ensures fetched == Misses(urls, old(cache.people))
    ensures cache.people == old(cache.people) + Stored(urls, old(cache.people), remote)
  {
    var snapshot := cache.people;
    details, fetched := [], [];
    var i := 0;
    while i < |urls|
      invariant 0 <= i <= |urls|
      invariant details == Details(urls[..i], snapshot, remote)
      invariant fetched == Misses(urls[..i], snapshot)
      invariant cache.people == snapshot + Stored(urls[..i], snapshot, remote)
    {
      DetailsStep(urls, i, snapshot, remote);
      MissesStep(urls, i, Uncached(snapshot));
      StoredStep(urls, i, snapshot, remote);
      var found, request := FetchPerson(cache, remote, snapshot, urls[i]);
      details := details + Present(found);
      fetched := fetched + request;
      i := i + 1;
    }
    assert urls[..i] == urls;
  }


  // ---- homeworld names ----

  /** The homeworld link of each person, in order. */
  function Homeworlds(items: seq<Person>): seq<Url> {
    seq(|items|, i requires 0 <= i < |items| => items[i].homeworld)
  }

  /** The name found for one planet link: from the cache, else from a fetch, else none. */
  function PlanetName(url: Url, cached: map<Url, Planet>, remote: map<Url, Planet>): Option<string> {
    if url in cached then Some(cached[url].name)
    else if Https(url) in remote then Some(remote[Https(url)].name)
    else None
  }

  /** `newMap`: a name for every non-empty link that resolves; failures leave no entry. */
  function NewNames(urls: seq<Url>, cached: map<Url, Planet>, remote: map<Url, Planet>): map<Url, string> {
    map u | u in urls && u != "" && PlanetName(u, cached, remote).Some? :: PlanetName(u, cached, remote).value
  }

  /** Links that need a request: non-empty and not cached. */
  function UnresolvedPlanet(cached: map<Url, Planet>): Url -> bool {
    u => u != "" && u !in cached
  }

  function PlanetMisses(urls: seq<Url>, cached: map<Url, Planet>): seq<Url> {
    HttpsAll(Filter(urls, UnresolvedPlanet(cached)))
  }

  function PlanetsStored(urls: seq<Url>, cached: map<Url, Planet>, remote: map<Url, Planet>): map<Url, Planet> {
    map u | u in urls && u != "" && u !in cached && Https(u) in remote :: remote[Https(u)]
  }

  /**
   * Looking the same homeworlds up again, on the planet cache the first
   * lookup left, requests only links whose fetch failed, writes nothing new
   * and yields the same names.
   */
  lemma PlanetRepeatOnlyFailures(urls: seq<Url>, cached: map<Url, Planet>, remote: map<Url, Planet>)
    ensures var after := cached + PlanetsStored(urls, cached, remote);
      && (forall k :: 0 <= k < |PlanetMisses(urls, after)| ==> PlanetMisses(urls, after)[k] !in remote)
      && NewNames(urls, after, remote) == NewNames(urls, cached, remote)
      && PlanetsStored(urls, after, remote) == map[]
  {
    var after := cached + PlanetsStored(urls, cached, remote);
    var left := Filter(urls, UnresolvedPlanet(after));
    forall k | 0 <= k < |PlanetMisses(urls, after)| ensures PlanetMisses(urls, after)[k] !in remote {
      assert left[k] in left;
      assert left[k] in urls && left[k] != "" && left[k] !in after;
    }
    forall u | u in urls && u != "" ensures PlanetName(u, after, remote) == PlanetName(u, cached, remote) {
    }
  }

  lemma {:induction false} NoDupsCard(s: seq<Url>)
    requires NoDups(s)
    ensures |set x | x in s| == |s|
  {
    if s != [] {
      var init := s[..|s| - 1];
      assert NoDups(init);
      NoDupsCard(init);
      assert s == init + [s[|s| - 1]];
      assert (set x | x in s) == (set x | x in init) + {s[|s| - 1]};
    }
  }

  /**
   * Homeworld resolution requests each distinct non-empty, uncached planet
   * link exactly once, however many people on the page share it.
   */
  lemma OneRequestPerPlanet(items: seq<Person>, cached: map<Url, Planet>)
    ensures |PlanetMisses(Dedup(Homeworlds(items)), cached)| ==
            |set u | u in Homeworlds(items) && u != "" && u !in cached|
  {
    var d := Dedup(Homeworlds(items));
    var f := Filter(d, UnresolvedPlanet(cached));
    DedupSpec(Homeworlds(items));
    FilterNoDups(d, UnresolvedPlanet(cached));
    NoDupsCard(f);
    assert (set x | x in f) == (set u | u in Homeworlds(items) && u != "" && u !in cached);
  }

  /**
   * The merge keeps every name resolved before and adds a name for exactly the
   * non-empty links of the page that resolve.
   */
  lemma MergeKeepsEarlierNames(prev: map<Url, string>, items: seq<Person>,
                               cached: map<Url, Planet>, remote: map<Url, Planet>)
    ensures var merged := prev + NewNames(Dedup(Homeworlds(items)), cached, remote);
      && prev.Keys <= merged.Keys
      && (forall u :: u in merged && u !in prev ==>
            u in Homeworlds(items) && u != "" && PlanetName(u, cached, remote) == Some(merged[u]))
      && (forall i :: 0 <= i < |items| && items[i].homeworld != "" && PlanetName(items[i].homeworld, cached, remote).Some? ==>
            items[i].homeworld in merged &&
            merged[items[i].homeworld] == PlanetName(items[i].homeworld, cached, remote).value)
  {
    var hw := Homeworlds(items);
    DedupSpec(hw);
    assert forall i :: 0 <= i < |items| ==> hw[i] == items[i].homeworld;
  }

  lemma NewNamesStep(urls: seq<Url>, i: nat, cached: map<Url, Planet>, remote: map<Url, Planet>)
    requires i < |urls|
    ensures NewNames(urls[..i + 1], cached, remote) ==
      if urls[i] != "" && PlanetName(urls[i], cached, remote).Some?
      then NewNames(urls[..i], cached, remote)[urls[i] := PlanetName(urls[i], cached, remote).value]
      else NewNames(urls[..i], cached, remote)
  {
    assert urls[..i + 1] == urls[..i] + [urls[i]];
  }

  lemma PlanetsStoredStep(urls: seq<Url>, i: nat, cached: map<Url, Planet>, remote: map<Url, Planet>)
    requires i < |urls|
    ensures cached + PlanetsStored(urls[..i + 1], cached, remote) ==
      if urls[i] != "" && urls[i] !in cached && Https(urls[i]) in remote
      then (cached + PlanetsStored(urls[..i], cached, remote))[urls[i] := remote[Https(urls[i])]]
      else cached + PlanetsStored(urls[..i], cached, remote)
  {
    assert urls[..i + 1] == urls[..i] + [urls[i]];
  }

  /**
   * The callback `resolveHomeworldsForView` runs for one planet link: nothing
   * for an empty link; the name cached at entry; else the planet fetched from
   * the upgraded link (cached under the link as given) and its name; a failure
   * is swallowed.
   */
  method LookupPlanet(cache: ApiCache, remote: map<Url, Planet>, snapshot: map<Url, Planet>, url: Url)
    returns (name: Option<string>, request: seq<Url>)
    modifies cache`planets
    ensures name == if url == "" then None else PlanetName(url, snapshot, remote)
    ensures request == if UnresolvedPlanet(snapshot)(url) then [Https(url)] else []
    ensures cache.planets == if url != "" && url !in snapshot && Https(url) in remote
                             then old(cache.planets)[url := remote[Https(url)]] else old(cache.planets)
  {
    if url == "" {
      return None, [];
    }
    if url in snapshot {
      return Some(snapshot[url].name), [];
    }
    var httpsUrl := Https(url);
    request := [httpsUrl];
    if httpsUrl in remote {
      var d := remote[httpsUrl];
      cache.planets := cache.planets[url := d];
      name := Some(d.name);
    } else {
      name := None;
    }
  }

  /**
   * The `Promise.all(uniquePlanets.map(...))` block of
   * `resolveHomeworldsForView`: each non-empty link is looked up in the cache
   * as it was on entry, else requested; a success is cached under the link as
   * given and its name recorded, a failure is swallowed.
   */
  method LookupPlanetNames(cache: ApiCache, remote: map<Url, Planet>, uniquePlanets: seq<Url>)
    returns (newMap: map<Url, string>, fetched: seq<Url>)
    modifies cache`planets
    ensures newMap == NewNames(uniquePlanets, old(cache.planets), remote)
    ensures fetched == PlanetMisses(uniquePlanets, old(cache.planets))
    ensures cache.planets == old(cache.planets) + PlanetsStored(uniquePlanets, old(cache.planets), remote)
  {
    var snapshot := cache.planets;
    newMap := map[];
    fetched := [];
    var i := 0;
    while i < |uniquePlanets|
      invariant 0 <= i <= |uniquePlanets|
      invariant newMap == NewNames(uniquePlanets[..i], snapshot, remote)
      invariant fetched == PlanetMisses(uniquePlanets[..i], snapshot)
      invariant cache.planets == snapshot + PlanetsStored(uniquePlanets[..i], snapshot, remote)
    {
      var url := uniquePlanets[i];
      NewNamesStep(uniquePlanets, i, snapshot, remote);
      MissesStep(uniquePlanets, i, UnresolvedPlanet(snapshot));
      PlanetsStoredStep(uniquePlanets, i, snapshot, remote);
      var name, request := LookupPlanet(cache, remote, snapshot, url);
      if name.Some? {
        newMap := newMap[url := name.value];
      }
      fetched := fetched + request;
      i := i + 1;
    }
    assert uniquePlanets[..i] == uniquePlanets;
  }


  /** The view's name map after `resolveHomeworldsForView(items)` merges over `prev`. */
  function NamesAfter(prev: map<Url, string>, items: seq<Person>, cached: map<Url, Planet>,
                      remote: map<Url, Planet>): map<Url, string> {
    prev + NewNames(Dedup(Homeworlds(items)), cached, remote)
  }

  /** The planet cache after `resolveHomeworldsForView(items)`. */
  function PlanetsAfter(cached: map<Url, Planet>, items: seq<Person>, remote: map<Url, Planet>): map<Url, Planet> {
    cached + PlanetsStored(Dedup(Homeworlds(items)), cached, remote)
  }

  /** The planet requests of `resolveHomeworldsForView(items)`. */
  function PlanetLookups(items: seq<Person>, cached: map<Url, Planet>): seq<Url> {
    PlanetMisses(Dedup(Homeworlds(items)), cached)
  }

  /**
   * `resolveHomeworldsForView(items)`: one lookup per distinct planet link of
   * the page, and the new names merged over the previous map
   * (`setResolvedPlanets(prev => ({ ...prev, ...newMap }))`).
   */
  method ResolveHomeworlds(cache: ApiCache, remote: map<Url, Planet>, items: seq<Person>, prev: map<Url, string>)
    returns (merged: map<Url, string>, fetched: seq<Url>)
    modifies cache`planets
    ensures merged == NamesAfter(prev, items, old(cache.planets), remote)
    ensures fetched == PlanetLookups(items, old(cache.planets))
    ensures cache.planets == PlanetsAfter(old(cache.planets), items, remote)
  {
    var uniquePlanets := Dedup(Homeworlds(items));
    var newMap;
    newMap, fetched := LookupPlanetNames(cache, remote, uniquePlanets);
    merged := prev + newMap;
  }
}
