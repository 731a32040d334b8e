/**
 * The shared resource cache and the listing crawler (`src/utils/api.js`),
 * together with the records of the remote catalogue they hold.
 *
 * The network is an oracle: a map from the URL actually requested to what a
 * successful request and JSON parse return. A URL missing from the map is a
 * request whose `fetch` or `json()` rejects.
 */
module Api {
  import opened Wrappers
  import opened Text

  type Url = string

  datatype Planet = Planet(url: Url, name: string, residents: seq<Url>)
  datatype Species = Species(url: Url, name: string, people: seq<Url>)
  datatype Film = Film(url: Url, title: string, characters: seq<Url>)
  /** A character; `homeworld` is "" when the record carries no planet link. */
  datatype Person = Person(name: string, homeworld: Url)

  /** One page of a paginated listing: the `{count, next, results}` envelope. */
  datatype Page<T> = Page(count: nat, next: Option<Url>, results: seq<T>)

  /** What the remote catalogue answers, keyed by the exact URL requested. */
  datatype Remote = Remote(
    planetPages: map<Url, Page<Planet>>,
    speciesPages: map<Url, Page<Species>>,
    filmPages: map<Url, Page<Film>>,
    peoplePages: map<Url, Page<Person>>,
    planets: map<Url, Planet>,
    people: map<Url, Person>)

  /** The protocol upgrade applied before every dereference: `url.replace('http:', 'https:')`. */
  function Https(url: Url): Url {
    ReplaceFirst(url, "http:", "https:")
  }

  /**
   * An `http:` URL is upgraded to `https:` with the rest kept, and a URL in
   * which `http:` does not occur (an `https:` URL, say) is left as it is.
   */
  lemma HttpsUpgrade(url: Url)
    ensures |url| >= 5 && url[..5] == "http:" ==> Https(url) == "https:" + url[5..]
    ensures !Includes(url, "http:") ==> Https(url) == url
    ensures Includes(url, "http:") ==>
      var i := IndexOf(url, "http:");
      i + 5 <= |url| && Https(url) == url[..i] + "https:" + url[i + 5..]
  {
    ReplaceFirstSpec(url, "http:", "https:");
  }

  /** `apiCache`: four independent dictionaries keyed by resource URL. */
  class ApiCache {
    var planets: map<Url, Planet>
    var species: map<Url, Species>
    var films: map<Url, Film>
    var people: map<Url, Person>

    constructor ()
      ensures planets == map[] && species == map[] && films == map[] && people == map[]
    {
      planets, species, films, people := map[], map[], map[], map[];
    }
  }

  /** `while (nextUrl)`: a missing, null or empty link ends the crawl. */
  predicate Continues(next: Option<Url>) {
    next.Some? && next.value != ""
  }

  /**
   * `reqs` is the sequence of URLs the crawl requests when it starts from the
   * link `next`, and `ok` says whether it ends normally: each request goes to
   * the upgraded form of the current link, a page that answers supplies the
   * next link, and the crawl stops when the link no longer continues (ok) or
   * when a request fails (not ok, the failing request being the last one).
   */
  ghost predicate Walks<T>(pages: map<Url, Page<T>>, next: Option<Url>, reqs: seq<Url>, ok: bool)
    decreases |reqs|
  {
    if !Continues(next) then reqs == [] && ok
    else
      |reqs| > 0 && reqs[0] == Https(next.value) &&
      if reqs[0] in pages then Walks(pages, pages[reqs[0]].next, reqs[1..], ok)
      else |reqs| == 1 && !ok
  }

  /** The `results` of the pages answered along `reqs`, in request order. */
  function ResultsAlong<T>(pages: map<Url, Page<T>>, reqs: seq<Url>): seq<T> {
    if reqs == [] then []
    else
      var last := reqs[|reqs| - 1];
      ResultsAlong(pages, reqs[..|reqs| - 1]) + (if last in pages then pages[last].results else [])
  }

  /** The crawl from a given link is unique: its requests and its outcome are determined. */
  lemma {:induction false} WalksDeterministic<T>(pages: map<Url, Page<T>>, next: Option<Url>,
                                                 r1: seq<Url>, ok1: bool, r2: seq<Url>, ok2: bool)
    requires Walks(pages, next, r1, ok1) && Walks(pages, next, r2, ok2)
    ensures r1 == r2 && ok1 == ok2
    decreases |r1|
  {
    if Continues(next) && r1[0] in pages {
      WalksDeterministic(pages, pages[r1[0]].next, r1[1..], ok1, r2[1..], ok2);
    }
  }

  /**
   * A successful crawl from `baseUrl` in index form: the first request goes to
   * the upgraded `baseUrl`, every later one to the upgraded `next` of the page
   * before it, every page answered, and only the last page has no next link.
   */
  lemma {:induction false} WalksLinks<T>(pages: map<Url, Page<T>>, next: Option<Url>, reqs: seq<Url>)
    requires Walks(pages, next, reqs, true)
    ensures |reqs| == 0 <==> !Continues(next)
    ensures |reqs| > 0 ==> reqs[0] == Https(next.value)
    ensures forall i :: 0 <= i < |reqs| ==> reqs[i] in pages
    ensures forall i :: 0 <= i < |reqs| - 1 ==>
      Continues(pages[reqs[i]].next) && reqs[i + 1] == Https(pages[reqs[i]].next.value)
    ensures |reqs| > 0 ==> !Continues(pages[reqs[|reqs| - 1]].next)
    decreases |reqs|
  {
    if |reqs| > 0 {
      var rest := reqs[1..];
      WalksLinks(pages, pages[reqs[0]].next, rest);
      forall i | 0 <= i < |reqs| - 1
        ensures Continues(pages[reqs[i]].next) && reqs[i + 1] == Https(pages[reqs[i]].next.value)
      {
        if i > 0 {
          assert reqs[i] == rest[i - 1] && reqs[i + 1] == rest[i];
        }
      }
    }
  }

  /** Appending one request appends that page's results. */
  lemma ResultsAlongSnoc<T>(pages: map<Url, Page<T>>, reqs: seq<Url>, url: Url)
    requires url in pages
    ensures ResultsAlong(pages, reqs + [url]) == ResultsAlong(pages, reqs) + pages[url].results
  {
    assert (reqs + [url])[..|reqs|] == reqs;
  }

  /**
   * `fetchAllPages(baseUrl)`: follows the `next` links from `baseUrl`, upgrading
   * each to https before requesting it, and concatenates every page's `results`.
   * Any failed request aborts the whole crawl with no partial list. `requests`
   * is the log of the URLs requested, in order.
   */
  method FetchAllPages<T>(pages: map<Url, Page<T>>, baseUrl: Url) returns (r: Result<seq<T>, Url>, requests: seq<Url>)
    requires exists reqs, ok :: Walks(pages, Some(baseUrl), reqs, ok)
    ensures Walks(pages, Some(baseUrl), requests, r.Ok?)
    ensures r.Ok? ==> r.value == ResultsAlong(pages, requests)
    ensures r.Err? ==> |requests| > 0 && r.error == requests[|requests| - 1] && r.error !in pages
  {
    ghost var walk, ok :| Walks(pages, Some(baseUrl), walk, ok);
    var results: seq<T> := [];
    var nextUrl := Some(baseUrl);
    requests := [];
    while Continues(nextUrl)
      invariant |requests| <= |walk| && walk[..|requests|] == requests
      invariant Walks(pages, nextUrl, walk[|requests|..], ok)
      invariant forall i :: 0 <= i < |requests| ==> requests[i] in pages
      invariant results == ResultsAlong(pages, requests)
      decreases |walk| - |requests|
    {
      var httpsUrl := Https(nextUrl.value);
      assert walk[|requests|] == httpsUrl;
      assert walk[..|requests| + 1] == requests + [httpsUrl];
      if httpsUrl !in pages {
        requests := requests + [httpsUrl];
        assert walk == requests;
        return Err(httpsUrl), requests;
      }
      var data := pages[httpsUrl];
      ResultsAlongSnoc(pages, requests, httpsUrl);
      assert walk[|requests|..][1..] == walk[|requests| + 1..];
      results := results + data.results;
      requests := requests + [httpsUrl];
      nextUrl := data.next;
    }
    assert walk == requests;
    return Ok(results), requests;
  }
}
