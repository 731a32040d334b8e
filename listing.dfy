/**
 * The query rules of the character browser (`src/pages/Home.js`): which
 * request path a query takes, the URL of the plain paged listing, the
 * client-side name search, and the page of people and total count the facet
 * path produces.
 */
module Listing {
  import opened Wrappers
  import opened Text
  import opened Seqs
  import opened Api
  import opened Paging
  import opened Resolvers

  const PeopleEndpoint: string := "https://swapi.dev/api/people/?page="
  const SearchParam: string := "&search="

  /** `filterHomeworld || filterSpecies || filterFilm`: any non-empty facet selects the facet path. */
  predicate IsFilterApplied(hwUrl: Url, spUrl: Url, filmUrl: Url) {
    hwUrl != "" || spUrl != "" || filmUrl != ""
  }

  /**
   * The URL `fetchPeopleData` requests: the page number after the endpoint and,
   * for a non-empty search only, `&search=` followed by the term as typed (it is
   * not URL-encoded).
   */
  function PeopleListUrl(page: int, search: string): (url: string)
    ensures |url| > |PeopleEndpoint| && url[..|PeopleEndpoint|] == PeopleEndpoint
    ensures search != "" ==> |url| >= |SearchParam + search| && url[|url| - |SearchParam + search|..] == SearchParam + search
    ensures search == "" ==> !Includes(url, "&")
  {
    var url := PeopleEndpoint + IntToString(page);
    if search == "" then
      NumberHasNoAmpersand(page);
      assert '&' !in PeopleEndpoint;
      NoAmpersand(url);
      url
    else
      var tail := SearchParam + search;
      assert (url + tail)[..|PeopleEndpoint|] == PeopleEndpoint;
      assert (url + tail)[|url|..] == tail;
      url + tail
  }

  lemma NumberHasNoAmpersand(n: int)
    ensures '&' !in IntToString(n)
  {
    var d := Decimal(if n < 0 then -n else n);
    assert forall i :: 0 <= i < |d| ==> d[i] != '&';
  }

  lemma {:induction false} NoAmpersand(s: string)
    requires '&' !in s
    ensures IndexOf(s, "&") == -1
  {
    if |s| >= 1 {
      assert s[..1] == [s[0]];
      assert forall x :: x in s[1..] ==> x in s;
      NoAmpersand(s[1..]);
    }
  }

  /** The listing URL carries the page: two pages with the same search never share a URL. */
  lemma PeopleListUrlInjective(p: int, q: int, search: string)
    requires PeopleListUrl(p, search) == PeopleListUrl(q, search)
    ensures p == q
  {
    var u, v := PeopleEndpoint + IntToString(p), PeopleEndpoint + IntToString(q);
    if search != "" {
      var tail := SearchParam + search;
      assert u == PeopleListUrl(p, search)[..|u|];
      assert |u| == |PeopleListUrl(p, search)| - |tail|;
      assert |v| == |PeopleListUrl(q, search)| - |tail|;
      assert v == PeopleListUrl(q, search)[..|v|];
    }
    assert IntToString(p) == u[|PeopleEndpoint|..];
    assert IntToString(q) == v[|PeopleEndpoint|..];
    IntToStringInjective(p, q);
  }

  /** A person matches the search when the name contains it, ignoring case. */
  function NameMatches(search: string): Person -> bool {
    (p: Person) => Includes(Lower(p.name), Lower(search))
  }

  /** `fullDetails.filter(...)`: the people whose name contains the search, ignoring case. */
  function SearchFilter(details: seq<Person>, search: string): seq<Person> {
    Filter(details, NameMatches(search))
  }

  /** What the facet path shows: one page of people and the total it pages through. */
  datatype Result = Result(people: seq<Person>, totalCount: nat)

  /**
   * `fetchFilterData` after the candidates are known. No candidate: nothing
   * and a count of 0, with no request. With a search: the details of every
   * candidate are resolved, those whose name matches are counted, and the
   * page is cut from them. Without: the candidates are counted, the page is
   * cut from the URLs, and only that page is resolved.
   */
  function FilterResult(resultUrls: seq<Url>, search: string, page: int,
                        cached: map<Url, Person>, remote: map<Url, Person>): Result
  {
    if resultUrls == [] then Result([], 0)
    else if search != "" then
      var filtered := SearchFilter(Details(resultUrls, cached, remote), search);
      Result(PageOf(filtered, page), |filtered|)
    else
      Result(Details(PageOf(resultUrls, page), cached, remote), |resultUrls|)
  }

  /** The candidates whose details the facet path resolves: all of them with a search, one page without. */
  function DetailUrls(resultUrls: seq<Url>, search: string, page: int): seq<Url> {
    if search != "" then resultUrls else PageOf(resultUrls, page)
  }

  /** The requests the facet path makes for person details. */
  function DetailRequests(resultUrls: seq<Url>, search: string, page: int, cached: map<Url, Person>): seq<Url> {
    if resultUrls == [] then [] else Misses(DetailUrls(resultUrls, search, page), cached)
  }

  /**
   * The details the facet path stores are the ones it already used: on the
   * cache its own resolution left, the same query yields the same result.
   */
  lemma FilterResultAfterStore(resultUrls: seq<Url>, search: string, page: int,
                               cached: map<Url, Person>, remote: map<Url, Person>)
    ensures var after := cached + Stored(DetailUrls(resultUrls, search, page), cached, remote);
      FilterResult(resultUrls, search, page, after, remote) == FilterResult(resultUrls, search, page, cached, remote)
  {
    RepeatRequestsOnlyFailures(DetailUrls(resultUrls, search, page), cached, remote);
  }

  /**
   * One page holds at most ten people, every one the record of some
   * candidate; with a search every one matches it; the count never exceeds
   * the number of candidates, does not depend on the page, and equals it
   * when there is no search.
   */
  lemma FilterResultSpec(resultUrls: seq<Url>, search: string, page: int,
                         cached: map<Url, Person>, remote: map<Url, Person>)
    ensures var r := FilterResult(resultUrls, search, page, cached, remote);
      && |r.people| <= PageSize
      && r.totalCount <= |resultUrls|
      && r.totalCount == FilterResult(resultUrls, search, 1, cached, remote).totalCount
      && (search == "" ==> r.totalCount == |resultUrls|)
      && (search != "" ==> forall p :: p in r.people ==> NameMatches(search)(p))
      && (forall p :: p in r.people ==>
            exists i :: 0 <= i < |resultUrls| && DetailOf(resultUrls[i], cached, remote) == Some(p))
  {
    DetailsMembers(resultUrls, cached, remote);
    if resultUrls != [] && search == "" {
      var pageUrls := PageOf(resultUrls, page);
      DetailsMembers(pageUrls, cached, remote);
      forall p | p in Details(pageUrls, cached, remote)
        ensures exists i :: 0 <= i < |resultUrls| && DetailOf(resultUrls[i], cached, remote) == Some(p)
      {
        var j :| 0 <= j < |pageUrls| && DetailOf(pageUrls[j], cached, remote) == Some(p);
        assert pageUrls[j] in resultUrls;
        var i :| 0 <= i < |resultUrls| && resultUrls[i] == pageUrls[j];
      }
    }
  }

  /** Pages 1 to `n` of the facet path, laid end to end. */
  function ShownUpTo(resultUrls: seq<Url>, search: string, cached: map<Url, Person>, remote: map<Url, Person>, n: nat): seq<Person> {
    if n == 0 then [] else ShownUpTo(resultUrls, search, cached, remote, n - 1) + FilterResult(resultUrls, search, n, cached, remote).people
  }

  /** Every person the facet path can show: the matching details, or all details without a search. */
  function AllShown(resultUrls: seq<Url>, search: string, cached: map<Url, Person>, remote: map<Url, Person>): seq<Person> {
    if search != "" then SearchFilter(Details(resultUrls, cached, remote), search)
    else Details(resultUrls, cached, remote)
  }

  lemma {:induction false} ShownUpToDetails(resultUrls: seq<Url>, cached: map<Url, Person>, remote: map<Url, Person>, n: nat)
    requires resultUrls != []
    ensures ShownUpTo(resultUrls, "", cached, remote, n) == Details(PagesUpTo(resultUrls, n), cached, remote)
  {
    if n > 0 {
      ShownUpToDetails(resultUrls, cached, remote, n - 1);
      DetailsAppend(PagesUpTo(resultUrls, n - 1), PageOf(resultUrls, n), cached, remote);
    }
  }

  lemma {:induction false} ShownUpToFiltered(resultUrls: seq<Url>, search: string, cached: map<Url, Person>, remote: map<Url, Person>, n: nat)
    requires resultUrls != [] && search != ""
    ensures ShownUpTo(resultUrls, search, cached, remote, n) ==
            PagesUpTo(SearchFilter(Details(resultUrls, cached, remote), search), n)
  {
    if n > 0 {
      ShownUpToFiltered(resultUrls, search, cached, remote, n - 1);
    }
  }

  /**
   * Paging from page 1 to the last page (`TotalPages` of the count) shows
   * every person of the result exactly once, in candidate order: the pages
   * and the count are cut from the same ordered list.
   */
  lemma PagesShowEveryResult(resultUrls: seq<Url>, search: string, cached: map<Url, Person>, remote: map<Url, Person>)
    ensures var total := FilterResult(resultUrls, search, 1, cached, remote).totalCount;
      ShownUpTo(resultUrls, search, cached, remote, TotalPages(total)) == AllShown(resultUrls, search, cached, remote)
  {
    if resultUrls == [] {
      assert AllShown(resultUrls, search, cached, remote) == [];
    } else if search != "" {
      var filtered := SearchFilter(Details(resultUrls, cached, remote), search);
      ShownUpToFiltered(resultUrls, search, cached, remote, TotalPages(|filtered|));
      PagesPartition(filtered);
    } else {
      ShownUpToDetails(resultUrls, cached, remote, TotalPages(|resultUrls|));
      PagesPartition(resultUrls);
    }
  }
}
