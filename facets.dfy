/**
 * The facet filter of the character browser (`fetchFilterData` and its
 * `addToCandidates` closure in `src/pages/Home.js`): the candidate person URLs
 * are the intersection of the backing lists of the selected facets, taken in
 * the fixed order homeworld, species, film.
 */
module Facets {
  import opened Wrappers
  import opened Seqs
  import opened Api

  /**
   * The backing lists that take part: those of the selected facets whose
   * resource is in the cache. A selected facet missing from the cache is
   * skipped, not treated as empty.
   */
  function Contributing(planets: map<Url, Planet>, species: map<Url, Species>, films: map<Url, Film>,
                        hwUrl: Url, spUrl: Url, filmUrl: Url): (lists: seq<seq<Url>>)
    ensures |lists| <= 3
    ensures hwUrl == "" && spUrl == "" && filmUrl == "" ==> lists == []
  {
    (if hwUrl != "" && hwUrl in planets then [planets[hwUrl].residents] else []) +
    (if spUrl != "" && spUrl in species then [species[spUrl].people] else []) +
    (if filmUrl != "" && filmUrl in films then [films[filmUrl].characters] else [])
  }

  /**
   * Which lists take part, and where: the homeworld's residents come first,
   * then the species' members, then the film's characters, each only when its
   * facet is selected and its resource is cached; an uncached selection
   * contributes exactly what no selection does.
   */
  lemma ContributingSpec(planets: map<Url, Planet>, species: map<Url, Species>, films: map<Url, Film>,
                         hwUrl: Url, spUrl: Url, filmUrl: Url)
    ensures var lists := Contributing(planets, species, films, hwUrl, spUrl, filmUrl);
      var hw := hwUrl != "" && hwUrl in planets;
      var sp := spUrl != "" && spUrl in species;
      var fm := filmUrl != "" && filmUrl in films;
      && (hwUrl !in planets ==> lists == Contributing(planets, species, films, "", spUrl, filmUrl))
      && (spUrl !in species ==> lists == Contributing(planets, species, films, hwUrl, "", filmUrl))
      && (filmUrl !in films ==> lists == Contributing(planets, species, films, hwUrl, spUrl, ""))
      && (hw ==> |lists| > 0 && lists[0] == planets[hwUrl].residents)
      && (sp ==> var k := if hw then 1 else 0; |lists| > k && lists[k] == species[spUrl].people)
      && (fm ==> |lists| > 0 && lists[|lists| - 1] == films[filmUrl].characters)
      && |lists| == (if hw then 1 else 0) + (if sp then 1 else 0) + (if fm then 1 else 0)
  {
  }

  function MemberOf(list: seq<Url>): Url -> bool {
    x => x in list
  }

  /** The candidates, in their order, that also occur in `list`. */
  function Intersect(candidates: seq<Url>, list: seq<Url>): seq<Url> {
    Filter(candidates, MemberOf(list))
  }

  /** `addToCandidates(list)`: the first list seeds the set, each later one intersects it. */
  function AddToCandidates(candidates: Option<seq<Url>>, list: seq<Url>): Option<seq<Url>> {
    if candidates.None? then Some(Dedup(list)) else Some(Intersect(candidates.value, list))
  }

  /** The candidate set after `addToCandidates` has been applied to each list in turn. */
  function Fold(lists: seq<seq<Url>>): Option<seq<Url>>
    decreases |lists|
  {
    if lists == [] then None
    else AddToCandidates(Fold(lists[..|lists| - 1]), lists[|lists| - 1])
  }

  /** `resultUrls`: no contributing facet leaves `candidates` null, which becomes the empty set. */
  function ResultUrls(lists: seq<seq<Url>>): seq<Url> {
    Fold(lists).GetOr([])
  }

  predicate InEvery(x: Url, lists: seq<seq<Url>>) {
    forall i :: 0 <= i < |lists| ==> x in lists[i]
  }

  function InEveryOf(lists: seq<seq<Url>>): Url -> bool {
    x => InEvery(x, lists)
  }

  /** The elements of `s` that occur in every one of `lists`, in the order of `s`. */
  function InAll(s: seq<Url>, lists: seq<seq<Url>>): seq<Url> {
    Filter(s, InEveryOf(lists))
  }

  /**
   * The running intersection is the first list deduplicated in first-occurrence
   * order, keeping the URLs that every later list contains.
   */
  lemma {:induction false} FoldIsFilteredFirst(lists: seq<seq<Url>>)
    requires |lists| > 0
    ensures Fold(lists) == Some(InAll(Dedup(lists[0]), lists[1..]))
    decreases |lists|
  {
    var n := |lists|;
    if n == 1 {
      FilterKeepsAll(Dedup(lists[0]), InEveryOf(lists[1..]));
    } else {
      var init, last := lists[..n - 1], lists[n - 1];
      FoldIsFilteredFirst(init);
      assert init[0] == lists[0];
      assert lists[1..] == init[1..] + [last];
      InEverySnoc(init[1..], last);
      FilterFilter(Dedup(lists[0]), InEveryOf(init[1..]), MemberOf(last), InEveryOf(lists[1..]));
    }
  }

  /** Being in every list of `init + [last]` is being in every list of `init` and in `last`. */
  lemma InEverySnoc(init: seq<seq<Url>>, last: seq<Url>)
    ensures forall x :: InEveryOf(init + [last])(x) == (InEveryOf(init)(x) && MemberOf(last)(x))
  {
    var lists := init + [last];
    forall x ensures InEvery(x, lists) == (InEvery(x, init) && x in last) {
      if InEvery(x, init) && x in last {
        forall i | 0 <= i < |lists| ensures x in lists[i] {
          if i < |init| { assert lists[i] == init[i]; }
        }
      }
      if InEvery(x, lists) {
        assert lists[|init|] == last;
        forall i | 0 <= i < |init| ensures x in init[i] {
          assert init[i] == lists[i];
        }
      }
    }
  }

  /**
   * A URL is a candidate exactly when at least one facet contributes and every
   * contributing list contains it; the candidates never repeat.
   */
  lemma CandidatesSpec(lists: seq<seq<Url>>)
    ensures forall x :: x in ResultUrls(lists) <==> |lists| > 0 && InEvery(x, lists)
    ensures NoDups(ResultUrls(lists))
  {
    if |lists| > 0 {
      FoldIsFilteredFirst(lists);
      var d := Dedup(lists[0]);
      DedupSpec(lists[0]);
      FilterNoDups(d, InEveryOf(lists[1..]));
      forall x ensures x in ResultUrls(lists) <==> InEvery(x, lists) {
        if InEvery(x, lists) {
          assert x in lists[0];
          forall i | 0 <= i < |lists[1..]| ensures x in lists[1..][i] {
            assert lists[1..][i] == lists[i + 1];
          }
        }
        if x in ResultUrls(lists) {
          assert x in d && InEvery(x, lists[1..]);
          forall i | 0 <= i < |lists| ensures x in lists[i] {
            if i > 0 { assert lists[i] == lists[1..][i - 1]; }
          }
        }
      }
    }
  }

  /** With exactly one contributing facet the candidates are its list, deduplicated. */
  lemma SingleFacet(list: seq<Url>)
    ensures ResultUrls([list]) == Dedup(list)
  {
    FoldIsFilteredFirst([list]);
    FilterKeepsAll(Dedup(list), InEveryOf([]));
  }

  /** Two contributing facets with disjoint lists leave no candidate. */
  lemma DisjointFacets(a: seq<Url>, b: seq<Url>)
    requires forall x :: x in a ==> x !in b
    ensures ResultUrls([a, b]) == []
  {
    FoldIsFilteredFirst([a, b]);
    assert [a, b][1..] == [b];
    DedupSpec(a);
    forall x | x in Dedup(a) ensures !InEveryOf([b])(x) {
      assert [b][0] == b;
    }
    FilterDropsAll(Dedup(a), InEveryOf([b]));
  }

  lemma FoldSnoc(lists: seq<seq<Url>>, list: seq<Url>)
    ensures Fold(lists + [list]) == AddToCandidates(Fold(lists), list)
  {
    assert (lists + [list])[..|lists|] == lists;
  }

  /**
   * Lines 130-152 of `fetchFilterData`: `candidates` starts null and is refined
   * by each selected facet found in the cache.
   */
  method CandidateUrls(planets: map<Url, Planet>, species: map<Url, Species>, films: map<Url, Film>,
                       hwUrl: Url, spUrl: Url, filmUrl: Url) returns (resultUrls: seq<Url>)
    ensures resultUrls == ResultUrls(Contributing(planets, species, films, hwUrl, spUrl, filmUrl))
    ensures NoDups(resultUrls)
    ensures forall x :: x in resultUrls <==>
      var lists := Contributing(planets, species, films, hwUrl, spUrl, filmUrl);
      |lists| > 0 && InEvery(x, lists)
  {
    var candidates: Option<seq<Url>> := None;
    ghost var lists: seq<seq<Url>> := [];
    if hwUrl != "" && hwUrl in planets {
      FoldSnoc(lists, planets[hwUrl].residents);
      candidates := AddToCandidates(candidates, planets[hwUrl].residents);
      lists := lists + [planets[hwUrl].residents];
    }
    if spUrl != "" && spUrl in species {
      FoldSnoc(lists, species[spUrl].people);
      candidates := AddToCandidates(candidates, species[spUrl].people);
      lists := lists + [species[spUrl].people];
    }
    if filmUrl != "" && filmUrl in films {
      FoldSnoc(lists, films[filmUrl].characters);
      candidates := AddToCandidates(candidates, films[filmUrl].characters);
      lists := lists + [films[filmUrl].characters];
    }
    assert lists == Contributing(planets, species, films, hwUrl, spUrl, filmUrl);
    if candidates.None? {
      candidates := Some([]);
    }
    resultUrls := candidates.value;
    CandidatesSpec(lists);
  }
}
