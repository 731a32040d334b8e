/**
 * Sequence operations with JavaScript array semantics: `filter`, the
 * insertion-ordered deduplication performed by `[...new Set(xs)]`, and
 * `slice` with its clamping of out-of-range and negative bounds.
 */
module Seqs {

  ghost predicate NoDups<T>(s: seq<T>) {
    forall i, j :: 0 <= i < j < |s| ==> s[i] != s[j]
  }

  /** `xs.filter(f)`: the elements satisfying `f`, in their original order. */
  function Filter<T(!new)>(s: seq<T>, f: T -> bool): (r: seq<T>)
    ensures |r| <= |s|
    ensures forall x :: x in r <==> x in s && f(x)
  {
    if s == [] then []
    else (if f(s[0]) then [s[0]] else []) + Filter(s[1..], f)
  }

  /** Filtering distributes over concatenation, so it never reorders elements. */
  lemma {:induction false} FilterAppend<T(!new)>(a: seq<T>, b: seq<T>, f: T -> bool)
    ensures Filter(a + b, f) == Filter(a, f) + Filter(b, f)
  {
    if a == [] {
      assert a + b == b;
    } else {
      assert (a + b)[1..] == a[1..] + b;
      FilterAppend(a[1..], b, f);
    }
  }

  /** A filter that rejects nothing returns its input unchanged. */
  lemma {:induction false} FilterKeepsAll<T(!new)>(s: seq<T>, f: T -> bool)
    requires forall x :: x in s ==> f(x)
    ensures Filter(s, f) == s
  {
    if s != [] {
      FilterKeepsAll(s[1..], f);
    }
  }

  /** A filter that accepts nothing returns the empty sequence. */
  lemma {:induction false} FilterDropsAll<T(!new)>(s: seq<T>, f: T -> bool)
    requires forall x :: x in s ==> !f(x)
    ensures Filter(s, f) == []
  {
    if s != [] {
      FilterDropsAll(s[1..], f);
    }
  }

  /** Two successive filters are one filter by the conjunction of their tests. */
  lemma {:induction false} FilterFilter<T(!new)>(s: seq<T>, f: T -> bool, g: T -> bool, h: T -> bool)
    requires forall x :: h(x) == (f(x) && g(x))
    ensures Filter(Filter(s, f), g) == Filter(s, h)
  {
    if s != [] {
      FilterFilter(s[1..], f, g, h);
      var t := Filter(s[1..], f);
      assert Filter(s, h) == (if h(s[0]) then [s[0]] else []) + Filter(s[1..], h);
      if f(s[0]) {
        var u := [s[0]] + t;
        assert Filter(s, f) == u;
        assert u[0] == s[0] && u[1..] == t;
        assert Filter(u, g) == (if g(s[0]) then [s[0]] else []) + Filter(t, g);
      } else {
        assert Filter(s, f) == t;
      }
    }
  }

  /** Filtering a sequence without duplicates leaves none. */
  lemma {:induction false} FilterNoDups<T(!new)>(s: seq<T>, f: T -> bool)
    requires NoDups(s)
    ensures NoDups(Filter(s, f))
  {
    if s != [] {
      FilterNoDups(s[1..], f);
      var rest := Filter(s[1..], f);
      assert s[0] !in s[1..];
      assert s[0] !in rest;
    }
  }

  /**
   * `[...new Set(xs)]`: each element once, at the position of its first
   * occurrence (a Set iterates in insertion order and ignores re-insertion).
   */
  function Dedup<T(==)>(s: seq<T>): seq<T> {
    if s == [] then []
    else
      var d := Dedup(s[..|s| - 1]);
      var x := s[|s| - 1];
      if x in d then d else d + [x]
  }

  /** Deduplication keeps exactly the elements of its input, each once. */
  lemma {:induction false} DedupSpec<T>(s: seq<T>)
    ensures forall x :: x in Dedup(s) <==> x in s
    ensures NoDups(Dedup(s))
    ensures |Dedup(s)| <= |s|
  {
    if s != [] {
      var init := s[..|s| - 1];
      DedupSpec(init);
      assert s == init + [s[|s| - 1]];
    }
  }

  /** A sequence without duplicates is its own deduplication. */
  lemma {:induction false} DedupOfNoDups<T>(s: seq<T>)
    requires NoDups(s)
    ensures Dedup(s) == s
  {
    if s != [] {
      var init := s[..|s| - 1];
      assert NoDups(init);
      DedupOfNoDups(init);
      DedupSpec(init);
      assert s[|s| - 1] !in init;
      assert init + [s[|s| - 1]] == s;
    }
  }

  /** The index of the first occurrence of `x` in `s`. */
  function FirstIndex<T(==)>(s: seq<T>, x: T): (k: nat)
    requires x in s
    ensures k < |s| && s[k] == x && x !in s[..k]
  {
    var init := s[..|s| - 1];
    if x in init then
      var k := FirstIndex(init, x);
      assert s[..k] == init[..k];
      k
    else |s| - 1
  }

  /**
   * Deduplication lists the distinct elements in the order of their first
   * occurrences, the insertion order of a `Set`.
   */
  lemma {:induction false} DedupOrder<T>(s: seq<T>)
    ensures forall x :: x in Dedup(s) ==> x in s
    ensures forall i, j :: 0 <= i < j < |Dedup(s)| ==>
      FirstIndex(s, Dedup(s)[i]) < FirstIndex(s, Dedup(s)[j])
  {
    DedupSpec(s);
    if s != [] {
      var init := s[..|s| - 1];
      var d := Dedup(init);
      var x := s[|s| - 1];
      DedupOrder(init);
      DedupSpec(init);
      forall y | y in init ensures FirstIndex(s, y) == FirstIndex(init, y) {
      }
      forall i, j | 0 <= i < j < |Dedup(s)|
        ensures FirstIndex(s, Dedup(s)[i]) < FirstIndex(s, Dedup(s)[j])
      {
        if j < |d| {
          assert Dedup(s)[i] == d[i] && Dedup(s)[j] == d[j];
        } else {
          assert x !in d && Dedup(s) == d + [x] && Dedup(s)[j] == x;
          assert x !in init;
          assert Dedup(s)[i] == d[i] && d[i] in init;
        }
      }
    }
  }

  /** The index `slice` uses for a bound `k` on an array of length `n`. */
  function SliceBound(k: int, n: nat): (b: nat)
    ensures b <= n
  {
    if k < 0 then (if n + k < 0 then 0 else n + k)
    else if k > n then n else k
  }

  /** `xs.slice(start, end)`: negative bounds count from the end, all bounds are clamped. */
  function Slice<T(!new)>(s: seq<T>, start: int, end: int): (r: seq<T>)
    ensures |r| <= |s|
    ensures forall x :: x in r ==> x in s
    ensures |r| == if SliceBound(end, |s|) <= SliceBound(start, |s|) then 0
                   else SliceBound(end, |s|) - SliceBound(start, |s|)
    ensures forall i :: 0 <= i < |r| ==> r[i] == s[SliceBound(start, |s|) + i]
  {
    var lo, hi := SliceBound(start, |s|), SliceBound(end, |s|);
    if hi <= lo then [] else s[lo..hi]
  }
}
