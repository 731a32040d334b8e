/**
 * The string operations the data layer relies on: ASCII lower-casing
 * (`toLowerCase`), substring search (`indexOf` / `includes`), first-occurrence
 * replacement (`String.prototype.replace` with a string pattern) and the
 * decimal rendering of a page number inside a URL template.
 */
module Text {

  /** Lower-cases one character; only the ASCII letters A-Z are folded. */
  function LowerChar(c: char): char {
    if 'A' <= c <= 'Z' then (c as int - 'A' as int + 'a' as int) as char else c
  }

  function Lower(s: string): (r: string)
    ensures |r| == |s|
    ensures forall i :: 0 <= i < |s| ==> r[i] == LowerChar(s[i])
  {
    if s == [] then [] else [LowerChar(s[0])] + Lower(s[1..])
  }

  /** `p` occurs in `s` starting at index `i`. */
  predicate OccursAt(s: string, p: string, i: int) {
    0 <= i && i + |p| <= |s| && s[i..i + |p|] == p
  }

  /** JavaScript `s.indexOf(p)`: the first index at which `p` occurs, or -1. */
  function IndexOf(s: string, p: string): int
    decreases |s|
  {
    if |s| < |p| then -1
    else if s[..|p|] == p then 0
    else
      var k := IndexOf(s[1..], p);
      if k < 0 then -1 else k + 1
  }

  /** JavaScript `s.includes(p)`, which holds exactly when `indexOf` finds `p`. */
  predicate Includes(s: string, p: string) {
    IndexOf(s, p) >= 0
  }

  lemma {:induction false} OccursAtShift(s: string, p: string, i: int)
    requires |s| > 0 && i >= 0
    ensures OccursAt(s[1..], p, i) <==> OccursAt(s, p, i + 1)
  {
    if 0 <= i && i + |p| <= |s| - 1 {
      assert s[1..][i..i + |p|] == s[i + 1..i + 1 + |p|];
    }
  }

  /**
   * `IndexOf` returns -1 exactly when `p` does not occur in `s`, and otherwise
   * the position of the first occurrence.
   */
  lemma {:induction false} IndexOfSpec(s: string, p: string)
    ensures IndexOf(s, p) == -1 <==> forall i :: !OccursAt(s, p, i)
    ensures IndexOf(s, p) >= 0 ==> OccursAt(s, p, IndexOf(s, p))
    ensures forall j :: 0 <= j < IndexOf(s, p) ==> !OccursAt(s, p, j)
    decreases |s|
  {
    if |s| < |p| {
    } else if s[..|p|] == p {
      assert OccursAt(s, p, 0);
    } else {
      IndexOfSpec(s[1..], p);
      var k := IndexOf(s[1..], p);
      assert !OccursAt(s, p, 0);
      forall i ensures OccursAt(s, p, i) <==> (i >= 1 && OccursAt(s[1..], p, i - 1)) {
        if i >= 1 { OccursAtShift(s, p, i - 1); }
      }
      if k < 0 {
        forall i ensures !OccursAt(s, p, i) {
          if i >= 1 { assert !OccursAt(s[1..], p, i - 1); }
        }
      } else {
        OccursAtShift(s, p, k);
      }
    }
  }

  /** Every string includes the empty string (so an empty filter keeps everything). */
  lemma IncludesEmpty(s: string)
    ensures Includes(s, "")
  {
    assert s[..0] == "";
  }

  /** JavaScript `s.replace(pat, rep)` with a string pattern: only the first occurrence is replaced. */
  function ReplaceFirst(s: string, pat: string, rep: string): string
    decreases |s|
  {
    if |s| < |pat| then s
    else if s[..|pat|] == pat then rep + s[|pat|..]
    else [s[0]] + ReplaceFirst(s[1..], pat, rep)
  }

  /**
   * Replacing splices `rep` in at the first occurrence found by `IndexOf` and
   * keeps every other character; without an occurrence the string is unchanged.
   */
  lemma {:induction false} ReplaceFirstSpec(s: string, pat: string, rep: string)
    ensures IndexOf(s, pat) < 0 ==> ReplaceFirst(s, pat, rep) == s
    ensures IndexOf(s, pat) >= 0 ==>
      var i := IndexOf(s, pat);
      i + |pat| <= |s| &&
      ReplaceFirst(s, pat, rep) == s[..i] + rep + s[i + |pat|..]
    decreases |s|
  {
    if |s| < |pat| {
    } else if s[..|pat|] == pat {
    } else {
      var t := s[1..];
      ReplaceFirstSpec(t, pat, rep);
      var k := IndexOf(t, pat);
      if k >= 0 {
        assert IndexOf(s, pat) == k + 1;
        assert t[..k] == s[1..k + 1];
        assert t[k + |pat|..] == s[k + 1 + |pat|..];
        assert [s[0]] + s[1..k + 1] == s[..k + 1];
        calc {
          ReplaceFirst(s, pat, rep);
          [s[0]] + ReplaceFirst(t, pat, rep);
          [s[0]] + (t[..k] + rep + t[k + |pat|..]);
          ([s[0]] + t[..k]) + rep + t[k + |pat|..];
          s[..k + 1] + rep + s[k + 1 + |pat|..];
        }
      }
    }
  }

  /** Decimal digits of a natural number, as a template literal renders it. */
  function Decimal(n: nat): (r: string)
    ensures |r| > 0
    ensures forall i :: 0 <= i < |r| ==> '0' <= r[i] <= '9'
  {
    if n < 10 then [(n + '0' as int) as char]
    else Decimal(n / 10) + [(n % 10 + '0' as int) as char]
  }

  /** Distinct numbers have distinct decimal renderings. */
  lemma {:induction false} DecimalInjective(a: nat, b: nat)
    requires Decimal(a) == Decimal(b)
    ensures a == b
  {
    if a >= 10 && b >= 10 {
      var da, db := Decimal(a), Decimal(b);
      assert da[..|da| - 1] == Decimal(a / 10);
      assert db[..|db| - 1] == Decimal(b / 10);
      DecimalInjective(a / 10, b / 10);
      assert da[|da| - 1] == db[|db| - 1];
    }
  }

  /** JavaScript's `${n}` for any integer: a minus sign precedes negative values. */
  function IntToString(n: int): string {
    if n < 0 then "-" + Decimal(-n) else Decimal(n)
  }

  /** A rendering starts with a minus sign exactly when the number is negative. */
  lemma IntToStringSign(n: int)
    ensures |IntToString(n)| > 0
    ensures IntToString(n)[0] == '-' <==> n < 0
  {
    if n >= 0 {
      assert '0' <= Decimal(n)[0] <= '9';
    }
  }

  /** The rendering determines the number: no two integers print alike. */
  lemma IntToStringInjective(a: int, b: int)
    requires IntToString(a) == IntToString(b)
    ensures a == b
  {
    IntToStringSign(a);
    IntToStringSign(b);
    if a < 0 {
      assert Decimal(-a) == IntToString(a)[1..];
      assert Decimal(-b) == IntToString(b)[1..];
      DecimalInjective(-a, -b);
    } else {
      DecimalInjective(a, b);
    }
  }

}
