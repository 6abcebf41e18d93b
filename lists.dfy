/**
 * The array operations the data hooks apply to their cached lists:
 * `xs.filter(p)` and `xs.map(e => p(e) ? x : e)`, each characterised
 * independently of how it is computed.
 */
module Lists {

  /** `a` is `b` with some elements left out, the rest in their original order. */
  ghost predicate IsSubsequence<T>(a: seq<T>, b: seq<T>) {
    if a == [] then true
    else if b == [] then false
    else (a[|a| - 1] == b[|b| - 1] && IsSubsequence(a[..|a| - 1], b[..|b| - 1]))
         || IsSubsequence(a, b[..|b| - 1])
  }

  /**
   * `xs.filter(keep)`: every kept element satisfies `keep`, each element that
   * satisfies it is kept exactly as often as it occurs in `xs`, and the kept
   * elements keep their relative order.
   */
  function Filter<T(!new)>(xs: seq<T>, keep: T -> bool): (r: seq<T>)
    ensures |r| <= |xs|
    ensures forall i :: 0 <= i < |r| ==> keep(r[i])
    ensures forall x :: multiset(r)[x] == if keep(x) then multiset(xs)[x] else 0
    ensures IsSubsequence(r, xs)
  {
    if xs == [] then []
    else
      var init := xs[..|xs| - 1];
      var last := xs[|xs| - 1];
      assert xs == init + [last];
      var rest := Filter(init, keep);
      if keep(last) then
        var r := rest + [last];
        assert r[..|r| - 1] == rest && xs[..|xs| - 1] == init;
        r
      else
        assert xs[..|xs| - 1] == init;
        assert IsSubsequence(rest, xs);
        rest
  }

  /**
   * `xs.map(e => matches(e) ? x : e)`: same length and order, every matching
   * element replaced by `x`, every other element untouched.
   */
  function ReplaceWhere<T>(xs: seq<T>, matches: T -> bool, x: T): (r: seq<T>)
    ensures |r| == |xs|
    ensures forall i :: 0 <= i < |xs| ==> r[i] == if matches(xs[i]) then x else xs[i]
  {
    if xs == [] then []
    else [if matches(xs[0]) then x else xs[0]] + ReplaceWhere(xs[1..], matches, x)
  }

  /** When nothing matches, the mapped list is the list itself. */
  lemma ReplaceNothing<T>(xs: seq<T>, matches: T -> bool, x: T)
    requires forall i :: 0 <= i < |xs| ==> !matches(xs[i])
    ensures ReplaceWhere(xs, matches, x) == xs
  {
  }

  /** After a replacement, the replacing value is in the list if something matched. */
  lemma ReplacePresent<T>(xs: seq<T>, matches: T -> bool, x: T, i: nat)
    requires i < |xs| && matches(xs[i])
    ensures x in ReplaceWhere(xs, matches, x)
  {
    assert ReplaceWhere(xs, matches, x)[i] == x;
  }

  /** A subsequence with the same elements, counted with multiplicity, is the sequence itself. */
  lemma {:induction false} SubsequenceSameMultiset<T>(a: seq<T>, b: seq<T>)
    requires IsSubsequence(a, b) && multiset(a) == multiset(b)
    ensures a == b
    decreases |b|
  {
    assert |a| == |multiset(a)| == |multiset(b)| == |b|;
    if a != [] {
      if a[|a| - 1] == b[|b| - 1] && IsSubsequence(a[..|a| - 1], b[..|b| - 1]) {
        assert a == a[..|a| - 1] + [a[|a| - 1]];
        assert b == b[..|b| - 1] + [b[|b| - 1]];
        assert multiset(a[..|a| - 1]) == multiset(a) - multiset{a[|a| - 1]};
        assert multiset(b[..|b| - 1]) == multiset(b) - multiset{b[|b| - 1]};
        SubsequenceSameMultiset(a[..|a| - 1], b[..|b| - 1]);
      } else {
        // a cannot fit into the one-shorter prefix of b
        SubsequenceShorter(a, b[..|b| - 1]);
      }
    }
  }

  lemma {:induction false} SubsequenceShorter<T>(a: seq<T>, b: seq<T>)
    requires IsSubsequence(a, b)
    ensures |a| <= |b|
    decreases |b|
  {
    if a != [] && b != [] {
      if a[|a| - 1] == b[|b| - 1] && IsSubsequence(a[..|a| - 1], b[..|b| - 1]) {
        SubsequenceShorter(a[..|a| - 1], b[..|b| - 1]);
      } else {
        SubsequenceShorter(a, b[..|b| - 1]);
      }
    }
  }
}
