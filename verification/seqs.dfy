/** Order-preserving filtering and mapping of sequences, with the facts the
    core's list comprehensions and append loops rely on. */
module Seqs {

  /** `[x for x in s if keep(x)]`, defined from the back so that it follows an
      append loop step by step. */
  function Filter<T>(keep: T -> bool, s: seq<T>): (r: seq<T>)
    ensures |r| <= |s|
    decreases |s|
  {
    if s == [] then []
    else Filter(keep, s[..|s| - 1]) + (if keep(s[|s| - 1]) then [s[|s| - 1]] else [])
  }

  /** `[f(x) for x in s]`. */
  function Map<T, U>(f: T -> U, s: seq<T>): (r: seq<U>)
    ensures |r| == |s|
  {
    seq(|s|, i requires 0 <= i < |s| => f(s[i]))
  }

  /** The concatenation of a sequence of sequences, in order. */
  function Concat<T>(ss: seq<seq<T>>): seq<T>
    decreases |ss|
  {
    if ss == [] then [] else Concat(ss[..|ss| - 1]) + ss[|ss| - 1]
  }

  /** `xs` can be obtained from `ys` by deleting elements, keeping the order. */
  predicate IsSubsequence<T(==)>(xs: seq<T>, ys: seq<T>)
    decreases |ys|
  {
    xs == [] ||
    (ys != [] &&
     ((xs[|xs| - 1] == ys[|ys| - 1] && IsSubsequence(xs[..|xs| - 1], ys[..|ys| - 1]))
      || IsSubsequence(xs, ys[..|ys| - 1])))
  }

  lemma {:induction false} FilterAppend<T>(keep: T -> bool, s: seq<T>, x: T)
    ensures Filter(keep, s + [x]) == Filter(keep, s) + (if keep(x) then [x] else [])
  {
    assert (s + [x])[..|s|] == s;
  }

  lemma {:induction false} FilterIsSubsequence<T>(keep: T -> bool, s: seq<T>)
    ensures IsSubsequence(Filter(keep, s), s)
    decreases |s|
  {
    if s != [] {
      FilterIsSubsequence(keep, s[..|s| - 1]);
      var r := Filter(keep, s);
      if keep(s[|s| - 1]) {
        assert r == Filter(keep, s[..|s| - 1]) + [s[|s| - 1]];
        assert r[..|r| - 1] == Filter(keep, s[..|s| - 1]);
        assert r[|r| - 1] == s[|s| - 1];
      } else {
        assert r == Filter(keep, s[..|s| - 1]);
      }
    }
  }

  lemma {:induction false} FilterMembership<T>(keep: T -> bool, s: seq<T>, x: T)
    ensures x in Filter(keep, s) <==> x in s && keep(x)
    decreases |s|
  {
    if s != [] {
      FilterMembership(keep, s[..|s| - 1], x);
      assert s == s[..|s| - 1] + [s[|s| - 1]];
    }
  }

  lemma {:induction false} FilterKeepsAll<T>(keep: T -> bool, s: seq<T>)
    requires forall i | 0 <= i < |s| :: keep(s[i])
    ensures Filter(keep, s) == s
    decreases |s|
  {
    if s != [] {
      FilterKeepsAll(keep, s[..|s| - 1]);
    }
  }

  /** Filtering by a stronger test is filtering what a weaker test kept. */
  lemma {:induction false} FilterNarrows<T>(strong: T -> bool, weak: T -> bool, s: seq<T>)
    requires forall x :: strong(x) ==> weak(x)
    ensures Filter(strong, Filter(weak, s)) == Filter(strong, s)
    ensures |Filter(strong, s)| <= |Filter(weak, s)|
    decreases |s|
  {
    if s != [] {
      var init, x := s[..|s| - 1], s[|s| - 1];
      FilterNarrows(strong, weak, init);
      if weak(x) {
        assert Filter(weak, s) == Filter(weak, init) + [x];
        FilterAppend(strong, Filter(weak, init), x);
      } else {
        assert Filter(weak, s) == Filter(weak, init);
      }
    }
  }

  lemma {:induction false} ConcatAppend<T>(ss: seq<seq<T>>, t: seq<T>)
    ensures Concat(ss + [t]) == Concat(ss) + t
  {
    assert (ss + [t])[..|ss|] == ss;
  }

  lemma MapAppend<T, U>(f: T -> U, s: seq<T>, t: seq<T>)
    ensures Map(f, s + t) == Map(f, s) + Map(f, t)
  {
  }
}
