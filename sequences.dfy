/** `Array.prototype.filter` on sequences, and the order-preserving sublist relation it produces. */
module Sequences {

  /** `s` is `t` with some elements deleted and the rest left in their original order. */
  ghost predicate IsSubsequence<T>(s: seq<T>, t: seq<T>) {
    if s == [] then true
    else if t == [] then false
    else (s[0] == t[0] && IsSubsequence(s[1..], t[1..])) || IsSubsequence(s, t[1..])
  }

  /** `s.filter(f)`: the elements of `s` that satisfy `f`, each as often as in `s`. */
  function Filter<T(!new)>(f: T -> bool, s: seq<T>): (r: seq<T>)
    ensures |r| <= |s|
  {
    if s == [] then []
    else if f(s[0]) then [s[0]] + Filter(f, s[1..]) else Filter(f, s[1..])
  }

  /** The filtered sequence holds each element satisfying `f` as often as `s` does, and no other. */
  lemma {:induction false} FilterCounts<T(!new)>(f: T -> bool, s: seq<T>)
    ensures forall x :: multiset(Filter(f, s))[x] == if f(x) then multiset(s)[x] else 0
    ensures forall x :: x in Filter(f, s) <==> x in s && f(x)
  {
    if s != [] {
      assert s == [s[0]] + s[1..];
      FilterCounts(f, s[1..]);
    }
  }

  /** Filtering a sequence with a known first element. */
  lemma FilterCons<T(!new)>(f: T -> bool, a: T, s: seq<T>)
    ensures Filter(f, [a] + s) == (if f(a) then [a] else []) + Filter(f, s)
  {
    assert ([a] + s)[1..] == s;
  }

  /** The filtered sequence keeps its elements in the order they had. */
  lemma {:induction false} FilterIsSubsequence<T(!new)>(f: T -> bool, s: seq<T>)
    ensures IsSubsequence(Filter(f, s), s)
  {
    if s != [] {
      FilterIsSubsequence(f, s[1..]);
      if !f(s[0]) {
        SubsequenceOfTail(Filter(f, s[1..]), s);
      }
    }
  }

  lemma SubsequenceOfTail<T>(s: seq<T>, t: seq<T>)
    requires t != [] && IsSubsequence(s, t[1..])
    ensures IsSubsequence(s, t)
  {
  }

  /** Filtering twice by the same condition is filtering once. */
  lemma {:induction false} FilterIsIdempotent<T(!new)>(f: T -> bool, s: seq<T>)
    ensures Filter(f, Filter(f, s)) == Filter(f, s)
  {
    if s != [] {
      FilterIsIdempotent(f, s[1..]);
    }
  }

  /** When every element satisfies the condition, filtering keeps the whole sequence. */
  lemma {:induction false} FilterKeepsAll<T(!new)>(f: T -> bool, s: seq<T>)
    requires forall i :: 0 <= i < |s| ==> f(s[i])
    ensures Filter(f, s) == s
  {
    if s != [] {
      FilterKeepsAll(f, s[1..]);
    }
  }
}
