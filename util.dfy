/** Generic list helpers shared by the engine models: an optional value, the
    order-preserving `filter` of JavaScript arrays, and the bounded FIFO that
    both canvas engines use for the player trail. */
module Util {

  datatype Option<T> = None | Some(value: T)

  /** A present value as a one-element sequence, an absent one as empty. */
  function OptionToSeq<T>(o: Option<T>): seq<T>
  {
    if o.Some? then [o.value] else []
  }

  function RealMin(a: real, b: real): (r: real) { if a <= b then a else b }

  function RealMax(a: real, b: real): (r: real) { if a >= b then a else b }

  /** JavaScript's `Array.prototype.filter`: keeps, in order, the elements for
      which `keep` holds. */
  function Filter<T>(s: seq<T>, keep: T -> bool): (r: seq<T>)
    ensures |r| <= |s|
  {
    if s == [] then []
    else
      var rest := Filter(s[1..], keep);
      if keep(s[0]) then [s[0]] + rest else rest
  }

  /** The filter keeps exactly the elements that pass the test. */
  lemma {:induction false} FilterMembers<T>(s: seq<T>, keep: T -> bool)
    ensures forall x :: x in Filter(s, keep) ==> x in s && keep(x)
    ensures forall i :: 0 <= i < |s| && keep(s[i]) ==> s[i] in Filter(s, keep)
  {
    if s != [] {
      FilterMembers(s[1..], keep);
      assert forall i :: 1 <= i < |s| ==> s[i] == s[1..][i - 1];
    }
  }

  /** `r` can be obtained from `s` by deleting elements: relative order is kept. */
  ghost predicate IsSubsequence<T>(r: seq<T>, s: seq<T>)
  {
    if r == [] then true
    else if s == [] then false
    else (r[0] == s[0] && IsSubsequence(r[1..], s[1..])) || IsSubsequence(r, s[1..])
  }

  /** The survivors of a filter keep their relative order. */
  lemma {:induction false} FilterIsSubsequence<T>(s: seq<T>, keep: T -> bool)
    ensures IsSubsequence(Filter(s, keep), s)
  {
    if s != [] {
      FilterIsSubsequence(s[1..], keep);
      var r := Filter(s, keep);
      if keep(s[0]) {
        assert r[0] == s[0] && r[1..] == Filter(s[1..], keep);
      } else {
        assert r == Filter(s[1..], keep);
      }
    }
  }

  /** A filter that rejects nothing returns its input unchanged. */
  lemma {:induction false} FilterKeepsEverything<T>(s: seq<T>, keep: T -> bool)
    requires forall i :: 0 <= i < |s| ==> keep(s[i])
    ensures Filter(s, keep) == s
  {
    if s != [] {
      assert keep(s[0]);
      FilterKeepsEverything(s[1..], keep);
      assert [s[0]] + s[1..] == s;
    }
  }

  /** Filtering a sequence whose first element is rejected equals filtering its tail. */
  lemma FilterDropsHead<T>(s: seq<T>, keep: T -> bool)
    requires s != [] && !keep(s[0])
    ensures Filter(s, keep) == Filter(s[1..], keep)
  {
  }

  /** Filtering a sequence that starts with `x`. */
  lemma FilterCons<T>(x: T, s: seq<T>, keep: T -> bool)
    ensures Filter([x] + s, keep) == (if keep(x) then [x] else []) + Filter(s, keep)
  {
    assert ([x] + s)[1..] == s;
  }

  /** Filtering distributes over concatenation. */
  lemma {:induction false} FilterAppend<T>(a: seq<T>, b: seq<T>, keep: T -> bool)
    ensures Filter(a + b, keep) == Filter(a, keep) + Filter(b, keep)
  {
    if a == [] {
      assert a + b == b;
    } else {
      assert (a + b)[0] == a[0];
      assert (a + b)[1..] == a[1..] + b;
      FilterAppend(a[1..], b, keep);
    }
  }

  /** The bounded trail queue of both canvas engines: push `x` as the newest
      entry, then, if the length exceeds `bound`, drop the oldest entry once
      (push followed by a single shift). */
  function PushBounded<T>(q: seq<T>, x: T, bound: int): (r: seq<T>)
    ensures |q| < bound ==> r == q + [x]
    ensures |q| >= bound && q != [] ==> r == q[1..] + [x]
    ensures q == [] && bound < 1 ==> r == []
  {
    var pushed := q + [x];
    if |pushed| > bound then pushed[1..] else pushed
  }

  /** Only one entry is ever shifted out, so the queue never becomes shorter,
      and it never grows past the larger of its old length and the bound. */
  lemma PushBoundedLength<T>(q: seq<T>, x: T, bound: int)
    ensures |PushBounded(q, x, bound)| >= |q|
    ensures |q| <= bound ==> |PushBounded(q, x, bound)| <= bound
    ensures |q| > bound ==> |PushBounded(q, x, bound)| == |q|
  {
  }

  /** `n` successive pushes with the same bound. */
  function PushAll<T>(q: seq<T>, xs: seq<T>, bound: int): seq<T>
    decreases |xs|
  {
    if xs == [] then q else PushAll(PushBounded(q, xs[0], bound), xs[1..], bound)
  }

  /** Pushing repeatedly under a fixed bound grows the queue one entry per push
      until it reaches the bound, then holds it there. */
  lemma {:induction false} PushAllFillsToBound<T>(q: seq<T>, xs: seq<T>, bound: int)
    requires |q| <= bound
    ensures |PushAll(q, xs, bound)| == if |q| + |xs| <= bound then |q| + |xs| else bound
    decreases |xs|
  {
    if xs != [] {
      PushAllFillsToBound(PushBounded(q, xs[0], bound), xs[1..], bound);
    }
  }
}
