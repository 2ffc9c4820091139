/** The list shapes the pipelines share: keep the results of a partial
    conversion (a loop that pushes only when a value was produced), and keep
    the elements satisfying a test (`Array.prototype.filter`). */
module Lists {
  import opened Wrappers

  function AsSeq<T>(o: Option<T>): seq<T> {
    if o.Some? then [o.value] else []
  }

  /** The produced values of `f` over `s`, in the order of `s`. */
  function FilterMap<A, B>(f: A -> Option<B>, s: seq<A>): seq<B> {
    if s == [] then []
    else FilterMap(f, s[..|s| - 1]) + AsSeq(f(s[|s| - 1]))
  }

  /** A single element yields its own value, if any. */
  lemma FilterMapSingleton<A, B>(f: A -> Option<B>, x: A)
    ensures FilterMap(f, [x]) == AsSeq(f(x))
  {
    assert [x][..0] == [];
  }

  /** Each element yields at most one value. */
  lemma {:induction false} FilterMapLength<A, B>(f: A -> Option<B>, s: seq<A>)
    ensures |FilterMap(f, s)| <= |s|
    ensures (forall i :: 0 <= i < |s| ==> f(s[i]).Some?) ==> |FilterMap(f, s)| == |s|
  {
    if s != [] {
      FilterMapLength(f, s[..|s| - 1]);
    }
  }

  /** The conversion of one element does not depend on the others. */
  lemma {:induction false} FilterMapAppend<A, B>(f: A -> Option<B>, a: seq<A>, b: seq<A>)
    ensures FilterMap(f, a + b) == FilterMap(f, a) + FilterMap(f, b)
    decreases |b|
  {
    if b == [] {
      assert a + b == a;
    } else {
      var b' := b[..|b| - 1];
      assert (a + b)[..|a + b| - 1] == a + b';
      FilterMapAppend(f, a, b');
    }
  }

  /** A value is produced exactly when some element converts to it. */
  lemma {:induction false} FilterMapMembership<A, B>(f: A -> Option<B>, s: seq<A>, y: B)
    ensures y in FilterMap(f, s) <==> exists i :: 0 <= i < |s| && f(s[i]) == Some(y)
  {
    if s != [] {
      var init := s[..|s| - 1];
      FilterMapMembership(f, init, y);
      if y in FilterMap(f, init) {
        var i :| 0 <= i < |init| && f(init[i]) == Some(y);
        assert s[i] == init[i];
      }
      if exists i :: 0 <= i < |s| && f(s[i]) == Some(y) {
        var i :| 0 <= i < |s| && f(s[i]) == Some(y);
        if i < |init| {
          assert init[i] == s[i];
        }
      }
    }
  }

  /** `s.filter(p)` */
  function Filter<T>(p: T -> bool, s: seq<T>): seq<T> {
    if s == [] then []
    else Filter(p, s[..|s| - 1]) + (if p(s[|s| - 1]) then [s[|s| - 1]] else [])
  }

  /** The kept elements are exactly those of `s` passing the test. */
  lemma {:induction false} FilterMembership<T>(p: T -> bool, s: seq<T>, x: T)
    ensures x in Filter(p, s) <==> x in s && p(x)
  {
    if s != [] {
      var init := s[..|s| - 1];
      FilterMembership(p, init, x);
      assert s == init + [s[|s| - 1]];
    }
  }

  /** Filtering keeps at most all elements. */
  lemma {:induction false} FilterLength<T>(p: T -> bool, s: seq<T>)
    ensures |Filter(p, s)| <= |s|
  {
    if s != [] {
      FilterLength(p, s[..|s| - 1]);
    }
  }

  /** Filtering keeps everything when every element passes. */
  lemma {:induction false} FilterAll<T>(p: T -> bool, s: seq<T>)
    requires forall i :: 0 <= i < |s| ==> p(s[i])
    ensures Filter(p, s) == s
  {
    if s != [] {
      var init := s[..|s| - 1];
      forall i | 0 <= i < |init| ensures p(init[i]) {
        assert init[i] == s[i];
      }
      FilterAll(p, init);
      assert s == init + [s[|s| - 1]];
    }
  }

  /** What one test keeps and what its negation keeps add up to the whole. */
  lemma {:induction false} FilterSplit<T>(p: T -> bool, q: T -> bool, s: seq<T>)
    requires forall x :: q(x) == !p(x)
    ensures |Filter(p, s)| + |Filter(q, s)| == |s|
  {
    if s != [] {
      FilterSplit(p, q, s[..|s| - 1]);
    }
  }

  /** Filtering twice is filtering once by both tests. */
  lemma {:induction false} FilterFilter<T>(p: T -> bool, q: T -> bool, pq: T -> bool, s: seq<T>)
    requires forall x :: pq(x) == (p(x) && q(x))
    ensures Filter(q, Filter(p, s)) == Filter(pq, s)
  {
    if s != [] {
      var init := s[..|s| - 1];
      var last := s[|s| - 1];
      FilterFilter(p, q, pq, init);
      if p(last) {
        var fp := Filter(p, init) + [last];
        assert fp[..|fp| - 1] == Filter(p, init);
      } else {
        assert Filter(p, s) == Filter(p, init);
      }
    }
  }

  /** Two tests that agree everywhere keep the same elements. */
  lemma {:induction false} FilterCongruent<T>(p: T -> bool, q: T -> bool, s: seq<T>)
    requires forall x :: p(x) == q(x)
    ensures Filter(p, s) == Filter(q, s)
  {
    if s != [] {
      FilterCongruent(p, q, s[..|s| - 1]);
    }
  }

  /** `idx` picks the elements of `a` out of `b`, at strictly increasing positions. */
  ghost predicate IsEmbedding<T>(idx: seq<nat>, a: seq<T>, b: seq<T>) {
    && |idx| == |a|
    && (forall k :: 0 <= k < |idx| ==> idx[k] < |b| && a[k] == b[idx[k]])
    && (forall k, l :: 0 <= k < l < |idx| ==> idx[k] < idx[l])
  }

  /** `a` is `b` with some elements left out, the rest in their order. */
  ghost predicate IsSubsequence<T>(a: seq<T>, b: seq<T>) {
    exists idx :: IsEmbedding(idx, a, b)
  }

  /** The positions `s.filter(p)` keeps. */
  function FilterIndices<T>(p: T -> bool, s: seq<T>): (idx: seq<nat>)
    ensures forall k :: 0 <= k < |idx| ==> idx[k] < |s|
  {
    if s == [] then []
    else FilterIndices(p, s[..|s| - 1]) + (if p(s[|s| - 1]) then [|s| - 1] else [])
  }

  /** Filtering keeps the order of the elements it keeps. */
  lemma {:induction false} FilterIsSubsequence<T>(p: T -> bool, s: seq<T>)
    ensures IsEmbedding(FilterIndices(p, s), Filter(p, s), s)
    ensures IsSubsequence(Filter(p, s), s)
  {
    if s != [] {
      var init := s[..|s| - 1];
      FilterIsSubsequence(p, init);
      var idx, a := FilterIndices(p, s), Filter(p, s);
      var idx0, a0 := FilterIndices(p, init), Filter(p, init);
      forall k | 0 <= k < |idx0| ensures idx[k] == idx0[k] < |init| && a[k] == a0[k] == s[idx[k]] {
        assert init[idx0[k]] == s[idx0[k]];
      }
      if p(s[|s| - 1]) {
        assert idx == idx0 + [|s| - 1] && a == a0 + [s[|s| - 1]];
        forall k, l | 0 <= k < l < |idx| ensures idx[k] < idx[l] {
          if l < |idx0| {
            assert idx[k] == idx0[k] && idx[l] == idx0[l];
          }
        }
      } else {
        assert idx == idx0 && a == a0;
      }
      assert IsEmbedding(idx, a, s);
    }
  }
}
