/**
 * The iterator combinators the source uses on vectors and arrays:
 * `filter_map`, `filter`, `map`, `reverse`, `some`, and what they keep.
 */
module Seqs {
  import opened Base

  /** Rust `Iterator::filter_map(..).collect()`; built from the back, as a loop pushes. */
  function FilterMap<A, B>(xs: seq<A>, f: A -> Option<B>): (r: seq<B>)
    ensures |r| <= |xs|
    decreases |xs|
  {
    if xs == [] then []
    else FilterMap(xs[..|xs| - 1], f) + OptList(f(xs[|xs| - 1]))
  }

  /** One more input element contributes its own image, at the end. */
  lemma FilterMapSnoc<A, B>(xs: seq<A>, x: A, f: A -> Option<B>)
    ensures FilterMap(xs + [x], f) == FilterMap(xs, f) + OptList(f(x))
  {
    assert (xs + [x])[..|xs|] == xs;
  }

  /** A loop over `xs` that has handled the first `i` elements handles one more. */
  lemma FilterMapStep<A, B>(xs: seq<A>, i: nat, f: A -> Option<B>)
    requires i < |xs|
    ensures FilterMap(xs[..i + 1], f) == FilterMap(xs[..i], f) + OptList(f(xs[i]))
  {
    assert xs[..i + 1] == xs[..i] + [xs[i]];
    FilterMapSnoc(xs[..i], xs[i], f);
  }

  /** The positions of `xs` that `filter_map` keeps, one per output. */
  function KeptIndices<A, B>(xs: seq<A>, f: A -> Option<B>): (idx: seq<nat>)
    ensures |idx| == |FilterMap(xs, f)|
    ensures forall k :: 0 <= k < |idx| ==> idx[k] < |xs|
    decreases |xs|
  {
    if xs == [] then []
    else
      var pre := KeptIndices(xs[..|xs| - 1], f);
      if f(xs[|xs| - 1]).Some? then pre + [|xs| - 1] else pre
  }

  /**
   * The `k`-th output of `filter_map` is the image of the `k`-th kept position,
   * positions increase, and a position is kept exactly when `f` maps it to a value.
   */
  lemma KeptIndicesSpec<A, B>(xs: seq<A>, f: A -> Option<B>)
    ensures var idx := KeptIndices(xs, f);
      && (forall k :: 0 <= k < |idx| ==> f(xs[idx[k]]) == Some(FilterMap(xs, f)[k]))
      && (forall k, l :: 0 <= k < l < |idx| ==> idx[k] < idx[l])
      && (forall j :: 0 <= j < |xs| ==> (f(xs[j]).Some? <==> j in idx))
  {
    KeptIndicesImages(xs, f);
    KeptIndicesIncrease(xs, f);
    KeptIndicesMembers(xs, f);
  }

  lemma {:induction false} KeptIndicesImages<A, B>(xs: seq<A>, f: A -> Option<B>)
    ensures var idx := KeptIndices(xs, f);
      forall k :: 0 <= k < |idx| ==> f(xs[idx[k]]) == Some(FilterMap(xs, f)[k])
    decreases |xs|
  {
    if xs != [] {
      var n := |xs| - 1;
      var init := xs[..n];
      var pre := KeptIndices(init, f);
      KeptIndicesImages(init, f);
      var idx := KeptIndices(xs, f);
      assert FilterMap(xs, f) == FilterMap(init, f) + OptList(f(xs[n]));
      forall k | 0 <= k < |idx| ensures f(xs[idx[k]]) == Some(FilterMap(xs, f)[k]) {
        if k < |pre| {
          assert idx[k] == pre[k];
          assert init[pre[k]] == xs[pre[k]];
        }
      }
    }
  }

  lemma {:induction false} KeptIndicesIncrease<A, B>(xs: seq<A>, f: A -> Option<B>)
    ensures forall k, l :: 0 <= k < l < |KeptIndices(xs, f)| ==> KeptIndices(xs, f)[k] < KeptIndices(xs, f)[l]
    decreases |xs|
  {
    if xs != [] {
      var n := |xs| - 1;
      var pre := KeptIndices(xs[..n], f);
      KeptIndicesIncrease(xs[..n], f);
      var idx := KeptIndices(xs, f);
      assert idx == pre + (if f(xs[n]).Some? then [n] else []);
      forall k, l | 0 <= k < l < |idx| ensures idx[k] < idx[l] {
        assert idx[k] == pre[k] && pre[k] < n;
        if l < |pre| {
          assert idx[l] == pre[l];
          assert pre[k] < pre[l];
        } else {
          assert idx[l] == n;
        }
      }
    }
  }

  lemma {:induction false} KeptIndicesMembers<A, B>(xs: seq<A>, f: A -> Option<B>)
    ensures var idx := KeptIndices(xs, f);
      forall j :: 0 <= j < |xs| ==> (f(xs[j]).Some? <==> j in idx)
    decreases |xs|
  {
    if xs != [] {
      var n := |xs| - 1;
      var init := xs[..n];
      var pre := KeptIndices(init, f);
      KeptIndicesMembers(init, f);
      var idx := KeptIndices(xs, f);
      forall j | 0 <= j < |xs| ensures f(xs[j]).Some? <==> j in idx {
        if j < n {
          assert init[j] == xs[j];
          assert j in idx <==> j in pre;
        }
      }
    }
  }

  /** A property of every image `f` yields holds of every output of `filter_map`. */
  lemma FilterMapKeeps<A, B>(xs: seq<A>, f: A -> Option<B>, P: B -> bool)
    requires forall j :: 0 <= j < |xs| && f(xs[j]).Some? ==> P(f(xs[j]).value)
    ensures forall k :: 0 <= k < |FilterMap(xs, f)| ==> P(FilterMap(xs, f)[k])
  {
    var idx := KeptIndices(xs, f);
    KeptIndicesSpec(xs, f);
    forall k | 0 <= k < |FilterMap(xs, f)| ensures P(FilterMap(xs, f)[k]) {
      assert f(xs[idx[k]]) == Some(FilterMap(xs, f)[k]);
    }
  }

  /** When `f` keeps every element, `filter_map` is `map`. */
  lemma {:induction false} FilterMapAll<A, B>(xs: seq<A>, f: A -> Option<B>)
    requires forall j :: 0 <= j < |xs| ==> f(xs[j]).Some?
    ensures |FilterMap(xs, f)| == |xs|
    ensures forall j :: 0 <= j < |xs| ==> FilterMap(xs, f)[j] == f(xs[j]).value
    decreases |xs|
  {
    if xs != [] {
      FilterMapAll(xs[..|xs| - 1], f);
    }
  }

  /** Every output of `filter_map` is the image of some input. */
  lemma FilterMapFrom<A, B>(xs: seq<A>, f: A -> Option<B>, y: B)
    requires y in FilterMap(xs, f)
    ensures exists j :: 0 <= j < |xs| && f(xs[j]) == Some(y)
  {
    var idx := KeptIndices(xs, f);
    KeptIndicesSpec(xs, f);
    var k :| 0 <= k < |FilterMap(xs, f)| && FilterMap(xs, f)[k] == y;
    assert f(xs[idx[k]]) == Some(y);
  }

  /** JavaScript `Array.prototype.filter`. */
  function Filter<A>(xs: seq<A>, p: A -> bool): (r: seq<A>)
    ensures |r| <= |xs|
    decreases |xs|
  {
    if xs == [] then []
    else Filter(xs[..|xs| - 1], p) + (if p(xs[|xs| - 1]) then [xs[|xs| - 1]] else [])
  }

  /** Filtering one more element of a prefix. */
  lemma FilterStep<A>(xs: seq<A>, i: nat, p: A -> bool)
    requires i < |xs|
    ensures Filter(xs[..i + 1], p) == Filter(xs[..i], p) + (if p(xs[i]) then [xs[i]] else [])
  {
    assert xs[..i + 1][..i] == xs[..i];
  }

  /** Every element `filter` keeps satisfies `p`. */
  lemma {:induction false} FilterAll<A>(xs: seq<A>, p: A -> bool)
    ensures forall k :: 0 <= k < |Filter(xs, p)| ==> p(Filter(xs, p)[k])
    decreases |xs|
  {
    if xs != [] {
      FilterAll(xs[..|xs| - 1], p);
    }
  }

  /** A predicate every element satisfies filters nothing out. */
  lemma {:induction false} FilterKeepsAll<A>(xs: seq<A>, p: A -> bool)
    requires forall k :: 0 <= k < |xs| ==> p(xs[k])
    ensures Filter(xs, p) == xs
    decreases |xs|
  {
    if xs != [] {
      FilterKeepsAll(xs[..|xs| - 1], p);
    }
  }

  /** `filter` keeps exactly the elements that satisfy `p`. */
  lemma {:induction false} FilterMembers<A>(xs: seq<A>, p: A -> bool, x: A)
    ensures x in Filter(xs, p) <==> x in xs && p(x)
    decreases |xs|
  {
    if xs != [] {
      var init := xs[..|xs| - 1];
      assert xs == init + [xs[|xs| - 1]];
      FilterMembers(init, p, x);
    }
  }

  /** `filter` distributes over concatenation. */
  lemma {:induction false} FilterAppend<A>(xs: seq<A>, ys: seq<A>, p: A -> bool)
    ensures Filter(xs + ys, p) == Filter(xs, p) + Filter(ys, p)
    decreases |ys|
  {
    if ys != [] {
      var n := |ys| - 1;
      FilterAppend(xs, ys[..n], p);
      assert (xs + ys)[..|xs + ys| - 1] == xs + ys[..n];
    } else {
      assert xs + ys == xs;
    }
  }

  /** No element satisfies `p`: nothing is kept. */
  lemma {:induction false} FilterKeepsNone<A>(xs: seq<A>, p: A -> bool)
    requires forall k :: 0 <= k < |xs| ==> !p(xs[k])
    ensures Filter(xs, p) == []
    decreases |xs|
  {
    if xs != [] {
      FilterKeepsNone(xs[..|xs| - 1], p);
    }
  }

  /** `r` is `xs` with some elements left out, the rest in their order. */
  predicate IsSubsequence<A(==)>(r: seq<A>, xs: seq<A>)
    decreases |xs|
  {
    if r == [] then true
    else if xs == [] then false
    else if r[|r| - 1] == xs[|xs| - 1] then IsSubsequence(r[..|r| - 1], xs[..|xs| - 1])
    else IsSubsequence(r, xs[..|xs| - 1])
  }

  /** `filter` yields a subsequence of its input. */
  lemma {:induction false} FilterIsSubsequence<A>(xs: seq<A>, p: A -> bool)
    ensures IsSubsequence(Filter(xs, p), xs)
    decreases |xs|
  {
    if xs != [] {
      var init, last := xs[..|xs| - 1], xs[|xs| - 1];
      assert xs == init + [last];
      FilterIsSubsequence(init, p);
      if p(last) {
        var r := Filter(xs, p);
        assert r[..|r| - 1] == Filter(init, p);
      } else {
        assert Filter(xs, p) == Filter(init, p);
        SubsequenceExtend(Filter(init, p), init, last);
      }
    }
  }

  /** Appending an element to the larger sequence keeps a subsequence one. */
  lemma {:induction false} SubsequenceExtend<A>(r: seq<A>, xs: seq<A>, x: A)
    requires IsSubsequence(r, xs)
    ensures IsSubsequence(r, xs + [x])
    decreases |xs|, 1
  {
    assert (xs + [x])[..|xs|] == xs;
    if r != [] && r[|r| - 1] == x {
      SubsequenceShorten(r, xs);
    }
  }

  /** A subsequence with its last element removed is still a subsequence. */
  lemma {:induction false} SubsequenceShorten<A>(r: seq<A>, xs: seq<A>)
    requires r != [] && IsSubsequence(r, xs)
    ensures IsSubsequence(r[..|r| - 1], xs)
    decreases |xs|, 0
  {
    var init, last := xs[..|xs| - 1], xs[|xs| - 1];
    assert xs == init + [last];
    if r[|r| - 1] == last {
      SubsequenceExtend(r[..|r| - 1], init, last);
    } else {
      SubsequenceShorten(r, init);
      SubsequenceExtend(r[..|r| - 1], init, last);
    }
  }

  /** Every prefix of a subsequence is a subsequence. */
  lemma {:induction false} SubsequencePrefix<A>(r: seq<A>, xs: seq<A>, n: nat)
    requires IsSubsequence(r, xs) && n <= |r|
    ensures IsSubsequence(r[..n], xs)
    decreases |r| - n
  {
    if n < |r| {
      SubsequenceShorten(r, xs);
      SubsequencePrefix(r[..|r| - 1], xs, n);
      assert r[..|r| - 1][..n] == r[..n];
    } else {
      assert r[..n] == r;
    }
  }

  /** JavaScript `[...xs].reverse()`. */
  function Reverse<A>(xs: seq<A>): (r: seq<A>)
    ensures |r| == |xs|
    decreases |xs|
  {
    if xs == [] then [] else Reverse(xs[1..]) + [xs[0]]
  }

  /** The `k`-th element of the reverse is the `k`-th from the end. */
  lemma {:induction false} ReverseAt<A>(xs: seq<A>, k: nat)
    requires k < |xs|
    ensures Reverse(xs)[k] == xs[|xs| - 1 - k]
    decreases |xs|
  {
    if k < |xs| - 1 {
      ReverseAt(xs[1..], k);
    }
  }

  /** Reversing keeps the members. */
  lemma ReverseMembers<A>(xs: seq<A>)
    ensures forall v :: v in Reverse(xs) <==> v in xs
  {
    forall v ensures v in Reverse(xs) <==> v in xs {
      if v in xs {
        var k :| 0 <= k < |xs| && xs[k] == v;
        ReverseAt(xs, |xs| - 1 - k);
      }
      if v in Reverse(xs) {
        var k :| 0 <= k < |xs| && Reverse(xs)[k] == v;
        ReverseAt(xs, k);
      }
    }
  }

  /** Every sequence is a subsequence of itself. */
  lemma {:induction false} SubsequenceRefl<A>(xs: seq<A>)
    ensures IsSubsequence(xs, xs)
    decreases |xs|
  {
    if xs != [] {
      SubsequenceRefl(xs[..|xs| - 1]);
    }
  }

  /** `xs.map(f)`. */
  function Map<A, B>(xs: seq<A>, f: A -> B): (r: seq<B>)
    ensures |r| == |xs|
    ensures forall k :: 0 <= k < |xs| ==> r[k] == f(xs[k])
  {
    seq(|xs|, k requires 0 <= k < |xs| => f(xs[k]))
  }

  /** Mapping distributes over appending one element. */
  lemma MapSnoc<A, B>(xs: seq<A>, x: A, f: A -> B)
    ensures Map(xs + [x], f) == Map(xs, f) + [f(x)]
  {
    assert forall k :: 0 <= k < |xs| ==> (xs + [x])[k] == xs[k];
  }

  /** A non-empty sequence is its front followed by its last element, also behind a prefix. */
  lemma SplitLast<T>(front: seq<T>, xs: seq<T>)
    requires xs != []
    ensures xs == xs[..|xs| - 1] + [xs[|xs| - 1]]
    ensures front + xs == (front + xs[..|xs| - 1]) + [xs[|xs| - 1]]
  {
    assert xs == xs[..|xs| - 1] + [xs[|xs| - 1]];
  }

  /** Appending one element after a concatenation. */
  lemma AppendSnoc<T>(a: seq<T>, b: seq<T>, x: T)
    ensures (a + b) + [x] == a + (b + [x])
  {
  }

  /** The elements of a sequence as a set: JavaScript `new Set(xs)`. */
  function Elements(xs: seq<string>): (s: set<string>)
    ensures forall x :: x in s <==> x in xs
  {
    set x | x in xs
  }

  /** Cutting `[e] + kept` to `n` entries keeps `e` and the first `n - 1` of `kept`. */
  lemma FrontThenPrefix<A>(e: A, kept: seq<A>, n: nat)
    requires 1 <= n <= 1 + |kept|
    ensures ([e] + kept)[..n][1..] == kept[..n - 1]
  {
    assert forall k :: 0 <= k < n - 1 ==> ([e] + kept)[..n][1..][k] == kept[k];
  }
}
