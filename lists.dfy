/** Both services build their partition lists the same way: walk the partitions in order, keep
    an entry for each one whose query succeeds, skip the rest. That shape, and its facts, once. */
module Lists {
  import opened Wrappers

  /** The entries `f` yields for `xs`, in the order of `xs`; an element yielding None is skipped. */
  function FilterMap<A, B>(f: A -> Option<B>, xs: seq<A>): (ys: seq<B>)
    ensures |ys| <= |xs|
  {
    if xs == [] then []
    else
      var n := |xs| - 1;
      FilterMap(f, xs[..n]) + match f(xs[n]) case Some(y) => [y] case None => []
  }

  /** Building over two runs of elements is building over each and concatenating. */
  lemma {:induction false} FilterMapAppend<A, B>(f: A -> Option<B>, a: seq<A>, b: seq<A>)
    ensures FilterMap(f, a + b) == FilterMap(f, a) + FilterMap(f, b)
  {
    if b == [] {
      assert a + b == a;
    } else {
      var n := |b| - 1;
      assert (a + b)[..|a + b| - 1] == a + b[..n];
      assert (a + b)[|a + b| - 1] == b[n];
      FilterMapAppend(f, a, b[..n]);
    }
  }

  /** One element yields its entry, or nothing. */
  lemma FilterMapSingleton<A, B>(f: A -> Option<B>, x: A)
    ensures FilterMap(f, [x]) == match f(x) case Some(y) => [y] case None => []
  {
  }

  /** An element yielding None leaves the result as if it were not there. */
  lemma {:induction false} FilterMapSkips<A, B>(f: A -> Option<B>, xs: seq<A>, i: nat)
    requires i < |xs| && f(xs[i]).None?
    ensures FilterMap(f, xs) == FilterMap(f, xs[..i]) + FilterMap(f, xs[i + 1..])
  {
    var a, b := xs[..i], xs[i + 1..];
    assert xs == a + ([xs[i]] + b);
    FilterMapAppend(f, a, [xs[i]] + b);
    FilterMapAppend(f, [xs[i]], b);
    FilterMapSingleton(f, xs[i]);
  }

  /** An element yielding an entry contributes exactly that entry at its place. */
  lemma {:induction false} FilterMapKeeps<A, B>(f: A -> Option<B>, xs: seq<A>, i: nat)
    requires i < |xs| && f(xs[i]).Some?
    ensures FilterMap(f, xs) == FilterMap(f, xs[..i]) + [f(xs[i]).value] + FilterMap(f, xs[i + 1..])
  {
    var a, b := xs[..i], xs[i + 1..];
    assert xs == a + ([xs[i]] + b);
    FilterMapAppend(f, a, [xs[i]] + b);
    FilterMapAppend(f, [xs[i]], b);
    FilterMapSingleton(f, xs[i]);
  }

  /** The positions of the elements that yield an entry, in increasing order. */
  function KeptIndices<A, B>(f: A -> Option<B>, xs: seq<A>): (idx: seq<nat>)
    ensures |idx| == |FilterMap(f, xs)|
    ensures forall k :: 0 <= k < |idx| ==> idx[k] < |xs|
    ensures forall k, l :: 0 <= k < l < |idx| ==> idx[k] < idx[l]
  {
    if xs == [] then []
    else
      var n := |xs| - 1;
      KeptIndices(f, xs[..n]) + if f(xs[n]).Some? then [n] else []
  }

  /** The k-th entry is the entry of the k-th element that yields one. */
  lemma {:induction false} KeptIndicesMatch<A, B>(f: A -> Option<B>, xs: seq<A>)
    ensures forall k :: 0 <= k < |KeptIndices(f, xs)| ==>
              f(xs[KeptIndices(f, xs)[k]]) == Some(FilterMap(f, xs)[k])
  {
    if xs != [] {
      var n := |xs| - 1;
      var front := xs[..n];
      KeptIndicesMatch(f, front);
      var idx0 := KeptIndices(f, front);
      assert forall k :: 0 <= k < |idx0| ==> xs[idx0[k]] == front[idx0[k]];
    }
  }

  /** Every element that yields an entry is listed. */
  lemma {:induction false} KeptIndicesComplete<A, B>(f: A -> Option<B>, xs: seq<A>, i: nat)
    requires i < |xs| && f(xs[i]).Some?
    ensures i in KeptIndices(f, xs)
  {
    var n := |xs| - 1;
    if i < n {
      assert xs[..n][i] == xs[i];
      KeptIndicesComplete(f, xs[..n], i);
    }
  }
}
