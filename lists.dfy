/**
 * The list comprehensions the routers build their task arguments with:
 * dropping `None` from a list, the positions where a list holds a value, and
 * picking a list's entries at given positions. `None` is `Option.None`; a
 * Python value `v` in an optional list is `Some(v)`.
 */
module Lists {
  import opened Wrappers

  /** `[v for v in xs if v is not None]`: the present values, in their order. */
  function FilterNone<T>(xs: seq<Option<T>>): (r: seq<Option<T>>)
    ensures |r| <= |xs|
    ensures forall k :: 0 <= k < |r| ==> r[k].Some? && r[k] in xs
    ensures forall i :: 0 <= i < |xs| && xs[i].Some? ==> xs[i] in r
    decreases |xs|
  {
    if xs == [] then []
    else
      var n := |xs| - 1;
      var init := FilterNone(xs[..n]);
      assert forall v :: v in xs[..n] ==> v in xs;
      init + (if xs[n].Some? then [xs[n]] else [])
  }

  /** `[i for i, x in enumerate(xs) if x is not None]`: ascending, and exactly the positions holding a value. */
  function SomeIndices<T>(xs: seq<Option<T>>): (idx: seq<nat>)
    ensures forall k :: 0 <= k < |idx| ==> idx[k] < |xs| && xs[idx[k]].Some?
    ensures forall i :: 0 <= i < |xs| && xs[i].Some? ==> i in idx
    ensures forall k, l :: 0 <= k < l < |idx| ==> idx[k] < idx[l]
    decreases |xs|
  {
    if xs == [] then []
    else
      var n := |xs| - 1;
      var init := SomeIndices(xs[..n]);
      init + (if xs[n].Some? then [n] else [])
  }

  /** `[xs[i] for i in idx]`. */
  function Project<T>(xs: seq<T>, idx: seq<nat>): seq<T>
    requires forall k :: 0 <= k < |idx| ==> idx[k] < |xs|
  {
    seq(|idx|, k requires 0 <= k < |idx| => xs[idx[k]])
  }

  /** Positions below the prefix's length pick the same entries from the prefix as from the whole list. */
  lemma ProjectPrefix<T>(xs: seq<T>, n: nat, idx: seq<nat>)
    requires n <= |xs|
    requires forall k :: 0 <= k < |idx| ==> idx[k] < n
    ensures Project(xs[..n], idx) == Project(xs, idx)
  {
  }

  /** Dropping `None` is the same as picking the entries at the positions that hold a value. */
  lemma {:induction false} FilterNoneIsProjection<T>(xs: seq<Option<T>>)
    ensures FilterNone(xs) == Project(xs, SomeIndices(xs))
    decreases |xs|
  {
    if xs != [] {
      var n := |xs| - 1;
      var init := SomeIndices(xs[..n]);
      FilterNoneIsProjection(xs[..n]);
      ProjectPrefix(xs, n, init);
      var tail: seq<nat> := if xs[n].Some? then [n] else [];
      assert SomeIndices(xs) == init + tail;
      assert Project(xs, init + tail) == Project(xs, init) + Project(xs, tail);
    }
  }

  /** Two lists holding values at the same positions have the same value positions. */
  lemma {:induction false} SameShapeSameIndices<S, T>(xs: seq<Option<S>>, ys: seq<Option<T>>)
    requires |xs| == |ys|
    requires forall i :: 0 <= i < |xs| ==> (xs[i].Some? <==> ys[i].Some?)
    ensures SomeIndices(xs) == SomeIndices(ys)
    decreases |xs|
  {
    if xs != [] {
      var n := |xs| - 1;
      SameShapeSameIndices(xs[..n], ys[..n]);
    }
  }

  /**
   * When two lists hold values at the same places, filtering one of them on
   * its own agrees with projecting it onto the other's value positions: this
   * is the case where independent filtering keeps layers aligned.
   */
  lemma AlignedFilterIsProjection<S, T>(xs: seq<Option<S>>, ys: seq<Option<T>>)
    requires |xs| == |ys|
    requires forall i :: 0 <= i < |xs| ==> (xs[i].Some? <==> ys[i].Some?)
    ensures FilterNone(ys) == Project(ys, SomeIndices(xs))
  {
    SameShapeSameIndices(xs, ys);
    FilterNoneIsProjection(ys);
  }

  /** A list with no `None` is kept whole. */
  lemma {:induction false} FilterNoneKeepsFull<T>(xs: seq<Option<T>>)
    requires forall i :: 0 <= i < |xs| ==> xs[i].Some?
    ensures FilterNone(xs) == xs
    decreases |xs|
  {
    if xs != [] {
      var n := |xs| - 1;
      FilterNoneKeepsFull(xs[..n]);
      assert xs[..n] + [xs[n]] == xs;
    }
  }

  /** A list holding no value filters to nothing and has no value positions. */
  lemma {:induction false} FilterNoneOfNothing<T>(xs: seq<Option<T>>)
    requires forall i :: 0 <= i < |xs| ==> xs[i].None?
    ensures FilterNone(xs) == [] && SomeIndices(xs) == []
    decreases |xs|
  {
    if xs != [] {
      FilterNoneOfNothing(xs[..|xs| - 1]);
    }
  }
}
