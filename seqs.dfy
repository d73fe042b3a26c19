/** `Array.prototype.filter` and the last-element idioms the scripts use on record arrays. */
module Seqs {
  import opened Wrappers

  /** `xs.filter(p)`: the elements satisfying `p`, in their original order. */
  function Filter<T>(xs: seq<T>, p: T -> bool): (r: seq<T>)
    ensures |r| <= |xs|
    ensures forall i :: 0 <= i < |r| ==> p(r[i]) && r[i] in xs
    ensures forall i :: 0 <= i < |xs| && p(xs[i]) ==> xs[i] in r
    ensures IsSubsequence(r, xs)
  {
    if xs == [] then []
    else
      var rest := Filter(xs[..|xs| - 1], p);
      var last := xs[|xs| - 1];
      assert xs == xs[..|xs| - 1] + [last];
      SubsequenceExtend(rest, xs[..|xs| - 1], last);
      if p(last) then rest + [last] else rest
  }

  /** `r` can be obtained from `xs` by deleting elements. */
  ghost predicate IsSubsequence<T>(r: seq<T>, xs: seq<T>)
  {
    exists f: seq<nat> ::
      && |f| == |r|
      && (forall i :: 0 <= i < |f| ==> f[i] < |xs| && r[i] == xs[f[i]])
      && (forall i, j :: 0 <= i < j < |f| ==> f[i] < f[j])
  }

  lemma SubsequenceExtend<T>(r: seq<T>, xs: seq<T>, x: T)
    requires IsSubsequence(r, xs)
    ensures IsSubsequence(r, xs + [x]) && IsSubsequence(r + [x], xs + [x])
  {
    var f: seq<nat> :| |f| == |r|
      && (forall i :: 0 <= i < |f| ==> f[i] < |xs| && r[i] == xs[f[i]])
      && (forall i, j :: 0 <= i < j < |f| ==> f[i] < f[j]);
    var g := f + [|xs|];
    assert forall i :: 0 <= i < |g| ==> g[i] < |xs + [x]| && (r + [x])[i] == (xs + [x])[g[i]];
    assert forall i :: 0 <= i < |f| ==> f[i] < |xs + [x]| && r[i] == (xs + [x])[f[i]];
  }

  /** Filtering distributes over appending one element. */
  lemma FilterSnoc<T>(xs: seq<T>, x: T, p: T -> bool)
    ensures Filter(xs + [x], p) == Filter(xs, p) + (if p(x) then [x] else [])
  {
    assert (xs + [x])[..|xs + [x]| - 1] == xs;
  }

  /** `xs.length > 0 ? xs[xs.length - 1] : undefined`, also `xs.pop()` on a fresh array. */
  function Last<T>(xs: seq<T>): (r: Option<T>)
    ensures r.None? <==> xs == []
    ensures r.Some? ==> r.value == xs[|xs| - 1]
  {
    if xs == [] then None else Some(xs[|xs| - 1])
  }

  /** The last element satisfying `p`, i.e. `Last(Filter(xs, p))`. */
  lemma {:induction false} LastOfFilter<T>(xs: seq<T>, p: T -> bool)
    ensures Last(Filter(xs, p)).None? <==> forall i :: 0 <= i < |xs| ==> !p(xs[i])
    ensures Last(Filter(xs, p)).Some? ==>
              exists i :: 0 <= i < |xs| && xs[i] == Last(Filter(xs, p)).value
                          && p(xs[i]) && forall j :: i < j < |xs| ==> !p(xs[j])
  {
    if xs != [] {
      var init, last := xs[..|xs| - 1], xs[|xs| - 1];
      assert xs == init + [last];
      FilterSnoc(init, last, p);
      LastOfFilter(init, p);
      if !p(last) {
        if Last(Filter(init, p)).Some? {
          var i :| 0 <= i < |init| && init[i] == Last(Filter(init, p)).value
            && p(init[i]) && forall j :: i < j < |init| ==> !p(init[j]);
          assert xs[i] == init[i];
        }
      }
    }
  }

  /** Concatenation regroups freely. */
  lemma AppendAssoc<T>(a: seq<T>, b: seq<T>, c: seq<T>)
    ensures (a + b) + c == a + (b + c)
  {
  }
  /** Filtering distributes over concatenation. */
  lemma {:induction false} FilterAppend<T>(xs: seq<T>, ys: seq<T>, p: T -> bool)
    ensures Filter(xs + ys, p) == Filter(xs, p) + Filter(ys, p)
    decreases |ys|
  {
    if ys != [] {
      var init, last := ys[..|ys| - 1], ys[|ys| - 1];
      assert ys == init + [last];
      assert xs + ys == (xs + init) + [last];
      FilterSnoc(xs + init, last, p);
      FilterSnoc(init, last, p);
      FilterAppend(xs, init, p);
      AppendAssoc(Filter(xs, p), Filter(init, p), if p(last) then [last] else []);
    } else {
      assert xs + ys == xs;
    }
  }

  /** Each element satisfying `p` is kept as often as it occurs; every other element is dropped. */
  lemma {:induction false} FilterCounts<T>(xs: seq<T>, p: T -> bool, x: T)
    ensures multiset(Filter(xs, p))[x] == if p(x) then multiset(xs)[x] else 0
  {
    if xs != [] {
      var init, last := xs[..|xs| - 1], xs[|xs| - 1];
      assert xs == init + [last];
      FilterSnoc(init, last, p);
      FilterCounts(init, p, x);
    }
  }

  /** The positions of `xs` whose element satisfies `p`. */
  ghost function Positions<T>(xs: seq<T>, p: T -> bool): set<nat>
  {
    set i: nat | i < |xs| && p(xs[i])
  }

  /** `xs.filter(p).length` is the number of positions whose element satisfies `p`. */
  lemma {:induction false} FilterLength<T>(xs: seq<T>, p: T -> bool)
    ensures |Filter(xs, p)| == |Positions(xs, p)|
  {
    if xs != [] {
      var init, last := xs[..|xs| - 1], xs[|xs| - 1];
      assert xs == init + [last];
      FilterSnoc(init, last, p);
      FilterLength(init, p);
      PositionsSnoc(init, last, p);
    }
  }

  /** Appending an element adds its position when it satisfies `p`. */
  lemma PositionsSnoc<T>(xs: seq<T>, x: T, p: T -> bool)
    ensures Positions(xs + [x], p) == Positions(xs, p) + (if p(x) then {|xs|} else {})
    ensures |xs| !in Positions(xs, p)
  {
    forall i: nat | i < |xs|
      ensures (xs + [x])[i] == xs[i]
    {
    }
  }

  /** Two tests that agree on every element select the same elements. */
  lemma {:induction false} FilterAgree<T>(xs: seq<T>, p: T -> bool, q: T -> bool)
    requires forall i :: 0 <= i < |xs| ==> p(xs[i]) == q(xs[i])
    ensures Filter(xs, p) == Filter(xs, q)
  {
    if xs != [] {
      var init, last := xs[..|xs| - 1], xs[|xs| - 1];
      assert xs == init + [last];
      FilterSnoc(init, last, p);
      FilterSnoc(init, last, q);
      FilterAgree(init, p, q);
    }
  }
}
