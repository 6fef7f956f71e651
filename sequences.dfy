/**
 * The "convert each item, skip the ones that raise" loop shape that the
 * weather and POI conversions share, as a function on sequences.
 */
module Sequences {
  import opened Wrappers

  /**
   * The items that `f` converts, in input order; `None` from `f` is an
   * item whose conversion raised and was skipped.
   */
  function FilterMap<A, B>(xs: seq<A>, f: A -> Option<B>): (ys: seq<B>)
    ensures |ys| <= |xs|
  {
    if |xs| == 0 then []
    else
      var last := xs[|xs| - 1];
      FilterMap(xs[..|xs| - 1], f) + (if f(last).Some? then [f(last).value] else [])
  }

  /** The indices of the items `FilterMap` keeps, in increasing order. */
  function Kept<A, B>(xs: seq<A>, f: A -> Option<B>): seq<nat> {
    if |xs| == 0 then []
    else Kept(xs[..|xs| - 1], f) + (if f(xs[|xs| - 1]).Some? then [|xs| - 1] else [])
  }

  lemma {:induction false} KeptLength<A, B>(xs: seq<A>, f: A -> Option<B>)
    ensures |Kept(xs, f)| == |FilterMap(xs, f)|
  {
    if |xs| > 0 {
      KeptLength(xs[..|xs| - 1], f);
    }
  }

  lemma {:induction false} KeptIncreasing<A, B>(xs: seq<A>, f: A -> Option<B>)
    ensures forall k :: 0 <= k < |Kept(xs, f)| ==> Kept(xs, f)[k] < |xs|
    ensures forall k, l :: 0 <= k < l < |Kept(xs, f)| ==> Kept(xs, f)[k] < Kept(xs, f)[l]
  {
    if |xs| > 0 {
      KeptIncreasing(xs[..|xs| - 1], f);
    }
  }

  lemma {:induction false} KeptConverted<A, B>(xs: seq<A>, f: A -> Option<B>)
    ensures |Kept(xs, f)| == |FilterMap(xs, f)|
    ensures forall k :: 0 <= k < |Kept(xs, f)| ==>
      Kept(xs, f)[k] < |xs| && f(xs[Kept(xs, f)[k]]) == Some(FilterMap(xs, f)[k])
  {
    KeptLength(xs, f);
    KeptIncreasing(xs, f);
    if |xs| > 0 {
      var init := xs[..|xs| - 1];
      KeptConverted(init, f);
      KeptIncreasing(init, f);
      forall k | 0 <= k < |Kept(init, f)|
        ensures f(xs[Kept(xs, f)[k]]) == Some(FilterMap(xs, f)[k])
      {
        assert Kept(xs, f)[k] == Kept(init, f)[k];
        assert FilterMap(xs, f)[k] == FilterMap(init, f)[k];
        assert xs[Kept(init, f)[k]] == init[Kept(init, f)[k]];
      }
    }
  }

  lemma {:induction false} KeptExactly<A, B>(xs: seq<A>, f: A -> Option<B>)
    ensures forall i :: 0 <= i < |xs| ==> (f(xs[i]).Some? <==> i in Kept(xs, f))
  {
    if |xs| > 0 {
      var init := xs[..|xs| - 1];
      KeptExactly(init, f);
      KeptIncreasing(init, f);
      forall i | 0 <= i < |xs| ensures f(xs[i]).Some? <==> i in Kept(xs, f) {
        if i < |init| {
          assert xs[i] == init[i];
        }
      }
    }
  }

  /**
   * FilterMap keeps exactly the items whose conversion succeeds, each
   * converted, in the order of the input.
   */
  lemma FilterMapKeeps<A, B>(xs: seq<A>, f: A -> Option<B>)
    ensures |Kept(xs, f)| == |FilterMap(xs, f)|
    ensures forall k :: 0 <= k < |Kept(xs, f)| ==> Kept(xs, f)[k] < |xs|
    ensures forall k, l :: 0 <= k < l < |Kept(xs, f)| ==> Kept(xs, f)[k] < Kept(xs, f)[l]
    ensures forall k :: 0 <= k < |Kept(xs, f)| ==>
      f(xs[Kept(xs, f)[k]]) == Some(FilterMap(xs, f)[k])
    ensures forall i :: 0 <= i < |xs| ==> (f(xs[i]).Some? <==> i in Kept(xs, f))
  {
    KeptIncreasing(xs, f);
    KeptConverted(xs, f);
    KeptExactly(xs, f);
  }

  /** When no conversion fails, nothing is skipped. */
  lemma {:induction false} FilterMapAll<A, B>(xs: seq<A>, f: A -> Option<B>)
    requires forall i :: 0 <= i < |xs| ==> f(xs[i]).Some?
    ensures |FilterMap(xs, f)| == |xs|
    ensures forall i :: 0 <= i < |xs| ==> FilterMap(xs, f)[i] == f(xs[i]).value
  {
    if |xs| > 0 {
      var init := xs[..|xs| - 1];
      assert forall i :: 0 <= i < |init| ==> init[i] == xs[i];
      FilterMapAll(init, f);
    }
  }

  /** Extending the input by one element extends the output by at most its conversion. */
  lemma FilterMapSnoc<A, B>(xs: seq<A>, x: A, f: A -> Option<B>)
    ensures FilterMap(xs + [x], f) == FilterMap(xs, f) + (if f(x).Some? then [f(x).value] else [])
  {
    assert (xs + [x])[..|xs + [x]| - 1] == xs;
  }

  /**
   * The loop `for x in xs: try: out.append(convert(x)) except: continue`:
   * the result is FilterMap's.
   */
  method ConvertEach<A, B>(xs: seq<A>, f: A -> Option<B>) returns (ys: seq<B>)
    ensures ys == FilterMap(xs, f)
  {
    ys := [];
    var i := 0;
    while i < |xs|
      invariant 0 <= i <= |xs|
      invariant ys == FilterMap(xs[..i], f)
    {
      var converted := f(xs[i]);
      if converted.Some? {
        ys := ys + [converted.value];
      }
      assert xs[..i + 1][..i] == xs[..i];
      i := i + 1;
    }
    assert xs[..i] == xs;
  }
}
