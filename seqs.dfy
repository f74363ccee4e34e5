/** A filtering map over a sequence: the shape shared by the page decoder (records that decode are kept)
    and the JSONL-to-JSON conversion (lines that parse are kept). */
module Seqs {
  import opened Basics

  /** Applies `f` to every element, keeping the `Some` results in their original order. */
  function FilterMap<A, B>(xs: seq<A>, f: A -> Option<B>): (r: seq<B>)
    ensures |r| <= |xs|
  {
    if xs == [] then []
    else FilterMap(xs[..|xs| - 1], f) + (if f(xs[|xs| - 1]).Some? then [f(xs[|xs| - 1]).value] else [])
  }

  /** The positions, in increasing order, of the elements of `xs` that `f` keeps. */
  function KeptIndices<A, B>(xs: seq<A>, f: A -> Option<B>): (r: seq<nat>)
    ensures forall j :: 0 <= j < |r| ==> r[j] < |xs|
  {
    if xs == [] then []
    else KeptIndices(xs[..|xs| - 1], f) + (if f(xs[|xs| - 1]).Some? then [|xs| - 1] else [])
  }

  /** One more element appended at the end extends the result by at most that element's image. */
  lemma {:induction false} FilterMapSnoc<A, B>(xs: seq<A>, x: A, f: A -> Option<B>)
    ensures FilterMap(xs + [x], f) == FilterMap(xs, f) + (if f(x).Some? then [f(x).value] else [])
  {
    assert (xs + [x])[..|xs + [x]| - 1] == xs;
  }

  /** When `f` keeps every element, the result is the image of the whole sequence. */
  lemma {:induction false} FilterMapAllKept<A, B>(xs: seq<A>, f: A -> Option<B>)
    requires forall i :: 0 <= i < |xs| ==> f(xs[i]).Some?
    ensures FilterMap(xs, f) == seq(|xs|, i requires 0 <= i < |xs| => f(xs[i]).value)
  {
    if xs != [] {
      var init := xs[..|xs| - 1];
      assert forall i :: 0 <= i < |init| ==> init[i] == xs[i];
      FilterMapAllKept(init, f);
    }
  }

  /** Filter soundness and completeness: the result lists exactly the images of the kept elements,
      in input order, and an element is kept if and only if `f` maps it to `Some`. */
  lemma {:induction false} FilterMapExact<A, B>(xs: seq<A>, f: A -> Option<B>)
    ensures |FilterMap(xs, f)| == |KeptIndices(xs, f)|
    ensures forall j :: 0 <= j < |KeptIndices(xs, f)| ==>
      f(xs[KeptIndices(xs, f)[j]]).Some? && FilterMap(xs, f)[j] == f(xs[KeptIndices(xs, f)[j]]).value
    ensures forall j, k :: 0 <= j < k < |KeptIndices(xs, f)| ==> KeptIndices(xs, f)[j] < KeptIndices(xs, f)[k]
    ensures forall i :: 0 <= i < |xs| ==> (i in KeptIndices(xs, f) <==> f(xs[i]).Some?)
  {
    if xs != [] {
      var init, last := xs[..|xs| - 1], xs[|xs| - 1];
      FilterMapExact(init, f);
      var ks, ms := KeptIndices(init, f), FilterMap(init, f);
      var ks', ms' := KeptIndices(xs, f), FilterMap(xs, f);
      assert ks' == ks + (if f(last).Some? then [|xs| - 1] else []) && ms' == ms + (if f(last).Some? then [f(last).value] else []);
      assert |ms'| == |ks'|;
      forall j | 0 <= j < |ks'|
        ensures f(xs[ks'[j]]).Some? && ms'[j] == f(xs[ks'[j]]).value
      {
        if j < |ks| {
          assert ks'[j] == ks[j] && ms'[j] == ms[j] && xs[ks[j]] == init[ks[j]];
        }
      }
      forall j, k | 0 <= j < k < |ks'|
        ensures ks'[j] < ks'[k]
      {
        if k < |ks| {
          assert ks'[j] == ks[j] && ks'[k] == ks[k];
        } else {
          assert ks'[j] == ks[j] < |init|;
        }
      }
      forall i | 0 <= i < |xs|
        ensures i in ks' <==> f(xs[i]).Some?
      {
        if i < |xs| - 1 {
          assert xs[i] == init[i];
          assert i in ks <==> f(init[i]).Some?;
          assert i in ks' <==> i in ks;
        }
      }
    }
  }

  /** Nothing is invented: every output element is the image of some input element. */
  lemma {:induction false} FilterMapFromInput<A, B>(xs: seq<A>, f: A -> Option<B>, j: nat)
    requires j < |FilterMap(xs, f)|
    ensures exists i :: 0 <= i < |xs| && f(xs[i]) == Some(FilterMap(xs, f)[j])
  {
    FilterMapExact(xs, f);
    var i := KeptIndices(xs, f)[j];
    assert f(xs[i]) == Some(FilterMap(xs, f)[j]);
  }

  /** Filtering distributes over concatenation. */
  lemma {:induction false} FilterMapAppend<A, B>(xs: seq<A>, ys: seq<A>, f: A -> Option<B>)
    ensures FilterMap(xs + ys, f) == FilterMap(xs, f) + FilterMap(ys, f)
  {
    if ys == [] {
      assert xs + ys == xs;
    } else {
      var init, last := ys[..|ys| - 1], ys[|ys| - 1];
      FilterMapAppend(xs, init, f);
      assert (xs + ys)[..|xs + ys| - 1] == xs + init;
      assert (xs + ys)[|xs + ys| - 1] == last;
    }
  }

  /** Concatenation regrouped; stated on plain values so that large operands stay unexpanded. */
  lemma {:induction false} AppendAssoc<T>(a: seq<T>, b: seq<T>, c: seq<T>)
    ensures a + b + c == a + (b + c)
  {
  }

  /** Dropping `i` elements and then `j` more drops `i + j`. */
  lemma {:induction false} DropDrop<T>(s: seq<T>, i: nat, j: nat)
    requires i + j <= |s|
    ensures s[i..][j..] == s[i + j..]
  {
  }
}
