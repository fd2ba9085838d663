/** Sequence operations the pipeline is built from: Rust's `starts_with`,
    `filter_map`, chunking a stream into batches, and flattening batches. */
module Seqs {
  import opened Results

  /** `s.starts_with(prefix)`, compared element by element. */
  function StartsWith<T(==)>(s: seq<T>, prefix: seq<T>): (b: bool)
    ensures b <==> prefix <= s
  {
    if |prefix| == 0 then true
    else if |s| == 0 then false
    else s[0] == prefix[0] && StartsWith(s[1..], prefix[1..])
  }

  /** What `filter_map` emits for one element: its payload, or nothing. */
  function Emit<A, B>(f: A -> Option<B>, x: A): seq<B>
  {
    if f(x).Some? then [f(x).value] else []
  }

  /** Iterator `filter_map`: keep `f(x)`'s payload for every `x` it accepts, in order. */
  function FilterMap<A, B>(f: A -> Option<B>, xs: seq<A>): (r: seq<B>)
    ensures |r| <= |xs|
  {
    if |xs| == 0 then [] else Emit(f, xs[0]) + FilterMap(f, xs[1..])
  }

  lemma {:induction false} FilterMapAppend<A, B>(f: A -> Option<B>, xs: seq<A>, ys: seq<A>)
    ensures FilterMap(f, xs + ys) == FilterMap(f, xs) + FilterMap(f, ys)
    decreases |xs|
  {
    if |xs| == 0 {
      assert xs + ys == ys;
    } else {
      var zs := xs + ys;
      assert zs[0] == xs[0];
      assert zs[1..] == xs[1..] + ys;
      FilterMapAppend(f, xs[1..], ys);
      calc {
        FilterMap(f, zs);
        Emit(f, xs[0]) + FilterMap(f, xs[1..] + ys);
        Emit(f, xs[0]) + (FilterMap(f, xs[1..]) + FilterMap(f, ys));
        (Emit(f, xs[0]) + FilterMap(f, xs[1..])) + FilterMap(f, ys);
      }
    }
  }

  /** The positions of `xs` that `f` accepts, in increasing order: exactly the
      inputs whose images `FilterMap` keeps, one for one. */
  function Kept<A, B>(f: A -> Option<B>, xs: seq<A>): (k: seq<nat>)
    ensures |k| == |FilterMap(f, xs)|
    ensures forall j :: 0 <= j < |k| ==> k[j] < |xs| && f(xs[k[j]]).Some?
    ensures forall j :: 0 <= j < |k| ==> FilterMap(f, xs)[j] == f(xs[k[j]]).value
    ensures forall j, j' :: 0 <= j < j' < |k| ==> k[j] < k[j']
    ensures forall i :: 0 <= i < |xs| && f(xs[i]).Some? ==> i in k
    decreases |xs|
  {
    if |xs| == 0 then []
    else
      var init := xs[..|xs| - 1];
      var last := xs[|xs| - 1];
      var k0 := Kept(f, init);
      var tail: seq<nat> := if f(last).Some? then [|xs| - 1] else [];
      KeptStep(f, xs, k0, tail);
      k0 + tail
  }

  /** The inductive step of `Kept`: extending the input by one element. */
  lemma KeptStep<A, B>(f: A -> Option<B>, xs: seq<A>, k0: seq<nat>, tail: seq<nat>)
    requires |xs| > 0
    requires tail == if f(xs[|xs| - 1]).Some? then [|xs| - 1] else []
    requires |k0| == |FilterMap(f, xs[..|xs| - 1])|
    requires forall j :: 0 <= j < |k0| ==> k0[j] < |xs| - 1 && f(xs[k0[j]]).Some?
    requires forall j :: 0 <= j < |k0| ==> FilterMap(f, xs[..|xs| - 1])[j] == f(xs[k0[j]]).value
    requires forall j, j' :: 0 <= j < j' < |k0| ==> k0[j] < k0[j']
    requires forall i :: 0 <= i < |xs| - 1 && f(xs[i]).Some? ==> i in k0
    ensures var k := k0 + tail;
      && |k| == |FilterMap(f, xs)|
      && (forall j :: 0 <= j < |k| ==> k[j] < |xs| && f(xs[k[j]]).Some?)
      && (forall j :: 0 <= j < |k| ==> FilterMap(f, xs)[j] == f(xs[k[j]]).value)
      && (forall j, j' :: 0 <= j < j' < |k| ==> k[j] < k[j'])
      && (forall i :: 0 <= i < |xs| && f(xs[i]).Some? ==> i in k)
  {
    var init := xs[..|xs| - 1];
    var last := xs[|xs| - 1];
    assert xs == init + [last];
    FilterMapAppend(f, init, [last]);
    assert FilterMap(f, [last]) == Emit(f, last) + FilterMap(f, [last][1..]);
    assert FilterMap(f, xs) == FilterMap(f, init) + Emit(f, last);
    forall i | 0 <= i < |xs| - 1
      ensures xs[i] == init[i]
    {
    }
  }

  /** Concatenate a sequence of batches. */
  function Flatten<T>(xss: seq<seq<T>>): seq<T>
  {
    if |xss| == 0 then [] else xss[0] + Flatten(xss[1..])
  }

  lemma {:induction false} FlattenAppend<T>(a: seq<seq<T>>, b: seq<seq<T>>)
    ensures Flatten(a + b) == Flatten(a) + Flatten(b)
    decreases |a|
  {
    if |a| == 0 {
      assert a + b == b;
    } else {
      assert (a + b)[1..] == a[1..] + b;
      FlattenAppend(a[1..], b);
    }
  }

  /** Appending one batch appends its elements. */
  lemma FlattenSnoc<T>(bs: seq<seq<T>>, v: seq<T>)
    ensures Flatten(bs + [v]) == Flatten(bs) + v
  {
    FlattenAppend(bs, [v]);
    assert Flatten([v]) == v + Flatten([]);
  }

  /** `bs` cuts `xs` into batches of `n`: in order, every batch but the last
      full, the last one short (possibly empty). */
  ghost predicate IsBatching<T>(bs: seq<seq<T>>, xs: seq<T>, n: nat) {
    && |bs| >= 1
    && Flatten(bs) == xs
    && (forall i :: 0 <= i < |bs| - 1 ==> |bs[i]| == n)
    && |bs[|bs| - 1]| < n
  }

  /** Cut `xs` into batches of `n`, always ending with one short batch. */
  function Chunk<T>(xs: seq<T>, n: nat): (bs: seq<seq<T>>)
    requires n > 0
    ensures IsBatching(bs, xs, n)
    ensures |xs| == (|bs| - 1) * n + |bs[|bs| - 1]|
    decreases |xs|
  {
    if |xs| < n then [xs]
    else
      var first := xs[..n];
      var rest := Chunk(xs[n..], n);
      var bs := [first] + rest;
      assert xs == first + xs[n..];
      assert bs[1..] == rest;
      assert Flatten(bs) == first + Flatten(rest);
      assert forall i :: 1 <= i < |bs| ==> bs[i] == rest[i - 1];
      assert (|bs| - 1) * n == (|rest| - 1) * n + n;
      bs
  }

  /** There is only one way to batch a sequence: whoever builds a batching
      builds `Chunk`'s. */
  lemma {:induction false} ChunkUnique<T>(bs: seq<seq<T>>, xs: seq<T>, n: nat)
    requires n > 0
    requires IsBatching(bs, xs, n)
    ensures bs == Chunk(xs, n)
    decreases |bs|
  {
    if |bs| == 1 {
      assert Flatten(bs) == bs[0] + Flatten(bs[1..]);
    } else {
      var rest := bs[1..];
      assert Flatten(bs) == bs[0] + Flatten(rest);
      assert |bs[0]| == n;
      assert xs[..n] == bs[0];
      assert xs[n..] == Flatten(rest);
      assert IsBatching(rest, xs[n..], n) by {
        forall i | 0 <= i < |rest| - 1
          ensures |rest[i]| == n
        {
          assert rest[i] == bs[i + 1];
        }
      }
      ChunkUnique(rest, xs[n..], n);
    }
  }
}
