/** Finite item streams as sequences, and the two ways the library builds one
    stream out of several: flattening a sequence of streams in order, and
    flat-mapping a per-item expansion over an input stream. */
module Streams {

  /** Concatenation of `parts`, in order (a `yield from` over each part). */
  function Flatten<T>(parts: seq<seq<T>>): seq<T>
  {
    if parts == [] then [] else parts[0] + Flatten(parts[1..])
  }

  /** `for x in xs: yield from f(x)`: every expansion, in input order. */
  function FlatMap<X, Y>(f: X -> seq<Y>, xs: seq<X>): seq<Y>
  {
    if xs == [] then [] else f(xs[0]) + FlatMap(f, xs[1..])
  }

  /** `for x in xs: yield x`: the items of `xs` re-emitted one at a time. */
  function Replay<T>(xs: seq<T>): seq<T>
  {
    if xs == [] then [] else [xs[0]] + Replay(xs[1..])
  }

  /** Re-emitting a stream item by item gives back the same stream. */
  lemma {:induction false} ReplayIsIdentity<T>(xs: seq<T>)
    ensures Replay(xs) == xs
  {
    if xs != [] {
      ReplayIsIdentity(xs[1..]);
      assert [xs[0]] + xs[1..] == xs;
    }
  }

  lemma {:induction false} FlattenAppend<T>(a: seq<seq<T>>, b: seq<seq<T>>)
    ensures Flatten(a + b) == Flatten(a) + Flatten(b)
  {
    if a == [] {
      assert a + b == b;
    } else {
      assert (a + b)[0] == a[0];
      assert (a + b)[1..] == a[1..] + b;
      FlattenAppend(a[1..], b);
    }
  }

  /** Flat-mapping over a concatenated input is the concatenation of the two
      flat-maps: no output of a later input item comes before an output of an
      earlier one. */
  lemma {:induction false} FlatMapAppend<X, Y>(f: X -> seq<Y>, a: seq<X>, b: seq<X>)
    ensures FlatMap(f, a + b) == FlatMap(f, a) + FlatMap(f, b)
  {
    if a == [] {
      assert a + b == b;
    } else {
      assert (a + b)[0] == a[0];
      assert (a + b)[1..] == a[1..] + b;
      FlatMapAppend(f, a[1..], b);
    }
  }

  /** An output item comes from the expansion of some input item, and every
      item of every expansion is output. */
  lemma {:induction false} FlatMapMembership<X, Y>(f: X -> seq<Y>, xs: seq<X>, y: Y)
    ensures y in FlatMap(f, xs) <==> exists i :: 0 <= i < |xs| && y in f(xs[i])
  {
    if xs != [] {
      FlatMapMembership(f, xs[1..], y);
      if y in FlatMap(f, xs[1..]) {
        var i :| 0 <= i < |xs[1..]| && y in f(xs[1..][i]);
        assert y in f(xs[i + 1]);
      }
      if exists i :: 0 <= i < |xs| && y in f(xs[i]) {
        var i :| 0 <= i < |xs| && y in f(xs[i]);
        if i > 0 {
          assert y in f(xs[1..][i - 1]);
        }
      }
    }
  }
}
