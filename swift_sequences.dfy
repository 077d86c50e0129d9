/**
 The two Swift standard-library sequence operations that `Polyline` is built
 from: `zip`, which pairs two sequences up to the shorter one's length, and
 `map`, which applies a function to every element in order. The projections
 `Firsts` and `Seconds` undo `Zip` and serve as its partner.
 */
module SwiftSequences {

  function Min(x: nat, y: nat): nat
  {
    if x <= y then x else y
  }

  /** `zip(a, b)`: the i-th pair holds the i-th elements; the shorter input decides the length. */
  function Zip<A, B>(a: seq<A>, b: seq<B>): (r: seq<(A, B)>)
    ensures |r| == Min(|a|, |b|)
    ensures forall i :: 0 <= i < |r| ==> r[i] == (a[i], b[i])
  {
    if a == [] || b == [] then [] else [(a[0], b[0])] + Zip(a[1..], b[1..])
  }

  /** `values.map(f)`: one result per value, in the same order. */
  function Map<V, T>(f: V -> T, values: seq<V>): (r: seq<T>)
    ensures |r| == |values|
    ensures forall i :: 0 <= i < |values| ==> r[i] == f(values[i])
  {
    if values == [] then [] else [f(values[0])] + Map(f, values[1..])
  }

  /** The first components of a sequence of pairs. */
  function Firsts<A, B>(ps: seq<(A, B)>): seq<A>
  {
    if ps == [] then [] else [ps[0].0] + Firsts(ps[1..])
  }

  /** The second components of a sequence of pairs. */
  function Seconds<A, B>(ps: seq<(A, B)>): seq<B>
  {
    if ps == [] then [] else [ps[0].1] + Seconds(ps[1..])
  }

  /** Unzipping a zip gives back both inputs, cut to the shorter length. */
  lemma {:induction false} UnzipZip<A, B>(a: seq<A>, b: seq<B>)
    ensures Firsts(Zip(a, b)) == a[..Min(|a|, |b|)]
    ensures Seconds(Zip(a, b)) == b[..Min(|a|, |b|)]
  {
    if a != [] && b != [] {
      UnzipZip(a[1..], b[1..]);
      assert a[..Min(|a|, |b|)] == [a[0]] + a[1..][..Min(|a| - 1, |b| - 1)];
      assert b[..Min(|a|, |b|)] == [b[0]] + b[1..][..Min(|a| - 1, |b| - 1)];
    }
  }
}
