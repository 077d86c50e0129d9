/**
 One user stroke: an ordered, growable sequence of 3D points. The only state
 is the `vertices` list, which `Add` and `RemoveLast` change in place. The
 point type is a parameter, because no operation looks inside a point.
 */
module Polylines {
  import opened Wrappers
  import opened SwiftSequences

  class Polyline<P> {
    /** The stroke's vertex list, in the order the vertices were added. */
    var vertices: seq<P>

    /** `init()`: a stroke with no vertices yet. */
    constructor ()
      ensures vertices == []
    {
      vertices := [];
    }

    /** `init(vertices:)`: stores exactly the given list. */
    constructor FromVertices(vertices: seq<P>)
      ensures this.vertices == vertices
    {
      this.vertices := vertices;
    }

    /** `init(generator:values:)`: vertex i is the generator applied to value i. */
    constructor FromGenerator<V>(generator: V -> P, values: seq<V>)
      ensures |vertices| == |values|
      ensures forall i :: 0 <= i < |values| ==> vertices[i] == generator(values[i])
    {
      vertices := Map(generator, values);
    }

    /**
     `add(vertex:)`: appends. Every earlier vertex stays where it was, the new
     vertex becomes the last one and closes the new last segment.
     */
    method Add(vertex: P)
      modifies this
      ensures vertices == old(vertices) + [vertex]
      ensures |vertices| == |old(vertices)| + 1
      ensures old(vertices) != [] ==>
        LastSegment() == Some((old(vertices)[|old(vertices)| - 1], vertex))
      ensures old(vertices) != [] ==>
        Segments() == old(Segments()) + [(old(vertices)[|old(vertices)| - 1], vertex)]
    {
      ghost var before := vertices;
      vertices := vertices + [vertex];
      if before != [] {
        ghost var was := Zip(before, before[1..]);
        assert forall i :: 0 <= i < |was| ==> Segments()[i] == was[i];
      }
    }

    /**
     `removeLast()`: drops the last vertex. Swift's `Array.removeLast` traps on
     an empty array, so the stroke must have a vertex.
     */
    method RemoveLast()
      requires vertices != []
      modifies this
      ensures vertices == old(vertices)[..|old(vertices)| - 1]
      ensures vertices + [old(vertices)[|old(vertices)| - 1]] == old(vertices)
    {
      vertices := vertices[..|vertices| - 1];
    }

    /**
     `lastSegment()`: the last two vertices, or `None` when there are fewer
     than two; it is the last of the `Segments()`.
     */
    function LastSegment(): (r: Option<(P, P)>)
      reads this
      ensures r.Some? <==> |vertices| >= 2
      ensures r.Some? ==> r.value == (vertices[|vertices| - 2], vertices[|vertices| - 1])
      ensures r.Some? ==> r.value == Segments()[|Segments()| - 1]
    {
      if |vertices| >= 2 then
        Some((vertices[|vertices| - 2], vertices[|vertices| - 1]))
      else
        None
    }

    /**
     `segments()`: `zip(vertices[...], vertices[1...])`. Slicing from index 1
     traps on an empty array, so at least one vertex is needed; n vertices give
     the n - 1 consecutive pairs in order.
     */
    function Segments(): (r: seq<(P, P)>)
      reads this
      requires vertices != []
      ensures |r| == |vertices| - 1
      ensures forall i :: 0 <= i < |r| ==> r[i] == (vertices[i], vertices[i + 1])
    {
      Zip(vertices, vertices[1..])
    }

    /**
     The segments determine the stroke: their starts followed by the last
     vertex, or the first vertex followed by their ends, give the list back.
     */
    lemma SegmentsDetermineVertices()
      requires vertices != []
      ensures Firsts(Segments()) + [vertices[|vertices| - 1]] == vertices
      ensures [vertices[0]] + Seconds(Segments()) == vertices
    {
      var n := |vertices|;
      var tail := vertices[1..];
      UnzipZip(vertices, tail);
      assert Min(n, n - 1) == n - 1;
      assert tail[..n - 1] == tail;
      assert vertices[..n - 1] + [vertices[n - 1]] == vertices;
      assert [vertices[0]] + tail == vertices;
    }
  }
}
