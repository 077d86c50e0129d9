/**
 Round-trip properties of `Polyline`'s operations, stated as small client
 methods: `Add` against `RemoveLast`, the generator constructor against
 `Add`, and the segments of two small concrete strokes. Points are integer
 triples here, standing in for `float3`.
 */
module Strokes {
  import opened Wrappers
  import opened Polylines

  datatype Point3 = Point3(x: int, y: int, z: int)

  /** Adding a vertex and removing the last one gives back the vertices as they were. */
  method AddThenRemoveLast<P>(p: Polyline<P>, x: P)
    modifies p
    ensures p.vertices == old(p.vertices)
  {
    p.Add(x);
    p.RemoveLast();
  }

  /** Removing the last vertex and adding `x` keeps the count and makes `x` the last vertex. */
  method RemoveLastThenAdd<P>(p: Polyline<P>, x: P)
    requires p.vertices != []
    modifies p
    ensures |p.vertices| == |old(p.vertices)|
    ensures p.vertices[..|p.vertices| - 1] == old(p.vertices)[..|old(p.vertices)| - 1]
    ensures p.vertices[|p.vertices| - 1] == x
  {
    p.RemoveLast();
    p.Add(x);
  }

  /** A fresh stroke through (0,0,0), (1,0,0), (2,0,0) has exactly two segments. */
  method StraightStroke() returns (segments: seq<(Point3, Point3)>, last: Option<(Point3, Point3)>)
    ensures segments == [(Point3(0, 0, 0), Point3(1, 0, 0)), (Point3(1, 0, 0), Point3(2, 0, 0))]
    ensures last == Some((Point3(1, 0, 0), Point3(2, 0, 0)))
  {
    var p := new Polyline<Point3>();
    p.Add(Point3(0, 0, 0));
    p.Add(Point3(1, 0, 0));
    p.Add(Point3(2, 0, 0));
    segments := p.Segments();
    last := p.LastSegment();
  }

  /** A one-vertex stroke has no last segment and no segments, and neither traps. */
  method SinglePointStroke(x: Point3) returns (segments: seq<(Point3, Point3)>, last: Option<(Point3, Point3)>)
    ensures segments == [] && last == None
  {
    var p := new Polyline<Point3>();
    p.Add(x);
    segments := p.Segments();
    last := p.LastSegment();
  }

  /**
   Generating a stroke from `values + [v]` gives the same vertices as
   generating it from `values` and then adding the generated point for `v`.
   */
  method GenerateThenAdd<V, P>(generator: V -> P, values: seq<V>, v: V) returns (generated: seq<P>, added: seq<P>)
    ensures generated == added
    ensures |generated| == |values| + 1 && generated[|values|] == generator(v)
  {
    var whole := new Polyline.FromGenerator(generator, values + [v]);
    var grown := new Polyline.FromGenerator(generator, values);
    grown.Add(generator(v));
    generated, added := whole.vertices, grown.vertices;
  }
}
