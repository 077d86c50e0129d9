# Polyline: the stroke model of an AR drawing app

The app lets a user draw in space: from the moment a finger touches the
screen a new, empty stroke is started, and while the finger stays down the
device's tracked position is polled. The first sample only becomes the
"previous" position; each later sample that is far enough from the previous
one (more than half the line radius) is appended to the current stroke, and a
thin cylinder is drawn between the previous and the new position. Because the
first sample is never appended, the first cylinder has no matching pair among
the stroke's segments. A stroke is
a `Polyline`, an ordered, growable list of 3D points with a pop-last
operation, a "last segment" query and a consecutive-pairs view; the app
itself calls only its empty constructor and `add(vertex:)`.

This project models `Polyline` as a Dafny class `Polylines.Polyline<P>` whose
single field `vertices: seq<P>` is reassigned by `Add` and `RemoveLast`, with
the read-only queries `LastSegment` and `Segments` as functions that read it.
The point type is a type parameter: no operation of the class looks inside a
point. Swift's `zip` and `map`, which `segments()` and
`init(generator:values:)` are built from, are modelled as the recursive
functions `SwiftSequences.Zip` and `SwiftSequences.Map`. The module `Strokes`
states round-trip properties of the class as small client methods (`Add`
against `RemoveLast`, the generator constructor against `Add`) and the
segments of two concrete strokes, with integer triples standing in for
`float3`. Nothing in the app calls `removeLast()`, so these round trips are
properties of the class, not of an undo feature.

Files: `wrappers.dfy` (Option), `swift_sequences.dfy` (zip, map and their
projections), `polyline.dfy` (the class), `strokes.dfy` (clients).

On two inputs Swift traps, and the model makes them preconditions:

- `removeLast()` calls Swift's `Array.removeLast()`, which traps on an empty
  array; it does not report an error value. `RemoveLast` therefore requires a
  non-empty stroke.
- `segments()` slices `vertices[1...]`, which traps on an empty array; a
  one-vertex stroke gives zero segments, an empty one traps. `Segments`
  therefore requires at least one vertex rather than returning an empty view.

`segments()` returns a lazy, re-iterable zip view; the model returns the
sequence of pairs that view yields, which is the same on every traversal.

## Model

| member | source | states |
|---|---|---|
| `Polylines.Polyline.constructor` | Canvas/Canvas/Canvas.swift:21-23 | a new stroke has no vertices |
| `Polylines.Polyline.FromVertices` | Canvas/Canvas/Canvas.swift:25-27 | the stroke holds exactly the given list |
| `Polylines.Polyline.FromGenerator` | Canvas/Canvas/Canvas.swift:29-31 | one vertex per value, vertex i is the generator applied to value i |
| `SwiftSequences.Map` | Canvas/Canvas/Canvas.swift:30 | `map` keeps the length and applies the function to each element in order |
| `Polylines.Polyline.Add` | Canvas/Canvas/Canvas.swift:33-35 | the old vertices are an unchanged prefix, the new vertex is last, the count grows by one; on a non-empty stroke the new last segment ends at the new vertex and the segments grow by exactly that pair |
| `Polylines.Polyline.RemoveLast` | Canvas/Canvas/Canvas.swift:37-39 | requires a vertex (Swift traps on empty); drops exactly the last vertex, and appending it back gives the old list |
| `Polylines.Polyline.LastSegment` | Canvas/Canvas/Canvas.swift:41-47 | present exactly when there are at least two vertices; then it is the last two vertices in order and equals the last element of `Segments()`; otherwise `None` |
| `SwiftSequences.Zip` | Canvas/Canvas/Canvas.swift:50 | `zip` has the shorter input's length and its i-th pair is both inputs' i-th elements |
| `SwiftSequences.UnzipZip` | Canvas/Canvas/Canvas.swift:50 | the first and second components of a zip give back both inputs cut to the shorter length |
| `Polylines.Polyline.Segments` | Canvas/Canvas/Canvas.swift:49-51 | requires a vertex (slicing from 1 traps on empty); n vertices give n - 1 pairs and pair i is (vertex i, vertex i + 1) |
| `Polylines.Polyline.SegmentsDetermineVertices` | Canvas/Canvas/Canvas.swift:49-51 | for every non-empty stroke, the segments' starts followed by the last vertex, and the first vertex followed by the segments' ends, are each the vertex list again |
| `Strokes.AddThenRemoveLast` | Canvas/Canvas/Canvas.swift:33-39 | adding a vertex then removing the last one restores the vertex list |
| `Strokes.RemoveLastThenAdd` | Canvas/Canvas/Canvas.swift:33-39 | on a non-empty stroke, removing the last vertex then adding `x` keeps the count and the prefix and makes `x` last |
| `Strokes.StraightStroke` | Canvas/Canvas/Canvas.swift:21-51 | a fresh stroke through (0,0,0), (1,0,0), (2,0,0) has segments ((0,0,0),(1,0,0)), ((1,0,0),(2,0,0)) and last segment ((1,0,0),(2,0,0)) |
| `Strokes.SinglePointStroke` | Canvas/Canvas/Canvas.swift:41-51 | a one-vertex stroke has no segments and no last segment |
| `Strokes.GenerateThenAdd` | Canvas/Canvas/Canvas.swift:29-35 | generating from `values + [v]` gives the same vertices as generating from `values` and adding the generated point for `v` |

## Left out

- `PolylineGeometry` (`rotation` and `generator`, Canvas/Canvas/Canvas.swift:55-111): floating-point square roots, arc-tangents and quaternions feeding SceneKit cylinder and sphere nodes; floating point and foreign rendering calls are not modelled.
- `debugDescription` (Canvas/Canvas/Canvas.swift:17-19): runtime string reflection with no behaviour to state.
- The `Spline` class (Canvas/Canvas/Canvas.swift:113-120) is commented out in the source, so there is nothing to model.
- Canvas/CanvasTests/CanvasTests.swift exercises a `Canvas` type and a `Point` type that are not part of this model; it says nothing about `Polyline`.
- The view controller's list of strokes, touch handling, device-position polling and distance threshold (AR Pictionary/AR Pictionary/ViewController.swift) are application glue around the AR session and are not part of this model.
- `Polylines.Polyline.FromGenerator`: the generator is modelled as a total function without side effects; a Swift closure that has effects or traps is not captured, and `Float` values are an opaque type parameter.
- Points are opaque values: `float3` component arithmetic and floating-point equality (NaN) are not modelled.
- Reference semantics of `Array` copy-on-write are not modelled: `vertices` is a value sequence, which matches what any Swift client observes.
- The `private(set)` restriction on `vertices` (Canvas/Canvas/Canvas.swift:15) is not enforced: Dafny has no field-level write visibility, so code outside the class may assign `vertices` directly; the model's own clients only read it.
