/** `makeCircle` (src/utils.cpp:4-12): `segments` points sampled on a
    circle, starting at angle 0 and stepping by 2π / segments, all in the
    plane z = 0. Cosine and sine are not modelled: they are parameters, so
    every statement here holds for whatever functions the platform
    provides. */
module Circle {
  import opened Geometry

  /** The value of M_PI. */
  const Pi: real := 3.14159265358979323846

  /** The angle of sample `i` of `segments`: the samples start at angle 0
      and are spaced by 2π / segments. */
  function SampleAngle(i: int, segments: int): (theta: real)
    requires segments > 0
    ensures i == 0 ==> theta == 0.0
    ensures segments as real * theta == 2.0 * Pi * i as real
  {
    2.0 * Pi * i as real / segments as real
  }

  /** Sample `i` of a circle of radius `r` around (cx, cy). */
  function CirclePoint(cx: real, cy: real, r: real, i: int, segments: int, cos: real -> real, sin: real -> real): (p: Vertex)
    requires segments > 0
    ensures p.z == 0.0
    ensures p.x - cx == r * cos(SampleAngle(i, segments)) && p.y - cy == r * sin(SampleAngle(i, segments))
  {
    var theta := SampleAngle(i, segments);
    Vertex(cx + r * cos(theta), cy + r * sin(theta), 0.0)
  }

  /** Builds the samples in order; a non-positive count gives none. */
  method MakeCircle(cx: real, cy: real, r: real, segments: int, cos: real -> real, sin: real -> real)
    returns (pts: seq<Vertex>)
    ensures |pts| == if segments > 0 then segments else 0
    ensures forall i :: 0 <= i < |pts| ==> pts[i] == CirclePoint(cx, cy, r, i, segments, cos, sin)
    ensures forall i :: 0 <= i < |pts| ==> pts[i].z == 0.0
  {
    pts := [];
    var i := 0;
    while i < segments
      invariant 0 <= i <= (if segments > 0 then segments else 0)
      invariant |pts| == i
      invariant forall k :: 0 <= k < i ==> pts[k] == CirclePoint(cx, cy, r, k, segments, cos, sin)
    {
      var theta := 2.0 * Pi * i as real / segments as real;
      var p := Vertex(cx + r * cos(theta), cy + r * sin(theta), 0.0);
      assert theta == SampleAngle(i, segments);
      ghost var q := CirclePoint(cx, cy, r, i, segments, cos, sin);
      assert p.x == q.x && p.y == q.y && p.z == q.z;
      pts := pts + [p];
      i := i + 1;
    }
  }

  /** With functions obeying cos² + sin² = 1, every sample lies at
      distance |r| from the centre. */
  lemma OnCircle(cx: real, cy: real, r: real, i: int, segments: int, cos: real -> real, sin: real -> real)
    requires segments > 0
    requires forall a :: cos(a) * cos(a) + sin(a) * sin(a) == 1.0
    ensures var p := CirclePoint(cx, cy, r, i, segments, cos, sin);
      (p.x - cx) * (p.x - cx) + (p.y - cy) * (p.y - cy) == r * r
  {
  }
}
