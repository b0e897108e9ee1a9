/** The value types shared by the mesh builder and the OBJ writer
    (`Vertex` and `Face` of include/utils.h), and the two vertex
    operations the extruder is built from: lifting a vertex by the
    extrusion height and the component-wise mean of a ring.

    Coordinates are `real`: the model is about the structure of the mesh,
    not about single-precision rounding. */
module Geometry {

  /** A point in space; a mesh is a flat sequence of these in which every
      consecutive triple is one triangle. */
  datatype Vertex = Vertex(x: real, y: real, z: real)

  /** One OBJ face: three 1-based vertex numbers. */
  datatype Face = Face(a: int, b: int, c: int)

  /** The copy of `v` at the top of an extrusion of height `h`: same x and
      y, z raised by `h`. */
  function Lift(v: Vertex, h: real): (r: Vertex)
    ensures r.x == v.x && r.y == v.y && r.z - v.z == h
  {
    Vertex(v.x, v.y, v.z + h)
  }

  /** Component-wise sum of a ring, accumulated front to back as the
      extruder does: each vertex is added to the running sum, which starts
      at the origin, in turn. */
  function Total(ring: seq<Vertex>): (t: Vertex)
    ensures ring == [] ==> t == Vertex(0.0, 0.0, 0.0)
    ensures |ring| == 1 ==> t == ring[0]
  {
    if ring == [] then Vertex(0.0, 0.0, 0.0)
    else
      var s := Total(ring[..|ring| - 1]);
      var v := ring[|ring| - 1];
      Vertex(s.x + v.x, s.y + v.y, s.z + v.z)
  }

  /** The sum does not depend on the order of accumulation: it is also the
      first vertex plus the sum of the rest. */
  lemma {:induction false} TotalFromFront(ring: seq<Vertex>)
    requires ring != []
    ensures var rest := Total(ring[1..]);
      Total(ring) == Vertex(ring[0].x + rest.x, ring[0].y + rest.y, ring[0].z + rest.z)
  {
    if |ring| > 1 {
      var front := ring[..|ring| - 1];
      TotalFromFront(front);
      assert front[1..] == ring[1..][..|ring[1..]| - 1];
    }
  }

  /** The centroid used as the hub of the cap fans: the component-wise
      mean of the ring's vertices. */
  function Centroid(ring: seq<Vertex>): (c: Vertex)
    requires |ring| > 0
    ensures |ring| as real * c.x == Total(ring).x
    ensures |ring| as real * c.y == Total(ring).y
    ensures |ring| as real * c.z == Total(ring).z
  {
    var s := Total(ring);
    var n := |ring| as real;
    Vertex(s.x / n, s.y / n, s.z / n)
  }

  /** Lifting every vertex of a ring by `h` adds `|ring| * h` to the z sum
      and leaves the x and y sums alone. */
  lemma {:induction false} TotalOfLifted(ring: seq<Vertex>, lifted: seq<Vertex>, h: real)
    requires |lifted| == |ring|
    requires forall i :: 0 <= i < |ring| ==> lifted[i] == Lift(ring[i], h)
    ensures Total(lifted) == Vertex(Total(ring).x, Total(ring).y, Total(ring).z + |ring| as real * h)
  {
    if ring != [] {
      var k := |ring| - 1;
      TotalOfLifted(ring[..k], lifted[..k], h);
    }
  }

  /** The centroid of a lifted ring is the lifted centroid. */
  lemma CentroidOfLifted(ring: seq<Vertex>, lifted: seq<Vertex>, h: real)
    requires |ring| > 0 && |lifted| == |ring|
    requires forall i :: 0 <= i < |ring| ==> lifted[i] == Lift(ring[i], h)
    ensures Centroid(lifted) == Lift(Centroid(ring), h)
  {
    TotalOfLifted(ring, lifted, h);
    var n := |ring| as real;
    var s := Total(ring);
    assert (s.z + n * h) / n == s.z / n + h;
  }

  /** A ring lying in the plane z = z0 has its centroid in that plane, so
      the bottom fan of a flat outline is flat. */
  lemma {:induction false} CentroidInPlane(ring: seq<Vertex>, z0: real)
    requires |ring| > 0
    requires forall i :: 0 <= i < |ring| ==> ring[i].z == z0
    ensures Centroid(ring).z == z0
  {
    TotalZInPlane(ring, z0);
  }

  /** The z sum of a ring lying at z = z0 is n times z0. */
  lemma {:induction false} TotalZInPlane(ring: seq<Vertex>, z0: real)
    requires forall i :: 0 <= i < |ring| ==> ring[i].z == z0
    ensures Total(ring).z == |ring| as real * z0
  {
    if ring != [] {
      TotalZInPlane(ring[..|ring| - 1], z0);
    }
  }
}
