/** The prism mesh builder `generateExtrudedMesh` (src/utils.cpp:15-74).

    Given a ring of bottom vertices b[0..n) and a height h it returns a
    flat triangle list: first the side walls, two triangles per edge
    i -> (i+1) % n, then the two cap fans around the ring's centroid, one
    bottom and one top triangle per edge. A ring of fewer than three
    vertices yields no triangles.

    The layout is specified by the functions below; the imperative
    `GenerateExtrudedMesh` is proved to build exactly `ExtrudedMesh`, and
    the lemmas state what that layout means. */
module Extrusion {
  import opened Geometry

  /** The successor of vertex `i` around a ring of `n` vertices: the next
      index, except that the last vertex wraps to vertex 0. */
  function Next(i: nat, n: nat): (r: nat)
    requires i < n
    ensures r < n
    ensures r == (if i == n - 1 then 0 else i + 1)
  {
    (i + 1) % n
  }

  /** The top ring, built vertex by vertex as the source does. */
  function TopRing(bottom: seq<Vertex>, h: real): (top: seq<Vertex>)
    ensures |top| == |bottom|
    ensures forall i :: 0 <= i < |bottom| ==> top[i] == Lift(bottom[i], h)
  {
    if bottom == [] then []
    else TopRing(bottom[..|bottom| - 1], h) + [Lift(bottom[|bottom| - 1], h)]
  }

  /** The six vertices of the wall quad over edge i: triangle
      (b[i], t[i], t[next]) and triangle (b[i], t[next], b[next]). */
  function WallQuad(bottom: seq<Vertex>, top: seq<Vertex>, i: nat): (q: seq<Vertex>)
    requires |top| == |bottom| && i < |bottom|
    ensures |q| == 6
    ensures q[0] == bottom[i] && q[1] == top[i] && q[5] == bottom[Next(i, |bottom|)]
    // the two triangles share the diagonal from b[i] to t[next]
    ensures q[3] == q[0] && q[4] == q[2] && q[2] == top[Next(i, |bottom|)]
  {
    var next := Next(i, |bottom|);
    [bottom[i], top[i], top[next], bottom[i], top[next], bottom[next]]
  }

  /** The walls of the first `k` edges, in edge order. */
  function SideWalls(bottom: seq<Vertex>, top: seq<Vertex>, k: nat): (r: seq<Vertex>)
    requires |top| == |bottom| && k <= |bottom|
    ensures |r| == 6 * k
  {
    if k == 0 then [] else SideWalls(bottom, top, k - 1) + WallQuad(bottom, top, k - 1)
  }

  /** The two cap triangles of edge i: the bottom one (b[i], b[next], cB)
      and the top one (t[i], cT, t[next]). */
  function CapPair(bottom: seq<Vertex>, top: seq<Vertex>, centerB: Vertex, centerT: Vertex, i: nat): (p: seq<Vertex>)
    requires |top| == |bottom| && i < |bottom|
    ensures |p| == 6
    // each triangle has its fan's hub, the bottom one last and the top one in the middle
    ensures p[2] == centerB && p[4] == centerT
    // the bottom triangle runs along the rim from b[i] to b[next]; the top one
    // runs along the top rim in the opposite direction, from t[next] back to t[i]
    ensures p[0] == bottom[i] && p[1] == bottom[Next(i, |bottom|)]
    ensures p[5] == top[Next(i, |bottom|)] && p[3] == top[i]
  {
    var next := Next(i, |bottom|);
    [bottom[i], bottom[next], centerB, top[i], centerT, top[next]]
  }

  /** The cap triangles of the first `k` edges, in edge order. */
  function CapFans(bottom: seq<Vertex>, top: seq<Vertex>, centerB: Vertex, centerT: Vertex, k: nat): (r: seq<Vertex>)
    requires |top| == |bottom| && k <= |bottom|
    ensures |r| == 6 * k
  {
    if k == 0 then [] else CapFans(bottom, top, centerB, centerT, k - 1) + CapPair(bottom, top, centerB, centerT, k - 1)
  }

  /** The whole mesh of an extrusion of `bottom` by `h`. */
  function ExtrudedMesh(bottom: seq<Vertex>, h: real): (mesh: seq<Vertex>)
    ensures |bottom| < 3 ==> mesh == []
    ensures |bottom| >= 3 ==> |mesh| == 12 * |bottom|
    ensures |mesh| % 3 == 0 && |mesh| / 3 == (if |bottom| < 3 then 0 else 4 * |bottom|)
  {
    if |bottom| < 3 then []
    else
      var top := TopRing(bottom, h);
      var centerB := Centroid(bottom);
      SideWalls(bottom, top, |bottom|) + CapFans(bottom, top, centerB, Lift(centerB, h), |bottom|)
  }

  /** Builds the extruded mesh the way the source does: nothing for fewer
      than three vertices; otherwise the top ring, the side walls, the two
      centres and the cap fans, each produced by one of the loops below in
      the source's order. The input sequence is a value and cannot be
      changed. */
  method GenerateExtrudedMesh(bottomVerts: seq<Vertex>, height: real) returns (vertices: seq<Vertex>)
    ensures vertices == ExtrudedMesh(bottomVerts, height)
    ensures |bottomVerts| < 3 ==> vertices == []
    ensures |bottomVerts| >= 3 ==> |vertices| == 12 * |bottomVerts|
  {
    vertices := [];
    var n := |bottomVerts|;
    if n < 3 {
      return;
    }
    var topVerts := LiftRing(bottomVerts, height);
    vertices := PushSideWalls(vertices, bottomVerts, topVerts);
    var centerB, centerT := RingCenters(bottomVerts, height);
    vertices := PushCapFans(vertices, bottomVerts, topVerts, centerB, centerT);
  }

  /** The top-ring loop: one lifted copy appended per bottom vertex. */
  method LiftRing(bottomVerts: seq<Vertex>, height: real) returns (topVerts: seq<Vertex>)
    ensures topVerts == TopRing(bottomVerts, height)
  {
    topVerts := [];
    var k := 0;
    while k < |bottomVerts|
      invariant 0 <= k <= |bottomVerts|
      invariant topVerts == TopRing(bottomVerts[..k], height)
    {
      var b := bottomVerts[k];
      assert bottomVerts[..k + 1][..k] == bottomVerts[..k];
      topVerts := topVerts + [Vertex(b.x, b.y, b.z + height)];
      k := k + 1;
    }
    assert bottomVerts[..k] == bottomVerts;
  }

  /** The side-wall loop: for each edge i -> (i+1) % n, appends triangle
      (b0, t0, t1) and triangle (b0, t1, b1). */
  method PushSideWalls(prefix: seq<Vertex>, bottomVerts: seq<Vertex>, topVerts: seq<Vertex>) returns (vertices: seq<Vertex>)
    requires |topVerts| == |bottomVerts|
    ensures vertices == prefix + SideWalls(bottomVerts, topVerts, |bottomVerts|)
  {
    var n := |bottomVerts|;
    vertices := prefix;
    var i := 0;
    while i < n
      invariant 0 <= i <= n
      invariant vertices == prefix + SideWalls(bottomVerts, topVerts, i)
    {
      var next := (i + 1) % n;
      var b0 := bottomVerts[i];
      var b1 := bottomVerts[next];
      var t0 := topVerts[i];
      var t1 := topVerts[next];
      assert WallQuad(bottomVerts, topVerts, i) == [b0, t0, t1] + [b0, t1, b1];
      vertices := vertices + [b0, t0, t1];
      vertices := vertices + [b0, t1, b1];
      i := i + 1;
    }
  }

  /** The centre computation: sums the bottom ring field by field, divides
      by the vertex count, then overwrites the top centre (whose z started
      at the height) with the bottom centre raised by the height. */
  method RingCenters(bottomVerts: seq<Vertex>, height: real) returns (centerB: Vertex, centerT: Vertex)
    requires |bottomVerts| > 0
    ensures centerB == Centroid(bottomVerts)
    ensures centerT == Lift(centerB, height)
  {
    var n := |bottomVerts|;
    centerB := Vertex(0.0, 0.0, 0.0);
    centerT := Vertex(0.0, 0.0, height);
    var i := 0;
    while i < n
      invariant 0 <= i <= n
      invariant centerB == Total(bottomVerts[..i])
    {
      var v := bottomVerts[i];
      assert bottomVerts[..i + 1][..i] == bottomVerts[..i];
      centerB := centerB.(x := centerB.x + v.x);
      centerB := centerB.(y := centerB.y + v.y);
      centerB := centerB.(z := centerB.z + v.z);
      i := i + 1;
    }
    assert bottomVerts[..n] == bottomVerts;
    centerB := centerB.(x := centerB.x / n as real);
    centerB := centerB.(y := centerB.y / n as real);
    centerB := centerB.(z := centerB.z / n as real);
    centerT := centerT.(x := centerB.x);
    centerT := centerT.(y := centerB.y);
    centerT := centerT.(z := centerB.z + height);
  }

  /** The cap loop: for each edge i -> (i+1) % n, appends the bottom
      triangle (b[i], b[next], centerB) and the top triangle
      (t[i], centerT, t[next]). */
  method PushCapFans(prefix: seq<Vertex>, bottomVerts: seq<Vertex>, topVerts: seq<Vertex>, centerB: Vertex, centerT: Vertex)
    returns (vertices: seq<Vertex>)
    requires |topVerts| == |bottomVerts|
    ensures vertices == prefix + CapFans(bottomVerts, topVerts, centerB, centerT, |bottomVerts|)
  {
    var n := |bottomVerts|;
    vertices := prefix;
    var i := 0;
    while i < n
      invariant 0 <= i <= n
      invariant vertices == prefix + CapFans(bottomVerts, topVerts, centerB, centerT, i)
    {
      var next := (i + 1) % n;
      assert CapPair(bottomVerts, topVerts, centerB, centerT, i)
        == [bottomVerts[i], bottomVerts[next], centerB] + [topVerts[i], centerT, topVerts[next]];
      vertices := vertices + [bottomVerts[i], bottomVerts[next], centerB];
      vertices := vertices + [topVerts[i], centerT, topVerts[next]];
      i := i + 1;
    }
  }

  /** Slot `6 * i + j` of the first `k` walls is slot `j` of wall `i`. */
  lemma {:induction false} SideWallsAt(bottom: seq<Vertex>, top: seq<Vertex>, k: nat, i: nat, j: nat)
    requires |top| == |bottom| && i < k <= |bottom| && j < 6
    ensures SideWalls(bottom, top, k)[6 * i + j] == WallQuad(bottom, top, i)[j]
  {
    if i < k - 1 {
      SideWallsAt(bottom, top, k - 1, i, j);
    }
  }

  /** Slot `6 * i + j` of the first `k` cap pairs is slot `j` of pair `i`. */
  lemma {:induction false} CapFansAt(bottom: seq<Vertex>, top: seq<Vertex>, centerB: Vertex, centerT: Vertex, k: nat, i: nat, j: nat)
    requires |top| == |bottom| && i < k <= |bottom| && j < 6
    ensures CapFans(bottom, top, centerB, centerT, k)[6 * i + j] == CapPair(bottom, top, centerB, centerT, i)[j]
  {
    if i < k - 1 {
      CapFansAt(bottom, top, centerB, centerT, k - 1, i, j);
    }
  }

  /** Output slots 6i..6i+5 hold the wall quad of edge i -> (i+1) % n:
      (b[i], t[i], t[next]) then (b[i], t[next], b[next]), where a top
      vertex is its bottom vertex lifted by the height. */
  lemma SideWallLayout(bottom: seq<Vertex>, h: real, i: nat)
    requires |bottom| >= 3 && i < |bottom|
    ensures var mesh, n, next := ExtrudedMesh(bottom, h), |bottom|, (i + 1) % |bottom|;
      mesh[6 * i .. 6 * i + 6] ==
        [bottom[i], Lift(bottom[i], h), Lift(bottom[next], h), bottom[i], Lift(bottom[next], h), bottom[next]]
  {
    var n := |bottom|;
    var top := TopRing(bottom, h);
    var mesh := ExtrudedMesh(bottom, h);
    var walls := SideWalls(bottom, top, n);
    assert mesh[..6 * n] == walls;
    forall j | 0 <= j < 6
      ensures mesh[6 * i + j] == WallQuad(bottom, top, i)[j]
    {
      SideWallsAt(bottom, top, n, i, j);
      assert mesh[6 * i + j] == walls[6 * i + j];
    }
    assert mesh[6 * i .. 6 * i + 6] == WallQuad(bottom, top, i);
  }

  /** The last wall closes the ring: edge n-1 reaches back to vertex 0.
      A corollary of `SideWallLayout` for i = n - 1. */
  lemma LastWallWraps(bottom: seq<Vertex>, h: real)
    requires |bottom| >= 3
    ensures var mesh, n := ExtrudedMesh(bottom, h), |bottom|;
      mesh[6 * (n - 1) + 2] == Lift(bottom[0], h) &&
      mesh[6 * (n - 1) + 4] == Lift(bottom[0], h) &&
      mesh[6 * (n - 1) + 5] == bottom[0]
  {
    SideWallLayout(bottom, h, |bottom| - 1);
  }

  /** Output slots 6n+6i..6n+6i+5 hold the cap triangles of edge i:
      the bottom one (b[i], b[next], cB) and the top one (t[i], cT, t[next]),
      where cB is the centroid of the bottom ring and cT is cB lifted. */
  lemma CapLayout(bottom: seq<Vertex>, h: real, i: nat)
    requires |bottom| >= 3 && i < |bottom|
    ensures var mesh, n, next, cB := ExtrudedMesh(bottom, h), |bottom|, (i + 1) % |bottom|, Centroid(bottom);
      mesh[6 * n + 6 * i .. 6 * n + 6 * i + 6] ==
        [bottom[i], bottom[next], cB, Lift(bottom[i], h), Lift(cB, h), Lift(bottom[next], h)]
  {
    var n := |bottom|;
    var top := TopRing(bottom, h);
    var cB := Centroid(bottom);
    var mesh := ExtrudedMesh(bottom, h);
    var caps := CapFans(bottom, top, cB, Lift(cB, h), n);
    assert mesh[6 * n ..] == caps;
    forall j | 0 <= j < 6
      ensures mesh[6 * n + 6 * i + j] == CapPair(bottom, top, cB, Lift(cB, h), i)[j]
    {
      CapFansAt(bottom, top, cB, Lift(cB, h), n, i, j);
      assert mesh[6 * n + 6 * i + j] == caps[6 * i + j];
    }
    assert mesh[6 * n + 6 * i .. 6 * n + 6 * i + 6] == CapPair(bottom, top, cB, Lift(cB, h), i);
  }

  /** The top centre is the centroid of the top ring, so the two fans have
      matching hubs. */
  lemma TopCenterIsTopCentroid(bottom: seq<Vertex>, h: real)
    requires |bottom| >= 3
    ensures Centroid(TopRing(bottom, h)) == Lift(Centroid(bottom), h)
  {
    CentroidOfLifted(bottom, TopRing(bottom, h), h);
  }

  /** Each top-cap triangle is its bottom-cap triangle lifted by the height
      with its second and third vertices swapped, which reverses the
      winding so that the top face points the other way. */
  lemma TopCapMirrorsBottom(bottom: seq<Vertex>, h: real, i: nat)
    requires |bottom| >= 3 && i < |bottom|
    ensures var mesh, p := ExtrudedMesh(bottom, h), 6 * |bottom| + 6 * i;
      mesh[p + 3] == Lift(mesh[p], h) &&
      mesh[p + 4] == Lift(mesh[p + 2], h) &&
      mesh[p + 5] == Lift(mesh[p + 1], h)
  {
    CapLayout(bottom, h, i);
    var mesh, p := ExtrudedMesh(bottom, h), 6 * |bottom| + 6 * i;
    var pair := mesh[p .. p + 6];
    assert mesh[p] == pair[0] && mesh[p + 1] == pair[1] && mesh[p + 2] == pair[2];
    assert mesh[p + 3] == pair[3] && mesh[p + 4] == pair[4] && mesh[p + 5] == pair[5];
  }

  /** Every output vertex is a bottom vertex, a top vertex, the bottom
      centre or the top centre. */
  lemma MeshVerticesFromRing(bottom: seq<Vertex>, h: real)
    ensures var mesh := ExtrudedMesh(bottom, h);
      forall k :: 0 <= k < |mesh| ==>
        mesh[k] in bottom || mesh[k] in TopRing(bottom, h) ||
        mesh[k] == Centroid(bottom) || mesh[k] == Lift(Centroid(bottom), h)
  {
    var mesh := ExtrudedMesh(bottom, h);
    var top := TopRing(bottom, h);
    var n := |bottom|;
    forall k | 0 <= k < |mesh|
      ensures mesh[k] in bottom || mesh[k] in top ||
              mesh[k] == Centroid(bottom) || mesh[k] == Lift(Centroid(bottom), h)
    {
      var next := (k / 6 % n + 1) % n;
      if k < 6 * n {
        var i := k / 6;
        SideWallLayout(bottom, h, i);
        assert mesh[k] == mesh[6 * i .. 6 * i + 6][k - 6 * i];
        assert top[i] == Lift(bottom[i], h) && top[next] == Lift(bottom[next], h);
      } else {
        var i := (k - 6 * n) / 6;
        CapLayout(bottom, h, i);
        assert mesh[k] == mesh[6 * n + 6 * i .. 6 * n + 6 * i + 6][k - 6 * n - 6 * i];
        assert top[i] == Lift(bottom[i], h) && top[(i + 1) % n] == Lift(bottom[(i + 1) % n], h);
      }
    }
  }
}
