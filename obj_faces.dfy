/** The face records `exportToOBJ` writes after the vertex records
    (src/utils.cpp:91-92): one face per step of three through the vertex
    list, naming three consecutive vertices by their 1-based numbers.
    The file itself (opening, formatting, console messages) is not part of
    this model; only the sequence of faces written is. */
module ObjFaces {
  import opened Geometry

  /** The faces written for `vertices`, in file order. Face k names
      vertices 3k+1, 3k+2, 3k+3; there are ceil(L / 3) faces for L
      vertices, and all numbers stay within 1..L exactly when L is a
      multiple of three. */
  method FaceRecords(vertices: seq<Vertex>) returns (faces: seq<Face>)
    ensures |faces| == (|vertices| + 2) / 3
    ensures forall k :: 0 <= k < |faces| ==> faces[k] == Face(3 * k + 1, 3 * k + 2, 3 * k + 3)
    ensures (forall k :: 0 <= k < |faces| ==> faces[k].c <= |vertices|) <==> |vertices| % 3 == 0
  {
    faces := [];
    var i := 0;
    while i < |vertices|
      invariant 3 * |faces| == i && i <= |vertices| + 2
      invariant forall k :: 0 <= k < |faces| ==> faces[k] == Face(3 * k + 1, 3 * k + 2, 3 * k + 3)
    {
      faces := faces + [Face(i + 1, i + 2, i + 3)];
      i := i + 3;
    }
    assert |vertices| <= 3 * |faces| < |vertices| + 3;
    if |vertices| % 3 != 0 {
      assert faces[|faces| - 1].c > |vertices|;
    }
  }
}
