/**
 * The Scene Tracker panel's counts: the number of scene objects and the
 * vertex and polygon totals over the mesh objects, gathered by one pass
 * over `scene.objects` that changes nothing.
 */
module SceneTracker {
  import opened SceneData

  /** What one object adds to the vertex total: its vertex count if it is a mesh. */
  function VertexShare(o: ObjectRecord): nat {
    if o.kind == Mesh then o.vertexCount else 0
  }

  /** What one object adds to the polygon total: its polygon count if it is a mesh. */
  function PolygonShare(o: ObjectRecord): nat {
    if o.kind == Mesh then o.polygonCount else 0
  }

  /** The sum of the vertex counts of the mesh objects. */
  function MeshVertexTotal(objects: seq<ObjectRecord>): nat {
    if objects == [] then 0
    else MeshVertexTotal(objects[..|objects| - 1]) + VertexShare(objects[|objects| - 1])
  }

  /** The sum of the polygon counts of the mesh objects. */
  function MeshPolygonTotal(objects: seq<ObjectRecord>): nat {
    if objects == [] then 0
    else MeshPolygonTotal(objects[..|objects| - 1]) + PolygonShare(objects[|objects| - 1])
  }

  /** The totals of a scene split in two are the sums of the totals of the parts. */
  lemma {:induction false} TotalsOfConcat(a: seq<ObjectRecord>, b: seq<ObjectRecord>)
    ensures MeshVertexTotal(a + b) == MeshVertexTotal(a) + MeshVertexTotal(b)
    ensures MeshPolygonTotal(a + b) == MeshPolygonTotal(a) + MeshPolygonTotal(b)
  {
    if b != [] {
      var n := |b| - 1;
      TotalsOfConcat(a, b[..n]);
      assert (a + b)[..|a + b| - 1] == a + b[..n];
    } else {
      assert a + b == a;
    }
  }

  /**
   * Adding one object anywhere in the scene raises the object count by one,
   * and the vertex and polygon totals by its counts if it is a mesh and by
   * nothing otherwise.
   */
  lemma AddObject(a: seq<ObjectRecord>, o: ObjectRecord, b: seq<ObjectRecord>)
    ensures |a + [o] + b| == |a + b| + 1
    ensures MeshVertexTotal(a + [o] + b)
         == MeshVertexTotal(a + b) + (if o.kind == Mesh then o.vertexCount else 0)
    ensures MeshPolygonTotal(a + [o] + b)
         == MeshPolygonTotal(a + b) + (if o.kind == Mesh then o.polygonCount else 0)
  {
    TotalsOfConcat(a + [o], b);
    TotalsOfConcat(a, [o]);
    TotalsOfConcat(a, b);
    assert MeshVertexTotal([o]) == VertexShare(o);
    assert MeshPolygonTotal([o]) == PolygonShare(o);
  }

  /** A scene without meshes has vertex and polygon totals of zero. */
  lemma {:induction false} NoMeshNoGeometry(objects: seq<ObjectRecord>)
    requires forall i :: 0 <= i < |objects| ==> objects[i].kind != Mesh
    ensures MeshVertexTotal(objects) == 0 && MeshPolygonTotal(objects) == 0
  {
    if objects != [] {
      NoMeshNoGeometry(objects[..|objects| - 1]);
    }
  }

  /**
   * The totals ignore visibility: two scenes that differ only in their
   * visibility flags report the same counts (hidden objects are counted).
   */
  lemma {:induction false} TotalsIgnoreVisibility(a: seq<ObjectRecord>, b: seq<ObjectRecord>)
    requires SameExceptVisibility(a, b)
    ensures MeshVertexTotal(a) == MeshVertexTotal(b)
    ensures MeshPolygonTotal(a) == MeshPolygonTotal(b)
  {
    if a != [] {
      var n := |a| - 1;
      TotalsIgnoreVisibility(a[..n], b[..n]);
    }
  }

  /** The counting part of `ST_PT_Panel.draw`. */
  method SceneStatistics(scene: Scene) returns (totalObjects: nat, totalVerts: nat, totalFaces: nat)
    ensures totalObjects == |scene.objects|
    ensures totalVerts == MeshVertexTotal(scene.objects)
    ensures totalFaces == MeshPolygonTotal(scene.objects)
    ensures scene.objects == [] ==> totalObjects == 0 && totalVerts == 0 && totalFaces == 0
  {
    var objects := scene.objects;
    totalObjects := |objects|;
    totalVerts, totalFaces := 0, 0;
    for i := 0 to |objects|
      invariant totalVerts == MeshVertexTotal(objects[..i])
      invariant totalFaces == MeshPolygonTotal(objects[..i])
    {
      assert objects[..i + 1][..i] == objects[..i];
      var o := objects[i];
      if o.kind == Mesh {
        totalVerts := totalVerts + o.vertexCount;
        totalFaces := totalFaces + o.polygonCount;
      }
    }
    assert objects[..|objects|] == objects;
  }
}
