/**
 * Mesh.h: a triangle mesh built from a vertex list and index triples, one
 * face per triple, and the closest-face selection of IntersectsRay.
 */
module Mesh {
  import opened Wrappers
  import opened Vector3
  import opened Materials
  import opened ClosestHit

  /** A MeshTriangleFace: its three corner positions. */
  datatype Face = Face(vertex1: Vector3<real>, vertex2: Vector3<real>, vertex3: Vector3<real>)

  /** The triple test as Mesh.h writes it: X by >=, but Y and Z only by ==. */
  predicate RejectedAsWritten(t: Vector3<nat>, vertexCount: nat)
  {
    t.X >= vertexCount || t.Y == vertexCount || t.Z == vertexCount
  }

  /** The intended test: any index at or beyond the vertex count is rejected. */
  predicate Rejected(t: Vector3<nat>, vertexCount: nat)
  {
    t.X >= vertexCount || t.Y >= vertexCount || t.Z >= vertexCount
  }

  /** The written test lets through a triple whose Y index lies past the end. */
  lemma RejectedAsWrittenAdmitsOutOfBounds()
    ensures !RejectedAsWritten(Vector3(0, 2, 0), 1) && Rejected(Vector3(0, 2, 0), 1)
  {
  }

  /** The two tests differ exactly on triples with Y or Z strictly past the end. */
  lemma RejectionTestsCompared(t: Vector3<nat>, vertexCount: nat)
    ensures Rejected(t, vertexCount) <==> RejectedAsWritten(t, vertexCount) || t.Y > vertexCount || t.Z > vertexCount
    ensures !Rejected(t, vertexCount) ==> !RejectedAsWritten(t, vertexCount)
  {
  }

  /** The face a triple that passes the intended test reads from the vertices. */
  function FaceOf(vertices: seq<Vector3<real>>, t: Vector3<nat>): Face
    requires !Rejected(t, |vertices|)
  {
    Face(vertices[t.X], vertices[t.Y], vertices[t.Z])
  }

  class Mesh {
    const material: Material
    const vertexData: seq<Vector3<real>>
    const vertexIndices: seq<Vector3<nat>>
    const faces: seq<Face>

    constructor (material: Material, vertices: seq<Vector3<real>>, indices: seq<Vector3<nat>>, faces: seq<Face>)
      ensures this.material == material && vertexData == vertices && vertexIndices == indices && this.faces == faces
    {
      this.material := material;
      vertexData := vertices;
      vertexIndices := indices;
      this.faces := faces;
    }

    /**
     * The Mesh constructor: walks the triples in order, failing on the first
     * one out of range, and otherwise builds one face per triple.
     */
    static method Create(material: Material, vertices: seq<Vector3<real>>, indices: seq<Vector3<nat>>)
      returns (r: Result<Mesh, string>)
      ensures r.Ok? <==> forall k :: 0 <= k < |indices| ==> !Rejected(indices[k], |vertices|)
      ensures r.Ok? ==> r.value.material == material
      ensures r.Ok? ==> r.value.vertexData == vertices && r.value.vertexIndices == indices
      ensures r.Ok? ==> |r.value.faces| == |indices|
      ensures r.Ok? ==> forall k :: 0 <= k < |indices| ==> r.value.faces[k] == FaceOf(vertices, indices[k])
    {
      var faces: seq<Face> := [];
      var k := 0;
      while k < |indices|
        invariant 0 <= k <= |indices|
        invariant forall j :: 0 <= j < k ==> !Rejected(indices[j], |vertices|)
        invariant |faces| == k
        invariant forall j :: 0 <= j < k ==> faces[j] == FaceOf(vertices, indices[j])
      {
        var t := indices[k];
        if t.X >= |vertices| || t.Y >= |vertices| || t.Z >= |vertices| {
          return Err("Face vertex indices are out-of-bounds of provided vertices");
        }
        faces := faces + [Face(vertices[t.X], vertices[t.Y], vertices[t.Z])];
        k := k + 1;
      }
      var mesh := new Mesh(material, vertices, indices, faces);
      return Ok(mesh);
    }

    /** The depth at which each face is hit by the ray, as `hit` reports it. */
    function FaceDepths(hit: Face -> Option<real>): seq<Option<real>>
    {
      seq(|faces|, k requires 0 <= k < |faces| => hit(faces[k]))
    }

    /**
     * IntersectsRay with the face test as the oracle `hit`: answers whether
     * some face is hit, and which face's intersection is reported. The
     * default-constructed starting intersection is taken to be infinitely
     * deep (finalDepth None).
     */
    method IntersectsRay(hit: Face -> Option<real>) returns (found: bool, best: Option<nat>)
      ensures found <==> exists k :: 0 <= k < |faces| && hit(faces[k]).Some?
      ensures best == Closest(FaceDepths(hit))
      ensures found ==> best.Some? && IsEarliestMinimum(FaceDepths(hit), best.value)
      ensures !found ==> best.None?
    {
      var depths := FaceDepths(hit);
      found := false;
      best := None;
      var finalDepth: Option<real> := None;
      var k := 0;
      while k < |faces|
        invariant 0 <= k <= |faces|
        invariant best == Closest(depths[..k])
        invariant found <==> best.Some?
        invariant finalDepth == if best.Some? then depths[best.value] else None
      {
        ClosestStep(depths, k);
        var temp := hit(faces[k]);
        if temp.Some? && (finalDepth.None? || temp.value < finalDepth.value) {
          found := true;
          finalDepth := temp;
          best := Some(k);
        }
        k := k + 1;
      }
      assert depths[..k] == depths;
      if found {
        assert hit(faces[best.value]) == depths[best.value];
      } else {
        assert forall j :: 0 <= j < |faces| ==> hit(faces[j]) == depths[j];
      }
    }
  }
}
