/**
 * TinyOBJLoader.cpp: builds a scene of one mesh per OBJ shape and a fixed
 * camera. The OBJ reader is abstracted: its parse result is an input.
 */
module TinyOBJLoader {
  import opened Wrappers
  import opened Vector3
  import opened Materials
  import opened Image
  import Mesh
  import Camera
  import Scene

  /** A shape: the vertex_index of each of its index entries, in order. */
  datatype Shape = Shape(vertexIndices: seq<int>)

  /** What the reader delivers: the shapes and the flat x, y, z vertex array. */
  datatype ObjFile = ObjFile(shapes: seq<Shape>, vertices: seq<real>)

  /** The red diffuse material (roughness 0.3) every loaded mesh gets. */
  const MeshMaterial: Material := Material(1.0, 0.0, 0.0, 1.0, 0.3)

  const CameraPosition: Vector3<real> := Vector3(-5.0, 5.0, 5.0)
  const CameraForward: Vector3<real> := Vector3(1.0, -1.0, -1.0)

  /** Every vertex_index names a whole x, y, z triple of the vertex array. */
  predicate Readable(indices: seq<int>, vertices: seq<real>)
  {
    forall k :: 0 <= k < |indices| ==> 0 <= indices[k] && 3 * indices[k] + 2 < |vertices|
  }

  /** One vertex per index entry, read from v[3i], v[3i+1], v[3i+2]. */
  function ShapeVertices(indices: seq<int>, vertices: seq<real>): (r: seq<Vector3<real>>)
    requires Readable(indices, vertices)
    ensures |r| == |indices|
  {
    seq(|indices|, k requires 0 <= k < |indices| && Readable(indices, vertices) =>
      Vector3(vertices[3 * indices[k]], vertices[3 * indices[k] + 1], vertices[3 * indices[k] + 2]))
  }

  /** The face triples for n vertices: (3i, 3i+1, 3i+2) for i < n / 3. */
  function FaceTriples(n: nat): (r: seq<Vector3<nat>>)
    ensures |r| == n / 3
  {
    seq(n / 3, i requires 0 <= i => Vector3(3 * i, 3 * i + 1, 3 * i + 2))
  }

  /** Every generated index is below n, so the Mesh check never throws for a loaded shape. */
  lemma FaceTriplesPassMeshCheck(n: nat)
    ensures forall k :: 0 <= k < |FaceTriples(n)| ==> !Mesh.Rejected(FaceTriples(n)[k], n)
    ensures forall k :: 0 <= k < |FaceTriples(n)| ==> !Mesh.RejectedAsWritten(FaceTriples(n)[k], n)
  {
    forall k | 0 <= k < |FaceTriples(n)|
      ensures !Mesh.Rejected(FaceTriples(n)[k], n)
    {
      assert k < n / 3;
      assert 3 * k + 2 < n;
    }
  }

  /** The last n mod 3 vertices belong to no face. */
  lemma TrailingVerticesUnreferenced(n: nat, j: nat)
    requires n - n % 3 <= j < n
    ensures forall k :: 0 <= k < |FaceTriples(n)| ==>
      FaceTriples(n)[k].X != j && FaceTriples(n)[k].Y != j && FaceTriples(n)[k].Z != j
  {
    forall k | 0 <= k < |FaceTriples(n)|
      ensures FaceTriples(n)[k].X != j && FaceTriples(n)[k].Y != j && FaceTriples(n)[k].Z != j
    {
      assert 3 * k + 2 < n - n % 3;
    }
  }

  /** The mesh a shape becomes. */
  ghost predicate LoadedMesh(m: Mesh.Mesh, shape: Shape, vertices: seq<real>)
    requires Readable(shape.vertexIndices, vertices)
  {
    var meshVertices := ShapeVertices(shape.vertexIndices, vertices);
    && m.material == MeshMaterial
    && m.vertexData == meshVertices
    && m.vertexIndices == FaceTriples(|meshVertices|)
    && |m.faces| == |m.vertexIndices|
    && (forall k :: 0 <= k < |m.faces| ==> m.faces[k] == Mesh.FaceOf(meshVertices, m.vertexIndices[k]))
  }

  /**
   * CreateSceneFromOBJFile: false and nothing built when parsing failed;
   * otherwise true, the fixed camera, and a scene holding one mesh per shape
   * in shape order. `normalize` and `cross` are the camera's float operations.
   */
  method CreateSceneFromOBJFile(parsed: Option<ObjFile>, resolution: ImageResolution,
                                normalize: Vector3<real> -> Vector3<real>,
                                cross: (Vector3<real>, Vector3<real>) -> Vector3<real>)
    returns (ok: bool, camera: Camera.Camera?, scene: Scene.Scene?)
    requires parsed.Some? ==> forall s :: s in parsed.value.shapes ==> Readable(s.vertexIndices, parsed.value.vertices)
    ensures ok <==> parsed.Some?
    ensures !ok ==> camera == null && scene == null
    ensures ok ==> camera != null && scene != null
    ensures ok ==> camera.resolution == resolution && camera.position == CameraPosition
    ensures ok ==> camera.forwardVector == normalize(CameraForward)
    ensures ok ==> camera.focalLengthMM == 50.0 && camera.sensorWidthMM == 18.0
    ensures ok ==> scene.materials == [] && |scene.objects| == |parsed.value.shapes|
    ensures ok ==> forall k :: 0 <= k < |scene.objects| ==>
      scene.objects[k].MeshObject? &&
      LoadedMesh(scene.objects[k].mesh, parsed.value.shapes[k], parsed.value.vertices)
  {
    if parsed.None? {
      return false, null, null;
    }
    var obj := parsed.value;
    var meshes: seq<Mesh.Mesh> := [];
    var s := 0;
    while s < |obj.shapes|
      invariant 0 <= s <= |obj.shapes|
      invariant |meshes| == s
      invariant forall k :: 0 <= k < s ==> LoadedMesh(meshes[k], obj.shapes[k], obj.vertices)
    {
      var indices := obj.shapes[s].vertexIndices;
      assert obj.shapes[s] in obj.shapes;
      var meshVertices: seq<Vector3<real>> := [];
      var k := 0;
      while k < |indices|
        invariant 0 <= k <= |indices|
        invariant meshVertices == ShapeVertices(indices, obj.vertices)[..k]
      {
        var i := indices[k];
        meshVertices := meshVertices + [Vector3(obj.vertices[3 * i], obj.vertices[3 * i + 1], obj.vertices[3 * i + 2])];
        k := k + 1;
      }
      assert meshVertices == ShapeVertices(indices, obj.vertices);
      var triples: seq<Vector3<nat>> := [];
      var i := 0;
      while i < |meshVertices| / 3
        invariant 0 <= i <= |meshVertices| / 3
        invariant triples == FaceTriples(|meshVertices|)[..i]
      {
        triples := triples + [Vector3(3 * i, 3 * i + 1, 3 * i + 2)];
        i := i + 1;
      }
      assert triples == FaceTriples(|meshVertices|);
      FaceTriplesPassMeshCheck(|meshVertices|);
      var created := Mesh.Mesh.Create(MeshMaterial, meshVertices, triples);
      var mesh := created.value;
      meshes := meshes + [mesh];
      s := s + 1;
    }

    camera := new Camera.Camera(resolution, CameraPosition, CameraForward, 50.0, 18.0, normalize, cross);

    scene := new Scene.Scene();
    var m := 0;
    while m < |meshes|
      invariant 0 <= m <= |meshes|
      invariant scene.materials == []
      invariant scene.objects == seq(m, j requires 0 <= j < m => Scene.MeshObject(meshes[j]))
    {
      scene.AddObject(Scene.MeshObject(meshes[m]));
      m := m + 1;
    }
    ok := true;
  }
}
