/**
 * Scene.h: the objects and materials a render reads, both append-only, and
 * the embedded world. Only sphere objects reach the GPU renderers.
 */
module Scene {
  import opened Vector3
  import opened Materials
  import Mesh

  /** A Sphere: centre, radius and the material index it reports. */
  datatype Sphere = Sphere(position: Vector3<real>, radius: real, materialIndex: int)

  /** An IIntersectable of the scene: a sphere or a mesh. */
  datatype SceneObject = SphereObject(sphere: Sphere) | MeshObject(mesh: Mesh.Mesh)

  /** World.h's fixed sky, ground and ambient colours. */
  datatype EmbeddedWorld = EmbeddedWorld

  class Scene {
    var objects: seq<SceneObject>
    var materials: seq<Material>
    const world: EmbeddedWorld

    /** A new scene has no objects and no materials. */
    constructor ()
      ensures objects == [] && materials == []
    {
      objects := [];
      materials := [];
      world := EmbeddedWorld;
    }

    function Objects(): seq<SceneObject>
      reads this
    {
      objects
    }

    function Materials(): seq<Material>
      reads this
    {
      materials
    }

    function World(): EmbeddedWorld
    {
      world
    }

    /** Appends one obj; the materials are untouched. */
    method AddObject(obj: SceneObject)
      modifies this
      ensures objects == old(objects) + [obj]
      ensures materials == old(materials)
    {
      objects := objects + [obj];
    }

    /** Appends one material; the objects are untouched. */
    method AddMaterial(material: Material)
      modifies this
      ensures materials == old(materials) + [material]
      ensures objects == old(objects)
    {
      materials := materials + [material];
    }
  }

  /** The spheres among the objects, in scene order (the dynamic_cast filter). */
  function SpheresOf(objects: seq<SceneObject>): (spheres: seq<Sphere>)
    ensures |spheres| <= |objects|
    ensures forall s :: s in spheres <==> SphereObject(s) in objects
  {
    if |objects| == 0 then []
    else
      var rest := SpheresOf(objects[1..]);
      assert forall s :: SphereObject(s) in objects <==> SphereObject(s) == objects[0] || SphereObject(s) in objects[1..];
      if objects[0].SphereObject? then [objects[0].sphere] + rest else rest
  }

  /** The filter distributes over concatenation, so it keeps the scene order. */
  lemma {:induction false} SpheresOfAppend(a: seq<SceneObject>, b: seq<SceneObject>)
    ensures SpheresOf(a + b) == SpheresOf(a) + SpheresOf(b)
  {
    if |a| > 0 {
      assert (a + b)[1..] == a[1..] + b;
      SpheresOfAppend(a[1..], b);
    } else {
      assert a + b == b;
    }
  }

  /** Adding a mesh leaves the sphere list alone; adding a sphere appends it. */
  lemma SpheresOfAdd(objects: seq<SceneObject>, obj: SceneObject)
    ensures obj.MeshObject? ==> SpheresOf(objects + [obj]) == SpheresOf(objects)
    ensures obj.SphereObject? ==> SpheresOf(objects + [obj]) == SpheresOf(objects) + [obj.sphere]
  {
    SpheresOfAppend(objects, [obj]);
    assert [obj][1..] == [];
  }
}
