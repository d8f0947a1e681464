/**
 * GPUStructs.h: the records the GPU renderer shares with its compute
 * shaders. Every member is a 4-byte float or uint32_t, so a record's size is
 * four bytes per scalar; the padding members keep each record a multiple of
 * 16 bytes, the alignment of a shader "vec4".
 */
module GPUStructs {
  import opened Wrappers
  import opened Integers
  import opened Vector3
  import Scene

  /** The scalar types the records use; each is four bytes wide. */
  datatype Scalar = Float | UInt32 | Int32

  const SCALAR_SIZE: nat := 4

  /** One member of a record: a scalar or a fixed-size array of count scalars. */
  datatype Member = Member(name: string, scalar: Scalar, count: nat)

  /** sizeof of a record with these members in this order (no member needs padding before it). */
  function SizeOf(layout: seq<Member>): nat
  {
    if |layout| == 0 then 0 else SizeOf(layout[..|layout| - 1]) + SCALAR_SIZE * layout[|layout| - 1].count
  }

  /** Every four-component array member starts on a 16-byte boundary. */
  predicate Vec4Aligned(layout: seq<Member>)
  {
    forall i :: 0 <= i < |layout| && layout[i].count == 4 ==> SizeOf(layout[..i]) % 16 == 0
  }

  const GPURayLayout: seq<Member> := [
    Member("origin", Float, 4),
    Member("direction", Float, 4),
    Member("pixelXIndex", UInt32, 1),
    Member("pixelYIndex", UInt32, 1),
    Member("padding", Float, 2)
  ]

  const GPUIntersectionLayout: seq<Member> := [
    Member("ray_origin", Float, 4),
    Member("ray_direction", Float, 4),
    Member("intersection_location", Float, 4),
    Member("intersection_normal", Float, 4),
    Member("ray_color", Float, 4),
    Member("depth", Float, 1),
    Member("object_id", UInt32, 1),
    Member("face_id", UInt32, 1),
    Member("material_id", UInt32, 1),
    Member("pixelXIndex", UInt32, 1),
    Member("pixelYIndex", UInt32, 1),
    Member("padding", Float, 2)
  ]

  const GPUSphereLayout: seq<Member> := [
    Member("position", Float, 4),
    Member("radius", Float, 1),
    Member("material_index", UInt32, 1),
    Member("padding", Float, 2)
  ]

  /** The size of a record is the sum of its members' sizes, whatever the split. */
  lemma {:induction false} SizeOfAppend(a: seq<Member>, b: seq<Member>)
    ensures SizeOf(a + b) == SizeOf(a) + SizeOf(b)
    decreases |b|
  {
    if |b| == 0 {
      assert a + b == a;
    } else {
      assert (a + b)[..|a + b| - 1] == a + b[..|b| - 1];
      SizeOfAppend(a, b[..|b| - 1]);
    }
  }

  /** GPURay: eight floats, two indices and two padding floats make 48 bytes, three vec4 slots. */
  lemma GPURaySize()
    ensures SizeOf(GPURayLayout) == 48 && SizeOf(GPURayLayout) % 16 == 0
    ensures Vec4Aligned(GPURayLayout)
  {
    var l := GPURayLayout;
    assert SizeOf(l[..0]) == 0;
    assert SizeOf(l[..1]) == 16 by { assert l[..1][..0] == l[..0]; }
    assert SizeOf(l[..2]) == 32 by { assert l[..2][..1] == l[..1]; }
    assert SizeOf(l[..3]) == 36 by { assert l[..3][..2] == l[..2]; }
    assert SizeOf(l[..4]) == 40 by { assert l[..4][..3] == l[..3]; }
    assert SizeOf(l) == 48 by { assert l[..4] == l[..|l| - 1]; }
  }

  /**
   * GPUIntersection: twenty floats, the depth, five uint32 and two padding
   * floats make 112 bytes, seven vec4 slots.
   */
  lemma GPUIntersectionSize()
    ensures SizeOf(GPUIntersectionLayout) == 112 && SizeOf(GPUIntersectionLayout) % 16 == 0
    ensures Vec4Aligned(GPUIntersectionLayout)
  {
    var l := GPUIntersectionLayout;
    IntersectionVectorsSize();
    IntersectionScalarsSize();
    assert l == l[..5] + l[5..];
    SizeOfAppend(l[..5], l[5..]);
    forall i | 0 <= i < |l| && l[i].count == 4 ensures SizeOf(l[..i]) % 16 == 0 {
      assert i < 5;
    }
  }

  /** The five four-float members of GPUIntersection come first, 16 bytes each. */
  lemma IntersectionVectorsSize()
    ensures forall k :: 0 <= k <= 5 ==> SizeOf(GPUIntersectionLayout[..k]) == 16 * k
  {
    var l := GPUIntersectionLayout;
    assert SizeOf(l[..0]) == 0;
    assert SizeOf(l[..1]) == 16 by { assert l[..1][..0] == l[..0]; }
    assert SizeOf(l[..2]) == 32 by { assert l[..2][..1] == l[..1]; }
    assert SizeOf(l[..3]) == 48 by { assert l[..3][..2] == l[..2]; }
    assert SizeOf(l[..4]) == 64 by { assert l[..4][..3] == l[..3]; }
    assert SizeOf(l[..5]) == 80 by { assert l[..5][..4] == l[..4]; }
  }

  /** The scalar members after the five vec4 members of GPUIntersection take 32 bytes. */
  lemma IntersectionScalarsSize()
    ensures SizeOf(GPUIntersectionLayout[5..]) == 32
  {
    var tail := GPUIntersectionLayout[5..];
    assert SizeOf(tail[..0]) == 0;
    assert SizeOf(tail[..1]) == 4 by { assert tail[..1][..0] == tail[..0]; }
    assert SizeOf(tail[..2]) == 8 by { assert tail[..2][..1] == tail[..1]; }
    assert SizeOf(tail[..3]) == 12 by { assert tail[..3][..2] == tail[..2]; }
    assert SizeOf(tail[..4]) == 16 by { assert tail[..4][..3] == tail[..3]; }
    assert SizeOf(tail[..5]) == 20 by { assert tail[..5][..4] == tail[..4]; }
    assert SizeOf(tail[..6]) == 24 by { assert tail[..6][..5] == tail[..5]; }
    assert tail[..6] == tail[..|tail| - 1];
  }

  /** GPUSphere: four position floats, the radius, the material index and two padding floats make 32 bytes. */
  lemma GPUSphereSize()
    ensures SizeOf(GPUSphereLayout) == 32 && SizeOf(GPUSphereLayout) % 16 == 0
    ensures Vec4Aligned(GPUSphereLayout)
  {
    var l := GPUSphereLayout;
    assert SizeOf(l[..0]) == 0;
    assert SizeOf(l[..1]) == 16 by { assert l[..1][..0] == l[..0]; }
    assert SizeOf(l[..2]) == 20 by { assert l[..2][..1] == l[..1]; }
    assert SizeOf(l[..3]) == 24 by { assert l[..3][..2] == l[..2]; }
    assert SizeOf(l) == 32 by { assert l[..3] == l[..|l| - 1]; }
  }

  /** A ray slot the ray-initialisation shader fills. */
  datatype GPURay = GPURay(origin: seq<real>, direction: seq<real>, pixelXIndex: nat, pixelYIndex: nat)

  /** An intersection slot the intersection shader fills. */
  datatype GPUIntersection = GPUIntersection(
    rayOrigin: seq<real>, rayDirection: seq<real>, intersectionLocation: seq<real>,
    intersectionNormal: seq<real>, rayColor: seq<real>, depth: real,
    objectId: nat, faceId: nat, materialId: nat, pixelXIndex: nat, pixelYIndex: nat)

  /** A sphere as the shaders see it; the padding is not part of the value. */
  datatype GPUSphere = GPUSphere(position: seq<real>, radius: real, materialIndex: nat)

  /**
   * GPUSphere(const Sphere &): the centre in the first three position slots
   * and 0 in the fourth, the radius, and the material index converted to
   * uint32_t.
   */
  function FromSphere(sphere: Scene.Sphere): (g: GPUSphere)
    ensures |g.position| == 4 && g.position[3] == 0.0
    ensures g.position[0] == sphere.position.X && g.position[1] == sphere.position.Y && g.position[2] == sphere.position.Z
    ensures g.radius == sphere.radius
    ensures g.materialIndex < UINT32_LIMIT && (g.materialIndex - sphere.materialIndex) % UINT32_LIMIT == 0
  {
    var p := sphere.position;
    GPUSphere([p.X, p.Y, p.Z, 0.0], sphere.radius, ToUInt32(sphere.materialIndex))
  }

  /**
   * GPUSphere(const Sphere *): for a null pointer the constructor returns
   * at once and the members stay unset (None here); otherwise it builds what
   * the reference constructor builds.
   */
  function FromSpherePointer(sphere: Option<Scene.Sphere>): (g: Option<GPUSphere>)
    ensures g.None? <==> sphere.None?
    ensures sphere.Some? ==> g == Some(FromSphere(sphere.value))
  {
    if sphere.None? then None else Some(FromSphere(sphere.value))
  }

  /** The sphere a shader reads back from a GPUSphere. */
  function ShaderSphere(g: GPUSphere): Scene.Sphere
    requires |g.position| >= 3
  {
    Scene.Sphere(Vector3(g.position[0], g.position[1], g.position[2]), g.radius, g.materialIndex)
  }

  /** The conversion loses nothing for a material index that fits in 32 bits. */
  lemma FromSphereRoundTrip(sphere: Scene.Sphere)
    requires 0 <= sphere.materialIndex < UINT32_LIMIT
    ensures ShaderSphere(FromSphere(sphere)) == sphere
  {
  }

  /** A negative material index reaches the shader as a large unsigned one. */
  lemma NegativeMaterialIndexWraps(sphere: Scene.Sphere)
    requires -(UINT32_LIMIT as int) <= sphere.materialIndex < 0
    ensures FromSphere(sphere).materialIndex == sphere.materialIndex + UINT32_LIMIT
  {
  }
}
