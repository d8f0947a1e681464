/**
 * GPURendererV2.cpp: the staged GPU renderer. The constructor verifies the
 * debug layers and extensions, picks the first physical device and its best
 * compute queue, sizes one ray and one intersection buffer per 2^20 rays
 * plus one sphere buffer, and maps them all. Render runs the ray
 * initialisation, intersection and material stages over the buffers in
 * order and writes every intersection's colour to its pixel.
 *
 * The vulkan.hpp calls that throw on failure (instance, messenger, device,
 * allocation, buffer creation, binding, mapping) are taken to succeed; what
 * they return is a parameter. The shader stages themselves are recorded as
 * calls, and what they leave in the intersection buffers is a parameter.
 */
module GPURendererV2 {
  import opened Wrappers
  import opened Integers
  import opened Colors
  import opened Vulkan
  import opened VulkanUtils
  import opened GPUStructs
  import Scene
  import Camera
  import Image

  /** RayBufferSize: the number of rays one buffer holds. */
  const RAY_BUFFER_SIZE: nat := 1024 * 1024

  const SIZE_OF_GPU_RAY: nat := 48
  const SIZE_OF_GPU_INTERSECTION: nat := 112
  const SIZE_OF_GPU_SPHERE: nat := 32

  /** The sizes used for the buffers are those of the GPUStructs records. */
  lemma RecordSizesAgree()
    ensures SizeOf(GPURayLayout) == SIZE_OF_GPU_RAY
    ensures SizeOf(GPUIntersectionLayout) == SIZE_OF_GPU_INTERSECTION
    ensures SizeOf(GPUSphereLayout) == SIZE_OF_GPU_SPHERE
  {
    GPURaySize();
    GPUIntersectionSize();
    GPUSphereSize();
  }

  /** total_rays: X·Y·samples in size_t arithmetic. */
  function TotalRays(resolution: Image.ImageResolution, samples: nat): (n: nat)
    ensures n < SIZE_T_LIMIT
  {
    ToSizeT(resolution.X * resolution.Y * samples)
  }

  /** total_buffer_count: the quotient, plus one for a partly filled last buffer. */
  function TotalBufferCount(totalRays: nat): nat
  {
    totalRays / RAY_BUFFER_SIZE + (if totalRays % RAY_BUFFER_SIZE > 0 then 1 else 0)
  }

  /** The buffer count is the ceiling of totalRays / 2^20: enough buffers, and none to spare. */
  lemma BufferCountIsCeiling(totalRays: nat)
    ensures TotalBufferCount(totalRays) * RAY_BUFFER_SIZE >= totalRays
    ensures totalRays > 0 ==> (TotalBufferCount(totalRays) - 1) * RAY_BUFFER_SIZE < totalRays
    ensures totalRays == 0 <==> TotalBufferCount(totalRays) == 0
  {
    var q := totalRays / RAY_BUFFER_SIZE;
    var r := totalRays % RAY_BUFFER_SIZE;
    assert totalRays == q * RAY_BUFFER_SIZE + r;
    if r > 0 {
      assert TotalBufferCount(totalRays) * RAY_BUFFER_SIZE == q * RAY_BUFFER_SIZE + RAY_BUFFER_SIZE;
    }
  }

  /** The bindings the constructor fills: rays, intersections, spheres. */
  datatype GPUBufferBinding = RayBufferBinding | IntersectionBufferBinding | SphereBufferBinding

  const GPU_BUFFER_BINDING_COUNT: nat := 3

  function BindingIndex(b: GPUBufferBinding): (i: nat)
    ensures i < GPU_BUFFER_BINDING_COUNT
  {
    match b
    case RayBufferBinding => 0
    case IntersectionBufferBinding => 1
    case SphereBufferBinding => 2
  }

  /** One binding: the size of each of its buffers and, per buffer, the handles and the mapped pointer. */
  datatype BufferCreationAndMappingData = BufferCreationAndMappingData(
    bufferSize: nat, usage: BufferUsage, descriptorType: DescriptorType,
    buffers: seq<Option<nat>>, deviceMemories: seq<Option<nat>>, dataPointers: seq<Option<nat>>)

  /** The three per-buffer vectors have one entry per buffer. */
  predicate SlotsAligned(e: BufferCreationAndMappingData)
  {
    |e.buffers| == |e.dataPointers| && |e.deviceMemories| == |e.dataPointers|
  }

  /** A binding of `count` storage buffers, none created yet. */
  function StorageBinding(bufferSize: nat, count: nat): (e: BufferCreationAndMappingData)
    ensures SlotsAligned(e) && |e.dataPointers| == count
  {
    BufferCreationAndMappingData(bufferSize, StorageBufferUsage, StorageBuffer,
      seq(count, _ => None), seq(count, _ => None), seq(count, _ => None))
  }

  /**
   * The constructor's table: `count` ray buffers of 48·2^20 bytes, as many
   * intersection buffers of 112·2^20 bytes, and one sphere buffer holding
   * every sphere.
   */
  function BufferTable(count: nat, sphereCount: nat): (table: seq<BufferCreationAndMappingData>)
    ensures |table| == GPU_BUFFER_BINDING_COUNT
    ensures forall b :: 0 <= b < |table| ==> SlotsAligned(table[b])
  {
    [StorageBinding(SIZE_OF_GPU_RAY * RAY_BUFFER_SIZE, count),
     StorageBinding(SIZE_OF_GPU_INTERSECTION * RAY_BUFFER_SIZE, count),
     StorageBinding(ToSizeT(SIZE_OF_GPU_SPHERE * sphereCount), 1)]
  }

  /** The ray and intersection bindings get one buffer per 2^20 rays; the sphere binding exactly one. */
  lemma BufferTableShape(count: nat, sphereCount: nat)
    requires SIZE_OF_GPU_SPHERE * sphereCount < SIZE_T_LIMIT
    ensures var table := BufferTable(count, sphereCount);
      |table[BindingIndex(RayBufferBinding)].dataPointers| == count &&
      |table[BindingIndex(IntersectionBufferBinding)].dataPointers| == count &&
      |table[BindingIndex(SphereBufferBinding)].dataPointers| == 1 &&
      table[BindingIndex(SphereBufferBinding)].bufferSize == SIZE_OF_GPU_SPHERE * sphereCount
  {
  }

  /** What vulkan.hpp returns for one buffer: the allocated memory, the created buffer and the mapped address. */
  datatype Reply = Reply(deviceMemory: nat, buffer: nat, mappedAddress: nat)

  /** The pointer CreateAndMapMemory returns and the handles it leaves in its two out-parameters. */
  datatype Mapped = Mapped(pointer: Option<nat>, buffer: Option<nat>, deviceMemory: Option<nat>)

  /**
   * CreateAndMapMemory: null for a zero size or when no memory type is
   * host-visible, coherent and cached with a heap larger than the request;
   * otherwise the memory is allocated, the buffer created and bound, and the
   * mapped address returned.
   */
  function MapOutcome(properties: MemoryProperties, memorySize: nat, reply: Reply,
                      buffer: Option<nat>, deviceMemory: Option<nat>): (m: Mapped)
    requires WellFormed(properties)
    ensures m.pointer.Some? <==> memorySize > 0 && ChosenMemoryType(properties, memorySize).Some?
  {
    if memorySize == 0 || ChosenMemoryType(properties, memorySize).None? then Mapped(None, buffer, deviceMemory)
    else Mapped(Some(reply.mappedAddress), Some(reply.buffer), Some(reply.deviceMemory))
  }

  /** CreateAndMapMemory, with the memory-type search as a loop. */
  method CreateAndMapMemory(properties: MemoryProperties, memorySize: nat, reply: Reply,
                            buffer: Option<nat>, deviceMemory: Option<nat>) returns (m: Mapped)
    requires WellFormed(properties)
    ensures m == MapOutcome(properties, memorySize, reply, buffer, deviceMemory)
  {
    if memorySize == 0 {
      return Mapped(None, buffer, deviceMemory);
    }
    var memoryTypeIndex := FindMemoryType(properties, memorySize);
    if memoryTypeIndex == VK_MAX_MEMORY_TYPES {
      return Mapped(None, buffer, deviceMemory);
    }
    return Mapped(Some(reply.mappedAddress), Some(reply.buffer), Some(reply.deviceMemory));
  }

  /** Buffer i of binding b, created and mapped with the driver's reply replies(b, i). */
  function MappedSlot(properties: MemoryProperties, e: BufferCreationAndMappingData, b: nat,
                      replies: (nat, nat) -> Reply, i: nat): Mapped
    requires WellFormed(properties) && SlotsAligned(e) && i < |e.dataPointers|
  {
    MapOutcome(properties, e.bufferSize, replies(b, i), e.buffers[i], e.deviceMemories[i])
  }

  /** Binding b after its first k buffers are mapped; the rest are as they were. */
  function MapPrefix(properties: MemoryProperties, e: BufferCreationAndMappingData, b: nat,
                     replies: (nat, nat) -> Reply, k: nat): (r: BufferCreationAndMappingData)
    requires WellFormed(properties) && SlotsAligned(e) && k <= |e.dataPointers|
    ensures SlotsAligned(r) && |r.dataPointers| == |e.dataPointers|
    ensures r.bufferSize == e.bufferSize && r.usage == e.usage && r.descriptorType == e.descriptorType
    ensures forall i :: 0 <= i < k ==> MappedSlot(properties, e, b, replies, i) == Mapped(r.dataPointers[i], r.buffers[i], r.deviceMemories[i])
    ensures forall i :: k <= i < |e.dataPointers| ==>
      r.dataPointers[i] == e.dataPointers[i] && r.buffers[i] == e.buffers[i] && r.deviceMemories[i] == e.deviceMemories[i]
  {
    e.(buffers := seq(|e.buffers|, i requires 0 <= i < |e.buffers| =>
         if i < k then MappedSlot(properties, e, b, replies, i).buffer else e.buffers[i]),
       deviceMemories := seq(|e.deviceMemories|, i requires 0 <= i < |e.deviceMemories| =>
         if i < k then MappedSlot(properties, e, b, replies, i).deviceMemory else e.deviceMemories[i]),
       dataPointers := seq(|e.dataPointers|, i requires 0 <= i < |e.dataPointers| =>
         if i < k then MappedSlot(properties, e, b, replies, i).pointer else e.dataPointers[i]))
  }

  /** Binding b with every buffer mapped. */
  function MapBinding(properties: MemoryProperties, e: BufferCreationAndMappingData, b: nat,
                      replies: (nat, nat) -> Reply): BufferCreationAndMappingData
    requires WellFormed(properties) && SlotsAligned(e)
  {
    MapPrefix(properties, e, b, replies, |e.dataPointers|)
  }

  /** Every buffer of every binding has a mapped pointer. */
  predicate AllMapped(table: seq<BufferCreationAndMappingData>)
  {
    forall b, i :: 0 <= b < |table| && 0 <= i < |table[b].dataPointers| ==> table[b].dataPointers[i].Some?
  }

  /** Every slot of one entry has a data pointer. */
  predicate EntryMapped(e: BufferCreationAndMappingData)
  {
    forall i :: 0 <= i < |e.dataPointers| ==> e.dataPointers[i].Some?
  }

  lemma AllMappedSnoc(table: seq<BufferCreationAndMappingData>, e: BufferCreationAndMappingData)
    ensures AllMapped(table + [e]) <==> AllMapped(table) && EntryMapped(e)
  {
    var t := table + [e];
    assert t[|table|] == e;
    assert forall b :: 0 <= b < |table| ==> t[b] == table[b];
  }

  /** The whole table mapped. */
  function MapTable(properties: MemoryProperties, table: seq<BufferCreationAndMappingData>,
                    replies: (nat, nat) -> Reply): (r: seq<BufferCreationAndMappingData>)
    requires WellFormed(properties) && forall b :: 0 <= b < |table| ==> SlotsAligned(table[b])
    ensures |r| == |table|
    ensures forall b :: 0 <= b < |table| ==> r[b] == MapBinding(properties, table[b], b, replies)
  {
    seq(|table|, b requires 0 <= b < |table| => MapBinding(properties, table[b], b, replies))
  }

  /** Every buffer of a binding gets a pointer exactly when its size is non-zero and some memory type suits it. */
  lemma BindingMapped(properties: MemoryProperties, e: BufferCreationAndMappingData, b: nat, replies: (nat, nat) -> Reply, i: nat)
    requires WellFormed(properties) && SlotsAligned(e) && i < |e.dataPointers|
    ensures MapBinding(properties, e, b, replies).dataPointers[i].Some? <==>
      e.bufferSize > 0 && ChosenMemoryType(properties, e.bufferSize).Some?
  {
    assert MappedSlot(properties, e, b, replies, i).pointer == MapBinding(properties, e, b, replies).dataPointers[i];
  }

  /**
   * Whether the mapping succeeds depends only on the sizes and the memory
   * types: the sphere buffer needs at least one sphere, and each non-empty
   * binding a suitable memory type for its size.
   */
  lemma MappingSucceedsIff(properties: MemoryProperties, count: nat, sphereCount: nat, replies: (nat, nat) -> Reply)
    requires WellFormed(properties)
    ensures AllMapped(MapTable(properties, BufferTable(count, sphereCount), replies)) <==>
      ToSizeT(SIZE_OF_GPU_SPHERE * sphereCount) > 0 &&
      ChosenMemoryType(properties, ToSizeT(SIZE_OF_GPU_SPHERE * sphereCount)).Some? &&
      (count > 0 ==> ChosenMemoryType(properties, SIZE_OF_GPU_RAY * RAY_BUFFER_SIZE).Some? &&
                     ChosenMemoryType(properties, SIZE_OF_GPU_INTERSECTION * RAY_BUFFER_SIZE).Some?)
  {
    var table := BufferTable(count, sphereCount);
    var mapped := MapTable(properties, table, replies);
    forall b, i | 0 <= b < |table| && 0 <= i < |table[b].dataPointers|
      ensures mapped[b].dataPointers[i].Some? <==> table[b].bufferSize > 0 && ChosenMemoryType(properties, table[b].bufferSize).Some?
    {
      BindingMapped(properties, table[b], b, replies, i);
    }
    assert |table[2].dataPointers| == 1;
    if count > 0 {
      assert |table[0].dataPointers| > 0 && |table[1].dataPointers| > 0;
      assert mapped[0].dataPointers[0].Some? <==> ChosenMemoryType(properties, SIZE_OF_GPU_RAY * RAY_BUFFER_SIZE).Some?;
      assert mapped[1].dataPointers[0].Some? <==> ChosenMemoryType(properties, SIZE_OF_GPU_INTERSECTION * RAY_BUFFER_SIZE).Some?;
    }
    assert mapped[2].dataPointers[0].Some? <==>
      ToSizeT(SIZE_OF_GPU_SPHERE * sphereCount) > 0 && ChosenMemoryType(properties, ToSizeT(SIZE_OF_GPU_SPHERE * sphereCount)).Some?;
  }

  /** A scene without spheres leaves the sphere buffer unmapped. */
  lemma NoSpheresNotMapped(properties: MemoryProperties, count: nat, replies: (nat, nat) -> Reply)
    requires WellFormed(properties)
    ensures !AllMapped(MapTable(properties, BufferTable(count, 0), replies))
  {
    MappingSucceedsIff(properties, count, 0, replies);
  }

  /** The inner loop of CreateAndMapMemories: every buffer of one binding, even after a failure. */
  method MapBindingBuffers(properties: MemoryProperties, e: BufferCreationAndMappingData, b: nat, replies: (nat, nat) -> Reply)
    returns (r: BufferCreationAndMappingData, failed: bool)
    requires WellFormed(properties) && SlotsAligned(e)
    ensures r == MapBinding(properties, e, b, replies)
    ensures failed <==> exists i :: 0 <= i < |r.dataPointers| && r.dataPointers[i].None?
  {
    r := e;
    failed := false;
    var i := 0;
    while i < |e.dataPointers|
      invariant 0 <= i <= |e.dataPointers|
      invariant r == MapPrefix(properties, e, b, replies, i)
      invariant failed <==> exists j :: 0 <= j < i && r.dataPointers[j].None?
    {
      var m := CreateAndMapMemory(properties, e.bufferSize, replies(b, i), e.buffers[i], e.deviceMemories[i]);
      if m.pointer.None? {
        failed := true;
      }
      ghost var before := r;
      r := r.(buffers := r.buffers[i := m.buffer], deviceMemories := r.deviceMemories[i := m.deviceMemory],
              dataPointers := r.dataPointers[i := m.pointer]);
      ghost var next := MapPrefix(properties, e, b, replies, i + 1);
      assert r.dataPointers == next.dataPointers;
      assert r.buffers == next.buffers;
      assert r.deviceMemories == next.deviceMemories;
      assert r.dataPointers[i] == m.pointer;
      assert forall j :: 0 <= j < i ==> r.dataPointers[j] == before.dataPointers[j];
      i := i + 1;
    }
  }

  /** Messages of the exceptions the constructor throws. */
  const VERIFY_INSTANCE_FAILED: string := "Failed to verify instance layers or extensions"
  const NO_DEVICES: string := "Failed to enumerate devices"
  const VERIFY_DEVICE_FAILED: string := "Failed to verify device layers or extensions"
  const NO_COMPUTE_QUEUE: string := "Failed to get best compute queue"
  const MAP_FAILED: string := "Failed to create and map memories for compute shader"
  const RAY_BUFFER_NULL: string := "Ray initialization buffer data for GPU compute failed to allocate"
  const INTERSECTION_BUFFER_NULL: string := "Ray intersection buffer data for GPU compute failed to allocate"
  const SPHERE_BUFFER_NULL: string := "Sphere buffer data for GPU compute failed to allocate"

  /** What the driver answers during construction. */
  datatype Driver = Driver(
    instanceLayers: Enumeration, instanceExtensions: Enumeration,
    devices: seq<PhysicalDevice>, replies: (nat, nat) -> Reply)

  predicate DriverWellFormed(d: Driver)
  {
    |d.devices| > 0 ==> WellFormed(d.devices[0].memory)
  }

  /** The checks before the buffers are sized, in order; None when all pass. */
  function SetupError(debugBuild: bool, d: Driver): Option<string>
  {
    if !InstanceRequirementMet(DebugInstanceLayers(debugBuild), d.instanceLayers) ||
       !InstanceRequirementMet(DebugInstanceExtensions(debugBuild), d.instanceExtensions) then Some(VERIFY_INSTANCE_FAILED)
    else if |d.devices| == 0 then Some(NO_DEVICES)
    else if !AllAvailable(DebugDeviceExtensions(debugBuild), d.devices[0].extensions) then Some(VERIFY_DEVICE_FAILED)
    else if BestComputeQueue(d.devices[0].queueFamilies).None? then Some(NO_COMPUTE_QUEUE)
    else None
  }

  /** How construction ends. */
  function CreateResult(debugBuild: bool, d: Driver, count: nat, sphereCount: nat): Result<(), string>
    requires DriverWellFormed(d)
  {
    var setup := SetupError(debugBuild, d);
    if setup.Some? then Err(setup.value)
    else if !AllMapped(MapTable(d.devices[0].memory, BufferTable(count, sphereCount), d.replies)) then Err(MAP_FAILED)
    else Ok(())
  }

  /**
   * A scene without spheres makes construction throw, with the mapping
   * error once the device checks pass; the null checks after a successful
   * mapping never fire.
   */
  lemma NoSpheresThrows(debugBuild: bool, d: Driver, count: nat)
    requires DriverWellFormed(d)
    ensures CreateResult(debugBuild, d, count, 0).Err?
    ensures SetupError(debugBuild, d).None? ==> CreateResult(debugBuild, d, count, 0) == Err(MAP_FAILED)
  {
    if SetupError(debugBuild, d).None? {
      NoSpheresNotMapped(d.devices[0].memory, count, d.replies);
    }
  }

  /** The spheres the constructor uploads: one GPUSphere per sphere object, in scene order. */
  function GPUSpheres(spheres: seq<Scene.Sphere>): (r: seq<GPUSphere>)
    ensures |r| == |spheres|
    ensures forall i :: 0 <= i < |spheres| ==> r[i] == FromSphere(spheres[i])
  {
    seq(|spheres|, i requires 0 <= i < |spheres| => FromSphere(spheres[i]))
  }

  /** Converting one more sphere appends its GPUSphere. */
  lemma GPUSpheresSnoc(spheres: seq<Scene.Sphere>, sphere: Scene.Sphere)
    ensures GPUSpheres(spheres + [sphere]) == GPUSpheres(spheres) + [FromSphere(sphere)]
  {
    assert |GPUSpheres(spheres + [sphere])| == |GPUSpheres(spheres) + [FromSphere(sphere)]|;
  }

  /** The constructor's filter loop, through the pointer constructor of GPUSphere. */
  method CollectSpheres(objects: seq<Scene.SceneObject>) returns (spheres: seq<GPUSphere>)
    ensures spheres == GPUSpheres(Scene.SpheresOf(objects))
  {
    spheres := [];
    var i := 0;
    while i < |objects|
      invariant 0 <= i <= |objects|
      invariant spheres == GPUSpheres(Scene.SpheresOf(objects[..i]))
    {
      Scene.SpheresOfAdd(objects[..i], objects[i]);
      assert objects[..i + 1] == objects[..i] + [objects[i]];
      if objects[i].SphereObject? {
        GPUSpheresSnoc(Scene.SpheresOf(objects[..i]), objects[i].sphere);
        var g := FromSpherePointer(Some(objects[i].sphere));
        spheres := spheres + [g.value];
      }
      i := i + 1;
    }
    assert objects[..i] == objects;
  }

  /** One shader dispatch of Render, with the buffer handles it is given. */
  datatype StageCall =
    | InitializeRays(bufferIndex: nat, rayOffset: nat, rayBuffer: Option<nat>)
    | IntersectRays(bufferIndex: nat, rayBuffer: Option<nat>, intersectionBuffer: Option<nat>, sphereBuffer: Option<nat>)
    | CalculateMaterials(bufferIndex: nat, intersectionBuffer: Option<nat>, rayBuffer: Option<nat>)

  /** The ray-initialisation dispatches: buffer i starts at ray RayBufferSize·i. */
  function InitializeCalls(rays: seq<Option<nat>>): (calls: seq<StageCall>)
    ensures |calls| == |rays|
  {
    if |rays| == 0 then []
    else
      var last := |rays| - 1;
      InitializeCalls(rays[..last]) + [InitializeRays(last, RAY_BUFFER_SIZE * last, rays[last])]
  }

  /** The intersection dispatches: ray buffer i into intersection buffer i, against the one sphere buffer. */
  function IntersectCalls(rays: seq<Option<nat>>, intersections: seq<Option<nat>>, sphere: Option<nat>): (calls: seq<StageCall>)
    requires |rays| <= |intersections|
    ensures |calls| == |rays|
  {
    if |rays| == 0 then []
    else
      var last := |rays| - 1;
      IntersectCalls(rays[..last], intersections, sphere) + [IntersectRays(last, rays[last], intersections[last], sphere)]
  }

  /** The material dispatches: intersection buffer i and ray buffer i. */
  function MaterialCalls(intersections: seq<Option<nat>>, rays: seq<Option<nat>>): (calls: seq<StageCall>)
    requires |rays| <= |intersections|
    ensures |calls| == |rays|
  {
    if |rays| == 0 then []
    else
      var last := |rays| - 1;
      MaterialCalls(intersections, rays[..last]) + [CalculateMaterials(last, intersections[last], rays[last])]
  }

  /**
   * Render dispatches, for each buffer i, its initialisation before its
   * intersection before its material stage, all three on buffer i; the
   * initialisation's ray offset is RayBufferSize·i, so the buffers cover
   * consecutive ray ranges.
   */
  lemma StagesInOrder(rays: seq<Option<nat>>, intersections: seq<Option<nat>>, sphere: Option<nat>, i: nat)
    requires |rays| <= |intersections| && i < |rays|
    ensures var n := |rays|;
      var calls := InitializeCalls(rays) + IntersectCalls(rays, intersections, sphere) + MaterialCalls(intersections, rays);
      calls[i] == InitializeRays(i, RAY_BUFFER_SIZE * i, rays[i]) &&
      calls[n + i] == IntersectRays(i, rays[i], intersections[i], sphere) &&
      calls[n + n + i] == CalculateMaterials(i, intersections[i], rays[i])
  {
    InitializeCallAt(rays, i);
    IntersectCallAt(rays, intersections, sphere, i);
    MaterialCallAt(intersections, rays, i);
  }

  lemma {:induction false} InitializeCallAt(rays: seq<Option<nat>>, i: nat)
    requires i < |rays|
    ensures InitializeCalls(rays)[i] == InitializeRays(i, RAY_BUFFER_SIZE * i, rays[i])
  {
    if i < |rays| - 1 {
      InitializeCallAt(rays[..|rays| - 1], i);
    }
  }

  lemma {:induction false} IntersectCallAt(rays: seq<Option<nat>>, intersections: seq<Option<nat>>, sphere: Option<nat>, i: nat)
    requires |rays| <= |intersections| && i < |rays|
    ensures IntersectCalls(rays, intersections, sphere)[i] == IntersectRays(i, rays[i], intersections[i], sphere)
  {
    if i < |rays| - 1 {
      IntersectCallAt(rays[..|rays| - 1], intersections, sphere, i);
    }
  }

  lemma {:induction false} MaterialCallAt(intersections: seq<Option<nat>>, rays: seq<Option<nat>>, i: nat)
    requires |rays| <= |intersections| && i < |rays|
    ensures MaterialCalls(intersections, rays)[i] == CalculateMaterials(i, intersections[i], rays[i])
  {
    if i < |rays| - 1 {
      MaterialCallAt(intersections, rays[..|rays| - 1], i);
    }
  }

  /** Render's first loop: one ray-initialisation dispatch per ray buffer. */
  method InitializeStage(rays: seq<Option<nat>>) returns (calls: seq<StageCall>)
    ensures calls == InitializeCalls(rays)
  {
    calls := [];
    var i := 0;
    while i < |rays|
      invariant 0 <= i <= |rays| && calls == InitializeCalls(rays[..i])
    {
      assert rays[..i + 1][..i] == rays[..i];
      calls := calls + [InitializeRays(i, RAY_BUFFER_SIZE * i, rays[i])];
      i := i + 1;
    }
    assert rays[..i] == rays;
  }

  /** Render's second loop: one intersection dispatch per ray buffer. */
  method IntersectStage(rays: seq<Option<nat>>, intersections: seq<Option<nat>>, sphere: Option<nat>) returns (calls: seq<StageCall>)
    requires |rays| <= |intersections|
    ensures calls == IntersectCalls(rays, intersections, sphere)
  {
    calls := [];
    var i := 0;
    while i < |rays|
      invariant 0 <= i <= |rays| && calls == IntersectCalls(rays[..i], intersections, sphere)
    {
      assert rays[..i + 1][..i] == rays[..i];
      calls := calls + [IntersectRays(i, rays[i], intersections[i], sphere)];
      i := i + 1;
    }
    assert rays[..i] == rays;
  }

  /** Render's third loop: one material dispatch per ray pointer. */
  method MaterialStage(intersections: seq<Option<nat>>, rays: seq<Option<nat>>) returns (calls: seq<StageCall>)
    requires |rays| <= |intersections|
    ensures calls == MaterialCalls(intersections, rays)
  {
    calls := [];
    var i := 0;
    while i < |rays|
      invariant 0 <= i <= |rays| && calls == MaterialCalls(intersections, rays[..i])
    {
      assert rays[..i + 1][..i] == rays[..i];
      calls := calls + [CalculateMaterials(i, intersections[i], rays[i])];
      i := i + 1;
    }
    assert rays[..i] == rays;
  }

  /** One SetPixelColor of the write-back. */
  datatype PixelWrite = PixelWrite(x: nat, y: nat, color: Color)

  /** The image after the writes in order; SetPixelColor ignores a pixel outside the image. */
  function Painted(rows: seq<seq<Byte>>, resolution: Image.ImageResolution, writes: seq<PixelWrite>): (r: seq<seq<Byte>>)
    requires Image.Shaped(rows, resolution)
    ensures Image.Shaped(r, resolution)
  {
    if |writes| == 0 then rows
    else
      var before := Painted(rows, resolution, writes[..|writes| - 1]);
      var w := writes[|writes| - 1];
      if w.x < resolution.X && w.y < resolution.Y then Image.WithPixel(before, resolution, w.x, w.y, w.color) else before
  }

  /** The colour of the last write to (x, y), if any. */
  function LastWriteTo(writes: seq<PixelWrite>, x: nat, y: nat): (c: Option<Color>)
    ensures c.None? <==> forall k :: 0 <= k < |writes| ==> (writes[k].x, writes[k].y) != (x, y)
    ensures c.Some? ==> exists k :: 0 <= k < |writes| && writes[k] == PixelWrite(x, y, c.value) &&
                                    (forall k' :: k < k' < |writes| ==> (writes[k'].x, writes[k'].y) != (x, y))
  {
    if |writes| == 0 then None
    else if (writes[|writes| - 1].x, writes[|writes| - 1].y) == (x, y) then Some(writes[|writes| - 1].color)
    else
      var c := LastWriteTo(writes[..|writes| - 1], x, y);
      assert forall k :: 0 <= k < |writes| - 1 ==> writes[..|writes| - 1][k] == writes[k];
      c
  }

  /** After the write-back, each pixel holds the colour last written to it, or what it held before. */
  lemma {:induction false} PaintedLastWriteWins(rows: seq<seq<Byte>>, resolution: Image.ImageResolution,
                                                writes: seq<PixelWrite>, x: nat, y: nat)
    requires Image.Shaped(rows, resolution) && x < resolution.X && y < resolution.Y
    ensures Image.PixelAt(Painted(rows, resolution, writes), resolution, x, y) ==
      (if LastWriteTo(writes, x, y).Some? then LastWriteTo(writes, x, y).value else Image.PixelAt(rows, resolution, x, y))
  {
    if |writes| > 0 {
      var w := writes[|writes| - 1];
      var before := Painted(rows, resolution, writes[..|writes| - 1]);
      PaintedLastWriteWins(rows, resolution, writes[..|writes| - 1], x, y);
      if w.x < resolution.X && w.y < resolution.Y {
        Image.WithPixelReadsBack(before, resolution, w.x, w.y, w.color);
      }
    }
  }

  /** The writes for intersection buffer i, entries 0 to j - 1. */
  function BufferWrites(intersections: (nat, nat) -> GPUIntersection, toColor: seq<real> -> Color, i: nat, j: nat): (ws: seq<PixelWrite>)
    ensures |ws| == j
  {
    seq(j, k requires 0 <= k < j =>
      PixelWrite(intersections(i, k).pixelXIndex, intersections(i, k).pixelYIndex, toColor(intersections(i, k).rayColor)))
  }

  /** The writes for intersection buffers 0 to n - 1, each of RayBufferSize entries, in order. */
  function WriteBack(intersections: (nat, nat) -> GPUIntersection, toColor: seq<real> -> Color, n: nat): (ws: seq<PixelWrite>)
    ensures |ws| == n * RAY_BUFFER_SIZE
  {
    if n == 0 then [] else WriteBack(intersections, toColor, n - 1) + BufferWrites(intersections, toColor, n - 1, RAY_BUFFER_SIZE)
  }

  /** An image of the given resolution with every byte zero. */
  function Blank(resolution: Image.ImageResolution): (rows: seq<seq<Byte>>)
    ensures Image.Shaped(rows, resolution)
  {
    seq(resolution.Y, _ => seq(4 * resolution.X, _ => 0))
  }

  /**
   * In the rendered image a pixel holds the colour of the last intersection
   * that names it, so of several samples of one pixel only the last is kept,
   * and a pixel no intersection names stays transparent black.
   */
  lemma RenderedPixel(resolution: Image.ImageResolution, writes: seq<PixelWrite>, x: nat, y: nat)
    requires x < resolution.X && y < resolution.Y
    ensures Image.PixelAt(Painted(Blank(resolution), resolution, writes), resolution, x, y) ==
      (if LastWriteTo(writes, x, y).Some? then LastWriteTo(writes, x, y).value else Color(0, 0, 0, 0))
  {
    PaintedLastWriteWins(Blank(resolution), resolution, writes, x, y);
  }

  /** A shaped buffer whose bytes are all zero is the blank image. */
  lemma ZeroIsBlank(rows: seq<seq<Byte>>, resolution: Image.ImageResolution)
    requires Image.Shaped(rows, resolution)
    requires forall y, j :: 0 <= y < |rows| && 0 <= j < |rows[y]| ==> rows[y][j] == 0
    ensures rows == Blank(resolution)
  {
    forall y | 0 <= y < |rows| ensures rows[y] == Blank(resolution)[y] {
    }
  }

  class GPURendererV2 {
    const camera: Camera.Camera
    const samples: nat
    const scene: Scene.Scene
    var computeQueueIndex: nat
    var bufferData: seq<BufferCreationAndMappingData>
    /** What the constructor copied into the sphere buffer. */
    var uploadedSpheres: seq<GPUSphere>

    ghost predicate Valid()
      reads this
    {
      |bufferData| == GPU_BUFFER_BINDING_COUNT &&
      (forall b :: 0 <= b < |bufferData| ==> SlotsAligned(bufferData[b])) &&
      |bufferData[BindingIndex(IntersectionBufferBinding)].dataPointers| == |bufferData[BindingIndex(RayBufferBinding)].dataPointers| &&
      |bufferData[BindingIndex(SphereBufferBinding)].dataPointers| == 1
    }

    /** The member initialisers; the checked part of the constructor is Create. */
    constructor (camera: Camera.Camera, samples: nat, scene: Scene.Scene)
      ensures this.camera == camera && this.samples == samples && this.scene == scene
      ensures bufferData == [] && uploadedSpheres == [] && computeQueueIndex == 0
    {
      this.camera := camera;
      this.samples := samples;
      this.scene := scene;
      computeQueueIndex := 0;
      bufferData := [];
      uploadedSpheres := [];
    }

    /** The number of ray buffers this renderer needs. */
    function RayBufferCount(): nat
    {
      TotalBufferCount(TotalRays(camera.Resolution(), samples))
    }

    /**
     * The checks at the top of the constructor, in order: instance layers
     * and extensions, a physical device, its extensions, a compute queue.
     */
    method CheckDevice(debugBuild: bool, driver: Driver) returns (error: Option<string>)
      modifies this
      ensures error == SetupError(debugBuild, driver)
      ensures bufferData == old(bufferData) && uploadedSpheres == old(uploadedSpheres)
      ensures error.None? ==> BestComputeQueue(driver.devices[0].queueFamilies) == Some(computeQueueIndex)
    {
      var layersOk := VerifyInstanceLayers(DebugInstanceLayers(debugBuild), driver.instanceLayers);
      var extensionsOk := false;
      if layersOk {
        extensionsOk := VerifyInstanceExtensions(DebugInstanceExtensions(debugBuild), driver.instanceExtensions);
      }
      if !layersOk || !extensionsOk {
        return Some(VERIFY_INSTANCE_FAILED);
      }
      if |driver.devices| == 0 {
        return Some(NO_DEVICES);
      }
      var device := driver.devices[0];
      // The enumeration vulkan.hpp makes inside the check is taken to succeed.
      var deviceCheck := VerifyDeviceExtensions(DebugDeviceExtensions(debugBuild), Ok(device.extensions));
      if !deviceCheck.value {
        return Some(VERIFY_DEVICE_FAILED);
      }
      var queueResult, queueIndex := VulkanUtils.GetBestComputeQueue(device.queueFamilies, computeQueueIndex);
      computeQueueIndex := queueIndex;
      if queueResult != Success {
        return Some(NO_COMPUTE_QUEUE);
      }
      return None;
    }

    /**
     * The constructor's middle part: one ray and one intersection buffer per
     * 2^20 rays, one sphere buffer for all the spheres, all mapped.
     */
    method SizeAndMapBuffers(properties: MemoryProperties, replies: (nat, nat) -> Reply, sphereCount: nat)
      returns (mapResult: VkResult)
      requires WellFormed(properties)
      modifies this
      ensures Valid() && bufferData == MapTable(properties, BufferTable(RayBufferCount(), sphereCount), replies)
      ensures mapResult == Success <==> AllMapped(bufferData)
      ensures uploadedSpheres == old(uploadedSpheres) && computeQueueIndex == old(computeQueueIndex)
    {
      var totalRays := ToSizeT(camera.Resolution().X * camera.Resolution().Y * samples);
      var totalBufferCount := totalRays / RAY_BUFFER_SIZE + (if totalRays % RAY_BUFFER_SIZE > 0 then 1 else 0);
      bufferData := [StorageBinding(SIZE_OF_GPU_RAY * RAY_BUFFER_SIZE, totalBufferCount),
                     StorageBinding(SIZE_OF_GPU_INTERSECTION * RAY_BUFFER_SIZE, totalBufferCount),
                     StorageBinding(ToSizeT(SIZE_OF_GPU_SPHERE * sphereCount), 1)];
      assert bufferData == BufferTable(RayBufferCount(), sphereCount);
      mapResult := CreateAndMapMemories(properties, replies);
    }

    /**
     * The body of the constructor: the checks, the buffer table, the mapping
     * and its null checks, and the sphere upload.
     */
    method Create(debugBuild: bool, driver: Driver) returns (r: Result<(), string>)
      requires DriverWellFormed(driver)
      modifies this
      ensures r == CreateResult(debugBuild, driver, RayBufferCount(), |Scene.SpheresOf(scene.objects)|)
      ensures SetupError(debugBuild, driver).None? ==>
        Valid() && bufferData == MapTable(driver.devices[0].memory, BufferTable(RayBufferCount(), |Scene.SpheresOf(scene.objects)|), driver.replies)
      ensures r.Ok? ==> uploadedSpheres == GPUSpheres(Scene.SpheresOf(scene.objects))
      ensures SetupError(debugBuild, driver).None? ==> BestComputeQueue(driver.devices[0].queueFamilies) == Some(computeQueueIndex)
    {
      var setup := CheckDevice(debugBuild, driver);
      if setup.Some? {
        return Err(setup.value);
      }
      var spheres := CollectSpheres(scene.objects);
      var mapResult := SizeAndMapBuffers(driver.devices[0].memory, driver.replies, |spheres|);
      if mapResult != Success {
        return Err(MAP_FAILED);
      }
      var nullMessage := NullCheck();
      // The mapping succeeded, so no pointer is null and none of the three loops throws.
      assert nullMessage.None?;
      uploadedSpheres := spheres;
      return Ok(());
    }

    /**
     * CreateAndMapMemories: every buffer of every binding is mapped, even
     * after a failure; VK_ERROR_MEMORY_MAP_FAILED iff some pointer is null.
     */
    method CreateAndMapMemories(properties: MemoryProperties, replies: (nat, nat) -> Reply) returns (result: VkResult)
      requires WellFormed(properties) && forall b :: 0 <= b < |bufferData| ==> SlotsAligned(bufferData[b])
      modifies this
      ensures bufferData == MapTable(properties, old(bufferData), replies)
      ensures result == Success || result == ErrorMemoryMapFailed
      ensures result == Success <==> AllMapped(bufferData)
      ensures uploadedSpheres == old(uploadedSpheres) && computeQueueIndex == old(computeQueueIndex)
    {
      ghost var table := bufferData;
      result := Success;
      var b := 0;
      while b < |bufferData|
        invariant 0 <= b <= |bufferData| == |table|
        invariant forall b' :: 0 <= b' < b ==> bufferData[b'] == MapBinding(properties, table[b'], b', replies)
        invariant forall b' :: b <= b' < |table| ==> bufferData[b'] == table[b']
        invariant result == Success || result == ErrorMemoryMapFailed
        invariant result == Success <==> AllMapped(bufferData[..b])
        invariant uploadedSpheres == old(uploadedSpheres) && computeQueueIndex == old(computeQueueIndex)
      {
        var mapped, failed := MapBindingBuffers(properties, bufferData[b], b, replies);
        ghost var prefix := bufferData[..b];
        AllMappedSnoc(prefix, mapped);
        assert failed <==> !EntryMapped(mapped);
        if failed {
          result := ErrorMemoryMapFailed;
        }
        bufferData := bufferData[b := mapped];
        assert bufferData[..b + 1] == prefix + [mapped];
        b := b + 1;
      }
      assert bufferData[..b] == bufferData;
    }

    /** The three null-check loops, in order, with their messages. */
    method NullCheck() returns (message: Option<string>)
      requires Valid()
      ensures message.None? <==> AllMapped(bufferData)
    {
      var bindings := [RayBufferBinding, IntersectionBufferBinding, SphereBufferBinding];
      var messages := [RAY_BUFFER_NULL, INTERSECTION_BUFFER_NULL, SPHERE_BUFFER_NULL];
      var b := 0;
      while b < GPU_BUFFER_BINDING_COUNT
        invariant 0 <= b <= GPU_BUFFER_BINDING_COUNT
        invariant AllMapped(bufferData[..b])
      {
        var pointers := bufferData[BindingIndex(bindings[b])].dataPointers;
        var i := 0;
        while i < |pointers|
          invariant 0 <= i <= |pointers|
          invariant forall j :: 0 <= j < i ==> pointers[j].Some?
        {
          if pointers[i].None? {
            return Some(messages[b]);
          }
          i := i + 1;
        }
        assert forall b' :: 0 <= b' <= b ==> bufferData[..b + 1][b'] == bufferData[b'];
        b := b + 1;
      }
      assert bufferData[..b] == bufferData;
      return None;
    }

    /**
     * Render's three stage loops, each over the ray buffers in order: ray
     * initialisation, then intersection against the one sphere buffer, then
     * the material stage.
     */
    method RunStages() returns (calls: seq<StageCall>)
      requires Valid()
      ensures var rays := bufferData[BindingIndex(RayBufferBinding)].buffers;
        var intersections := bufferData[BindingIndex(IntersectionBufferBinding)].buffers;
        calls == InitializeCalls(rays) +
                 IntersectCalls(rays, intersections, bufferData[BindingIndex(SphereBufferBinding)].buffers[0]) +
                 MaterialCalls(intersections, rays)
    {
      var rays := bufferData[BindingIndex(RayBufferBinding)].buffers;
      var intersections := bufferData[BindingIndex(IntersectionBufferBinding)].buffers;
      var sphere := bufferData[BindingIndex(SphereBufferBinding)].buffers[0];
      var initialise := InitializeStage(rays);
      var intersect := IntersectStage(rays, intersections, sphere);
      var materials := MaterialStage(intersections, rays);
      calls := initialise + intersect + materials;
    }

    /**
     * The write-back: for each of the first min(#ray, #intersection) buffers,
     * every one of its RayBufferSize intersections sets its pixel to its
     * ray colour, in order, into a new image of the camera's resolution.
     */
    method WriteBackImage(intersections: (nat, nat) -> GPUIntersection, toColor: seq<real> -> Color)
      returns (image: Image.Image)
      requires Valid()
      ensures fresh(image) && image.Valid() && image.resolution == camera.Resolution()
      ensures var n := Min(|bufferData[BindingIndex(RayBufferBinding)].dataPointers|,
                           |bufferData[BindingIndex(IntersectionBufferBinding)].dataPointers|);
        image.colors == Painted(Blank(camera.Resolution()), camera.Resolution(), WriteBack(intersections, toColor, n))
    {
      var rayCount := |bufferData[BindingIndex(RayBufferBinding)].dataPointers|;
      var intersectionCount := |bufferData[BindingIndex(IntersectionBufferBinding)].dataPointers|;
      image := WriteBackBuffers(camera.Resolution(), rayCount, intersectionCount, intersections, toColor);
    }

    /**
     * Render: the three stage loops, then the write-back into a new image of
     * the camera's resolution.
     */
    method Render(intersections: (nat, nat) -> GPUIntersection, toColor: seq<real> -> Color)
      returns (calls: seq<StageCall>, image: Image.Image)
      requires Valid()
      ensures var rays := bufferData[BindingIndex(RayBufferBinding)].buffers;
        var intersectionBuffers := bufferData[BindingIndex(IntersectionBufferBinding)].buffers;
        calls == InitializeCalls(rays) +
                 IntersectCalls(rays, intersectionBuffers, bufferData[BindingIndex(SphereBufferBinding)].buffers[0]) +
                 MaterialCalls(intersectionBuffers, rays)
      ensures fresh(image) && image.Valid() && image.resolution == camera.Resolution()
      ensures image.colors == Painted(Blank(camera.Resolution()), camera.Resolution(),
        WriteBack(intersections, toColor, |bufferData[BindingIndex(RayBufferBinding)].dataPointers|))
    {
      calls := RunStages();
      image := WriteBackImage(intersections, toColor);
    }
  }

  /** The inner loop of the write-back: the RayBufferSize entries of intersection buffer i. */
  method WriteBackBuffer(image: Image.Image, intersections: (nat, nat) -> GPUIntersection, toColor: seq<real> -> Color, i: nat)
    requires image.Valid()
    modifies image
    ensures image.Valid()
    ensures image.colors == Painted(old(image.colors), image.resolution, BufferWrites(intersections, toColor, i, RAY_BUFFER_SIZE))
  {
    ghost var start := image.colors;
    var j := 0;
    while j < RAY_BUFFER_SIZE
      invariant 0 <= j <= RAY_BUFFER_SIZE && image.Valid()
      invariant image.colors == Painted(start, image.resolution, BufferWrites(intersections, toColor, i, j))
    {
      var intersection := intersections(i, j);
      var written := image.SetPixelColor(intersection.pixelXIndex, intersection.pixelYIndex, toColor(intersection.rayColor));
      assert BufferWrites(intersections, toColor, i, j + 1)[..j] == BufferWrites(intersections, toColor, i, j);
      j := j + 1;
    }
  }

  /** A new image of the given resolution, every byte zero. */
  method NewBlankImage(resolution: Image.ImageResolution) returns (image: Image.Image)
    ensures fresh(image) && image.Valid() && image.resolution == resolution
    ensures image.colors == Blank(resolution)
  {
    image := new Image.Image(resolution);
    ZeroIsBlank(image.colors, resolution);
  }

  /**
   * The write-back loop of Render: a new image, then buffer after buffer
   * while both a ray and an intersection buffer remain.
   */
  method WriteBackBuffers(resolution: Image.ImageResolution, rayCount: nat, intersectionCount: nat,
                          intersections: (nat, nat) -> GPUIntersection, toColor: seq<real> -> Color)
    returns (image: Image.Image)
    ensures fresh(image) && image.Valid() && image.resolution == resolution
    ensures image.colors == Painted(Blank(resolution), resolution, WriteBack(intersections, toColor, Min(rayCount, intersectionCount)))
  {
    image := NewBlankImage(resolution);
    var i := 0;
    while i < rayCount && i < intersectionCount
      invariant 0 <= i <= Min(rayCount, intersectionCount)
      invariant image.Valid()
      invariant image.colors == Painted(Blank(resolution), resolution, WriteBack(intersections, toColor, i))
    {
      WriteBackNext(image, intersections, toColor, i);
      i := i + 1;
    }
  }

  /** One pass of the outer write-back loop: the image of buffers 0 to i - 1 becomes that of buffers 0 to i. */
  method WriteBackNext(image: Image.Image, intersections: (nat, nat) -> GPUIntersection, toColor: seq<real> -> Color, i: nat)
    requires image.Valid()
    requires image.colors == Painted(Blank(image.resolution), image.resolution, WriteBack(intersections, toColor, i))
    modifies image
    ensures image.Valid()
    ensures image.colors == Painted(Blank(image.resolution), image.resolution, WriteBack(intersections, toColor, i + 1))
  {
    WriteBackBuffer(image, intersections, toColor, i);
    PaintedAppend(Blank(image.resolution), image.resolution, WriteBack(intersections, toColor, i), BufferWrites(intersections, toColor, i, RAY_BUFFER_SIZE));
  }

  /** Painting a concatenation paints the first part, then the second. */
  lemma {:induction false} PaintedAppend(rows: seq<seq<Byte>>, resolution: Image.ImageResolution, a: seq<PixelWrite>, b: seq<PixelWrite>)
    requires Image.Shaped(rows, resolution)
    ensures Painted(rows, resolution, a + b) == Painted(Painted(rows, resolution, a), resolution, b)
    decreases |b|
  {
    if |b| == 0 {
      assert a + b == a;
    } else {
      assert (a + b)[..|a + b| - 1] == a + b[..|b| - 1];
      PaintedAppend(rows, resolution, a, b[..|b| - 1]);
    }
  }
}
