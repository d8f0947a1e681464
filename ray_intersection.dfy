/**
 * Shaders/RayIntersection.h and .cpp: the one-pass intersection shader the
 * first GPU renderer runs. The host side builds a table of six buffers, one
 * per shader binding, allocates and maps host-visible memory for each,
 * uploads the inputs and binds buffer i at binding i.
 *
 * The Vulkan driver is a parameter: the device's memory properties and, per
 * buffer, what vkAllocateMemory, vkCreateBuffer, vkBindBufferMemory and
 * vkMapMemory answer. Handles and mapped addresses are natural numbers;
 * null is None.
 */
module RayIntersection {
  import opened Wrappers
  import opened Integers
  import opened Vulkan
  import opened Vector3
  import opened Materials
  import opened GPUStructs
  import Scene
  import Camera

  /** The shader bindings, in the order of the BufferBindings enumeration. */
  datatype BufferBinding =
    | SampleCountBinding
    | ResolutionBinding
    | CameraBinding
    | SphereBinding
    | MaterialBinding
    | OutputColorBinding

  /** BufferBindingsCount, the enumerator after the last binding. */
  const BufferBindingsCount: nat := 6

  /** The enumerator's value: the binding number and the index into the buffer table. */
  function BindingIndex(b: BufferBinding): (i: nat)
    ensures i < BufferBindingsCount
  {
    match b
    case SampleCountBinding => 0
    case ResolutionBinding => 1
    case CameraBinding => 2
    case SphereBinding => 3
    case MaterialBinding => 4
    case OutputColorBinding => 5
  }

  function BindingAt(i: nat): BufferBinding
    requires i < BufferBindingsCount
  {
    if i == 0 then SampleCountBinding
    else if i == 1 then ResolutionBinding
    else if i == 2 then CameraBinding
    else if i == 3 then SphereBinding
    else if i == 4 then MaterialBinding
    else OutputColorBinding
  }

  /** The six bindings are numbered 0 to 5 without gaps or repeats. */
  lemma BindingsEnumerated()
    ensures forall b :: BindingAt(BindingIndex(b)) == b
    ensures forall i :: 0 <= i < BufferBindingsCount ==> BindingIndex(BindingAt(i)) == i
  {
  }

  /** InputSampleCount. */
  datatype InputSampleCount = InputSampleCount(sampleCount: nat)

  /** InputResolution: two unsigned ints. */
  datatype InputResolution = InputResolution(X: nat, Y: nat)

  /** InputCamera: the lens as two unsigned ints, then the position and the three basis vectors. */
  datatype InputCamera = InputCamera(
    focalLengthMM: nat, sensorWidthMM: nat,
    origin: Vector3<real>, forwardVector: Vector3<real>, rightVector: Vector3<real>, upVector: Vector3<real>)

  /** InputSphere: three position floats, the radius and a signed material index. */
  datatype InputSphere = InputSphere(position: seq<real>, radius: real, materialIndex: int)

  /** InputMaterial: the surface colour's red, green and blue, and the roughness. */
  datatype InputMaterial = InputMaterial(color: seq<real>, roughness: real)

  /** OutputColor: the red, green and blue the shader leaves for one pixel. */
  datatype OutputColor = OutputColor(rgb: seq<real>)

  /** The lens every InputCamera carries: 50 mm focal length on an 18 mm sensor. */
  const SHADER_FOCAL_LENGTH_MM: nat := 50
  const SHADER_SENSOR_WIDTH_MM: nat := 18

  /**
   * InputCamera(const Camera &): the camera's position and basis vectors,
   * component by component, and the fixed lens, whatever lens the camera has.
   */
  function InputCameraOf(camera: Camera.Camera): (c: InputCamera)
    ensures c.focalLengthMM == 50 && c.sensorWidthMM == 18
    ensures c.origin == camera.Position() && c.forwardVector == camera.ForwardVector()
    ensures c.rightVector == camera.RightVector() && c.upVector == camera.UpVector()
  {
    InputCamera(SHADER_FOCAL_LENGTH_MM, SHADER_SENSOR_WIDTH_MM,
      Vector3(camera.Position().X, camera.Position().Y, camera.Position().Z),
      Vector3(camera.ForwardVector().X, camera.ForwardVector().Y, camera.ForwardVector().Z),
      Vector3(camera.RightVector().X, camera.RightVector().Y, camera.RightVector().Z),
      Vector3(camera.UpVector().X, camera.UpVector().Y, camera.UpVector().Z))
  }

  /** Two cameras placed and turned alike give the same InputCamera, whatever their lenses. */
  lemma InputCameraIgnoresLens(a: Camera.Camera, b: Camera.Camera)
    requires a.Position() == b.Position() && a.ForwardVector() == b.ForwardVector()
    requires a.RightVector() == b.RightVector() && a.UpVector() == b.UpVector()
    ensures InputCameraOf(a) == InputCameraOf(b)
  {
  }

  /** InputSphere(const Sphere &): the centre's X, Y, Z, the radius and the material index as is. */
  function InputSphereOf(sphere: Scene.Sphere): (s: InputSphere)
    ensures |s.position| == 3
    ensures s.position[0] == sphere.position.X && s.position[1] == sphere.position.Y && s.position[2] == sphere.position.Z
    ensures s.radius == sphere.radius && s.materialIndex == sphere.materialIndex
  {
    var p := sphere.position;
    InputSphere([p.X, p.Y, p.Z], sphere.radius, sphere.materialIndex)
  }

  /** The sphere the shader reads back from an InputSphere. */
  function ShaderSphere(s: InputSphere): Scene.Sphere
    requires |s.position| >= 3
  {
    Scene.Sphere(Vector3(s.position[0], s.position[1], s.position[2]), s.radius, s.materialIndex)
  }

  /** Unlike GPUSphere, InputSphere keeps every sphere exactly, negative material indices included. */
  lemma InputSphereRoundTrip(sphere: Scene.Sphere)
    ensures ShaderSphere(InputSphereOf(sphere)) == sphere
  {
  }

  /** InputMaterial(const IMaterial &): the surface colour's float red, green, blue and the roughness. */
  function InputMaterialOf(material: Material): (m: InputMaterial)
    ensures m.color == [material.red, material.green, material.blue]
    ensures m.roughness == material.roughness
  {
    InputMaterial([material.red, material.green, material.blue], material.roughness)
  }

  /** The alpha channel never reaches the shader. */
  lemma InputMaterialDropsAlpha(material: Material, alpha: real)
    ensures InputMaterialOf(material.(alpha := alpha)) == InputMaterialOf(material)
  {
  }

  /** The record layouts, for their sizes. */
  const InputSampleCountLayout: seq<Member> := [Member("sample_count", UInt32, 1)]
  const InputResolutionLayout: seq<Member> := [Member("X", UInt32, 1), Member("Y", UInt32, 1)]
  const InputCameraLayout: seq<Member> := [
    Member("focal_length_mm", UInt32, 1), Member("sensor_width_mm", UInt32, 1),
    Member("origin", Float, 3), Member("forward_vector", Float, 3),
    Member("right_vector", Float, 3), Member("up_vector", Float, 3)]
  const InputSphereLayout: seq<Member> := [Member("position", Float, 3), Member("radius", Float, 1), Member("material_index", Int32, 1)]
  const InputMaterialLayout: seq<Member> := [Member("color", Float, 3), Member("roughness", Float, 1)]
  const OutputColorLayout: seq<Member> := [Member("rgb", Float, 3)]

  const SIZE_OF_INPUT_SAMPLE_COUNT: nat := 4
  const SIZE_OF_INPUT_RESOLUTION: nat := 8
  const SIZE_OF_INPUT_CAMERA: nat := 56
  const SIZE_OF_INPUT_SPHERE: nat := 20
  const SIZE_OF_INPUT_MATERIAL: nat := 16
  const SIZE_OF_OUTPUT_COLOR: nat := 12

  /** The sizes the buffer table uses are those of the records' members. */
  lemma RecordSizes()
    ensures SizeOf(InputSampleCountLayout) == SIZE_OF_INPUT_SAMPLE_COUNT
    ensures SizeOf(InputResolutionLayout) == SIZE_OF_INPUT_RESOLUTION
    ensures SizeOf(InputCameraLayout) == SIZE_OF_INPUT_CAMERA
    ensures SizeOf(InputSphereLayout) == SIZE_OF_INPUT_SPHERE
    ensures SizeOf(InputMaterialLayout) == SIZE_OF_INPUT_MATERIAL
    ensures SizeOf(OutputColorLayout) == SIZE_OF_OUTPUT_COLOR
  {
    assert SizeOf(InputSampleCountLayout[..0]) == 0;
    assert InputResolutionLayout[..1][..0] == [];
    assert SizeOf(InputResolutionLayout[..1]) == 4;
    var c := InputCameraLayout;
    assert c[..1][..0] == [] && c[..2][..1] == c[..1] && c[..3][..2] == c[..2];
    assert c[..4][..3] == c[..3] && c[..5][..4] == c[..4];
    assert SizeOf(c[..1]) == 4 && SizeOf(c[..2]) == 8 && SizeOf(c[..3]) == 20;
    assert SizeOf(c[..4]) == 32 && SizeOf(c[..5]) == 44;
    assert c[..5] == c[..|c| - 1];
    var s := InputSphereLayout;
    assert s[..1][..0] == [] && s[..2][..1] == s[..1];
    assert SizeOf(s[..1]) == 12 && SizeOf(s[..2]) == 16;
    assert s[..2] == s[..|s| - 1];
    assert InputMaterialLayout[..1][..0] == [];
    assert SizeOf(InputMaterialLayout[..1]) == 12;
    assert SizeOf(OutputColorLayout[..0]) == 0;
  }

  /** One entry of the buffer table: what to create, and the handles created so far. */
  datatype BufferCreationAndMappingData = BufferCreationAndMappingData(
    bufferSize: nat, usage: BufferUsage, descriptorType: DescriptorType,
    buffer: Option<nat>, deviceMemory: Option<nat>)

  /** An entry with nothing created yet. */
  function Entry(bufferSize: nat, usage: BufferUsage, descriptorType: DescriptorType): BufferCreationAndMappingData
  {
    BufferCreationAndMappingData(bufferSize, usage, descriptorType, None, None)
  }

  /**
   * The table the constructor fills: three small uniform buffers, then
   * storage buffers sized by the number of spheres, of materials and of
   * pixels (VkDeviceSize arithmetic, modulo 2^64).
   */
  function BufferTable(sphereCount: nat, materialCount: nat, resolution: InputResolution): (table: seq<BufferCreationAndMappingData>)
    ensures |table| == BufferBindingsCount
    ensures forall i :: 0 <= i < |table| ==> table[i].buffer.None? && table[i].deviceMemory.None?
    ensures forall i :: 0 <= i < |table| ==> (table[i].usage == UniformBufferUsage <==> table[i].descriptorType == UniformBuffer)
  {
    [Entry(SIZE_OF_INPUT_SAMPLE_COUNT, UniformBufferUsage, UniformBuffer),
     Entry(SIZE_OF_INPUT_RESOLUTION, UniformBufferUsage, UniformBuffer),
     Entry(SIZE_OF_INPUT_CAMERA, UniformBufferUsage, UniformBuffer),
     Entry(ToSizeT(SIZE_OF_INPUT_SPHERE * sphereCount), StorageBufferUsage, StorageBuffer),
     Entry(ToSizeT(SIZE_OF_INPUT_MATERIAL * materialCount), StorageBufferUsage, StorageBuffer),
     Entry(ToSizeT(SIZE_OF_OUTPUT_COLOR * resolution.X * resolution.Y), StorageBufferUsage, StorageBuffer)]
  }

  /**
   * The sphere, material and output buffers hold exactly one record per
   * sphere, material and pixel while that fits in 64 bits; the first three
   * bindings are uniform buffers and the rest storage buffers.
   */
  lemma BufferTableSizes(sphereCount: nat, materialCount: nat, resolution: InputResolution)
    requires SIZE_OF_INPUT_SPHERE * sphereCount < SIZE_T_LIMIT
    requires SIZE_OF_INPUT_MATERIAL * materialCount < SIZE_T_LIMIT
    requires SIZE_OF_OUTPUT_COLOR * resolution.X * resolution.Y < SIZE_T_LIMIT
    ensures var table := BufferTable(sphereCount, materialCount, resolution);
      table[BindingIndex(SphereBinding)].bufferSize == SIZE_OF_INPUT_SPHERE * sphereCount &&
      table[BindingIndex(MaterialBinding)].bufferSize == SIZE_OF_INPUT_MATERIAL * materialCount &&
      table[BindingIndex(OutputColorBinding)].bufferSize == SIZE_OF_OUTPUT_COLOR * resolution.X * resolution.Y
    ensures var table := BufferTable(sphereCount, materialCount, resolution);
      forall i :: 0 <= i < BufferBindingsCount ==> (table[i].descriptorType == UniformBuffer <==> i < BindingIndex(SphereBinding))
  {
  }

  /** An empty sphere or material list asks for a buffer of zero bytes. */
  lemma EmptyListZeroSize(materialCount: nat, resolution: InputResolution)
    ensures BufferTable(0, materialCount, resolution)[BindingIndex(SphereBinding)].bufferSize == 0
    ensures BufferTable(materialCount, 0, resolution)[BindingIndex(MaterialBinding)].bufferSize == 0
  {
  }

  /** What the driver answers for one buffer: the allocation, the buffer creation, the bind and the map. */
  datatype DriverReply = DriverReply(
    allocatedMemory: Option<nat>, createdBuffer: Option<nat>, bindResult: VkResult,
    mapResult: VkResult, mappedAddress: nat)

  /** The result of one CreateAndMapMemory and the handles and data pointer it leaves. */
  datatype MapState = MapState(result: VkResult, buffer: Option<nat>, deviceMemory: Option<nat>, dataPointer: Option<nat>)

  /**
   * CreateAndMapMemory. A zero size succeeds at once and touches nothing:
   * the routine only nulls its own copy of the out-pointer, so the caller's
   * data pointer keeps its value. Without a suitable memory type the result
   * is VK_ERROR_OUT_OF_HOST_MEMORY; a failed allocation, buffer creation or
   * bind is VK_ERROR_OUT_OF_DEVICE_MEMORY; otherwise vkMapMemory's result,
   * with the data pointer set when it succeeds.
   */
  function MapOutcome(properties: MemoryProperties, memorySize: nat, reply: DriverReply,
                      buffer: Option<nat>, deviceMemory: Option<nat>, dataPointer: Option<nat>): (m: MapState)
    requires WellFormed(properties)
  {
    if memorySize == 0 then MapState(Success, buffer, deviceMemory, dataPointer)
    else if ChosenMemoryType(properties, memorySize).None? then MapState(ErrorOutOfHostMemory, buffer, deviceMemory, dataPointer)
    else if reply.allocatedMemory.None? then MapState(ErrorOutOfDeviceMemory, buffer, deviceMemory, dataPointer)
    else if reply.createdBuffer.None? then MapState(ErrorOutOfDeviceMemory, buffer, reply.allocatedMemory, dataPointer)
    else if reply.bindResult != Success then MapState(ErrorOutOfDeviceMemory, reply.createdBuffer, reply.allocatedMemory, dataPointer)
    else
      MapState(reply.mapResult, reply.createdBuffer, reply.allocatedMemory,
        if reply.mapResult == Success then Some(reply.mappedAddress) else dataPointer)
  }

  /** A zero-size request reports success but leaves a null data pointer null. */
  lemma ZeroSizeLeavesPointer(properties: MemoryProperties, reply: DriverReply,
                              buffer: Option<nat>, deviceMemory: Option<nat>)
    requires WellFormed(properties)
    ensures MapOutcome(properties, 0, reply, buffer, deviceMemory, None) == MapState(Success, buffer, deviceMemory, None)
  {
  }

  /**
   * A non-zero request succeeds only through a suitable memory type, and
   * then the data pointer is the mapped address.
   */
  lemma SuccessMeansMapped(properties: MemoryProperties, memorySize: nat, reply: DriverReply,
                           buffer: Option<nat>, deviceMemory: Option<nat>, dataPointer: Option<nat>)
    requires WellFormed(properties) && memorySize > 0
    requires MapOutcome(properties, memorySize, reply, buffer, deviceMemory, dataPointer).result == Success
    ensures ChosenMemoryType(properties, memorySize).Some?
    ensures MapOutcome(properties, memorySize, reply, buffer, deviceMemory, dataPointer).dataPointer == Some(reply.mappedAddress)
    ensures MapOutcome(properties, memorySize, reply, buffer, deviceMemory, dataPointer).deviceMemory == reply.allocatedMemory
  {
  }

  /** With no host-accessible memory type large enough, a non-zero request fails with VK_ERROR_OUT_OF_HOST_MEMORY. */
  lemma NoMemoryTypeFails(properties: MemoryProperties, memorySize: nat, reply: DriverReply,
                          buffer: Option<nat>, deviceMemory: Option<nat>, dataPointer: Option<nat>)
    requires WellFormed(properties) && memorySize > 0
    requires forall k :: 0 <= k < |properties.memoryTypes| ==> !Suitable(properties, k, memorySize)
    ensures MapOutcome(properties, memorySize, reply, buffer, deviceMemory, dataPointer).result == ErrorOutOfHostMemory
  {
  }

  /** The outcome of mapping every entry of the table, entry i with reply i and data pointer i. */
  function MapAll(table: seq<BufferCreationAndMappingData>, pointers: seq<Option<nat>>,
                  properties: MemoryProperties, replies: seq<DriverReply>): (ms: seq<MapState>)
    requires WellFormed(properties) && |pointers| == |table| && |replies| == |table|
    ensures |ms| == |table|
  {
    seq(|table|, i requires 0 <= i < |table| =>
      MapOutcome(properties, table[i].bufferSize, replies[i], table[i].buffer, table[i].deviceMemory, pointers[i]))
  }

  /** The aggregate result: VK_ERROR_MEMORY_MAP_FAILED if any entry failed, else VK_SUCCESS. */
  function MapAllResult(ms: seq<MapState>): (r: VkResult)
    ensures r == Success <==> forall i :: 0 <= i < |ms| ==> ms[i].result == Success
    ensures r == Success || r == ErrorMemoryMapFailed
  {
    if forall i :: 0 <= i < |ms| ==> ms[i].result == Success then Success else ErrorMemoryMapFailed
  }

  /** Why the constructor throws. */
  datatype ShaderError =
    | CreateAndMapFailed     // "Failed to create and map memories for compute shader"
    | NullDataPointer        // "Data pointer for compute shader was nullptr"
    | ShaderModuleFailed     // "Failed to create shader module"
    | DescribeShaderFailed   // "Failed to describe shader"
    | PipelineLayoutFailed   // "Failed to create pipeline layout"
    | DescriptorSetsFailed   // "Failed to allocate and update descriptor sets"

  /**
   * How construction ends after the mapping: a failed mapping, then a null
   * data pointer, then the four setup steps in order, each with the
   * VkResult the driver gave it.
   */
  function InitializeResult(ms: seq<MapState>, setupResults: seq<VkResult>): Result<(), ShaderError>
    requires |setupResults| == 4
  {
    if MapAllResult(ms) != Success then Err(CreateAndMapFailed)
    else if exists i :: 0 <= i < |ms| && ms[i].dataPointer.None? then Err(NullDataPointer)
    else if setupResults[0] != Success then Err(ShaderModuleFailed)
    else if setupResults[1] != Success then Err(DescribeShaderFailed)
    else if setupResults[2] != Success then Err(PipelineLayoutFailed)
    else if setupResults[3] != Success then Err(DescriptorSetsFailed)
    else Ok(())
  }

  function NoPointers(): seq<Option<nat>>
  {
    seq(BufferBindingsCount, _ => None)
  }

  /**
   * An empty sphere list makes construction throw: its zero-size buffer
   * "succeeds" without mapping, so the null check catches it if the mapping
   * itself did not already fail.
   */
  lemma EmptySpheresThrow(materialCount: nat, resolution: InputResolution, properties: MemoryProperties,
                          replies: seq<DriverReply>, setupResults: seq<VkResult>)
    requires WellFormed(properties) && |replies| == BufferBindingsCount && |setupResults| == 4
    ensures var ms := MapAll(BufferTable(0, materialCount, resolution), NoPointers(), properties, replies);
      InitializeResult(ms, setupResults) == Err(CreateAndMapFailed) ||
      InitializeResult(ms, setupResults) == Err(NullDataPointer)
  {
    var ms := MapAll(BufferTable(0, materialCount, resolution), NoPointers(), properties, replies);
    assert ms[BindingIndex(SphereBinding)].dataPointer.None?;
  }

  /** The same holds for an empty material list. */
  lemma EmptyMaterialsThrow(sphereCount: nat, resolution: InputResolution, properties: MemoryProperties,
                            replies: seq<DriverReply>, setupResults: seq<VkResult>)
    requires WellFormed(properties) && |replies| == BufferBindingsCount && |setupResults| == 4
    ensures var ms := MapAll(BufferTable(sphereCount, 0, resolution), NoPointers(), properties, replies);
      InitializeResult(ms, setupResults) == Err(CreateAndMapFailed) ||
      InitializeResult(ms, setupResults) == Err(NullDataPointer)
  {
    var ms := MapAll(BufferTable(sphereCount, 0, resolution), NoPointers(), properties, replies);
    assert ms[BindingIndex(MaterialBinding)].dataPointer.None?;
  }

  /** What the constructor copies into the mapped buffers. */
  datatype Upload = Upload(
    sampleCount: InputSampleCount, resolution: InputResolution, camera: InputCamera,
    spheres: seq<InputSphere>, materials: seq<InputMaterial>)

  /** A VkDescriptorSetLayoutBinding for the compute stage. */
  datatype LayoutBinding = LayoutBinding(binding: nat, descriptorType: DescriptorType, descriptorCount: nat)

  /** A VkDescriptorPoolSize. */
  datatype PoolSize = PoolSize(descriptorType: DescriptorType, descriptorCount: nat)

  /** A VkWriteDescriptorSet with its buffer info (offset 0, whole size). */
  datatype DescriptorWrite = DescriptorWrite(dstBinding: nat, descriptorType: DescriptorType, buffer: Option<nat>, descriptorCount: nat)

  class RayIntersectionComputeShader {
    const sampleCount: nat
    const camera: InputCamera
    const spheres: seq<InputSphere>
    const materials: seq<InputMaterial>
    const resolution: InputResolution

    /** BufferData: one entry per binding. */
    var bufferData: seq<BufferCreationAndMappingData>
    /** input_sample_count, input_resolution, input_camera, input_spheres, input_materials, output_colors. */
    var dataPointers: seq<Option<nat>>
    /** What has been copied into the mapped memory, once it has been. */
    var uploaded: Option<Upload>

    ghost predicate Valid()
      reads this
    {
      |bufferData| == BufferBindingsCount && |dataPointers| == BufferBindingsCount
    }

    /**
     * The first part of the constructor: the buffer table is filled entry by
     * entry and every data pointer starts null. The rest of construction,
     * which can throw, is Initialize.
     */
    constructor (sampleCount: nat, camera: InputCamera, spheres: seq<InputSphere>,
                 materials: seq<InputMaterial>, resolution: InputResolution)
      ensures Valid()
      ensures bufferData == BufferTable(|spheres|, |materials|, resolution)
      ensures dataPointers == NoPointers() && uploaded.None?
      ensures this.sampleCount == sampleCount && this.camera == camera && this.spheres == spheres
      ensures this.materials == materials && this.resolution == resolution
    {
      this.sampleCount := sampleCount;
      this.camera := camera;
      this.spheres := spheres;
      this.materials := materials;
      this.resolution := resolution;
      var table := seq(BufferBindingsCount, _ => Entry(0, StorageBufferUsage, StorageBuffer));
      table := table[BindingIndex(SampleCountBinding) := Entry(SIZE_OF_INPUT_SAMPLE_COUNT, UniformBufferUsage, UniformBuffer)];
      table := table[BindingIndex(ResolutionBinding) := Entry(SIZE_OF_INPUT_RESOLUTION, UniformBufferUsage, UniformBuffer)];
      table := table[BindingIndex(CameraBinding) := Entry(SIZE_OF_INPUT_CAMERA, UniformBufferUsage, UniformBuffer)];
      table := table[BindingIndex(SphereBinding) := Entry(ToSizeT(SIZE_OF_INPUT_SPHERE * |spheres|), StorageBufferUsage, StorageBuffer)];
      table := table[BindingIndex(MaterialBinding) := Entry(ToSizeT(SIZE_OF_INPUT_MATERIAL * |materials|), StorageBufferUsage, StorageBuffer)];
      table := table[BindingIndex(OutputColorBinding) :=
        Entry(ToSizeT(SIZE_OF_OUTPUT_COLOR * resolution.X * resolution.Y), StorageBufferUsage, StorageBuffer)];
      bufferData := table;
      dataPointers := NoPointers();
      uploaded := None;
    }

    /** CreateAndMapMemory for one entry: the memory-type search, then the driver's answers in order. */
    static method CreateAndMapMemory(properties: MemoryProperties, memorySize: nat, reply: DriverReply,
                                     buffer: Option<nat>, deviceMemory: Option<nat>, dataPointer: Option<nat>)
      returns (m: MapState)
      requires WellFormed(properties)
      ensures m == MapOutcome(properties, memorySize, reply, buffer, deviceMemory, dataPointer)
    {
      if memorySize == 0 {
        return MapState(Success, buffer, deviceMemory, dataPointer);
      }
      var memoryTypeIndex := FindMemoryType(properties, memorySize);
      if memoryTypeIndex == VK_MAX_MEMORY_TYPES {
        return MapState(ErrorOutOfHostMemory, buffer, deviceMemory, dataPointer);
      }
      if reply.allocatedMemory.None? {
        return MapState(ErrorOutOfDeviceMemory, buffer, deviceMemory, dataPointer);
      }
      var memory := reply.allocatedMemory;
      if reply.createdBuffer.None? {
        return MapState(ErrorOutOfDeviceMemory, buffer, memory, dataPointer);
      }
      var created := reply.createdBuffer;
      if reply.bindResult != Success {
        return MapState(ErrorOutOfDeviceMemory, created, memory, dataPointer);
      }
      var mapped := if reply.mapResult == Success then Some(reply.mappedAddress) else dataPointer;
      return MapState(reply.mapResult, created, memory, mapped);
    }

    /**
     * CreateAndMapMemories: every entry is tried, even after a failure, and
     * the result is VK_ERROR_MEMORY_MAP_FAILED iff some entry failed.
     */
    method CreateAndMapMemories(properties: MemoryProperties, replies: seq<DriverReply>) returns (result: VkResult)
      requires Valid() && WellFormed(properties) && |replies| == BufferBindingsCount
      modifies this
      ensures Valid() && uploaded == old(uploaded)
      ensures var ms := MapAll(old(bufferData), old(dataPointers), properties, replies);
        result == MapAllResult(ms) &&
        (forall i :: 0 <= i < BufferBindingsCount ==>
          bufferData[i] == old(bufferData[i]).(buffer := ms[i].buffer, deviceMemory := ms[i].deviceMemory) &&
          dataPointers[i] == ms[i].dataPointer)
    {
      ghost var ms := MapAll(bufferData, dataPointers, properties, replies);
      ghost var table := bufferData;
      ghost var pointers := dataPointers;
      result := Success;
      var i := 0;
      while i < |bufferData|
        invariant 0 <= i <= BufferBindingsCount && Valid() && uploaded == old(uploaded)
        invariant forall j :: i <= j < BufferBindingsCount ==> bufferData[j] == table[j] && dataPointers[j] == pointers[j]
        invariant forall j :: 0 <= j < i ==>
          bufferData[j] == table[j].(buffer := ms[j].buffer, deviceMemory := ms[j].deviceMemory) && dataPointers[j] == ms[j].dataPointer
        invariant result == Success <==> forall j :: 0 <= j < i ==> ms[j].result == Success
        invariant result == Success || result == ErrorMemoryMapFailed
      {
        var entry := bufferData[i];
        var m := CreateAndMapMemory(properties, entry.bufferSize, replies[i], entry.buffer, entry.deviceMemory, dataPointers[i]);
        if m.result != Success {
          result := ErrorMemoryMapFailed;
        }
        bufferData := bufferData[i := entry.(buffer := m.buffer, deviceMemory := m.deviceMemory)];
        dataPointers := dataPointers[i := m.dataPointer];
        i := i + 1;
      }
    }

    /**
     * The throwing part of the constructor: map every buffer, check that no
     * data pointer is null, upload the inputs, then build the shader module,
     * the layout, the pipeline and the descriptor sets (their VkResults are
     * setupResults).
     */
    method Initialize(properties: MemoryProperties, replies: seq<DriverReply>, setupResults: seq<VkResult>)
      returns (r: Result<(), ShaderError>)
      requires Valid() && WellFormed(properties) && |replies| == BufferBindingsCount && |setupResults| == 4
      modifies this
      ensures Valid()
      ensures var ms := MapAll(old(bufferData), old(dataPointers), properties, replies);
        r == InitializeResult(ms, setupResults) &&
        forall i :: 0 <= i < BufferBindingsCount ==>
          bufferData[i] == old(bufferData[i]).(buffer := ms[i].buffer, deviceMemory := ms[i].deviceMemory) &&
          dataPointers[i] == ms[i].dataPointer
      ensures r == Err(CreateAndMapFailed) || r == Err(NullDataPointer) ==> uploaded == old(uploaded)
      ensures r != Err(CreateAndMapFailed) && r != Err(NullDataPointer) ==>
        uploaded == Some(Upload(InputSampleCount(sampleCount), resolution, camera, spheres, materials))
    {
      var mapped := CreateAndMapMemories(properties, replies);
      ghost var ms := MapAll(old(bufferData), old(dataPointers), properties, replies);
      if mapped != Success {
        return Err(CreateAndMapFailed);
      }
      var k := 0;
      while k < |dataPointers|
        invariant 0 <= k <= BufferBindingsCount
        invariant forall j :: 0 <= j < k ==> dataPointers[j].Some?
      {
        if dataPointers[k].None? {
          return Err(NullDataPointer);
        }
        k := k + 1;
      }
      uploaded := Some(Upload(InputSampleCount(sampleCount), resolution, camera, spheres, materials));
      if setupResults[0] != Success {
        return Err(ShaderModuleFailed);
      }
      if setupResults[1] != Success {
        return Err(DescribeShaderFailed);
      }
      if setupResults[2] != Success {
        return Err(PipelineLayoutFailed);
      }
      if setupResults[3] != Success {
        return Err(DescriptorSetsFailed);
      }
      return Ok(());
    }

    /** DescribeShader's layout: binding i takes entry i's descriptor type, once, for the compute stage. */
    method DescribeShader() returns (bindings: seq<LayoutBinding>)
      requires Valid()
      ensures |bindings| == BufferBindingsCount
      ensures forall i :: 0 <= i < |bindings| ==> bindings[i] == LayoutBinding(i, bufferData[i].descriptorType, 1)
    {
      bindings := [];
      var i := 0;
      while i < |bufferData|
        invariant 0 <= i <= |bufferData| && |bindings| == i
        invariant forall j :: 0 <= j < i ==> bindings[j] == LayoutBinding(j, bufferData[j].descriptorType, 1)
      {
        bindings := bindings + [LayoutBinding(i, bufferData[i].descriptorType, 1)];
        i := i + 1;
      }
    }

    /** AllocateDescriptorSets' pool: one descriptor of entry i's type per binding. */
    method DescriptorPoolSizes() returns (sizes: seq<PoolSize>)
      requires Valid()
      ensures |sizes| == BufferBindingsCount
      ensures forall i :: 0 <= i < |sizes| ==> sizes[i] == PoolSize(bufferData[i].descriptorType, 1)
    {
      sizes := [];
      var i := 0;
      while i < |bufferData|
        invariant 0 <= i <= |bufferData| && |sizes| == i
        invariant forall j :: 0 <= j < i ==> sizes[j] == PoolSize(bufferData[j].descriptorType, 1)
      {
        sizes := sizes + [PoolSize(bufferData[i].descriptorType, 1)];
        i := i + 1;
      }
    }

    /** UpdateDescriptorSets' writes: entry i's whole buffer at binding i, with entry i's descriptor type. */
    method UpdateDescriptorSets() returns (writes: seq<DescriptorWrite>)
      requires Valid()
      ensures |writes| == BufferBindingsCount
      ensures forall i :: 0 <= i < |writes| ==>
        writes[i] == DescriptorWrite(i, bufferData[i].descriptorType, bufferData[i].buffer, 1)
    {
      writes := [];
      var i := 0;
      while i < |bufferData|
        invariant 0 <= i <= |bufferData| && |writes| == i
        invariant forall j :: 0 <= j < i ==> writes[j] == DescriptorWrite(j, bufferData[j].descriptorType, bufferData[j].buffer, 1)
      {
        writes := writes + [DescriptorWrite(i, bufferData[i].descriptorType, bufferData[i].buffer, 1)];
        i := i + 1;
      }
    }

    /** GetOutputColors: the mapped output buffer. */
    function GetOutputColors(): Option<nat>
      reads this
      requires Valid()
    {
      dataPointers[BindingIndex(OutputColorBinding)]
    }

    /**
     * UnmapAndDestroyMemories: unmaps and frees, in table order, exactly the
     * entries whose device memory is not null. The table is not cleared.
     */
    method UnmapAndDestroyMemories() returns (freed: seq<nat>)
      requires Valid()
      ensures forall i :: i in freed <==> 0 <= i < |bufferData| && bufferData[i].deviceMemory.Some?
      ensures forall a, b :: 0 <= a < b < |freed| ==> freed[a] < freed[b]
    {
      freed := [];
      var i := 0;
      while i < |bufferData|
        invariant 0 <= i <= |bufferData|
        invariant forall j :: j in freed <==> 0 <= j < i && bufferData[j].deviceMemory.Some?
        invariant forall a, b :: 0 <= a < b < |freed| ==> freed[a] < freed[b]
        invariant forall a :: 0 <= a < |freed| ==> freed[a] < i
      {
        if bufferData[i].deviceMemory.Some? {
          freed := freed + [i];
        }
        i := i + 1;
      }
    }
  }

  /** A shader constructed and initialised successfully hands out a mapped, non-null output buffer. */
  lemma InitializedOutputMapped(ms: seq<MapState>, setupResults: seq<VkResult>)
    requires |ms| == BufferBindingsCount && |setupResults| == 4
    requires InitializeResult(ms, setupResults).Ok?
    ensures forall i :: 0 <= i < |ms| ==> ms[i].dataPointer.Some? && ms[i].result == Success
  {
  }
}
