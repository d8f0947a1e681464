/**
 * The Vulkan vocabulary the renderers use: result codes, queue capability
 * bits and memory property bits, as the Vulkan headers define them.
 */
module Vulkan {
  import opened Wrappers

  /** The VkResult codes the renderers produce or test. */
  datatype VkResult =
    | Success
    | Incomplete
    | ErrorOutOfHostMemory
    | ErrorOutOfDeviceMemory
    | ErrorInitializationFailed
    | ErrorMemoryMapFailed
    | ErrorExtensionNotPresent
    | ErrorUnknown

  /** VkBool32 false. */
  const VK_FALSE: int := 0

  /** VkQueueFlagBits. */
  const QUEUE_GRAPHICS: bv32 := 0x1
  const QUEUE_COMPUTE: bv32 := 0x2
  const QUEUE_TRANSFER: bv32 := 0x4
  const QUEUE_SPARSE_BINDING: bv32 := 0x8

  /** VkMemoryPropertyFlagBits. */
  const MEMORY_HOST_VISIBLE: bv32 := 0x2
  const MEMORY_HOST_COHERENT: bv32 := 0x4
  const MEMORY_HOST_CACHED: bv32 := 0x8

  /** VK_MAX_MEMORY_TYPES, also the "no type chosen" marker of the memory-type searches. */
  const VK_MAX_MEMORY_TYPES: nat := 32

  /** The buffer usages and descriptor types the shaders bind. */
  datatype BufferUsage = UniformBufferUsage | StorageBufferUsage
  datatype DescriptorType = UniformBuffer | StorageBuffer

  /** One entry of VkPhysicalDeviceMemoryProperties::memoryTypes. */
  datatype MemoryType = MemoryType(propertyFlags: bv32, heapIndex: nat)

  /** The memory types and the sizes of the memory heaps of a physical device. */
  datatype MemoryProperties = MemoryProperties(memoryTypes: seq<MemoryType>, memoryHeaps: seq<nat>)

  /** What a driver guarantees: at most VK_MAX_MEMORY_TYPES types, each naming an existing heap. */
  predicate WellFormed(p: MemoryProperties)
  {
    |p.memoryTypes| <= VK_MAX_MEMORY_TYPES &&
    forall k :: 0 <= k < |p.memoryTypes| ==> p.memoryTypes[k].heapIndex < |p.memoryHeaps|
  }

  /** Host-visible, host-coherent and host-cached all at once. */
  predicate HostAccessible(flags: bv32)
  {
    MEMORY_HOST_VISIBLE & flags != 0 && MEMORY_HOST_COHERENT & flags != 0 && MEMORY_HOST_CACHED & flags != 0
  }

  /** Memory type k can hold a mapped buffer of size bytes: host-accessible, on a heap strictly larger. */
  predicate Suitable(p: MemoryProperties, k: nat, size: nat)
    requires WellFormed(p) && k < |p.memoryTypes|
  {
    HostAccessible(p.memoryTypes[k].propertyFlags) && size < p.memoryHeaps[p.memoryTypes[k].heapIndex]
  }

  /** The lowest suitable memory type at index k or above. */
  function FirstSuitableFrom(p: MemoryProperties, size: nat, k: nat): (r: Option<nat>)
    requires WellFormed(p) && k <= |p.memoryTypes|
    ensures r.Some? ==> k <= r.value < |p.memoryTypes| && Suitable(p, r.value, size)
    ensures r.Some? ==> forall j :: k <= j < r.value ==> !Suitable(p, j, size)
    ensures r.None? <==> forall j :: k <= j < |p.memoryTypes| ==> !Suitable(p, j, size)
    decreases |p.memoryTypes| - k
  {
    if k == |p.memoryTypes| then None
    else if Suitable(p, k, size) then Some(k)
    else FirstSuitableFrom(p, size, k + 1)
  }

  /** The memory type a buffer of size bytes is allocated from, if any. */
  function ChosenMemoryType(p: MemoryProperties, size: nat): Option<nat>
    requires WellFormed(p)
  {
    FirstSuitableFrom(p, size, 0)
  }

  /**
   * The search both renderers run before allocating: scan the memory types
   * in order and stop at the first suitable one; VK_MAX_MEMORY_TYPES when
   * there is none.
   */
  method FindMemoryType(properties: MemoryProperties, memorySize: nat) returns (memoryTypeIndex: nat)
    requires WellFormed(properties)
    ensures memoryTypeIndex == VK_MAX_MEMORY_TYPES <==> ChosenMemoryType(properties, memorySize).None?
    ensures memoryTypeIndex != VK_MAX_MEMORY_TYPES ==> ChosenMemoryType(properties, memorySize) == Some(memoryTypeIndex)
  {
    memoryTypeIndex := VK_MAX_MEMORY_TYPES;
    var k := 0;
    while k < |properties.memoryTypes|
      invariant 0 <= k <= |properties.memoryTypes|
      invariant FirstSuitableFrom(properties, memorySize, k) == ChosenMemoryType(properties, memorySize)
    {
      var memoryType := properties.memoryTypes[k];
      if MEMORY_HOST_VISIBLE & memoryType.propertyFlags != 0 &&
         MEMORY_HOST_COHERENT & memoryType.propertyFlags != 0 &&
         MEMORY_HOST_CACHED & memoryType.propertyFlags != 0 &&
         memorySize < properties.memoryHeaps[memoryType.heapIndex]
      {
        memoryTypeIndex := k;
        break;
      }
      k := k + 1;
    }
  }

  /** A smaller request never fails where a larger one succeeds, and it gets the same or a lower type. */
  lemma {:induction false} SmallerRequestFits(p: MemoryProperties, small: nat, large: nat, k: nat)
    requires WellFormed(p) && k <= |p.memoryTypes| && small <= large
    requires FirstSuitableFrom(p, large, k).Some?
    ensures FirstSuitableFrom(p, small, k).Some?
    ensures FirstSuitableFrom(p, small, k).value <= FirstSuitableFrom(p, large, k).value
    decreases |p.memoryTypes| - k
  {
    if !Suitable(p, k, small) {
      SmallerRequestFits(p, small, large, k + 1);
    }
  }

  /** What an instance-level enumeration reports: the result of the count call, of the fill call, and the names. */
  datatype Enumeration = Enumeration(countCall: VkResult, fillCall: VkResult, names: seq<string>)

  /** A physical device as the renderers query it. */
  datatype PhysicalDevice = PhysicalDevice(extensions: seq<string>, queueFamilies: seq<bv32>, memory: MemoryProperties)
}

/**
 * RayTracerLib/VulkanUtils.cpp: availability checks for required layers and
 * extensions, the choice of a compute queue family, and the debug callback.
 * Enumerations the Vulkan loader performs are parameters: the result of each
 * call and the names it reports.
 */
module VulkanUtils {
  import opened Wrappers
  import opened Integers
  import opened Vulkan

  /** Every required name strcmp-equals some available name. */
  predicate AllAvailable(required: seq<string>, available: seq<string>)
  {
    forall i :: 0 <= i < |required| ==> required[i] in available
  }

  /**
   * The search every Verify* function makes: for each required name, scan
   * the available names until one matches; give up at the first required
   * name with no match.
   */
  method AllRequiredFound(required: seq<string>, available: seq<string>) returns (ok: bool)
    ensures ok <==> AllAvailable(required, available)
  {
    var r := 0;
    while r < |required|
      invariant 0 <= r <= |required|
      invariant forall i :: 0 <= i < r ==> required[i] in available
    {
      var layerFound := false;
      var a := 0;
      while a < |available|
        invariant 0 <= a <= |available|
        invariant !layerFound ==> required[r] !in available[..a]
        invariant layerFound ==> required[r] in available
      {
        if required[r] == available[a] {
          layerFound := true;
          break;
        }
        a := a + 1;
      }
      if !layerFound {
        assert available[..a] == available;
        return false;
      }
      r := r + 1;
    }
    return true;
  }

  /**
   * The instance-level rule: an empty list is met at once; otherwise both
   * enumeration calls must succeed and every required name must be listed.
   */
  predicate InstanceRequirementMet(required: seq<string>, enumeration: Enumeration)
  {
    |required| == 0 ||
    (enumeration.countCall == Success && enumeration.fillCall == Success && AllAvailable(required, enumeration.names))
  }

  /** A failed enumeration call fails a non-empty requirement, even if the names would have matched. */
  lemma FailedEnumerationFails(required: seq<string>, enumeration: Enumeration)
    requires |required| > 0 && (enumeration.countCall != Success || enumeration.fillCall != Success)
    ensures !InstanceRequirementMet(required, enumeration)
  {
  }

  /** VerifyInstanceLayers: the instance-level rule over instance layers. */
  method VerifyInstanceLayers(requiredInstanceLayers: seq<string>, layers: Enumeration) returns (ok: bool)
    ensures ok <==> InstanceRequirementMet(requiredInstanceLayers, layers)
  {
    if |requiredInstanceLayers| == 0 {
      return true;
    }
    if layers.countCall != Success {
      return false;
    }
    if layers.fillCall != Success {
      return false;
    }
    ok := AllRequiredFound(requiredInstanceLayers, layers.names);
  }

  /** VerifyInstanceExtensions: the same rule over instance extensions. */
  method VerifyInstanceExtensions(requiredInstanceExtensions: seq<string>, extensions: Enumeration) returns (ok: bool)
    ensures ok <==> InstanceRequirementMet(requiredInstanceExtensions, extensions)
  {
    if |requiredInstanceExtensions| == 0 {
      return true;
    }
    if extensions.countCall != Success {
      return false;
    }
    if extensions.fillCall != Success {
      return false;
    }
    ok := AllRequiredFound(requiredInstanceExtensions, extensions.names);
  }

  /**
   * VerifyDeviceExtensions: an empty requirement is met without asking the
   * device. Otherwise the device's extensions are enumerated through
   * vulkan.hpp, which throws vk::SystemError with the failing VkResult
   * (enumeration is Err(code)); the exception escapes as Err(code).
   */
  method VerifyDeviceExtensions(requiredDeviceExtensions: seq<string>, enumeration: Result<seq<string>, VkResult>)
    returns (r: Result<bool, VkResult>)
    ensures |requiredDeviceExtensions| == 0 ==> r == Ok(true)
    ensures |requiredDeviceExtensions| > 0 && enumeration.Err? ==> r == Err(enumeration.error)
    ensures enumeration.Ok? ==> r == Ok(AllAvailable(requiredDeviceExtensions, enumeration.value))
  {
    if |requiredDeviceExtensions| == 0 {
      return Ok(true);
    }
    if enumeration.Err? {
      return Err(enumeration.error);
    }
    var ok := AllRequiredFound(requiredDeviceExtensions, enumeration.value);
    return Ok(ok);
  }

  /** An empty requirement is met whatever the enumeration reports, even a failure. */
  lemma EmptyRequirementMet(enumeration: Enumeration)
    ensures InstanceRequirementMet([], enumeration)
  {
  }

  /** A required name missing from the enumeration fails the check. */
  lemma MissingNameFails(required: seq<string>, available: seq<string>, i: nat)
    requires i < |required| && required[i] !in available
    ensures !AllAvailable(required, available)
  {
  }

  /** The queue flags with the transfer and sparse-binding bits cleared. */
  function Masked(flags: bv32): bv32
  {
    !(QUEUE_TRANSFER | QUEUE_SPARSE_BINDING) & flags
  }

  /** A dedicated compute family: compute without graphics, once the ignored bits are masked. */
  predicate ComputeOnly(flags: bv32)
  {
    QUEUE_GRAPHICS & Masked(flags) == 0 && QUEUE_COMPUTE & Masked(flags) != 0
  }

  predicate HasCompute(flags: bv32)
  {
    QUEUE_COMPUTE & Masked(flags) != 0
  }

  /** The masked-out bits never change the choice; only the compute and graphics bits count. */
  lemma MaskIgnoresTransferAndSparse(flags: bv32)
    ensures ComputeOnly(flags | QUEUE_TRANSFER | QUEUE_SPARSE_BINDING) == ComputeOnly(flags)
    ensures HasCompute(flags | QUEUE_TRANSFER | QUEUE_SPARSE_BINDING) == HasCompute(flags)
    ensures HasCompute(flags) <==> flags & QUEUE_COMPUTE != 0
    ensures ComputeOnly(flags) <==> flags & QUEUE_COMPUTE != 0 && flags & QUEUE_GRAPHICS == 0
  {
  }

  /** The lowest index whose flags satisfy p. */
  function FirstWhere(families: seq<bv32>, p: bv32 -> bool): (r: Option<nat>)
    ensures r.None? <==> forall i :: 0 <= i < |families| ==> !p(families[i])
    ensures r.Some? ==> (r.value < |families| && p(families[r.value]) &&
      forall j :: 0 <= j < r.value ==> !p(families[j]))
  {
    if |families| == 0 then None
    else if p(families[0]) then Some(0)
    else
      var rest := FirstWhere(families[1..], p);
      if rest.None? then None else Some(rest.value + 1)
  }

  /** The family chosen: the lowest dedicated compute family, else the lowest with compute. */
  function BestComputeQueue(families: seq<bv32>): Option<nat>
  {
    var dedicated := FirstWhere(families, ComputeOnly);
    if dedicated.Some? then dedicated else FirstWhere(families, HasCompute)
  }

  /** A family is found exactly when some family has compute, and it always has compute. */
  lemma BestComputeQueueFound(families: seq<bv32>)
    ensures BestComputeQueue(families).Some? <==> exists i :: 0 <= i < |families| && HasCompute(families[i])
    ensures BestComputeQueue(families).Some? ==>
      BestComputeQueue(families).value < |families| && HasCompute(families[BestComputeQueue(families).value])
  {
    if FirstWhere(families, ComputeOnly).None? {
      var any := FirstWhere(families, HasCompute);
      if any.None? {
        forall i | 0 <= i < |families| ensures !HasCompute(families[i]) {
          assert !HasCompute(families[i]);
        }
      }
    }
  }

  /** A dedicated family wins over any earlier family that also does graphics. */
  lemma DedicatedPreferred(families: seq<bv32>, i: nat)
    requires i < |families| && ComputeOnly(families[i])
    ensures BestComputeQueue(families).Some?
    ensures ComputeOnly(families[BestComputeQueue(families).value])
    ensures BestComputeQueue(families).value <= i
  {
  }

  /**
   * GetBestComputeQueue: two passes over the queue families. On success the
   * index names the chosen family; without a compute family the result is
   * eErrorInitializationFailed and the caller's index is left as it was.
   */
  method GetBestComputeQueue(queueFamilyProperties: seq<bv32>, queueFamilyIndex: nat)
    returns (result: VkResult, index: nat)
    ensures result == Success || result == ErrorInitializationFailed
    ensures result == Success <==> BestComputeQueue(queueFamilyProperties).Some?
    ensures result == Success ==> BestComputeQueue(queueFamilyProperties) == Some(index)
    ensures result != Success ==> index == queueFamilyIndex
  {
    index := queueFamilyIndex;
    var i := 0;
    while i < |queueFamilyProperties|
      invariant 0 <= i <= |queueFamilyProperties|
      invariant forall j :: 0 <= j < i ==> !ComputeOnly(queueFamilyProperties[j])
    {
      var maskedFlags := Masked(queueFamilyProperties[i]);
      if QUEUE_GRAPHICS & maskedFlags == 0 && QUEUE_COMPUTE & maskedFlags != 0 {
        index := i;
        return Success, index;
      }
      i := i + 1;
    }
    i := 0;
    while i < |queueFamilyProperties|
      invariant 0 <= i <= |queueFamilyProperties|
      invariant forall j :: 0 <= j < i ==> !HasCompute(queueFamilyProperties[j])
    {
      var maskedFlags := Masked(queueFamilyProperties[i]);
      if QUEUE_COMPUTE & maskedFlags != 0 {
        index := i;
        return Success, index;
      }
      i := i + 1;
    }
    return ErrorInitializationFailed, index;
  }

  /** The validation layer and the extensions a debug build requires; a release build requires none. */
  function DebugInstanceLayers(debugBuild: bool): seq<string>
  {
    if debugBuild then ["VK_LAYER_KHRONOS_validation"] else []
  }

  function DebugInstanceExtensions(debugBuild: bool): seq<string>
  {
    if debugBuild then ["VK_EXT_debug_utils"] else []
  }

  function DebugDeviceExtensions(debugBuild: bool): seq<string>
  {
    if debugBuild then ["VK_KHR_shader_non_semantic_info"] else []
  }

  /** A release build's requirements are met by any instance and any device. */
  lemma ReleaseBuildRequiresNothing(layers: Enumeration, extensions: Enumeration, device: PhysicalDevice)
    ensures InstanceRequirementMet(DebugInstanceLayers(false), layers)
    ensures InstanceRequirementMet(DebugInstanceExtensions(false), extensions)
    ensures AllAvailable(DebugDeviceExtensions(false), device.extensions)
  {
  }

  /** std::string::npos, the largest size_t. */
  const NPOS: nat := SIZE_T_LIMIT - 1

  /** find_last_of for one character: the last index holding c, or None (npos). */
  function FindLastOf(s: string, c: char): (r: Option<nat>)
    ensures r.None? <==> c !in s
    ensures r.Some? ==> r.value < |s| && s[r.value] == c && forall j :: r.value < j < |s| ==> s[j] != c
  {
    if |s| == 0 then None
    else if s[|s| - 1] == c then Some(|s| - 1)
    else
      assert s == s[..|s| - 1] + [s[|s| - 1]];
      FindLastOf(s[..|s| - 1], c)
  }

  /**
   * The text the callback prints: substr(find_last_of('|') + 1). Without a
   * '|', npos + 1 wraps to 0 in size_t and the whole message is kept.
   */
  function UserMessage(fullMessage: string): string
  {
    var found := FindLastOf(fullMessage, '|');
    var position: nat := if found.Some? then found.value else NPOS;
    fullMessage[ToSizeT(position + 1)..]
  }

  /** The printed text is what follows the last '|', or all of it when there is none; it never holds a '|'. */
  lemma UserMessageAfterLastBar(fullMessage: string)
    requires |fullMessage| < NPOS  // a std::string is shorter than npos
    ensures '|' !in fullMessage ==> UserMessage(fullMessage) == fullMessage
    ensures '|' in fullMessage ==>
      exists i :: 0 <= i < |fullMessage| && fullMessage[i] == '|' && UserMessage(fullMessage) == fullMessage[i + 1..]
    ensures '|' !in UserMessage(fullMessage)
  {
    var found := FindLastOf(fullMessage, '|');
    if found.None? {
      assert ToSizeT(NPOS + 1) == 0;
      assert fullMessage[0..] == fullMessage;
    } else {
      var i := found.value;
      assert ToSizeT(i + 1) == i + 1;
      assert UserMessage(fullMessage) == fullMessage[i + 1..];
      assert fullMessage[i] == '|';
    }
  }

  /**
   * DefaultVulkanDebugCallback in a debug build: prints a tag and the user
   * part of the message, and always answers VK_FALSE so the call that
   * raised the message is not aborted.
   */
  method DefaultVulkanDebugCallback(message: string) returns (printed: string, result: int)
    ensures printed == "[VULKAN DEBUG] : " + UserMessage(message) + "\n"
    ensures result == VK_FALSE
  {
    var userMessage := UserMessage(message);
    printed := "[VULKAN DEBUG] : " + userMessage + "\n";
    result := VK_FALSE;
  }
}
