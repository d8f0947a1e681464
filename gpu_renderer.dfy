/**
 * GPURenderer.cpp: the first GPU renderer. It verifies the instance layers
 * and extensions, creates a headless instance and a device on the first
 * physical device, runs the ray intersection shader once over every pixel
 * and copies the shader's output colours into a new image.
 *
 * Every Vulkan call is replaced by the answer the driver gives it (a
 * GPUDriver value); the conversion of an OutputColor's floats to an 8-bit
 * Color is a parameter.
 */
module GPURenderer {
  import opened Wrappers
  import opened Integers
  import opened Colors
  import opened Vulkan
  import opened VulkanUtils
  import opened RayIntersection
  import opened Materials
  import Scene
  import Camera
  import Image

  const VALIDATION_LAYER: string := "VK_LAYER_KHRONOS_validation"
  const DEBUG_UTILS_EXTENSION: string := "VK_EXT_debug_utils"

  /**
   * The member list after `calls` verifications: each one appends the name
   * once more when debugging is enabled.
   */
  function Grown(list: seq<string>, debug: bool, name: string, calls: nat): (r: seq<string>)
    ensures |r| == |list| + (if debug then calls else 0)
    ensures r[..|list|] == list
    ensures forall i :: |list| <= i < |r| ==> r[i] == name
  {
    if calls == 0 || !debug then list else Grown(list, debug, name, calls - 1) + [name]
  }

  /** Growing a list a times and then b times grows it a + b times: successive Render calls add up. */
  lemma {:induction false} GrownTwice(list: seq<string>, debug: bool, name: string, a: nat, b: nat)
    ensures Grown(Grown(list, debug, name, a), debug, name, b) == Grown(list, debug, name, a + b)
  {
    if b > 0 && debug {
      GrownTwice(list, debug, name, a, b - 1);
    }
  }

  /** Repeated verification grows the list but never changes the verdict of the first. */
  lemma {:induction false} RepeatedVerificationAgrees(list: seq<string>, debug: bool, name: string,
                                                      calls: nat, available: seq<string>)
    requires calls >= 1
    ensures AllAvailable(Grown(list, debug, name, calls), available) <==> AllAvailable(Grown(list, debug, name, 1), available)
  {
    if calls > 1 && debug {
      RepeatedVerificationAgrees(list, debug, name, calls - 1, available);
      var shorter := Grown(list, debug, name, calls - 1);
      var longer := Grown(list, debug, name, calls);
      assert longer == shorter + [name];
      assert name in shorter by { assert shorter[|shorter| - 1] == name; }
      assert AllAvailable(longer, available) <==> AllAvailable(shorter, available) by {
        if AllAvailable(shorter, available) {
          forall i | 0 <= i < |longer| ensures longer[i] in available {
            if i == |shorter| {
              assert shorter[|shorter| - 1] in available;
            } else {
              assert longer[i] == shorter[i];
            }
          }
        } else {
          var i :| 0 <= i < |shorter| && shorter[i] !in available;
          assert longer[i] == shorter[i];
        }
      }
    }
  }

  /** A debug build on a system without the validation layer fails layer verification, whatever else it requires. */
  lemma DebugWithoutValidationFails(list: seq<string>, available: seq<string>)
    requires VALIDATION_LAYER !in available
    ensures !AllAvailable(Grown(list, true, VALIDATION_LAYER, 1), available)
  {
    MissingNameFails(Grown(list, true, VALIDATION_LAYER, 1), available, |list|);
  }

  /** InputSphere for each sphere among the objects, in scene order. */
  function InputSpheres(spheres: seq<Scene.Sphere>): (r: seq<InputSphere>)
    ensures |r| == |spheres|
    ensures forall i :: 0 <= i < |spheres| ==> r[i] == InputSphereOf(spheres[i])
  {
    seq(|spheres|, i requires 0 <= i < |spheres| => InputSphereOf(spheres[i]))
  }

  /** Converting one more sphere appends its InputSphere. */
  lemma InputSpheresSnoc(spheres: seq<Scene.Sphere>, sphere: Scene.Sphere)
    ensures InputSpheres(spheres + [sphere]) == InputSpheres(spheres) + [InputSphereOf(sphere)]
  {
    assert |InputSpheres(spheres + [sphere])| == |InputSpheres(spheres) + [InputSphereOf(sphere)]|;
  }

  /** The loop that skips every object the dynamic_cast to Sphere rejects. */
  method CollectInputSpheres(objects: seq<Scene.SceneObject>) returns (inputSpheres: seq<InputSphere>)
    ensures inputSpheres == InputSpheres(Scene.SpheresOf(objects))
  {
    inputSpheres := [];
    var i := 0;
    while i < |objects|
      invariant 0 <= i <= |objects|
      invariant inputSpheres == InputSpheres(Scene.SpheresOf(objects[..i]))
    {
      Scene.SpheresOfAdd(objects[..i], objects[i]);
      assert objects[..i + 1] == objects[..i] + [objects[i]];
      if objects[i].SphereObject? {
        InputSpheresSnoc(Scene.SpheresOf(objects[..i]), objects[i].sphere);
        inputSpheres := inputSpheres + [InputSphereOf(objects[i].sphere)];
      }
      i := i + 1;
    }
    assert objects[..i] == objects;
  }

  /** The loop that converts every material, in scene order. */
  method CollectInputMaterials(materials: seq<Material>) returns (inputMaterials: seq<InputMaterial>)
    ensures |inputMaterials| == |materials|
    ensures forall i :: 0 <= i < |materials| ==> inputMaterials[i] == InputMaterialOf(materials[i])
  {
    inputMaterials := [];
    var i := 0;
    while i < |materials|
      invariant 0 <= i <= |materials| && |inputMaterials| == i
      invariant forall j :: 0 <= j < i ==> inputMaterials[j] == InputMaterialOf(materials[j])
    {
      inputMaterials := inputMaterials + [InputMaterialOf(materials[i])];
      i := i + 1;
    }
  }

  /** The index Render reads for pixel (x, y). */
  function ReadbackIndex(x: nat, y: nat, resolution: Image.ImageResolution): nat
  {
    y * resolution.X + x
  }

  /**
   * Readback visits each output colour exactly once: every pixel's index is
   * in range and gives back that pixel, and every index in range is some
   * pixel's.
   */
  lemma ReadbackIndexBijective(resolution: Image.ImageResolution)
    ensures forall x: nat, y: nat :: x < resolution.X && y < resolution.Y ==>
      ReadbackIndex(x, y, resolution) < resolution.X * resolution.Y &&
      ReadbackIndex(x, y, resolution) % resolution.X == x &&
      ReadbackIndex(x, y, resolution) / resolution.X == y
    ensures forall i: nat :: i < resolution.X * resolution.Y ==>
      i % resolution.X < resolution.X && i / resolution.X < resolution.Y &&
      ReadbackIndex(i % resolution.X, i / resolution.X, resolution) == i
  {
    var w := resolution.X;
    var h := resolution.Y;
    forall x: nat, y: nat | x < w && y < h
      ensures ReadbackIndex(x, y, resolution) < w * h
      ensures ReadbackIndex(x, y, resolution) % w == x && ReadbackIndex(x, y, resolution) / w == y
    {
      RowMajor(x, y, w, h);
    }
    forall i: nat | i < w * h
      ensures i % w < w && i / w < h && ReadbackIndex(i % w, i / w, resolution) == i
    {
      var q := i / w;
      assert i == q * w + i % w;
      if q >= h {
        MulMonotone(h, q, w);
      }
    }
  }

  /** Every pixel (x, y) of the image holds the converted output colour at y·X + x. */
  ghost predicate ReadBackImage(rows: seq<seq<Byte>>, resolution: Image.ImageResolution,
                                outputColors: seq<OutputColor>, toColor: OutputColor -> Color)
  {
    Image.Shaped(rows, resolution) && |outputColors| == resolution.X * resolution.Y &&
    forall x: nat, y: nat :: x < resolution.X && y < resolution.Y ==>
      ReadbackIndex(x, y, resolution) < |outputColors| &&
      Image.PixelAt(rows, resolution, x, y) == toColor(outputColors[ReadbackIndex(x, y, resolution)])
  }

  /** The output colours of row y. */
  function RowOf(outputColors: seq<OutputColor>, width: nat, y: nat): (row: seq<OutputColor>)
    requires y * width + width <= |outputColors|
    ensures |row| == width
    ensures forall x :: 0 <= x < width ==> row[x] == outputColors[y * width + x]
  {
    outputColors[y * width .. y * width + width]
  }

  /** Row y of the image holds the converted colours of rowColors. */
  ghost predicate RowCopied(rows: seq<seq<Byte>>, resolution: Image.ImageResolution, y: nat,
                            rowColors: seq<OutputColor>, toColor: OutputColor -> Color)
    requires Image.Shaped(rows, resolution) && y < resolution.Y && |rowColors| == resolution.X
  {
    forall x: nat :: x < resolution.X ==> Image.PixelAt(rows, resolution, x, y) == toColor(rowColors[x])
  }

  lemma RowCopiedFrame(a: seq<seq<Byte>>, b: seq<seq<Byte>>, resolution: Image.ImageResolution, y: nat,
                       rowColors: seq<OutputColor>, toColor: OutputColor -> Color)
    requires Image.Shaped(a, resolution) && Image.Shaped(b, resolution) && y < resolution.Y
    requires |rowColors| == resolution.X && a[y] == b[y]
    ensures RowCopied(a, resolution, y, rowColors, toColor) == RowCopied(b, resolution, y, rowColors, toColor)
  {
  }

  lemma RowFits(y: nat, width: nat, height: nat)
    requires y < height
    ensures y * width + width <= width * height
  {
    MulMonotone(y + 1, height, width);
  }

  /** The inner loop of the readback: row y, left to right. */
  method ReadBackRow(image: Image.Image, y: nat, rowColors: seq<OutputColor>, toColor: OutputColor -> Color)
    requires image.Valid() && y < image.resolution.Y && |rowColors| == image.resolution.X
    modifies image
    ensures image.Valid()
    ensures RowCopied(image.colors, image.resolution, y, rowColors, toColor)
    ensures forall y' :: 0 <= y' < |image.colors| && y' != y ==> image.colors[y'] == old(image.colors[y'])
  {
    var x := 0;
    while x < image.resolution.X
      invariant 0 <= x <= image.resolution.X && image.Valid()
      invariant forall x': nat :: x' < x ==> Image.PixelAt(image.colors, image.resolution, x', y) == toColor(rowColors[x'])
      invariant forall y' :: 0 <= y' < |image.colors| && y' != y ==> image.colors[y'] == old(image.colors[y'])
    {
      ghost var before := image.colors;
      var c := toColor(rowColors[x]);
      var written := image.SetPixelColor(x, y, c);
      Image.WithPixelReadsBack(before, image.resolution, x, y, c);
      x := x + 1;
    }
  }

  /**
   * The readback: a new image of the camera's resolution whose pixel (x, y)
   * is the converted output colour at y·X + x, visited row by row.
   */
  method ReadBack(resolution: Image.ImageResolution, outputColors: seq<OutputColor>, toColor: OutputColor -> Color)
    returns (image: Image.Image)
    requires |outputColors| == resolution.X * resolution.Y
    ensures fresh(image) && image.Valid() && image.resolution == resolution
    ensures ReadBackImage(image.colors, resolution, outputColors, toColor)
  {
    image := new Image.Image(resolution);
    var y := 0;
    while y < resolution.Y
      invariant 0 <= y <= resolution.Y
      invariant fresh(image) && image.Valid() && image.resolution == resolution
      invariant forall y': nat :: y' < y ==>
        y' * resolution.X + resolution.X <= |outputColors| &&
        RowCopied(image.colors, resolution, y', RowOf(outputColors, resolution.X, y'), toColor)
    {
      RowFits(y, resolution.X, resolution.Y);
      ghost var before := image.colors;
      ReadBackRow(image, y, RowOf(outputColors, resolution.X, y), toColor);
      forall y': nat | y' < y
        ensures RowCopied(image.colors, resolution, y', RowOf(outputColors, resolution.X, y'), toColor)
      {
        RowCopiedFrame(before, image.colors, resolution, y', RowOf(outputColors, resolution.X, y'), toColor);
      }
      y := y + 1;
    }
    forall x: nat, y: nat | x < resolution.X && y < resolution.Y
      ensures Image.PixelAt(image.colors, resolution, x, y) == toColor(outputColors[ReadbackIndex(x, y, resolution)])
    {
      RowMajor(x, y, resolution.X, resolution.Y);
      assert RowCopied(image.colors, resolution, y, RowOf(outputColors, resolution.X, y), toColor);
    }
  }

  /** What each Vulkan call of Render answers. */
  datatype GPUDriver = GPUDriver(
    availableLayers: seq<string>,          // what vkEnumerateInstanceLayerProperties fills in
    availableExtensions: seq<string>,      // what vkEnumerateInstanceExtensionProperties fills in
    createInstance: VkResult,
    enumerateDevices: VkResult,
    devices: seq<PhysicalDevice>,
    queueAllocation: bool,                 // whether _malloca of the queue family properties succeeds
    createDevice: VkResult,
    replies: seq<DriverReply>,             // per shader buffer
    shaderSetup: seq<VkResult>,            // shader module, layout, pipeline, descriptor sets
    commands: seq<VkResult>,               // command pool to queue idle
    outputColors: seq<OutputColor>)        // what the shader leaves in the output buffer

  predicate DriverWellFormed(d: GPUDriver)
  {
    (|d.devices| > 0 ==> WellFormed(d.devices[0].memory)) &&
    |d.replies| == BufferBindingsCount && |d.shaderSetup| == 4
  }

  /** How Render ends: false, exit(-1), an exception from the shader, or true with an image. */
  datatype RenderOutcome = Declined | Exited | Threw(error: ShaderError) | Rendered

  /** The resolution the shader receives: the camera's, cast to unsigned int. */
  function ShaderResolution(resolution: Image.ImageResolution): InputResolution
  {
    InputResolution(ToUInt32(resolution.X), ToUInt32(resolution.Y))
  }

  /**
   * The outcome of Render's setup, call by call: the verifications, the
   * instance, the devices, the compute queue and the logical device. None
   * when all of them succeed.
   */
  function SetupResult(layers: seq<string>, extensions: seq<string>, debug: bool, d: GPUDriver): Option<RenderOutcome>
  {
    if !AllAvailable(Grown(layers, debug, VALIDATION_LAYER, 1), d.availableLayers) then Some(Declined)
    else if !AllAvailable(Grown(extensions, debug, DEBUG_UTILS_EXTENSION, 1), d.availableExtensions) then Some(Declined)
    else if d.createInstance != Success || d.enumerateDevices != Success then Some(Exited)
    else if |d.devices| == 0 then Some(Declined)
    else if !d.queueAllocation || BestComputeQueue(d.devices[0].queueFamilies).None? then Some(Exited)
    else if d.createDevice != Success then Some(Exited)
    else None
  }

  /** The outcome of the rest: the shader's construction, then the command recording and submission. */
  function ShaderStageResult(d: GPUDriver, sphereCount: nat, materialCount: nat, resolution: InputResolution): RenderOutcome
    requires DriverWellFormed(d) && |d.devices| > 0
  {
    var init := InitializeResult(MapAll(BufferTable(sphereCount, materialCount, resolution), NoPointers(),
                                        d.devices[0].memory, d.replies), d.shaderSetup);
    if init.Err? then Threw(init.error)
    else if exists i :: 0 <= i < |d.commands| && d.commands[i] != Success then Exited
    else Rendered
  }

  /** The outcome of Render. */
  function RenderResult(layers: seq<string>, extensions: seq<string>, debug: bool, d: GPUDriver,
                        sphereCount: nat, materialCount: nat, resolution: InputResolution): RenderOutcome
    requires DriverWellFormed(d)
  {
    var setup := SetupResult(layers, extensions, debug, d);
    if setup.Some? then setup.value else ShaderStageResult(d, sphereCount, materialCount, resolution)
  }

  /** Render returns false when a required layer or extension is missing, or when there is no physical device. */
  lemma DeclinedWhenUnverifiedOrNoDevice(layers: seq<string>, extensions: seq<string>, debug: bool, d: GPUDriver,
                                         sphereCount: nat, materialCount: nat, resolution: InputResolution)
    requires DriverWellFormed(d)
    ensures !AllAvailable(Grown(layers, debug, VALIDATION_LAYER, 1), d.availableLayers) ==>
      RenderResult(layers, extensions, debug, d, sphereCount, materialCount, resolution) == Declined
    ensures !AllAvailable(Grown(extensions, debug, DEBUG_UTILS_EXTENSION, 1), d.availableExtensions) ==>
      RenderResult(layers, extensions, debug, d, sphereCount, materialCount, resolution) == Declined
    ensures d.createInstance == Success && d.enumerateDevices == Success && |d.devices| == 0 ==>
      RenderResult(layers, extensions, debug, d, sphereCount, materialCount, resolution) == Declined
  {
  }

  /** Render only ever returns true after every check and every call succeeded. */
  lemma RenderedMeansAllSucceeded(layers: seq<string>, extensions: seq<string>, debug: bool, d: GPUDriver,
                                  sphereCount: nat, materialCount: nat, resolution: InputResolution)
    requires DriverWellFormed(d)
    requires RenderResult(layers, extensions, debug, d, sphereCount, materialCount, resolution) == Rendered
    ensures AllAvailable(Grown(layers, debug, VALIDATION_LAYER, 1), d.availableLayers)
    ensures AllAvailable(Grown(extensions, debug, DEBUG_UTILS_EXTENSION, 1), d.availableExtensions)
    ensures |d.devices| > 0 && d.queueAllocation && exists i :: 0 <= i < |d.devices[0].queueFamilies| && HasCompute(d.devices[0].queueFamilies[i])
    ensures forall i :: 0 <= i < |d.commands| ==> d.commands[i] == Success
  {
    BestComputeQueueFound(d.devices[0].queueFamilies);
  }

  /** A scene without spheres, or without materials, never renders: the shader's constructor throws. */
  lemma NoSpheresOrMaterialsNeverRenders(layers: seq<string>, extensions: seq<string>, debug: bool, d: GPUDriver,
                                         sphereCount: nat, materialCount: nat, resolution: InputResolution)
    requires DriverWellFormed(d)
    requires sphereCount == 0 || materialCount == 0
    ensures RenderResult(layers, extensions, debug, d, sphereCount, materialCount, resolution) != Rendered
  {
    if |d.devices| > 0 {
      if sphereCount == 0 {
        EmptySpheresThrow(materialCount, resolution, d.devices[0].memory, d.replies, d.shaderSetup);
      } else {
        EmptyMaterialsThrow(sphereCount, resolution, d.devices[0].memory, d.replies, d.shaderSetup);
      }
    }
  }

  class GPURenderer {
    const GPUDebugEnabled: bool
    var requiredInstanceLayers: seq<string>
    var requiredInstanceExtensions: seq<string>

    /** The declaring header is not part of this model; the lists start as given. */
    constructor (debugEnabled: bool, instanceLayers: seq<string>, instanceExtensions: seq<string>)
      ensures GPUDebugEnabled == debugEnabled
      ensures requiredInstanceLayers == instanceLayers && requiredInstanceExtensions == instanceExtensions
    {
      GPUDebugEnabled := debugEnabled;
      requiredInstanceLayers := instanceLayers;
      requiredInstanceExtensions := instanceExtensions;
    }

    /**
     * CreateDebugMessenger: VK_ERROR_UNKNOWN for a null instance or out-pointer;
     * otherwise the answer of vkCreateDebugUtilsMessengerEXT when the loader
     * finds it (createFunction), else VK_ERROR_EXTENSION_NOT_PRESENT.
     */
    static function CreateDebugMessenger(instance: Option<nat>, debugMessenger: Option<nat>, createFunction: Option<VkResult>): (r: VkResult)
      ensures r == Success <==> instance.Some? && debugMessenger.Some? && createFunction == Some(Success)
      ensures instance.None? || debugMessenger.None? ==> r == ErrorUnknown
      ensures instance.Some? && debugMessenger.Some? && createFunction.None? ==> r == ErrorExtensionNotPresent
    {
      if instance.None? || debugMessenger.None? then ErrorUnknown
      else if createFunction.Some? then createFunction.value
      else ErrorExtensionNotPresent
    }

    /**
     * GetBestComputeQueue: the same two passes as VulkanUtils, preceded by a
     * stack allocation of the property array that can fail
     * (allocationSucceeded), giving VK_ERROR_OUT_OF_DEVICE_MEMORY.
     */
    static method GetBestComputeQueue(queueFamilyProperties: seq<bv32>, allocationSucceeded: bool, queueFamilyIndex: nat)
      returns (result: VkResult, index: nat)
      ensures !allocationSucceeded ==> result == ErrorOutOfDeviceMemory
      ensures allocationSucceeded ==> (result == Success || result == ErrorInitializationFailed)
      ensures result == Success <==> allocationSucceeded && BestComputeQueue(queueFamilyProperties).Some?
      ensures result == Success ==> BestComputeQueue(queueFamilyProperties) == Some(index)
      ensures result != Success ==> index == queueFamilyIndex
    {
      if !allocationSucceeded {
        return ErrorOutOfDeviceMemory, queueFamilyIndex;
      }
      result, index := VulkanUtils.GetBestComputeQueue(queueFamilyProperties, queueFamilyIndex);
    }

    /**
     * VerifyInstanceLayers: appends the validation layer to the member list
     * when debugging, then answers whether every listed layer is available
     * (at once for an empty list).
     */
    method VerifyInstanceLayers(availableLayers: seq<string>) returns (ok: bool)
      modifies this
      ensures requiredInstanceLayers == Grown(old(requiredInstanceLayers), GPUDebugEnabled, VALIDATION_LAYER, 1)
      ensures requiredInstanceExtensions == old(requiredInstanceExtensions)
      ensures ok <==> AllAvailable(requiredInstanceLayers, availableLayers)
    {
      if GPUDebugEnabled {
        requiredInstanceLayers := requiredInstanceLayers + [VALIDATION_LAYER];
      }
      if |requiredInstanceLayers| == 0 {
        return true;
      }
      ok := AllRequiredFound(requiredInstanceLayers, availableLayers);
    }

    /** VerifyInstanceExtensions: the same with VK_EXT_debug_utils and the extension list. */
    method VerifyInstanceExtensions(availableExtensions: seq<string>) returns (ok: bool)
      modifies this
      ensures requiredInstanceExtensions == Grown(old(requiredInstanceExtensions), GPUDebugEnabled, DEBUG_UTILS_EXTENSION, 1)
      ensures requiredInstanceLayers == old(requiredInstanceLayers)
      ensures ok <==> AllAvailable(requiredInstanceExtensions, availableExtensions)
    {
      if GPUDebugEnabled {
        requiredInstanceExtensions := requiredInstanceExtensions + [DEBUG_UTILS_EXTENSION];
      }
      if |requiredInstanceExtensions| == 0 {
        return true;
      }
      ok := AllRequiredFound(requiredInstanceExtensions, availableExtensions);
    }

    /** Render's setup: everything up to and including the logical device. */
    method Setup(driver: GPUDriver) returns (failure: Option<RenderOutcome>)
      modifies this
      ensures failure == SetupResult(old(requiredInstanceLayers), old(requiredInstanceExtensions), GPUDebugEnabled, driver)
      ensures failure.None? ==> |driver.devices| > 0
      ensures requiredInstanceLayers == Grown(old(requiredInstanceLayers), GPUDebugEnabled, VALIDATION_LAYER, 1)
      ensures AllAvailable(requiredInstanceLayers, driver.availableLayers) ==>
        requiredInstanceExtensions == Grown(old(requiredInstanceExtensions), GPUDebugEnabled, DEBUG_UTILS_EXTENSION, 1)
      ensures !AllAvailable(requiredInstanceLayers, driver.availableLayers) ==>
        requiredInstanceExtensions == old(requiredInstanceExtensions)
    {
      var layersOk := VerifyInstanceLayers(driver.availableLayers);
      if !layersOk {
        return Some(Declined);
      }
      var extensionsOk := VerifyInstanceExtensions(driver.availableExtensions);
      if !extensionsOk {
        return Some(Declined);
      }
      if driver.createInstance != Success || driver.enumerateDevices != Success {
        return Some(Exited);
      }
      if |driver.devices| == 0 {
        return Some(Declined);
      }
      var queueResult, queueFamilyIndex := GetBestComputeQueue(driver.devices[0].queueFamilies, driver.queueAllocation, 0);
      if queueResult != Success {
        return Some(Exited);
      }
      if driver.createDevice != Success {
        return Some(Exited);
      }
      return None;
    }

    /**
     * Render: the setup, then the shader built from the scene's spheres and
     * materials and, on success, the readback into a new image. The debug
     * messenger is compiled out.
     */
    method Render(camera: Camera.Camera, samples: nat, scene: Scene.Scene, driver: GPUDriver, toColor: OutputColor -> Color)
      returns (outcome: RenderOutcome, image: Image.Image?)
      requires DriverWellFormed(driver)
      requires |driver.outputColors| == camera.Resolution().X * camera.Resolution().Y
      modifies this
      ensures outcome == RenderResult(old(requiredInstanceLayers), old(requiredInstanceExtensions), GPUDebugEnabled, driver,
                                      |Scene.SpheresOf(scene.objects)|, |scene.materials|, ShaderResolution(camera.Resolution()))
      ensures image != null <==> outcome == Rendered
      ensures image != null ==> fresh(image) && image.Valid() && image.resolution == camera.Resolution()
      ensures image != null ==> ReadBackImage(image.colors, camera.Resolution(), driver.outputColors, toColor)
      ensures requiredInstanceLayers == Grown(old(requiredInstanceLayers), GPUDebugEnabled, VALIDATION_LAYER, 1)
      ensures AllAvailable(requiredInstanceLayers, driver.availableLayers) ==>
        requiredInstanceExtensions == Grown(old(requiredInstanceExtensions), GPUDebugEnabled, DEBUG_UTILS_EXTENSION, 1)
      ensures !AllAvailable(requiredInstanceLayers, driver.availableLayers) ==>
        requiredInstanceExtensions == old(requiredInstanceExtensions)
    {
      var failure := Setup(driver);
      if failure.Some? {
        return failure.value, null;
      }
      outcome, image := RunShader(camera, samples, scene, driver, toColor);
    }
  }

  /** Render after the setup: the shader, the commands, the readback and the teardown. */
  method RunShader(camera: Camera.Camera, samples: nat, scene: Scene.Scene, driver: GPUDriver, toColor: OutputColor -> Color)
    returns (outcome: RenderOutcome, image: Image.Image?)
    requires DriverWellFormed(driver) && |driver.devices| > 0
    requires |driver.outputColors| == camera.Resolution().X * camera.Resolution().Y
    ensures outcome == ShaderStageResult(driver, |Scene.SpheresOf(scene.objects)|, |scene.materials|, ShaderResolution(camera.Resolution()))
    ensures image != null <==> outcome == Rendered
    ensures image != null ==> fresh(image) && image.Valid() && image.resolution == camera.Resolution()
    ensures image != null ==> ReadBackImage(image.colors, camera.Resolution(), driver.outputColors, toColor)
  {
    var inputSpheres := CollectInputSpheres(scene.objects);
    var inputMaterials := CollectInputMaterials(scene.materials);
    var inputCamera := InputCameraOf(camera);
    var shader := new RayIntersectionComputeShader(samples, inputCamera, inputSpheres, inputMaterials,
                                                   ShaderResolution(camera.Resolution()));
    var init := shader.Initialize(driver.devices[0].memory, driver.replies, driver.shaderSetup);
    if init.Err? {
      return Threw(init.error), null;
    }
    if exists i :: 0 <= i < |driver.commands| && driver.commands[i] != Success {
      return Exited, null;
    }
    var output := ReadBack(camera.Resolution(), driver.outputColors, toColor);
    var freed := shader.UnmapAndDestroyMemories();
    return Rendered, output;
  }
}
