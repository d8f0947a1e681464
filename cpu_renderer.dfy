/**
 * CPURenderer.cpp: creates the output image, enumerates the camera's pixels,
 * picks the number of worker threads and enqueues one render task per pixel.
 * Running the tasks on the pool's threads is not modelled.
 */
module CPURenderer {
  import opened Integers
  import opened Vector3
  import Image
  import Pixel
  import Camera
  import Scene

  const TASK_QUEUE_SIZE: nat := 1000

  /**
   * The worker count: the hardware concurrency, capped by max_threads
   * (converted to unsigned int) when that is non-zero, then one fewer when
   * more than one remains, leaving a core for the enqueuing thread.
   */
  function Workers(maxThreads: nat, hardwareConcurrency: nat): nat
  {
    var capped := if maxThreads > 0 then Min(ToUInt32(maxThreads), hardwareConcurrency) else hardwareConcurrency;
    if capped > 1 then capped - 1 else capped
  }

  /** With at least one hardware thread, and a cap that does not convert to 0, there is a worker. */
  lemma WorkersAtLeastOne(maxThreads: nat, hardwareConcurrency: nat)
    requires hardwareConcurrency >= 1
    requires maxThreads == 0 || ToUInt32(maxThreads) != 0
    ensures Workers(maxThreads, hardwareConcurrency) >= 1
  {
  }

  /** Never more workers than max_threads asks for, nor than the hardware offers. */
  lemma WorkersAtMost(maxThreads: nat, hardwareConcurrency: nat)
    ensures maxThreads > 0 ==> Workers(maxThreads, hardwareConcurrency) <= maxThreads
    ensures Workers(maxThreads, hardwareConcurrency) <= hardwareConcurrency
  {
  }

  /** A size_t max_threads that is a multiple of 2^32 becomes 0 in the cast and leaves no worker. */
  lemma WorkersCastToZero(hardwareConcurrency: nat)
    ensures Workers(UINT32_LIMIT, hardwareConcurrency) == 0
  {
  }

  /** The worker-count computation, step by step on one variable. */
  method WorkerCount(maxThreads: nat, hardwareConcurrency: nat) returns (count: nat)
    ensures count == Workers(maxThreads, hardwareConcurrency)
    ensures count <= hardwareConcurrency
    ensures maxThreads > 0 ==> count <= maxThreads
    ensures hardwareConcurrency >= 1 && (maxThreads == 0 || ToUInt32(maxThreads) != 0) ==> count >= 1
  {
    count := hardwareConcurrency;
    if maxThreads > 0 {
      count := Min(ToUInt32(maxThreads), count);
    }
    count := count - (if count > 1 then 1 else 0);
  }

  /** A queued PixelRenderTask: the pixel it renders and its sample count. */
  datatype RenderTask = RenderTask(pixel: Pixel.Pixel, samples: nat)

  /** The thread pool as built and filled: worker count, queue size and queued tasks. */
  datatype RenderPool = RenderPool(workers: nat, queueSize: nat, tasks: seq<RenderTask>)

  /**
   * Render up to the point where the pool runs the tasks. `direction` is the
   * camera's floating-point ray arithmetic, `hardwareConcurrency` what
   * std::thread::hardware_concurrency reports.
   */
  method Render(maxThreads: nat, camera: Camera.Camera, samples: nat, scene: Scene.Scene,
                hardwareConcurrency: nat, direction: (real, real) -> Vector3<real>)
    returns (image: Image.Image, pixels: seq<Pixel.Pixel>, pool: RenderPool)
    ensures image.resolution == camera.resolution && image.Valid()
    ensures forall y, j :: 0 <= y < |image.colors| && 0 <= j < |image.colors[y]| ==> image.colors[y][j] == 0
    ensures |pixels| == camera.resolution.X * camera.resolution.Y
    ensures forall i :: 0 <= i < |pixels| ==>
      pixels[i].xCoordinate == i % camera.resolution.X && pixels[i].yCoordinate == i / camera.resolution.X
    ensures pool.workers == Workers(maxThreads, hardwareConcurrency)
    ensures pool.queueSize == TASK_QUEUE_SIZE
    ensures |pool.tasks| == |pixels|
    ensures forall i :: 0 <= i < |pixels| ==> pool.tasks[i] == RenderTask(pixels[i], samples)
  {
    image := new Image.Image(camera.Resolution());
    pixels := camera.GetOutgoingPixels(direction);
    var workers := WorkerCount(maxThreads, hardwareConcurrency);
    pool := RenderPool(workers, TASK_QUEUE_SIZE, []);
    var i := 0;
    while i < |pixels|
      invariant 0 <= i <= |pixels|
      invariant pool.workers == workers && pool.queueSize == TASK_QUEUE_SIZE
      invariant pool.tasks == seq(i, j requires 0 <= j < i => RenderTask(pixels[j], samples))
    {
      pool := pool.(tasks := pool.tasks + [RenderTask(pixels[i], samples)]);
      i := i + 1;
    }
  }
}
