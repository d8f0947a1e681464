# RayTracer core, modelled in Dafny

This project models the integer, list, string and control logic of a C++ ray tracer. The tracer has a CPU renderer (a thread pool running one task per pixel) and two Vulkan compute renderers. Floating-point geometry, random sampling, threads, file I/O and Vulkan driver calls are not modelled. Where the logic depends on them, they appear as parameters: oracle functions, or the driver's answers.

One Dafny module stands for each source file:

- `Image`, `Pixel`, `Camera` and `Scene`: the RGBA buffer, the running-average pixel, the camera's row-major pixel enumeration, and the append-only scene lists. These are classes whose methods update their fields.
- `Vector3` and `Vectors`: the integer vector algebra of `Vector3.h` and the older `Vectors.h`.
- `Mesh`, `ClosestHit` and `TinyOBJLoader`: mesh construction from index triples, the strict-less-than closest-hit scan, and the OBJ loader's vertex flattening and face generation.
- `PixelRenderTask` and `CPURenderer`: material lookup, the bounded bounce loop, the worker-count rule and one task per pixel.
- `CommandLine`: the `InputParser`, the argument defaults and overrides, `std::stoul` (in `Decimal`), the help/exit decision and the PNG shape checks of `main.cpp`.
- `PerformanceTracking` and `TraceFormat`: the Chrome Trace Event serialiser and the begin/end pairing of sections.
- `Vulkan` and `VulkanUtils`: the layer and extension checks, the two-pass compute-queue selection, the memory-type rule and the debug callback's substring.
- `GPUStructs`: the shader record layouts and their sizes.
- `RayIntersection`: the compute shader's buffer table, mapping and descriptor tables.
- `GPURenderer` and `GPURendererV2`: the two GPU renderers' set-up, sizing, staging and read-back.

`common.dfy` holds the shared `Wrappers` (Option and Result), `Integers` (bytes, and uint32_t and size_t wrap-around), `Colors` and `Decimal` modules.

The platform is MSVC, so `unsigned long` is 32 bits wide and `size_t` is 64 bits. Integer conversions wrap modulo 2^32 or 2^64 where the source converts.

## Model

| member | source | states |
|---|---|---|
| Image.WithPixel | include/Image.h:44-47 | writing pixel (x, y) puts R, G, B, A in bytes 4x..4x+3 of row y; every other byte of that row and every other row is unchanged; the shape is kept |
| Image.WithPixelReadsBack | include/Image.h:44-47 | after the write, pixel (x, y) reads back as the written colour and every other pixel reads as before |
| Image.LastWriteWins | include/Image.h:44-47 | two writes to one pixel equal the second write alone |
| Image.WriteIdempotent | include/Image.h:44-47 | writing the same colour twice equals writing it once |
| Image.DistinctWritesCommute | include/Image.h:44-47 | writes to two different pixels commute |
| Image.Image.constructor | include/Image.h:26-35 | a new image has exactly Y rows of 4·X bytes, all zero |
| Image.Image.SetPixelColor | include/Image.h:37-50 | answers true iff x < X and y < Y; then the buffer is the written buffer, otherwise unchanged; the shape is invariant |
| Image.Image.GetColorRGBAValues | include/Image.h:52-55 | returns the live buffer, which has the image's shape |
| Image.WriteThenRead | include/Image.h:37-55 | a read of the live buffer after an in-range write sees the written colour |
| Pixel.Mix | include/Pixel.h:55-71 | an averaged channel lies between the old channel and the sample; with no previous samples it is the sample; averaging equal values changes nothing |
| Pixel.MixBetween | include/Pixel.h:55-71 | ⌊(old·n + new)/(n+1)⌋ lies between old and new, so it stays a byte |
| Pixel.MixFirstSample | include/Pixel.h:55-73 | accumulating onto a pixel with zero samples yields exactly the sample |
| Pixel.MixSameColor | include/Pixel.h:55-73 | accumulating a pixel's own colour keeps it, whatever the count |
| Pixel.Pixel.constructor | include/Pixel.h:26-28 | a new pixel has the default white output, zero samples, and the given coordinates, origin, ray and sizes |
| Pixel.Pixel.SetColor | include/Pixel.h:47-51 | the sample count becomes exactly 1 and the output the given colour; the coordinates are unchanged |
| Pixel.Pixel.AccumulateColorSample | include/Pixel.h:53-74 | the sample count grows by exactly one and each channel becomes the truncated mean of the old output counted n times and the sample |
| Camera.HorizontalFactorInside | include/Camera.h:89 | the horizontal factor (2x+1)/X − 1 lies strictly between −1 and 1 |
| Camera.HorizontalFactorMirror | include/Camera.h:89 | the horizontal factor negates under x ↦ X−1−x |
| Camera.VerticalFactorIsNegated | include/Camera.h:85 | the vertical factor is the horizontal one negated, with y and Y |
| Camera.Camera.constructor | include/Camera.h:20-42 | a forward argument of exactly (0,1,0) gives right (0,0,1) and up (−1,0,0); (0,−1,0) gives right (0,0,1) and up (1,0,0); any other takes the cross-product basis; the resolution, position and lens values are stored |
| Camera.Camera.GetOutgoingPixels | include/Camera.h:69-98 | exactly X·Y pixels in row-major order: pixel i has coordinates (i mod X, i div X), the camera position as origin, the ray for its scalars, the pixel size, white output and no samples |
| Camera.PixelAtRowMajorIndex | include/Camera.h:83-95 | the pixel at index y·X + x exists and has coordinates (x, y) |
| Scene.Scene.constructor | include/Scene.h:8-13 | a new scene has empty object and material lists |
| Scene.Scene.AddObject | include/Scene.h:30-33 | the object list becomes the old list followed by the object; the materials are unchanged |
| Scene.Scene.AddMaterial | include/Scene.h:35-38 | the material list becomes the old list followed by the material; the objects are unchanged |
| Scene.SpheresOf | RayTracerLib/GPURenderer.cpp:377-387 | the dynamic_cast filter keeps exactly the sphere objects and never lengthens the list |
| Scene.SpheresOfAppend | RayTracerLib/GPURenderer.cpp:377-387 | the filter distributes over concatenation, so the spheres keep scene order |
| Scene.SpheresOfAdd | include/Scene.h:30-33 | adding a mesh leaves the sphere list alone; adding a sphere appends it |
| Vector3.Equals | include/Vector3.h:51-54 | operator== holds iff the three components are equal |
| Vector3.NotEquals | include/Vector3.h:56-59 | operator!=, written as a disjunction, is exactly the negation of operator== |
| Vector3.At | include/Vector3.h:61-74 | operator[] gives X, Y, Z for 0, 1, 2 and T() (zero) for every other index |
| Vector3.DefaultIsOnes | include/Vector3.h:13 | the default vector is (1,1,1), not zero |
| Vector3.DotSymmetric | include/Vector3.h:20-23 | Dot(a, b) == Dot(b, a) |
| Vector3.MagnitudeSquaredNonNegative | include/Vector3.h:76-79 | MagnitudeSquared(v) = Dot(v, v) is non-negative and zero only for the zero vector |
| Vector3.AddSubCancel | include/Vector3.h:25-33 | (a + b) − b == a and (a − b) + b == a |
| Vector3.CrossSelfIsZero | include/Vector3.h:98-104 | Cross(a, a) is the zero vector (Vectors.h uses the same expression) |
| Vector3.CrossAntisymmetric | include/Vector3.h:98-104 | Cross(a, b) == −Cross(b, a) |
| Vector3.CrossOrthogonal | include/Vector3.h:98-104 | Dot(a, Cross(a, b)) == 0 and Dot(b, Cross(a, b)) == 0 (Vectors.h uses the same expressions) |
| Vectors.MagnitudeSquared4 | include/Vectors.h:114-117 | the written-out Vector4 squared magnitude is non-negative |
| Vectors.Vector2Stores | include/Vectors.h:12-15 | Vector2 keeps both components as given |
| Vectors.DefaultsAreOnes | include/Vectors.h:22 | the Vector3 default is (1,1,1) and the Vector4 default (1,1,1,1) |
| Vectors.MagnitudeSquared4IsDot | include/Vectors.h:104-117 | the separately written Vector4 MagnitudeSquared equals Dot(v, v) |
| Vectors.Sub4Self | include/Vectors.h:109-112 | Vector4 subtraction is componentwise, so v − v is zero |
| Vectors.AddSubEquals | include/Vectors.h:33-58 | (a + b) − b == a under the componentwise operator== |
| Mesh.RejectedAsWrittenAdmitsOutOfBounds | include/Mesh.h:16 | the test as written lets the triple (0, 2, 0) through for one vertex, although index 2 is out of bounds |
| Mesh.RejectionTestsCompared | include/Mesh.h:16-21 | the intended test rejects exactly what the written test rejects plus triples whose Y or Z lies strictly past the end; whatever it accepts, the written test accepts |
| Mesh.Mesh.constructor | include/Mesh.h:11-12 | the material, vertex data, vertex indices and faces are stored as given |
| Mesh.Mesh.Create | include/Mesh.h:11-23 | fails iff some triple has an index at or beyond the vertex count (the intended test; the one written at line 16 is Mesh.RejectedAsWritten, see ## Findings); on success, VertexData and VertexIndices are the arguments and there is one face per triple, in order, face k holding the vertices that triple k names |
| Mesh.Mesh.IntersectsRay | include/Mesh.h:25-42 | true iff some face is hit; the hit kept is the closest, a later face replacing it only at strictly smaller depth, so ties go to the earliest face |
| ClosestHit.Closest | include/Mesh.h:27-41 | no candidate iff nothing is hit; otherwise the index of the earliest candidate at the minimum depth |
| ClosestHit.EarliestMinimumUnique | include/Mesh.h:27-41 | the earliest minimum is unique, so the selection is determined |
| ClosestHit.ClosestStep | include/Mesh.h:30-38 | one loop step: a candidate replaces the best so far only when hit at strictly smaller depth |
| TinyOBJLoader.ShapeVertices | RayTracerLib/TinyOBJLoader.cpp:45-50 | one vertex per index entry, vertex k being (v[3i], v[3i+1], v[3i+2]) for that entry's vertex_index i |
| TinyOBJLoader.FaceTriples | RayTracerLib/TinyOBJLoader.cpp:52-55 | exactly ⌊n/3⌋ faces for n vertices, face i being (3i, 3i+1, 3i+2) |
| TinyOBJLoader.FaceTriplesPassMeshCheck | RayTracerLib/TinyOBJLoader.cpp:52-57 | every generated index is below n, so neither the intended nor the written Mesh check throws for a loaded shape |
| TinyOBJLoader.TrailingVerticesUnreferenced | RayTracerLib/TinyOBJLoader.cpp:52-55 | the trailing n mod 3 vertices are referenced by no face |
| TinyOBJLoader.CreateSceneFromOBJFile | RayTracerLib/TinyOBJLoader.cpp:25-72 | a parse failure returns false with both outputs unset; success returns true with the fixed camera (position (−5,5,5), forward (1,−1,−1), 50 mm, 18 mm) and a scene of one mesh per shape in shape order, built from that shape's vertices and triples, with no materials |
| PixelRenderTask.GetMaterial | RayTracerLib/PixelRenderTask.cpp:18-29 | the default material iff the index is negative or at least the material count; otherwise the scene material at that index |
| PixelRenderTask.Depths | RayTracerLib/PixelRenderTask.cpp:49-52 | one hit depth (or miss) per scene object, in scene order |
| PixelRenderTask.TraceBounded | RayTracerLib/PixelRenderTask.cpp:33-89 | a trace applies at most max_bounces = 10 bounce colours, plus the ambient colour |
| PixelRenderTask.AmbientOnlyAtLimit | RayTracerLib/PixelRenderTask.cpp:83-89 | the ambient colour is multiplied in exactly once, last, and only when the bounce count reaches 10 |
| PixelRenderTask.WorldColorEndsTrace | RayTracerLib/PixelRenderTask.cpp:75-81 | the world colour clears the traced ray: nothing follows it but, at the limit, the ambient colour |
| PixelRenderTask.MissPicksUpWorldColor | RayTracerLib/PixelRenderTask.cpp:75-81 | a ray that hits nothing gets the world colour for its direction and the loop stops |
| PixelRenderTask.IntersectObjects | RayTracerLib/PixelRenderTask.cpp:43-66 | after the object loop, an intersection was found iff some object is hit; the colour and the reflected ray are those of the earliest object at the strictly smallest depth; with no hit the bounce takes the world colour |
| PixelRenderTask.TraceRay | RayTracerLib/PixelRenderTask.cpp:31-91 | the colours the loop multiplies in are exactly the bounded bounce sequence Trace: a closest-hit colour per bounce, the world colour on a miss, the ambient colour at bounce 10 |
| PixelRenderTask.Execute | RayTracerLib/PixelRenderTask.cpp:93-106 | exactly `samples` colours, each starting white and traced from that sample's ray; the averaged colour is written at the pixel's own coordinates, and nothing else in the image changes |
| CPURenderer.WorkersAtLeastOne | RayTracerLib/CPURenderer.cpp:53-59 | with at least one hardware thread, and a cap that does not convert to 0, there is at least one worker |
| CPURenderer.WorkersAtMost | RayTracerLib/CPURenderer.cpp:53-59 | the worker count never exceeds max_threads when that is positive, nor the hardware concurrency |
| CPURenderer.WorkersCastToZero | RayTracerLib/CPURenderer.cpp:57 | a max_threads of 2^32 becomes 0 in the cast to unsigned int and leaves no worker |
| CPURenderer.WorkerCount | RayTracerLib/CPURenderer.cpp:53-59 | the count is min(max_threads, hardware) when max_threads > 0, else the hardware count, reduced by one only when above 1; it obeys both bounds above |
| CPURenderer.Render | RayTracerLib/CPURenderer.cpp:44-67 | the output image has the camera's resolution and is blank; the X·Y pixels come in row-major order; the pool has the computed worker count and queue size 1000 and holds exactly one task per pixel, in pixel order |
| CommandLine.FindIsFirst | RayTracer/main.cpp:40 | std::find returns the index of the first token equal to the option, or the end when no token matches |
| CommandLine.OptionExistsIffPresent | RayTracer/main.cpp:48-51 | CommandOptionExists holds exactly when the option is among the tokens |
| CommandLine.CommandOptionFollowsFirst | RayTracer/main.cpp:38-46 | GetCommandOption returns the token right after the option's first occurrence, or "" when that occurrence is the last token |
| CommandLine.CommandOptionAbsent | RayTracer/main.cpp:38-46 | an option that is absent yields "" |
| CommandLine.ReserveFails | RayTracer/main.cpp:31 | reserve((size_t)argc - 1) throws length_error when the request, converted to size_t, exceeds the vector's max_size; it always does for argc == 0, where the request wraps to SIZE_MAX |
| CommandLine.ReserveFailsOnlyWithoutProgramName | RayTracer/main.cpp:31 | for every count an int argc can hold, the reserve throws exactly when argc == 0 |
| CommandLine.InputParser.Create | RayTracer/main.cpp:29-36 | length_error exactly when the reserve fails (so for argc == 0); otherwise a fresh parser keeping argv[1 .. argc-1] in order, without the program name |
| CommandLine.ReadOption | RayTracer/main.cpp:93-98 | an empty option text keeps the current value; the decimal text of a number below 2^32 gives that number, of a larger one out_of_range; a non-empty text without digits is invalid_argument; any value read from a non-empty text fits in 32 bits |
| CommandLine.ReadNumber | RayTracer/main.cpp:93-98 | reading one valued option through the parser gives ReadOption of that option's text |
| CommandLine.ReadNumbers | RayTracer/main.cpp:93-126 | -s, -b, -x, -y and -m are read in that order, and the first stoul exception ends the parse |
| CommandLine.ReadPaths | RayTracer/main.cpp:128-138 | -o and -i replace their paths only when their text is non-empty |
| CommandLine.ReadFlags | RayTracer/main.cpp:140-153 | -c, -g, -dg, -t and -h set their flags by presence alone |
| CommandLine.ParseCommandLineArguments | RayTracer/main.cpp:89-154 | length_error for argc == 0 (the parser's reserve); otherwise the numbers, then the paths, then the flags, over argv without the program name, with stoul's exception ending the parse |
| CommandLine.ParsedFailsOnRejected | RayTracer/main.cpp:93-126 | parsing fails if and only if some numeric option has a non-empty text that stoul rejects |
| CommandLine.SamplesErrorFirst | RayTracer/main.cpp:93-98 | a rejected -s value is the error reported, whatever follows it |
| CommandLine.OptionValueUsed | RayTracer/main.cpp:93-119 | after a successful parse, the -s and -x values are what stoul read from their texts |
| CommandLine.FlagsSetByPresence | RayTracer/main.cpp:140-153 | after a parse, RenderGPU, RenderCPU and ShowHelp hold if and only if -g, -c and -h are present; the GPU default of true is overwritten |
| CommandLine.EmptyValueKeepsDefault | RayTracer/main.cpp:93-98 | an empty -s or -o text leaves the incoming value in place (see also lines 128-132) |
| CommandLine.NoArgumentsShowsHelp | RayTracer/main.cpp:59-73 | the program name alone gives the defaults with RenderGPU false, and help is shown |
| CommandLine.MainDecision | RayTracer/main.cpp:308-318 | length_error (argc == 0) or stoul's error ends main; otherwise help is shown when -h is given or the output path is empty, and otherwise main proceeds with the parsed arguments, using the preset scene when the input path is empty |
| CommandLine.PngShape | RayTracer/main.cpp:201-212 | an accepted buffer has a height of at least 1 and at most the number of rows and is at least one pixel wide |
| CommandLine.CheckPngShape | RayTracer/main.cpp:201-212 | the checks run in the source's order and accept exactly what PngShape accepts, with the row-length loop of lines 269-274 |
| CommandLine.ImageBufferPasses | RayTracer/main.cpp:201-212 | Y rows of 4·X bytes each give a header X pixels wide and Y rows high |
| CommandLine.RaggedRejected | RayTracer/main.cpp:269-274 | a row whose length differs from the first row's is rejected |
| Decimal.Stoul | RayTracer/main.cpp:96 | stoul, as the command line uses it, returns values below 2^32, since MSVC's unsigned long is 32 bits |
| Decimal.StoulOfNatToString | RayTracer/main.cpp:96 | the decimal text of any n < 2^32 reads back as n |
| Decimal.StoulRejectsLarge | RayTracer/main.cpp:96 | the decimal text of any n ≥ 2^32 is out_of_range and does not wrap |
| Decimal.StoulWithoutDigits | RayTracer/main.cpp:96 | a text with no digits throws invalid_argument |
| Decimal.NatToString | include/PerformanceLogger.h:71 | std::to_string of a non-negative timestamp: at least one digit, digits only, and no leading zero |
| PerformanceTracking.Ordinal | include/PerformanceLogger.h:17-26 | the granularity enumerators take the values 0 to 6 |
| PerformanceTracking.Pow2 | include/PerformanceLogger.h:31 | a power of two is at least 1; it supports the shift below |
| PerformanceTracking.ShiftLeftIsProduct | include/PerformanceLogger.h:31 | shifting left by n multiplies by 2^n |
| PerformanceTracking.ReservedCapacityRange | include/PerformanceLogger.h:31 | the constructor reserves 32·2^g messages: 32 for ExtremelyCoarse, 2048 for ExtremelyGranular, and always between the two |
| PerformanceTracking.Pow2Monotone | include/PerformanceLogger.h:31 | 2^a ≤ 2^b when a ≤ b |
| PerformanceTracking.ReservedCapacityIncreasing | include/PerformanceLogger.h:17-31 | a finer granularity reserves strictly more room |
| PerformanceTracking.PerformanceSession.constructor | include/PerformanceLogger.h:28-32 | a new session has no messages, keeps its output file name and reserves ReservedCapacity(granularity) messages |
| PerformanceTracking.PerformanceSession.AddPerformanceEntry | include/PerformanceLogger.h:53-56 | the message is appended after those already recorded, and nothing else changes |
| PerformanceTracking.PerformanceSession.Write | include/PerformanceLogger.h:34-50 | the destructor's loop writes exactly Serialized(messages): the header, one line per message in order, then the footer |
| PerformanceTracking.EventTextLayout | include/PerformanceLogger.h:71 | an event's text holds the section name verbatim at offset 10, and the phase letter 25 characters after it |
| PerformanceTracking.PerformanceSection.constructor | include/PerformanceLogger.h:65-73 | with a session, the begin event for the name and start time is appended to it; with a null session nothing is recorded |
| PerformanceTracking.PerformanceSection.Close | include/PerformanceLogger.h:75-82 | with a session, the end event for the same name and the end time is appended |
| PerformanceTracking.ReplayAppend | include/PerformanceLogger.h:65-82 | replaying a + b is replaying b from the stack a leaves |
| PerformanceTracking.ScopeBalanced | include/PerformanceLogger.h:90-91 | the events of one traced scope, with its nested scopes, leave any stack of open names as they found it |
| PerformanceTracking.ChildrenBalanced | include/PerformanceLogger.h:90-91 | a run of sibling scopes leaves the stack of open names unchanged |
| PerformanceTracking.ScopeWellNested | include/PerformanceLogger.h:65-91 | sections destroyed in reverse order of construction give a well-nested begin/end sequence, in which every end closes the innermost open begin of the same name |
| PerformanceTracking.RecordedAppend | include/PerformanceLogger.h:70-80 | stamping a + b is stamping a, then b from the clock reading after a |
| PerformanceTracking.RunScope | include/PerformanceLogger.h:65-91 | running a scope appends exactly its begin event, its children's events and its end event, each stamped with the clock at that moment |
| PerformanceTracking.RunChildren | include/PerformanceLogger.h:65-91 | sibling scopes append their events one scope after another |
| TraceFormat.EntriesBeforeThenRest | include/PerformanceLogger.h:38-46 | the lines the loop has written for the first i messages, followed by the lines of the rest, are the whole list's lines |
| TraceFormat.EmptySession | include/PerformanceLogger.h:37-47 | a session without messages writes the header immediately followed by the footer |
| TraceFormat.MessageOrder | include/PerformanceLogger.h:38-46 | message i's line comes after the lines of messages 0 to i-1 and before the rest, and it is the only line without a comma when it is the last |
| TraceFormat.CountAppend | include/PerformanceLogger.h:40-45 | character counts add over concatenation |
| TraceFormat.LinesCommas | include/PerformanceLogger.h:41-44 | m message lines add exactly max(0, m-1) separator commas to those inside the messages |
| TraceFormat.SerializedCommas | include/PerformanceLogger.h:34-50 | the whole file has the messages' own commas plus one between each pair of neighbours: no trailing comma |
| TraceFormat.FramedCommas | include/PerformanceLogger.h:37-47 | framing without commas adds none to the lines' commas |
| TraceFormat.HeaderNoCommas | include/PerformanceLogger.h:37 | the header has no comma |
| TraceFormat.FooterNoCommas | include/PerformanceLogger.h:47 | the footer has no comma |
| TraceFormat.NoOccurrence | include/PerformanceLogger.h:37-47 | a character absent from a string counts 0 |
| Vulkan.FirstSuitableFrom | RayTracerLib/GPURendererV2.cpp:150-161 | the result is the lowest memory type at or after k that is host-visible, host-coherent and host-cached, on a heap larger than the request; it is None exactly when no such type exists |
| Vulkan.FindMemoryType | RayTracerLib/Shaders/RayIntersection.cpp:96-108 | the scan returns the chosen memory type, or VK_MAX_MEMORY_TYPES exactly when none is suitable (the same loop appears at GPURendererV2.cpp:148-161) |
| Vulkan.SmallerRequestFits | RayTracerLib/GPURendererV2.cpp:156 | a smaller request finds a type wherever a larger one does, at the same or a lower index |
| VulkanUtils.AllRequiredFound | RayTracerLib/VulkanUtils.cpp:77-96 | the nested strcmp search succeeds if and only if every required name is among the available ones |
| VulkanUtils.FailedEnumerationFails | RayTracerLib/VulkanUtils.cpp:61-75 | a non-empty requirement fails when either enumeration call does not return eSuccess |
| VulkanUtils.VerifyInstanceLayers | RayTracerLib/VulkanUtils.cpp:54-97 | the result is true if and only if nothing is required, or both enumeration calls succeed and every required layer is reported |
| VulkanUtils.VerifyInstanceExtensions | RayTracerLib/VulkanUtils.cpp:99-142 | the same for instance extensions |
| VulkanUtils.VerifyDeviceExtensions | RayTracerLib/VulkanUtils.cpp:144-173 | an empty requirement is met without enumerating; otherwise a throwing enumeration escapes with its VkResult, and a successful one gives true if and only if every required device extension is among the device's extensions |
| VulkanUtils.EmptyRequirementMet | RayTracerLib/VulkanUtils.cpp:56-59 | an empty requirement is met whatever the enumeration reports |
| VulkanUtils.MissingNameFails | RayTracerLib/VulkanUtils.cpp:90-93 | one missing required name makes verification fail |
| VulkanUtils.MaskIgnoresTransferAndSparse | RayTracerLib/VulkanUtils.cpp:246-249 | after the mask, the transfer and sparse-binding bits do not matter; a family is dedicated when it has compute and not graphics, and usable when it has compute |
| VulkanUtils.FirstWhere | RayTracerLib/VulkanUtils.cpp:243-254 | a pass returns the first family that satisfies the test, or None when no family does |
| VulkanUtils.BestComputeQueueFound | RayTracerLib/VulkanUtils.cpp:234-271 | a family is chosen if and only if some family has compute, and the chosen family has compute |
| VulkanUtils.DedicatedPreferred | RayTracerLib/VulkanUtils.cpp:242-254 | when a dedicated compute family exists, a dedicated one at or before it is chosen, ahead of any earlier graphics-and-compute family |
| VulkanUtils.GetBestComputeQueue | RayTracerLib/VulkanUtils.cpp:234-271 | the result is eSuccess with the chosen index exactly when a compute family exists; otherwise it is eErrorInitializationFailed and the caller's index is unchanged |
| VulkanUtils.ReleaseBuildRequiresNothing | RayTracerLib/VulkanUtils.cpp:20-24 | a release build requires no layer or extension, so every check passes |
| VulkanUtils.FindLastOf | RayTracerLib/VulkanUtils.cpp:48 | find_last_of gives the last position holding the character, or npos when the character is absent |
| VulkanUtils.UserMessageAfterLastBar | RayTracerLib/VulkanUtils.cpp:36-48 | the printed text is what follows the last bar character, or the whole message when there is none, because npos + 1 wraps to 0; it never contains a bar |
| VulkanUtils.DefaultVulkanDebugCallback | RayTracerLib/VulkanUtils.cpp:38-52 | the debug build prints the tag and the user part of the message, and the callback always returns VK_FALSE |
| GPUStructs.SizeOfAppend | include/GPUStructs.h:10-70 | a record's size is the sum of its members' sizes, however the members are split |
| GPUStructs.GPURaySize | include/GPUStructs.h:10-17 | GPURay is 48 bytes, a multiple of 16, and each vec4 member starts on a 16-byte boundary |
| GPUStructs.GPUIntersectionSize | include/GPUStructs.h:19-33 | GPUIntersection is 112 bytes, with every vec4 member 16-byte aligned |
| GPUStructs.GPUSphereSize | include/GPUStructs.h:66-69 | GPUSphere is 32 bytes, with its position 16-byte aligned |
| GPUStructs.FromSphere | include/GPUStructs.h:37-47 | the centre goes into the first three position slots and 0 into the fourth; the radius is copied; the material index is reduced modulo 2^32 |
| GPUStructs.FromSpherePointer | include/GPUStructs.h:49-64 | a null sphere leaves the members unset; any other sphere converts as by reference |
| GPUStructs.FromSphereRoundTrip | include/GPUStructs.h:37-47 | a sphere whose material index fits in 32 bits is recovered unchanged from its GPU form |
| GPUStructs.NegativeMaterialIndexWraps | include/GPUStructs.h:46 | a negative material index reaches the shader as index + 2^32 |
| RayIntersection.BindingIndex | RayTracerLib/Shaders/RayIntersection.h:115-124 | each of the six buffer bindings has an index below BufferBindingsCount |
| RayIntersection.BindingsEnumerated | RayTracerLib/Shaders/RayIntersection.h:115-124 | the enumerators number the bindings 0 to 5 one-to-one |
| RayIntersection.InputCameraOf | RayTracerLib/Shaders/RayIntersection.h:28-62 | the shader camera has the fixed 50 mm focal length and 18 mm sensor width, and the camera's position, forward, right and up vectors component by component |
| RayIntersection.InputCameraIgnoresLens | RayTracerLib/Shaders/RayIntersection.h:30-46 | two cameras with the same position and basis vectors give the same shader camera, whatever their lenses |
| RayIntersection.InputSphereOf | RayTracerLib/Shaders/RayIntersection.h:64-80 | the sphere's centre goes into the three position floats; the radius and the signed material index are copied |
| RayIntersection.InputSphereRoundTrip | RayTracerLib/Shaders/RayIntersection.h:66-75 | the shader's sphere reads back as the scene's sphere |
| RayIntersection.InputMaterialOf | RayTracerLib/Shaders/RayIntersection.h:82-94 | the shader material holds the surface colour's red, green and blue, and the roughness |
| RayIntersection.InputMaterialDropsAlpha | RayTracerLib/Shaders/RayIntersection.h:84-90 | the alpha channel does not reach the shader |
| RayIntersection.RecordSizes | RayTracerLib/Shaders/RayIntersection.h:14-99 | the records are 4, 8, 56, 20, 16 and 12 bytes wide |
| RayIntersection.BufferTable | RayTracerLib/Shaders/RayIntersection.cpp:12-42 | the table has six entries with no buffer or memory yet, and an entry uses a uniform buffer exactly when its descriptor type is uniform |
| RayIntersection.BufferTableSizes | RayTracerLib/Shaders/RayIntersection.cpp:29-42 | while the products fit in 64 bits, the sphere, material and output buffers hold one record per sphere, per material and per pixel; the first three bindings are uniform, the rest storage |
| RayIntersection.EmptyListZeroSize | RayTracerLib/Shaders/RayIntersection.cpp:29-37 | an empty sphere or material list asks for a zero-byte buffer |
| RayIntersection.ZeroSizeLeavesPointer | RayTracerLib/Shaders/RayIntersection.cpp:86-90 | a zero-byte request reports success, creates nothing and leaves a null data pointer null |
| RayIntersection.SuccessMeansMapped | RayTracerLib/Shaders/RayIntersection.cpp:83-144 | a non-empty request succeeds only through a suitable memory type, and then the data pointer is the mapped address and the memory is the allocated one |
| RayIntersection.NoMemoryTypeFails | RayTracerLib/Shaders/RayIntersection.cpp:110-113 | with no suitable memory type, a non-empty request fails with VK_ERROR_OUT_OF_HOST_MEMORY |
| RayIntersection.MapAll | RayTracerLib/Shaders/RayIntersection.cpp:150-157 | mapping the table gives one outcome per entry |
| RayIntersection.MapAllResult | RayTracerLib/Shaders/RayIntersection.cpp:146-160 | the result is VK_SUCCESS if and only if every entry succeeded, and VK_ERROR_MEMORY_MAP_FAILED otherwise |
| RayIntersection.EmptySpheresThrow | RayTracerLib/Shaders/RayIntersection.cpp:44-53 | with no spheres, construction always throws, at the mapping or at the null check |
| RayIntersection.EmptyMaterialsThrow | RayTracerLib/Shaders/RayIntersection.cpp:44-53 | with no materials, construction always throws in the same way |
| RayIntersection.InitializedOutputMapped | RayTracerLib/Shaders/RayIntersection.cpp:44-81 | after construction succeeds, every entry was mapped and no data pointer is null, so GetOutputColors returns a real buffer |
| RayIntersection.RayIntersectionComputeShader.constructor | RayTracerLib/Shaders/RayIntersection.cpp:10-42 | the fields hold the inputs, the table is BufferTable of the sphere count, material count and resolution, and no data pointer is set yet |
| RayIntersection.RayIntersectionComputeShader.CreateAndMapMemory | RayTracerLib/Shaders/RayIntersection.cpp:83-144 | the steps run in the source's order and give MapOutcome: success for zero bytes, out-of-host-memory without a memory type, out-of-device-memory for a failed allocation, creation or bind, otherwise vkMapMemory's result |
| RayIntersection.RayIntersectionComputeShader.CreateAndMapMemories | RayTracerLib/Shaders/RayIntersection.cpp:146-160 | every entry is tried, even after a failure; each entry's handles and data pointer become what its mapping left; the result is MapAllResult |
| RayIntersection.RayIntersectionComputeShader.Initialize | RayTracerLib/Shaders/RayIntersection.cpp:44-81 | the constructor's throws in order (the mapping, a null data pointer, then the shader module, the description, the pipeline and the descriptor sets); every entry's buffer and device-memory handles and every data pointer are those of MapAll; the sample count, resolution, camera, spheres and materials are uploaded exactly when the mapping and the null check pass, and the upload is otherwise unchanged |
| RayIntersection.RayIntersectionComputeShader.DescribeShader | RayTracerLib/Shaders/RayIntersection.cpp:178-196 | layout binding i is binding i with entry i's descriptor type and count 1 |
| RayIntersection.RayIntersectionComputeShader.DescriptorPoolSizes | RayTracerLib/Shaders/RayIntersection.cpp:224-232 | pool size i has entry i's descriptor type and count 1 |
| RayIntersection.RayIntersectionComputeShader.UpdateDescriptorSets | RayTracerLib/Shaders/RayIntersection.cpp:257-277 | write i binds entry i's whole buffer at binding i, with its descriptor type |
| RayIntersection.RayIntersectionComputeShader.UnmapAndDestroyMemories | RayTracerLib/Shaders/RayIntersection.cpp:297-307 | exactly the entries with non-null device memory are unmapped and freed, each once, in table order |
| GPURenderer.Grown | RayTracerLib/GPURenderer.cpp:91-95 | after some number of verifications the member list is the original list followed by that many copies of the name in a debug run, and is unchanged otherwise |
| GPURenderer.GrownTwice | RayTracerLib/GPURenderer.cpp:91-95 | growing a list a times and then b times is growing it a + b times, so n Render calls leave the lists Grown n times |
| GPURenderer.RepeatedVerificationAgrees | RayTracerLib/GPURenderer.cpp:89-128 | each Render appends the name again, yet later verifications reach the same verdict as the first |
| GPURenderer.DebugWithoutValidationFails | RayTracerLib/GPURenderer.cpp:91-95 | with debugging on and no validation layer installed, layer verification fails |
| GPURenderer.InputSpheres | RayTracerLib/GPURenderer.cpp:377-387 | the shader gets one input sphere per scene sphere, in order |
| GPURenderer.CollectInputSpheres | RayTracerLib/GPURenderer.cpp:377-387 | the loop skips every object that is not a sphere and converts the spheres in scene order |
| GPURenderer.CollectInputMaterials | RayTracerLib/GPURenderer.cpp:389-393 | one shader material per scene material, in order |
| GPURenderer.ReadbackIndexBijective | RayTracerLib/GPURenderer.cpp:456-460 | the readback index y·X + x maps the pixels one-to-one onto the output colours 0 to X·Y-1 |
| GPURenderer.ReadBackRow | RayTracerLib/GPURenderer.cpp:458-467 | the inner loop writes row y from its output colours and leaves every other row untouched |
| GPURenderer.ReadBack | RayTracerLib/GPURenderer.cpp:454-468 | the new image has the camera's resolution, and each pixel holds the converted output colour at index y·X + x |
| GPURenderer.DeclinedWhenUnverifiedOrNoDevice | RayTracerLib/GPURenderer.cpp:336-363 | Render returns false when a required layer or extension is missing, or when there is no physical device |
| GPURenderer.RenderedMeansAllSucceeded | RayTracerLib/GPURenderer.cpp:324-482 | a true return means both verifications passed, a device with a compute queue was found, and every command call succeeded |
| GPURenderer.NoSpheresOrMaterialsNeverRenders | RayTracerLib/GPURenderer.cpp:377-401 | a scene without spheres or without materials never renders, because the shader's constructor throws |
| GPURenderer.GPURenderer.constructor | RayTracerLib/GPURenderer.cpp:89-94 | the renderer starts with the given debug flag and layer and extension lists |
| GPURenderer.GPURenderer.CreateDebugMessenger | RayTracerLib/GPURenderer.cpp:173-198 | the result is VK_ERROR_UNKNOWN for a null instance or out-pointer, VK_ERROR_EXTENSION_NOT_PRESENT when the loader lacks the function, and otherwise the function's own result |
| GPURenderer.GPURenderer.GetBestComputeQueue | RayTracerLib/GPURenderer.cpp:263-303 | a failed _malloca gives VK_ERROR_OUT_OF_DEVICE_MEMORY; otherwise the two passes of the queue search decide, and on failure the index is unchanged |
| GPURenderer.GPURenderer.VerifyInstanceLayers | RayTracerLib/GPURenderer.cpp:89-128 | a debug run appends the validation layer to the member list; the answer is whether every listed layer is available |
| GPURenderer.GPURenderer.VerifyInstanceExtensions | RayTracerLib/GPURenderer.cpp:131-170 | a debug run appends VK_EXT_debug_utils; the answer is whether every listed extension is available |
| GPURenderer.GPURenderer.Setup | RayTracerLib/GPURenderer.cpp:336-375 | the verifications, the instance, the devices, the compute queue and the logical device are tried in order, each failure ending Render with false or exit(-1) as the source does; the member layer list is Grown once by the validation layer, and the extension list is Grown once by VK_EXT_debug_utils when the layer check passed and is otherwise unchanged |
| GPURenderer.GPURenderer.Render | RayTracerLib/GPURenderer.cpp:324-482 | the outcome is RenderResult; an image exists exactly when Render returns true, and it is the readback of the shader's output; the member lists grow on every call exactly as in Setup |
| GPURenderer.RunShader | RayTracerLib/GPURenderer.cpp:377-475 | the shader is built from the scene's spheres, materials and camera; a throw or a failed command ends the render, otherwise the output is read back into a fresh image |
| GPURendererV2.RecordSizesAgree | RayTracerLib/GPURendererV2.cpp:74-96 | the sizeof values used to size the buffers, 48, 112 and 32 bytes, are the sizes of the GPURay, GPUIntersection and GPUSphere layouts |
| GPURendererV2.TotalRays | RayTracerLib/GPURendererV2.cpp:70 | X·Y·samples is computed in size_t, so the count is below 2^64 |
| GPURendererV2.BufferCountIsCeiling | RayTracerLib/GPURendererV2.cpp:71 | the buffer count is the ceiling of the rays over RayBufferSize (1024·1024): the buffers hold every ray, one fewer would not, and there are none exactly when there are no rays |
| GPURendererV2.BindingIndex | RayTracerLib/GPURendererV2.cpp:68 | the three bindings (rays, intersections, spheres) have indices below the binding count |
| GPURendererV2.StorageBinding | RayTracerLib/GPURendererV2.cpp:74-84 | a storage entry resized to `count` slots has count buffers, memories and data pointers, all empty |
| GPURendererV2.BufferTable | RayTracerLib/GPURendererV2.cpp:68-100 | the table has three entries with aligned slot lists |
| GPURendererV2.BufferTableShape | RayTracerLib/GPURendererV2.cpp:74-100 | the ray and intersection entries have one slot per ray buffer; the sphere entry has exactly one slot, sized 32 bytes per sphere |
| GPURendererV2.MapOutcome | RayTracerLib/GPURendererV2.cpp:136-185 | a pointer comes back if and only if the size is non-zero and a suitable memory type exists |
| GPURendererV2.CreateAndMapMemory | RayTracerLib/GPURendererV2.cpp:136-185 | the steps run in the source's order and give MapOutcome: null for zero bytes or without a memory type, otherwise the mapped address with the allocated memory and the created buffer |
| GPURendererV2.MapPrefix | RayTracerLib/GPURendererV2.cpp:193-200 | after the first k slots of an entry, those slots hold their mapping results and the rest are unchanged |
| GPURendererV2.MapTable | RayTracerLib/GPURendererV2.cpp:187-204 | every entry of the table is mapped slot by slot |
| GPURendererV2.BindingMapped | RayTracerLib/GPURendererV2.cpp:195-196 | a slot's data pointer is non-null if and only if its entry's size is non-zero and has a suitable memory type |
| GPURendererV2.MappingSucceedsIff | RayTracerLib/GPURendererV2.cpp:102-129 | every slot is mapped if and only if the sphere buffer is non-empty and has a memory type, and, when there are ray buffers, the ray and intersection sizes have memory types too |
| GPURendererV2.NoSpheresNotMapped | RayTracerLib/GPURendererV2.cpp:96-105 | without spheres the sphere slot is never mapped |
| GPURendererV2.MapBindingBuffers | RayTracerLib/GPURendererV2.cpp:193-200 | the loop over an entry's slots gives MapBinding, and it reports a failure exactly when some slot is null |
| GPURendererV2.NoSpheresThrows | RayTracerLib/GPURendererV2.cpp:86-105 | a scene without spheres always makes the constructor throw, with "Failed to create and map memories for compute shader" once the device checks pass |
| GPURendererV2.GPUSpheres | RayTracerLib/GPURendererV2.cpp:86-94 | one GPUSphere per scene sphere, in order, each converted as GPUSphere's constructor does |
| GPURendererV2.CollectSpheres | RayTracerLib/GPURendererV2.cpp:86-94 | the loop keeps exactly the objects whose dynamic_cast to Sphere succeeds and converts them through the pointer constructor |
| GPURendererV2.InitializeCallAt | RayTracerLib/GPURendererV2.cpp:215-220 | the i-th ray initialisation uses ray buffer i and starts at ray offset RayBufferSize·i |
| GPURendererV2.IntersectCallAt | RayTracerLib/GPURendererV2.cpp:235-240 | the i-th intersection pass reads ray buffer i and intersection buffer i, and the one sphere buffer |
| GPURendererV2.MaterialCallAt | RayTracerLib/GPURendererV2.cpp:255-259 | the i-th material pass uses intersection buffer i and ray buffer i |
| GPURendererV2.StagesInOrder | RayTracerLib/GPURendererV2.cpp:212-264 | for n ray buffers, all n initialisations come before all n intersection passes, which come before all n material passes |
| GPURendererV2.InitializeStage | RayTracerLib/GPURendererV2.cpp:215-231 | the loop issues exactly InitializeCalls of the ray buffers |
| GPURendererV2.IntersectStage | RayTracerLib/GPURendererV2.cpp:235-251 | the loop issues exactly IntersectCalls |
| GPURendererV2.MaterialStage | RayTracerLib/GPURendererV2.cpp:255-264 | the loop issues exactly MaterialCalls |
| GPURendererV2.LastWriteTo | RayTracerLib/GPURendererV2.cpp:268-290 | the last write to a pixel is None exactly when no write names it; otherwise it is the colour of a write to that pixel with no later write to it |
| GPURendererV2.PaintedLastWriteWins | RayTracerLib/GPURendererV2.cpp:268-290 | after a run of SetPixelColor calls, a pixel holds the last colour written to it, or its old colour if it was never written; writes outside the image change nothing |
| GPURendererV2.RenderedPixel | RayTracerLib/GPURendererV2.cpp:267-290 | in the rendered image, a pixel holds the last intersection colour written to it, and transparent black when no intersection names it |
| GPURendererV2.PaintedAppend | RayTracerLib/GPURendererV2.cpp:268-290 | painting a then b is painting a + b |
| GPURendererV2.WriteBackBuffers | RayTracerLib/GPURendererV2.cpp:267-290 | a fresh image of the resolution, painted with the intersections of the first min(#ray, #intersection) buffers, buffer by buffer in order |
| GPURendererV2.WriteBackBuffer | RayTracerLib/GPURendererV2.cpp:270-289 | the inner loop paints the RayBufferSize intersections of buffer i in order |
| GPURendererV2.GPURendererV2.constructor | RayTracerLib/GPURendererV2.cpp:29-30 | the renderer keeps the camera, the sample count and the scene, with no buffers yet |
| GPURendererV2.GPURendererV2.CheckDevice | RayTracerLib/GPURendererV2.cpp:36-66 | the checks throw in the source's order with its messages; when none throws, the compute queue is the one the queue search chooses on the first device |
| GPURendererV2.GPURendererV2.SizeAndMapBuffers | RayTracerLib/GPURendererV2.cpp:68-105 | the table is BufferTable of the ray-buffer count and sphere count, mapped; the mapping succeeds if and only if every slot is mapped |
| GPURendererV2.GPURendererV2.Create | RayTracerLib/GPURendererV2.cpp:29-134 | construction ends as CreateResult says; after the device checks the table is the mapped BufferTable; on success the scene's spheres are uploaded as GPUSpheres; once the device checks pass, the stored compute queue index is the one BestComputeQueue chooses |
| GPURendererV2.GPURendererV2.CreateAndMapMemories | RayTracerLib/GPURendererV2.cpp:187-204 | every slot of every entry is tried; the result is eSuccess if and only if every slot is mapped, else eErrorMemoryMapFailed |
| GPURendererV2.GPURendererV2.NullCheck | RayTracerLib/GPURendererV2.cpp:107-129 | no message comes back exactly when every ray, intersection and sphere slot is mapped |
| GPURendererV2.GPURendererV2.RunStages | RayTracerLib/GPURendererV2.cpp:212-264 | the calls are the initialisations, then the intersection passes, then the material passes, over the ray buffers |
| GPURendererV2.GPURendererV2.WriteBackImage | RayTracerLib/GPURendererV2.cpp:267-290 | the fresh image has the camera's resolution and is the blank image painted with the intersections of the first min(#ray, #intersection) buffers, in order |
| GPURendererV2.GPURendererV2.Render | RayTracerLib/GPURendererV2.cpp:206-295 | Render issues the stage calls of RunStages and returns the image of WriteBackImage |

## Left out

- Pixel.Pixel.AccumulateColorSample: the source averages in 32-bit floats and truncates to a byte; the model averages exactly over integers, which agrees with the float arithmetic only while the running total stays exactly representable (sample counts below 2^16).
- Floating-point geometry and shading (Sphere.h, Mesh.h's Möller–Trumbore face test, Color.h's conversions and Modulate, Utilities.h's Lerp, World.h): numeric code over floats. Hits are oracles giving a depth or a miss, and colour factors are recorded symbolically.
- Vector3's Normalize (with its mutable cache), NormalizedLerp and RandomInUnitSphere: floating point and randomness. In the Camera constructor, normalisation and the cross product are parameters.
- Vector3 and Vectors over size_t: arithmetic is over unbounded integers, so the wrap-around of an unsigned subtraction is not modelled.
- Pixel's central ray, rightVector and upVector, and Pixel::GetNextRay: float ray arithmetic and rand(). PixelRenderTask.Execute takes the sample rays and Pixel::Average's colour as parameters. Pixel::Average does not exist in Pixel.h.
- The thread pool (ThreadPool.cpp/.h): concurrency. CPURenderer.Render records the tasks it enqueues but does not run them.
- tiny_obj_loader's parser: file I/O. Its parse result is an input to TinyOBJLoader.CreateSceneFromOBJFile.
- main's rendering and timing after MainDecision: the renderers are modelled separately. That includes the scene built from the preset or the OBJ file, and a null camera after a failed OBJ load, which main does not check.
- write_png_file's libpng calls and file handling: I/O. Only the row-shape checks are modelled.
- PerformanceSession's ofstream: the destructor's output is the string TraceFormat.Serialized. Timestamps are parameters; the pid is the constant 0 and there is no thread id. Section names are inserted without JSON escaping, exactly as the source does.
- VulkanUtils.UserMessageAfterLastBar: requires the message to be shorter than std::string::npos, which every real string is.
- VulkanDebugCallback's severity-dependent printing and the ENABLE_SHADER_PRINTF build: debug-only output. The release build's empty requirement lists are modelled (ReleaseBuildRequiresNothing).
- Vulkan object creation, descriptor updates, command recording, queue submission and waiting (GPURayIntersector.cpp, GPURayInitializer.cpp, GPUComputeShader.cpp, GPUMaterialCalculator.cpp, GPUSampleAccumulator.cpp, GPUSampleFinalizer.cpp, GPUWorldMaterial.cpp, GPUDiffuseMaterial.cpp): foreign API calls. The driver's answers (enumerations, results, handles, memory properties, shader output) are parameters.
- CreateHeadlessVulkanInstance, EnumerateDevices, CreateDevice, DestroyDebugMessenger and ReadShaderFileToBytes: foreign calls and file I/O, represented by their driver answers.
- GPURenderer's dispatch group count (a float ceiling of the pixel count over the workgroup size): float arithmetic and a command-buffer detail. Only the shader's output colours are modelled.
- GPURenderer.ReadBack: the conversion of an OutputColor's floats to an 8-bit Color is a parameter. It requires the shader's output to hold exactly X·Y colours, which the output buffer's size guarantees.
- GPURenderer.h and GPURendererV2.h: the headers disagree with their .cpp files (members, constructor and Render signatures, and a two-binding enumeration in GPURendererV2.h). The model follows the .cpp files.
- GPURendererV2.GPURendererV2.Create: the vulkan.hpp calls that throw on failure are taken to succeed, including the device-extension enumeration inside VulkanUtils.VerifyDeviceExtensions, whose throw is modelled on its own, and the throwing constructor becomes a method returning a Result. RayIntersectionComputeShader's constructor becomes Initialize in the same way.
- GPURendererV2.GPURendererV2.RunStages: the stage calls record the buffers and offsets they use, not the camera, the sample count or the lens values passed along. What the shaders leave in the intersection buffers is a parameter.
- GPURendererV2's destructor and the shader classes' destructors: resource release through foreign calls. RayIntersection.RayIntersectionComputeShader.UnmapAndDestroyMemories is modelled.
- RayIntersection.RayIntersectionComputeShader.CreateAndMapMemory: a failing vkMapMemory leaves the caller's pointer as it was. Handles and mapped addresses are natural numbers, with null as None.
- PresetScenes.h, Material.h and the BSDF sources: rand()-driven scene and material code.
- The interfaces IScene.h, IWorld.h, IImage.h, IMaterial.h, IIntersectable.h, IGPUMaterial.h and Ray.h: they have no behaviour. Scene objects are a sphere-or-mesh datatype.
- Intersection.h: an intersection is modelled by its depth alone. The class declares only the three-argument constructor of line 14, and its members are `const`, which matters for Mesh.IntersectsRay below.
- Mesh.Mesh.IntersectsRay: include/Mesh.h:28 and :32 default-construct an Intersection, and line 36 assigns one; neither compiles against Intersection.h:10-15, so the source leaves the starting depth undefined. The model assumes a default intersection of infinite depth (finalDepth starts as None), as RayTracerLibTests/MeshTests.cpp:28-34 needs to find the depth-1 hit; a face at or beyond a finite default depth would never be reported.
- CosmicRenderEngine/__init__.py and KingRenderEngine/__init__.py: Blender add-on glue with no logic of their own.
- ElapsedTimer.h and the PRINT_TIME macros: wall-clock timing.

## Findings

| source | as written | input that shows it | evidently intended | confidence | as-written member | corrected member |
|---|---|---|---|---|---|---|
| include/Mesh.h:16 | the Y and Z indices are compared with the vertex count by `==`, so an index past the end is accepted and the face read goes out of bounds | one vertex and the index triple (0, 2, 0) | every index compared by `>=`, like X | high (not executed) | Mesh.RejectedAsWrittenAdmitsOutOfBounds | Mesh.Mesh.Create |
