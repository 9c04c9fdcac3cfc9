# VulkanCompositor core, modelled in Dafny

VulkanCompositor draws a window through Vulkan. It has four parts:

- A `Device` picks a GPU and one queue family and creates the logical device.
- A `Window` creates a surface and checks what the surface supports. It then creates a double-buffered swapchain and one image view per swapchain image.
- A `Render` object creates synchronisation objects, shaders, a vertex buffer, a render pass, framebuffers, a pipeline and a command buffer. Every `Frame` acquires an image, records one draw, submits, presents and waits on the present fence.
- The helper structs (`DeviceData`, `Buffer`, `Shader`) do the older device set-up and the buffer upload chain. `FindMemoryTypeIndex` chooses the memory type of every buffer.

This project models that core. Every Vulkan or GLFW call is an opaque step. The driver's answer to it (a `Result`, plus a handle or the enumerated data) is a parameter of the model. Every object has a ghost `trace`. Each creating, recording, submitting or presenting call the model covers is appended to it; destroy and free calls go to a separate `teardown` log. A few read-only queries are not logged: their answers are inputs of the model (see "Left out").

Each state-changing C++ method becomes a Dafny method on a class whose fields are the C++ members. Its `ensures` ties the new state and the new trace to a pure specification function of the replies. Lemmas about those functions state what the code promises:

- the first-match searches;
- the sort-and-unique queue list;
- the short-circuit `&&` chains;
- the frame's call protocol and the wiring of its semaphores and fence;
- the guarded, ordered teardowns.

Files and modules:

- `vk.dfy` (`Vk`): the shared vocabulary.
  - Handles, results, replies and teardown calls.
  - `Outcome` with `Then`, the short-circuit `&&` of two steps, and `Chain`, the `&&` of a list of steps, with their lemmas.
  - First-failure search for creation loops; the guarded destroy; the `Before` ordering predicate.
- `helpers.dfy` (`Helpers`): `FindMemoryTypeIndex`.
- `structs.dfy` (`Structs`):
  - `DeviceData`: physical-device preference, queue families, the sorted and de-duplicated queue list;
  - `Buffer`: create, allocate, bind, map, copy, unmap, then the descriptors;
  - `Shader`.
- `device.dfy` (`Devices`): `Device`, with its search over preferred GPU types.
- `window.dfy` (`WindowSurface`): `Window`, covering the surface queries, the swapchain checks and request, the image-view loop and the teardown.
- `render.dfy` (`Renderer`): `Render`, covering `Init`, `Frame` and `Shutdown`.

`FindMemoryTypeIndex` accepts the first memory type whose property flags share at least one bit with the request. That is overlap, not containment, and the model follows the code. A containment (superset) match would agree with this only for single-bit requests such as the compositor's (`HostVisibleLookupIsHostVisible`).

## Model

| member | source | states |
|---|---|---|
| Vk.FirstOfType | sources/Structs.cpp:57-60 | `std::find_if` by device type: the index is the first device of that type, or the count when there is none |
| Vk.Then | sources/Render.cpp:25-31 | C++ `&&`: the second step runs, and its calls are logged, only when the first succeeded; the pair succeeds iff both do |
| Vk.ChainSucceedsIffAllSteps | sources/Device.cpp:24-27 | a chain of `&&` steps succeeds exactly when every step succeeds |
| Vk.ChainSuccessCalls | sources/Device.cpp:24-27 | when every step succeeds, the chain makes every step's calls, in order |
| Vk.ChainStopsAtFirstFailure | sources/Window.cpp:30-33 | when step k is the first failure, the chain fails and its calls are exactly those of steps 0..k: nothing runs after a failure |
| Vk.ChainSnoc | sources/Window.cpp:30-33 | one more `&&` step runs only after a successful chain; it then decides the result and adds its calls |
| Vk.ChainOfThree | sources/Device.cpp:26 | a three-step chain is `a && (b && c)` |
| Vk.FirstFailure | sources/Render.cpp:225-241 | the first failing creation of a loop: every earlier one succeeded and this one failed, or none of the first n failed |
| Vk.FirstFailureIsFirst | sources/Render.cpp:225-241 | any index with that property is the one the search returns |
| Vk.Attempted | sources/Render.cpp:225-241 | a creation loop attempts no more than its bound: up to and including the first failure, or all of them when none fails |
| Vk.Guarded | sources/Render.cpp:38-39 | `if (h) destroy(h)`: one destroy of the right kind for a valid handle, none for a null one |
| Vk.GuardedAll | sources/Render.cpp:59-60 | the guarded destroys of a list only destroy valid handles of that list, as that kind |
| Vk.GuardedAllDestroysValid | sources/Window.cpp:47-51 | a list's guarded destroys include a handle exactly when it is valid and in the list |
| Vk.GuardedAllSnoc | sources/Window.cpp:47-51 | one more handle adds its guarded destroy at the end |
| Vk.BeforeAcross | sources/Device.cpp:31-35 | a call only in the front part of a log comes before a call only in the back part |
| Vk.BeforeExtend | sources/Render.cpp:36-66 | appending calls without `a` keeps `a` before `b` |
| Vk.BeforePrepend | sources/Render.cpp:36-66 | prepending calls without `b` keeps `a` before `b` |
| Vk.ThenPrefixRun | sources/Render.cpp:23-32 | two steps that each make a prefix of their full calls, and all of them on success, joined by `&&` make a prefix of the joined calls, and all of them on success |
| Helpers.FirstOverlapping | include/Helpers.hpp:15-23 | the first memory type overlapping the request: all earlier ones do not overlap, or there is none |
| Helpers.FirstOverlappingIsFirst | include/Helpers.hpp:15-23 | any index with that property is the one the search returns |
| Helpers.MemoryTypeLookup | include/Helpers.hpp:9-26 | a found index is below `memoryTypeCount`; a failed lookup returns index 0 |
| Helpers.FindMemoryTypeIndex | include/Helpers.hpp:9-26 | found iff some reported type overlaps the flags; the index is the first such type, below `memoryTypeCount`; not found gives index 0 |
| Helpers.SingleBitOverlapIsContainment | include/Helpers.hpp:17 | for a one-bit request, overlapping it and containing it coincide |
| Helpers.HostVisibleLookupIsHostVisible | sources/Structs.cpp:188 | the host-visible lookup of buffer creation finds a type that really is host-visible |
| Structs.PreferredDeviceIndex | sources/Structs.cpp:51-66 | the kept device is the first discrete GPU if there is one, else the first integrated GPU, else the front of the list |
| Structs.GraphicsFamilyIndex | sources/Structs.cpp:75-84 | the lowest family with the graphics bit, or the count when none has it |
| Structs.PresentFamilyIndex | sources/Structs.cpp:87-103 | the lowest family that can present, or the count when none can |
| Structs.PresentFamilyIndexIsFirst | sources/Structs.cpp:87-98 | any index with that property is the one the search returns |
| Structs.InsertByFamily | sources/Structs.cpp:124-126 | insertion adds one request and puts the smaller family first |
| Structs.SortByFamily | sources/Structs.cpp:124-126 | sorting keeps the length |
| Structs.UniqueByFamily | sources/Structs.cpp:127-130 | de-duplicating never lengthens the list and keeps its first request |
| Structs.AscendingTail | sources/Structs.cpp:124-126 | the tail of an ascending list is ascending |
| Structs.InsertByFamilyCorrect | sources/Structs.cpp:124-126 | insertion keeps the list ascending and adds exactly one request (multiset) |
| Structs.SortByFamilyCorrect | sources/Structs.cpp:124-126 | the sort's result is ascending by family and a permutation of its input |
| Structs.UniqueByFamilyCorrect | sources/Structs.cpp:127-130 | unique keeps only input requests and exactly the input's families; on an ascending input no family appears twice |
| Structs.SortUniqueOnePerFamily | sources/Structs.cpp:121-130 | sort then unique gives a strictly ascending list with the same families |
| Structs.QueueCreateInfos | sources/Structs.cpp:107-130 | the queue list is [graphics, present] when graphics < present, one request when they coincide, [present, graphics] otherwise; one queue each |
| Structs.SortUniquePair | sources/Structs.cpp:121-130 | sorting and de-duplicating two requests, worked out case by case |
| Structs.QueueCreateInfosOnePerFamily | sources/Structs.cpp:121-130 | the device is asked for exactly {graphics, present}, strictly ascending, one queue each |
| Structs.LogicalDeviceOutcome | sources/Structs.cpp:71-151 | succeeds iff both family searches find a family and the device is created; the calls are a prefix of create-device with the queue list, then the graphics and present queues, all of them on success |
| Structs.LogicalDeviceRequest | sources/Structs.cpp:71-151 | succeeds iff some family has graphics, some can present and creation succeeds; failing searches make no call; otherwise it creates the device with the lowest such families, one extension, then gets 2 queues |
| Structs.FindPresentFamily | sources/Structs.cpp:87-98 | the present-family loop stops at the first family that can present |
| Structs.DeviceData.constructor | include/Structs.hpp:23-36 | all handles null, empty trace |
| Structs.DeviceData.InitializePhysicalDevice | sources/Structs.cpp:40-69 | fails iff the enumeration is empty (its result code is ignored); otherwise keeps the preferred device; nothing else changes |
| Structs.DeviceData.InitializeLogicalDevice | sources/Structs.cpp:71-151 | calls and result as `LogicalDeviceOutcome`; the family indices are stored once both searches succeed, the queues only on success |
| Structs.DeviceData.CreateLogicalDevice | sources/Structs.cpp:121-150 | with both families known: the device is requested with the sorted, de-duplicated queue list; the handle is stored whatever the answer; the queues are fetched and stored only when creation succeeds, and the call reports exactly that |
| Structs.BufferObjectStopsAtFirstFailure | sources/Structs.cpp:174-227 | succeeds iff create, memory-type lookup, allocate, bind and map all succeed; on success the calls are create, allocate (host-visible type), bind at 0, map, unmap; a failure stops at that call |
| Structs.DescriptorWrites | sources/Structs.cpp:295-311 | one write per set, each at offset 0 over `range` bytes of this buffer with that set's descriptor count |
| Structs.DescribedBufferUpdatesOnlyOnSuccess | sources/Structs.cpp:158-172 | succeeds iff buffer, layout, pool and set all succeed; no update otherwise; on success the pool has one set and the binding's pool size, and one write is made |
| Structs.CopyBytes | sources/Structs.cpp:223 | the `memcpy`: the first n bytes of the mapped memory become the data; the rest are unchanged |
| Structs.MapAndCopy | sources/Structs.cpp:215-223 | the mapped memory is new, has the requested size, and begins with the copied bytes |
| Structs.BufferObjectOutcome | sources/Structs.cpp:174-227 | succeeds iff create, lookup, allocate, bind and map all succeed; the calls are a prefix of the full chain, all of it on success |
| Structs.DescribedBufferOutcome | sources/Structs.cpp:158-172 | succeeds iff the buffer chain, layout, pool and set all succeed; the buffer chain's calls come first |
| Structs.ShaderOutcome | sources/Structs.cpp:314-344 | succeeds iff the code is loaded and the module created; the calls are a prefix of load then create, both on success |
| Structs.Buffer.constructor | include/Structs.hpp:68-90 | all handles null, no descriptors, empty trace |
| Structs.Buffer.CreateBufferObject | sources/Structs.cpp:174-227 | calls and result as `BufferObjectOutcome`; the buffer handle is stored; the memory handle once the lookup found a host-visible type; on success the mapped bytes are new, of the required size and begin with the data, and on failure they are unchanged; the descriptor fields are unchanged |
| Structs.Buffer.AllocateAndMap | sources/Structs.cpp:195-226 | allocate, bind, map and unmap stop at the first failure and report success only when all three answers succeed; the memory handle is stored; on success the mapped bytes are new and begin with the data, on failure unchanged; the buffer and descriptor fields are unchanged |
| Structs.Buffer.CreateBuffer | sources/Structs.cpp:153-156 | the plain overload is the buffer chain alone, with the same calls and the same new state as `CreateBufferObject` |
| Structs.Buffer.CreateDescriptorSetLayout | sources/Structs.cpp:229-246 | one layout of the one binding; `layouts` becomes that handle |
| Structs.Buffer.CreateDescriptorPool | sources/Structs.cpp:248-272 | a pool of one set, sized from the binding; on success 1 is appended to `descriptorsCount` |
| Structs.Buffer.CreateDescriptorSet | sources/Structs.cpp:274-290 | allocates one set per layout from the pool |
| Structs.Buffer.UpdateDescriptorSet | sources/Structs.cpp:292-312 | the loop issues exactly `DescriptorWrites` |
| Structs.Buffer.CreateBufferWithDescriptor | sources/Structs.cpp:158-172 | calls and result as `DescribedBufferOutcome`; buffer, memory and mapped bytes as `CreateBufferObject`; layout, pool, count and sets each hold their step's reply once that step ran, and are unchanged otherwise |
| Structs.Shader.constructor | include/Structs.hpp:106-112 | null module, empty trace |
| Structs.Shader.CreateShader | sources/Structs.cpp:314-344 | no module after a failed load; the stage description is filled only after the module was created |
| Devices.FirstSuitable | sources/Device.cpp:99-107 | the lowest family with graphics and presentation, or the count |
| Devices.FirstSuitableIsFirst | sources/Device.cpp:99-107 | any index with that property is the one the search returns |
| Devices.ChoiceForType | sources/Device.cpp:90-110 | a type yields only the FIRST device of that type, with its lowest suitable family; it yields nothing iff there is no such device or that device has no suitable family |
| Devices.FirstYielding | sources/Device.cpp:88-111 | the first preferred type that yields a choice; no earlier type does |
| Devices.FirstYieldingIsFirst | sources/Device.cpp:88-111 | any index with that property is the one the search returns |
| Devices.DeviceChoice | sources/Device.cpp:88-115 | no choice iff no preferred type yields one; a choice is a device of a preferred type with a suitable family |
| Devices.EarlierTypesYieldNothing | sources/Device.cpp:88-111 | the chosen type's every predecessor in the preference list yields nothing |
| Devices.FirstDeviceOfTypeDecides | sources/Device.cpp:90-110 | a later device of the same type is never examined, even if it would be suitable |
| Devices.ChooseDevice | sources/Device.cpp:88-111 | the nested search loops compute `DeviceChoice` |
| Devices.InstanceOutcome | sources/Device.cpp:38-76 | succeeds iff Vulkan is supported and the instance is created; the calls are a prefix of the support check then the creation |
| Devices.PhysicalDeviceOutcome | sources/Device.cpp:78-116 | succeeds iff the enumeration succeeds and some preferred type yields a device; the one call is the enumeration |
| Devices.LogicalDeviceOutcome | sources/Device.cpp:118-142 | succeeds iff the device is created; the calls are a prefix of create-device with one queue of the family, then queue 0 |
| Devices.InitChain | sources/Device.cpp:24-27 | `Init` is `CreateInstance && (FindPhysicalDevice && CreateLogicalDevice)` |
| Devices.InitSucceedsIff | sources/Device.cpp:24-27 | `Init` succeeds iff Vulkan is supported, the instance and enumeration succeed, some type yields a device, and the device is created |
| Devices.InitCalls | sources/Device.cpp:24-142 | on success exactly: support check, instance, enumerate, device with one queue of the chosen family and one extension, queue 0; failures cut the log there |
| Devices.Device.constructor | include/Device.hpp:42-43 | default: discrete GPUs only, status "initialization failed", null handles |
| Devices.Device.WithTypes | sources/Device.cpp:13-20 | the given preference list, status "initialization failed", null handles |
| Devices.Device.CreateInstance | sources/Device.cpp:38-76 | no Vulkan support stops before the instance; otherwise status and instance are the creation's reply |
| Devices.Device.FindPhysicalDevice | sources/Device.cpp:78-116 | fails on a failed enumeration; otherwise takes `DeviceChoice` or sets "initialization failed" |
| Devices.Device.CreateLogicalDevice | sources/Device.cpp:118-142 | one queue of `queue.familyIndex`, one extension; on success queue 0 of that family is stored |
| Devices.Device.Init | sources/Device.cpp:24-27 | calls and result as the three-step chain; instance, physical device, logical device, queue and status each hold the reply of the last step that wrote them, and are unchanged when no step did; on success they are the replies |
| Devices.Device.Shutdown | sources/Device.cpp:29-36 | destroys the logical device, then the instance, each only if valid |
| Devices.ShutdownDestroysDeviceFirst | sources/Device.cpp:31-35 | each is destroyed iff valid, and the device before the instance |
| WindowSurface.SurfaceQueriesStatus | sources/Window.cpp:59-84 | the status left is Success iff all three queries succeeded |
| WindowSurface.SurfaceQueriesOutcome | sources/Window.cpp:59-84 | succeeds iff all three queries succeed; the calls are a prefix of capabilities, formats, present modes |
| WindowSurface.IndexOf | sources/Window.cpp:136-150 | `std::find`: the index is below or at the length, holds the value when below it, no earlier index holds it, and it is the length iff the value is absent |
| WindowSurface.CheckSurface | sources/Window.cpp:124-151 | accepted iff opaque alpha, maxImageCount >= 2, the wanted format and FIFO; otherwise the first failing check in source order names the rejection |
| WindowSurface.CheckSurfaceIgnoresMinImageCount | sources/Window.cpp:131 | the surface's `minImageCount` never affects the checks |
| WindowSurface.SwapchainRequest | sources/Window.cpp:153-167 | the request asks for the wanted format and FIFO, on the window's surface and extent, with exclusive sharing on the one family |
| WindowSurface.SwapchainOutcome | sources/Window.cpp:111-177 | succeeds iff the queries succeed, the checks accept the surface and the swapchain is created; the calls are a prefix of the three queries then the request |
| WindowSurface.AcceptedSurfaceSupportsRequest | sources/Window.cpp:153-167 | for an accepted surface the request uses a reported format and mode, opaque alpha, 2 images within the maximum, exclusive sharing on the one family, identity transform and the window extent |
| WindowSurface.SwapchainCreatedOnlyWhenAccepted | sources/Window.cpp:111-177 | a swapchain is created iff the fetch and checks pass, then right after the three queries; success iff status Success |
| WindowSurface.ViewSteps | sources/Window.cpp:189-215 | one view-creation step per image |
| WindowSurface.ViewCalls | sources/Window.cpp:189-215 | the view calls are for images 0, 1, ... in order, with the window's format |
| WindowSurface.ViewCallsPrefix | sources/Window.cpp:189-215 | the view calls for the first m images are a prefix of those for the first n, m <= n |
| WindowSurface.ViewStepsChain | sources/Window.cpp:189-215 | the view loop succeeds iff no view fails and creates views up to and including the first failure |
| WindowSurface.Recorded | sources/Window.cpp:189-215 | slot k holds image k and its view for every attempted k; the other slots are unchanged |
| WindowSurface.ImageViewsCalls | sources/Window.cpp:179-218 | succeeds iff the images are fetched and every view is created; a failed fetch makes no view call |
| WindowSurface.ImageViewsFetched | sources/Window.cpp:189-217 | after a successful fetch, the closed form of the loop's outcome |
| WindowSurface.ImageViewsOutcome | sources/Window.cpp:179-218 | succeeds iff the images are fetched and no view fails; the calls are a prefix of the fetch then one view per image |
| WindowSurface.ViewsOf | sources/Window.cpp:47-51 | the views of the swapchain images, in order |
| WindowSurface.ViewTeardownStep | sources/Window.cpp:47-51 | the teardown of one more image appends that image's guarded view destroy |
| WindowSurface.ShutdownDestroysViewsFirst | sources/Window.cpp:45-57 | every valid view is destroyed, before the swapchain; the swapchain is destroyed iff valid |
| WindowSurface.ShutdownCalls | sources/Window.cpp:45-57 | at most one destroy per image slot plus the swapchain |
| WindowSurface.InitSucceedsIff | sources/Window.cpp:30-33 | `Init` succeeds iff surface and support, fetch and checks, swapchain, images and every view all succeed |
| WindowSurface.Window.constructor | include/Window.hpp:48-56 | a 640×640 window, two empty image slots, status "initialization failed" |
| WindowSurface.Window.CreateSurface | sources/Window.cpp:86-109 | succeeds iff the surface is created and the family can present; the surface is stored once created |
| WindowSurface.Window.GetSurfaceData | sources/Window.cpp:59-84 | capabilities, formats, present modes; stops at the first failure; status is the last query's result |
| WindowSurface.Window.CreateSwapchain | sources/Window.cpp:111-177 | calls and result as `SwapchainOutcome`; "initialization failed" on a failed fetch or check; the swapchain is stored only for an accepted surface |
| WindowSurface.Window.CreateImageView | sources/Window.cpp:191-214 | records image i and its view in slot i only; status is the creation's result |
| WindowSurface.Window.CreateViews | sources/Window.cpp:189-215 | the loop's calls, status and slots as the closed form of `ViewStepsChain` and `Recorded` |
| WindowSurface.Window.CreateSwapchainImageViews | sources/Window.cpp:179-218 | calls and result as `ImageViewsOutcome`; slots recorded only after a successful fetch |
| WindowSurface.Window.Init | sources/Window.cpp:30-33 | calls and result as the three-step chain; surface, swapchain, image slots and status each hold the reply of the last step that wrote them, and are unchanged otherwise; on success surface and swapchain are the replies |
| WindowSurface.Window.Shutdown | sources/Window.cpp:45-57 | the teardown log gains exactly `ShutdownCalls` |
| Renderer.FirstNonTimeout | sources/Render.cpp:140 | the first fence wait that does not time out; every earlier wait timed out |
| Renderer.FenceWaits | sources/Render.cpp:140 | the first n waits on the present fence, each with its reply |
| Renderer.FrameOutcome | sources/Render.cpp:69-145 | the frame succeeds iff acquire, begin, end, submit and present succeed; its first call is the acquire on `imageAvailable`; a command buffer is needed only after a successful acquire |
| Renderer.FrameCalls | sources/Render.cpp:69-145 | the first call is the acquire; a failed acquire is the only call, with or without command buffers; after a successful one the next call begins the last command buffer |
| Renderer.FramesCalls | demo/Main.cpp:13-16 | the calls of n frames in a row, at least one per frame |
| Renderer.FramePrefix | sources/Render.cpp:71-133 | a frame has ten calls before the fence |
| Renderer.FrameCallsShape | sources/Render.cpp:69-145 | `Frame`'s chain of early returns equals the segment form: success iff acquire, begin, end, submit and present succeed |
| Renderer.FrameCallsAsPrefix | sources/Render.cpp:71-138 | a frame's calls are the prefix up to the failing call, or all ten then the fence calls |
| Renderer.FenceCallsProtocol | sources/Render.cpp:140-142 | k timed-out waits, one wait that did not time out, then resetFences, then the command-buffer reset |
| Renderer.FrameCallsPointwise | sources/Render.cpp:71-142 | after a successful acquire, call i is prefix call i or fence call i-10 |
| Renderer.FrameFailureSkipsFence | sources/Render.cpp:73-138 | a failed frame makes no fence wait or reset; a present is logged only after a successful submit |
| Renderer.FrameFenceProtocol | sources/Render.cpp:140-142 | a successful frame ends with a wait that did not time out, resetFences, then the reset; earlier waits timed out; resetFences appears only there and only on success |
| Renderer.PrefixWired | sources/Render.cpp:71-133 | each of the ten calls before the fence uses the renderer's semaphores, buffers and acquired index |
| Renderer.FenceWired | sources/Render.cpp:140-142 | every fence call uses the present fence and the last command buffer |
| Renderer.FrameWiring | sources/Render.cpp:71-142 | acquire signals imageAvailable; submit waits on it at colour-output, signals renderDone and carries the fence; present waits on renderDone with the acquired index; the render pass uses framebuffer[index]; draw(6,1,0,0) |
| Renderer.FramebufferCalls | sources/Render.cpp:225-235 | framebuffer k is created on the render pass from view k at the window's size, in index order |
| Renderer.SemaphoresOutcome | sources/Render.cpp:147-173 | succeeds iff both semaphores and the fence are created; the calls are a prefix of semaphore, semaphore, fence |
| Renderer.ShadersOutcome | sources/Render.cpp:175-179 | succeeds iff both shaders succeed; the calls are a prefix of vertex then fragment |
| Renderer.FramebuffersOutcome | sources/Render.cpp:223-244 | succeeds iff both framebuffers are created; the calls are a prefix of `FramebufferCalls` for both |
| Renderer.PipelineOutcome | sources/Render.cpp:246-340 | succeeds iff layout, cache and pipeline succeed; the calls are a prefix of layout, cache, then the pipeline on the cache, layout and render pass |
| Renderer.CommandBuffersOutcome | sources/Render.cpp:342-368 | succeeds iff pool and buffer succeed; the calls are a prefix of the pool on the family, then one buffer from that pool |
| Renderer.ResourcesOutcome | sources/Render.cpp:25-27 | succeeds iff the semaphores, both shaders and the vertex buffer succeed; the calls are a prefix of the resource calls |
| Renderer.TargetsOutcome | sources/Render.cpp:28-31 | the calls are a prefix of the target calls on the handles created before them, all of them on success |
| Renderer.InitOutcome | sources/Render.cpp:23-32 | the calls are a prefix of the resource calls then the target calls, all of them on success |
| Renderer.InitSucceedsIff | sources/Render.cpp:23-32 | `Init` succeeds iff every creation succeeded, both framebuffers included |
| Renderer.TargetsUseCreatedHandles | sources/Render.cpp:223-368 | framebuffers use the render pass and a swapchain view; the pipeline uses the created cache, layout and render pass, only after they succeeded; one buffer is allocated from the created pool; the pool is on the queue's family |
| Renderer.TargetsCallsFrom | sources/Render.cpp:28-31 | every call of the render-target half is the render-pass request, or belongs to the framebuffer, pipeline or command-buffer step and was made only after the render pass (and, for command buffers, the pipeline) succeeded |
| Renderer.PipelineCallsFrom | sources/Render.cpp:304-332 | the graphics pipeline is requested only after the layout and cache succeeded, and with their handles |
| Renderer.ResourcesMakeNoTargetCalls | sources/Render.cpp:25-27 | the semaphore, shader and vertex-buffer half makes no render-pass, framebuffer, pipeline or command call |
| Renderer.InitUsesCreatedHandles | sources/Render.cpp:23-32 | no render-target call is made unless every resource step succeeded, and targets are built from the handles created before them |
| Renderer.FreeCalls | sources/Render.cpp:40-42 | the command buffers are freed exactly when the pool is valid |
| Renderer.SyncTeardownDestroys | sources/Render.cpp:38-48 | the first block destroys exactly the valid fence, pool and semaphores, and frees iff the pool is valid |
| Renderer.ResourceTeardownDestroys | sources/Render.cpp:49-56 | the second block destroys exactly the valid shader modules, buffer and memory |
| Renderer.PipelineTeardownDestroys | sources/Render.cpp:61-66 | the end of the third block destroys exactly the valid pipeline, cache and layout, and only destroys |
| Renderer.SyncTeardown | sources/Render.cpp:38-48 | at most five calls: fence, free, pool, two semaphores |
| Renderer.ResourceTeardown | sources/Render.cpp:49-56 | at most four calls: two modules, buffer, memory |
| Renderer.PipelineTeardown | sources/Render.cpp:61-66 | at most three calls: pipeline, cache, layout |
| Renderer.TargetTeardown | sources/Render.cpp:57-66 | at most one call per framebuffer plus four |
| Renderer.ShutdownCalls | sources/Render.cpp:34-67 | begins with waitIdle; at most one call per framebuffer plus fourteen |
| Renderer.TargetTeardownDestroys | sources/Render.cpp:57-66 | the third block destroys exactly the valid render pass, framebuffers, pipeline, cache and layout |
| Renderer.TargetsNotInHead | sources/Render.cpp:36-56 | no target object is destroyed before the third block |
| Renderer.ShutdownDestroysOwned | sources/Render.cpp:34-67 | `Shutdown` destroys a handle iff it is valid and owned, as its own kind; the buffers are freed iff the pool is valid |
| Renderer.ShutdownWaitsIdleFirst | sources/Render.cpp:36 | waitIdle is the first call and precedes every free and destroy |
| Renderer.ShutdownFreesBeforePool | sources/Render.cpp:40-44 | the command buffers are freed before their pool is destroyed |
| Renderer.ShutdownBufferBeforeMemory | sources/Render.cpp:53-56 | the vertex buffer is destroyed before its memory is freed |
| Renderer.ShutdownPipelineBeforeCache | sources/Render.cpp:61-64 | the pipeline is destroyed before its cache |
| Renderer.ShutdownPipelineBeforeLayout | sources/Render.cpp:61-66 | the pipeline is destroyed before its layout |
| Renderer.FramebuffersHeld | sources/Render.cpp:223-244 | the two framebuffer slots after the loop: each attempted slot holds its reply |
| Renderer.ResourcesHeld | sources/Render.cpp:25-27 | the handles after the first half of `Init`; pool, buffers and every target handle are unchanged |
| Renderer.OutputsHeld | sources/Render.cpp:28-29 | the handles after the render pass and framebuffers; still two framebuffer slots |
| Renderer.DrawStateHeld | sources/Render.cpp:30-31 | the handles after the pipeline and command buffers; render pass and framebuffers are unchanged |
| Renderer.TargetsHeld | sources/Render.cpp:28-31 | the handles after the second half of `Init`; semaphores, fence, modules, buffer and memory are unchanged |
| Renderer.InitHeld | sources/Render.cpp:23-32 | after a fully successful `Init` the renderer holds exactly the created handles |
| Renderer.ResourcesStatus | sources/Render.cpp:147-173 | the status after the first half is Success iff the semaphores and fence were created |
| Renderer.TargetsStatus | sources/Render.cpp:186-368 | the status after the second half is Success iff every creation in it succeeded |
| Renderer.ShutdownAfterFailedResources | sources/Render.cpp:18-67 | after a failed first half on a fresh renderer, `~Render`'s `Shutdown` frees no command buffer and destroys no pool or target object |
| Renderer.FailedInitLeavesNoCommandBuffer | demo/Main.cpp:11-15 | when `Init` fails on a fresh renderer in its first half or at the command pool, it holds no command buffer; after a pool failure it holds the created semaphores and fence; a frame whose acquire succeeds is then outside what `Frame` can be given |
| Renderer.Render.constructor | include/Render.hpp:30-51 | no objects yet (`Holdings` is `Unset`), two null framebuffers, index 0, status "initialization failed" |
| Renderer.Render.CreateSemaphores | sources/Render.cpp:147-173 | renderDone, imageAvailable, then the fence; each handle and status stored; stops at the first failure |
| Renderer.Render.CreateShaders | sources/Render.cpp:175-179 | vertex then fragment shader; the second only after the first succeeded |
| Renderer.Render.CreateVertexBuffer | sources/Render.cpp:181-184 | one staging step; buffer and memory stored |
| Renderer.Render.CreateRenderPass | sources/Render.cpp:186-221 | one render pass in the window's format; handle and status stored |
| Renderer.Render.CreateFramebuffers | sources/Render.cpp:223-244 | framebuffers 0, 1 in order, stopping at the first failure; slot k holds its reply for every attempted k |
| Renderer.Render.CreatePipeline | sources/Render.cpp:246-340 | layout, cache, then the pipeline on both and the render pass; stops at the first failure |
| Renderer.Render.CreateCommandBuffers | sources/Render.cpp:342-368 | a pool on the queue family, then one buffer from it |
| Renderer.Render.CreateOutputs | sources/Render.cpp:28-29 | render pass then framebuffers: calls and result as that `&&`; handles as `OutputsHeld`; the status of the last creation made |
| Renderer.Render.CreateDrawState | sources/Render.cpp:30-31 | pipeline then command buffers: calls and result as that `&&`; handles as `DrawStateHeld`; the status of the last creation made |
| Renderer.Render.CreateResources | sources/Render.cpp:25-27 | the first three steps of `Init`: calls and result as `ResourcesOutcome`; the handles held become `ResourcesHeld`, the status `ResourcesStatus` |
| Renderer.Render.CreateTargets | sources/Render.cpp:28-31 | the last four steps of `Init`: calls and result as `TargetsOutcome`; the handles held become `TargetsHeld`, the status `TargetsStatus` |
| Renderer.Render.Init | sources/Render.cpp:23-32 | calls and result as `InitOutcome`; the handles held become `InitHeld` of the old ones, even after a failure; the status is that of the last creation made; on success every handle is its reply |
| Renderer.Render.AwaitPresentFence | sources/Render.cpp:140-142 | waits while the fence times out, then resets the fence and the command buffer |
| Renderer.Render.RecordDraw | sources/Render.cpp:79-108 | begin, the render-pass commands, end; stops at a failure |
| Renderer.Render.SubmitAndPresent | sources/Render.cpp:110-138 | submit, then present only after a successful submit |
| Renderer.Render.Frame | sources/Render.cpp:69-145 | success iff `FrameSucceeds`; the log gains exactly `FrameCalls`; status and current index are the acquire's reply; an empty command-buffer list is accepted when the acquire fails |
| Renderer.Render.RenderFrame | sources/Compositor.cpp:31-36 | one `Frame`: the log gains exactly `FrameCalls`; the handles are unchanged |
| Renderer.Render.DrawFrames | demo/Main.cpp:13-16 | one `Frame` per entry: the log gains exactly `FramesCalls` of all of them |
| Renderer.Render.Run | sources/Compositor.cpp:18-19 | `Init`, then frames only when it succeeded: on failure the log gains only `InitOutcome`'s calls; on success there is one command buffer and the frames' calls follow |
| Renderer.Render.ReleaseSync | sources/Render.cpp:38-48 | the first teardown block |
| Renderer.Render.ReleaseResources | sources/Render.cpp:49-56 | the second teardown block |
| Renderer.Render.ReleaseFramebuffers | sources/Render.cpp:59-60 | each valid framebuffer destroyed, in index order |
| Renderer.Render.ReleaseTargets | sources/Render.cpp:57-66 | the third teardown block |
| Renderer.Render.Shutdown | sources/Render.cpp:34-67 | the teardown log gains exactly `ShutdownCalls` of the handles held |

## Left out

- Shader::Init and Buffer::Stage, which `Render` calls, are not part of this model. Each is one opaque step with a reported success and the handles it leaves (`Prepared`).
- `LoadShader` is file I/O. `Shader.CreateShader` takes its success as a parameter.
- GLFW window management is not modelled: `glfwCreateWindow`, the window hint, `IsValid`, `SwapBuffers`, event polling and the `glfwDestroyWindow` at the end of `Window::Shutdown`. `Window.CreateSurface` is one opaque step plus the presentation-support query.
- The instance's extension and layer lists, the application info, `glfwInit`, and `DeviceData::InitializeInstace` (sources/Structs.cpp:4-38) are not modelled. The instance creation is one step whose result is a parameter.
- Render-pass, pipeline and vertex-input struct filling is left out, along with the viewport and blend state. It is fixed configuration with float values. Only the handles each creation uses are modelled.
- Floating-point data is left out: vertex arrays, clear colour, MVP and queue priorities.
- What semaphores and fences order on the GPU is concurrency inside the driver. Only the CPU-side call sequence is modelled.
- The `UINT64_MAX` timeouts are not modelled.
- `Render.AwaitPresentFence` and `Render.Frame` require that some fence wait in the replies does not time out. The C++ loop never ends on a fence that always times out.
- `Render.Frame` requires that a successful acquire returns an index below 2. With a larger index the C++ reads past `m_framebuffers`.
- `Window.CreateSwapchainImageViews` requires that a successful fetch returns at most 2 images. With more, the C++ writes past `swapchainImages`.
- `Render` copies the window's swapchain, views and size, and the device's queue family, when it is constructed; `Window` copies the device's queue family in the same way. The C++ holds references and reads them at each call. The values do not change after the window's and device's `Init`.
- `Render.Init` is split into `CreateResources` and `CreateTargets`. They make the same calls as the seven-step `&&`, grouped as the first three steps and the last four.
- `DeviceData.InitializeLogicalDevice` sorts and de-duplicates the two-element queue list as values (`SortByFamily`, `UniqueByFamily`), not in place in a vector.
- Only the `Result` codes the core compares against are modelled.
- Unsigned 32-bit counters and indices are `nat`. Every count involved is at most a handful, so no wrap-around is reachable.
- Destructors are left out. `~Device`, `~Window` and `~Render` each call `Shutdown`, and object lifetime is not modelled.
- The read-only queries are not logged in any trace. Their answers are inputs of the model:
  - `getSurfaceSupportKHR` in `DeviceData` (sources/Structs.cpp:92), whose result code the C++ ignores; only the support flag is used;
  - `getSurfaceSupportKHR` in `Window::CreateSurface` (sources/Window.cpp:101), folded with the surface creation into one step (`SurfaceOutcome`);
  - `getProperties` and `getQueueFamilyProperties` in `DeviceData` (sources/Structs.cpp:59 and 74), folded into the enumerated devices;
  - `glfwGetPhysicalDevicePresentationSupport` (sources/Device.cpp:102), folded into the enumerated family data;
  - `getProperties` and `getQueueFamilyProperties` (sources/Device.cpp:92 and 97), folded into the enumerated devices;
  - `getMemoryProperties` (include/Helpers.hpp:11), a field of the physical device;
  - `getBufferMemoryRequirements` (sources/Structs.cpp:196), the `requirementsSize` reply.
- `Render.Frame` requires at least one command buffer only after a successful acquire; a failed acquire returns before the C++ takes `m_commandBuffers.back()`. `Render.RecordDraw` and `Render.AwaitPresentFence` always require one, because they always take `back()`, which is undefined on an empty list. See "Findings" for how `main` reaches that.
- Of Compositor.cpp, only the renderer's part of `Compositor::Init` and of `RenderFrame` is modelled (`Render.Run`, `Render.RenderFrame`). The device and window steps of `Compositor::Init`, `IsValid`, event polling and buffer swapping are not. Ipc.hpp is not part of this model.
- `Render.DrawFrames` and `Render.Run` draw a given list of frames. `main`'s loop runs until the GLFW window closes, which is not modelled.

## Findings

| source | as written | input that shows it | evidently intended | confidence | as-written member | corrected member |
|---|---|---|---|---|---|---|
| demo/Main.cpp:11-15, sources/Render.cpp:81 | `main` ignores the result of `Compositor::Init` and enters the frame loop anyway; `Render::Frame` then takes `m_commandBuffers.back()` | `createCommandPool` fails: `Init` stops with the semaphores and fence created but no command buffer allocated; the first frame's acquire succeeds and `Frame` reads the last element of an empty vector | draw frames only after `Init` succeeded | not executed | Renderer.FailedInitLeavesNoCommandBuffer | Renderer.Render.Run |
