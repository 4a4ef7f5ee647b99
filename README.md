# Vulkan-Renderer: host-side frame pipelining and bookkeeping, in Dafny

This project models the host-side logic of the Vulkan-Renderer samples and their two small
libraries (`VKR` and its older `Renderer` tree). It covers:

- **The frame-slot protocol.** There are three frames in flight. Each slot has a fence, two
  semaphores and a command buffer, and the active slot is the frame counter mod 3. Each frame
  waits on and resets the slot's fence, acquires an image, re-allocates the slot's command
  buffer, records, submits, presents, and then increments the counter. `FrameProtocol` holds
  the fence and submission state as a value and proves the protocol's invariants:
  - at most three submissions are outstanding;
  - a command buffer is recycled only after its fence was waited on;
  - the first three frames never block;
  - the device is idle before shutdown destroys anything.

  Three imperative models drive that protocol step by step, as the samples do:
  - `HelloTriangle.HelloTriangleApp` for the 01-Hello-Triangle sample and its older project form;
  - `DevSample.DevMain` for the 00-DEV sample's inline loop;
  - `MeshRenderer.Renderer` for the 02-Mesh-Rendering renderer's image hand-off and
    swapchain-resource bookkeeping.
- **Swapchain negotiation (`Swapchain`).** This covers the image count, present-mode and
  surface-format policies, one view per image, the clear values, and the order of creation and
  destruction.
- **Capability selection and validation.**
  - `VkHelpers`: the queue-family, memory-type and supported-format searches, the depth-format
    fallback list, the stencil test, and the extension and layer membership checks.
  - `Context`: the instance and device creation gates with their result codes, the
    physical-device choice, the fence-creation flag, and the debug-callback routing. The two
    trees' `VkContext.cpp` share this logic line for line (they differ only in profiler macros
    and in the bulk wrappers left out below). The rows cite the `VKR` tree, and the gates use
    the `Renderer` tree's helpers, the only ones whose implementation is available.
- **Builders and record constructors.** This is the pipeline builder's stage list
  (`PipelineBuilder`) and the `VkInit` create-info constructors.
- **The `Timer`** state machine, with each clock reading taken as a parameter.
- **The integer instantiations of the maths templates.** This covers `Vector2`, `Vector3` and
  `Vector4` (binary operators as functions, compound operators and `Set` as methods of a small
  mutable class), the 4x4 `Matrix` (identity, translation, scaling, transpose and product on
  16-element sequences), and `Maths.Clamp`.

Driver calls (`vk*`, `vma*`, `glfw*`) are not executed. Each one is modelled as an event appended
to an ordered log. What a call returns (handles, result codes, enumerated properties,
acquired image indices, clock readings) is a parameter of the member that makes the call.
`VkTypes` holds the shared handle, flag and result-code definitions, together with C++'s
truncating integer division.

## Model

| member | source | states |
|---|---|---|
| VkTypes.TDiv | Renderer/include/Maths/Vector2.h:35 | the C++ integer quotient: its magnitude is the quotient of the magnitudes, with the sign of the operands' product, and it agrees with Euclidean division for non-negative operands; division by zero is excluded as undefined behaviour |
| VkTypes.TDivTruncates | Renderer/include/Maths/Vector3.h:42 | C++ division truncates toward zero (-7 / 2 is -3), where Euclidean division gives -4 |
| VkTypes.TDivMultiple | Renderer/include/Maths/Vector3.h:42 | dividing a multiple of a non-zero k by k gives back the factor exactly, for either sign |
| VkTypes.SquarePositive | Renderer/include/Maths/Vector3.h:108 | a square is never negative, and it is zero exactly when its root is zero |
| VkHelpers.FirstMatchingFamily | Renderer/src/Vulkan/VkHelpers.cpp:14-18 | the search loop: the index found is the first one from the start point whose family has a queue with some requested flag, or the family count when there is none |
| VkHelpers.FindQueueFamilyIndex | Renderer/src/Vulkan/VkHelpers.cpp:6-23 | the smallest index of a family with `queueCount > 0` and `queueFlags & flags != 0`, and 0 when no family matches |
| VkHelpers.QueueFamilyNotFoundLooksLikeZero | Renderer/src/Vulkan/VkHelpers.cpp:14-22 | "no family matches" and "family 0 matches" give the same answer 0 |
| VkHelpers.FirstSuitableMemoryType | Renderer/src/Vulkan/VkHelpers.cpp:30-34 | the search loop: the first memory type from the start point whose bit is set in the filter and whose flags hold every requested property, or the type count |
| VkHelpers.FindMemoryTypeIndex | Renderer/src/Vulkan/VkHelpers.cpp:25-38 | UINT32_MAX exactly when no memory type is suitable; otherwise the smallest suitable index |
| VkHelpers.FirstSupportedFormat | Renderer/src/Vulkan/VkHelpers.cpp:45-55 | the search loop: the first candidate from the start point whose feature mask for the tiling contains every requested feature, or the candidate count |
| VkHelpers.FindSupportedFormat | Renderer/src/Vulkan/VkHelpers.cpp:40-58 | the first supported candidate in array order, and UNDEFINED when none is supported |
| VkHelpers.OtherTilingFindsNothing | Renderer/src/Vulkan/VkHelpers.cpp:42-57 | a tiling that is neither linear nor optimal always gives UNDEFINED |
| VkHelpers.FindDepthFormat | Renderer/src/Vulkan/VkHelpers.cpp:60-69 | D32_SFLOAT, D32_SFLOAT_S8_UINT and D24_UNORM_S8_UINT are tried in that order with optimal tiling and the depth-stencil-attachment feature; UNDEFINED exactly when none qualifies |
| VkHelpers.DepthFormatStencil | Renderer/src/Vulkan/VkHelpers.cpp:71-74 | ValidateStencilComponent holds for the chosen depth format exactly when it is neither UNDEFINED nor the pure-depth D32_SFLOAT |
| VkHelpers.Listed | Renderer/src/Vulkan/VkHelpers.cpp:107-117 | the strcmp search finds the name exactly when some listed name equals it |
| VkHelpers.ValidateSupport | Renderer/src/Vulkan/VkHelpers.cpp:78-132 | the per-name validators search the caller's list when it is non-empty, and otherwise the list the driver enumerates |
| VkHelpers.ConjoinSupport | Renderer/src/Vulkan/VkHelpers.cpp:153-155 | the `result &=` loop is true exactly when every requested name is listed |
| VkHelpers.ValidateInstanceExtensionSupportArray | Renderer/src/Vulkan/VkHelpers.cpp:134-162 | false for a null or empty request list; otherwise true exactly when every requested extension is supported by the instance |
| VkHelpers.ValidateInstanceLayerSupportArray | Renderer/src/Vulkan/VkHelpers.cpp:220-248 | true for a null or empty request list; otherwise true exactly when every requested layer is supported |
| VkHelpers.ValidatePhysicalDeviceExtensionSupportArray | Renderer/src/Vulkan/VkHelpers.cpp:301-329 | false for a null or empty request list; otherwise true exactly when every requested extension is supported by the device |
| Context.CreateFence | VKR/src/Vulkan/VkContext.cpp:354-364 | the fence create info has VK_FENCE_CREATE_SIGNALED_BIT exactly when `startSignaled`, and no other bit |
| Context.DebugLog | VKR/src/Vulkan/VkContext.cpp:20-34 | severities from WARNING up are logged as warnings, everything else as debug output; the error logger is never reached and the callback always returns VK_FALSE |
| Context.DebugLogErrorIsWarning | VKR/src/Vulkan/VkContext.cpp:23-29 | an ERROR message goes to the warning log, where the intended routing sends it to the error log |
| Context.DebugLogIntended | VKR/src/Vulkan/VkContext.cpp:22-33 | the corrected routing: ERROR and above to the error log, WARNING up to ERROR to the warning log, the rest to debug output; always VK_FALSE |
| Context.DebugLogAgreesBelowError | VKR/src/Vulkan/VkContext.cpp:23-32 | below ERROR the written and the corrected routing agree exactly |
| Context.DebugReport | VKR/src/Vulkan/VkContext.cpp:36-45 | a message with the performance-warning bit is dropped, every other message is logged as debug output, and VK_FALSE is returned in every case |
| Context.VkContext.constructor | VKR/src/Vulkan/VkContext.cpp:9-16 | a new context holds a null instance (and, in this model, null physical device and device) |
| Context.VkContext.CreateInstance | VKR/src/Vulkan/VkContext.cpp:174-213 | unsupported layers give VK_ERROR_LAYER_NOT_PRESENT, then unsupported, empty or null extensions give VK_ERROR_EXTENSION_NOT_PRESENT, both leaving the instance as it was; only then is the driver's result returned and its handle stored |
| Context.VkContext.GetInstance | VKR/src/Vulkan/VkContext.cpp:165-172 | returns the stored instance even when it is null, logging an error exactly in that case |
| Context.VkContext.SelectPhysicalDevice | VKR/src/Vulkan/VkContext.cpp:229-246 | no device enumerated: VK_ERROR_DEVICE_LOST and the physical device unchanged; otherwise the first device is stored and VK_SUCCESS returned |
| Context.VkContext.GetPhysicalDevice | VKR/src/Vulkan/VkContext.cpp:221-227 | returns the stored physical device even when it is null, logging an error exactly in that case |
| Context.VkContext.CreateDevice | VKR/src/Vulkan/VkContext.cpp:256-284 | VK_ERROR_UNKNOWN with no physical device; VK_ERROR_EXTENSION_NOT_PRESENT for an unsupported, empty or null extension list; otherwise the driver's result with its handle stored |
| Context.VkContext.GetDevice | VKR/src/Vulkan/VkContext.cpp:248-254 | returns the stored device even when it is null, logging an error exactly in that case |
| Swapchain.SelectImageCount | VKR/src/Vulkan/VkSwapchain.cpp:147-153 | one more than the minimum, capped by a non-zero maximum; never above a non-zero maximum, exactly min + 1 when the maximum is 0 or not exceeded; the uint32 increment wraps a minimum of UINT32_MAX to a request of 0 |
| Swapchain.SelectPresentMode | VKR/src/Vulkan/VkSwapchain.cpp:170-180 | MAILBOX exactly when the surface offers it, FIFO otherwise; never any other mode |
| Swapchain.SelectSurfaceFormat | VKR/src/Vulkan/VkSwapchain.cpp:182-186 | always B8G8R8A8_UNORM with SRGB_NONLINEAR |
| Swapchain.SurfaceFormatIgnoresSurface | VKR/src/Vulkan/VkSwapchain.cpp:182-186 | the choice does not depend on the reported formats, and may be a format the surface does not report |
| Swapchain.ViewCreation | VKR/src/Vulkan/VkSwapchain.cpp:163-165 | one view creation per image |
| Swapchain.ViewDestruction | VKR/src/Vulkan/VkSwapchain.cpp:35-37 | one view destruction per view |
| Swapchain.ViewsAppend | VKR/src/Vulkan/VkSwapchain.cpp:33-41 | the views a log creates or destroys distribute over concatenation of logs |
| Swapchain.ViewCreationMakes | VKR/src/Vulkan/VkSwapchain.cpp:163-165 | image-view creation creates exactly the driver's views, in image order, and destroys none |
| Swapchain.ViewDestructionDestroys | VKR/src/Vulkan/VkSwapchain.cpp:35-37 | Destroy's loop destroys exactly the stored views, in order, and creates none |
| Swapchain.ViewsBalanced | VKR/src/Vulkan/VkSwapchain.cpp:33-41 | the views destroyed are exactly the views created, each once, in creation order |
| Swapchain.CreateInfo | VKR/src/Vulkan/VkSwapchain.cpp:114-139 | the swapchain is requested on the created surface with the selected image count, format and present mode, the window's size, the surface's current transform, clipping on and no old swapchain |
| Swapchain.CreationLogOrder | VKR/src/Vulkan/VkSwapchain.cpp:10-31 | Create's driver calls in order: surface, capabilities, formats, modes, swapchain, image fetch, then exactly the driver's views, one per image, and nothing destroyed |
| Swapchain.ViewFree | VKR/src/Vulkan/VkSwapchain.cpp:13-25 | the steps of Create before the image fetch create and destroy no view |
| Swapchain.VkSwapchain.Create | VKR/src/Vulkan/VkSwapchain.cpp:10-31 | stores the driver's surface, capabilities, swapchain, images and views and the selected format and mode, installs colour (0,0,0,0), depth 1 and stencil 0, logs CreationLog and returns VK_SUCCESS whatever the driver returned |
| Swapchain.VkSwapchain.AcquireSwapchainImages | VKR/src/Vulkan/VkSwapchain.cpp:155-168 | the images and the views have the same count, the views are the driver's, one per image, and VK_SUCCESS is returned |
| Swapchain.VkSwapchain.Destroy | VKR/src/Vulkan/VkSwapchain.cpp:33-41 | logs every view's destruction in order, then the swapchain's, then the surface's |
| Swapchain.VkSwapchain.GetSwapchain | VKR/src/Vulkan/VkSwapchain.cpp:43-49 | returns the stored swapchain even when null, logging an error exactly in that case |
| Swapchain.VkSwapchain.GetImageCount | VKR/src/Vulkan/VkSwapchain.cpp:51-54 | the image count, which equals the number of views |
| Swapchain.VkSwapchain.SetClearValue | VKR/src/Vulkan/VkSwapchain.cpp:66-70 | the stored colour and depth-stencil clear values are exactly the arguments |
| Swapchain.VkSwapchain.GetColourClearValue | VKR/src/Vulkan/VkSwapchain.cpp:78-81 | returns the colour clear value last set |
| Swapchain.VkSwapchain.GetDepthStencilClearValue | VKR/src/Vulkan/VkSwapchain.cpp:73-76 | returns the depth-stencil clear value last set |
| Swapchain.VkSwapchain.Present | VKR/src/Vulkan/VkSwapchain.cpp:83-99 | presents the given image of this swapchain on the queue, waiting on the given semaphore, and returns the driver's result unexamined |
| PipelineBuilder.LogicalNot | Renderer/src/Vulkan/VkPipelineBuilder.cpp:42 | C++ `!stage` promoted to an integer is 1 exactly for stage 0 and 0 otherwise |
| PipelineBuilder.StageCheckNeverFires | Renderer/src/Vulkan/VkPipelineBuilder.cpp:42-44 | `!stage == VK_SHADER_STAGE_COMPUTE_BIT` never holds, so the compute-stage warning is never logged, even for a vertex stage |
| PipelineBuilder.VkPipelineBuilder.constructor | Renderer/src/Vulkan/VkPipelineBuilder.cpp:5-7 | a new builder has no shader stages |
| PipelineBuilder.VkPipelineBuilder.AddShaderStage | Renderer/src/Vulkan/VkPipelineBuilder.cpp:60-72 | appends exactly one stage record (stage, module, entry point) at the end and leaves the earlier stages unchanged |
| PipelineBuilder.VkPipelineBuilder.BuildGraphicsPipeline | Renderer/src/Vulkan/VkPipelineBuilder.cpp:9-34 | the create info holds every added stage in insertion order with a matching stage count, the given layout, render pass and subpass, no base pipeline (index -1); the driver's result is returned; the builder is not changed |
| PipelineBuilder.VkPipelineBuilder.BuildComputePipeline | Renderer/src/Vulkan/VkPipelineBuilder.cpp:36-58 | warns exactly when the stage count is not 1, never warns about the stage kind, throws out_of_range exactly when there is no stage, and otherwise builds from stage 0 alone |
| PipelineBuilder.VkPipelineBuilder.BuildComputePipelineIntended | Renderer/src/Vulkan/VkPipelineBuilder.cpp:36-58 | the corrected build: the stage-kind warning is logged exactly when stage 0 is not the compute stage; the create info is the same as the written build's |
| PipelineBuilder.BuildTwoStagePipelines | Samples/01-Hello-Triangle/01-Hello-Triangle.cpp:189-206 | a vertex then a fragment stage give a two-stage graphics pipeline in that order; a compute build from the same builder warns about the count and uses the vertex stage |
| FrameProtocol.SlotOf | Samples/01-Hello-Triangle/01-Hello-Triangle.cpp:447-448 | the active slot is below FRAMES_IN_FLIGHT and congruent to the frame counter modulo 3 |
| FrameProtocol.SlotRing | Samples/01-Hello-Triangle/01-Hello-Triangle.cpp:447-448 | three consecutive frames use three different slots, and frame n + 3 reuses frame n's slot |
| FrameProtocol.UsesBalanced | Samples/01-Hello-Triangle/01-Hello-Triangle.cpp:447-448 | after n frames each slot has served n / 3 frames, plus one for the first n mod 3 slots |
| FrameProtocol.ReadyConsistent | Samples/01-Hello-Triangle/01-Hello-Triangle.cpp:451-457 | between frames and while recording, every slot's fence state is consistent: work in flight leaves the fence unsignalled and is tied to a submission not yet waited on |
| FrameProtocol.WaitFence | Samples/01-Hello-Triangle/01-Hello-Triangle.cpp:455 | the fence wait returns exactly when the fence is signalled or will be; afterwards that slot is signalled, idle and observed, and the other slots are unchanged |
| FrameProtocol.ResetFence | Samples/01-Hello-Triangle/01-Hello-Triangle.cpp:456 | the reset fence is unsignalled, the other slots are unchanged |
| FrameProtocol.SubmitSlot | Samples/01-Hello-Triangle/01-Hello-Triangle.cpp:352 | the submission arms the slot's fence and makes its work pending; the other slots are unchanged |
| FrameProtocol.CompleteSlot | Samples/01-Hello-Triangle/01-Hello-Triangle.cpp:352 | the GPU finishing a slot's submission signals that slot's fence and nothing else |
| FrameProtocol.WaitIdle | Samples/01-Hello-Triangle/01-Hello-Triangle.cpp:393 | vkDeviceWaitIdle completes every submission: no slot is pending or unobserved, and every live fence is signalled |
| FrameProtocol.CountsBounded | Samples/01-Hello-Triangle/01-Hello-Triangle.cpp:352-455 | the number of executing submissions is at most the number the host has not waited on, which is at most the number of slots |
| FrameProtocol.InFlightBounded | Samples/01-Hello-Triangle/01-Hello-Triangle.cpp:447-458 | at most FRAMES_IN_FLIGHT = 3 submissions are outstanding |
| FrameProtocol.NothingInFlight | Samples/01-Hello-Triangle/01-Hello-Triangle.cpp:393 | with no slot pending, nothing is in flight |
| FrameProtocol.IdleAfterWait | Samples/01-Hello-Triangle/01-Hello-Triangle.cpp:392-393 | waiting for the device between frames leaves every fence signalled and observed and nothing in flight |
| FrameProtocol.StartReady | Samples/01-Hello-Triangle/01-Hello-Triangle.cpp:132-136 | fences created signalled, with nothing submitted, are a valid between-frames state |
| FrameProtocol.StartupNeverBlocks | Samples/01-Hello-Triangle/01-Hello-Triangle.cpp:127-136 | during the first three frames the active slot's fence is already signalled, so the wait does not block |
| FrameProtocol.BeginStep | Samples/01-Hello-Triangle/01-Hello-Triangle.cpp:451-457 | between frames the wait on the active fence returns, the slot's work is finished, and wait-then-reset leads to the recording state for that frame |
| FrameProtocol.EndStep | Samples/01-Hello-Triangle/01-Hello-Triangle.cpp:352-385 | submitting the active slot while recording leads to the between-frames state for the next frame |
| FrameProtocol.CompleteKeepsReady | Samples/01-Hello-Triangle/01-Hello-Triangle.cpp:352 | a GPU completion at any moment between frames keeps the between-frames invariant |
| FrameProtocol.CompleteKeepsRecording | Samples/01-Hello-Triangle/01-Hello-Triangle.cpp:352 | a GPU completion during recording keeps the recording invariant |
| FrameProtocol.SyncCreation | Samples/01-Hello-Triangle/01-Hello-Triangle.cpp:132-136 | slot by slot, one fence and two semaphores: three creations per slot |
| FrameProtocol.FramebufferCreation | Projects/01-Hello-Triangle/01-Hello-Triangle.cpp:545-549 | one framebuffer creation per swapchain image, framebuffer i over image i |
| FrameProtocol.SyncTeardown | Samples/01-Hello-Triangle/01-Hello-Triangle.cpp:414-418 | slot by slot, the fence then the two semaphores: three destructions per slot, and nothing but fences and semaphores |
| FrameProtocol.NoSyncDestroyed | Samples/01-Hello-Triangle/01-Hello-Triangle.cpp:414-418 | a log destroying no fence or semaphore counts zero of each |
| FrameProtocol.HierarchicalTeardownOf | Samples/01-Hello-Triangle/01-Hello-Triangle.cpp:388-434 | a teardown that waits for the device, destroys device objects, then the device, then at most debug objects, then the instance, destroys nothing made from the device after the device and the instance last |
| FrameProtocol.FramebufferTeardown | Samples/01-Hello-Triangle/01-Hello-Triangle.cpp:405-407 | one framebuffer destruction per framebuffer, in index order |
| FrameProtocol.DestroyedCountsAppend | Samples/01-Hello-Triangle/01-Hello-Triangle.cpp:388-434 | the fences and semaphores a teardown destroys add up over its parts |
| FrameProtocol.SyncTeardownCounts | Samples/01-Hello-Triangle/01-Hello-Triangle.cpp:414-418 | the sync teardown destroys exactly one fence and two semaphores per slot |
| FrameProtocol.FramebufferTeardownCounts | Samples/01-Hello-Triangle/01-Hello-Triangle.cpp:405-407 | framebuffer teardown destroys no fence and no semaphore |
| FrameProtocol.DestroyFramebuffers | Samples/01-Hello-Triangle/01-Hello-Triangle.cpp:405-407 | the loop issues exactly FramebufferTeardown |
| FrameProtocol.DestroySyncObjects | Samples/01-Hello-Triangle/01-Hello-Triangle.cpp:414-418 | the loop issues exactly SyncTeardown |
| HelloTriangle.ShutdownEventsOrder | Samples/01-Hello-Triangle/01-Hello-Triangle.cpp:388-434 | Shutdown waits for the device before anything else, destroys every framebuffer in index order before the render pass, the command pool and then the swapchain after the synchronisation objects, then the debug reporter and logger, the allocator, the device and the instance; no device object is destroyed after the device, and the instance goes last |
| HelloTriangle.ShutdownEventsCounts | Samples/01-Hello-Triangle/01-Hello-Triangle.cpp:414-418 | Shutdown destroys exactly one fence and two semaphores per slot: 3 fences and 6 semaphores |
| HelloTriangle.CreateSyncObjects | Samples/01-Hello-Triangle/01-Hello-Triangle.cpp:127-136 | each slot's fence is created with the signalled flag, then its two semaphores; every fence starts signalled and idle |
| HelloTriangle.CreateFramebuffers | Samples/01-Hello-Triangle/01-Hello-Triangle.cpp:697-703 | one framebuffer per swapchain image, in image order |
| HelloTriangle.HelloTriangleApp.constructor | Samples/01-Hello-Triangle/01-Hello-Triangle.cpp:24-40 | every handle starts null, the unsigned queue-family index is -1 (0xFFFF_FFFF), the slot and image index start at 0, and the frame counter starts at 0 |
| HelloTriangle.HelloTriangleApp.Init | Samples/01-Hello-Triangle/01-Hello-Triangle.cpp:47-143 | the graphics queue family is FindQueueFamilyIndex's answer; the command buffers are three null handles; three signalled fences and two semaphores per slot; one framebuffer per image; nothing in flight |
| HelloTriangle.HelloTriangleApp.SetUpDevice | Samples/01-Hello-Triangle/01-Hello-Triangle.cpp:106-124 | the queue family, the command pool and three null command buffers |
| HelloTriangle.HelloTriangleApp.SetUpFrames | Samples/01-Hello-Triangle/01-Hello-Triangle.cpp:127-136 | the per-slot fences and semaphores are the driver's, every fence signalled, and the framebuffers are stored |
| HelloTriangle.HelloTriangleApp.UpdateFrameCounter | Samples/01-Hello-Triangle/01-Hello-Triangle.cpp:436-449 | the frame in flight becomes the frame counter modulo 3 |
| HelloTriangle.HelloTriangleApp.Synchronize | Samples/01-Hello-Triangle/01-Hello-Triangle.cpp:451-458 | waits on and then resets only the active slot's fence: afterwards it is unsignalled and idle and the other fences are unchanged; the wait blocks only when the fence was unsignalled, and never during the first three frames |
| HelloTriangle.HelloTriangleApp.BeginFrame | Samples/01-Hello-Triangle/01-Hello-Triangle.cpp:294-321 | in order: fence wait and reset, acquire into the image index with the slot's image-available semaphore, free and reallocate only the active slot's command buffer, begin recording; the buffer freed is never one the GPU still executes |
| HelloTriangle.HelloTriangleApp.AcquireAndRecord | Samples/01-Hello-Triangle/01-Hello-Triangle.cpp:301-315 | the acquired index is stored and recorded as acquired; only the active slot's buffer is replaced |
| HelloTriangle.HelloTriangleApp.Update | Projects/01-Hello-Triangle/01-Hello-Triangle.cpp:257-266 | the render pass uses the framebuffer of the acquired image, which is within the framebuffer array |
| HelloTriangle.HelloTriangleApp.EndFrame | Samples/01-Hello-Triangle/01-Hello-Triangle.cpp:323-386 | submits the active buffer waiting on the slot's image-available semaphore, signalling its render-finished semaphore and arming its fence; the slot had no unwaited submission; at most 3 in flight; presents the acquired index with the same render-finished semaphore; the counter grows by exactly one |
| HelloTriangle.HelloTriangleApp.GpuComplete | Samples/01-Hello-Triangle/01-Hello-Triangle.cpp:352 | the GPU finishing one slot's frame signals only that slot's fence |
| HelloTriangle.HelloTriangleApp.Shutdown | Samples/01-Hello-Triangle/01-Hello-Triangle.cpp:388-434 | vkDeviceWaitIdle first, then the teardown of ShutdownEvents, ending with the device and the instance; afterwards nothing is in flight |
| HelloTriangle.HelloTriangleApp.Run | Samples/01-Hello-Triangle/main.cpp:31-39 | one BeginFrame / Update / EndFrame per iteration: the counter grows by the number of frames and every acquired image is presented once, in order |
| HelloTriangle.HelloTriangleApp.RenderFrame | Projects/01-Hello-Triangle/01-Hello-Triangle.cpp:120-127 | one iteration presents exactly the image it acquired and counts one frame |
| HelloTriangle.RunApplication | Samples/01-Hello-Triangle/main.cpp:12-49 | construct, Init, render each frame, Shutdown: the number of frames rendered is the number of iterations and nothing is in flight at exit |
| DevSample.DevSyncCreation | Samples/00-DEV/main.cpp:48-56 | per slot, the image-available semaphore, the frame-finished semaphore, then the fence: three creations per slot |
| DevSample.HoldsPreviousStep | Samples/00-DEV/main.cpp:501-502 | replacing slot k mod 3's buffer by frame k's keeps every slot holding the buffer the previous frame on that slot allocated (null before its first use) |
| DevSample.FrameEvents | Samples/00-DEV/main.cpp:439-587 | one pass of the render loop issues eleven driver calls |
| DevSample.DevFrames | Samples/00-DEV/main.cpp:428-589 | the loop produces one frame's events per iteration |
| DevSample.FrameOfShape | Samples/00-DEV/main.cpp:444-583 | frame k first waits on slot k mod 3's fence, frees that slot's previous buffer before allocating its own, and submits waiting on the slot's image-available semaphore and signalling its frame-finished semaphore and fence |
| DevSample.DevFramesFreeAfterWait | Samples/00-DEV/main.cpp:444-583 | the buffer frame k allocates and submits with slot k mod 3's fence is freed by frame k + 3, only after that frame has waited on the same fence |
| DevSample.FenceCycle | Samples/00-DEV/main.cpp:444-583 | wait, reset and submit on the active slot's fence: the wait blocks only when the fence is unsignalled, never during the first three frames, and only that slot's fence changes |
| DevSample.DevShutdownEventsOrder | Samples/00-DEV/main.cpp:597-727 | the device is idle before anything is destroyed; the render pass goes before the framebuffers, the command pool after them, then ShutdownVulkan waits again and destroys the swapchain, the allocator, the device, the debug reporter and logger and the instance; no device object is destroyed after the device, and the instance goes last |
| DevSample.DevShutdownEventsCounts | Samples/00-DEV/main.cpp:641-645 | the teardown destroys exactly one fence and two semaphores per slot |
| DevSample.CreateFramebuffersFixed | Samples/00-DEV/main.cpp:276-280 | the eight-entry array as written, filled with one framebuffer per image, defined only while the image count is at most eight |
| DevSample.FixedFramebufferArrayOverflows | Samples/00-DEV/main.cpp:276-277 | a surface with a minimum of eight images and no maximum makes SelectImageCount ask for nine, more than the array holds |
| DevSample.CreateFramebuffers | Samples/00-DEV/main.cpp:276-280 | the corrected array is sized to the swapchain and holds exactly one framebuffer per image, for any image count |
| DevSample.CreateSyncObjects | Samples/00-DEV/main.cpp:48-56 | the creation loop issues DevSyncCreation and every fence starts signalled (CreateFence's default) and idle |
| DevSample.RenderLoop | Samples/00-DEV/main.cpp:412-589 | frameIdx starts at 0 and grows by one per iteration; the events are exactly DevFrames; the first three waits never block; afterwards at most 3 submissions are in flight |
| DevSample.DevMain | Samples/00-DEV/main.cpp:31-727 | creation, the render loop and teardown in that order, and nothing still executing once the device has been waited on |
| MeshRenderer.FramebufferCreation | Samples/02-Mesh-Rendering/Renderer/Renderer.cpp:161-165 | one framebuffer creation per swapchain image |
| MeshRenderer.FramebufferDestruction | Samples/02-Mesh-Rendering/Renderer/Renderer.cpp:175-177 | one framebuffer destruction per framebuffer |
| MeshRenderer.TargetDestruction | Samples/02-Mesh-Rendering/Renderer/Renderer.cpp:180-208 | two destructions per render target |
| MeshRenderer.FramebuffersAppend | Samples/02-Mesh-Rendering/Renderer/Renderer.cpp:173-185 | the framebuffers a log creates or destroys distribute over concatenation of logs |
| MeshRenderer.FramebufferCreationMakes | Samples/02-Mesh-Rendering/Renderer/Renderer.cpp:161-165 | the creation loop creates exactly the driver's framebuffers, one per image, in image order |
| MeshRenderer.FramebufferCreationShape | Samples/02-Mesh-Rendering/Renderer/Renderer.cpp:162-164 | framebuffer i attaches the colour view, the depth view and image view i, at the window's extent, for the render pass |
| MeshRenderer.FramebufferDestructionDestroys | Samples/02-Mesh-Rendering/Renderer/Renderer.cpp:175-177 | the destruction loop destroys exactly the given framebuffers, in order |
| MeshRenderer.FramebuffersBalanced | Samples/02-Mesh-Rendering/Renderer/Renderer.cpp:161-177 | the framebuffers destroyed are exactly those created, each once, in creation order |
| MeshRenderer.TargetDestructionShape | Samples/02-Mesh-Rendering/Renderer/Renderer.cpp:180-208 | for each render target in order, its view and then its image |
| MeshRenderer.FramebufferDestructionShape | Samples/02-Mesh-Rendering/Renderer/Renderer.cpp:175-177 | entry i destroys framebuffer i |
| MeshRenderer.TeardownOrder | Samples/02-Mesh-Rendering/Renderer/Renderer.cpp:173-185 | every framebuffer, then the render pass, then each render target's view and image, then the swapchain; no semaphore is destroyed |
| MeshRenderer.TargetDestructionKinds | Samples/02-Mesh-Rendering/Renderer/Renderer.cpp:203-208 | render-target destruction destroys only views and images |
| MeshRenderer.CreateFramebuffers | Samples/02-Mesh-Rendering/Renderer/Renderer.cpp:161-165 | the loop issues exactly FramebufferCreation |
| MeshRenderer.DestroyFramebuffers | Samples/02-Mesh-Rendering/Renderer/Renderer.cpp:175-177 | the loop issues exactly FramebufferDestruction |
| MeshRenderer.DestroyRenderTargets | Samples/02-Mesh-Rendering/Renderer/Renderer.cpp:180-182 | the loop issues exactly TargetDestruction |
| MeshRenderer.Renderer.Init | Samples/02-Mesh-Rendering/Renderer/Renderer.cpp:8-16 | 4x MSAA, FindQueueFamilyIndex's graphics family, its queue, the swapchain with one framebuffer per image, then the one semaphore |
| MeshRenderer.Renderer.Shutdown | Samples/02-Mesh-Rendering/Renderer/Renderer.cpp:18-21 | only the swapchain teardown: the semaphore created in Init is never destroyed |
| MeshRenderer.Renderer.BeginFrame | Samples/02-Mesh-Rendering/Renderer/Renderer.cpp:23-26 | the acquired index is stored, and the acquire signals the renderer's semaphore |
| MeshRenderer.Renderer.EndFrame | Samples/02-Mesh-Rendering/Renderer/Renderer.cpp:28-31 | presents exactly the stored index, waiting on the same semaphore |
| MeshRenderer.Renderer.CreateSwapchain | Samples/02-Mesh-Rendering/Renderer/Renderer.cpp:37-171 | viewport and scissor take the window's extent; the swapchain is created; then three render targets, the render pass and one framebuffer per swapchain image |
| MeshRenderer.Renderer.CreateRenderPassAndFramebuffers | Samples/02-Mesh-Rendering/Renderer/Renderer.cpp:62-166 | the renderer's own calls are exactly SwapchainResourceCreation, and there is one framebuffer per swapchain image |
| MeshRenderer.Renderer.DestroySwapchain | Samples/02-Mesh-Rendering/Renderer/Renderer.cpp:173-185 | the framebuffers of every swapchain image, the render pass, each render target, then the swapchain object's own Destroy |
| MeshRenderer.ResourceCreationShape | Samples/02-Mesh-Rendering/Renderer/Renderer.cpp:62-165 | exactly three render targets (colour and depth multisampled, resolve single-sampled), the render pass over their three attachments, then one framebuffer per image |
| MeshRenderer.SwapchainResourcesBalanced | Samples/02-Mesh-Rendering/Renderer/Renderer.cpp:161-185 | DestroySwapchain destroys exactly the framebuffers CreateSwapchain made, in creation order, and creates none |
| MeshRenderer.TeardownDestroysFramebuffers | Samples/02-Mesh-Rendering/Renderer/Renderer.cpp:173-185 | the teardown's framebuffer events are exactly the destruction of the given framebuffers |
| MeshRenderer.FramebufferDestructionCreatesNone | Samples/02-Mesh-Rendering/Renderer/Renderer.cpp:175-177 | framebuffer destruction creates no framebuffer |
| MeshRenderer.TargetDestructionFramebufferFree | Samples/02-Mesh-Rendering/Renderer/Renderer.cpp:203-208 | render-target destruction creates and destroys no framebuffer |
| MeshRenderer.FramebufferFree | Samples/02-Mesh-Rendering/Renderer/Renderer.cpp:62-155 | the render-target and render-pass calls create and destroy no framebuffer |
| MeshRenderer.RenderFrame | Samples/02-Mesh-Rendering/Renderer/Renderer.cpp:23-31 | across BeginFrame and EndFrame the presented index is the acquired one and the present waits on the semaphore the acquire signals; nothing is submitted in between |
| VkInit.MakeImageCreateInfoIntended | Renderer/src/Vulkan/VkInit.cpp:58-77 | the image info with the caller's flags in its flags field, and otherwise the info as written |
| VkInit.MessengerSeverities | Renderer/src/Vulkan/VkInit.cpp:4-15 | verbose, warning and error severities but not info; general and validation types but not performance; no callback or user data; the debug callback sends verbose to the debug log and warning and error to the warning log |
| VkInit.ReportFlags | Renderer/src/Vulkan/VkInit.cpp:17-26 | warning, performance-warning, error and debug reports but not information; of those, the report callback drops only performance warnings |
| VkInit.MakeDeviceQueueCreateInfo | Renderer/src/Vulkan/VkInit.cpp:31-42 | the info carries the given family index, priority count and priority array, with flags 0 |
| VkInit.MakeBufferCreateInfo | Renderer/src/Vulkan/VkInit.cpp:44-55 | flags, size, usage, sharing mode, queue-family count and indices each land in their own field |
| VkInit.DeviceQueueInfoKeepsArguments | Renderer/src/Vulkan/VkInit.cpp:31-42 | flags are 0 and the info is injective in family, count and priorities |
| VkInit.BufferInfoKeepsArguments | Renderer/src/Vulkan/VkInit.cpp:44-55 | every argument lands in its own field, so equal infos come only from equal arguments |
| VkInit.ImageInfoIgnoresFlags | Renderer/src/Vulkan/VkInit.cpp:58-77 | one mip level, one array layer, one sample, undefined initial layout and flags 0; calls differing only in flags agree, unlike the intended constructor |
| VkInit.ImageViewWholeSingleLevel | Renderer/src/Vulkan/VkInit.cpp:79-102 | identity swizzle on all four components, the requested aspect, base mip level 0 with one level, base layer 0 with one layer |
| Timer.ElapsedTelescopes | Renderer/src/Timer.cpp:8-16 | the gaps added by successive ticks sum to the latest reading minus the first timestamp |
| Timer.ElapsedMonotone | Renderer/src/Timer.cpp:8-16 | with a clock that never goes back the accumulated time is non-negative and never shrinks from one tick to the next |
| Timer.NonDecreasingLast | Renderer/src/Timer.cpp:8-16 | in a non-decreasing run each reading lies between the start and the latest reading |
| Timer.NonDecreasingStart | Renderer/src/Timer.cpp:8-16 | in a non-decreasing run each reading is at least the start |
| Timer.Timer.constructor | Renderer/src/Timer.cpp:3-6 | stopped, duration 0, both timestamps read from the clock |
| Timer.Timer.Tick | Renderer/src/Timer.cpp:8-16 | while running, the current timestamp becomes the previous one, the clock is read into the current one and the gap is added; a stopped timer is unchanged |
| Timer.Timer.Start | Renderer/src/Timer.cpp:18-21 | the timer runs and nothing else changes |
| Timer.Timer.Stop | Renderer/src/Timer.cpp:23-26 | the timer stops and nothing else changes |
| Timer.Timer.Reset | Renderer/src/Timer.cpp:28-34 | duration 0 and both timestamps re-read; running or not is kept |
| Timer.Timer.TickAll | Renderer/src/Timer.cpp:8-16 | a run of ticks adds exactly the latest reading minus the last timestamp, and never decreases the duration under a monotone clock |
| Maths.ClampValue | Renderer/include/Maths.h:44-54 | below min gives min; otherwise above max gives max; otherwise the value is kept |
| Maths.Clamp | Renderer/include/Maths.h:44-54 | the in-out value becomes ClampValue's result: one of the value and the two bounds, within the range when the range is proper |
| Maths.ClampWithinRange | Renderer/include/Maths.h:44-54 | over a proper range the result lies within it, and equals the value exactly when the value is inside |
| Maths.ClampIdempotent | Renderer/include/Maths.h:44-54 | clamping a clamped value again to the same proper range changes nothing |
| Maths.ClampInvertedBounds | Renderer/include/Maths.h:48-53 | with min > max the lower-bound test wins below min and every other value becomes max, min itself included |
| Vector2.Add | Renderer/include/Maths/Vector2.h:32 | component-wise sum |
| Vector2.Sub | Renderer/include/Maths/Vector2.h:33 | the difference added back to the right operand gives the left operand |
| Vector2.Div | Renderer/include/Maths/Vector2.h:35 | each component is the C++ truncating quotient: magnitude the quotient of magnitudes, sign the product of the operands' signs |
| Vector2.EqualIsEquality | Renderer/include/Maths/Vector2.h:47-48 | == holds exactly when the two vectors are equal, and != is its negation |
| Vector2.ScaleDivRoundTrip | Renderer/include/Maths/Vector2.h:32-35 | subtracting what was added gives the vector back, and dividing by the non-zero factor it was scaled by gives it back |
| Vector2.DotSymmetric | Renderer/include/Maths/Vector2.h:78-89 | Dot is symmetric and LengthSquared is a vector's dot with itself |
| Vector2.LengthSquaredZero | Renderer/include/Maths/Vector2.h:89 | LengthSquared is non-negative and zero only for the zero vector |
| Vector2.DotWithDirections | Renderer/include/Maths/Vector2.h:55-78 | dotting with Right and Up picks out x and y |
| Vector2.DirectionsUnit | Renderer/include/Maths/Vector2.h:55-73 | the four directions have squared length 1, and Down and Left are Up and Right reversed |
| Vector2.LengthSquaredOfOpposite | Renderer/include/Maths/Vector2.h:34-89 | reversing a vector keeps its squared length |
| Vector2.ScaleAxes | Renderer/include/Maths/Vector2.h:34 | scaling keeps a vector on its axis |
| Vector2.DirectionsPerpendicular | Renderer/include/Maths/Vector2.h:55-78 | Up is perpendicular to Right and Down to Left |
| Vector2.DirectionsCancel | Renderer/include/Maths/Vector2.h:55-73 | opposite directions sum to zero |
| Vector2.Vec2Ref.constructor | Renderer/include/Maths/Vector2.h:21-24 | the vector holds the given components |
| Vector2.Vec2Ref.AddAssign | Renderer/include/Maths/Vector2.h:37 | the vector becomes its sum with the operand |
| Vector2.Vec2Ref.SubAssign | Renderer/include/Maths/Vector2.h:38 | the vector becomes its difference with the operand |
| Vector2.Vec2Ref.MulAssign | Renderer/include/Maths/Vector2.h:39 | each component is multiplied by the operand's |
| Vector2.Vec2Ref.DivAssign | Renderer/include/Maths/Vector2.h:40 | each component is divided by the operand's, rounding toward zero |
| Vector2.Vec2Ref.AddScalarAssign | Renderer/include/Maths/Vector2.h:42 | the scalar is added to both components |
| Vector2.Vec2Ref.SubScalarAssign | Renderer/include/Maths/Vector2.h:43 | the scalar is subtracted from both components |
| Vector2.Vec2Ref.MulScalarAssign | Renderer/include/Maths/Vector2.h:44 | the vector becomes its scaling by the scalar |
| Vector2.Vec2Ref.DivScalarAssign | Renderer/include/Maths/Vector2.h:45 | the vector becomes its division by the scalar |
| Vector2.Vec2Ref.Set | Renderer/include/Maths/Vector2.h:101 | both components become the value |
| Vector3.Add | Renderer/include/Maths/Vector3.h:36 | component-wise sum |
| Vector3.Sub | Renderer/include/Maths/Vector3.h:37 | the difference added back to the right operand gives the left operand |
| Vector3.Neg | Renderer/include/Maths/Vector3.h:38-40 | the negation is the additive inverse |
| Vector3.Div | Renderer/include/Maths/Vector3.h:42 | each component is the C++ truncating quotient: magnitude the quotient of magnitudes, sign the product of the operands' signs |
| Vector3.EqualIsEquality | Renderer/include/Maths/Vector3.h:54-55 | == holds exactly when the two vectors are equal, and != is its negation |
| Vector3.ScaleDivRoundTrip | Renderer/include/Maths/Vector3.h:36-42 | subtraction undoes addition, negation is an involution with a - b = a + (-b), and division undoes scaling by the same non-zero factor |
| Vector3.DotSymmetric | Renderer/include/Maths/Vector3.h:98-108 | Dot is symmetric and LengthSquared is a vector's dot with itself |
| Vector3.LengthSquaredZero | Renderer/include/Maths/Vector3.h:108 | LengthSquared is non-negative and zero only for the zero vector |
| Vector3.DotWithDirections | Renderer/include/Maths/Vector3.h:61-98 | dotting with Right, Up and Forwards picks out x, y and z |
| Vector3.DirectionsOpposite | Renderer/include/Maths/Vector3.h:61-91 | Down, Left and Backwards are the negations of Up, Right and Forwards |
| Vector3.DirectionsUnit | Renderer/include/Maths/Vector3.h:61-108 | all six directions have squared length 1 |
| Vector3.DirectionsPerpendicular | Renderer/include/Maths/Vector3.h:61-98 | Up, Right and Forwards are pairwise perpendicular |
| Vector3.CrossIntendedPerpendicular | Renderer/include/Maths/Vector3.h:119-121 | the intended cross product is perpendicular to both operands |
| Vector3.CrossIntendedOfAxes | Renderer/include/Maths/Vector3.h:119-121 | x cross y is z, y cross z is x and z cross x is y, scaled by the lengths |
| Vector3.CrossIntendedOfDirections | Renderer/include/Maths/Vector3.h:61-121 | Right cross Up is Forwards, Up cross Forwards is Right, Forwards cross Right is Up |
| Vector3.CrossAsWrittenDiffers | Renderer/include/Maths/Vector3.h:119-121 | the y and z components as written are the intended ones; the whole product is the intended one exactly when x·other.z = y·other.z |
| Vector3.CrossAsWrittenOfAxes | Renderer/include/Maths/Vector3.h:119-121 | as written, y cross z is zero, and the product is not perpendicular to its left operand in general |
| Vector3.CrossAsWrittenWrong | Renderer/include/Maths/Vector3.h:119-121 | as written, Up cross Forwards is zero where Right is intended, and (2,1,0) cross Forwards has dot 2 with (2,1,0) |
| Vector3.Vec3Ref.constructor | Renderer/include/Maths/Vector3.h:23-28 | the vector holds the given components |
| Vector3.Vec3Ref.AddAssign | Renderer/include/Maths/Vector3.h:44 | the vector becomes its sum with the operand |
| Vector3.Vec3Ref.SubAssign | Renderer/include/Maths/Vector3.h:45 | the vector becomes its difference with the operand |
| Vector3.Vec3Ref.MulAssign | Renderer/include/Maths/Vector3.h:46 | each component is multiplied by the operand's |
| Vector3.Vec3Ref.DivAssign | Renderer/include/Maths/Vector3.h:47 | each component is divided by the operand's, rounding toward zero |
| Vector3.Vec3Ref.AddScalarAssign | Renderer/include/Maths/Vector3.h:49 | the scalar is added to every component |
| Vector3.Vec3Ref.SubScalarAssign | Renderer/include/Maths/Vector3.h:50 | the scalar is subtracted from every component |
| Vector3.Vec3Ref.MulScalarAssign | Renderer/include/Maths/Vector3.h:51 | the vector becomes its scaling by the scalar |
| Vector3.Vec3Ref.DivScalarAssign | Renderer/include/Maths/Vector3.h:52 | the vector becomes its division by the scalar |
| Vector3.Vec3Ref.Set | Renderer/include/Maths/Vector3.h:127 | every component becomes the value |
| Vector4.FromVector3 | VKR/include/VKR/Maths/Vector4.h:23-28 | x, y and z are copied and w is 0 |
| Vector4.EqualIgnoresZW | VKR/include/VKR/Maths/Vector4.h:58-59 | == compares only x and y, so vectors differing in z or w compare equal; != is its negation |
| Vector4.BinaryMatchesCompound | VKR/include/VKR/Maths/Vector4.h:43-56 | the binary operators agree with the compound ones on x and y but zero z and w, which the compound ones keep |
| Vector4.RoundTripKeepsXY | VKR/include/VKR/Maths/Vector4.h:43-46 | add-then-subtract and scale-then-divide give back x and y with z and w zeroed, which == cannot tell apart |
| Vector4.DotExtendsVector3 | VKR/include/VKR/Maths/Vector4.h:23-65 | Dot uses all four components, is symmetric, and agrees with Vector3's Dot on vectors built from a Vector3 |
| Vector4.Vec4Ref.constructor | VKR/include/VKR/Maths/Vector4.h:31-36 | the vector holds the given components |
| Vector4.Vec4Ref.AddAssign | VKR/include/VKR/Maths/Vector4.h:48 | x and y gain the operand's; z and w are kept |
| Vector4.Vec4Ref.SubAssign | VKR/include/VKR/Maths/Vector4.h:49 | x and y lose the operand's; z and w are kept |
| Vector4.Vec4Ref.MulAssign | VKR/include/VKR/Maths/Vector4.h:50 | x and y are multiplied by the operand's; z and w are kept |
| Vector4.Vec4Ref.DivAssign | VKR/include/VKR/Maths/Vector4.h:51 | x and y are divided by the operand's, rounding toward zero; z and w are kept |
| Vector4.Vec4Ref.AddScalarAssign | VKR/include/VKR/Maths/Vector4.h:53 | the scalar is added to x and y only |
| Vector4.Vec4Ref.SubScalarAssign | VKR/include/VKR/Maths/Vector4.h:54 | the scalar is subtracted from x and y only |
| Vector4.Vec4Ref.MulScalarAssign | VKR/include/VKR/Maths/Vector4.h:55 | x and y are scaled by the scalar; z and w are kept |
| Vector4.Vec4Ref.DivScalarAssign | VKR/include/VKR/Maths/Vector4.h:56 | x and y are divided by the scalar; z and w are kept |
| Vector4.Vec4Ref.Set | VKR/include/VKR/Maths/Vector4.h:82 | all four components become the value |
| Matrix.MakeIdentity | VKR/include/VKR/Maths/Matrix.h:63-77 | ones on the four diagonal elements and zeros elsewhere |
| Matrix.Translation | VKR/include/VKR/Maths/Matrix.h:86-95 | the offsets sit in the bottom row's first three elements and every other element is the identity's |
| Matrix.Scaling | VKR/include/VKR/Maths/Matrix.h:153-162 | the factors sit on the first three diagonal elements and every other element is the identity's |
| Matrix.TransposeMovesEntries | VKR/include/VKR/Maths/Matrix.h:227-246 | the element at row i, column j moves to row j, column i |
| Matrix.TransposeInvolution | VKR/include/VKR/Maths/Matrix.h:227-246 | transposing twice gives the matrix back, and the identity is its own transpose |
| Matrix.TransposeEntry | VKR/include/VKR/Maths/Matrix.h:227-246 | one element of the transpose is the mirrored element |
| Matrix.MulIsRowByColumn | VKR/include/VKR/Maths/Matrix.h:31-57 | every element of the product is the textbook row-by-column sum |
| Matrix.MulEntry | VKR/include/VKR/Maths/Matrix.h:31-57 | one element of the product is the textbook row-by-column sum |
| Matrix.MulWrittenOut | VKR/include/VKR/Maths/Matrix.h:31-57 | the product is the sixteen row-by-column sums in row-major order |
| Matrix.RowByColumnIdentityRight | VKR/include/VKR/Maths/Matrix.h:63-77 | a column of the identity picks out the matching column of the left operand |
| Matrix.MulIdentityRight | VKR/include/VKR/Maths/Matrix.h:31-77 | the identity is a unit on the right |
| Matrix.MulIdentityLeft | VKR/include/VKR/Maths/Matrix.h:31-77 | the identity is a unit on the left |
| Matrix.RowByColumnTransposed | VKR/include/VKR/Maths/Matrix.h:227-246 | a row-by-column entry of the transposes' product in reverse order is the mirrored entry of the product |
| Matrix.TransposeOfProduct | VKR/include/VKR/Maths/Matrix.h:31-246 | the transpose of a product is the product of the transposes in reverse order |
| Matrix.TranslationsRow0 | VKR/include/VKR/Maths/Matrix.h:86-95 | row 0 of the product of two translations is the identity's |
| Matrix.TranslationsRow1 | VKR/include/VKR/Maths/Matrix.h:86-95 | row 1 of the product of two translations is the identity's |
| Matrix.TranslationsRow2 | VKR/include/VKR/Maths/Matrix.h:86-95 | row 2 of the product of two translations is the identity's |
| Matrix.TranslationsRow3 | VKR/include/VKR/Maths/Matrix.h:86-95 | row 3 of the product of two translations holds the summed offsets and a 1 |
| Matrix.TranslationsCompose | VKR/include/VKR/Maths/Matrix.h:31-95 | multiplying two translations translates by the sum of their offsets |
| Matrix.ScalingsRow0 | VKR/include/VKR/Maths/Matrix.h:153-162 | row 0 of the product of two scalings holds the product of the x factors |
| Matrix.ScalingsRow1 | VKR/include/VKR/Maths/Matrix.h:153-162 | row 1 of the product of two scalings holds the product of the y factors |
| Matrix.ScalingsRow2 | VKR/include/VKR/Maths/Matrix.h:153-162 | row 2 of the product of two scalings holds the product of the z factors |
| Matrix.ScalingsRow3 | VKR/include/VKR/Maths/Matrix.h:153-162 | row 3 of the product of two scalings is the identity's |
| Matrix.ScalingsCompose | VKR/include/VKR/Maths/Matrix.h:31-162 | multiplying two scalings scales by the component-wise product of their factors |

## Left out

- GPU concurrency: the GPU finishing a slot's work is an abstract step (`FrameProtocol.CompleteSlot`), not a parallel agent, and a fence wait is modelled as that step followed by the host resuming.
- Driver calls (`vk*`, `vma*`, `glfw*`): each is an event in an ordered log, and its outputs are parameters. Acquire, submit and present results are ignored by the source, and every wait passes `UINT64_MAX`, so there is no timeout or out-of-date path to model.
- Swapchain recreation: the source never chains an old swapchain and never rebuilds it on resize.
- Wait-stage flags on submission: kept as an opaque value that is passed through.
- The query pools of the 01-Hello-Triangle sample: the statistics readback in `EndFrame` (a blocking driver read with no host logic beyond formatting), and the two `vkCmdResetQueryPool` and two `vkCmdBeginQuery` calls `BeginFrame` records. `HelloTriangle.HelloTriangleApp.BeginFrame`'s log leaves them out.
- `HelloTriangle.HelloTriangleApp.UpdateFrameCounter`: the `m_Timer.Tick()` call and the delta-time, FPS and run-time updates that follow it are left out; the timer itself is the `Timer` module and the values derived from it are floating point.
- The bulk create/destroy wrappers of both `VkContext.cpp` files (buffers, images, samplers, descriptors, pipelines, render passes, framebuffers, query pools, `CreateAllocator`, `Map`/`Unmap`): each forwards to the driver. Where a modelled member calls one on a frame-loop object (framebuffers, render pass, fences, semaphores, command pool, swapchain) or on the context itself (debug objects, allocator, device, instance), the call is a log event; the calls on the other application objects are left out, as the next lines say.
- `HelloTriangle.ShutdownEventsOrder` and `HelloTriangle.HelloTriangleApp.Shutdown`: the log leaves out the two query pools, the ImGui renderer, the pipeline layout and pipeline, and the render targets' images and views, which the source destroys between the device-idle wait and the framebuffers and after the render pass. None of them belongs to the frame-slot protocol.
- `DevSample.DevShutdownEventsOrder`: the log leaves out the pipeline-cache readback and write, the ImGui renderer, the three pipelines, two pipeline layouts and five shader modules, the render target, depth image and views, the index, vertex and uniform buffers, and the descriptor-set layout and pool, which the source destroys between the device-idle wait and the command pool.
- `DevSample.DevMain`: it builds the framebuffer array with the corrected `DevSample.CreateFramebuffers`, sized to the swapchain's images, so it accepts image counts above 8 that the source's fixed `frameBuffers[8]` cannot hold (see Findings; `DevSample.CreateFramebuffersFixed` is the array as declared).
- `Context.VkContext.CreateDevice`: with no physical device, the source calls `Log::Fatal` with `shouldBreak` set, whose `assert` aborts a build with assertions enabled before `VK_ERROR_UNKNOWN` is returned. The model follows a build with `NDEBUG`, where the result code is returned.
- `Context.VkContext.constructor`: the C++ constructor sets only the instance and the debug handles and leaves `m_PhysicalDevice` and `m_Device` uninitialised. The model starts them null, so the "no physical device selected" gate of `CreateDevice` rests on an initialisation the source does not perform.
- Debug-messenger creation through `vkGetInstanceProcAddr`: a driver call. The `DEBUG`/`VKR_DEBUG` branches are modelled as compiled in.
- Pipeline-cache file I/O, window and ImGui setup, logging text, profiler macros and random numbers: none of them carries host bookkeeping.
- Floating-point maths: rotations, `View`, the projections, `Inverse`, `Length`, `Normalize`, `Lerp` and degree/radian conversion. So are `Timer::DeltaTime` and `Timer::Duration`, which convert durations to floating-point seconds.
- `Dot` and `LengthSquared` in `Vector2` and `Vector3` return `double`: they are modelled as the exact integer, which is what the cast gives while the value stays below 2^53.
- Integer width: the maths templates are taken at an unbounded `int`, so signed overflow (undefined in C++) is not modelled. Clock readings are unbounded integers too. The uint32 increment in `Swapchain.SelectImageCount` is modelled with its wrap-around; the `uint64_t` frame counters are unbounded naturals, because wrapping them would take 2^64 frames.
- Handles and pointers: they are natural numbers with 0 standing for null. A pointer is copied and never dereferenced.
- `VkInit.MakeBufferCreateInfo` takes a 32-bit size. The narrowing of the 64-bit `VkDeviceSize` that `CreateBuffer` passes in happens in a caller that is not part of this model.
- The compound vector operators return `*this` for chaining: the methods return nothing, because no modelled caller chains them.
- The vector constructors' default arguments: a constructor takes every component explicitly.
- Renderer/include/Maths/Matrix.h: this older matrix header returns references to locals, which is undefined behaviour, so only the VKR `Matrix.h` is modelled.
- `Swapchain.VkSwapchain` and `MeshRenderer.Renderer` have constructors that only give the fields defined starting values, with null handles. The C++ classes declare no constructor, and their fields start uninitialised.
- The frame counter of the 01-Hello-Triangle samples starts at 0. The base-class constructor that would set it is not part of this model, and 0 matches `frameIdx` in the 00-DEV sample.
- The implementations of `VkHelpers` and `VkPipelineBuilder` in the `VKR` tree are not part of this model. The `Renderer` tree's implementations are used for both.

## Findings

| source | as written | input that shows it | evidently intended | confidence | as-written member | corrected member |
|---|---|---|---|---|---|---|
| VKR/src/Vulkan/VkContext.cpp:23-29 | severity is tested against WARNING before ERROR, so the error branch is unreachable and errors are logged as warnings | severity ERROR (0x1000) | ERROR and above go to the error log | not executed | Context.DebugLogErrorIsWarning | Context.DebugLogIntended |
| Renderer/include/Maths/Vector3.h:119-121 | the x component of `Cross` is `x*other.z - other.y*z` | Up cross Forwards gives (0,0,0); (2,1,0) cross Forwards is not perpendicular to (2,1,0) | `y*other.z - z*other.y`, so the product is perpendicular to both operands | not executed | Vector3.CrossAsWrittenWrong | Vector3.CrossIntendedPerpendicular |
| Renderer/src/Vulkan/VkPipelineBuilder.cpp:42-44 | `!stage == COMPUTE_BIT` compares 0 or 1 with 0x20, so the warning never fires | a single vertex stage (0x1) | warn when the stage is not the compute stage | not executed | PipelineBuilder.StageCheckNeverFires | PipelineBuilder.VkPipelineBuilder.BuildComputePipelineIntended |
| Samples/00-DEV/main.cpp:276-280 | framebuffers go into a fixed array of 8, indexed by every swapchain image | a surface whose minimum image count is 8 and which has no maximum gives 9 images, writing past the array | an array sized to the swapchain's image count | not executed | DevSample.FixedFramebufferArrayOverflows | DevSample.CreateFramebuffers |
| Renderer/src/Vulkan/VkInit.cpp:58-77 | `MakeImageCreateInfo` takes a `flags` argument and always stores 0 | any non-zero flags, such as the sparse-binding bit | the caller's flags in the info | not executed | VkInit.ImageInfoIgnoresFlags | VkInit.MakeImageCreateInfoIntended |
