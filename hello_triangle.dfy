/**
 * The Hello-Triangle sample application: frame-slot resources, the per-frame
 * BeginFrame / Update / EndFrame cycle and the shutdown order.
 *
 * Driver calls are recorded in the ghost `log`; handles the driver would
 * return are parameters, in the order it would hand them out. The device's fences are the
 * `fences` field (see FrameProtocol); GPU progress is the GpuComplete step.
 * The swapchain object is represented by its handle and image count; its own
 * behaviour is the Swapchain module.
 */
module HelloTriangle {
  import opened VkTypes
  import opened VkHelpers
  import opened FrameProtocol
  import Context

  /** Where the application is in its life cycle. */
  datatype Phase = Constructed | Idle | InFrame | ShutDown

  /** The context's teardown after the swapchain, as this sample orders it (with its DEBUG branch). */
  const CONTEXT_TEARDOWN: seq<Event> :=
    [DestroyDebugReporter, DestroyDebugLogger, DestroyAllocator, DestroyDevice, DestroyInstance]

  /**
   * The modelled part of what Shutdown issues: wait for the device, destroy
   * the framebuffers and the render pass, each slot's fence and semaphores,
   * the command pool and the swapchain, then the context's own objects.
   */
  function ShutdownEvents(frameBuffers: seq<Handle>, renderPass: Handle, frameReady: seq<Handle>,
                          imageAvailable: seq<Handle>, renderFinished: seq<Handle>,
                          commandPool: Handle, swapchain: Handle): seq<Event>
    requires |imageAvailable| == |frameReady| && |renderFinished| == |frameReady|
  {
    [DeviceWaitIdle] + FramebufferTeardown(frameBuffers) + [DestroyRenderPass(renderPass)]
      + SyncTeardown(frameReady, imageAvailable, renderFinished)
      + [DestroyCommandPool(commandPool), DestroySwapchain(swapchain)] + CONTEXT_TEARDOWN
  }

  /**
   * Shutdown waits for the device before destroying anything, destroys every
   * framebuffer before the render pass they use, the command pool and the
   * swapchain after the synchronisation objects, and the device only after
   * every object made from it; the instance goes last.
   */
  lemma ShutdownEventsOrder(frameBuffers: seq<Handle>, renderPass: Handle, frameReady: seq<Handle>,
                            imageAvailable: seq<Handle>, renderFinished: seq<Handle>,
                            commandPool: Handle, swapchain: Handle)
    requires |imageAvailable| == |frameReady| && |renderFinished| == |frameReady|
    ensures var log := ShutdownEvents(frameBuffers, renderPass, frameReady, imageAvailable, renderFinished, commandPool, swapchain);
      && |log| == |frameBuffers| + 3 * |frameReady| + 9
      && log[0] == DeviceWaitIdle
      && (forall i | 0 <= i < |frameBuffers| :: log[1 + i] == DestroyFramebuffer(frameBuffers[i]))
      && log[1 + |frameBuffers|] == DestroyRenderPass(renderPass)
      && log[|log| - 7] == DestroyCommandPool(commandPool)
      && log[|log| - 6] == DestroySwapchain(swapchain)
      && log[|log| - 5..] == CONTEXT_TEARDOWN
      && HierarchicalTeardown(log)
  {
    var log := ShutdownEvents(frameBuffers, renderPass, frameReady, imageAvailable, renderFinished, commandPool, swapchain);
    var head := [DeviceWaitIdle] + FramebufferTeardown(frameBuffers) + [DestroyRenderPass(renderPass)];
    var sync := SyncTeardown(frameReady, imageAvailable, renderFinished);
    var tail := [DestroyCommandPool(commandPool), DestroySwapchain(swapchain)];
    assert log == head + sync + tail + CONTEXT_TEARDOWN;
    forall i | 0 <= i < |frameBuffers|
      ensures log[1 + i] == DestroyFramebuffer(frameBuffers[i])
    {
      assert log[1 + i] == head[1 + i];
    }
    assert log[1 + |frameBuffers|] == head[1 + |frameBuffers|];
    var beforeDevice := head + sync + tail + [DestroyDebugReporter, DestroyDebugLogger, DestroyAllocator];
    assert DestroyDevice !in beforeDevice && DestroyInstance !in beforeDevice by {
      forall e | e in beforeDevice
        ensures e != DestroyDevice && e != DestroyInstance
      {
        if e in head {
          var k :| 0 <= k < |head| && head[k] == e;
          assert k == 0 || k == |head| - 1 || head[k] == DestroyFramebuffer(frameBuffers[k - 1]);
        }
      }
    }
    assert log == beforeDevice + [DestroyDevice] + [] + [DestroyInstance];
    HierarchicalTeardownOf(beforeDevice, []);
  }

  /** Shutdown destroys one fence and two semaphores per slot, and no other synchronisation object. */
  lemma ShutdownEventsCounts(frameBuffers: seq<Handle>, renderPass: Handle, frameReady: seq<Handle>,
                             imageAvailable: seq<Handle>, renderFinished: seq<Handle>,
                             commandPool: Handle, swapchain: Handle)
    requires |imageAvailable| == |frameReady| && |renderFinished| == |frameReady|
    ensures var log := ShutdownEvents(frameBuffers, renderPass, frameReady, imageAvailable, renderFinished, commandPool, swapchain);
      && FencesDestroyed(log) == |frameReady|
      && SemaphoresDestroyed(log) == 2 * |frameReady|
  {
    var a := [DeviceWaitIdle];
    var b := FramebufferTeardown(frameBuffers);
    var c := [DestroyRenderPass(renderPass)];
    var d := SyncTeardown(frameReady, imageAvailable, renderFinished);
    var e := [DestroyCommandPool(commandPool), DestroySwapchain(swapchain)] + CONTEXT_TEARDOWN;
    assert ShutdownEvents(frameBuffers, renderPass, frameReady, imageAvailable, renderFinished, commandPool, swapchain)
      == a + b + c + d + e;
    assert e == [e[0], e[1], e[2], e[3], e[4], e[5], e[6]];
    NoSyncDestroyed(a);
    NoSyncDestroyed(c);
    NoSyncDestroyed(e);
    FramebufferTeardownCounts(frameBuffers);
    SyncTeardownCounts(frameReady, imageAvailable, renderFinished);
    DestroyedCountsAppend(a, b);
    DestroyedCountsAppend(a + b, c);
    DestroyedCountsAppend(a + b + c, d);
    DestroyedCountsAppend(a + b + c + d, e);
  }

  /**
   * Init's loop creating each slot's fence, signalled, and its two
   * semaphores; the driver hands out the given handles in creation order.
   * Every fence starts out signalled and idle.
   */
  method CreateSyncObjects(fenceHandles: seq<Handle>, availableHandles: seq<Handle>, finishedHandles: seq<Handle>)
    returns (created: Fences, events: seq<Event>)
    requires |fenceHandles| == FRAMES_IN_FLIGHT && |availableHandles| == FRAMES_IN_FLIGHT
    requires |finishedHandles| == FRAMES_IN_FLIGHT
    ensures Quiescent(created)
    ensures events == SyncCreation(fenceHandles, availableHandles, finishedHandles, FENCE_CREATE_SIGNALED_BIT)
  {
    created := [];
    events := [];
    var info := Context.CreateFence(true);
    for i := 0 to FRAMES_IN_FLIGHT
      invariant |created| == i && forall j | 0 <= j < i :: created[j] == FenceSlot(true, false, false)
      invariant events == SyncCreation(fenceHandles[..i], availableHandles[..i], finishedHandles[..i], info.flags)
    {
      assert fenceHandles[..i + 1][..i] == fenceHandles[..i];
      assert availableHandles[..i + 1][..i] == availableHandles[..i];
      assert finishedHandles[..i + 1][..i] == finishedHandles[..i];
      created := created + [FenceSlot(info.flags & FENCE_CREATE_SIGNALED_BIT != 0, false, false)];
      events := events + [CreateFence(fenceHandles[i], info.flags), CreateSemaphore(availableHandles[i]),
                          CreateSemaphore(finishedHandles[i])];
    }
    assert fenceHandles[..FRAMES_IN_FLIGHT] == fenceHandles && availableHandles[..FRAMES_IN_FLIGHT] == availableHandles;
    assert finishedHandles[..FRAMES_IN_FLIGHT] == finishedHandles;
  }

  /** One framebuffer per swapchain image, created in image order. */
  method CreateFramebuffers(framebufferHandles: seq<Handle>) returns (events: seq<Event>)
    ensures events == FramebufferCreation(framebufferHandles)
  {
    events := [];
    for i := 0 to |framebufferHandles|
      invariant events == FramebufferCreation(framebufferHandles[..i])
    {
      assert framebufferHandles[..i + 1][..i] == framebufferHandles[..i];
      events := events + [CreateFramebuffer(framebufferHandles[i], i)];
    }
    assert framebufferHandles[..|framebufferHandles|] == framebufferHandles;
  }

  class HelloTriangleApp {
    var queueFamilyIndex: nat
    var commandPool: Handle
    var renderPass: Handle
    var swapchain: Handle
    var frameBuffers: seq<Handle>
    var commands: seq<Handle>
    var frameReady: seq<Handle>
    var imageAvailable: seq<Handle>
    var renderFinished: seq<Handle>
    var frameCount: nat
    var frameInFlight: nat
    var imageIndex: nat
    /** Device-side state of the three frameReady fences. */
    var fences: Fences
    var phase: Phase
    ghost var log: seq<Event>
    /** Swapchain images acquired and presented so far, in order. */
    ghost var acquired: seq<nat>
    ghost var presented: seq<nat>

    ghost predicate Valid()
      reads this
    {
      && frameInFlight < FRAMES_IN_FLIGHT
      && (phase == Constructed ==> frameCount == 0 && acquired == [] && presented == [])
      && (phase != Constructed ==>
            && |commands| == FRAMES_IN_FLIGHT
            && |frameReady| == FRAMES_IN_FLIGHT
            && |imageAvailable| == FRAMES_IN_FLIGHT
            && |renderFinished| == FRAMES_IN_FLIGHT
            && |frameBuffers| > 0
            && Consistent(fences))
      && (phase == Idle ==> Ready(fences, frameCount) && acquired == presented)
      && (phase == InFrame ==>
            && Recording(fences, frameCount)
            && frameInFlight == SlotOf(frameCount)
            && imageIndex < |frameBuffers|
            && acquired == presented + [imageIndex])
      && (phase == ShutDown ==> Quiescent(fences) && acquired == presented)
    }

    /**
     * The constructor nulls every handle and sets the unsigned queue-family
     * index to -1, that is 0xFFFF_FFFF; the frame counter starts at zero.
     */
    constructor ()
      ensures Valid() && phase == Constructed
      ensures queueFamilyIndex == 0xFFFF_FFFF
      ensures frameCount == 0 && frameInFlight == 0 && imageIndex == 0
      ensures commandPool == NULL_HANDLE && renderPass == NULL_HANDLE && swapchain == NULL_HANDLE
      ensures log == [] && acquired == [] && presented == []
    {
      queueFamilyIndex := 0xFFFF_FFFF;
      commandPool := NULL_HANDLE;
      renderPass := NULL_HANDLE;
      swapchain := NULL_HANDLE;
      frameBuffers := [];
      commands := [];
      frameReady := [];
      imageAvailable := [];
      renderFinished := [];
      frameCount := 0;
      frameInFlight := 0;
      imageIndex := 0;
      fences := [];
      phase := Constructed;
      log := [];
      acquired := [];
      presented := [];
    }

    /**
     * The parts of Init the frame loop depends on: the graphics queue family,
     * the command pool, FRAMES_IN_FLIGHT fences created signalled and two
     * semaphores per slot, and one framebuffer per swapchain image.
     */
    method Init(families: seq<QueueFamilyProperties>, pool: Handle, newRenderPass: Handle,
                newSwapchain: Handle, imageCount: nat,
                fenceHandles: seq<Handle>, availableHandles: seq<Handle>, finishedHandles: seq<Handle>,
                framebufferHandles: seq<Handle>)
      requires Valid() && phase == Constructed
      requires |fenceHandles| == FRAMES_IN_FLIGHT && |availableHandles| == FRAMES_IN_FLIGHT
      requires |finishedHandles| == FRAMES_IN_FLIGHT
      requires imageCount > 0 && |framebufferHandles| == imageCount
      modifies this`queueFamilyIndex, this`commandPool, this`renderPass, this`swapchain, this`frameBuffers
      modifies this`commands, this`frameReady, this`imageAvailable, this`renderFinished, this`fences
      modifies this`phase, this`log
      ensures Valid() && phase == Idle && frameCount == 0
      ensures queueFamilyIndex == FindQueueFamilyIndex(families, QUEUE_GRAPHICS_BIT)
      ensures commandPool == pool && renderPass == newRenderPass && swapchain == newSwapchain
      ensures commands == [NULL_HANDLE, NULL_HANDLE, NULL_HANDLE]
      ensures frameReady == fenceHandles && imageAvailable == availableHandles && renderFinished == finishedHandles
      ensures frameBuffers == framebufferHandles
      ensures Quiescent(fences)
      ensures log == old(log)
        + SyncCreation(frameReady, imageAvailable, renderFinished, FENCE_CREATE_SIGNALED_BIT)
        + FramebufferCreation(frameBuffers)
    {
      SetUpDevice(families, pool, newRenderPass, newSwapchain);
      SetUpFrames(fenceHandles, availableHandles, finishedHandles, framebufferHandles);
    }

    /** Init's first part: the graphics queue family, the command pool, the render pass and the swapchain. */
    method SetUpDevice(families: seq<QueueFamilyProperties>, pool: Handle, newRenderPass: Handle, newSwapchain: Handle)
      modifies this`queueFamilyIndex, this`commandPool, this`renderPass, this`swapchain, this`commands
      ensures queueFamilyIndex == FindQueueFamilyIndex(families, QUEUE_GRAPHICS_BIT)
      ensures commandPool == pool && renderPass == newRenderPass && swapchain == newSwapchain
      ensures commands == [NULL_HANDLE, NULL_HANDLE, NULL_HANDLE]
    {
      queueFamilyIndex := FindQueueFamilyIndex(families, QUEUE_GRAPHICS_BIT);
      commandPool := pool;
      commands := [NULL_HANDLE, NULL_HANDLE, NULL_HANDLE];
      renderPass := newRenderPass;
      swapchain := newSwapchain;
    }

    /** Init's second part: the per-slot synchronisation objects and the framebuffers. */
    method SetUpFrames(fenceHandles: seq<Handle>, availableHandles: seq<Handle>, finishedHandles: seq<Handle>,
                       framebufferHandles: seq<Handle>)
      requires Valid() && phase == Constructed && |commands| == FRAMES_IN_FLIGHT
      requires |fenceHandles| == FRAMES_IN_FLIGHT && |availableHandles| == FRAMES_IN_FLIGHT
      requires |finishedHandles| == FRAMES_IN_FLIGHT
      requires |framebufferHandles| > 0
      modifies this`frameBuffers, this`frameReady, this`imageAvailable, this`renderFinished, this`fences
      modifies this`phase, this`log
      ensures Valid() && phase == Idle
      ensures frameReady == fenceHandles && imageAvailable == availableHandles && renderFinished == finishedHandles
      ensures frameBuffers == framebufferHandles
      ensures Quiescent(fences)
      ensures log == old(log)
        + SyncCreation(frameReady, imageAvailable, renderFinished, FENCE_CREATE_SIGNALED_BIT)
        + FramebufferCreation(frameBuffers)
    {
      var created, syncEvents := CreateSyncObjects(fenceHandles, availableHandles, finishedHandles);
      var framebufferEvents := CreateFramebuffers(framebufferHandles);
      StartReady(created, 0);
      ReadyConsistent(created, 0);
      frameReady, imageAvailable, renderFinished := fenceHandles, availableHandles, finishedHandles;
      frameBuffers := framebufferHandles;
      fences := created;
      log := log + syncEvents + framebufferEvents;
      phase := Idle;
    }

    /** The slot of the frame about to be recorded. */
    method UpdateFrameCounter()
      modifies this`frameInFlight
      ensures frameInFlight == SlotOf(frameCount)
    {
      frameInFlight := frameCount % FRAMES_IN_FLIGHT;
    }

    /**
     * Waits on the active slot's fence, then resets it. `blocked` tells
     * whether the wait had to let the GPU finish that slot's earlier frame;
     * during the first FRAMES_IN_FLIGHT frames it never does.
     */
    method Synchronize() returns (blocked: bool)
      requires Ready(fences, frameCount) && |frameReady| == FRAMES_IN_FLIGHT && frameInFlight == SlotOf(frameCount)
      modifies this`fences, this`log
      ensures blocked <==> !old(fences)[frameInFlight].signalled
      ensures old(frameCount) < FRAMES_IN_FLIGHT ==> !blocked
      ensures Recording(fences, frameCount)
      ensures fences == old(fences)[frameInFlight := FenceSlot(false, false, false)]
      ensures log == old(log) + [WaitForFences(frameReady[frameInFlight]), ResetFences(frameReady[frameInFlight])]
    {
      var slot := frameInFlight;
      BeginStep(fences, frameCount);
      if frameCount < FRAMES_IN_FLIGHT {
        StartupNeverBlocks(fences, frameCount);
      }
      blocked := !fences[slot].signalled;
      var waited := WaitFence(fences, slot);
      fences := ResetFence(waited.value, slot);
      log := log + [WaitForFences(frameReady[slot]), ResetFences(frameReady[slot])];
    }

    /**
     * Selects the slot, synchronises on it, acquires `acquiredImage` signalling
     * the slot's image-available semaphore, replaces the slot's command buffer
     * by `newBuffer` and begins recording into it. The buffer freed is never
     * one the GPU may still be executing.
     */
    method BeginFrame(acquiredImage: nat, newBuffer: Handle)
      requires Valid() && phase == Idle && acquiredImage < |frameBuffers|
      modifies this`frameInFlight, this`fences, this`log, this`imageIndex, this`commands, this`acquired, this`phase
      ensures Valid() && phase == InFrame
      ensures frameInFlight == SlotOf(frameCount) && imageIndex == acquiredImage
      ensures commands == old(commands)[frameInFlight := newBuffer]
      ensures old(frameCount) < FRAMES_IN_FLIGHT ==> old(fences)[frameInFlight].signalled
      ensures fences == old(fences)[frameInFlight := FenceSlot(false, false, false)]
      ensures acquired == old(acquired) + [acquiredImage]
      ensures log == old(log) + [
        WaitForFences(frameReady[frameInFlight]), ResetFences(frameReady[frameInFlight]),
        AcquireNextImage(imageAvailable[frameInFlight], acquiredImage),
        FreeCommandBuffers(old(commands)[frameInFlight]), AllocateCommandBuffers(newBuffer),
        BeginCommandBuffer(newBuffer)]
    {
      UpdateFrameCounter();
      var _ := Synchronize();
      AcquireAndRecord(acquiredImage, newBuffer);
      phase := InFrame;
    }

    /** BeginFrame once the slot is synchronised: acquire the image, replace the slot's command buffer, begin recording. */
    method AcquireAndRecord(acquiredImage: nat, newBuffer: Handle)
      requires frameInFlight < |commands| && frameInFlight < |imageAvailable|
      modifies this`imageIndex, this`commands, this`acquired, this`log
      ensures imageIndex == acquiredImage && commands == old(commands)[frameInFlight := newBuffer]
      ensures acquired == old(acquired) + [acquiredImage]
      ensures log == old(log) + [AcquireNextImage(imageAvailable[frameInFlight], acquiredImage),
                                 FreeCommandBuffers(old(commands)[frameInFlight]),
                                 AllocateCommandBuffers(newBuffer), BeginCommandBuffer(newBuffer)]
    {
      log := log + [AcquireNextImage(imageAvailable[frameInFlight], acquiredImage), FreeCommandBuffers(commands[frameInFlight]),
                    AllocateCommandBuffers(newBuffer), BeginCommandBuffer(newBuffer)];
      imageIndex, commands := acquiredImage, commands[frameInFlight := newBuffer];
      acquired := acquired + [acquiredImage];
    }

    /** Records the render pass into the acquired image's framebuffer. */
    method Update()
      requires Valid() && phase == InFrame
      modifies this`log
      ensures log == old(log) + [CmdBeginRenderPass(commands[frameInFlight], frameBuffers[imageIndex]),
                                 CmdEndRenderPass(commands[frameInFlight])]
    {
      var cmd := commands[frameInFlight];
      log := log + [CmdBeginRenderPass(cmd, frameBuffers[imageIndex]), CmdEndRenderPass(cmd)];
    }

    /**
     * Ends recording, submits the slot's command buffer (waiting on its
     * image-available semaphore, signalling its render-finished semaphore and
     * its fence), presents the acquired image and counts the frame. The slot
     * submitted has no earlier submission the host has not waited on, and at
     * most FRAMES_IN_FLIGHT frames are then in flight.
     */
    method EndFrame()
      requires Valid() && phase == InFrame
      modifies this`fences, this`log, this`presented, this`frameCount, this`phase
      ensures Valid() && phase == Idle
      ensures frameCount == old(frameCount) + 1
      ensures !old(fences)[frameInFlight].armed && !old(fences)[frameInFlight].pending
      ensures fences == old(fences)[frameInFlight := FenceSlot(false, true, true)]
      ensures InFlight(fences) <= FRAMES_IN_FLIGHT
      ensures presented == old(presented) + [imageIndex]
      ensures log == old(log) + [
        EndCommandBuffer(commands[frameInFlight]),
        QueueSubmit(commands[frameInFlight], imageAvailable[frameInFlight], renderFinished[frameInFlight],
                    frameReady[frameInFlight]),
        QueuePresent(renderFinished[frameInFlight], imageIndex)]
    {
      var slot := frameInFlight;
      var cmd := commands[slot];
      EndStep(fences, frameCount);
      fences := SubmitSlot(fences, slot);
      InFlightBounded(fences);
      log := log + [EndCommandBuffer(cmd), QueueSubmit(cmd, imageAvailable[slot], renderFinished[slot], frameReady[slot]),
                    QueuePresent(renderFinished[slot], imageIndex)];
      presented := presented + [imageIndex];
      frameCount := frameCount + 1;
      phase := Idle;
    }

    /** The GPU finishes the frame submitted on `slot`, at any point of the cycle. */
    method GpuComplete(slot: nat)
      requires Valid() && (phase == Idle || phase == InFrame) && slot < |fences| && fences[slot].pending
      modifies this`fences
      ensures Valid()
      ensures fences == old(fences)[slot := FenceSlot(true, false, old(fences)[slot].armed)]
    {
      if phase == Idle {
        CompleteKeepsReady(fences, frameCount, slot);
      } else {
        CompleteKeepsRecording(fences, frameCount, slot);
      }
      fences := CompleteSlot(fences, slot);
    }

    /**
     * Waits for the device to go idle, then destroys the framebuffers, the
     * render pass, each slot's fence and semaphores, the command pool, the
     * swapchain, and the context's debug objects, allocator, device and
     * instance.
     */
    method Shutdown()
      requires Valid() && phase == Idle
      modifies this`fences, this`log, this`phase
      ensures Valid() && phase == ShutDown
      ensures Quiescent(fences) && InFlight(fences) == 0
      ensures log == old(log) + ShutdownEvents(frameBuffers, renderPass, frameReady, imageAvailable,
                                               renderFinished, commandPool, swapchain)
    {
      IdleAfterWait(fences, frameCount);
      fences := WaitIdle(fences);
      var destroyedFramebuffers := DestroyFramebuffers(frameBuffers);
      var destroyedSync := DestroySyncObjects(frameReady, imageAvailable, renderFinished);
      log := log + ([DeviceWaitIdle] + destroyedFramebuffers + [DestroyRenderPass(renderPass)]
                    + destroyedSync + [DestroyCommandPool(commandPool), DestroySwapchain(swapchain)]
                    + CONTEXT_TEARDOWN);
      phase := ShutDown;
    }

    /**
     * The render loop: one BeginFrame / Update / EndFrame per frame, acquiring
     * images[k] and recording into buffers[k] for frame k. Every acquired
     * image is presented, in order.
     */
    method Run(images: seq<nat>, buffers: seq<Handle>)
      requires Valid() && phase == Idle
      requires |buffers| == |images|
      requires forall k | 0 <= k < |images| :: images[k] < |frameBuffers|
      modifies this`frameInFlight, this`fences, this`log, this`imageIndex, this`commands
      modifies this`acquired, this`presented, this`frameCount, this`phase
      ensures Valid() && phase == Idle
      ensures frameCount == old(frameCount) + |images|
      ensures presented == old(presented) + images
      ensures InFlight(fences) <= FRAMES_IN_FLIGHT
    {
      InFlightBounded(fences);
      for k := 0 to |images|
        invariant Valid() && phase == Idle
        invariant frameCount == old(frameCount) + k
        invariant presented == old(presented) + images[..k]
        invariant InFlight(fences) <= FRAMES_IN_FLIGHT
      {
        RenderFrame(images[k], buffers[k]);
        assert images[..k + 1] == images[..k] + [images[k]];
      }
      assert images[..|images|] == images;
    }

    /** One iteration of the render loop. */
    method RenderFrame(image: nat, buffer: Handle)
      requires Valid() && phase == Idle && image < |frameBuffers|
      modifies this`frameInFlight, this`fences, this`log, this`imageIndex, this`commands
      modifies this`acquired, this`presented, this`frameCount, this`phase
      ensures Valid() && phase == Idle && frameBuffers == old(frameBuffers)
      ensures frameCount == old(frameCount) + 1
      ensures presented == old(presented) + [image]
      ensures InFlight(fences) <= FRAMES_IN_FLIGHT
    {
      BeginFrame(image, buffer);
      Update();
      EndFrame();
    }
  }

  /**
   * The sample's main: construct, Init, render one frame per images[k] while
   * the window stays open, then Shut down. Returns the frames rendered and
   * the number of submissions still executing at exit.
   */
  method RunApplication(families: seq<QueueFamilyProperties>, pool: Handle, renderPass: Handle,
                        swapchain: Handle, imageCount: nat,
                        fenceHandles: seq<Handle>, availableHandles: seq<Handle>, finishedHandles: seq<Handle>,
                        framebufferHandles: seq<Handle>, images: seq<nat>, buffers: seq<Handle>)
    returns (frames: nat, inFlight: nat)
    requires |fenceHandles| == FRAMES_IN_FLIGHT && |availableHandles| == FRAMES_IN_FLIGHT
    requires |finishedHandles| == FRAMES_IN_FLIGHT
    requires imageCount > 0 && |framebufferHandles| == imageCount && |buffers| == |images|
    requires forall k | 0 <= k < |images| :: images[k] < imageCount
    ensures frames == |images| && inFlight == 0
  {
    var app := new HelloTriangleApp();
    app.Init(families, pool, renderPass, swapchain, imageCount, fenceHandles, availableHandles, finishedHandles,
             framebufferHandles);
    app.Run(images, buffers);
    frames := app.frameCount;
    app.Shutdown();
    inFlight := InFlight(app.fences);
  }
}
