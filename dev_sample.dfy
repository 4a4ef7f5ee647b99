/**
 * The development sample's main: the same three-slot frame ring as the
 * Hello-Triangle application, written inline with local variables, with its
 * own creation and teardown order and a fixed-size framebuffer array.
 *
 * Driver calls are returned as an event log; the driver's handles, the
 * swapchain image acquired each frame and the command buffer allocated each
 * frame are parameters.
 */
module DevSample {
  import opened VkTypes
  import opened FrameProtocol
  import Swapchain
  import Context

  /** Length of the framebuffer array the sample declares. */
  const MAX_FRAMEBUFFERS: nat := 8

  /** Per slot: the image-available semaphore, the frame-finished semaphore, then the fence. */
  function DevSyncCreation(available: seq<Handle>, finished: seq<Handle>, fences: seq<Handle>): (log: seq<Event>)
    requires |finished| == |available| && |fences| == |available|
    ensures |log| == 3 * |available|
  {
    if |available| == 0 then []
    else
      var n := |available| - 1;
      DevSyncCreation(available[..n], finished[..n], fences[..n])
        + [CreateSemaphore(available[n]), CreateSemaphore(finished[n]), CreateFence(fences[n], FENCE_CREATE_SIGNALED_BIT)]
  }

  /**
   * The command buffer slot `frame mod 3` holds when frame `frame` starts:
   * the one frame `frame - 3` allocated, or null before the slot's first use.
   */
  function PreviousBuffer(buffers: seq<Handle>, frame: nat): Handle
    requires frame < |buffers| + FRAMES_IN_FLIGHT
  {
    if frame >= FRAMES_IN_FLIGHT then buffers[frame - FRAMES_IN_FLIGHT] else NULL_HANDLE
  }

  /**
   * When frame k starts, each slot holds the command buffer the previous
   * frame on that slot allocated (null before the slot's first use).
   */
  predicate HoldsPrevious(commands: seq<Handle>, buffers: seq<Handle>, k: nat)
  {
    && |commands| == FRAMES_IN_FLIGHT && k <= |buffers|
    && commands[SlotOf(k)] == PreviousBuffer(buffers, k)
    && commands[SlotOf(k + 1)] == PreviousBuffer(buffers, k + 1)
    && commands[SlotOf(k + 2)] == PreviousBuffer(buffers, k + 2)
  }

  /** Replacing slot k mod 3's buffer by frame k's keeps that correspondence for frame k+1. */
  lemma {:induction false} HoldsPreviousStep(commands: seq<Handle>, buffers: seq<Handle>, k: nat)
    requires HoldsPrevious(commands, buffers, k) && k < |buffers|
    ensures HoldsPrevious(commands[SlotOf(k) := buffers[k]], buffers, k + 1)
  {
    SlotRing(k);
  }

  const FRAME_EVENTS: nat := 11

  /** One pass of the render loop, in issue order. */
  function FrameEvents(fence: Handle, available: Handle, finished: Handle, image: nat,
                       freed: Handle, buffer: Handle, framebuffer: Handle): (log: seq<Event>)
    ensures |log| == FRAME_EVENTS
  {
    [WaitForFences(fence), ResetFences(fence), AcquireNextImage(available, image),
     FreeCommandBuffers(freed), AllocateCommandBuffers(buffer), BeginCommandBuffer(buffer),
     CmdBeginRenderPass(buffer, framebuffer), CmdEndRenderPass(buffer), EndCommandBuffer(buffer),
     QueueSubmit(buffer, available, finished, fence), QueuePresent(finished, image)]
  }

  /** The events of frame k, which uses slot k mod 3. */
  function FrameOf(fences: seq<Handle>, available: seq<Handle>, finished: seq<Handle>, frameBuffers: seq<Handle>,
                   images: seq<nat>, buffers: seq<Handle>, k: nat): seq<Event>
    requires |fences| == FRAMES_IN_FLIGHT && |available| == FRAMES_IN_FLIGHT && |finished| == FRAMES_IN_FLIGHT
    requires |buffers| == |images| && k < |images| && images[k] < |frameBuffers|
  {
    var s := SlotOf(k);
    FrameEvents(fences[s], available[s], finished[s], images[k], PreviousBuffer(buffers, k), buffers[k],
                frameBuffers[images[k]])
  }

  predicate ImagesInRange(images: seq<nat>, imageCount: nat)
  {
    forall k | 0 <= k < |images| :: images[k] < imageCount
  }

  /** The render loop's events, frame by frame, for frames 0 .. |images|-1. */
  function DevFrames(fences: seq<Handle>, available: seq<Handle>, finished: seq<Handle>, frameBuffers: seq<Handle>,
                     images: seq<nat>, buffers: seq<Handle>): (frames: seq<seq<Event>>)
    requires |fences| == FRAMES_IN_FLIGHT && |available| == FRAMES_IN_FLIGHT && |finished| == FRAMES_IN_FLIGHT
    requires |buffers| == |images| && ImagesInRange(images, |frameBuffers|)
    ensures |frames| == |images|
  {
    seq(|images|, k requires 0 <= k < |images| => FrameOf(fences, available, finished, frameBuffers, images, buffers, k))
  }

  /** The frames' events one after another, as the driver sees them. */
  function Concat(frames: seq<seq<Event>>): seq<Event>
  {
    if |frames| == 0 then [] else Concat(frames[..|frames| - 1]) + frames[|frames| - 1]
  }

  /**
   * Within frame k: the wait comes first, the slot's old command buffer is
   * freed before the new one is allocated, and the submission signals the
   * slot's fence.
   */
  lemma FrameOfShape(fences: seq<Handle>, available: seq<Handle>, finished: seq<Handle>,
                     frameBuffers: seq<Handle>, images: seq<nat>, buffers: seq<Handle>, k: nat)
    requires |fences| == FRAMES_IN_FLIGHT && |available| == FRAMES_IN_FLIGHT && |finished| == FRAMES_IN_FLIGHT
    requires |buffers| == |images| && ImagesInRange(images, |frameBuffers|) && k < |images|
    ensures var frame := DevFrames(fences, available, finished, frameBuffers, images, buffers)[k];
      && frame[0] == WaitForFences(fences[SlotOf(k)])
      && frame[3] == FreeCommandBuffers(PreviousBuffer(buffers, k))
      && frame[4] == AllocateCommandBuffers(buffers[k])
      && frame[9] == QueueSubmit(buffers[k], available[SlotOf(k)], finished[SlotOf(k)], fences[SlotOf(k)])
  {
  }

  /**
   * Frame k+3 waits on the fence frame k submitted with, and only then frees
   * exactly the command buffer frame k allocated: a buffer is freed only after
   * the fence its submission signals has been waited on.
   */
  lemma {:induction false} DevFramesFreeAfterWait(fences: seq<Handle>, available: seq<Handle>, finished: seq<Handle>,
                               frameBuffers: seq<Handle>, images: seq<nat>, buffers: seq<Handle>, k: nat)
    requires |fences| == FRAMES_IN_FLIGHT && |available| == FRAMES_IN_FLIGHT && |finished| == FRAMES_IN_FLIGHT
    requires |buffers| == |images| && ImagesInRange(images, |frameBuffers|)
    requires k + FRAMES_IN_FLIGHT < |images|
    ensures var frames := DevFrames(fences, available, finished, frameBuffers, images, buffers);
      && frames[k][4] == AllocateCommandBuffers(buffers[k])
      && frames[k][9] == QueueSubmit(buffers[k], available[SlotOf(k)], finished[SlotOf(k)], fences[SlotOf(k)])
      && frames[k + FRAMES_IN_FLIGHT][0] == WaitForFences(fences[SlotOf(k)])
      && frames[k + FRAMES_IN_FLIGHT][3] == FreeCommandBuffers(buffers[k])
  {
    SlotRing(k);
    FrameOfShape(fences, available, finished, frameBuffers, images, buffers, k);
    FrameOfShape(fences, available, finished, frameBuffers, images, buffers, k + FRAMES_IN_FLIGHT);
  }

  /**
   * One frame's fence traffic: wait on the slot's fence, reset it, and later
   * submit with it. The wait blocks only when the slot's previous
   * submission has not completed, never during the first three frames, and
   * afterwards only the slot's fence has changed.
   */
  method FenceCycle(fences: Fences, frame: nat) returns (blocked: bool, next: Fences)
    requires Ready(fences, frame)
    ensures blocked <==> !fences[SlotOf(frame)].signalled
    ensures frame < FRAMES_IN_FLIGHT ==> !blocked
    ensures next == fences[SlotOf(frame) := FenceSlot(false, true, true)]
    ensures Ready(next, frame + 1)
  {
    var slot := SlotOf(frame);
    BeginStep(fences, frame);
    if frame < FRAMES_IN_FLIGHT {
      StartupNeverBlocks(fences, frame);
    }
    blocked := !fences[slot].signalled;
    var waited := WaitFence(fences, slot);
    next := ResetFence(waited.value, slot);
    EndStep(next, frame);
    next := SubmitSlot(next, slot);
  }

  /**
   * ShutdownVulkan's calls after its device-idle wait: the swapchain, the
   * allocator, the device, then (VKR_DEBUG) the debug objects and the instance.
   */
  function DevContextTeardown(swapchain: Handle): seq<Event>
  {
    [DeviceWaitIdle, DestroySwapchain(swapchain), DestroyAllocator, DestroyDevice,
     DestroyDebugReporter, DestroyDebugLogger, DestroyInstance]
  }

  /**
   * The modelled part of the teardown, as the sample orders it: wait for the
   * device, destroy the render pass, then the framebuffers, the command pool,
   * each slot's fence, frame-finished and image-available objects, and
   * finally ShutdownVulkan's calls.
   */
  function DevShutdownEvents(renderPass: Handle, frameBuffers: seq<Handle>, commandPool: Handle,
                             fences: seq<Handle>, finished: seq<Handle>, available: seq<Handle>,
                             swapchain: Handle): seq<Event>
    requires |finished| == |fences| && |available| == |fences|
  {
    [DeviceWaitIdle, DestroyRenderPass(renderPass)] + FramebufferTeardown(frameBuffers)
      + [DestroyCommandPool(commandPool)] + SyncTeardown(fences, finished, available)
      + DevContextTeardown(swapchain)
  }

  /**
   * Nothing is destroyed before the device is idle, the render pass goes
   * before the framebuffers, the command pool after them, the swapchain after
   * a second device-idle wait, and the device only after every object made
   * from it; the debug objects follow the device and the instance goes last.
   */
  lemma DevShutdownEventsOrder(renderPass: Handle, frameBuffers: seq<Handle>, commandPool: Handle,
                               fences: seq<Handle>, finished: seq<Handle>, available: seq<Handle>,
                               swapchain: Handle)
    requires |finished| == |fences| && |available| == |fences|
    ensures var log := DevShutdownEvents(renderPass, frameBuffers, commandPool, fences, finished, available, swapchain);
      && |log| == |frameBuffers| + 3 * |fences| + 10
      && log[0] == DeviceWaitIdle
      && log[1] == DestroyRenderPass(renderPass)
      && (forall i | 0 <= i < |frameBuffers| :: log[2 + i] == DestroyFramebuffer(frameBuffers[i]))
      && log[2 + |frameBuffers|] == DestroyCommandPool(commandPool)
      && log[|log| - 7..] == DevContextTeardown(swapchain)
      && HierarchicalTeardown(log)
  {
    var log := DevShutdownEvents(renderPass, frameBuffers, commandPool, fences, finished, available, swapchain);
    var head := [DeviceWaitIdle, DestroyRenderPass(renderPass)] + FramebufferTeardown(frameBuffers)
      + [DestroyCommandPool(commandPool)];
    var sync := SyncTeardown(fences, finished, available);
    assert log == head + sync + DevContextTeardown(swapchain);
    forall i | 0 <= i < |frameBuffers|
      ensures log[2 + i] == DestroyFramebuffer(frameBuffers[i])
    {
      assert log[2 + i] == head[2 + i];
    }
    assert log[2 + |frameBuffers|] == head[2 + |frameBuffers|];
    var beforeDevice := head + sync + [DeviceWaitIdle, DestroySwapchain(swapchain), DestroyAllocator];
    assert DestroyDevice !in beforeDevice && DestroyInstance !in beforeDevice by {
      forall e | e in beforeDevice
        ensures e != DestroyDevice && e != DestroyInstance
      {
        if e in head {
          var k :| 0 <= k < |head| && head[k] == e;
          assert k <= 1 || k == |head| - 1 || head[k] == DestroyFramebuffer(frameBuffers[k - 2]);
        }
      }
    }
    assert log == beforeDevice + [DestroyDevice] + [DestroyDebugReporter, DestroyDebugLogger] + [DestroyInstance];
    HierarchicalTeardownOf(beforeDevice, [DestroyDebugReporter, DestroyDebugLogger]);
  }

  /** All three fences and all six semaphores are destroyed, each once. */
  lemma DevShutdownEventsCounts(renderPass: Handle, frameBuffers: seq<Handle>, commandPool: Handle,
                                fences: seq<Handle>, finished: seq<Handle>, available: seq<Handle>,
                                swapchain: Handle)
    requires |finished| == |fences| && |available| == |fences|
    ensures var log := DevShutdownEvents(renderPass, frameBuffers, commandPool, fences, finished, available, swapchain);
      && FencesDestroyed(log) == |fences|
      && SemaphoresDestroyed(log) == 2 * |fences|
  {
    var a := [DeviceWaitIdle, DestroyRenderPass(renderPass)];
    var b := FramebufferTeardown(frameBuffers);
    var c := [DestroyCommandPool(commandPool)];
    var d := SyncTeardown(fences, finished, available);
    var e := DevContextTeardown(swapchain);
    assert DevShutdownEvents(renderPass, frameBuffers, commandPool, fences, finished, available, swapchain)
      == a + b + c + d + e;
    assert e == [e[0], e[1], e[2], e[3], e[4], e[5], e[6]];
    NoSyncDestroyed(a);
    NoSyncDestroyed(c);
    NoSyncDestroyed(e);
    FramebufferTeardownCounts(frameBuffers);
    SyncTeardownCounts(fences, finished, available);
    DestroyedCountsAppend(a, b);
    DestroyedCountsAppend(a + b, c);
    DestroyedCountsAppend(a + b + c, d);
    DestroyedCountsAppend(a + b + c + d, e);
  }

  /**
   * The framebuffer array as declared: eight entries, filled for each
   * swapchain image. Defined only while the image count fits.
   */
  method CreateFramebuffersFixed(imageCount: nat, handles: seq<Handle>) returns (frameBuffers: array<Handle>)
    requires |handles| == imageCount
    requires imageCount <= MAX_FRAMEBUFFERS
    ensures frameBuffers.Length == MAX_FRAMEBUFFERS && frameBuffers[..imageCount] == handles
  {
    frameBuffers := new Handle[MAX_FRAMEBUFFERS](_ => NULL_HANDLE);
    for i := 0 to imageCount
      invariant frameBuffers[..i] == handles[..i]
    {
      frameBuffers[i] := handles[i];
      assert frameBuffers[..i + 1] == frameBuffers[..i] + [handles[i]];
      assert handles[..i + 1] == handles[..i] + [handles[i]];
    }
    assert handles[..imageCount] == handles;
  }

  /**
   * A surface reporting a minimum of eight images and no maximum makes the
   * swapchain ask for nine, one more than the array holds.
   */
  lemma FixedFramebufferArrayOverflows()
    ensures Swapchain.SelectImageCount(Swapchain.SurfaceCapabilities(8, 0, 0)) > MAX_FRAMEBUFFERS
  {
  }

  /** The array sized to the swapchain: one framebuffer per image, whatever the count. */
  method CreateFramebuffers(handles: seq<Handle>) returns (frameBuffers: array<Handle>)
    ensures fresh(frameBuffers)
    ensures frameBuffers[..] == handles
  {
    frameBuffers := new Handle[|handles|](_ => NULL_HANDLE);
    for i := 0 to |handles|
      invariant frameBuffers[..i] == handles[..i]
    {
      frameBuffers[i] := handles[i];
      assert frameBuffers[..i + 1] == frameBuffers[..i] + [handles[i]];
      assert handles[..i + 1] == handles[..i] + [handles[i]];
    }
    assert frameBuffers[..] == frameBuffers[..|handles|];
  }

  /** The creation loop: per slot two semaphores and a fence created signalled, so no fence starts out busy. */
  method CreateSyncObjects(available: seq<Handle>, finished: seq<Handle>, fences: seq<Handle>)
    returns (log: seq<Event>, created: Fences)
    requires |available| == FRAMES_IN_FLIGHT && |finished| == FRAMES_IN_FLIGHT && |fences| == FRAMES_IN_FLIGHT
    ensures log == DevSyncCreation(available, finished, fences)
    ensures Quiescent(created)
  {
    log := [];
    created := [];
    var info := Context.CreateFence(true);
    for i := 0 to FRAMES_IN_FLIGHT
      invariant log == DevSyncCreation(available[..i], finished[..i], fences[..i])
      invariant |created| == i && forall j | 0 <= j < i :: created[j] == FenceSlot(true, false, false)
    {
      assert available[..i + 1][..i] == available[..i];
      assert finished[..i + 1][..i] == finished[..i];
      assert fences[..i + 1][..i] == fences[..i];
      log := log + [CreateSemaphore(available[i]), CreateSemaphore(finished[i]), CreateFence(fences[i], info.flags)];
      created := created + [FenceSlot(info.flags & FENCE_CREATE_SIGNALED_BIT != 0, false, false)];
    }
    assert available[..FRAMES_IN_FLIGHT] == available;
    assert finished[..FRAMES_IN_FLIGHT] == finished;
    assert fences[..FRAMES_IN_FLIGHT] == fences;
  }

  /**
   * The render loop: per frame, wait on and reset the slot's fence, acquire
   * images[k], replace the slot's command buffer by buffers[k], record the
   * render pass into that image's framebuffer, submit with the slot's fence
   * and present. `blocked[k]` tells whether frame k's wait had to let the GPU
   * finish earlier work; the first three frames never do. At exit at most
   * three submissions are still executing.
   */
  method RenderLoop(fenceHandles: seq<Handle>, available: seq<Handle>, finished: seq<Handle>,
                    frameBuffers: seq<Handle>, images: seq<nat>, buffers: seq<Handle>, created: Fences)
    returns (frames: seq<seq<Event>>, blocked: seq<bool>, fences: Fences)
    requires |fenceHandles| == FRAMES_IN_FLIGHT && |available| == FRAMES_IN_FLIGHT && |finished| == FRAMES_IN_FLIGHT
    requires |buffers| == |images| && ImagesInRange(images, |frameBuffers|)
    requires Quiescent(created)
    ensures frames == DevFrames(fenceHandles, available, finished, frameBuffers, images, buffers)
    ensures |blocked| == |images| && forall k | 0 <= k < |images| && k < FRAMES_IN_FLIGHT :: !blocked[k]
    ensures Ready(fences, |images|)
    ensures InFlight(fences) <= FRAMES_IN_FLIGHT
  {
    fences := created;
    StartReady(fences, 0);
    var commands := [NULL_HANDLE, NULL_HANDLE, NULL_HANDLE];
    frames := [];
    blocked := [];
    for k := 0 to |images|
      invariant Ready(fences, k)
      invariant HoldsPrevious(commands, buffers, k)
      invariant |blocked| == k && forall m | 0 <= m < k && m < FRAMES_IN_FLIGHT :: !blocked[m]
      invariant |frames| == k
      invariant forall m | 0 <= m < k :: frames[m] == FrameOf(fenceHandles, available, finished, frameBuffers, images, buffers, m)
    {
      var slot := SlotOf(k);
      var waitBlocked;
      waitBlocked, fences := FenceCycle(fences, k);
      blocked := blocked + [waitBlocked];
      var freed := commands[slot];
      HoldsPreviousStep(commands, buffers, k);
      commands := commands[slot := buffers[k]];
      frames := frames + [FrameEvents(fenceHandles[slot], available[slot], finished[slot], images[k], freed, buffers[k],
                                      frameBuffers[images[k]])];
    }
    InFlightBounded(fences);
  }

  /**
   * The sample's main, from the synchronisation objects to the final
   * teardown. Returns the driver calls issued, per frame whether its fence
   * wait blocked, and how many submissions were still executing once the
   * device had been waited on (none).
   */
  method DevMain(available: seq<Handle>, finished: seq<Handle>, fenceHandles: seq<Handle>, commandPool: Handle,
                 renderPass: Handle, framebufferHandles: seq<Handle>, swapchain: Handle,
                 images: seq<nat>, buffers: seq<Handle>)
    returns (log: seq<Event>, blocked: seq<bool>, inFlight: nat)
    requires |available| == FRAMES_IN_FLIGHT && |finished| == FRAMES_IN_FLIGHT && |fenceHandles| == FRAMES_IN_FLIGHT
    requires |buffers| == |images| && ImagesInRange(images, |framebufferHandles|)
    ensures |blocked| == |images| && forall k | 0 <= k < |images| && k < FRAMES_IN_FLIGHT :: !blocked[k]
    ensures inFlight == 0
    ensures log == DevSyncCreation(available, finished, fenceHandles)
      + FramebufferCreation(framebufferHandles)
      + Concat(DevFrames(fenceHandles, available, finished, framebufferHandles, images, buffers))
      + DevShutdownEvents(renderPass, framebufferHandles, commandPool, fenceHandles, finished, available, swapchain)
  {
    var created, initial := CreateSyncObjects(available, finished, fenceHandles);
    var frameBuffers := CreateFramebuffers(framebufferHandles);
    var frames, fences;
    frames, blocked, fences := RenderLoop(fenceHandles, available, finished, frameBuffers[..], images, buffers, initial);
    IdleAfterWait(fences, |images|);
    fences := WaitIdle(fences);
    inFlight := InFlight(fences);
    var destroyedFramebuffers := DestroyFramebuffers(frameBuffers[..]);
    var destroyedSync := DestroySyncObjects(fenceHandles, finished, available);
    log := created + FramebufferCreation(framebufferHandles) + Concat(frames)
      + ([DeviceWaitIdle, DestroyRenderPass(renderPass)] + destroyedFramebuffers
         + [DestroyCommandPool(commandPool)] + destroyedSync + DevContextTeardown(swapchain));
  }
}
