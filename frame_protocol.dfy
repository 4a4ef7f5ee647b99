/**
 * The frame-slot ring shared by the sample applications: FRAMES_IN_FLIGHT
 * slots, each owning a fence, an image-available semaphore, a render-finished
 * semaphore and a command buffer, used round-robin by frame number.
 *
 * The GPU is not modelled as a concurrent agent. A fence is a boolean; a
 * submission puts its slot in `pending` until an abstract completion step
 * (CompleteSlot, or the completion a blocking wait stands for) signals the
 * fence again. `armed` holds the slots whose last submission the host has not
 * yet waited on.
 */
module FrameProtocol {
  import opened VkTypes

  const FRAMES_IN_FLIGHT: nat := 3

  /** The slot a frame uses: the frame counter modulo FRAMES_IN_FLIGHT. */
  function SlotOf(frame: nat): (slot: nat)
    ensures slot < FRAMES_IN_FLIGHT
    ensures (frame - slot) % FRAMES_IN_FLIGHT == 0
  {
    frame % FRAMES_IN_FLIGHT
  }

  /** Three consecutive frames never share a slot, and the fourth reuses the first's. */
  lemma {:induction false} SlotRing(frame: nat)
    ensures SlotOf(frame) != SlotOf(frame + 1)
    ensures SlotOf(frame) != SlotOf(frame + 2)
    ensures SlotOf(frame + 1) != SlotOf(frame + 2)
    ensures SlotOf(frame + FRAMES_IN_FLIGHT) == SlotOf(frame)
  {
  }

  /** Number of the frames 0 .. frames-1 that used `slot`. */
  function Uses(frames: nat, slot: nat): nat
  {
    if frames == 0 then 0
    else Uses(frames - 1, slot) + (if SlotOf(frames - 1) == slot then 1 else 0)
  }

  /** The ring is balanced: after `frames` frames each slot served frames/3 or frames/3 + 1 of them. */
  lemma {:induction false} UsesBalanced(frames: nat, slot: nat)
    requires slot < FRAMES_IN_FLIGHT
    ensures Uses(frames, slot) == frames / FRAMES_IN_FLIGHT + (if slot < frames % FRAMES_IN_FLIGHT then 1 else 0)
  {
    if frames > 0 {
      UsesBalanced(frames - 1, slot);
      var n := frames - 1;
      assert n % 3 == 2 ==> frames / 3 == n / 3 + 1 && frames % 3 == 0;
      assert n % 3 < 2 ==> frames / 3 == n / 3 && frames % 3 == n % 3 + 1;
    }
  }

  /**
   * Device-side state of one slot's fence: whether it is signalled, whether a
   * submission that will signal it is still executing (`pending`), and
   * whether the host has yet to wait on its last submission (`armed`).
   */
  datatype FenceSlot = FenceSlot(signalled: bool, pending: bool, armed: bool)

  /** The fences of all slots, indexed by slot. */
  type Fences = seq<FenceSlot>

  /** Work in flight is tied to a submission the host has not waited on and leaves its fence unsignalled. */
  predicate SlotConsistent(x: FenceSlot)
  {
    x.pending ==> x.armed && !x.signalled
  }

  /** Waiting on this fence returns: it is signalled, or work in flight will signal it. */
  predicate Live(x: FenceSlot)
  {
    x.signalled || x.pending
  }

  /** Signalled and not waited for: the state of a fence created signalled and never submitted. */
  predicate Fresh(x: FenceSlot)
  {
    x.signalled && !x.armed
  }

  predicate Consistent(f: Fences)
  {
    |f| == FRAMES_IN_FLIGHT && forall s | 0 <= s < |f| :: SlotConsistent(f[s])
  }

  /**
   * Between frames, `frame` frames having been submitted: every fence is live,
   * so no wait can hang, and the slots no frame has used yet are still fresh.
   */
  predicate ReadySlot(x: FenceSlot, s: nat, frame: nat)
  {
    SlotConsistent(x) && Live(x) && (frame <= s ==> Fresh(x))
  }

  predicate Ready(f: Fences, frame: nat)
  {
    |f| == FRAMES_IN_FLIGHT && forall s | 0 <= s < |f| :: ReadySlot(f[s], s, frame)
  }

  /**
   * While frame `frame` records: its slot's fence has been waited on and reset
   * and nothing is outstanding on it; every other slot is as in Ready.
   */
  predicate RecordingSlot(x: FenceSlot, s: nat, frame: nat)
  {
    SlotConsistent(x) &&
    if s == SlotOf(frame) then !x.signalled && !x.armed
    else Live(x) && (frame < s ==> Fresh(x))
  }

  predicate Recording(f: Fences, frame: nat)
  {
    |f| == FRAMES_IN_FLIGHT && forall s | 0 <= s < |f| :: RecordingSlot(f[s], s, frame)
  }

  lemma ReadyConsistent(f: Fences, frame: nat)
    requires Ready(f, frame) || Recording(f, frame)
    ensures Consistent(f)
  {
  }

  /**
   * vkWaitForFences on one slot's fence with an unbounded timeout. An
   * unsignalled fence blocks the host until the GPU finishes that slot's
   * submission, which the model performs as the completion step; afterwards
   * the host has observed the slot. None: the fence is unsignalled and no
   * submission will ever signal it, so the call never returns.
   */
  function WaitFence(f: Fences, slot: nat): (g: Option<Fences>)
    requires Consistent(f) && slot < FRAMES_IN_FLIGHT
    ensures g.Some? <==> Live(f[slot])
    ensures g.Some? ==> Consistent(g.value) && g.value[slot] == FenceSlot(true, false, false)
    ensures g.Some? ==> forall s | 0 <= s < FRAMES_IN_FLIGHT && s != slot :: g.value[s] == f[s]
  {
    if Live(f[slot]) then Some(f[slot := FenceSlot(true, false, false)]) else None
  }

  /** vkResetFences on one slot's fence; Vulkan forbids resetting a fence still tied to pending work. */
  function ResetFence(f: Fences, slot: nat): (g: Fences)
    requires Consistent(f) && slot < FRAMES_IN_FLIGHT && !f[slot].pending
    ensures Consistent(g) && !g[slot].signalled && g[slot].armed == f[slot].armed && !g[slot].pending
    ensures forall s | 0 <= s < FRAMES_IN_FLIGHT && s != slot :: g[s] == f[s]
  {
    f[slot := f[slot].(signalled := false)]
  }

  /**
   * vkQueueSubmit with the slot's fence: the work becomes pending and the fence
   * armed. Vulkan requires the fence to be unsignalled and not in use by
   * another submission.
   */
  function SubmitSlot(f: Fences, slot: nat): (g: Fences)
    requires Consistent(f) && slot < FRAMES_IN_FLIGHT
    requires !f[slot].signalled && !f[slot].pending
    ensures Consistent(g) && g[slot] == FenceSlot(false, true, true)
    ensures forall s | 0 <= s < FRAMES_IN_FLIGHT && s != slot :: g[s] == f[s]
  {
    f[slot := FenceSlot(false, true, true)]
  }

  /** The GPU finishes the submission of `slot` and signals its fence. */
  function CompleteSlot(f: Fences, slot: nat): (g: Fences)
    requires Consistent(f) && slot < FRAMES_IN_FLIGHT && f[slot].pending
    ensures Consistent(g) && g[slot] == FenceSlot(true, false, f[slot].armed)
    ensures forall s | 0 <= s < FRAMES_IN_FLIGHT && s != slot :: g[s] == f[s]
  {
    f[slot := FenceSlot(true, false, f[slot].armed)]
  }

  /** vkDeviceWaitIdle: every submission completes and the host has observed all of them. */
  function WaitIdle(f: Fences): (g: Fences)
    requires Consistent(f)
    ensures Consistent(g)
    ensures forall s | 0 <= s < FRAMES_IN_FLIGHT :: g[s] == FenceSlot(Live(f[s]), false, false)
  {
    seq(FRAMES_IN_FLIGHT, s requires 0 <= s < FRAMES_IN_FLIGHT => FenceSlot(Live(f[s]), false, false))
  }

  /** Number of slots with a submission still executing. */
  function InFlight(f: seq<FenceSlot>): nat
  {
    if |f| == 0 then 0 else InFlight(f[..|f| - 1]) + (if f[|f| - 1].pending then 1 else 0)
  }

  /** Number of slots whose last submission the host has not waited on. */
  function Armed(f: seq<FenceSlot>): nat
  {
    if |f| == 0 then 0 else Armed(f[..|f| - 1]) + (if f[|f| - 1].armed then 1 else 0)
  }

  lemma {:induction false} CountsBounded(f: seq<FenceSlot>)
    requires forall s | 0 <= s < |f| :: SlotConsistent(f[s])
    ensures InFlight(f) <= Armed(f) <= |f|
  {
    if |f| > 0 {
      CountsBounded(f[..|f| - 1]);
    }
  }

  /** At most FRAMES_IN_FLIGHT submissions are outstanding, and never more than the host has not waited on. */
  lemma InFlightBounded(f: Fences)
    requires Consistent(f)
    ensures InFlight(f) <= Armed(f) <= FRAMES_IN_FLIGHT
  {
    CountsBounded(f);
  }

  /** A state with no pending slot has nothing in flight. */
  lemma {:induction false} NothingInFlight(f: seq<FenceSlot>)
    requires forall s | 0 <= s < |f| :: !f[s].pending
    ensures InFlight(f) == 0
  {
    if |f| > 0 {
      NothingInFlight(f[..|f| - 1]);
    }
  }

  /** Every fence signalled and observed, nothing submitted: the state after vkDeviceWaitIdle. */
  predicate Quiescent(f: Fences)
  {
    |f| == FRAMES_IN_FLIGHT && forall s | 0 <= s < |f| :: f[s] == FenceSlot(true, false, false)
  }

  /** Waiting for the device between frames leaves every fence signalled and nothing in flight. */
  lemma IdleAfterWait(f: Fences, frame: nat)
    requires Ready(f, frame)
    ensures Quiescent(WaitIdle(f)) && InFlight(WaitIdle(f)) == 0
  {
    var g := WaitIdle(f);
    forall s | 0 <= s < FRAMES_IN_FLIGHT
      ensures g[s] == FenceSlot(true, false, false)
    {
      assert ReadySlot(f[s], s, frame);
    }
    NothingInFlight(g);
  }

  /** Fences created signalled satisfy Ready before the first frame, and after any number of frames. */
  lemma StartReady(f: Fences, frame: nat)
    requires Quiescent(f)
    ensures Ready(f, frame)
  {
  }

  /** While fewer than FRAMES_IN_FLIGHT frames have been submitted, the fence wait does not block. */
  lemma {:induction false} StartupNeverBlocks(f: Fences, frame: nat)
    requires Ready(f, frame) && frame < FRAMES_IN_FLIGHT
    ensures f[SlotOf(frame)].signalled
  {
    assert SlotOf(frame) == frame;
  }

  /** Waiting on then resetting the active slot's fence takes Ready to Recording. */
  lemma {:induction false} BeginStep(f: Fences, frame: nat)
    requires Ready(f, frame)
    ensures WaitFence(f, SlotOf(frame)).Some?
    ensures !WaitFence(f, SlotOf(frame)).value[SlotOf(frame)].pending
    ensures Recording(ResetFence(WaitFence(f, SlotOf(frame)).value, SlotOf(frame)), frame)
  {
    var t := SlotOf(frame);
    assert Live(f[t]);
    var g := ResetFence(WaitFence(f, t).value, t);
    forall s | 0 <= s < FRAMES_IN_FLIGHT
      ensures RecordingSlot(g[s], s, frame)
    {
      if s != t {
        assert g[s] == f[s];
      }
    }
  }

  /** Submitting the active slot takes Recording back to Ready for the next frame. */
  lemma {:induction false} EndStep(f: Fences, frame: nat)
    requires Recording(f, frame)
    ensures Ready(SubmitSlot(f, SlotOf(frame)), frame + 1)
  {
    var t := SlotOf(frame);
    var g := SubmitSlot(f, t);
    forall s | 0 <= s < FRAMES_IN_FLIGHT
      ensures ReadySlot(g[s], s, frame + 1)
    {
      if s != t {
        assert g[s] == f[s];
      } else {
        assert frame + 1 <= s ==> false;
      }
    }
  }

  /** A GPU completion at any moment keeps Ready. */
  lemma {:induction false} CompleteKeepsReady(f: Fences, frame: nat, slot: nat)
    requires Ready(f, frame) && slot < FRAMES_IN_FLIGHT && f[slot].pending
    ensures Ready(CompleteSlot(f, slot), frame)
  {
    var g := CompleteSlot(f, slot);
    forall s | 0 <= s < FRAMES_IN_FLIGHT
      ensures ReadySlot(g[s], s, frame)
    {
      if s != slot {
        assert g[s] == f[s];
      }
    }
  }

  /** A GPU completion at any moment keeps Recording. */
  lemma {:induction false} CompleteKeepsRecording(f: Fences, frame: nat, slot: nat)
    requires Recording(f, frame) && slot < FRAMES_IN_FLIGHT && f[slot].pending
    ensures Recording(CompleteSlot(f, slot), frame)
  {
    var g := CompleteSlot(f, slot);
    forall s | 0 <= s < FRAMES_IN_FLIGHT
      ensures RecordingSlot(g[s], s, frame)
    {
      if s != slot {
        assert g[s] == f[s];
      }
    }
  }

  /** Driver calls the frame loops issue, in the order they issue them. */
  datatype Event =
    | CreateFence(fence: Handle, flags: Flags)
    | CreateSemaphore(semaphore: Handle)
    | CreateFramebuffer(framebuffer: Handle, image: nat)
    | WaitForFences(fence: Handle)
    | ResetFences(fence: Handle)
    | AcquireNextImage(semaphore: Handle, image: nat)
    | FreeCommandBuffers(buffer: Handle)
    | AllocateCommandBuffers(buffer: Handle)
    | BeginCommandBuffer(buffer: Handle)
    | CmdBeginRenderPass(buffer: Handle, framebuffer: Handle)
    | CmdEndRenderPass(buffer: Handle)
    | EndCommandBuffer(buffer: Handle)
    | QueueSubmit(buffer: Handle, waitSemaphore: Handle, signalSemaphore: Handle, fence: Handle)
    | QueuePresent(semaphore: Handle, image: nat)
    | DeviceWaitIdle
    | DestroyFramebuffer(framebuffer: Handle)
    | DestroyRenderPass(renderPass: Handle)
    | DestroyFence(fence: Handle)
    | DestroySemaphore(semaphore: Handle)
    | DestroyCommandPool(pool: Handle)
    | DestroySwapchain(swapchain: Handle)
    | DestroyDebugReporter
    | DestroyDebugLogger
    | DestroyAllocator
    | DestroyDevice
    | DestroyInstance

  /**
   * Creation of the per-slot synchronisation objects, slot by slot: the fence
   * with the given creation flags, then the two semaphores.
   */
  function SyncCreation(fences: seq<Handle>, first: seq<Handle>, second: seq<Handle>, flags: Flags): (log: seq<Event>)
    requires |first| == |fences| && |second| == |fences|
    ensures |log| == 3 * |fences|
  {
    if |fences| == 0 then []
    else
      var n := |fences| - 1;
      SyncCreation(fences[..n], first[..n], second[..n], flags)
        + [CreateFence(fences[n], flags), CreateSemaphore(first[n]), CreateSemaphore(second[n])]
  }

  /** One CreateFramebuffer per swapchain image, framebuffer i over image i. */
  function FramebufferCreation(frameBuffers: seq<Handle>): (log: seq<Event>)
    ensures |log| == |frameBuffers|
    ensures forall i | 0 <= i < |frameBuffers| :: log[i] == CreateFramebuffer(frameBuffers[i], i)
  {
    if |frameBuffers| == 0 then []
    else
      var n := |frameBuffers| - 1;
      FramebufferCreation(frameBuffers[..n]) + [CreateFramebuffer(frameBuffers[n], n)]
  }

  /**
   * Destruction of the per-slot synchronisation objects, slot by slot: the
   * fence, then the two semaphores in the order given.
   */
  function SyncTeardown(fences: seq<Handle>, first: seq<Handle>, second: seq<Handle>): (log: seq<Event>)
    requires |first| == |fences| && |second| == |fences|
    ensures |log| == 3 * |fences|
    ensures forall e | e in log :: e.DestroyFence? || e.DestroySemaphore?
  {
    if |fences| == 0 then []
    else
      var n := |fences| - 1;
      SyncTeardown(fences[..n], first[..n], second[..n])
        + [DestroyFence(fences[n]), DestroySemaphore(first[n]), DestroySemaphore(second[n])]
  }

  /** One DestroyFramebuffer per framebuffer, in index order. */
  function FramebufferTeardown(frameBuffers: seq<Handle>): (log: seq<Event>)
    ensures |log| == |frameBuffers|
    ensures forall i | 0 <= i < |frameBuffers| :: log[i] == DestroyFramebuffer(frameBuffers[i])
  {
    if |frameBuffers| == 0 then []
    else FramebufferTeardown(frameBuffers[..|frameBuffers| - 1]) + [DestroyFramebuffer(frameBuffers[|frameBuffers| - 1])]
  }

  function FencesDestroyed(log: seq<Event>): nat
  {
    if |log| == 0 then 0
    else FencesDestroyed(log[..|log| - 1]) + (if log[|log| - 1].DestroyFence? then 1 else 0)
  }

  function SemaphoresDestroyed(log: seq<Event>): nat
  {
    if |log| == 0 then 0
    else SemaphoresDestroyed(log[..|log| - 1]) + (if log[|log| - 1].DestroySemaphore? then 1 else 0)
  }

  lemma {:induction false} DestroyedCountsAppend(a: seq<Event>, b: seq<Event>)
    ensures FencesDestroyed(a + b) == FencesDestroyed(a) + FencesDestroyed(b)
    ensures SemaphoresDestroyed(a + b) == SemaphoresDestroyed(a) + SemaphoresDestroyed(b)
  {
    if |b| > 0 {
      var n := |b| - 1;
      assert (a + b)[..|a + b| - 1] == a + b[..n];
      assert (a + b)[|a + b| - 1] == b[n];
      DestroyedCountsAppend(a, b[..n]);
    } else {
      assert a + b == a;
    }
  }

  /** The slot-by-slot teardown destroys one fence and two semaphores per slot. */
  lemma {:induction false} SyncTeardownCounts(fences: seq<Handle>, first: seq<Handle>, second: seq<Handle>)
    requires |first| == |fences| && |second| == |fences|
    ensures FencesDestroyed(SyncTeardown(fences, first, second)) == |fences|
    ensures SemaphoresDestroyed(SyncTeardown(fences, first, second)) == 2 * |fences|
  {
    if |fences| > 0 {
      var n := |fences| - 1;
      var tail := [DestroyFence(fences[n]), DestroySemaphore(first[n]), DestroySemaphore(second[n])];
      SyncTeardownCounts(fences[..n], first[..n], second[..n]);
      DestroyedCountsAppend(SyncTeardown(fences[..n], first[..n], second[..n]), tail);
      assert tail[..2][..1][..0] == [];
      assert FencesDestroyed(tail[..2][..1]) == 1 && SemaphoresDestroyed(tail[..2][..1]) == 0;
      assert FencesDestroyed(tail[..2]) == 1 && SemaphoresDestroyed(tail[..2]) == 1;
      assert FencesDestroyed(tail) == 1 && SemaphoresDestroyed(tail) == 2;
    }
  }

  /** Framebuffer destruction destroys no fence and no semaphore. */
  lemma {:induction false} FramebufferTeardownCounts(frameBuffers: seq<Handle>)
    ensures FencesDestroyed(FramebufferTeardown(frameBuffers)) == 0
    ensures SemaphoresDestroyed(FramebufferTeardown(frameBuffers)) == 0
  {
    if |frameBuffers| > 0 {
      var n := |frameBuffers| - 1;
      FramebufferTeardownCounts(frameBuffers[..n]);
      DestroyedCountsAppend(FramebufferTeardown(frameBuffers[..n]), [DestroyFramebuffer(frameBuffers[n])]);
    }
  }

  /** A log that destroys no fence and no semaphore counts none. */
  lemma {:induction false} NoSyncDestroyed(log: seq<Event>)
    requires forall e | e in log :: !e.DestroyFence? && !e.DestroySemaphore?
    ensures FencesDestroyed(log) == 0 && SemaphoresDestroyed(log) == 0
  {
    if |log| > 0 {
      assert log[|log| - 1] in log;
      assert forall e | e in log[..|log| - 1] :: e in log;
      NoSyncDestroyed(log[..|log| - 1]);
    }
  }

  /** Whether an event destroys an object created from the logical device. */
  predicate DestroysDeviceObject(e: Event)
  {
    || e.DestroyFramebuffer? || e.DestroyRenderPass? || e.DestroyFence? || e.DestroySemaphore?
    || e.DestroyCommandPool? || e.DestroySwapchain? || e.DestroyAllocator?
  }

  /**
   * A teardown in dependency order: it opens with a device-idle wait, no
   * device object is destroyed once the device has been (nor the device
   * twice), and the instance goes last, once.
   */
  predicate HierarchicalTeardown(log: seq<Event>)
  {
    && |log| > 1 && log[0] == DeviceWaitIdle && log[|log| - 1] == DestroyInstance
    && DestroyDevice in log
    && (forall i, j | 0 <= i < j < |log| && log[i] == DestroyDevice ::
          !DestroysDeviceObject(log[j]) && log[j] != DestroyDevice)
    && (forall i | 0 <= i < |log| - 1 :: log[i] != DestroyInstance)
  }

  /**
   * Waiting for the device, destroying device objects, then the device, then
   * at most the debug objects, then the instance, is a dependency-ordered teardown.
   */
  lemma HierarchicalTeardownOf(head: seq<Event>, afterDevice: seq<Event>)
    requires |head| > 0 && head[0] == DeviceWaitIdle
    requires DestroyDevice !in head && DestroyInstance !in head
    requires forall e | e in afterDevice :: e.DestroyDebugReporter? || e.DestroyDebugLogger?
    ensures HierarchicalTeardown(head + [DestroyDevice] + afterDevice + [DestroyInstance])
  {
    var log := head + [DestroyDevice] + afterDevice + [DestroyInstance];
    assert log[|head|] == DestroyDevice;
    forall i, j | 0 <= i < j < |log| && log[i] == DestroyDevice
      ensures !DestroysDeviceObject(log[j]) && log[j] != DestroyDevice
    {
      assert i == |head|;
      if j < |log| - 1 {
        assert log[j] == afterDevice[j - |head| - 1] && afterDevice[j - |head| - 1] in afterDevice;
      }
    }
    forall i | 0 <= i < |log| - 1
      ensures log[i] != DestroyInstance
    {
      if i < |head| {
        assert log[i] == head[i] && head[i] in head;
      } else if i > |head| {
        assert log[i] == afterDevice[i - |head| - 1] && afterDevice[i - |head| - 1] in afterDevice;
      }
    }
  }

  /** A teardown loop over framebuffers, one vkDestroyFramebuffer per entry in index order. */
  method DestroyFramebuffers(frameBuffers: seq<Handle>) returns (log: seq<Event>)
    ensures log == FramebufferTeardown(frameBuffers)
  {
    log := [];
    for i := 0 to |frameBuffers|
      invariant log == FramebufferTeardown(frameBuffers[..i])
    {
      assert frameBuffers[..i + 1][..i] == frameBuffers[..i];
      log := log + [DestroyFramebuffer(frameBuffers[i])];
    }
    assert frameBuffers[..|frameBuffers|] == frameBuffers;
  }

  /** A teardown loop over the slots: the fence, then the two semaphores in the order given. */
  method DestroySyncObjects(fences: seq<Handle>, first: seq<Handle>, second: seq<Handle>) returns (log: seq<Event>)
    requires |first| == |fences| && |second| == |fences|
    ensures log == SyncTeardown(fences, first, second)
  {
    log := [];
    for i := 0 to |fences|
      invariant log == SyncTeardown(fences[..i], first[..i], second[..i])
    {
      assert fences[..i + 1][..i] == fences[..i];
      assert first[..i + 1][..i] == first[..i];
      assert second[..i + 1][..i] == second[..i];
      log := log + [DestroyFence(fences[i]), DestroySemaphore(first[i]), DestroySemaphore(second[i])];
    }
    assert fences[..|fences|] == fences && first[..|fences|] == first && second[..|fences|] == second;
  }
}
