/**
 * The mesh-rendering sample's Renderer: one semaphore shared by acquire and
 * present, the acquired image index handed from BeginFrame to EndFrame, and
 * the swapchain-sized resources (three render targets, one render pass, one
 * framebuffer per swapchain image) created and destroyed around the
 * swapchain object it owns.
 */
module MeshRenderer {
  import opened VkTypes
  import opened VkHelpers
  import Swapchain

  // VkSampleCountFlagBits
  const SAMPLE_COUNT_1_BIT: Flags := 0x1
  const SAMPLE_COUNT_4_BIT: Flags := 0x4

  // VkImageUsageFlagBits
  const IMAGE_USAGE_COLOR_ATTACHMENT_BIT: Flags := 0x10
  const IMAGE_USAGE_DEPTH_STENCIL_ATTACHMENT_BIT: Flags := 0x20

  datatype Extent = Extent(width: nat, height: nat)
  datatype Scissor = Scissor(x: int, y: int, extent: Extent)
  datatype Viewport = Viewport(x: real, y: real, width: real, height: real, minDepth: real, maxDepth: real)

  datatype ImageLayout = LayoutUndefined | ColourAttachmentOptimal | DepthStencilAttachmentOptimal | PresentSrc

  /** The parts of VkAttachmentDescription that differ between the three attachments. */
  datatype AttachmentDescription = AttachmentDescription(format: Format, samples: Flags, finalLayout: ImageLayout)

  /** An image, its memory allocation and its view. */
  datatype ImageResource = ImageResource(image: Handle, allocation: Handle, view: Handle)

  /** Driver calls made by the renderer itself; the swapchain object keeps its own log. */
  datatype RendererEvent =
    | CreateImage(image: Handle, extent: Extent, samples: Flags, format: Format, usage: Flags)
    | CreateImageView(image: Handle, format: Format, aspect: Flags, view: Handle)
    | CreateRenderPass(descriptions: seq<AttachmentDescription>, renderPass: Handle)
    | CreateFramebuffer(extent: Extent, renderPass: Handle, attachments: seq<Handle>, framebuffer: Handle)
    | CreateSemaphore(semaphore: Handle)
    | AcquireNextImage(swapchain: Handle, semaphore: Handle, image: nat)
    | DestroyFramebuffer(framebuffer: Handle)
    | DestroyRenderPass(renderPass: Handle)
    | DestroyImageView(view: Handle)
    | DestroyImage(image: Handle, allocation: Handle)
    | DestroySemaphore(semaphore: Handle)
    | DestroySwapchainObject(swapchain: Handle)

  /**
   * The render pass's attachments: multisampled colour, multisampled depth in
   * the device's depth format, and the single-sample resolve target that is
   * presented.
   */
  function Attachments(samples: Flags, depthFormat: Format): seq<AttachmentDescription>
  {
    [AttachmentDescription(B8G8R8A8Unorm, samples, ColourAttachmentOptimal),
     AttachmentDescription(depthFormat, samples, DepthStencilAttachmentOptimal),
     AttachmentDescription(B8G8R8A8Unorm, SAMPLE_COUNT_1_BIT, PresentSrc)]
  }

  /** One render target: the image at the window's extent, then its view. */
  function TargetCreation(extent: Extent, target: ImageResource, format: Format, usage: Flags, samples: Flags,
                          aspect: Flags): seq<RendererEvent>
  {
    [CreateImage(target.image, extent, samples, format, usage), CreateImageView(target.image, format, aspect, target.view)]
  }

  /** The colour, depth and resolve targets, in that order. */
  function RenderTargetCreation(extent: Extent, samples: Flags, depthFormat: Format, targets: seq<ImageResource>)
    : (log: seq<RendererEvent>)
    requires |targets| == 3
  {
    TargetCreation(extent, targets[0], B8G8R8A8Unorm, IMAGE_USAGE_COLOR_ATTACHMENT_BIT, samples, IMAGE_ASPECT_COLOR_BIT)
    + TargetCreation(extent, targets[1], depthFormat, IMAGE_USAGE_DEPTH_STENCIL_ATTACHMENT_BIT, samples, IMAGE_ASPECT_DEPTH_BIT)
    + TargetCreation(extent, targets[2], B8G8R8A8Unorm, IMAGE_USAGE_COLOR_ATTACHMENT_BIT, SAMPLE_COUNT_1_BIT,
                     IMAGE_ASPECT_COLOR_BIT)
  }

  /** One framebuffer per swapchain image, attaching the colour view, the depth view and that image's view. */
  function FramebufferCreation(extent: Extent, renderPass: Handle, colourView: Handle, depthView: Handle,
                               imageViews: seq<Handle>, framebuffers: seq<Handle>): (log: seq<RendererEvent>)
    requires |framebuffers| == |imageViews|
    ensures |log| == |imageViews|
  {
    if |imageViews| == 0 then []
    else
      var n := |imageViews| - 1;
      FramebufferCreation(extent, renderPass, colourView, depthView, imageViews[..n], framebuffers[..n])
      + [CreateFramebuffer(extent, renderPass, [colourView, depthView, imageViews[n]], framebuffers[n])]
  }

  function FramebufferDestruction(framebuffers: seq<Handle>): (log: seq<RendererEvent>)
    ensures |log| == |framebuffers|
  {
    if |framebuffers| == 0 then []
    else FramebufferDestruction(framebuffers[..|framebuffers| - 1]) + [DestroyFramebuffer(framebuffers[|framebuffers| - 1])]
  }

  /** Each target's view, then its image. */
  function TargetDestruction(targets: seq<ImageResource>): (log: seq<RendererEvent>)
    ensures |log| == 2 * |targets|
  {
    if |targets| == 0 then []
    else
      var t := targets[|targets| - 1];
      TargetDestruction(targets[..|targets| - 1]) + [DestroyImageView(t.view), DestroyImage(t.image, t.allocation)]
  }

  /** DestroySwapchain's calls: framebuffers, render pass, render targets, then the swapchain object. */
  function SwapchainTeardown(framebuffers: seq<Handle>, renderPass: Handle, targets: seq<ImageResource>,
                             swapchain: Handle): seq<RendererEvent>
  {
    FramebufferDestruction(framebuffers) + [DestroyRenderPass(renderPass)] + TargetDestruction(targets)
    + [DestroySwapchainObject(swapchain)]
  }

  /** The framebuffers a log creates, in order. */
  function CreatedFramebuffers(log: seq<RendererEvent>): seq<Handle>
  {
    if |log| == 0 then []
    else
      var last := log[|log| - 1];
      CreatedFramebuffers(log[..|log| - 1]) + (if last.CreateFramebuffer? then [last.framebuffer] else [])
  }

  /** The framebuffers a log destroys, in order. */
  function DestroyedFramebuffers(log: seq<RendererEvent>): seq<Handle>
  {
    if |log| == 0 then []
    else
      var last := log[|log| - 1];
      DestroyedFramebuffers(log[..|log| - 1]) + (if last.DestroyFramebuffer? then [last.framebuffer] else [])
  }

  lemma {:induction false} FramebuffersAppend(a: seq<RendererEvent>, b: seq<RendererEvent>)
    ensures CreatedFramebuffers(a + b) == CreatedFramebuffers(a) + CreatedFramebuffers(b)
    ensures DestroyedFramebuffers(a + b) == DestroyedFramebuffers(a) + DestroyedFramebuffers(b)
  {
    if |b| == 0 {
      assert a + b == a;
    } else {
      var n := |b| - 1;
      assert (a + b)[..|a + b| - 1] == a + b[..n];
      assert (a + b)[|a + b| - 1] == b[n];
      FramebuffersAppend(a, b[..n]);
    }
  }

  /** Creation makes exactly the given framebuffers, in order. */
  lemma {:induction false} FramebufferCreationMakes(extent: Extent, renderPass: Handle, colourView: Handle,
                                                    depthView: Handle, imageViews: seq<Handle>, framebuffers: seq<Handle>)
    requires |framebuffers| == |imageViews|
    ensures CreatedFramebuffers(FramebufferCreation(extent, renderPass, colourView, depthView, imageViews, framebuffers))
      == framebuffers
  {
    if |imageViews| > 0 {
      var n := |imageViews| - 1;
      var last := CreateFramebuffer(extent, renderPass, [colourView, depthView, imageViews[n]], framebuffers[n]);
      FramebufferCreationMakes(extent, renderPass, colourView, depthView, imageViews[..n], framebuffers[..n]);
      FramebuffersAppend(FramebufferCreation(extent, renderPass, colourView, depthView, imageViews[..n], framebuffers[..n]),
                         [last]);
      assert CreatedFramebuffers([last]) == [framebuffers[n]] by {
        assert [last][..0] == [];
      }
      assert framebuffers[..n] + [framebuffers[n]] == framebuffers;
    }
  }

  /** Framebuffer i attaches the colour view, the depth view and image view i, in that order. */
  lemma {:induction false} FramebufferCreationShape(extent: Extent, renderPass: Handle, colourView: Handle,
                                                    depthView: Handle, imageViews: seq<Handle>, framebuffers: seq<Handle>)
    requires |framebuffers| == |imageViews|
    ensures forall i | 0 <= i < |imageViews| ::
      FramebufferCreation(extent, renderPass, colourView, depthView, imageViews, framebuffers)[i]
        == CreateFramebuffer(extent, renderPass, [colourView, depthView, imageViews[i]], framebuffers[i])
  {
    if |imageViews| > 0 {
      var n := |imageViews| - 1;
      FramebufferCreationShape(extent, renderPass, colourView, depthView, imageViews[..n], framebuffers[..n]);
    }
  }

  /** Destruction destroys exactly the given framebuffers, in order. */
  lemma {:induction false} FramebufferDestructionDestroys(framebuffers: seq<Handle>)
    ensures DestroyedFramebuffers(FramebufferDestruction(framebuffers)) == framebuffers
  {
    if |framebuffers| > 0 {
      var n := |framebuffers| - 1;
      FramebufferDestructionDestroys(framebuffers[..n]);
      FramebuffersAppend(FramebufferDestruction(framebuffers[..n]), [DestroyFramebuffer(framebuffers[n])]);
      assert [DestroyFramebuffer(framebuffers[n])][..0] == [];
      assert framebuffers[..n] + [framebuffers[n]] == framebuffers;
    }
  }

  /** DestroySwapchain destroys exactly the framebuffers CreateSwapchain made, in creation order. */
  lemma FramebuffersBalanced(extent: Extent, renderPass: Handle, colourView: Handle, depthView: Handle,
                             imageViews: seq<Handle>, framebuffers: seq<Handle>)
    requires |framebuffers| == |imageViews|
    ensures CreatedFramebuffers(FramebufferCreation(extent, renderPass, colourView, depthView, imageViews, framebuffers))
      == DestroyedFramebuffers(FramebufferDestruction(framebuffers))
  {
    FramebufferCreationMakes(extent, renderPass, colourView, depthView, imageViews, framebuffers);
    FramebufferDestructionDestroys(framebuffers);
  }

  lemma {:induction false} TargetDestructionShape(targets: seq<ImageResource>)
    ensures forall i | 0 <= i < |targets| ::
      && TargetDestruction(targets)[2 * i] == DestroyImageView(targets[i].view)
      && TargetDestruction(targets)[2 * i + 1] == DestroyImage(targets[i].image, targets[i].allocation)
  {
    if |targets| > 0 {
      TargetDestructionShape(targets[..|targets| - 1]);
    }
  }

  lemma {:induction false} FramebufferDestructionShape(framebuffers: seq<Handle>)
    ensures forall i | 0 <= i < |framebuffers| :: FramebufferDestruction(framebuffers)[i] == DestroyFramebuffer(framebuffers[i])
  {
    if |framebuffers| > 0 {
      FramebufferDestructionShape(framebuffers[..|framebuffers| - 1]);
    }
  }

  /**
   * DestroySwapchain's order: every framebuffer, then the render pass, then
   * each render target's view and image, then the swapchain; and no
   * semaphore is ever destroyed.
   */
  lemma TeardownOrder(framebuffers: seq<Handle>, renderPass: Handle, targets: seq<ImageResource>, swapchain: Handle)
    ensures var log := SwapchainTeardown(framebuffers, renderPass, targets, swapchain);
      && |log| == |framebuffers| + 2 * |targets| + 2
      && (forall i | 0 <= i < |framebuffers| :: log[i] == DestroyFramebuffer(framebuffers[i]))
      && log[|framebuffers|] == DestroyRenderPass(renderPass)
      && (forall i | 0 <= i < |targets| ::
            && log[|framebuffers| + 1 + 2 * i] == DestroyImageView(targets[i].view)
            && log[|framebuffers| + 2 + 2 * i] == DestroyImage(targets[i].image, targets[i].allocation))
      && log[|log| - 1] == DestroySwapchainObject(swapchain)
      && forall i | 0 <= i < |log| :: !log[i].DestroySemaphore?
  {
    FramebufferDestructionShape(framebuffers);
    TargetDestructionShape(targets);
    TargetDestructionKinds(targets);
    var f, t := FramebufferDestruction(framebuffers), TargetDestruction(targets);
    var log := f + [DestroyRenderPass(renderPass)] + t + [DestroySwapchainObject(swapchain)];
    assert forall i | |f| + 1 <= i < |f| + 1 + |t| :: log[i] == t[i - |f| - 1];
    assert forall i | 0 <= i < |f| :: log[i] == f[i];
  }

  /** Target destruction only destroys views and images. */
  lemma {:induction false} TargetDestructionKinds(targets: seq<ImageResource>)
    ensures forall i | 0 <= i < |TargetDestruction(targets)| ::
      TargetDestruction(targets)[i].DestroyImageView? || TargetDestruction(targets)[i].DestroyImage?
  {
    if |targets| > 0 {
      TargetDestructionKinds(targets[..|targets| - 1]);
    }
  }

  /** Builds the framebuffers one image at a time. */
  method CreateFramebuffers(extent: Extent, renderPass: Handle, colourView: Handle, depthView: Handle,
                            imageViews: seq<Handle>, framebufferHandles: seq<Handle>)
    returns (log: seq<RendererEvent>)
    requires |framebufferHandles| == |imageViews|
    ensures log == FramebufferCreation(extent, renderPass, colourView, depthView, imageViews, framebufferHandles)
  {
    log := [];
    for i := 0 to |imageViews|
      invariant log == FramebufferCreation(extent, renderPass, colourView, depthView, imageViews[..i], framebufferHandles[..i])
    {
      assert imageViews[..i + 1][..i] == imageViews[..i] && framebufferHandles[..i + 1][..i] == framebufferHandles[..i];
      log := log + [CreateFramebuffer(extent, renderPass, [colourView, depthView, imageViews[i]], framebufferHandles[i])];
    }
    assert imageViews[..|imageViews|] == imageViews && framebufferHandles[..|imageViews|] == framebufferHandles;
  }

  /** Destroys the framebuffers of the first `count` swapchain images. */
  method DestroyFramebuffers(framebuffers: seq<Handle>) returns (log: seq<RendererEvent>)
    ensures log == FramebufferDestruction(framebuffers)
  {
    log := [];
    for i := 0 to |framebuffers|
      invariant log == FramebufferDestruction(framebuffers[..i])
    {
      assert framebuffers[..i + 1][..i] == framebuffers[..i];
      log := log + [DestroyFramebuffer(framebuffers[i])];
    }
    assert framebuffers[..|framebuffers|] == framebuffers;
  }

  /** DestroyImageResource for every render target, in order. */
  method DestroyRenderTargets(targets: seq<ImageResource>) returns (log: seq<RendererEvent>)
    ensures log == TargetDestruction(targets)
  {
    log := [];
    for i := 0 to |targets|
      invariant log == TargetDestruction(targets[..i])
    {
      assert targets[..i + 1][..i] == targets[..i];
      log := log + [DestroyImageView(targets[i].view), DestroyImage(targets[i].image, targets[i].allocation)];
    }
    assert targets[..|targets|] == targets;
  }

  class Renderer {
    /** The swapchain object the renderer owns. */
    const swapchain: Swapchain.VkSwapchain
    var msaaSamples: Flags
    var queueFamilyIndex: nat
    var queue: Handle
    var semaphore: Handle
    var imageIndex: nat
    var viewport: Viewport
    var scissor: Scissor
    var renderTargets: seq<ImageResource>
    var renderPass: Handle
    var frameBuffers: seq<Handle>
    /** Driver calls the renderer made so far. */
    ghost var log: seq<RendererEvent>

    /** One framebuffer per swapchain image, so DestroySwapchain's loop stays in bounds. */
    ghost predicate Valid()
      reads this, swapchain
    {
      swapchain.Valid() && |frameBuffers| == |swapchain.images|
    }

    /** Every handle starts out null; the renderer owns a fresh, empty swapchain object. */
    constructor ()
      ensures Valid() && fresh(swapchain)
      ensures semaphore == NULL_HANDLE && renderPass == NULL_HANDLE && frameBuffers == [] && renderTargets == []
      ensures log == [] && swapchain.log == []
    {
      swapchain := new Swapchain.VkSwapchain();
      msaaSamples := SAMPLE_COUNT_1_BIT;
      queueFamilyIndex := 0;
      queue := NULL_HANDLE;
      semaphore := NULL_HANDLE;
      imageIndex := 0;
      viewport := Viewport(0.0, 0.0, 0.0, 0.0, 0.0, 0.0);
      scissor := Scissor(0, 0, Extent(0, 0));
      renderTargets := [];
      renderPass := NULL_HANDLE;
      frameBuffers := [];
      log := [];
    }

    /**
     * 4x MSAA, the graphics queue family and its queue, the swapchain and
     * its resources, then the one semaphore. `deviceQueue`, `newSemaphore` and
     * the remaining parameters are the driver's answers.
     */
    method Init(families: seq<QueueFamilyProperties>, deviceQueue: Handle, width: nat, height: nat,
                driver: Swapchain.DriverAnswers, depthQuery: Format -> FormatProperties,
                targets: seq<ImageResource>, newRenderPass: Handle, framebufferHandles: seq<Handle>,
                newSemaphore: Handle)
      requires Valid()
      requires |driver.views| == |driver.images| && |targets| == 3 && |framebufferHandles| == |driver.images|
      modifies this`msaaSamples, this`queueFamilyIndex, this`queue, this`semaphore
      modifies this`viewport, this`scissor, this`renderTargets, this`renderPass, this`frameBuffers, this`log, swapchain
      ensures Valid()
      ensures msaaSamples == SAMPLE_COUNT_4_BIT && queueFamilyIndex == FindQueueFamilyIndex(families, QUEUE_GRAPHICS_BIT)
      ensures queue == deviceQueue && semaphore == newSemaphore
      ensures frameBuffers == framebufferHandles && |frameBuffers| == |swapchain.images|
      ensures swapchain.log == old(swapchain.log) + Swapchain.CreationLog(width, height, queueFamilyIndex, driver)
      ensures log == old(log)
        + SwapchainResourceCreation(Extent(width, height), SAMPLE_COUNT_4_BIT, FindDepthFormat(depthQuery), targets,
                                    newRenderPass, driver.views, framebufferHandles)
        + [CreateSemaphore(newSemaphore)]
    {
      msaaSamples, queueFamilyIndex, queue :=
        SAMPLE_COUNT_4_BIT, FindQueueFamilyIndex(families, QUEUE_GRAPHICS_BIT), deviceQueue;
      CreateSwapchain(width, height, driver, depthQuery, targets, newRenderPass, framebufferHandles);
      semaphore := newSemaphore;
      log := log + [CreateSemaphore(newSemaphore)];
    }

    /** The shutdown tears the swapchain resources down and nothing else: the semaphore is left alive. */
    method Shutdown()
      requires Valid()
      modifies this`log, swapchain`log
      ensures log == old(log) + SwapchainTeardown(frameBuffers, renderPass, renderTargets, swapchain.swapchain)
      ensures swapchain.log == old(swapchain.log) + Swapchain.ViewDestruction(swapchain.imageViews)
        + [Swapchain.DestroySwapchainKHR(swapchain.swapchain), Swapchain.DestroySurface(swapchain.surface)]
    {
      DestroySwapchain();
    }

    /** Acquires the next image, signalling the renderer's one semaphore, and keeps its index for EndFrame. */
    method BeginFrame(acquiredImage: nat)
      modifies this`imageIndex, this`log
      ensures imageIndex == acquiredImage
      ensures log == old(log) + [AcquireNextImage(swapchain.swapchain, semaphore, acquiredImage)]
    {
      imageIndex := acquiredImage;
      log := log + [AcquireNextImage(swapchain.swapchain, semaphore, acquiredImage)];
    }

    /** Presents the index BeginFrame stored, waiting on the same semaphore the acquire signals. */
    method EndFrame(driverResult: VkResult)
      modifies swapchain`log
      ensures swapchain.log == old(swapchain.log) + [Swapchain.QueuePresent(queue, semaphore, swapchain.swapchain, imageIndex)]
    {
      var _ := swapchain.Present(queue, semaphore, imageIndex, driverResult);
    }

    /**
     * The window's extent becomes the viewport and scissor; the swapchain is
     * created; the colour, depth and resolve targets, the render pass and one
     * framebuffer per swapchain image follow.
     */
    method CreateSwapchain(width: nat, height: nat, driver: Swapchain.DriverAnswers,
                           depthQuery: Format -> FormatProperties, targets: seq<ImageResource>,
                           newRenderPass: Handle, framebufferHandles: seq<Handle>)
      requires Valid()
      requires |driver.views| == |driver.images| && |targets| == 3 && |framebufferHandles| == |driver.images|
      modifies this`viewport, this`scissor, this`renderTargets, this`renderPass, this`frameBuffers, this`log, swapchain
      ensures Valid()
      ensures swapchain.images == driver.images && swapchain.imageViews == driver.views
      ensures swapchain.log == old(swapchain.log) + Swapchain.CreationLog(width, height, queueFamilyIndex, driver)
      ensures viewport == Viewport(0.0, 0.0, width as real, height as real, 0.0, 1.0)
      ensures scissor == Scissor(0, 0, Extent(width, height))
      ensures renderTargets == targets && renderPass == newRenderPass && frameBuffers == framebufferHandles
      ensures log == old(log)
        + SwapchainResourceCreation(Extent(width, height), msaaSamples, FindDepthFormat(depthQuery), targets,
                                    newRenderPass, driver.views, framebufferHandles)
    {
      var _ := swapchain.Create(width, height, queueFamilyIndex, driver);
      viewport, scissor := Viewport(0.0, 0.0, width as real, height as real, 0.0, 1.0), Scissor(0, 0, Extent(width, height));
      CreateRenderPassAndFramebuffers(Extent(width, height), FindDepthFormat(depthQuery), targets, newRenderPass,
                                      framebufferHandles);
    }

    /** CreateSwapchain once the swapchain exists: the three render targets, the render pass, one framebuffer per image. */
    method CreateRenderPassAndFramebuffers(extent: Extent, depthFormat: Format, targets: seq<ImageResource>,
                                           newRenderPass: Handle, framebufferHandles: seq<Handle>)
      requires swapchain.Valid() && |targets| == 3 && |framebufferHandles| == |swapchain.imageViews|
      modifies this`renderTargets, this`renderPass, this`frameBuffers, this`log
      ensures Valid()
      ensures renderTargets == targets && renderPass == newRenderPass && frameBuffers == framebufferHandles
      ensures log == old(log) + SwapchainResourceCreation(extent, msaaSamples, depthFormat, targets, newRenderPass,
                                                          swapchain.imageViews, framebufferHandles)
    {
      var framebufferEvents := CreateFramebuffers(extent, newRenderPass, targets[0].view, targets[1].view,
                                                  swapchain.imageViews, framebufferHandles);
      renderTargets, renderPass, frameBuffers := targets, newRenderPass, framebufferHandles;
      log := log + (RenderTargetCreation(extent, msaaSamples, depthFormat, targets)
                    + [CreateRenderPass(Attachments(msaaSamples, depthFormat), newRenderPass)] + framebufferEvents);
    }

    /** Destroys the framebuffers of every swapchain image, the render pass, every render target, then the swapchain. */
    method DestroySwapchain()
      requires Valid()
      modifies this`log, swapchain`log
      ensures log == old(log) + SwapchainTeardown(frameBuffers, renderPass, renderTargets, swapchain.swapchain)
      ensures swapchain.log == old(swapchain.log) + Swapchain.ViewDestruction(swapchain.imageViews)
        + [Swapchain.DestroySwapchainKHR(swapchain.swapchain), Swapchain.DestroySurface(swapchain.surface)]
    {
      var count := swapchain.GetImageCount();
      var framebufferEvents := DestroyFramebuffers(frameBuffers[..count]);
      assert frameBuffers[..count] == frameBuffers;
      var targetEvents := DestroyRenderTargets(renderTargets);
      log := log + (framebufferEvents + [DestroyRenderPass(renderPass)] + targetEvents
                    + [DestroySwapchainObject(swapchain.swapchain)]);
      swapchain.Destroy();
    }
  }

  /** CreateSwapchain's own calls: the render targets, the render pass, then the framebuffers. */
  function SwapchainResourceCreation(extent: Extent, samples: Flags, depthFormat: Format, targets: seq<ImageResource>,
                                     renderPass: Handle, imageViews: seq<Handle>, framebuffers: seq<Handle>)
    : seq<RendererEvent>
    requires |targets| == 3 && |framebuffers| == |imageViews|
  {
    RenderTargetCreation(extent, samples, depthFormat, targets)
    + [CreateRenderPass(Attachments(samples, depthFormat), renderPass)]
    + FramebufferCreation(extent, renderPass, targets[0].view, targets[1].view, imageViews, framebuffers)
  }

  /**
   * CreateSwapchain's shape: exactly three render targets (colour and depth
   * multisampled, resolve single-sampled), the render pass, then one
   * framebuffer per swapchain image attaching the colour view, the depth
   * view and that image's view.
   */
  lemma ResourceCreationShape(extent: Extent, samples: Flags, depthFormat: Format, targets: seq<ImageResource>,
                              renderPass: Handle, imageViews: seq<Handle>, framebuffers: seq<Handle>)
    requires |targets| == 3 && |framebuffers| == |imageViews|
    ensures var log := SwapchainResourceCreation(extent, samples, depthFormat, targets, renderPass, imageViews, framebuffers);
      && |log| == 7 + |imageViews|
      && log[0] == CreateImage(targets[0].image, extent, samples, B8G8R8A8Unorm, IMAGE_USAGE_COLOR_ATTACHMENT_BIT)
      && log[2] == CreateImage(targets[1].image, extent, samples, depthFormat, IMAGE_USAGE_DEPTH_STENCIL_ATTACHMENT_BIT)
      && log[4] == CreateImage(targets[2].image, extent, SAMPLE_COUNT_1_BIT, B8G8R8A8Unorm, IMAGE_USAGE_COLOR_ATTACHMENT_BIT)
      && log[6] == CreateRenderPass(Attachments(samples, depthFormat), renderPass)
      && (forall i | 0 <= i < |imageViews| ::
            log[7 + i] == CreateFramebuffer(extent, renderPass, [targets[0].view, targets[1].view, imageViews[i]],
                                            framebuffers[i]))
  {
    var made := FramebufferCreation(extent, renderPass, targets[0].view, targets[1].view, imageViews, framebuffers);
    var prefix := RenderTargetCreation(extent, samples, depthFormat, targets)
      + [CreateRenderPass(Attachments(samples, depthFormat), renderPass)];
    assert |prefix| == 7;
    FramebufferCreationShape(extent, renderPass, targets[0].view, targets[1].view, imageViews, framebuffers);
    assert forall j | 7 <= j < |prefix + made| :: (prefix + made)[j] == made[j - 7];
  }

  /** DestroySwapchain destroys exactly the framebuffers CreateSwapchain made, in creation order, and creates none. */
  lemma SwapchainResourcesBalanced(extent: Extent, samples: Flags, depthFormat: Format, targets: seq<ImageResource>,
                                   renderPass: Handle, imageViews: seq<Handle>, framebuffers: seq<Handle>,
                                   swapchain: Handle)
    requires |targets| == 3 && |framebuffers| == |imageViews|
    ensures DestroyedFramebuffers(SwapchainTeardown(framebuffers, renderPass, targets, swapchain))
      == CreatedFramebuffers(SwapchainResourceCreation(extent, samples, depthFormat, targets, renderPass, imageViews,
                                                       framebuffers))
      == framebuffers
    ensures CreatedFramebuffers(SwapchainTeardown(framebuffers, renderPass, targets, swapchain)) == []
  {
    var prefix := RenderTargetCreation(extent, samples, depthFormat, targets)
      + [CreateRenderPass(Attachments(samples, depthFormat), renderPass)];
    var made := FramebufferCreation(extent, renderPass, targets[0].view, targets[1].view, imageViews, framebuffers);
    FramebufferCreationMakes(extent, renderPass, targets[0].view, targets[1].view, imageViews, framebuffers);
    FramebuffersAppend(prefix, made);
    FramebufferFree(prefix);
    TeardownDestroysFramebuffers(framebuffers, renderPass, targets, swapchain);
  }

  /** The teardown's only framebuffer events are the destruction of the given framebuffers, in order. */
  lemma TeardownDestroysFramebuffers(framebuffers: seq<Handle>, renderPass: Handle, targets: seq<ImageResource>,
                                     swapchain: Handle)
    ensures DestroyedFramebuffers(SwapchainTeardown(framebuffers, renderPass, targets, swapchain)) == framebuffers
    ensures CreatedFramebuffers(SwapchainTeardown(framebuffers, renderPass, targets, swapchain)) == []
  {
    var destroyed := FramebufferDestruction(framebuffers);
    var pass := [DestroyRenderPass(renderPass)];
    var released := TargetDestruction(targets);
    var last := [DestroySwapchainObject(swapchain)];
    FramebufferDestructionDestroys(framebuffers);
    FramebufferDestructionCreatesNone(framebuffers);
    TargetDestructionFramebufferFree(targets);
    FramebuffersAppend(destroyed, pass);
    FramebuffersAppend(destroyed + pass, released);
    FramebuffersAppend(destroyed + pass + released, last);
    FramebufferFree(pass);
    FramebufferFree(last);
  }

  lemma {:induction false} FramebufferDestructionCreatesNone(framebuffers: seq<Handle>)
    ensures CreatedFramebuffers(FramebufferDestruction(framebuffers)) == []
  {
    if |framebuffers| > 0 {
      var n := |framebuffers| - 1;
      FramebufferDestructionCreatesNone(framebuffers[..n]);
      FramebuffersAppend(FramebufferDestruction(framebuffers[..n]), [DestroyFramebuffer(framebuffers[n])]);
      FramebufferFree([]);
    }
  }

  lemma {:induction false} TargetDestructionFramebufferFree(targets: seq<ImageResource>)
    ensures CreatedFramebuffers(TargetDestruction(targets)) == [] && DestroyedFramebuffers(TargetDestruction(targets)) == []
  {
    if |targets| > 0 {
      var n := |targets| - 1;
      var pair := [DestroyImageView(targets[n].view), DestroyImage(targets[n].image, targets[n].allocation)];
      TargetDestructionFramebufferFree(targets[..n]);
      FramebuffersAppend(TargetDestruction(targets[..n]), pair);
      FramebufferFree(pair);
    }
  }

  /** A log that neither creates nor destroys a framebuffer. */
  lemma {:induction false} FramebufferFree(log: seq<RendererEvent>)
    requires forall i | 0 <= i < |log| :: !log[i].CreateFramebuffer? && !log[i].DestroyFramebuffer?
    ensures CreatedFramebuffers(log) == [] && DestroyedFramebuffers(log) == []
  {
    if |log| > 0 {
      FramebufferFree(log[..|log| - 1]);
    }
  }

  /**
   * One BeginFrame / EndFrame pair: the image presented is the one acquired,
   * and the semaphore the acquire signals is the one the present waits on;
   * nothing is submitted in between.
   */
  method RenderFrame(renderer: Renderer, acquiredImage: nat, driverResult: VkResult)
    modifies renderer`imageIndex, renderer`log, renderer.swapchain`log
    ensures renderer.log == old(renderer.log)
      + [AcquireNextImage(renderer.swapchain.swapchain, renderer.semaphore, acquiredImage)]
    ensures renderer.swapchain.log == old(renderer.swapchain.log)
      + [Swapchain.QueuePresent(renderer.queue, renderer.semaphore, renderer.swapchain.swapchain, acquiredImage)]
  {
    renderer.BeginFrame(acquiredImage);
    renderer.EndFrame(driverResult);
  }
}
