/**
 * VkSwapchain: the negotiation policy (image count, present mode, surface
 * format), the images and one view per image, the clear values, and the
 * order of the driver calls made on creation, presentation and destruction.
 */
module Swapchain {
  import opened VkTypes

  datatype SurfaceCapabilities = SurfaceCapabilities(minImageCount: U32, maxImageCount: U32, currentTransform: nat)
  datatype SurfaceFormat = SurfaceFormat(format: Format, colorSpace: ColorSpace)
  datatype ClearColour = ClearColour(r: real, g: real, b: real, a: real)
  datatype DepthStencil = DepthStencil(depth: real, stencil: nat)

  /**
   * One more image than the minimum, capped by a nonzero maximum
   * (maxImageCount 0 means the surface sets no maximum). The increment is
   * uint32 arithmetic: a minimum of UINT32_MAX wraps the request to 0.
   */
  function SelectImageCount(caps: SurfaceCapabilities): (count: U32)
    ensures caps.maxImageCount != 0 ==> count <= caps.maxImageCount
    ensures caps.minImageCount < UINT32_MAX ==>
      && (caps.maxImageCount == 0 ==> count == caps.minImageCount + 1)
      && (caps.minImageCount + 1 <= caps.maxImageCount ==> count == caps.minImageCount + 1)
      && count <= caps.minImageCount + 1
      && (caps.maxImageCount == 0 || caps.minImageCount <= caps.maxImageCount ==> caps.minImageCount <= count)
    ensures caps.minImageCount == UINT32_MAX ==> count == 0
  {
    var requested: U32 := (caps.minImageCount + 1) % (UINT32_MAX + 1);
    if caps.maxImageCount != 0 && requested > caps.maxImageCount then caps.maxImageCount else requested
  }

  /** MAILBOX when the surface offers it, FIFO (always available) otherwise. */
  function SelectPresentMode(modes: seq<PresentMode>): (mode: PresentMode)
    ensures mode == Mailbox || mode == Fifo
    ensures mode == Mailbox <==> Mailbox in modes
  {
    if |modes| == 0 then Fifo
    else if modes[0] == Mailbox then Mailbox
    else
      assert modes == [modes[0]] + modes[1..];
      SelectPresentMode(modes[1..])
  }

  /** The surface format is hard-coded; the formats the surface reports are not consulted. */
  function SelectSurfaceFormat(formats: seq<SurfaceFormat>): (chosen: SurfaceFormat)
    ensures chosen.format == B8G8R8A8Unorm && chosen.colorSpace == SrgbNonlinear
  {
    SurfaceFormat(B8G8R8A8Unorm, SrgbNonlinear)
  }

  /** The choice is the same whatever the surface reports, even when it does not offer that format. */
  lemma SurfaceFormatIgnoresSurface(formats: seq<SurfaceFormat>)
    ensures SelectSurfaceFormat(formats) == SelectSurfaceFormat([])
    ensures SelectSurfaceFormat([SurfaceFormat(Other(37), SrgbNonlinear)]) !in [SurfaceFormat(Other(37), SrgbNonlinear)]
  {
  }

  /** The fields of VkSwapchainCreateInfoKHR that CreateSwapchainKHR fills from its state and arguments. */
  datatype SwapchainCreateInfo = SwapchainCreateInfo(
    surface: Handle, minImageCount: nat, format: SurfaceFormat, width: nat, height: nat,
    queueFamily: nat, preTransform: nat, presentMode: PresentMode, clipped: bool, oldSwapchain: Handle)

  /** Driver calls made by the swapchain, in order. */
  datatype SwapchainEvent =
    | CreateSurface(surface: Handle)
    | QueryCapabilities(surface: Handle)
    | QueryFormats(surface: Handle)
    | QueryPresentModes(surface: Handle)
    | CreateSwapchainKHR(info: SwapchainCreateInfo, swapchain: Handle)
    | GetSwapchainImages(swapchain: Handle, count: nat)
    | CreateImageView(image: Handle, format: Format, aspect: Flags, view: Handle)
    | DestroyImageView(view: Handle)
    | DestroySwapchainKHR(swapchain: Handle)
    | DestroySurface(surface: Handle)
    | QueuePresent(queue: Handle, semaphore: Handle, swapchain: Handle, image: nat)

  /** One colour view per image, B8G8R8A8_UNORM, in image order; `views` are the handles the driver hands out. */
  function ViewCreation(images: seq<Handle>, views: seq<Handle>): (log: seq<SwapchainEvent>)
    requires |views| == |images|
    ensures |log| == |images|
  {
    if |images| == 0 then []
    else
      var n := |images| - 1;
      ViewCreation(images[..n], views[..n]) + [CreateImageView(images[n], B8G8R8A8Unorm, IMAGE_ASPECT_COLOR_BIT, views[n])]
  }

  /** One vkDestroyImageView per view, in order. */
  function ViewDestruction(views: seq<Handle>): (log: seq<SwapchainEvent>)
    ensures |log| == |views|
  {
    if |views| == 0 then [] else ViewDestruction(views[..|views| - 1]) + [DestroyImageView(views[|views| - 1])]
  }

  /** The views a log creates, in order. */
  function CreatedViews(log: seq<SwapchainEvent>): seq<Handle>
  {
    if |log| == 0 then []
    else CreatedViews(log[..|log| - 1]) + (if log[|log| - 1].CreateImageView? then [log[|log| - 1].view] else [])
  }

  /** The views a log destroys, in order. */
  function DestroyedViews(log: seq<SwapchainEvent>): seq<Handle>
  {
    if |log| == 0 then []
    else DestroyedViews(log[..|log| - 1]) + (if log[|log| - 1].DestroyImageView? then [log[|log| - 1].view] else [])
  }

  lemma {:induction false} ViewsAppend(a: seq<SwapchainEvent>, b: seq<SwapchainEvent>)
    ensures CreatedViews(a + b) == CreatedViews(a) + CreatedViews(b)
    ensures DestroyedViews(a + b) == DestroyedViews(a) + DestroyedViews(b)
  {
    if |b| == 0 {
      assert a + b == a;
    } else {
      var n := |b| - 1;
      assert (a + b)[..|a + b| - 1] == a + b[..n];
      assert (a + b)[|a + b| - 1] == b[n];
      ViewsAppend(a, b[..n]);
    }
  }

  /** Creation makes exactly the given views, in image order, and destroys none. */
  lemma {:induction false} ViewCreationMakes(images: seq<Handle>, views: seq<Handle>)
    requires |views| == |images|
    ensures CreatedViews(ViewCreation(images, views)) == views
    ensures DestroyedViews(ViewCreation(images, views)) == []
  {
    if |images| > 0 {
      var n := |images| - 1;
      var last := CreateImageView(images[n], B8G8R8A8Unorm, IMAGE_ASPECT_COLOR_BIT, views[n]);
      ViewCreationMakes(images[..n], views[..n]);
      ViewsAppend(ViewCreation(images[..n], views[..n]), [last]);
      assert [last][..0] == [];
      assert views[..n] + [views[n]] == views;
    }
  }

  /** Destruction destroys exactly the given views, in order, and creates none. */
  lemma {:induction false} ViewDestructionDestroys(views: seq<Handle>)
    ensures DestroyedViews(ViewDestruction(views)) == views
    ensures CreatedViews(ViewDestruction(views)) == []
  {
    if |views| > 0 {
      var n := |views| - 1;
      ViewDestructionDestroys(views[..n]);
      ViewsAppend(ViewDestruction(views[..n]), [DestroyImageView(views[n])]);
      assert [DestroyImageView(views[n])][..0] == [];
      assert views[..n] + [views[n]] == views;
    }
  }

  /** Destroying what Create made destroys every created view exactly once, in creation order. */
  lemma ViewsBalanced(images: seq<Handle>, views: seq<Handle>)
    requires |views| == |images|
    ensures CreatedViews(ViewCreation(images, views)) == DestroyedViews(ViewDestruction(views))
  {
    ViewCreationMakes(images, views);
    ViewDestructionDestroys(views);
  }

  /** Everything Create logs before it fetches the images. */
  function CreationPrefix(surface: Handle, info: SwapchainCreateInfo, swapchain: Handle): seq<SwapchainEvent>
  {
    [CreateSurface(surface), QueryCapabilities(surface), QueryFormats(surface), QueryPresentModes(surface),
     CreateSwapchainKHR(info, swapchain)]
  }

  /**
   * The driver's side of Create: the surface it creates, the capabilities,
   * formats and modes it reports, the swapchain it creates, that swapchain's
   * images, and the view it creates for each image.
   */
  datatype DriverAnswers = DriverAnswers(
    surface: Handle, caps: SurfaceCapabilities, formats: seq<SurfaceFormat>, modes: seq<PresentMode>,
    swapchain: Handle, images: seq<Handle>, views: seq<Handle>)

  /** The swapchain Create asks for: the chosen count, format and mode at the window's size, clipped, with no old swapchain. */
  function CreateInfo(width: nat, height: nat, queueFamily: nat, driver: DriverAnswers): (info: SwapchainCreateInfo)
    ensures info.surface == driver.surface && info.width == width && info.height == height
    ensures info.minImageCount == SelectImageCount(driver.caps) && info.preTransform == driver.caps.currentTransform
    ensures info.format == SelectSurfaceFormat(driver.formats) && info.presentMode == SelectPresentMode(driver.modes)
    ensures info.clipped && info.oldSwapchain == NULL_HANDLE
  {
    SwapchainCreateInfo(driver.surface, SelectImageCount(driver.caps), SelectSurfaceFormat(driver.formats), width, height,
                        queueFamily, driver.caps.currentTransform, SelectPresentMode(driver.modes), true, NULL_HANDLE)
  }

  /** Every driver call Create makes, in order. */
  function CreationLog(width: nat, height: nat, queueFamily: nat, driver: DriverAnswers): (log: seq<SwapchainEvent>)
    requires |driver.views| == |driver.images|
  {
    CreationPrefix(driver.surface, CreateInfo(width, height, queueFamily, driver), driver.swapchain)
    + ([GetSwapchainImages(driver.swapchain, |driver.images|)] + ViewCreation(driver.images, driver.views))
  }

  /**
   * Create's calls in order: the surface, the three surface queries, the
   * swapchain with the negotiated settings, the image fetch, then exactly
   * the driver's views, one per image, and nothing destroyed.
   */
  lemma CreationLogOrder(width: nat, height: nat, queueFamily: nat, driver: DriverAnswers)
    requires |driver.views| == |driver.images|
    ensures var log := CreationLog(width, height, queueFamily, driver);
      && |log| == 6 + |driver.images|
      && log[..4] == [CreateSurface(driver.surface), QueryCapabilities(driver.surface),
                      QueryFormats(driver.surface), QueryPresentModes(driver.surface)]
      && log[4] == CreateSwapchainKHR(CreateInfo(width, height, queueFamily, driver), driver.swapchain)
      && log[5] == GetSwapchainImages(driver.swapchain, |driver.images|)
      && CreatedViews(log) == driver.views && DestroyedViews(log) == []
  {
    var prefix := CreationPrefix(driver.surface, CreateInfo(width, height, queueFamily, driver), driver.swapchain)
      + [GetSwapchainImages(driver.swapchain, |driver.images|)];
    var views := ViewCreation(driver.images, driver.views);
    assert CreationLog(width, height, queueFamily, driver) == prefix + views;
    ViewCreationMakes(driver.images, driver.views);
    ViewsAppend(prefix, views);
    ViewFree(prefix);
  }

  /** A log with no view creation or destruction creates and destroys no view. */
  lemma {:induction false} ViewFree(log: seq<SwapchainEvent>)
    requires forall i | 0 <= i < |log| :: !log[i].CreateImageView? && !log[i].DestroyImageView?
    ensures CreatedViews(log) == [] && DestroyedViews(log) == []
  {
    if |log| > 0 {
      ViewFree(log[..|log| - 1]);
    }
  }

  class VkSwapchain {
    var surface: Handle
    var swapchain: Handle
    var capabilities: SurfaceCapabilities
    var surfaceFormat: SurfaceFormat
    var presentMode: PresentMode
    var images: seq<Handle>
    var imageViews: seq<Handle>
    var colourClear: ClearColour
    var depthStencilClear: DepthStencil
    /** Driver calls made so far. */
    ghost var log: seq<SwapchainEvent>

    /** One view per image. */
    ghost predicate Valid()
      reads this
    {
      |images| == |imageViews|
    }

    constructor ()
      ensures Valid() && images == [] && log == []
      ensures surface == NULL_HANDLE && swapchain == NULL_HANDLE
    {
      surface := NULL_HANDLE;
      swapchain := NULL_HANDLE;
      capabilities := SurfaceCapabilities(0, 0, 0);
      surfaceFormat := SurfaceFormat(Undefined, SrgbNonlinear);
      presentMode := Fifo;
      images := [];
      imageViews := [];
      colourClear := ClearColour(0.0, 0.0, 0.0, 0.0);
      depthStencilClear := DepthStencil(0.0, 0);
      log := [];
    }

    /**
     * Creates the surface, queries the surface's capabilities, formats and
     * modes, chooses format, mode and image count, creates the swapchain at
     * the window's size, fetches its images with one view each, installs the
     * default clear values and reports success whatever the driver returned.
     */
    method Create(width: nat, height: nat, queueFamily: nat, driver: DriverAnswers) returns (r: VkResult)
      requires |driver.views| == |driver.images|
      modifies this
      ensures Valid() && r == Success
      ensures surface == driver.surface && swapchain == driver.swapchain && capabilities == driver.caps
      ensures surfaceFormat == SelectSurfaceFormat(driver.formats) && presentMode == SelectPresentMode(driver.modes)
      ensures images == driver.images && imageViews == driver.views
      ensures colourClear == ClearColour(0.0, 0.0, 0.0, 0.0) && depthStencilClear == DepthStencil(1.0, 0)
      ensures log == old(log) + CreationLog(width, height, queueFamily, driver)
    {
      var info := CreateInfo(width, height, queueFamily, driver);
      surface, capabilities, surfaceFormat, presentMode, swapchain :=
        driver.surface, driver.caps, info.format, info.presentMode, driver.swapchain;
      log := log + CreationPrefix(driver.surface, info, driver.swapchain);
      var _ := AcquireSwapchainImages(driver.images, driver.views);
      SetClearValue(0.0, 0.0, 0.0, 0.0, 1.0, 0);
      r := Success;
    }

    /** Fetches the images and creates one colour view per image, in order. */
    method AcquireSwapchainImages(driverImages: seq<Handle>, viewHandles: seq<Handle>) returns (r: VkResult)
      requires |viewHandles| == |driverImages|
      modifies this`images, this`imageViews, this`log
      ensures Valid() && r == Success
      ensures images == driverImages && imageViews == viewHandles
      ensures log == old(log) + ([GetSwapchainImages(swapchain, |driverImages|)] + ViewCreation(driverImages, viewHandles))
    {
      var count := |driverImages|;
      var created := [GetSwapchainImages(swapchain, count)];
      images := driverImages;
      imageViews := seq(count, _ => NULL_HANDLE);
      for i := 0 to count
        invariant images == driverImages && |imageViews| == count && log == old(log)
        invariant forall j | 0 <= j < i :: imageViews[j] == viewHandles[j]
        invariant created == [GetSwapchainImages(swapchain, count)] + ViewCreation(images[..i], viewHandles[..i])
      {
        assert images[..i + 1][..i] == images[..i] && viewHandles[..i + 1][..i] == viewHandles[..i];
        imageViews := imageViews[i := viewHandles[i]];
        created := created + [CreateImageView(images[i], B8G8R8A8Unorm, IMAGE_ASPECT_COLOR_BIT, viewHandles[i])];
      }
      assert images[..count] == images && viewHandles[..count] == viewHandles;
      log := log + created;
      r := Success;
    }

    /** Destroys every image view, then the swapchain, then the surface. */
    method Destroy()
      modifies this`log
      ensures log == old(log) + ViewDestruction(imageViews) + [DestroySwapchainKHR(swapchain), DestroySurface(surface)]
    {
      ghost var start := log;
      for i := 0 to |imageViews|
        invariant log == start + ViewDestruction(imageViews[..i])
      {
        log := log + [DestroyImageView(imageViews[i])];
        assert imageViews[..i + 1][..i] == imageViews[..i];
      }
      assert imageViews[..|imageViews|] == imageViews;
      log := log + [DestroySwapchainKHR(swapchain), DestroySurface(surface)];
    }

    method GetSwapchain() returns (r: Checked)
      ensures r.handle == swapchain
      ensures r.loggedError <==> swapchain == NULL_HANDLE
    {
      r := Checked(swapchain, swapchain == NULL_HANDLE);
    }

    method GetImageCount() returns (count: nat)
      requires Valid()
      ensures count == |images| && count == |imageViews|
    {
      count := |images|;
    }

    method SetClearValue(r: real, g: real, b: real, a: real, depth: real, stencil: nat)
      modifies this`colourClear, this`depthStencilClear
      ensures colourClear == ClearColour(r, g, b, a) && depthStencilClear == DepthStencil(depth, stencil)
    {
      colourClear := ClearColour(r, g, b, a);
      depthStencilClear := DepthStencil(depth, stencil);
    }

    method GetColourClearValue() returns (c: ClearColour)
      ensures c == colourClear
    {
      c := colourClear;
    }

    method GetDepthStencilClearValue() returns (d: DepthStencil)
      ensures d == depthStencilClear
    {
      d := depthStencilClear;
    }

    /**
     * Presents image `imageIndex` of this swapchain on `queue`, waiting on
     * `semaphore`; the result is the driver's, returned unexamined.
     */
    method Present(queue: Handle, semaphore: Handle, imageIndex: nat, driverResult: VkResult) returns (r: VkResult)
      modifies this`log
      ensures r == driverResult
      ensures log == old(log) + [QueuePresent(queue, semaphore, swapchain, imageIndex)]
    {
      log := log + [QueuePresent(queue, semaphore, swapchain, imageIndex)];
      r := driverResult;
    }
  }
}
