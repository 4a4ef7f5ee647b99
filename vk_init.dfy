/**
 * VkInit: the create-info constructors. Each returns a struct literal built
 * from its arguments; structure types and null `pNext` chains are implied
 * by the datatype and left out. Pointers are kept as opaque addresses
 * (0 standing for nullptr), copied, never dereferenced.
 */
module VkInit {
  import opened VkTypes
  import Context

  type Pointer = nat
  const NULLPTR: Pointer := 0

  // VkDebugUtilsMessageSeverityFlagBitsEXT
  const MESSAGE_SEVERITY_VERBOSE_BIT: Flags := 0x1
  const MESSAGE_SEVERITY_INFO_BIT: Flags := 0x10
  const MESSAGE_SEVERITY_WARNING_BIT: Flags := 0x100
  const MESSAGE_SEVERITY_ERROR_BIT: Flags := 0x1000

  // VkDebugUtilsMessageTypeFlagBitsEXT
  const MESSAGE_TYPE_GENERAL_BIT: Flags := 0x1
  const MESSAGE_TYPE_VALIDATION_BIT: Flags := 0x2
  const MESSAGE_TYPE_PERFORMANCE_BIT: Flags := 0x4

  // VkImageCreateFlagBits
  const IMAGE_CREATE_SPARSE_BINDING_BIT: Flags := 0x1

  datatype SharingMode = Exclusive | Concurrent
  datatype ComponentSwizzle = Identity | Zero | One | R | G | B | A
  datatype ImageLayout = LayoutUndefined | LayoutOther(code: nat)

  datatype DebugMessengerCreateInfo = DebugMessengerCreateInfo(
    flags: Flags, severities: Flags, messageTypes: Flags, userCallback: Pointer, userData: Pointer)

  datatype DebugReportCreateInfo = DebugReportCreateInfo(flags: Flags, callback: Pointer, userData: Pointer)

  datatype DeviceQueueCreateInfo = DeviceQueueCreateInfo(
    flags: Flags, queueFamilyIndex: U32, queueCount: U32, priorities: Pointer)

  datatype BufferCreateInfo = BufferCreateInfo(
    flags: U32, size: nat, usage: Flags, sharingMode: SharingMode, queueFamilyIndexCount: U32, queueFamilyIndices: Pointer)

  datatype Extent3D = Extent3D(width: U32, height: U32, depth: U32)

  datatype ImageCreateInfo = ImageCreateInfo(
    flags: U32, imageType: nat, format: Format, extent: Extent3D, mipLevels: nat, arrayLayers: nat, samples: Flags,
    tiling: ImageTiling, usage: Flags, sharingMode: SharingMode, queueFamilyIndexCount: U32,
    queueFamilyIndices: Pointer, initialLayout: ImageLayout)

  datatype ComponentMapping = ComponentMapping(r: ComponentSwizzle, g: ComponentSwizzle, b: ComponentSwizzle, a: ComponentSwizzle)

  datatype SubresourceRange = SubresourceRange(
    aspectMask: Flags, baseMipLevel: nat, levelCount: nat, baseArrayLayer: nat, layerCount: nat)

  datatype ImageViewCreateInfo = ImageViewCreateInfo(
    flags: Flags, image: Handle, viewType: nat, format: Format, components: ComponentMapping, range: SubresourceRange)

  /** Verbose, warning and error messages, of the general and validation types; no callback is set here. */
  function MakeDebugUtilsMessengerCreateInfo(): DebugMessengerCreateInfo
  {
    DebugMessengerCreateInfo(0,
      MESSAGE_SEVERITY_VERBOSE_BIT | MESSAGE_SEVERITY_WARNING_BIT | MESSAGE_SEVERITY_ERROR_BIT,
      MESSAGE_TYPE_GENERAL_BIT | MESSAGE_TYPE_VALIDATION_BIT, NULLPTR, NULLPTR)
  }

  /** Warnings, performance warnings, errors and debug output; no callback is set here. */
  function MakeDebugReportCallbackCreateInfo(): DebugReportCreateInfo
  {
    DebugReportCreateInfo(
      Context.REPORT_WARNING_BIT | Context.REPORT_PERFORMANCE_WARNING_BIT | Context.REPORT_ERROR_BIT | Context.REPORT_DEBUG_BIT,
      NULLPTR, NULLPTR)
  }

  /** The queue family, the number of priorities and the priority array as given, with flags 0. */
  function MakeDeviceQueueCreateInfo(queueFamilyIndex: U32, numPriorities: U32, priorities: Pointer)
    : (info: DeviceQueueCreateInfo)
    ensures info.flags == 0
    ensures info.queueFamilyIndex == queueFamilyIndex && info.queueCount == numPriorities
    ensures info.priorities == priorities
  {
    DeviceQueueCreateInfo(0, queueFamilyIndex, numPriorities, priorities)
  }

  /** Every argument lands in the field of the same name. */
  function MakeBufferCreateInfo(size: U32, usage: Flags, sharingMode: SharingMode, queueFamilyIndexCount: U32,
                                queueFamilyIndices: Pointer, flags: U32): (info: BufferCreateInfo)
    ensures info.flags == flags && info.size == size && info.usage == usage && info.sharingMode == sharingMode
    ensures info.queueFamilyIndexCount == queueFamilyIndexCount && info.queueFamilyIndices == queueFamilyIndices
  {
    BufferCreateInfo(flags, size, usage, sharingMode, queueFamilyIndexCount, queueFamilyIndices)
  }

  /** As written: the `flags` argument is accepted and then not used; the info's flags are always 0. */
  function MakeImageCreateInfo(extent: Extent3D, imageType: nat, format: Format, tiling: ImageTiling, usage: Flags,
                               sharingMode: SharingMode, queueFamilyIndexCount: U32, queueFamilyIndices: Pointer,
                               flags: U32): ImageCreateInfo
  {
    ImageCreateInfo(0, imageType, format, extent, 1, 1, SAMPLE_COUNT_1, tiling, usage, sharingMode,
                    queueFamilyIndexCount, queueFamilyIndices, LayoutUndefined)
  }

  const SAMPLE_COUNT_1: Flags := 0x1

  /** The image create info with the caller's flags passed through, as the parameter evidently intends. */
  function MakeImageCreateInfoIntended(extent: Extent3D, imageType: nat, format: Format, tiling: ImageTiling,
                                       usage: Flags, sharingMode: SharingMode, queueFamilyIndexCount: U32,
                                       queueFamilyIndices: Pointer, flags: U32): (info: ImageCreateInfo)
    ensures info.flags == flags
    ensures info == MakeImageCreateInfo(extent, imageType, format, tiling, usage, sharingMode, queueFamilyIndexCount,
                                        queueFamilyIndices, 0).(flags := flags)
  {
    ImageCreateInfo(flags, imageType, format, extent, 1, 1, SAMPLE_COUNT_1, tiling, usage, sharingMode,
                    queueFamilyIndexCount, queueFamilyIndices, LayoutUndefined)
  }

  function MakeImageViewCreateInfo(image: Handle, viewType: nat, format: Format, aspect: Flags): ImageViewCreateInfo
  {
    ImageViewCreateInfo(0, image, viewType, format, ComponentMapping(Identity, Identity, Identity, Identity),
                        SubresourceRange(aspect, 0, 1, 0, 1))
  }

  /**
   * The messenger asks for verbose, warning and error messages but not info
   * messages, of the general and validation types but not performance; of
   * the severities it asks for, the debug callback sends verbose to the
   * debug log and both warning and error to the warning log.
   */
  lemma MessengerSeverities()
    ensures var info := MakeDebugUtilsMessengerCreateInfo();
      && info.severities & MESSAGE_SEVERITY_VERBOSE_BIT != 0
      && info.severities & MESSAGE_SEVERITY_INFO_BIT == 0
      && info.severities & MESSAGE_SEVERITY_WARNING_BIT != 0
      && info.severities & MESSAGE_SEVERITY_ERROR_BIT != 0
      && info.messageTypes & MESSAGE_TYPE_GENERAL_BIT != 0
      && info.messageTypes & MESSAGE_TYPE_VALIDATION_BIT != 0
      && info.messageTypes & MESSAGE_TYPE_PERFORMANCE_BIT == 0
      && info.userCallback == NULLPTR
    ensures Context.DebugLog(MESSAGE_SEVERITY_VERBOSE_BIT as nat).logged == Some(Context.Debug)
    ensures Context.DebugLog(MESSAGE_SEVERITY_WARNING_BIT as nat).logged == Some(Context.Warning)
    ensures Context.DebugLog(MESSAGE_SEVERITY_ERROR_BIT as nat).logged == Some(Context.Warning)
  {
  }

  /**
   * The report callback is asked for every kind but information, and of
   * those it asks for, the performance warnings are the ones the callback
   * then drops.
   */
  lemma ReportFlags()
    ensures var info := MakeDebugReportCallbackCreateInfo();
      && info.flags & Context.REPORT_INFORMATION_BIT == 0
      && info.flags & Context.REPORT_WARNING_BIT != 0
      && info.flags & Context.REPORT_PERFORMANCE_WARNING_BIT != 0
      && info.flags & Context.REPORT_ERROR_BIT != 0
      && info.flags & Context.REPORT_DEBUG_BIT != 0
      && Context.DebugReport(info.flags).logged.None?
    ensures Context.DebugReport(Context.REPORT_PERFORMANCE_WARNING_BIT).logged.None?
    ensures Context.DebugReport(Context.REPORT_WARNING_BIT).logged == Some(Context.Debug)
    ensures Context.DebugReport(Context.REPORT_ERROR_BIT).logged == Some(Context.Debug)
    ensures Context.DebugReport(Context.REPORT_DEBUG_BIT).logged == Some(Context.Debug)
  {
  }

  /** The queue info keeps every argument: distinct arguments give distinct infos, and its flags are 0. */
  lemma DeviceQueueInfoKeepsArguments(family: U32, count: U32, priorities: Pointer,
                                      family': U32, count': U32, priorities': Pointer)
    ensures MakeDeviceQueueCreateInfo(family, count, priorities).flags == 0
    ensures MakeDeviceQueueCreateInfo(family, count, priorities) == MakeDeviceQueueCreateInfo(family', count', priorities')
      <==> family == family' && count == count' && priorities == priorities'
  {
  }

  /** The buffer info keeps every argument in its matching field: equal infos come only from equal arguments. */
  lemma BufferInfoKeepsArguments(size: U32, usage: Flags, sharing: SharingMode, count: U32, indices: Pointer, flags: U32,
                                 size': U32, usage': Flags, sharing': SharingMode, count': U32, indices': Pointer,
                                 flags': U32)
    ensures var info := MakeBufferCreateInfo(size, usage, sharing, count, indices, flags);
      info.size == size && info.flags == flags && info.usage == usage
    ensures MakeBufferCreateInfo(size, usage, sharing, count, indices, flags)
        == MakeBufferCreateInfo(size', usage', sharing', count', indices', flags')
      <==> size == size' && usage == usage' && sharing == sharing' && count == count' && indices == indices'
           && flags == flags'
  {
  }

  /**
   * Every image is single-level, single-layer, single-sample and starts in
   * the undefined layout, and its flags are 0 whatever the caller passed:
   * two calls differing only in flags give the same info.
   */
  lemma ImageInfoIgnoresFlags(extent: Extent3D, imageType: nat, format: Format, tiling: ImageTiling, usage: Flags,
                              sharing: SharingMode, count: U32, indices: Pointer, flags: U32, flags': U32)
    ensures var info := MakeImageCreateInfo(extent, imageType, format, tiling, usage, sharing, count, indices, flags);
      && info.mipLevels == 1 && info.arrayLayers == 1 && info.samples == SAMPLE_COUNT_1
      && info.initialLayout == LayoutUndefined && info.flags == 0
      && info.extent == extent && info.format == format && info.tiling == tiling && info.usage == usage
    ensures MakeImageCreateInfo(extent, imageType, format, tiling, usage, sharing, count, indices, flags)
         == MakeImageCreateInfo(extent, imageType, format, tiling, usage, sharing, count, indices, flags')
    ensures MakeImageCreateInfo(extent, imageType, format, tiling, usage, sharing, count, indices,
                                IMAGE_CREATE_SPARSE_BINDING_BIT as nat).flags == 0
    ensures MakeImageCreateInfoIntended(extent, imageType, format, tiling, usage, sharing, count, indices,
                                        IMAGE_CREATE_SPARSE_BINDING_BIT as nat).flags == 1
  {
  }

  /** A view shows its image unswizzled, through exactly mip level 0 and array layer 0, with the requested aspect. */
  lemma ImageViewWholeSingleLevel(image: Handle, viewType: nat, format: Format, aspect: Flags)
    ensures var info := MakeImageViewCreateInfo(image, viewType, format, aspect);
      && info.image == image && info.format == format && info.flags == 0
      && info.components == ComponentMapping(Identity, Identity, Identity, Identity)
      && info.range.aspectMask == aspect
      && info.range.baseMipLevel == 0 && info.range.levelCount == 1
      && info.range.baseArrayLayer == 0 && info.range.layerCount == 1
  {
  }
}
