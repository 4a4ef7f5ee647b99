/**
 * VkContext: the instance, physical-device and device handles, the creation
 * gates in front of the driver calls, fence creation flags and the two
 * debug callbacks' severity routing. Each driver call is replaced by the
 * result and handle it would produce, passed in by the caller.
 */
module Context {
  import opened VkTypes
  import opened VkHelpers

  /** VkFenceCreateInfo as CreateFence fills it. */
  datatype FenceCreateInfo = FenceCreateInfo(flags: Flags)

  function CreateFence(startSignaled: bool): (info: FenceCreateInfo)
    ensures info.flags & FENCE_CREATE_SIGNALED_BIT != 0 <==> startSignaled
    ensures info.flags == if startSignaled then FENCE_CREATE_SIGNALED_BIT else 0
    ensures info.flags & !FENCE_CREATE_SIGNALED_BIT == 0
  {
    FenceCreateInfo(if startSignaled then FENCE_CREATE_SIGNALED_BIT else 0)
  }

  // VkDebugUtilsMessageSeverityFlagBitsEXT, compared as integers by DebugLog
  const SEVERITY_VERBOSE: nat := 0x1
  const SEVERITY_INFO: nat := 0x10
  const SEVERITY_WARNING: nat := 0x100
  const SEVERITY_ERROR: nat := 0x1000

  // VkDebugReportFlagBitsEXT
  const REPORT_INFORMATION_BIT: Flags := 0x1
  const REPORT_WARNING_BIT: Flags := 0x2
  const REPORT_PERFORMANCE_WARNING_BIT: Flags := 0x4
  const REPORT_ERROR_BIT: Flags := 0x8
  const REPORT_DEBUG_BIT: Flags := 0x10

  datatype LogLevel = Debug | Warning | Error

  /** Which logger a callback wrote to (None: it wrote nothing) and the VkBool32 it returned. */
  datatype CallbackOutcome = CallbackOutcome(logged: Option<LogLevel>, returned: bool)

  /**
   * The debug-utils messenger callback as written: the first test already
   * takes every severity from WARNING up, so ERROR messages are logged as
   * warnings and the error branch is never taken. It never aborts the call.
   */
  function DebugLog(severity: nat): (r: CallbackOutcome)
    ensures !r.returned && r.logged.Some?
    ensures r.logged == Some(Warning) <==> severity >= SEVERITY_WARNING
    ensures r.logged != Some(Error)
  {
    if severity >= SEVERITY_WARNING then CallbackOutcome(Some(Warning), false)
    else if severity >= SEVERITY_ERROR then CallbackOutcome(Some(Error), false)
    else CallbackOutcome(Some(Debug), false)
  }

  /** An ERROR message, the most severe kind, reaches the warning log. */
  lemma DebugLogErrorIsWarning()
    ensures DebugLog(SEVERITY_ERROR).logged == Some(Warning)
    ensures DebugLogIntended(SEVERITY_ERROR).logged == Some(Error)
  {
  }

  /** The routing the branch order evidently meant: test ERROR before WARNING. */
  function DebugLogIntended(severity: nat): (r: CallbackOutcome)
    ensures !r.returned
    ensures r.logged == Some(Error) <==> severity >= SEVERITY_ERROR
    ensures r.logged == Some(Warning) <==> SEVERITY_WARNING <= severity < SEVERITY_ERROR
    ensures r.logged == Some(Debug) <==> severity < SEVERITY_WARNING
  {
    if severity >= SEVERITY_ERROR then CallbackOutcome(Some(Error), false)
    else if severity >= SEVERITY_WARNING then CallbackOutcome(Some(Warning), false)
    else CallbackOutcome(Some(Debug), false)
  }

  /** The two routings agree on everything below ERROR. */
  lemma DebugLogAgreesBelowError(severity: nat)
    requires severity < SEVERITY_ERROR
    ensures DebugLog(severity) == DebugLogIntended(severity)
  {
  }

  /** The debug-report callback: performance warnings are dropped, everything else is logged as debug output. */
  function DebugReport(flags: Flags): (r: CallbackOutcome)
    ensures !r.returned
    ensures r.logged.None? <==> flags & REPORT_PERFORMANCE_WARNING_BIT != 0
    ensures r.logged.Some? ==> r.logged.value == Debug
  {
    if flags & REPORT_PERFORMANCE_WARNING_BIT != 0 then CallbackOutcome(None, false)
    else CallbackOutcome(Some(Debug), false)
  }

  class VkContext {
    var instance: Handle
    var physicalDevice: Handle
    var device: Handle

    /** The constructor sets only the instance; the other handles start out null in this model. */
    constructor ()
      ensures instance == NULL_HANDLE && physicalDevice == NULL_HANDLE && device == NULL_HANDLE
    {
      instance := NULL_HANDLE;
      physicalDevice := NULL_HANDLE;
      device := NULL_HANDLE;
    }

    /**
     * Layers are checked first, then extensions, and only then is the
     * instance created. `driverResult` and `created` are what vkCreateInstance
     * returns and writes into the instance handle.
     */
    method CreateInstance(requestedLayers: Option<seq<Name>>, instanceLayers: seq<Name>,
                          requestedExtensions: Option<seq<Name>>, instanceExtensions: seq<Name>,
                          driverResult: VkResult, created: Handle) returns (r: VkResult)
      modifies this`instance
      ensures !LayerListSupported(requestedLayers, instanceLayers) ==>
        r == ErrorLayerNotPresent && instance == old(instance)
      ensures LayerListSupported(requestedLayers, instanceLayers) && !ExtensionListSupported(requestedExtensions, instanceExtensions) ==>
        r == ErrorExtensionNotPresent && instance == old(instance)
      ensures LayerListSupported(requestedLayers, instanceLayers) && ExtensionListSupported(requestedExtensions, instanceExtensions) ==>
        r == driverResult && instance == created
      ensures requestedExtensions.None? || requestedExtensions.value == [] ==>
        r == ErrorLayerNotPresent || r == ErrorExtensionNotPresent
    {
      var layersOk := ValidateInstanceLayerSupportArray(requestedLayers, instanceLayers);
      if !layersOk {
        return ErrorLayerNotPresent;
      }
      var extensionsOk := ValidateInstanceExtensionSupportArray(requestedExtensions, instanceExtensions);
      if !extensionsOk {
        return ErrorExtensionNotPresent;
      }
      instance := created;
      r := driverResult;
    }

    method GetInstance() returns (r: Checked)
      ensures r.handle == instance
      ensures r.loggedError <==> instance == NULL_HANDLE
    {
      r := Checked(instance, instance == NULL_HANDLE);
    }

    /** `enumerated` is what vkEnumeratePhysicalDevices reports; the first device is taken. */
    method SelectPhysicalDevice(enumerated: seq<Handle>) returns (r: VkResult)
      modifies this`physicalDevice
      ensures |enumerated| == 0 ==> r == ErrorDeviceLost && physicalDevice == old(physicalDevice)
      ensures |enumerated| > 0 ==> r == Success && physicalDevice == enumerated[0]
    {
      if |enumerated| == 0 {
        return ErrorDeviceLost;
      }
      physicalDevice := enumerated[0];
      r := Success;
    }

    method GetPhysicalDevice() returns (r: Checked)
      ensures r.handle == physicalDevice
      ensures r.loggedError <==> physicalDevice == NULL_HANDLE
    {
      r := Checked(physicalDevice, physicalDevice == NULL_HANDLE);
    }

    /**
     * No physical device selected: VK_ERROR_UNKNOWN. Unsupported, empty or
     * null extension list: VK_ERROR_EXTENSION_NOT_PRESENT. Otherwise the
     * driver's result, with the handle it writes stored as the device.
     */
    method CreateDevice(requestedExtensions: Option<seq<Name>>, deviceExtensions: seq<Name>,
                        driverResult: VkResult, created: Handle) returns (r: VkResult)
      modifies this`device
      ensures physicalDevice == NULL_HANDLE ==> r == ErrorUnknown && device == old(device)
      ensures physicalDevice != NULL_HANDLE && !ExtensionListSupported(requestedExtensions, deviceExtensions) ==>
        r == ErrorExtensionNotPresent && device == old(device)
      ensures physicalDevice != NULL_HANDLE && ExtensionListSupported(requestedExtensions, deviceExtensions) ==>
        r == driverResult && device == created
      ensures requestedExtensions.None? || requestedExtensions.value == [] ==>
        (r == ErrorUnknown || r == ErrorExtensionNotPresent) && device == old(device)
    {
      if physicalDevice == NULL_HANDLE {
        return ErrorUnknown;
      }
      var extensionsOk := ValidatePhysicalDeviceExtensionSupportArray(requestedExtensions, deviceExtensions);
      if !extensionsOk {
        return ErrorExtensionNotPresent;
      }
      device := created;
      r := driverResult;
    }

    method GetDevice() returns (r: Checked)
      ensures r.handle == device
      ensures r.loggedError <==> device == NULL_HANDLE
    {
      r := Checked(device, device == NULL_HANDLE);
    }
  }
}
