/**
 * Capability selection over what the driver reports: queue families, memory
 * types, format features, and the layer and extension name lists. Every
 * enumeration call becomes a parameter holding the driver's answer.
 */
module VkHelpers {
  import opened VkTypes

  // ---------------------------------------------------------------- queue families

  datatype QueueFamilyProperties = QueueFamilyProperties(queueFlags: Flags, queueCount: nat)

  /** A family with at least one queue that supports some of the requested capabilities. */
  predicate FamilyMatches(family: QueueFamilyProperties, flags: Flags)
  {
    family.queueCount > 0 && family.queueFlags & flags != 0
  }

  /** Index of the first matching family at or after `from`; |families| if there is none. */
  function FirstMatchingFamily(families: seq<QueueFamilyProperties>, flags: Flags, from: nat): (k: nat)
    requires from <= |families|
    ensures from <= k <= |families|
    ensures k < |families| ==> FamilyMatches(families[k], flags)
    ensures forall j | from <= j < k :: !FamilyMatches(families[j], flags)
    decreases |families| - from
  {
    if from == |families| then from
    else if FamilyMatches(families[from], flags) then from
    else FirstMatchingFamily(families, flags, from + 1)
  }

  /**
   * The first family, in the driver's order, with a queue whose flags meet
   * `flags`; 0 when none does, the same answer as a match at index 0.
   */
  function FindQueueFamilyIndex(families: seq<QueueFamilyProperties>, flags: Flags): (index: nat)
    ensures (exists i | 0 <= i < |families| :: FamilyMatches(families[i], flags)) ==>
      index < |families| && FamilyMatches(families[index], flags)
      && forall j | 0 <= j < index :: !FamilyMatches(families[j], flags)
    ensures (forall i | 0 <= i < |families| :: !FamilyMatches(families[i], flags)) ==> index == 0
  {
    var k := FirstMatchingFamily(families, flags, 0);
    if k < |families| then k else 0
  }

  /** VK_QUEUE_GRAPHICS_BIT */
  const QUEUE_GRAPHICS_BIT: Flags := 0x1

  /** A caller cannot tell "no family matches" from "family 0 matches". */
  lemma QueueFamilyNotFoundLooksLikeZero()
    ensures !FamilyMatches(QueueFamilyProperties(0, 1), QUEUE_GRAPHICS_BIT)
    ensures FindQueueFamilyIndex([QueueFamilyProperties(0, 1)], QUEUE_GRAPHICS_BIT) == 0
    ensures FamilyMatches(QueueFamilyProperties(QUEUE_GRAPHICS_BIT, 1), QUEUE_GRAPHICS_BIT)
    ensures FindQueueFamilyIndex([QueueFamilyProperties(QUEUE_GRAPHICS_BIT, 1)], QUEUE_GRAPHICS_BIT) == 0
  {
    assert FirstMatchingFamily([QueueFamilyProperties(0, 1)], QUEUE_GRAPHICS_BIT, 0) == 1;
    assert FamilyMatches([QueueFamilyProperties(QUEUE_GRAPHICS_BIT, 1)][0], QUEUE_GRAPHICS_BIT);
  }

  // ---------------------------------------------------------------- memory types

  /** VK_MAX_MEMORY_TYPES: the driver reports at most this many memory types. */
  const MAX_MEMORY_TYPES: nat := 32

  /** Memory type `i` is allowed by `typeFilter` and has every requested property. */
  predicate MemoryTypeSuitable(memoryTypes: seq<Flags>, i: nat, typeFilter: Flags, properties: Flags)
    requires i < |memoryTypes| <= MAX_MEMORY_TYPES
  {
    typeFilter & ((1 as Flags) << i) != 0 && memoryTypes[i] & properties == properties
  }

  function FirstSuitableMemoryType(memoryTypes: seq<Flags>, typeFilter: Flags, properties: Flags, from: nat): (k: nat)
    requires |memoryTypes| <= MAX_MEMORY_TYPES && from <= |memoryTypes|
    ensures from <= k <= |memoryTypes|
    ensures k < |memoryTypes| ==> MemoryTypeSuitable(memoryTypes, k, typeFilter, properties)
    ensures forall j | from <= j < k :: !MemoryTypeSuitable(memoryTypes, j, typeFilter, properties)
    decreases |memoryTypes| - from
  {
    if from == |memoryTypes| then from
    else if MemoryTypeSuitable(memoryTypes, from, typeFilter, properties) then from
    else FirstSuitableMemoryType(memoryTypes, typeFilter, properties, from + 1)
  }

  /**
   * The smallest memory-type index allowed by `typeFilter` whose property
   * flags include every requested property; UINT32_MAX when there is none.
   * `memoryTypes[i]` is the propertyFlags of the driver's i-th memory type.
   */
  function FindMemoryTypeIndex(memoryTypes: seq<Flags>, typeFilter: Flags, properties: Flags): (index: nat)
    requires |memoryTypes| <= MAX_MEMORY_TYPES
    ensures index == UINT32_MAX <==> forall i | 0 <= i < |memoryTypes| :: !MemoryTypeSuitable(memoryTypes, i, typeFilter, properties)
    ensures index != UINT32_MAX ==> index < |memoryTypes| && MemoryTypeSuitable(memoryTypes, index, typeFilter, properties)
    ensures index != UINT32_MAX ==> forall j | 0 <= j < index :: !MemoryTypeSuitable(memoryTypes, j, typeFilter, properties)
  {
    var k := FirstSuitableMemoryType(memoryTypes, typeFilter, properties, 0);
    if k < |memoryTypes| then k else UINT32_MAX
  }

  // ---------------------------------------------------------------- formats

  datatype FormatProperties = FormatProperties(linearTilingFeatures: Flags, optimalTilingFeatures: Flags, bufferFeatures: Flags)

  /** The feature mask of the requested tiling contains every requested feature. */
  predicate FormatSupports(properties: FormatProperties, tiling: ImageTiling, features: Flags)
  {
    || (tiling == TilingLinear && properties.linearTilingFeatures & features == features)
    || (tiling == TilingOptimal && properties.optimalTilingFeatures & features == features)
  }

  function FirstSupportedFormat(candidates: seq<Format>, tiling: ImageTiling, features: Flags,
                                query: Format -> FormatProperties, from: nat): (k: nat)
    requires from <= |candidates|
    ensures from <= k <= |candidates|
    ensures k < |candidates| ==> FormatSupports(query(candidates[k]), tiling, features)
    ensures forall j | from <= j < k :: !FormatSupports(query(candidates[j]), tiling, features)
    decreases |candidates| - from
  {
    if from == |candidates| then from
    else if FormatSupports(query(candidates[from]), tiling, features) then from
    else FirstSupportedFormat(candidates, tiling, features, query, from + 1)
  }

  /**
   * The first candidate, in array order, that the device supports with the
   * requested features for the requested tiling; Undefined when none does.
   * `query` stands for vkGetPhysicalDeviceFormatProperties.
   */
  function FindSupportedFormat(candidates: seq<Format>, tiling: ImageTiling, features: Flags,
                               query: Format -> FormatProperties): (format: Format)
    ensures (forall i | 0 <= i < |candidates| :: !FormatSupports(query(candidates[i]), tiling, features)) ==> format == Undefined
    ensures (exists i | 0 <= i < |candidates| :: FormatSupports(query(candidates[i]), tiling, features)) ==>
      exists k | 0 <= k < |candidates| :: format == candidates[k] && FormatSupports(query(candidates[k]), tiling, features)
        && forall j | 0 <= j < k :: !FormatSupports(query(candidates[j]), tiling, features)
  {
    var k := FirstSupportedFormat(candidates, tiling, features, query, 0);
    if k < |candidates| then candidates[k] else Undefined
  }

  /** A tiling that is neither linear nor optimal never finds a format. */
  lemma OtherTilingFindsNothing(candidates: seq<Format>, code: nat, features: Flags, query: Format -> FormatProperties)
    ensures FindSupportedFormat(candidates, TilingOther(code), features, query) == Undefined
  {
  }

  const DEPTH_FORMAT_CANDIDATES: seq<Format> := [D32Sfloat, D32SfloatS8Uint, D24UnormS8Uint]

  /** The preferred depth format: the depth candidates tried in order with optimal tiling. */
  function FindDepthFormat(query: Format -> FormatProperties): (format: Format)
    ensures format in {Undefined, D32Sfloat, D32SfloatS8Uint, D24UnormS8Uint}
    ensures FormatSupports(query(D32Sfloat), TilingOptimal, FORMAT_FEATURE_DEPTH_STENCIL_ATTACHMENT_BIT) ==> format == D32Sfloat
    ensures format == Undefined <==> forall f | f in DEPTH_FORMAT_CANDIDATES ::
      !FormatSupports(query(f), TilingOptimal, FORMAT_FEATURE_DEPTH_STENCIL_ATTACHMENT_BIT)
  {
    FindSupportedFormat(DEPTH_FORMAT_CANDIDATES, TilingOptimal, FORMAT_FEATURE_DEPTH_STENCIL_ATTACHMENT_BIT, query)
  }

  /** The format carries a stencil aspect. */
  predicate ValidateStencilComponent(format: Format)
  {
    format == D32SfloatS8Uint || format == D24UnormS8Uint
  }

  /** The chosen depth format has a stencil aspect unless it is the pure-depth first choice or none was found. */
  lemma DepthFormatStencil(query: Format -> FormatProperties)
    ensures ValidateStencilComponent(FindDepthFormat(query)) <==> FindDepthFormat(query) !in {Undefined, D32Sfloat}
  {
  }

  // ---------------------------------------------------------------- names

  /** Layer and extension names; strcmp equality is sequence equality. */
  type Name = string

  /** The search loop of the per-name validators: `name` occurs in `available`. */
  function Listed(available: seq<Name>, name: Name): (found: bool)
    ensures found <==> exists i | 0 <= i < |available| :: available[i] == name
  {
    if |available| == 0 then false
    else if available[0] == name then true
    else
      var found := Listed(available[1..], name);
      assert found ==> exists i | 0 <= i < |available[1..]| :: available[1..][i] == name;
      assert (exists i | 0 <= i < |available| :: available[i] == name) ==>
        exists i | 0 <= i < |available[1..]| :: available[1..][i] == name;
      found
  }

  /**
   * ValidateInstanceExtensionSupport, ValidateInstanceLayerSupport and
   * ValidatePhysicalDeviceExtensionSupport: search the list the caller passed
   * or, when that list is empty, the list the driver enumerates.
   */
  function ValidateSupport(name: Name, supplied: seq<Name>, enumerated: seq<Name>): (supported: bool)
    ensures |supplied| > 0 ==> (supported <==> name in supplied)
    ensures |supplied| == 0 ==> (supported <==> name in enumerated)
  {
    Listed(if |supplied| > 0 then supplied else enumerated, name)
  }

  /** Every requested name is in the list. */
  predicate AllListed(requested: seq<Name>, available: seq<Name>)
  {
    forall i | 0 <= i < |requested| :: requested[i] in available
  }

  /** The `result &= Validate...(names[i], ...)` loop shared by the three array validators. */
  method ConjoinSupport(requested: seq<Name>, available: seq<Name>) returns (result: bool)
    ensures result <==> AllListed(requested, available)
  {
    result := true;
    var i := 0;
    while i < |requested|
      invariant 0 <= i <= |requested|
      invariant result <==> forall j | 0 <= j < i :: requested[j] in available
    {
      var supported := ValidateSupport(requested[i], available, available);
      result := result && supported;
      i := i + 1;
    }
  }

  /** Extension lists pass only when non-null, non-empty and fully supported. */
  predicate ExtensionListSupported(requested: Option<seq<Name>>, available: seq<Name>)
  {
    requested.Some? && |requested.value| > 0 && AllListed(requested.value, available)
  }

  /** Layer lists pass when null or empty, and otherwise only when fully supported. */
  predicate LayerListSupported(requested: Option<seq<Name>>, available: seq<Name>)
  {
    requested.None? || |requested.value| == 0 || AllListed(requested.value, available)
  }

  /** `requested` is None for a null pointer; `instanceExtensions` is what the driver enumerates. */
  method ValidateInstanceExtensionSupportArray(requested: Option<seq<Name>>, instanceExtensions: seq<Name>) returns (result: bool)
    ensures result <==> ExtensionListSupported(requested, instanceExtensions)
    ensures requested.None? || requested.value == [] ==> !result
  {
    if requested.None? || |requested.value| == 0 {
      return false;
    }
    result := ConjoinSupport(requested.value, instanceExtensions);
  }

  method ValidateInstanceLayerSupportArray(requested: Option<seq<Name>>, instanceLayers: seq<Name>) returns (result: bool)
    ensures result <==> LayerListSupported(requested, instanceLayers)
    ensures requested.None? || requested.value == [] ==> result
  {
    if requested.None? || |requested.value| == 0 {
      return true;
    }
    result := ConjoinSupport(requested.value, instanceLayers);
  }

  method ValidatePhysicalDeviceExtensionSupportArray(requested: Option<seq<Name>>, deviceExtensions: seq<Name>) returns (result: bool)
    ensures result <==> ExtensionListSupported(requested, deviceExtensions)
    ensures requested.None? || requested.value == [] ==> !result
  {
    if requested.None? || |requested.value| == 0 {
      return false;
    }
    result := ConjoinSupport(requested.value, deviceExtensions);
  }
}
