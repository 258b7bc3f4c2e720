/**
 * Physical-device selection and logical-device set-up.  Everything Vulkan
 * reports about a device (queue families, surface support, extensions,
 * swap-chain support, format and memory properties) is an input; the model is
 * the selection logic that runs over those answers.
 */
module Devices {
  import opened Results
  import opened VulkanErrors

  /** A Vulkan flag word (`vk::QueueFlags`, `vk::FormatFeatureFlags`, `vk::MemoryPropertyFlags`). */
  type Flags = bv32

  /** `flags.contains(wanted)`: every bit of `wanted` is set in `flags`. */
  predicate Contains(flags: Flags, wanted: Flags)
  {
    flags & wanted == wanted
  }

  const GRAPHICS: Flags := 0x1

  /* ---------------------------------------------------------------- queue families */

  datatype QueueFamily = QueueFamily(queueCount: nat, queueFlags: Flags)

  datatype QueueFamilyIndices = QueueFamilyIndices(graphicsFamily: nat, presentFamily: nat)

  /** `get_physical_device_surface_support` for each family index. */
  type PresentSupport = nat -> Result<bool, int>

  predicate GraphicsCapable(family: QueueFamily)
  {
    family.queueCount > 0 && Contains(family.queueFlags, GRAPHICS)
  }

  /** The surface-support query succeeded for every index below `n`. */
  ghost predicate SupportAnswered(support: PresentSupport, n: nat)
  {
    forall j :: 0 <= j < n ==> support(j).Ok?
  }

  predicate PresentCapable(families: seq<QueueFamily>, support: PresentSupport, j: nat)
    requires j < |families| && support(j).Ok?
  {
    families[j].queueCount > 0 && support(j).value
  }

  /** The latest graphics-capable family below `n`. */
  function LastGraphics(families: seq<QueueFamily>, n: nat): (g: Option<nat>)
    requires n <= |families|
    ensures g.Some? ==> g.value < n && GraphicsCapable(families[g.value])
    ensures g.Some? ==> forall j :: g.value < j < n ==> !GraphicsCapable(families[j])
    ensures g.None? ==> forall j :: 0 <= j < n ==> !GraphicsCapable(families[j])
  {
    if n == 0 then None
    else if GraphicsCapable(families[n - 1]) then Some(n - 1)
    else LastGraphics(families, n - 1)
  }

  /** The latest present-capable family below `n`. */
  function LastPresent(families: seq<QueueFamily>, support: PresentSupport, n: nat): (p: Option<nat>)
    requires n <= |families| && SupportAnswered(support, n)
    ensures p.Some? ==> p.value < n && PresentCapable(families, support, p.value)
    ensures p.Some? ==> forall j :: p.value < j < n ==> !PresentCapable(families, support, j)
    ensures p.None? ==> forall j :: 0 <= j < n ==> !PresentCapable(families, support, j)
  {
    if n == 0 then None
    else if PresentCapable(families, support, n - 1) then Some(n - 1)
    else LastPresent(families, support, n - 1)
  }

  /** The families below `n` hold both a graphics-capable and a present-capable one. */
  predicate Complete(families: seq<QueueFamily>, support: PresentSupport, n: nat)
    requires n <= |families| && SupportAnswered(support, n)
  {
    LastGraphics(families, n).Some? && LastPresent(families, support, n).Some?
  }

  function Max(a: nat, b: nat): nat
  {
    if a < b then b else a
  }

  /**
   * What `find_queue_families` answers, having looked at the families below
   * `i` without finding a complete prefix.
   */
  function QueueFamiliesFrom(families: seq<QueueFamily>, support: PresentSupport, i: nat): (r: Result<QueueFamilyIndices, VulkanError>)
    requires i <= |families| && SupportAnswered(support, i) && !Complete(families, support, i)
    ensures r.Ok? ==>
      var k := Max(r.value.graphicsFamily, r.value.presentFamily);
      && i <= k < |families| && SupportAnswered(support, k + 1)
      && LastGraphics(families, k + 1) == Some(r.value.graphicsFamily)
      && LastPresent(families, support, k + 1) == Some(r.value.presentFamily)
      && !Complete(families, support, k)
    ensures r == Err(Unsupported(QueueFamilies)) <==>
      SupportAnswered(support, |families|) && !Complete(families, support, |families|)
    ensures r.Err? ==> r.error.Vk? || r.error == Unsupported(QueueFamilies)
    ensures r.Err? && r.error.Vk? ==>
      exists k :: i <= k < |families| && SupportAnswered(support, k) && support(k) == Err(r.error.result)
        && !Complete(families, support, k)
    decreases |families| - i
  {
    if i == |families| then Err(Unsupported(QueueFamilies))
    else if support(i).Err? then Err(Vk(support(i).error))
    else if Complete(families, support, i + 1) then
      Ok(QueueFamilyIndices(LastGraphics(families, i + 1).value, LastPresent(families, support, i + 1).value))
    else
      QueueFamiliesFrom(families, support, i + 1)
  }

  function QueueFamiliesSpec(families: seq<QueueFamily>, support: PresentSupport): Result<QueueFamilyIndices, VulkanError>
  {
    QueueFamiliesFrom(families, support, 0)
  }

  /**
   * `find_queue_families`: walk the families in order, remembering the latest
   * graphics-capable and present-capable index, and stop at the first index
   * where both are known.  A failed surface-support query is passed on.
   */
  method FindQueueFamilies(families: seq<QueueFamily>, support: PresentSupport) returns (r: Result<QueueFamilyIndices, VulkanError>)
    ensures r == QueueFamiliesSpec(families, support)
  {
    var graphicsFamily: Option<nat> := None;
    var presentFamily: Option<nat> := None;
    var i := 0;
    while i < |families|
      invariant Scanned(families, support, i, graphicsFamily, presentFamily)
    {
      ScanStep(families, support, i, graphicsFamily, presentFamily);
      var family := families[i];
      if GraphicsCapable(family) {
        graphicsFamily := Some(i);
      }
      var presentSupport := support(i);
      if presentSupport.Err? {
        return Err(Vk(presentSupport.error));
      }
      if PresentCapable(families, support, i) {
        presentFamily := Some(i);
      }
      if graphicsFamily.Some? && presentFamily.Some? {
        return Ok(QueueFamilyIndices(graphicsFamily.value, presentFamily.value));
      }
      i := i + 1;
    }
    ScanEnd(families, support, graphicsFamily, presentFamily);
    return Err(Unsupported(QueueFamilies));
  }

  /**
   * The loop state of `find_queue_families` after the families below `i`: no
   * complete prefix yet, the remembered indices are the latest qualifying
   * ones, and the answer still to come is the search's answer.
   */
  ghost predicate Scanned(families: seq<QueueFamily>, support: PresentSupport, i: nat, g: Option<nat>, p: Option<nat>)
  {
    && i <= |families| && SupportAnswered(support, i) && !Complete(families, support, i)
    && g == LastGraphics(families, i)
    && p == LastPresent(families, support, i)
    && QueueFamiliesFrom(families, support, i) == QueueFamiliesSpec(families, support)
  }

  /** One index of the search: a failed query is the answer, both indices known is the answer, otherwise the scan goes on. */
  lemma ScanStep(families: seq<QueueFamily>, support: PresentSupport, i: nat, g: Option<nat>, p: Option<nat>)
    requires i < |families| && Scanned(families, support, i, g, p)
    ensures support(i).Err? ==> QueueFamiliesSpec(families, support) == Err(Vk(support(i).error))
    ensures support(i).Ok? ==>
      var g' := if GraphicsCapable(families[i]) then Some(i) else g;
      var p' := if PresentCapable(families, support, i) then Some(i) else p;
      if g'.Some? && p'.Some? then QueueFamiliesSpec(families, support) == Ok(QueueFamilyIndices(g'.value, p'.value))
      else Scanned(families, support, i + 1, g', p')
  {
    if support(i).Ok? {
      assert SupportAnswered(support, i + 1);
    }
  }

  /** Scanning every family without completing the pair is the unsupported answer. */
  lemma ScanEnd(families: seq<QueueFamily>, support: PresentSupport, g: Option<nat>, p: Option<nat>)
    requires Scanned(families, support, |families|, g, p)
    ensures QueueFamiliesSpec(families, support) == Err(Unsupported(QueueFamilies))
  {
  }

  /**
   * On success both indices name qualifying families; each is the latest
   * qualifying one up to the index where the search stopped, which is the
   * larger of the two; every support query up to there succeeded; and no
   * shorter prefix held both kinds.
   */
  lemma QueueFamiliesFound(families: seq<QueueFamily>, support: PresentSupport)
    requires QueueFamiliesSpec(families, support).Ok?
    ensures var QueueFamilyIndices(g, p) := QueueFamiliesSpec(families, support).value;
      var k := Max(g, p);
      && g < |families| && p < |families|
      && (forall j :: 0 <= j <= k ==> support(j).Ok?)
      && GraphicsCapable(families[g]) && PresentCapable(families, support, p)
      && (forall j :: g < j <= k ==> !GraphicsCapable(families[j]))
      && (forall j :: p < j <= k ==> !PresentCapable(families, support, j))
      && ((forall j :: 0 <= j < k ==> !GraphicsCapable(families[j]))
          || (forall j :: 0 <= j < k ==> !PresentCapable(families, support, j)))
  {
    var QueueFamilyIndices(g, p) := QueueFamiliesSpec(families, support).value;
    var k := Max(g, p);
    var lg, lp := LastGraphics(families, k), LastPresent(families, support, k);
  }

  /** The search fails as unsupported exactly when every query succeeds and some kind of family is absent. */
  lemma QueueFamiliesUnsupported(families: seq<QueueFamily>, support: PresentSupport)
    ensures QueueFamiliesSpec(families, support) == Err(Unsupported(QueueFamilies)) <==>
      && (forall j :: 0 <= j < |families| ==> support(j).Ok?)
      && ((forall j :: 0 <= j < |families| ==> !GraphicsCapable(families[j]))
          || (forall j :: 0 <= j < |families| ==> !PresentCapable(families, support, j)))
  {
    if SupportAnswered(support, |families|) {
      var lg, lp := LastGraphics(families, |families|), LastPresent(families, support, |families|);
    }
  }

  /** Any other failure is a failed support query, made before both kinds had been seen. */
  lemma QueueFamiliesQueryError(families: seq<QueueFamily>, support: PresentSupport)
    requires QueueFamiliesSpec(families, support).Err?
    requires QueueFamiliesSpec(families, support) != Err(Unsupported(QueueFamilies))
    ensures var e := QueueFamiliesSpec(families, support).error;
      && e.Vk?
      && exists k :: 0 <= k < |families| && support(k) == Err(e.result)
          && (forall j :: 0 <= j < k ==> support(j).Ok?)
          && ((forall j :: 0 <= j < k ==> !GraphicsCapable(families[j]))
              || (forall j :: 0 <= j < k ==> !PresentCapable(families, support, j)))
  {
    var e := QueueFamiliesSpec(families, support).error;
    var k :| 0 <= k < |families| && SupportAnswered(support, k) && support(k) == Err(e.result)
      && !Complete(families, support, k);
    var lg, lp := LastGraphics(families, k), LastPresent(families, support, k);
  }

  /* ---------------------------------------------------------------- formats */

  /** A raw `vk::Format` value. */
  type Format = int

  const B8G8R8_UNORM: Format := 30

  /** A raw `vk::ImageTiling` value. */
  type Tiling = int

  const OPTIMAL: Tiling := 0
  const LINEAR: Tiling := 1

  datatype FormatProperties = FormatProperties(linearTilingFeatures: Flags, optimalTilingFeatures: Flags)

  /** The features of `props` for the requested tiling contain `features`; no other tiling qualifies. */
  predicate Supports(props: FormatProperties, tiling: Tiling, features: Flags)
  {
    || (tiling == LINEAR && Contains(props.linearTilingFeatures, features))
    || (tiling == OPTIMAL && Contains(props.optimalTilingFeatures, features))
  }

  /**
   * `find_supported_format`: the first candidate whose properties support the
   * features for the tiling, or `B8G8R8_UNORM` when none does.
   */
  method FindSupportedFormat(candidates: seq<Format>, tiling: Tiling, features: Flags, properties: Format -> FormatProperties)
    returns (format: Format)
    ensures (exists i :: 0 <= i < |candidates| && Supports(properties(candidates[i]), tiling, features)) ==>
      exists i :: 0 <= i < |candidates| && format == candidates[i]
        && Supports(properties(candidates[i]), tiling, features)
        && forall j :: 0 <= j < i ==> !Supports(properties(candidates[j]), tiling, features)
    ensures (forall i :: 0 <= i < |candidates| ==> !Supports(properties(candidates[i]), tiling, features)) ==>
      format == B8G8R8_UNORM
  {
    for i := 0 to |candidates|
      invariant forall j :: 0 <= j < i ==> !Supports(properties(candidates[j]), tiling, features)
    {
      if Supports(properties(candidates[i]), tiling, features) {
        return candidates[i];
      }
    }
    return B8G8R8_UNORM;
  }

  /* ---------------------------------------------------------------- memory types */

  /** Vulkan has at most `VK_MAX_MEMORY_HEAPS` = 16 heaps, so a heap index is below 16. */
  type HeapIndex = i: nat | i < 16

  datatype MemoryType = MemoryType(propertyFlags: Flags, heapIndex: HeapIndex)

  /** `vk::MemoryType::default()`. */
  const DEFAULT_MEMORY_TYPE := MemoryType(0, 0)

  const HOST_VISIBLE: Flags := 0x2
  const DEVICE_LOCAL: Flags := 0x1

  /** The test `find_memory_type` applies to an entry: its heap's bit in the filter, and the flags. */
  predicate HeapBitAccepts(entry: MemoryType, typeFilter: bv32, properties: Flags)
  {
    typeFilter & (1 << entry.heapIndex) != 0 && Contains(entry.propertyFlags, properties)
  }

  /** Bit `i` of a `memoryTypeBits` filter allows memory type `i`, as the Vulkan standard defines it. */
  predicate TypeBitAccepts(i: nat, entry: MemoryType, typeFilter: bv32, properties: Flags)
  {
    i < 32 && typeFilter & (1 << i) != 0 && Contains(entry.propertyFlags, properties)
  }

  /** `entry` is the first memory type `find_memory_type` accepts, or the default when it accepts none. */
  ghost predicate FirstByHeapBit(types: seq<MemoryType>, typeFilter: bv32, properties: Flags, entry: MemoryType)
  {
    && ((exists i :: 0 <= i < |types| && HeapBitAccepts(types[i], typeFilter, properties)) ==>
          exists i :: 0 <= i < |types| && entry == types[i] && HeapBitAccepts(types[i], typeFilter, properties)
            && forall j :: 0 <= j < i ==> !HeapBitAccepts(types[j], typeFilter, properties))
    && ((forall i :: 0 <= i < |types| ==> !HeapBitAccepts(types[i], typeFilter, properties)) ==>
          entry == DEFAULT_MEMORY_TYPE)
  }

  /** `entry` is the first memory type that the filter allows by its index, or the default. */
  ghost predicate FirstByTypeBit(types: seq<MemoryType>, typeFilter: bv32, properties: Flags, entry: MemoryType)
  {
    && ((exists i :: 0 <= i < |types| && TypeBitAccepts(i, types[i], typeFilter, properties)) ==>
          exists i :: 0 <= i < |types| && entry == types[i] && TypeBitAccepts(i, types[i], typeFilter, properties)
            && forall j :: 0 <= j < i ==> !TypeBitAccepts(j, types[j], typeFilter, properties))
    && ((forall i :: 0 <= i < |types| ==> !TypeBitAccepts(i, types[i], typeFilter, properties)) ==>
          entry == DEFAULT_MEMORY_TYPE)
  }

  /**
   * `find_memory_type` as written: it tests the filter bit of each entry's
   * heap index.  `types` is the whole `memory_types` array, which the loop
   * walks in full.
   */
  method FindMemoryType(types: seq<MemoryType>, typeFilter: bv32, properties: Flags) returns (entry: MemoryType)
    ensures FirstByHeapBit(types, typeFilter, properties, entry)
  {
    for i := 0 to |types|
      invariant forall j :: 0 <= j < i ==> !HeapBitAccepts(types[j], typeFilter, properties)
    {
      var memType := types[i];
      if HeapBitAccepts(memType, typeFilter, properties) {
        return memType;
      }
    }
    return DEFAULT_MEMORY_TYPE;
  }

  /** `find_memory_type` with the filter read as the Vulkan standard defines it: bit `i` for memory type `i`. */
  method FindMemoryTypeByIndex(types: seq<MemoryType>, typeFilter: bv32, properties: Flags) returns (entry: MemoryType)
    ensures FirstByTypeBit(types, typeFilter, properties, entry)
  {
    var i := 0;
    while i < |types| && i < 32
      invariant i <= |types| && i <= 32
      invariant forall j :: 0 <= j < i ==> !TypeBitAccepts(j, types[j], typeFilter, properties)
    {
      if TypeBitAccepts(i, types[i], typeFilter, properties) {
        return types[i];
      }
      i := i + 1;
    }
    return DEFAULT_MEMORY_TYPE;
  }

  /** Two host-visible and device-local memory types that share heap 0. */
  const SHARED_HEAP_TYPES := [MemoryType(HOST_VISIBLE, 0), MemoryType(DEVICE_LOCAL, 0)]

  /**
   * A buffer that allows only memory type 1 (`memoryTypeBits` = 0b10) and
   * asks for device-local memory: the as-written search tests bit 0 (the heap
   * of both types) and finds nothing, so it returns the default memory type;
   * read by index, the filter allows type 1, which is device-local.
   */
  lemma HeapBitMissesAllowedType()
    ensures forall e :: FirstByHeapBit(SHARED_HEAP_TYPES, 0x2, DEVICE_LOCAL, e) ==> e == DEFAULT_MEMORY_TYPE
    ensures forall e :: FirstByTypeBit(SHARED_HEAP_TYPES, 0x2, DEVICE_LOCAL, e) ==> e == SHARED_HEAP_TYPES[1]
    ensures SHARED_HEAP_TYPES[1] != DEFAULT_MEMORY_TYPE
  {
    var types := SHARED_HEAP_TYPES;
    assert !HeapBitAccepts(types[0], 0x2, DEVICE_LOCAL) && !HeapBitAccepts(types[1], 0x2, DEVICE_LOCAL);
    assert !TypeBitAccepts(0, types[0], 0x2, DEVICE_LOCAL) && TypeBitAccepts(1, types[1], 0x2, DEVICE_LOCAL);
  }

  /* ---------------------------------------------------------------- extensions */

  /** `DEVICE_EXTENSIONS`: the swap-chain extension. */
  const DEVICE_EXTENSIONS: seq<string> := ["VK_KHR_swapchain"]

  /** The requested names that `supported` lacks, in requested order. */
  function Missing(requested: seq<string>, supported: seq<string>): (m: seq<string>)
    ensures forall x :: x in m <==> x in requested && x !in supported
    ensures |m| <= |requested|
  {
    if requested == [] then []
    else
      var last := requested[|requested| - 1];
      Missing(requested[..|requested| - 1], supported) + (if last in supported then [] else [last])
  }

  /** Missing names keep the order of the request: the missing names of a concatenation are concatenated. */
  lemma {:induction false} MissingAppend(a: seq<string>, b: seq<string>, supported: seq<string>)
    ensures Missing(a + b, supported) == Missing(a, supported) + Missing(b, supported)
    decreases |b|
  {
    if b == [] {
      assert a + b == a;
    } else {
      var b' := b[..|b| - 1];
      assert (a + b)[..|a + b| - 1] == a + b';
      MissingAppend(a, b', supported);
    }
  }

  /** What `device_extensions_supported` answers for a request and the device's extension list. */
  function ExtensionsCheck(requested: seq<string>, query: Result<seq<string>, int>): (r: Result<Unit, VulkanError>)
    ensures query.Err? ==> r == Err(Vk(query.error))
    ensures query.Ok? ==> (r.Ok? <==> forall x :: x in requested ==> x in query.value)
    ensures query.Ok? && r.Err? ==> r.error == Unsupported(DeviceExtensions(Missing(requested, query.value)))
  {
    match query
    case Err(e) => Err(Vk(e))
    case Ok(supported) =>
      var missing := Missing(requested, supported);
      if missing == [] then Ok(Unit)
      else
        assert missing[0] in missing;
        Err(Unsupported(DeviceExtensions(missing)))
  }

  /**
   * `device_extensions_supported`: list the device's extensions, push every
   * requested one that is not among them, and fail when any was pushed.
   */
  method DeviceExtensionsSupported(requested: seq<string>, query: Result<seq<string>, int>) returns (r: Result<Unit, VulkanError>)
    ensures r == ExtensionsCheck(requested, query)
  {
    if query.Err? {
      return Err(Vk(query.error));
    }
    var supported := query.value;
    var missing: seq<string> := [];
    for i := 0 to |requested|
      invariant missing == Missing(requested[..i], supported)
    {
      assert requested[..i + 1][..i] == requested[..i];
      if requested[i] !in supported {
        missing := missing + [requested[i]];
      }
    }
    assert requested[..|requested|] == requested;
    if missing != [] {
      return Err(Unsupported(DeviceExtensions(missing)));
    }
    return Ok(Unit);
  }

  /* ---------------------------------------------------------------- suitability and choice */

  datatype SwapchainSupport = SwapchainSupport(formats: seq<Format>, presentModes: seq<int>)

  /** What Vulkan reports about one physical device. */
  datatype PhysicalDevice = PhysicalDevice(
    deviceType: int,                                  // raw `vk::PhysicalDeviceType`
    queueFamilies: seq<QueueFamily>,
    presentSupport: PresentSupport,
    extensions: Result<seq<string>, int>,             // `enumerate_device_extension_properties`
    swapchainSupport: Result<SwapchainSupport, int>,  // `surface.swapchain_support`
    featuresSupported: bool)                          // `device_features_supported(..).is_ok()`

  function ExtensionsOf(device: PhysicalDevice): Result<Unit, VulkanError>
  {
    ExtensionsCheck(DEVICE_EXTENSIONS, device.extensions)
  }

  /** `is_suitable`. */
  predicate IsSuitable(device: PhysicalDevice)
  {
    var extensionsSupported := ExtensionsOf(device).Ok?;
    if extensionsSupported && device.swapchainSupport.Err? then false
    else
      var swapchainAdequate :=
        if extensionsSupported then
          var support := device.swapchainSupport.value;
          |support.formats| > 0 && |support.presentModes| > 0
        else false;
      QueueFamiliesSpec(device.queueFamilies, device.presentSupport).Ok?
        && extensionsSupported && swapchainAdequate && device.featuresSupported
  }

  /**
   * A device is suitable exactly when its queue families are found, it has
   * every requested extension, its swap chain offers at least one format and
   * one present mode, and its features are supported.
   */
  lemma SuitableIff(device: PhysicalDevice)
    ensures IsSuitable(device) <==>
      && QueueFamiliesSpec(device.queueFamilies, device.presentSupport).Ok?
      && (device.extensions.Ok? && forall x :: x in DEVICE_EXTENSIONS ==> x in device.extensions.value)
      && (device.swapchainSupport.Ok?
          && |device.swapchainSupport.value.formats| > 0 && |device.swapchainSupport.value.presentModes| > 0)
      && device.featuresSupported
  {
  }

  /** The swap chain is only asked about when the extensions are supported. */
  lemma SwapchainIgnoredWithoutExtensions(device: PhysicalDevice, swapchain: Result<SwapchainSupport, int>)
    requires ExtensionsOf(device).Err?
    ensures !IsSuitable(device) && !IsSuitable(device.(swapchainSupport := swapchain))
  {
  }

  const DISCRETE_GPU := 2
  const INTEGRATED_GPU := 1
  const VIRTUAL_GPU := 3
  const CPU := 4
  const OTHER := 0

  /** The preference score of a device type: lower is preferred. */
  function Score(deviceType: int): (s: nat)
    ensures s <= 5
    ensures s == 0 <==> deviceType == DISCRETE_GPU
    ensures s == 1 <==> deviceType == INTEGRATED_GPU
    ensures s == 2 <==> deviceType == VIRTUAL_GPU
    ensures s == 3 <==> deviceType == CPU
    ensures s == 4 <==> deviceType == OTHER
  {
    if deviceType == DISCRETE_GPU then 0
    else if deviceType == INTEGRATED_GPU then 1
    else if deviceType == VIRTUAL_GPU then 2
    else if deviceType == CPU then 3
    else if deviceType == OTHER then 4
    else 5
  }

  /** The `min_by_key` key of each device: its score if it passes the `filter`, nothing otherwise. */
  function Keys(devices: seq<PhysicalDevice>): (keys: seq<Option<nat>>)
    ensures |keys| == |devices|
    ensures forall j :: 0 <= j < |devices| ==>
      keys[j] == if IsSuitable(devices[j]) then Some(Score(devices[j].deviceType)) else None
  {
    seq(|devices|, j requires 0 <= j < |devices| =>
      if IsSuitable(devices[j]) then Some(Score(devices[j].deviceType)) else None)
  }

  /** `min_by_key` over the present keys of `keys[i..]`: the first of the lowest. */
  function FirstMin(keys: seq<Option<nat>>, i: nat): (best: Option<nat>)
    requires i <= |keys|
    ensures best.None? <==> forall j :: i <= j < |keys| ==> keys[j].None?
    ensures best.Some? ==>
      var k := best.value;
      && i <= k < |keys| && keys[k].Some?
      && (forall j :: i <= j < |keys| && keys[j].Some? ==> keys[k].value <= keys[j].value)
      && (forall j :: i <= j < k && keys[j].Some? ==> keys[k].value < keys[j].value)
    decreases |keys| - i
  {
    if i == |keys| then None
    else
      var rest := FirstMin(keys, i + 1);
      if keys[i].None? then rest
      else if rest.None? || keys[i].value <= keys[rest.value].value then Some(i)
      else rest
  }

  /** Device `k` is suitable, no suitable device scores lower, and every suitable device before it scores higher. */
  ghost predicate FirstBest(devices: seq<PhysicalDevice>, k: nat)
  {
    && k < |devices| && IsSuitable(devices[k])
    && (forall j :: 0 <= j < |devices| && IsSuitable(devices[j]) ==> Score(devices[k].deviceType) <= Score(devices[j].deviceType))
    && (forall j :: 0 <= j < k && IsSuitable(devices[j]) ==> Score(devices[k].deviceType) < Score(devices[j].deviceType))
  }

  const NO_VALID_DEVICE := "Failed to find valid physical device"

  /**
   * `pick_physical_device`: the index of the chosen device among those Vulkan
   * enumerates.
   */
  function PickPhysicalDevice(enumerated: Result<seq<PhysicalDevice>, int>): (r: Result<nat, VulkanError>)
    ensures match enumerated
      case Err(e) => r == Err(Vk(e))
      case Ok(devices) =>
        && (r.Err? <==> forall j :: 0 <= j < |devices| ==> !IsSuitable(devices[j]))
        && (r.Err? ==> r.error == Error(NO_VALID_DEVICE))
        && (r.Ok? ==> FirstBest(devices, r.value))
  {
    match enumerated
    case Err(e) => Err(Vk(e))
    case Ok(devices) =>
      KeysChooseFirstBest(devices);
      match FirstMin(Keys(devices), 0)
      case None => Err(Error(NO_VALID_DEVICE))
      case Some(k) => Ok(k)
  }

  /** The first minimum of the keys is the first best suitable device, and there is none exactly when no device is suitable. */
  lemma KeysChooseFirstBest(devices: seq<PhysicalDevice>)
    ensures var best := FirstMin(Keys(devices), 0);
      && (best.None? <==> forall j :: 0 <= j < |devices| ==> !IsSuitable(devices[j]))
      && (best.Some? ==> FirstBest(devices, best.value))
  {
    var keys := Keys(devices);
    var best := FirstMin(keys, 0);
    if best.None? {
      forall j | 0 <= j < |devices|
        ensures !IsSuitable(devices[j])
      {
        assert keys[j].None?;
      }
    } else {
      var k := best.value;
      assert keys[k] == Some(Score(devices[k].deviceType));
      assert IsSuitable(devices[k]);
      forall j | 0 <= j < |devices| && IsSuitable(devices[j])
        ensures Score(devices[k].deviceType) <= Score(devices[j].deviceType)
        ensures j < k ==> Score(devices[k].deviceType) < Score(devices[j].deviceType)
      {
        assert keys[j] == Some(Score(devices[j].deviceType));
      }
    }
  }

  /** A discrete GPU that is suitable is always chosen over every other kind. */
  lemma DiscretePreferred(devices: seq<PhysicalDevice>, d: nat)
    requires d < |devices| && IsSuitable(devices[d]) && devices[d].deviceType == DISCRETE_GPU
    ensures PickPhysicalDevice(Ok(devices)).Ok?
    ensures devices[PickPhysicalDevice(Ok(devices)).value].deviceType == DISCRETE_GPU
    ensures PickPhysicalDevice(Ok(devices)).value <= d
  {
  }

  /* ---------------------------------------------------------------- logical device */

  datatype QueueCreateInfo = QueueCreateInfo(queueFamilyIndex: nat, queueCount: nat)

  /** The family indices the infos name. */
  function FamiliesOf(infos: seq<QueueCreateInfo>): set<nat>
  {
    set info | info in infos :: info.queueFamilyIndex
  }

  /** Infos with pairwise distinct family indices name as many families as there are infos. */
  lemma {:induction false} DistinctFamilies(infos: seq<QueueCreateInfo>)
    requires forall i, j :: 0 <= i < j < |infos| ==> infos[i].queueFamilyIndex != infos[j].queueFamilyIndex
    ensures |FamiliesOf(infos)| == |infos|
  {
    if infos != [] {
      var init, last := infos[..|infos| - 1], infos[|infos| - 1];
      DistinctFamilies(init);
      assert FamiliesOf(infos) == FamiliesOf(init) + {last.queueFamilyIndex} by {
        assert infos == init + [last];
      }
      assert last.queueFamilyIndex !in FamiliesOf(init);
    }
  }

  /** The loop state of `QueueCreateInfos`: the infos so far name, once each, the families already visited. */
  ghost predicate InfosSoFar(infos: seq<QueueCreateInfo>, unvisited: set<nat>, all: set<nat>)
  {
    && unvisited <= all
    && FamiliesOf(infos) == all - unvisited
    && (forall i :: 0 <= i < |infos| ==> infos[i].queueCount == 1)
    && (forall i, j :: 0 <= i < j < |infos| ==> infos[i].queueFamilyIndex != infos[j].queueFamilyIndex)
  }

  lemma InfosStep(infos: seq<QueueCreateInfo>, unvisited: set<nat>, all: set<nat>, family: nat)
    requires InfosSoFar(infos, unvisited, all) && family in unvisited
    ensures InfosSoFar(infos + [QueueCreateInfo(family, 1)], unvisited - {family}, all)
  {
    var info := QueueCreateInfo(family, 1);
    forall i | 0 <= i < |infos| ensures infos[i].queueFamilyIndex in FamiliesOf(infos) {
      assert infos[i] in infos;
    }
    assert FamiliesOf(infos + [info]) == FamiliesOf(infos) + {family} by {
      assert forall x :: x in infos + [info] <==> x in infos || x == info;
    }
  }

  /**
   * The queue create infos of `new_logical_device`: one per distinct family of
   * `{graphics, present}`, visited in the set's (unspecified) order.
   */
  method QueueCreateInfos(indices: QueueFamilyIndices) returns (infos: seq<QueueCreateInfo>)
    ensures |infos| == if indices.graphicsFamily == indices.presentFamily then 1 else 2
    ensures forall i :: 0 <= i < |infos| ==> infos[i].queueCount == 1
    ensures FamiliesOf(infos) == {indices.graphicsFamily, indices.presentFamily}
    ensures forall i, j :: 0 <= i < j < |infos| ==> infos[i].queueFamilyIndex != infos[j].queueFamilyIndex
  {
    var uniqueQueueFamilies := {indices.graphicsFamily, indices.presentFamily};
    ghost var all := uniqueQueueFamilies;
    infos := [];
    while uniqueQueueFamilies != {}
      invariant InfosSoFar(infos, uniqueQueueFamilies, all)
      decreases |uniqueQueueFamilies|
    {
      var queueFamily :| queueFamily in uniqueQueueFamilies;
      InfosStep(infos, uniqueQueueFamilies, all, queueFamily);
      infos := infos + [QueueCreateInfo(queueFamily, 1)];
      uniqueQueueFamilies := uniqueQueueFamilies - {queueFamily};
    }
    DistinctFamilies(infos);
    if indices.graphicsFamily == indices.presentFamily {
      assert all == {indices.graphicsFamily};
    }
  }

  datatype Queue = Queue(familyIndex: nat)

  datatype LogicalDevice = LogicalDevice(queueCreateInfos: seq<QueueCreateInfo>, graphics: Queue, present: Queue)

  const DEVICE_CREATION_FAILED := "Failed to create logical graphics device"

  /**
   * `new_logical_device`: find the queue families, describe one queue per
   * distinct family, create the device (`creation` is Vulkan's answer), and
   * take queue 0 of the graphics and present families.
   */
  method NewLogicalDevice(families: seq<QueueFamily>, support: PresentSupport, creation: Result<Unit, int>)
    returns (r: Result<LogicalDevice, VulkanError>)
    ensures QueueFamiliesSpec(families, support).Err? ==> r == Err(QueueFamiliesSpec(families, support).error)
    ensures QueueFamiliesSpec(families, support).Ok? && creation.Err? ==> r == Err(Error(DEVICE_CREATION_FAILED))
    ensures QueueFamiliesSpec(families, support).Ok? && creation.Ok? ==> r.Ok?
    ensures r.Ok? ==>
      var indices := QueueFamiliesSpec(families, support).value;
      && creation.Ok?
      && r.value.graphics == Queue(indices.graphicsFamily)
      && r.value.present == Queue(indices.presentFamily)
      && |r.value.queueCreateInfos| == (if indices.graphicsFamily == indices.presentFamily then 1 else 2)
      && (forall i :: 0 <= i < |r.value.queueCreateInfos| ==> r.value.queueCreateInfos[i].queueCount == 1)
      && FamiliesOf(r.value.queueCreateInfos) == {indices.graphicsFamily, indices.presentFamily}
  {
    var found := FindQueueFamilies(families, support);
    if found.Err? {
      return Err(found.error);
    }
    var indices := found.value;
    var infos := QueueCreateInfos(indices);
    if creation.Err? {
      return Err(Error(DEVICE_CREATION_FAILED));
    }
    return Ok(LogicalDevice(infos, Queue(indices.graphicsFamily), Queue(indices.presentFamily)));
  }
}
