// Selection policies of the presentation engine: pure decisions over the
// capability data that Vulkan reports (vk_renderer.cc, lines 35-100,
// 334-430 and 546-563).
module Selection {
  import opened Vulkan

  // ---------------------------------------------------------------------
  // get_max_usable_sample_count

  /** The sample-count bits the source tests, highest first. */
  const SampleCountsHighFirst: seq<bv32> := [
    VK_SAMPLE_COUNT_64_BIT, VK_SAMPLE_COUNT_32_BIT, VK_SAMPLE_COUNT_16_BIT,
    VK_SAMPLE_COUNT_8_BIT, VK_SAMPLE_COUNT_4_BIT, VK_SAMPLE_COUNT_2_BIT]

  /**
   * No sample-count bit above `r` is set in `counts`, written out bit by bit
   * (64 down to 2) so that no proof has to range over the bits.
   */
  predicate NoneAbove(counts: bv32, r: bv32) {
    && (r < VK_SAMPLE_COUNT_64_BIT ==> counts & VK_SAMPLE_COUNT_64_BIT == 0)
    && (r < VK_SAMPLE_COUNT_32_BIT ==> counts & VK_SAMPLE_COUNT_32_BIT == 0)
    && (r < VK_SAMPLE_COUNT_16_BIT ==> counts & VK_SAMPLE_COUNT_16_BIT == 0)
    && (r < VK_SAMPLE_COUNT_8_BIT ==> counts & VK_SAMPLE_COUNT_8_BIT == 0)
    && (r < VK_SAMPLE_COUNT_4_BIT ==> counts & VK_SAMPLE_COUNT_4_BIT == 0)
    && (r < VK_SAMPLE_COUNT_2_BIT ==> counts & VK_SAMPLE_COUNT_2_BIT == 0)
  }

  /**
   * The highest of the 64..2 sample-count bits that both the colour and the
   * stencil limits support, or VK_SAMPLE_COUNT_1_BIT when they share none of
   * them.
   */
  function MaxUsableSampleCount(colorCounts: bv32, stencilCounts: bv32): (r: bv32)
    ensures r == VK_SAMPLE_COUNT_1_BIT || r in SampleCountsHighFirst
    ensures r == VK_SAMPLE_COUNT_1_BIT || (colorCounts & r != 0 && stencilCounts & r != 0)
    ensures NoneAbove(colorCounts & stencilCounts, r)
  {
    var counts := colorCounts & stencilCounts;
    if counts & VK_SAMPLE_COUNT_64_BIT != 0 then VK_SAMPLE_COUNT_64_BIT
    else if counts & VK_SAMPLE_COUNT_32_BIT != 0 then VK_SAMPLE_COUNT_32_BIT
    else if counts & VK_SAMPLE_COUNT_16_BIT != 0 then VK_SAMPLE_COUNT_16_BIT
    else if counts & VK_SAMPLE_COUNT_8_BIT != 0 then VK_SAMPLE_COUNT_8_BIT
    else if counts & VK_SAMPLE_COUNT_4_BIT != 0 then VK_SAMPLE_COUNT_4_BIT
    else if counts & VK_SAMPLE_COUNT_2_BIT != 0 then VK_SAMPLE_COUNT_2_BIT
    else VK_SAMPLE_COUNT_1_BIT
  }

  /** Exactly one bit is set in b. */
  predicate SingleBit(b: bv32) {
    b != 0 && b & (b - 1) == 0
  }

  /** The chosen sample count is a single VkSampleCountFlagBits value. */
  lemma SampleCountIsSingleBit(colorCounts: bv32, stencilCounts: bv32)
    ensures SingleBit(MaxUsableSampleCount(colorCounts, stencilCounts))
  {
    var r := MaxUsableSampleCount(colorCounts, stencilCounts);
    if r == VK_SAMPLE_COUNT_1_BIT {
      assert SingleBit(VK_SAMPLE_COUNT_1_BIT);
    } else {
      assert r in SampleCountsHighFirst;
      assert forall b | b in SampleCountsHighFirst :: SingleBit(b);
    }
  }

  /** Any single sample-count bit shared by both limits is at most the chosen count. */
  lemma SampleCountIsMaximal(colorCounts: bv32, stencilCounts: bv32, b: bv32)
    requires b in SampleCountsHighFirst
    requires colorCounts & stencilCounts & b != 0
    ensures b <= MaxUsableSampleCount(colorCounts, stencilCounts)
  {
    var r := MaxUsableSampleCount(colorCounts, stencilCounts);
    assert NoneAbove(colorCounts & stencilCounts, r);
  }

  // ---------------------------------------------------------------------
  // choose_swap_chain_format

  predicate PreferredSurfaceFormat(f: SurfaceFormat) {
    f.format == VK_FORMAT_R8G8B8A8_UNORM && f.colorSpace == VK_COLOR_SPACE_SRGB_NONLINEAR_KHR
  }

  /** The position of the first preferred entry at or after `from`, or |formats|. */
  function FirstPreferredFormat(formats: seq<SurfaceFormat>, from: nat): (k: nat)
    requires from <= |formats|
    ensures from <= k <= |formats|
    ensures forall j | from <= j < k :: !PreferredSurfaceFormat(formats[j])
    ensures k < |formats| ==> PreferredSurfaceFormat(formats[k])
    decreases |formats| - from
  {
    if from == |formats| then from
    else if PreferredSurfaceFormat(formats[from]) then from
    else FirstPreferredFormat(formats, from + 1)
  }

  /**
   * The colour format of the swapchain, from the surface's format list:
   * UNDEFINED for an empty list, R8G8B8A8_UNORM for the single-UNDEFINED
   * list, then the preferred R8G8B8A8_UNORM / SRGB_NONLINEAR pair when it is
   * offered, else the first reported format.
   */
  function ChooseSwapChainFormat(formats: seq<SurfaceFormat>): (r: Format)
    ensures |formats| == 0 ==> r == VK_FORMAT_UNDEFINED
    ensures |formats| == 1 && formats[0].format == VK_FORMAT_UNDEFINED ==> r == VK_FORMAT_R8G8B8A8_UNORM
    ensures !(|formats| == 1 && formats[0].format == VK_FORMAT_UNDEFINED) ==>
              ((exists i | 0 <= i < |formats| :: PreferredSurfaceFormat(formats[i])) ==> r == VK_FORMAT_R8G8B8A8_UNORM)
    ensures |formats| > 0 && !(|formats| == 1 && formats[0].format == VK_FORMAT_UNDEFINED) ==>
              ((forall i | 0 <= i < |formats| :: !PreferredSurfaceFormat(formats[i])) ==> r == formats[0].format)
  {
    if |formats| == 0 then VK_FORMAT_UNDEFINED
    else if |formats| == 1 && formats[0].format == VK_FORMAT_UNDEFINED then VK_FORMAT_R8G8B8A8_UNORM
    else
      var k := FirstPreferredFormat(formats, 0);
      if k < |formats| then formats[k].format else formats[0].format
  }

  /**
   * The chosen format is always one the surface reported, or the fixed
   * default for the empty and the single-UNDEFINED lists.
   */
  lemma ChosenFormatIsReportedOrDefault(formats: seq<SurfaceFormat>)
    ensures var r := ChooseSwapChainFormat(formats);
      (exists i | 0 <= i < |formats| :: formats[i].format == r)
      || (|formats| == 0 && r == VK_FORMAT_UNDEFINED)
      || (|formats| == 1 && formats[0].format == VK_FORMAT_UNDEFINED && r == VK_FORMAT_R8G8B8A8_UNORM)
  {
    if |formats| > 0 && !(|formats| == 1 && formats[0].format == VK_FORMAT_UNDEFINED) {
      var k := FirstPreferredFormat(formats, 0);
      if k < |formats| {
        assert formats[k].format == ChooseSwapChainFormat(formats);
      } else {
        assert formats[0].format == ChooseSwapChainFormat(formats);
      }
    }
  }

  // ---------------------------------------------------------------------
  // get_support_depth_format

  /** The depth/stencil formats probed, highest precision first. */
  const DepthCandidates: seq<Format> := [
    VK_FORMAT_D32_SFLOAT_S8_UINT, VK_FORMAT_D24_UNORM_S8_UINT, VK_FORMAT_D16_UNORM_S8_UINT]

  predicate SupportsDepthAttachment(features: Format -> bv32, f: Format) {
    features(f) & VK_FORMAT_FEATURE_DEPTH_STENCIL_ATTACHMENT_BIT != 0
  }

  /** The position in DepthCandidates of the first supported format at or after `from`, or 3. */
  function FirstDepthCandidate(features: Format -> bv32, from: nat): (k: nat)
    requires from <= |DepthCandidates|
    ensures from <= k <= |DepthCandidates|
    decreases |DepthCandidates| - from
  {
    if from == |DepthCandidates| then from
    else if SupportsDepthAttachment(features, DepthCandidates[from]) then from
    else FirstDepthCandidate(features, from + 1)
  }

  /** Every candidate FirstDepthCandidate skips is unsupported, and the one it stops at is supported. */
  lemma {:induction false} FirstDepthCandidateIsFirst(features: Format -> bv32, from: nat)
    requires from <= |DepthCandidates|
    ensures var k := FirstDepthCandidate(features, from);
      && (forall j | from <= j < k :: !SupportsDepthAttachment(features, DepthCandidates[j]))
      && (k < |DepthCandidates| ==> SupportsDepthAttachment(features, DepthCandidates[k]))
    decreases |DepthCandidates| - from
  {
    if from < |DepthCandidates| && !SupportsDepthAttachment(features, DepthCandidates[from]) {
      FirstDepthCandidateIsFirst(features, from + 1);
    }
  }

  /** The boolean result and the value left in *out_format. */
  datatype DepthProbe = DepthProbe(found: bool, format: Format)

  /** get_support_depth_format: the first supported candidate, or `outFormat` untouched when none is. */
  function GetSupportDepthFormat(features: Format -> bv32, outFormat: Format): (r: DepthProbe)
    ensures !r.found ==> r.format == outFormat
  {
    var k := FirstDepthCandidate(features, 0);
    if k < |DepthCandidates| then DepthProbe(true, DepthCandidates[k]) else DepthProbe(false, outFormat)
  }

  /**
   * get_support_depth_format reports `found` exactly when one of the three
   * candidates supports depth/stencil attachment with optimal tiling; the
   * format is then the first such candidate, and otherwise the caller's
   * `outFormat`, untouched.
   */
  lemma GetSupportDepthFormatIsFirstSupported(features: Format -> bv32, outFormat: Format)
    ensures var r := GetSupportDepthFormat(features, outFormat);
      && (r.found <==> exists i | 0 <= i < |DepthCandidates| :: SupportsDepthAttachment(features, DepthCandidates[i]))
      && (r.found ==> exists k | 0 <= k < |DepthCandidates| ::
            && r.format == DepthCandidates[k]
            && SupportsDepthAttachment(features, DepthCandidates[k])
            && forall j | 0 <= j < k :: !SupportsDepthAttachment(features, DepthCandidates[j]))
      && (!r.found ==> r.format == outFormat)
  {
    FirstDepthCandidateIsFirst(features, 0);
    var k := FirstDepthCandidate(features, 0);
    if k < |DepthCandidates| {
      assert SupportsDepthAttachment(features, DepthCandidates[k]);
    }
  }

  /** Once a depth format was found, probing again with it as the old value changes nothing. */
  lemma DepthProbeIsStable(features: Format -> bv32, outFormat: Format)
    requires GetSupportDepthFormat(features, outFormat).found
    ensures var f := GetSupportDepthFormat(features, outFormat).format;
      GetSupportDepthFormat(features, f) == DepthProbe(true, f)
  {
  }

  // ---------------------------------------------------------------------
  // get_memory_type

  /** type_bits after it has been shifted right `i` times, one bit per step as the loop does. */
  function ShiftedTypeBits(typeBits: bv32, i: nat): bv32 {
    if i == 0 then typeBits else ShiftedTypeBits(typeBits, i - 1) >> 1
  }

  /** Bit i of type_bits allows memory type i. */
  predicate TypeBitSet(typeBits: bv32, i: nat) {
    ShiftedTypeBits(typeBits, i) & 1 == 1
  }

  /** The memory type's property flags include all the requested ones. */
  predicate HasProperties(flags: bv32, properties: bv32) {
    flags & properties == properties
  }

  /** Memory type i is allowed by bit i of type_bits and has all the requested property flags. */
  predicate MemoryTypeMatches(typeBits: bv32, properties: bv32, memoryTypes: seq<bv32>, i: nat) {
    i < |memoryTypes| && TypeBitSet(typeBits, i) && HasProperties(memoryTypes[i], properties)
  }

  /**
   * get_memory_type: the smallest memory type index allowed by `typeBits`
   * whose property flags include `properties`; 0 when there is none.  The
   * loop shifts its copy of type_bits right once per memory type, as the
   * source does.
   */
  method GetMemoryType(typeBits: bv32, properties: bv32, memoryTypes: seq<bv32>) returns (index: nat)
    ensures (exists i: nat :: MemoryTypeMatches(typeBits, properties, memoryTypes, i)) ==>
              MemoryTypeMatches(typeBits, properties, memoryTypes, index)
              && forall j | 0 <= j < index :: !MemoryTypeMatches(typeBits, properties, memoryTypes, j)
    ensures (forall i: nat :: !MemoryTypeMatches(typeBits, properties, memoryTypes, i)) ==> index == 0
  {
    var bits := typeBits;
    var i := 0;
    while i < |memoryTypes|
      invariant 0 <= i <= |memoryTypes|
      invariant bits == ShiftedTypeBits(typeBits, i)
      invariant forall j | 0 <= j < i :: !MemoryTypeMatches(typeBits, properties, memoryTypes, j)
    {
      if bits & 1 == 1 {
        if memoryTypes[i] & properties == properties {
          return i;
        }
      }
      ShiftOnce(typeBits, i);
      bits := bits >> 1;
      i := i + 1;
    }
    index := 0;
  }

  /** One more step of the loop's shift. */
  lemma ShiftOnce(typeBits: bv32, i: nat)
    ensures ShiftedTypeBits(typeBits, i + 1) == ShiftedTypeBits(typeBits, i) >> 1
  {
  }

  /**
   * For each of the 32 bit positions, shifting one bit per step is the same
   * as shifting by i at once, so TypeBitSet(typeBits, i) is bit i of type_bits.
   */
  lemma {:induction false} ShiftIsShift(typeBits: bv32, i: nat)
    requires i < 32
    ensures ShiftedTypeBits(typeBits, i) == typeBits >> (i as bv5)
  {
    if i > 0 {
      ShiftIsShift(typeBits, i - 1);
    }
  }

  /** The 0 returned for "no match" cannot be told apart from a match at index 0. */
  lemma NoMatchLooksLikeTypeZero()
    ensures !MemoryTypeMatches(0x1, VK_MEMORY_PROPERTY_DEVICE_LOCAL_BIT, [0x0], 0)
    ensures forall i :: !MemoryTypeMatches(0x1, VK_MEMORY_PROPERTY_DEVICE_LOCAL_BIT, [0x0], i)
  {
  }

  // ---------------------------------------------------------------------
  // pick_phy_device

  /** The find_if predicate of pick_phy_device: the family has the given queueFlags bit. */
  predicate HasQueueFlag(f: QueueFamily, bit: bv32) {
    f.queueFlags & bit != 0
  }

  /** std::find_if over the queue families from `from` on: a position, |families| for end(). */
  function FindFamilyFrom(families: seq<QueueFamily>, bit: bv32, from: nat): (p: nat)
    requires from <= |families|
    ensures from <= p <= |families|
    ensures forall j | from <= j < p :: !HasQueueFlag(families[j], bit)
    ensures p < |families| ==> HasQueueFlag(families[p], bit)
    decreases |families| - from
  {
    if from == |families| then from
    else if HasQueueFlag(families[from], bit) then from
    else FindFamilyFrom(families, bit, from + 1)
  }

  /** std::find_if(begin(), end(), ...) as a position. */
  function FindFamily(families: seq<QueueFamily>, bit: bv32): (p: nat)
    ensures p <= |families|
    ensures forall j | 0 <= j < p :: !HasQueueFlag(families[j], bit)
    ensures p < |families| ==> HasQueueFlag(families[p], bit)
  {
    FindFamilyFrom(families, bit, 0)
  }

  /** std::distance(first, last): the number of steps from first to last. */
  function StdDistance(first: int, last: int): int {
    last - first
  }

  /** The acceptance test of the adapter loop: a graphics family and a compute family exist. */
  predicate HasGraphicsAndCompute(a: Adapter) {
    && FindFamily(a.families, VK_QUEUE_GRAPHICS_BIT) < |a.families|
    && FindFamily(a.families, VK_QUEUE_COMPUTE_BIT) < |a.families|
  }

  /** The position of the first adapter with graphics and compute families, or |adapters|. */
  function FirstSuitableAdapter(adapters: seq<Adapter>, from: nat): (k: nat)
    requires from <= |adapters|
    ensures from <= k <= |adapters|
    ensures forall j | from <= j < k :: !HasGraphicsAndCompute(adapters[j])
    ensures k < |adapters| ==> HasGraphicsAndCompute(adapters[k])
    decreases |adapters| - from
  {
    if from == |adapters| then from
    else if HasGraphicsAndCompute(adapters[from]) then from
    else FirstSuitableAdapter(adapters, from + 1)
  }

  /** vkGetPhysicalDeviceSurfaceSupportKHR for a family index; an index past the families reads as unsupported. */
  predicate FamilySupportsSurface(a: Adapter, family: U32) {
    family < |a.families| && a.families[family].supportsSurface
  }

  datatype SelectionError = NoPhysicalDevice | NoGraphicsQueue

  /** The adapter, the three queue family indices and the sample count that the renderer keeps. */
  datatype AdapterChoice = AdapterChoice(
    device: nat, graphicQueue: U32, presentQueue: U32, computeQueue: U32, sampleCount: bv32)

  datatype SelectionResult = Selected(choice: AdapterChoice) | SelectionFailed(error: SelectionError)

  /**
   * What pick_phy_device decides, written as a reference definition: the
   * first adapter with a graphics and a compute family; its family "indices"
   * are std::distance(it, begin()), i.e. minus the position, and the present
   * family is searched with the PROTECTED bit; -1 for the graphics or the
   * present value is fatal; present becomes graphics when the graphics family
   * supports the surface; the int32 values are stored as uint32.
   */
  function PickPhyDevice(adapters: seq<Adapter>): SelectionResult {
    if |adapters| == 0 then SelectionFailed(NoPhysicalDevice)
    else
      var k := FirstSuitableAdapter(adapters, 0);
      var g := if k < |adapters| then StdDistance(FindFamily(adapters[k].families, VK_QUEUE_GRAPHICS_BIT), 0) else -1;
      var p := if k < |adapters| then StdDistance(FindFamily(adapters[k].families, VK_QUEUE_PROTECTED_BIT), 0) else -1;
      var c := if k < |adapters| then StdDistance(FindFamily(adapters[k].families, VK_QUEUE_COMPUTE_BIT), 0) else -1;
      if g == -1 || p == -1 then SelectionFailed(NoGraphicsQueue)
      else
        var a := adapters[k];
        var present := if FamilySupportsSurface(a, ToU32(g)) then g else p;
        Selected(AdapterChoice(k, ToU32(g), ToU32(present), ToU32(c),
          MaxUsableSampleCount(a.framebufferColorSampleCounts, a.framebufferStencilSampleCounts)))
  }

  /**
   * The adapter loop of pick_phy_device (lines 335-430), with its early
   * break, followed by the null check, the surface-support override and the
   * sample-count query.
   */
  method SelectAdapter(adapters: seq<Adapter>) returns (r: SelectionResult)
    ensures r == PickPhyDevice(adapters)
  {
    if |adapters| == 0 {
      return SelectionFailed(NoPhysicalDevice);
    }
    var graphicFamily, presentFamily, computeFamily := -1, -1, -1;
    var device := 0;
    var found := false;
    var i := 0;
    while i < |adapters|
      invariant 0 <= i <= |adapters|
      invariant forall j | 0 <= j < i :: !HasGraphicsAndCompute(adapters[j])
      invariant !found && graphicFamily == -1 && presentFamily == -1 && computeFamily == -1
    {
      var families := adapters[i].families;
      var graphicIt := FindFamily(families, VK_QUEUE_GRAPHICS_BIT);
      var presentIt := FindFamily(families, VK_QUEUE_PROTECTED_BIT);
      var computeIt := FindFamily(families, VK_QUEUE_COMPUTE_BIT);
      if graphicIt != |families| && computeIt != |families| {
        LeftmostSuitable(adapters, i);
        device := i;
        graphicFamily := StdDistance(graphicIt, 0);
        presentFamily := StdDistance(presentIt, 0);
        computeFamily := StdDistance(computeIt, 0);
        found := true;
        break;
      }
      i := i + 1;
    }
    if !found {
      NoneSuitable(adapters);
    }
    if graphicFamily == -1 || presentFamily == -1 {
      return SelectionFailed(NoGraphicsQueue);
    }
    var a := adapters[device];
    if FamilySupportsSurface(a, ToU32(graphicFamily)) {
      presentFamily := graphicFamily;
    }
    r := Selected(AdapterChoice(device, ToU32(graphicFamily), ToU32(presentFamily), ToU32(computeFamily),
      MaxUsableSampleCount(a.framebufferColorSampleCounts, a.framebufferStencilSampleCounts)));
  }

  /** A suitable adapter with no suitable one before it is the first suitable adapter. */
  lemma LeftmostSuitable(adapters: seq<Adapter>, i: nat)
    requires i < |adapters| && HasGraphicsAndCompute(adapters[i])
    requires forall j | 0 <= j < i :: !HasGraphicsAndCompute(adapters[j])
    ensures FirstSuitableAdapter(adapters, 0) == i
  {
  }

  /** When no adapter is suitable, FirstSuitableAdapter is past the end. */
  lemma NoneSuitable(adapters: seq<Adapter>)
    requires forall j | 0 <= j < |adapters| :: !HasGraphicsAndCompute(adapters[j])
    ensures FirstSuitableAdapter(adapters, 0) == |adapters|
  {
  }

  // ---------------------------------------------------------------------
  // Properties of the adapter choice

  /**
   * A successful selection picks the first adapter that has a graphics and
   * a compute family; no earlier adapter has both.
   */
  lemma {:induction false} SelectedAdapterIsFirstSuitable(adapters: seq<Adapter>)
    requires PickPhyDevice(adapters).Selected?
    ensures var d := PickPhyDevice(adapters).choice.device;
      && d < |adapters|
      && HasGraphicsAndCompute(adapters[d])
      && forall j | 0 <= j < d :: !HasGraphicsAndCompute(adapters[j])
  {
  }

  /** Without any adapter exposing a compute family, selection fails before anything else is created. */
  lemma NoComputeMeansFatal(adapters: seq<Adapter>)
    requires forall j | 0 <= j < |adapters| :: FindFamily(adapters[j].families, VK_QUEUE_COMPUTE_BIT) == |adapters[j].families|
    ensures PickPhyDevice(adapters).SelectionFailed?
  {
    NoneSuitable(adapters);
  }

  /**
   * With the reversed std::distance, an adapter whose first graphics family
   * is family 1 reads as "-1" and is rejected as having no graphics support.
   */
  lemma GraphicsFamilyOneIsRejected(adapters: seq<Adapter>)
    requires |adapters| > 0
    requires HasGraphicsAndCompute(adapters[0])
    requires FindFamily(adapters[0].families, VK_QUEUE_GRAPHICS_BIT) == 1
    ensures PickPhyDevice(adapters) == SelectionFailed(NoGraphicsQueue)
  {
  }

  /**
   * Because the present family is searched for with the PROTECTED bit, the
   * first suitable adapter is rejected when it has a single queue family
   * (graphics and compute together, a common layout) without that bit: the
   * search ends at end(), whose reversed distance is -1.
   */
  lemma SingleFamilyWithoutProtectedIsRejected(adapters: seq<Adapter>, k: nat)
    requires k < |adapters| && HasGraphicsAndCompute(adapters[k])
    requires forall j | 0 <= j < k :: !HasGraphicsAndCompute(adapters[j])
    requires |adapters[k].families| == 1
    requires !HasQueueFlag(adapters[k].families[0], VK_QUEUE_PROTECTED_BIT)
    ensures PickPhyDevice(adapters) == SelectionFailed(NoGraphicsQueue)
  {
    LeftmostSuitable(adapters, k);
  }

  /**
   * The null check does not cover the compute family: a compute family at
   * position 1 is accepted and stored as 0xFFFFFFFF.
   */
  lemma ComputeFamilyIsNotChecked(adapters: seq<Adapter>)
    requires |adapters| > 0
    requires FindFamily(adapters[0].families, VK_QUEUE_GRAPHICS_BIT) == 0
    requires FindFamily(adapters[0].families, VK_QUEUE_COMPUTE_BIT) == 1
    requires FindFamily(adapters[0].families, VK_QUEUE_PROTECTED_BIT) != 1
    requires |adapters[0].families| >= 2
    ensures PickPhyDevice(adapters).Selected?
    ensures PickPhyDevice(adapters).choice.computeQueue == 0xFFFF_FFFF
  {
    assert HasGraphicsAndCompute(adapters[0]);
    assert FirstSuitableAdapter(adapters, 0) == 0;
  }

  /**
   * The only graphics family index the selection can store that names a real
   * family is 0, and then family 0 is the first graphics family; the present
   * index is 0 too when family 0 presents to the surface.
   */
  lemma {:induction false} GraphicsIndexInRangeOnlyAtZero(adapters: seq<Adapter>)
    requires PickPhyDevice(adapters).Selected?
    requires forall j | 0 <= j < |adapters| :: |adapters[j].families| < 0x8000_0000
    ensures var c := PickPhyDevice(adapters).choice;
      c.graphicQueue < |adapters[c.device].families| ==>
        && c.graphicQueue == 0
        && FindFamily(adapters[c.device].families, VK_QUEUE_GRAPHICS_BIT) == 0
        && (adapters[c.device].families[0].supportsSurface ==> c.presentQueue == 0)
  {
    var k := FirstSuitableAdapter(adapters, 0);
    var c := PickPhyDevice(adapters).choice;
    var n := |adapters[k].families|;
    var pos := FindFamily(adapters[k].families, VK_QUEUE_GRAPHICS_BIT);
    assert c.device == k;
    assert c.graphicQueue == ToU32(StdDistance(pos, 0));
    if pos > 0 {
      assert c.graphicQueue == 0x1_0000_0000 - pos;
      assert c.graphicQueue >= n;
    }
  }
}
