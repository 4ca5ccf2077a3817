// The swapchain parameters create_swap_chain (lines 502-544) and
// recreate_swap_chain (lines 875-916) put into VkSwapchainCreateInfoKHR.
module SwapchainParams {
  import opened Vulkan

  /** The composite-alpha bits tried, in order of preference. */
  const CompositePreference: seq<bv32> := [
    VK_COMPOSITE_ALPHA_OPAQUE_BIT_KHR,
    VK_COMPOSITE_ALPHA_PRE_MULTIPLIED_BIT_KHR,
    VK_COMPOSITE_ALPHA_POST_MULTIPLIED_BIT_KHR]

  /** Preference k is supported and no earlier one is. */
  predicate FirstSupportedAt(supported: bv32, k: nat)
    requires k < |CompositePreference|
  {
    && supported & CompositePreference[k] != 0
    && forall j | 0 <= j < k :: supported & CompositePreference[j] == 0
  }

  /**
   * Opaque, then pre-multiplied, then post-multiplied: the first the surface
   * supports; inherit when it supports none of the three (whether or not it
   * supports inherit).
   */
  function ChooseCompositeAlpha(supported: bv32): (r: bv32)
    ensures r == VK_COMPOSITE_ALPHA_INHERIT_BIT_KHR <==>
              && supported & VK_COMPOSITE_ALPHA_OPAQUE_BIT_KHR == 0
              && supported & VK_COMPOSITE_ALPHA_PRE_MULTIPLIED_BIT_KHR == 0
              && supported & VK_COMPOSITE_ALPHA_POST_MULTIPLIED_BIT_KHR == 0
    ensures r != VK_COMPOSITE_ALPHA_INHERIT_BIT_KHR ==>
              exists k | 0 <= k < |CompositePreference| :: FirstSupportedAt(supported, k) && r == CompositePreference[k]
  {
    if supported & VK_COMPOSITE_ALPHA_OPAQUE_BIT_KHR != 0 then
      assert FirstSupportedAt(supported, 0);
      VK_COMPOSITE_ALPHA_OPAQUE_BIT_KHR
    else if supported & VK_COMPOSITE_ALPHA_PRE_MULTIPLIED_BIT_KHR != 0 then
      assert FirstSupportedAt(supported, 1);
      VK_COMPOSITE_ALPHA_PRE_MULTIPLIED_BIT_KHR
    else if supported & VK_COMPOSITE_ALPHA_POST_MULTIPLIED_BIT_KHR != 0 then
      assert FirstSupportedAt(supported, 2);
      VK_COMPOSITE_ALPHA_POST_MULTIPLIED_BIT_KHR
    else VK_COMPOSITE_ALPHA_INHERIT_BIT_KHR
  }

  /** std::max(uint32_t(2), minImageCount): at least double buffering, and at least what the surface needs. */
  function MinImageCount(surfaceMin: U32): (r: U32)
    ensures r >= 2 && r >= surfaceMin
    ensures r == 2 || r == surfaceMin
  {
    if surfaceMin < 2 then 2 else surfaceMin
  }

  /** The present mode is fixed, never derived from the surface. */
  const PRESENT_MODE: PresentMode := VK_PRESENT_MODE_MAILBOX_KHR

  predicate Rotated(transform: bv32) {
    transform & VK_SURFACE_TRANSFORM_ROTATE_90_BIT_KHR != 0
    || transform & VK_SURFACE_TRANSFORM_ROTATE_270_BIT_KHR != 0
  }

  /** The extent recreate_swap_chain uses: width and height swapped exactly for a 90 or 270 degree transform. */
  function RotatedExtent(e: Extent, transform: bv32): (r: Extent)
    ensures Rotated(transform) ==> r.width == e.height && r.height == e.width
    ensures !Rotated(transform) ==> r == e
  {
    if Rotated(transform) then Extent(e.height, e.width) else e
  }

  /** Applying the rotation twice gives back the surface's extent. */
  lemma RotationIsInvolution(e: Extent, transform: bv32)
    ensures RotatedExtent(RotatedExtent(e, transform), transform) == e
  {
  }

  /**
   * The fields of VkSwapchainCreateInfoKHR the renderer sets or leaves at
   * zero.  imageColorSpace is never assigned, so it stays 0, which is
   * VK_COLOR_SPACE_SRGB_NONLINEAR_KHR.
   */
  datatype SwapchainCreateInfo = SwapchainCreateInfo(
    surface: Handle,
    minImageCount: U32,
    imageFormat: Format,
    imageColorSpace: ColorSpace,
    imageExtent: Extent,
    queueFamilyIndex: U32,
    preTransform: bv32,
    compositeAlpha: bv32,
    presentMode: PresentMode,
    oldSwapchain: Handle)

  /** The create-info of create_swap_chain: the surface's extent as reported, identity transform, no old swapchain. */
  function InitialCreateInfo(surface: Handle, caps: SurfaceCaps, format: Format, presentQueue: U32): SwapchainCreateInfo {
    SwapchainCreateInfo(
      surface, MinImageCount(caps.minImageCount), format, 0, caps.currentExtent, presentQueue,
      VK_SURFACE_TRANSFORM_IDENTITY_BIT_KHR, ChooseCompositeAlpha(caps.supportedCompositeAlpha),
      PRESENT_MODE, NULL_HANDLE)
  }

  /**
   * The create-info of recreate_swap_chain: the kept format and composite
   * alpha, the rotated extent, the current transform as pre-transform, and
   * the swapchain being replaced as oldSwapchain.
   */
  function RecreateCreateInfo(surface: Handle, caps: SurfaceCaps, format: Format, composite: bv32,
                              presentQueue: U32, replaced: Handle): SwapchainCreateInfo {
    SwapchainCreateInfo(
      surface, MinImageCount(caps.minImageCount), format, 0,
      RotatedExtent(caps.currentExtent, caps.currentTransform), presentQueue,
      caps.currentTransform, composite, PRESENT_MODE, replaced)
  }

  /**
   * What the create-info of recreate_swap_chain keeps from that of
   * create_swap_chain, given the format and composite alpha the renderer
   * kept: the present mode, the colour space and at least two images; and
   * where it differs: the rotated extent, the current transform instead of
   * identity, and the replaced swapchain instead of none.
   */
  lemma RecreationKeepsPolicy(surface: Handle, caps0: SurfaceCaps, caps: SurfaceCaps, format: Format,
                              presentQueue: U32, replaced: Handle)
    ensures var first := InitialCreateInfo(surface, caps0, format, presentQueue);
      var next := RecreateCreateInfo(surface, caps, first.imageFormat, first.compositeAlpha, presentQueue, replaced);
      && next.presentMode == first.presentMode == VK_PRESENT_MODE_MAILBOX_KHR
      && next.imageColorSpace == first.imageColorSpace == VK_COLOR_SPACE_SRGB_NONLINEAR_KHR
      && next.minImageCount >= 2 && first.minImageCount >= 2
      && first.imageExtent == caps0.currentExtent
      && next.imageExtent == RotatedExtent(caps.currentExtent, caps.currentTransform)
      && first.preTransform == VK_SURFACE_TRANSFORM_IDENTITY_BIT_KHR && next.preTransform == caps.currentTransform
      && next.oldSwapchain == replaced && first.oldSwapchain == NULL_HANDLE
  {
  }
}
