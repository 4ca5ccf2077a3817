// Vulkan vocabulary used by the presentation engine: the numeric values of
// the enums and flag bits the renderer reads or writes, opaque handles, and
// the capability records that Vulkan queries return.  Queries themselves are
// not modelled: their answers are plain values handed to the operations.
module Vulkan {

  /** An opaque Vulkan object handle; 0 is VK_NULL_HANDLE. */
  type Handle = nat
  const NULL_HANDLE: Handle := 0

  /** uint32_t */
  type U32 = x: int | 0 <= x < 0x1_0000_0000

  /** The conversion of a signed 32-bit value to uint32_t (two's complement). */
  function ToU32(x: int): (r: U32)
    ensures 0 <= x < 0x1_0000_0000 ==> r == x
    ensures -0x1_0000_0000 <= x < 0 ==> r == x + 0x1_0000_0000
  {
    x % 0x1_0000_0000
  }

  // VkResult
  type VkResult = int
  const VK_SUCCESS: VkResult := 0
  const VK_SUBOPTIMAL_KHR: VkResult := 1000001003
  const VK_ERROR_OUT_OF_DATE_KHR: VkResult := -1000001004

  /** The two results after which the renderer rebuilds its swapchain. */
  predicate SwapchainStale(r: VkResult) {
    r == VK_ERROR_OUT_OF_DATE_KHR || r == VK_SUBOPTIMAL_KHR
  }

  // VkFormat and VkColorSpaceKHR
  type Format = int
  const VK_FORMAT_UNDEFINED: Format := 0
  const VK_FORMAT_R8G8B8A8_UNORM: Format := 37
  const VK_FORMAT_D16_UNORM_S8_UINT: Format := 128
  const VK_FORMAT_D24_UNORM_S8_UINT: Format := 129
  const VK_FORMAT_D32_SFLOAT_S8_UINT: Format := 130

  type ColorSpace = int
  const VK_COLOR_SPACE_SRGB_NONLINEAR_KHR: ColorSpace := 0

  // VkSampleCountFlagBits
  const VK_SAMPLE_COUNT_1_BIT: bv32 := 0x1
  const VK_SAMPLE_COUNT_2_BIT: bv32 := 0x2
  const VK_SAMPLE_COUNT_4_BIT: bv32 := 0x4
  const VK_SAMPLE_COUNT_8_BIT: bv32 := 0x8
  const VK_SAMPLE_COUNT_16_BIT: bv32 := 0x10
  const VK_SAMPLE_COUNT_32_BIT: bv32 := 0x20
  const VK_SAMPLE_COUNT_64_BIT: bv32 := 0x40

  // VkFormatFeatureFlagBits
  const VK_FORMAT_FEATURE_DEPTH_STENCIL_ATTACHMENT_BIT: bv32 := 0x200

  // VkQueueFlagBits
  const VK_QUEUE_GRAPHICS_BIT: bv32 := 0x1
  const VK_QUEUE_COMPUTE_BIT: bv32 := 0x2
  const VK_QUEUE_TRANSFER_BIT: bv32 := 0x4
  const VK_QUEUE_PROTECTED_BIT: bv32 := 0x10

  // VkMemoryPropertyFlagBits
  const VK_MEMORY_PROPERTY_DEVICE_LOCAL_BIT: bv32 := 0x1

  // VkCompositeAlphaFlagBitsKHR
  const VK_COMPOSITE_ALPHA_OPAQUE_BIT_KHR: bv32 := 0x1
  const VK_COMPOSITE_ALPHA_PRE_MULTIPLIED_BIT_KHR: bv32 := 0x2
  const VK_COMPOSITE_ALPHA_POST_MULTIPLIED_BIT_KHR: bv32 := 0x4
  const VK_COMPOSITE_ALPHA_INHERIT_BIT_KHR: bv32 := 0x8

  // VkSurfaceTransformFlagBitsKHR
  const VK_SURFACE_TRANSFORM_IDENTITY_BIT_KHR: bv32 := 0x1
  const VK_SURFACE_TRANSFORM_ROTATE_90_BIT_KHR: bv32 := 0x2
  const VK_SURFACE_TRANSFORM_ROTATE_180_BIT_KHR: bv32 := 0x4
  const VK_SURFACE_TRANSFORM_ROTATE_270_BIT_KHR: bv32 := 0x8

  // VkPresentModeKHR
  type PresentMode = int
  const VK_PRESENT_MODE_IMMEDIATE_KHR: PresentMode := 0
  const VK_PRESENT_MODE_MAILBOX_KHR: PresentMode := 1
  const VK_PRESENT_MODE_FIFO_KHR: PresentMode := 2

  /** VkExtent2D */
  datatype Extent = Extent(width: U32, height: U32)

  /** VkSurfaceFormatKHR */
  datatype SurfaceFormat = SurfaceFormat(format: Format, colorSpace: ColorSpace)

  /** The fields of VkSurfaceCapabilitiesKHR that the renderer reads. */
  datatype SurfaceCaps = SurfaceCaps(
    minImageCount: U32,
    currentExtent: Extent,
    currentTransform: bv32,
    supportedCompositeAlpha: bv32)

  /**
   * One entry of vkGetPhysicalDeviceQueueFamilyProperties, together with the
   * answer vkGetPhysicalDeviceSurfaceSupportKHR gives for this family and the
   * renderer's surface.
   */
  datatype QueueFamily = QueueFamily(queueFlags: bv32, supportsSurface: bool)

  /**
   * What the renderer learns about one physical device: its queue families,
   * the two sample-count limits, the property flags of its memory types
   * (memoryTypeCount is the length), and the optimal-tiling features of each
   * format (vkGetPhysicalDeviceFormatProperties).
   */
  datatype Adapter = Adapter(
    families: seq<QueueFamily>,
    framebufferColorSampleCounts: bv32,
    framebufferStencilSampleCounts: bv32,
    memoryTypes: seq<bv32>,
    optimalTilingFeatures: Format -> bv32)
}
