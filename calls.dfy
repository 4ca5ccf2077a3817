// The values the renderer passes around, and the API calls each of its
// operations makes, as sequences of DeviceProtocol events.
module RendererCalls {
  import opened Vulkan
  import opened Selection
  import opened SwapchainParams
  import opened DeviceProtocol

  /** ImageWrapper of vk_renderer.hpp. */
  datatype ImageWrapper = ImageWrapper(image: Handle, image_view: Handle, memory: Handle, format: Format)

  const EMPTY_IMAGE := ImageWrapper(NULL_HANDLE, NULL_HANDLE, NULL_HANDLE, VK_FORMAT_UNDEFINED)

  /** The parts of a VkFramebufferCreateInfo the renderer sets, with the created handle. */
  datatype Framebuffer = Framebuffer(handle: Handle, renderPass: Handle, attachments: seq<Handle>, extent: Extent)

  /** Format and sample count of one render-pass attachment description. */
  datatype Attachment = Attachment(format: Format, samples: bv32)

  /** The surface-dependent inputs of one swapchain (re)creation that the renderer keeps in fields. */
  datatype SwapchainConfig = SwapchainConfig(surface: Handle, format: Format, composite: bv32, presentQueue: U32)

  /**
   * What initialisation learns from the platform: the physical devices, the
   * surface formats and capabilities, and the number of images the created
   * swapchain has.
   */
  datatype Platform = Platform(adapters: seq<Adapter>, surfaceFormats: seq<SurfaceFormat>, caps: SurfaceCaps, imageCount: nat)

  /** What a swapchain rebuild learns: the surface capabilities and the new swapchain's image count. */
  datatype Rebuild = Rebuild(caps: SurfaceCaps, imageCount: nat)

  /**
   * The driver's answers during one frame: the first acquire's result and
   * image, the rebuild after a stale acquire and the retried acquire, whether
   * vkBeginCommandBuffer succeeds, the present result and the rebuild after a
   * stale present.
   */
  datatype FrameAnswers = FrameAnswers(
    acquire: VkResult, image: nat,
    acquireRebuild: Rebuild, retry: VkResult, retryImage: nat,
    beginSucceeds: bool,
    present: VkResult, presentRebuild: Rebuild)

  /** Ready, or the failed check that aborts initialisation (assert(false) in pick_phy_device or create_swap_chain_views). */
  datatype InitOutcome = Ready | SelectionAborted(error: SelectionError) | NoDepthStencilFormat

  /** How draw ends: an assert on an acquire result fails, begin fails, the frame is presented, or it is presented and the swapchain rebuilt. */
  datatype FrameOutcome = FrameAborted | BeginFailed | Presented | Recreated

  /** std::vector::resize: the first min(|s|, n) elements are kept, the rest are value-initialised. */
  function Resized<T>(s: seq<T>, n: nat, filler: T): (r: seq<T>)
    ensures |r| == n
    ensures forall i | 0 <= i < n :: r[i] == (if i < |s| then s[i] else filler)
  {
    if n <= |s| then s[..n] else s + seq(n - |s|, _ => filler)
  }

  // ---------------------------------------------------------------------
  // The call sequences of the renderer's operations

  /** create_vk_instance, create_vk_surface and, when pick_phy_device chose an adapter, create_device. */
  function OpenDeviceEvents(selected: bool): seq<Event> {
    [CreateObjects(Instance)] + [CreateObjects(Surface)] + (if selected then [CreateObjects(Device)] else [])
  }

  /**
   * create_swap_chain_views: sampler images, swapchain views and, when the
   * depth/stencil probe found a format, stencil images.
   */
  function CreateViewsEvents(found: bool): seq<Event> {
    [CreateObjects(SamplerImages)] + [CreateObjects(SwapchainViews)] + (if found then [CreateObjects(StencilImages)] else [])
  }

  /** create_sync_objects: n fences, then the present and the render semaphores. */
  function SyncEvents(n: nat): seq<Event> {
    [CreateFences(n)] + [CreateObjects(PresentSemaphores)] + [CreateObjects(RenderSemaphores)]
  }

  /** create_command_pool, create_command_buffers, create_sync_objects, create_render_pass, create_frame_buffer. */
  function OpenFramesEvents(n: nat): seq<Event> {
    [CreateObjects(CommandPool)] + [CreateObjects(CommandBuffers)] + SyncEvents(n)
    + ([CreateObjects(RenderPass)] + [CreateObjects(Framebuffers)])
  }

  /** How initialisation ends for the given platform. */
  function InitOutcomeOf(p: Platform): InitOutcome {
    match PickPhyDevice(p.adapters)
    case SelectionFailed(e) => SelectionAborted(e)
    case Selected(c) =>
      if GetSupportDepthFormat(p.adapters[c.device].optimalTilingFeatures, VK_FORMAT_UNDEFINED).found then Ready
      else NoDepthStencilFormat
  }

  /**
   * Initialisation for platform `p` ends as `outcome`.  Stated for every
   * platform equal to `p`, so that a proof unfolds the adapter choice only
   * where it names one.
   */
  ghost predicate EndsAs(p: Platform, outcome: InitOutcome) {
    forall q | q == p :: InitOutcomeOf(q) == outcome
  }

  /**
   * init_vk's calls when it ends as `outcome`: `surface` and `swapchain` are
   * the handles created, `presentQueue` the chosen present family.
   */
  function InitEvents(outcome: InitOutcome, p: Platform, surface: Handle, swapchain: Handle, presentQueue: U32): seq<Event> {
    var created := [CreateSwapchain(InitialCreateInfo(surface, p.caps, ChooseSwapChainFormat(p.surfaceFormats), presentQueue), swapchain)];
    match outcome
    case SelectionAborted(_) => OpenDeviceEvents(false)
    case NoDepthStencilFormat => OpenDeviceEvents(true) + (created + CreateViewsEvents(false))
    case Ready => OpenDeviceEvents(true) + (created + CreateViewsEvents(true)) + OpenFramesEvents(p.imageCount)
  }

  /** recreate_swap_chain: create the new swapchain naming the old one, then destroy the old one if there was one. */
  function RecreateSwapchainEvents(cfg: SwapchainConfig, caps: SurfaceCaps, replaced: Handle, created: Handle): seq<Event> {
    [CreateSwapchain(RecreateCreateInfo(cfg.surface, caps, cfg.format, cfg.composite, cfg.presentQueue, replaced), created)]
    + (if replaced != NULL_HANDLE then [DestroySwapchain(replaced)] else [])
  }

  /** destroy_swap_chain_views: framebuffers, stencil images, sampler images, swapchain views. */
  const DestroyViewsEvents: seq<Event> :=
    [DestroyObjects(Framebuffers)] + [DestroyObjects(StencilImages)] + [DestroyObjects(SamplerImages)] + [DestroyObjects(SwapchainViews)]

  /** recreate_frame_buffer: destroy the views, create them again, then the framebuffers. */
  const RebuildViewsEvents: seq<Event> :=
    DestroyViewsEvents + CreateViewsEvents(true) + [CreateObjects(Framebuffers)]

  /** The rebuild draw performs after a stale result: wait idle, recreate the swapchain, recreate the framebuffers. */
  function RecoveryEvents(cfg: SwapchainConfig, caps: SurfaceCaps, replaced: Handle, created: Handle): seq<Event> {
    [WaitIdle] + RecreateSwapchainEvents(cfg, caps, replaced, created) + RebuildViewsEvents
  }

  /** Reset and begin the command buffer of the acquired image. */
  function BeginEvents(image: nat, succeeded: bool): seq<Event> {
    [ResetCommandBuffer(image)] + [BeginCommandBuffer(image, succeeded)]
  }

  /**
   * Record into the image's command buffer and framebuffer, reset the
   * image's fence, submit waiting on and signalling the slot's semaphores,
   * wait for the fence, present.
   */
  function SubmitEvents(slot: nat, image: nat): seq<Event> {
    [RecordFrame(image, image)] + [ResetFence(image), Submit(image, slot, slot, image), WaitFence(image)]
    + [Present(image, slot)]
  }

  /** The part of draw after a successful acquire of `image`, with `slot` the semaphore index. */
  function RecordAndPresentEvents(cfg: SwapchainConfig, slot: nat, sc: Handle, image: nat, a: FrameAnswers, created: Handle): seq<Event> {
    if !a.beginSucceeds then BeginEvents(image, a.beginSucceeds)
    else if SwapchainStale(a.present) then
      BeginEvents(image, a.beginSucceeds) + SubmitEvents(slot, image) + RecoveryEvents(cfg, a.presentRebuild.caps, sc, created)
    else BeginEvents(image, a.beginSucceeds) + SubmitEvents(slot, image)
  }

  /** Whether draw gets an image: at once, or on the retry after a rebuild. */
  predicate AcquireSucceeds(a: FrameAnswers) {
    if SwapchainStale(a.acquire) then a.retry == VK_SUCCESS else a.acquire == VK_SUCCESS
  }

  /** The acquire part of draw from semaphore slot `slot`; `h1` is the swapchain a stale acquire's rebuild creates. */
  function AcquireEvents(cfg: SwapchainConfig, slot: nat, sc: Handle, a: FrameAnswers, h1: Handle): seq<Event> {
    if SwapchainStale(a.acquire) then [AcquireImage(slot)] + RecoveryEvents(cfg, a.acquireRebuild.caps, sc, h1) + [AcquireImage(0)]
    else [AcquireImage(slot)]
  }

  /**
   * The calls of one draw from semaphore slot `slot` with swapchain `sc`;
   * `h1` and `h2` are the swapchains created by the rebuilds after a stale
   * acquire and after a stale present.
   */
  function FrameEvents(cfg: SwapchainConfig, slot: nat, sc: Handle, a: FrameAnswers, h1: Handle, h2: Handle): seq<Event> {
    var acquired := AcquireEvents(cfg, slot, sc, a, h1);
    if !AcquireSucceeds(a) then acquired
    else if SwapchainStale(a.acquire) then acquired + RecordAndPresentEvents(cfg, 0, h1, a.retryImage, a, h2)
    else acquired + RecordAndPresentEvents(cfg, slot, sc, a.image, a, h2)
  }

  /** How draw ends for the given answers. */
  function FrameOutcomeOf(a: FrameAnswers): FrameOutcome {
    if !AcquireSucceeds(a) then FrameAborted
    else if !a.beginSucceeds then BeginFailed
    else if SwapchainStale(a.present) then Recreated
    else Presented
  }

  /** The image index the frame records into: the retried acquire's after a rebuild, the first acquire's otherwise. */
  function AcquiredImage(a: FrameAnswers): nat {
    if SwapchainStale(a.acquire) then a.retryImage else a.image
  }

  /** The semaphore slot the frame uses: 0 after the acquire rebuild reset the cursor. */
  function FrameSlot(slot: nat, a: FrameAnswers): nat {
    if SwapchainStale(a.acquire) then 0 else slot
  }

  /** The swapchain current after one draw from swapchain `sc`: the last one a rebuild created, or `sc`. */
  function SwapchainAfter(sc: Handle, a: FrameAnswers, h1: Handle, h2: Handle): Handle {
    if FrameOutcomeOf(a) == Recreated then h2
    else if SwapchainStale(a.acquire) then h1
    else sc
  }

  /**
   * The answers a Vulkan driver can give a renderer whose swapchains have `n`
   * images: acquired indices are below the image count.  A rebuilt swapchain
   * must keep exactly `n` images.  recreate_frame_buffer does not resize the
   * command buffers, fences and semaphores, so with more images the source
   * indexes past them; with fewer it stays within them, but the renderer's
   * invariant ties the number of views to the number of command buffers, so
   * that case is not covered either.
   */
  predicate AnswersFit(a: FrameAnswers, n: nat) {
    && (a.acquire == VK_SUCCESS ==> a.image < n)
    && (SwapchainStale(a.acquire) ==> a.acquireRebuild.imageCount == n && (a.retry == VK_SUCCESS ==> a.retryImage < n))
    && (SwapchainStale(a.present) ==> a.presentRebuild.imageCount == n)
  }

  /**
   * (frame_index_, current_frame_) after a draw that did not abort: the
   * semaphore slot advances modulo the image count after a plain present,
   * both are 0 after a present rebuild, and a failed begin leaves the slot
   * where the acquire left it.
   */
  function CursorAfter(slot: nat, n: nat, a: FrameAnswers): (r: (nat, nat))
    requires n > 0 && slot < n && AnswersFit(a, n) && FrameOutcomeOf(a) != FrameAborted
    ensures r.0 < n && r.1 < n
    ensures FrameOutcomeOf(a) == Presented ==> r.0 == (FrameSlot(slot, a) + 1) % n
    ensures FrameOutcomeOf(a) == Presented && !SwapchainStale(a.acquire) ==> r.0 == (slot + 1) % n
    ensures FrameOutcomeOf(a) == BeginFailed ==> r.0 == FrameSlot(slot, a)
    ensures FrameOutcomeOf(a) == Recreated ==> r == (0, 0)
    ensures FrameOutcomeOf(a) != Recreated ==> r.1 == AcquiredImage(a)
  {
    match FrameOutcomeOf(a)
    case Presented => ((FrameSlot(slot, a) + 1) % n, AcquiredImage(a))
    case Recreated => (0, 0)
    case BeginFailed => (FrameSlot(slot, a), AcquiredImage(a))
  }

  /** destroy, after the views: the render pass, then both semaphore vectors. */
  const TeardownPassEvents: seq<Event> :=
    [DestroyObjects(RenderPass)] + [DestroyObjects(PresentSemaphores)] + [DestroyObjects(RenderSemaphores)]

  /** destroy, next: the fences, then the command pool, reset first. */
  const TeardownPoolEvents: seq<Event> :=
    [DestroyObjects(Fences)] + [ResetCommandPool] + [DestroyObjects(CommandPool)]

  /** destroy, last: the swapchain `sc`, the device, the surface, the instance. */
  function TeardownDeviceEvents(sc: Handle): seq<Event> {
    [DestroySwapchain(sc)] + [DestroyObjects(Device)] + [DestroyObjects(Surface)] + [DestroyObjects(Instance)]
  }

  /** destroy's calls with `sc` the current swapchain. */
  function TeardownEvents(sc: Handle): seq<Event> {
    [WaitIdle] + DestroyViewsEvents + TeardownPassEvents + TeardownPoolEvents + TeardownDeviceEvents(sc)
  }
}
