// VkRenderer: the Vulkan presentation engine.  It creates the instance,
// surface, device, swapchain, per-image attachments, command buffers, fences
// and semaphores and the render pass; draws a frame by acquiring a swapchain
// image, recording and submitting one command buffer and presenting; rebuilds
// the swapchain when acquire or present report it out of date or suboptimal;
// and tears everything down.
//
// Vulkan objects are handles drawn from a counter.  What the driver answers
// (queries, acquire and present results) is passed in as parameters.  Each
// method returns, as a ghost `calls`, the API calls it makes, in order; the
// public operations (init, draw, destroy) append theirs to a ghost log and
// prove with CallRules that the whole log obeys the API rules of
// DeviceProtocol, and which device state it leads to.
module Renderer {
  import opened Vulkan
  import opened Selection
  import opened SwapchainParams
  import opened DeviceProtocol
  import opened RendererCalls
  import opened CallRules

  /** The Vulkan renderer of vk_renderer.hpp/.cc. */
  class VkRenderer {
    var width_: int
    var height_: int
    var density_: int
    var vk_instance_: Handle
    /** The chosen physical device, as its position in the enumeration. */
    var vk_phy_device_: nat
    var graphic_queue_index_: U32
    var present_queue_index_: U32
    var compute_queue_index_: U32
    var vk_sample_count_: bv32
    var vk_device_: Handle
    var vk_graphic_queue_: Handle
    var vk_present_queue_: Handle
    var vk_compute_queue_: Handle
    var vk_surface_: Handle
    var vk_swap_chain_: Handle
    var swap_chain_format_: Format
    var depth_stencil_format_: Format
    var swap_chain_extend_: Extent
    var swap_chain_image_view_: seq<Handle>
    var stencil_image_: seq<ImageWrapper>
    var sampler_image_: seq<ImageWrapper>
    var cmd_pool_: Handle
    var cmd_buffers_: seq<Handle>
    var cmd_fences_: seq<Handle>
    var present_semaphore_: seq<Handle>
    var render_semaphore_: seq<Handle>
    var frame_index_: nat
    var current_frame_: nat
    var swap_chain_frame_buffers_: seq<Framebuffer>
    var vk_render_pass_: Handle
    var surface_composite_: bv32
    var vk_surface_transform_: bv32
    var pretransform_flag_: bv32
    /** What the chosen physical device reports about itself. */
    var gpu: Adapter
    /** The attachment descriptions of the render pass: color, depth/stencil, resolve. */
    var render_pass_attachments: seq<Attachment>
    /** The last handle handed out; every new object gets the next one. */
    var nextHandle: nat
    /** The API calls made so far, and the device state they lead to. */
    ghost var log: seq<Event>
    ghost var dev: DeviceState

    constructor()
      ensures log == [] && dev == Initial && nextHandle == 0
      ensures graphic_queue_index_ == 0xFFFF_FFFF && present_queue_index_ == 0xFFFF_FFFF
      ensures compute_queue_index_ == 0xFFFF_FFFF && vk_sample_count_ == VK_SAMPLE_COUNT_1_BIT
      ensures depth_stencil_format_ == VK_FORMAT_UNDEFINED
      ensures frame_index_ == 0 && current_frame_ == 0
    {
      width_, height_, density_ := 0, 0, 0;
      vk_instance_, vk_phy_device_ := NULL_HANDLE, 0;
      graphic_queue_index_, present_queue_index_, compute_queue_index_ := 0xFFFF_FFFF, 0xFFFF_FFFF, 0xFFFF_FFFF;
      vk_sample_count_ := VK_SAMPLE_COUNT_1_BIT;
      vk_device_, vk_graphic_queue_, vk_present_queue_, vk_compute_queue_ := NULL_HANDLE, NULL_HANDLE, NULL_HANDLE, NULL_HANDLE;
      vk_surface_, vk_swap_chain_ := NULL_HANDLE, NULL_HANDLE;
      swap_chain_format_, depth_stencil_format_ := VK_FORMAT_UNDEFINED, VK_FORMAT_UNDEFINED;
      swap_chain_extend_ := Extent(0, 0);
      swap_chain_image_view_, stencil_image_, sampler_image_ := [], [], [];
      cmd_pool_ := NULL_HANDLE;
      cmd_buffers_, cmd_fences_, present_semaphore_, render_semaphore_ := [], [], [], [];
      frame_index_, current_frame_ := 0, 0;
      swap_chain_frame_buffers_ := [];
      vk_render_pass_ := NULL_HANDLE;
      surface_composite_, vk_surface_transform_, pretransform_flag_ := 0, 0, 0;
      gpu := Adapter([], 0, 0, [], _ => 0);
      render_pass_attachments := [];
      nextHandle := 0;
      log := [];
      dev := Initial;
    }


    // -------------------------------------------------------------------
    // Invariants

    /** The log replays without breaking a rule and leads to `dev`. */
    ghost predicate LogConsistent()
      reads this`log, this`dev
    {
      Reaches(log, dev)
    }

    /** Framebuffer i is made of [sampler view i, stencil view i, swapchain view i], the render pass and the current extent. */
    ghost predicate FramebuffersBound()
      reads this`sampler_image_, this`stencil_image_, this`swap_chain_image_view_, this`swap_chain_frame_buffers_,
            this`vk_render_pass_, this`swap_chain_extend_
    {
      && |sampler_image_| == |swap_chain_frame_buffers_|
      && |stencil_image_| == |swap_chain_frame_buffers_|
      && |swap_chain_image_view_| == |swap_chain_frame_buffers_|
      && forall i | 0 <= i < |swap_chain_frame_buffers_| ::
           && swap_chain_frame_buffers_[i].attachments
                == [sampler_image_[i].image_view, stencil_image_[i].image_view, swap_chain_image_view_[i]]
           && swap_chain_frame_buffers_[i].renderPass == vk_render_pass_
           && swap_chain_frame_buffers_[i].extent == swap_chain_extend_
    }

    /** Sampler images have the swapchain format, stencil images the depth/stencil format. */
    ghost predicate ImageFormats()
      reads this`sampler_image_, this`stencil_image_, this`swap_chain_format_, this`depth_stencil_format_
    {
      && (forall i | 0 <= i < |sampler_image_| :: sampler_image_[i].format == swap_chain_format_)
      && (forall i | 0 <= i < |stencil_image_| :: stencil_image_[i].format == depth_stencil_format_)
    }

    /** The render pass's attachments, as create_render_pass describes them. */
    ghost predicate RenderPassMatches()
      reads this`render_pass_attachments, this`swap_chain_format_, this`depth_stencil_format_, this`vk_sample_count_
    {
      render_pass_attachments == [
        Attachment(swap_chain_format_, vk_sample_count_),
        Attachment(depth_stencil_format_, vk_sample_count_),
        Attachment(swap_chain_format_, VK_SAMPLE_COUNT_1_BIT)]
    }

    /** One fence and two semaphores per command buffer, and `n` command buffers. */
    ghost predicate SyncSized(n: nat)
      reads this`cmd_buffers_, this`cmd_fences_, this`present_semaphore_, this`render_semaphore_
    {
      |cmd_buffers_| == n && |cmd_fences_| == n && |present_semaphore_| == n && |render_semaphore_| == n
    }

    /** The depth/stencil format is the one the device's probe settles on. */
    ghost predicate DepthFormatSettled()
      reads this`depth_stencil_format_, this`gpu
    {
      forall f | f == depth_stencil_format_ :: GetSupportDepthFormat(gpu.optimalTilingFeatures, f) == DepthProbe(true, f)
    }

    /** `n` swapchain views, sampler and stencil images in their formats, and the framebuffers bound to them. */
    ghost predicate ViewsReady(n: nat)
      reads this`sampler_image_, this`stencil_image_, this`swap_chain_image_view_, this`swap_chain_frame_buffers_,
            this`vk_render_pass_, this`swap_chain_extend_, this`swap_chain_format_, this`depth_stencil_format_
    {
      && |swap_chain_image_view_| == n && |sampler_image_| == n && |stencil_image_| == n
      && |swap_chain_frame_buffers_| == n
      && FramebuffersBound()
      && ImageFormats()
    }

    /** The per-image objects: `n` of each, ready to record into. */
    ghost predicate FramesReady(n: nat)
      reads this`cmd_buffers_, this`cmd_fences_, this`present_semaphore_, this`render_semaphore_,
            this`sampler_image_, this`stencil_image_, this`swap_chain_image_view_, this`swap_chain_frame_buffers_,
            this`vk_render_pass_, this`swap_chain_extend_, this`swap_chain_format_, this`depth_stencil_format_,
            this`render_pass_attachments, this`vk_sample_count_, this`gpu
    {
      SyncSized(n) && RenderPassMatches() && DepthFormatSettled() && ViewsReady(n)
    }

    /** The renderer's own state between frames: the per-image objects, both cursors in range, a swapchain handed out. */
    ghost predicate Prepared()
      reads this`cmd_buffers_, this`cmd_fences_, this`present_semaphore_, this`render_semaphore_,
            this`sampler_image_, this`stencil_image_, this`swap_chain_image_view_, this`swap_chain_frame_buffers_,
            this`vk_render_pass_, this`swap_chain_extend_, this`swap_chain_format_, this`depth_stencil_format_,
            this`render_pass_attachments, this`vk_sample_count_, this`gpu,
            this`frame_index_, this`current_frame_, this`vk_swap_chain_, this`nextHandle
    {
      && |cmd_buffers_| > 0
      && FramesReady(|cmd_buffers_|)
      && frame_index_ < |cmd_buffers_| && current_frame_ < |cmd_buffers_|
      && NULL_HANDLE < vk_swap_chain_ <= nextHandle
    }

    /**
     * Between frames: the renderer is prepared, its calls so far obey the API
     * rules, and they leave the device ready, with everything alive,
     * vk_swap_chain_ the only swapchain, every fence signalled and no command
     * buffer in use.
     */
    ghost predicate Valid()
      reads this
    {
      && Prepared()
      && LogConsistent()
      && dev == ReadyState(vk_swap_chain_, |cmd_buffers_|, dev.idle)
    }

    function Config(): SwapchainConfig
      reads this`vk_surface_, this`swap_chain_format_, this`surface_composite_, this`present_queue_index_
    {
      SwapchainConfig(vk_surface_, swap_chain_format_, surface_composite_, present_queue_index_)
    }

    /** A handle never handed out before. */
    method NewHandle() returns (h: Handle)
      modifies this`nextHandle
      ensures h == nextHandle == old(nextHandle) + 1
    {
      nextHandle := nextHandle + 1;
      h := nextHandle;
    }

    // -------------------------------------------------------------------
    // Initialisation (init, init_vk and the create_* steps)

    method CreateVkInstance() returns (ghost calls: seq<Event>)
      modifies this`vk_instance_, this`nextHandle
      ensures vk_instance_ != NULL_HANDLE && old(nextHandle) < nextHandle
      ensures calls == [CreateObjects(Instance)]
    {
      vk_instance_ := NewHandle();
      calls := [CreateObjects(Instance)];
    }

    method CreateVkSurface() returns (ghost calls: seq<Event>)
      modifies this`vk_surface_, this`nextHandle
      ensures vk_surface_ != NULL_HANDLE && old(nextHandle) < nextHandle
      ensures calls == [CreateObjects(Surface)]
    {
      vk_surface_ := NewHandle();
      calls := [CreateObjects(Surface)];
    }

    /**
     * pick_phy_device: on success the chosen adapter, its three queue family
     * indices and its sample count are stored; on failure nothing is.
     */
    method PickPhyDevice(adapters: seq<Adapter>) returns (r: SelectionResult)
      modifies this`vk_phy_device_, this`gpu, this`graphic_queue_index_, this`present_queue_index_,
               this`compute_queue_index_, this`vk_sample_count_
      ensures r == Selection.PickPhyDevice(adapters)
      ensures r.Selected? ==>
        && r.choice.device < |adapters|
        && vk_phy_device_ == r.choice.device && gpu == adapters[r.choice.device]
        && graphic_queue_index_ == r.choice.graphicQueue
        && present_queue_index_ == r.choice.presentQueue
        && compute_queue_index_ == r.choice.computeQueue
        && vk_sample_count_ == r.choice.sampleCount
      ensures r.SelectionFailed? ==> vk_sample_count_ == old(vk_sample_count_)
    {
      r := SelectAdapter(adapters);
      if r.Selected? {
        SelectedAdapterIsFirstSuitable(adapters);
        vk_phy_device_ := r.choice.device;
        gpu := adapters[r.choice.device];
        graphic_queue_index_ := r.choice.graphicQueue;
        present_queue_index_ := r.choice.presentQueue;
        compute_queue_index_ := r.choice.computeQueue;
        vk_sample_count_ := r.choice.sampleCount;
      }
    }

    method CreateDevice() returns (ghost calls: seq<Event>)
      modifies this`vk_device_, this`vk_graphic_queue_, this`vk_present_queue_, this`vk_compute_queue_, this`nextHandle
      ensures vk_device_ != NULL_HANDLE && old(nextHandle) < nextHandle
      ensures calls == [CreateObjects(Device)]
    {
      vk_device_ := NewHandle();
      calls := [CreateObjects(Device)];
      vk_graphic_queue_ := NewHandle();
      vk_present_queue_ := NewHandle();
      vk_compute_queue_ := NewHandle();
    }

    /**
     * create_swap_chain: the chosen format, max(2, minImageCount) images, the
     * surface's current extent, identity pre-transform, the preferred
     * composite alpha, mailbox presentation and no old swapchain.
     */
    method CreateSwapChain(formats: seq<SurfaceFormat>, caps: SurfaceCaps) returns (ghost calls: seq<Event>)
      modifies this`vk_swap_chain_, this`swap_chain_format_, this`swap_chain_extend_, this`surface_composite_,
               this`vk_surface_transform_, this`nextHandle
      ensures vk_swap_chain_ == nextHandle == old(nextHandle) + 1
      ensures swap_chain_format_ == ChooseSwapChainFormat(formats)
      ensures swap_chain_extend_ == caps.currentExtent
      ensures surface_composite_ == ChooseCompositeAlpha(caps.supportedCompositeAlpha)
      ensures vk_surface_transform_ == caps.currentTransform
      ensures calls == [CreateSwapchain(InitialCreateInfo(vk_surface_, caps, swap_chain_format_, present_queue_index_), vk_swap_chain_)]
    {
      var format := ChooseSwapChainFormat(formats);
      var composite := ChooseCompositeAlpha(caps.supportedCompositeAlpha);
      var info := InitialCreateInfo(vk_surface_, caps, format, present_queue_index_);
      var h := NewHandle();
      calls := [CreateSwapchain(info, h)];
      vk_swap_chain_, swap_chain_format_, swap_chain_extend_ := h, format, caps.currentExtent;
      surface_composite_, vk_surface_transform_ := composite, caps.currentTransform;
    }

    /** The first loop of create_swap_chain_views: `imageCount` sampler (MSAA) images, memories and views in the swapchain format. */
    method CreateSamplerImages(imageCount: nat)
      modifies this`sampler_image_, this`nextHandle
      ensures |sampler_image_| == imageCount
      ensures forall i | 0 <= i < imageCount :: sampler_image_[i].format == swap_chain_format_
      ensures old(nextHandle) <= nextHandle
    {
      sampler_image_ := Resized(sampler_image_, imageCount, EMPTY_IMAGE);
      var i := 0;
      while i < |sampler_image_|
        invariant |sampler_image_| == imageCount && 0 <= i <= imageCount
        invariant forall j | 0 <= j < i :: sampler_image_[j].format == swap_chain_format_
        invariant old(nextHandle) <= nextHandle
      {
        var image := NewHandle();
        var memory := NewHandle();
        var view := NewHandle();
        sampler_image_ := sampler_image_[i := ImageWrapper(image, view, memory, swap_chain_format_)];
        i := i + 1;
      }
    }

    /** The second loop of create_swap_chain_views: one view per swapchain image. */
    method CreateSwapchainImageViews(imageCount: nat)
      modifies this`swap_chain_image_view_, this`nextHandle
      ensures |swap_chain_image_view_| == imageCount
      ensures forall i | 0 <= i < imageCount :: old(nextHandle) < swap_chain_image_view_[i] <= nextHandle
      ensures old(nextHandle) <= nextHandle
    {
      swap_chain_image_view_ := Resized(swap_chain_image_view_, imageCount, NULL_HANDLE);
      var i := 0;
      while i < imageCount
        invariant |swap_chain_image_view_| == imageCount && 0 <= i <= imageCount
        invariant forall j | 0 <= j < i :: old(nextHandle) < swap_chain_image_view_[j] <= nextHandle
        invariant old(nextHandle) <= nextHandle
      {
        var view := NewHandle();
        swap_chain_image_view_ := swap_chain_image_view_[i := view];
        i := i + 1;
      }
    }

    /** The last loop of create_swap_chain_views: `imageCount` stencil images, memories and views in the depth/stencil format. */
    method CreateStencilImages(imageCount: nat)
      modifies this`stencil_image_, this`nextHandle
      ensures |stencil_image_| == imageCount
      ensures forall i | 0 <= i < imageCount :: stencil_image_[i].format == depth_stencil_format_
      ensures old(nextHandle) <= nextHandle
    {
      stencil_image_ := Resized(stencil_image_, imageCount, EMPTY_IMAGE);
      var i := 0;
      while i < |stencil_image_|
        invariant |stencil_image_| == imageCount && 0 <= i <= imageCount
        invariant forall j | 0 <= j < i :: stencil_image_[j].format == depth_stencil_format_
        invariant old(nextHandle) <= nextHandle
      {
        var image := NewHandle();
        var memory := NewHandle();
        var view := NewHandle();
        stencil_image_ := stencil_image_[i := ImageWrapper(image, view, memory, depth_stencil_format_)];
        i := i + 1;
      }
    }

    /**
     * create_swap_chain_views: sampler images and swapchain views, then the
     * depth/stencil format probe, which aborts when no candidate qualifies,
     * then the stencil images in that format.
     */
    method CreateSwapChainViews(imageCount: nat) returns (ok: bool, ghost calls: seq<Event>)
      modifies this`sampler_image_, this`swap_chain_image_view_, this`stencil_image_, this`depth_stencil_format_,
               this`nextHandle
      ensures old(nextHandle) <= nextHandle
      ensures var probe := GetSupportDepthFormat(gpu.optimalTilingFeatures, old(depth_stencil_format_));
        ok == probe.found && depth_stencil_format_ == probe.format
      ensures |sampler_image_| == imageCount && |swap_chain_image_view_| == imageCount
      ensures forall i | 0 <= i < imageCount :: sampler_image_[i].format == swap_chain_format_
      ensures ok ==> |stencil_image_| == imageCount
      ensures ok ==> forall i | 0 <= i < imageCount :: stencil_image_[i].format == depth_stencil_format_
      ensures !ok ==> stencil_image_ == old(stencil_image_)
      ensures calls == CreateViewsEvents(ok)
    {
      CreateSamplerImages(imageCount);
      CreateSwapchainImageViews(imageCount);
      var probe := GetSupportDepthFormat(gpu.optimalTilingFeatures, depth_stencil_format_);
      depth_stencil_format_ := probe.format;
      if !probe.found {
        return false, [CreateObjects(SamplerImages)] + [CreateObjects(SwapchainViews)] + [];
      }
      CreateStencilImages(imageCount);
      ok, calls := true, [CreateObjects(SamplerImages)] + [CreateObjects(SwapchainViews)] + [CreateObjects(StencilImages)];
    }

    method CreateCommandPool() returns (ghost calls: seq<Event>)
      modifies this`cmd_pool_, this`nextHandle
      ensures cmd_pool_ != NULL_HANDLE && old(nextHandle) < nextHandle
      ensures calls == [CreateObjects(CommandPool)]
    {
      cmd_pool_ := NewHandle();
      calls := [CreateObjects(CommandPool)];
    }

    /** create_command_buffers: one primary command buffer per swapchain image view, allocated in one call. */
    method CreateCommandBuffers() returns (ghost calls: seq<Event>)
      modifies this`cmd_buffers_, this`nextHandle
      ensures |cmd_buffers_| == |swap_chain_image_view_|
      ensures forall i | 0 <= i < |cmd_buffers_| :: old(nextHandle) < cmd_buffers_[i] <= nextHandle
      ensures old(nextHandle) <= nextHandle
      ensures calls == [CreateObjects(CommandBuffers)]
    {
      var n := |swap_chain_image_view_|;
      var first := nextHandle + 1;
      cmd_buffers_ := seq(n, i => first + i);
      nextHandle := nextHandle + n;
      calls := [CreateObjects(CommandBuffers)];
    }

    /** The first loop of create_sync_objects: one fence per command buffer, created signalled. */
    method CreateFrameFences() returns (ghost calls: seq<Event>)
      modifies this`cmd_fences_, this`nextHandle
      ensures |cmd_fences_| == |cmd_buffers_|
      ensures forall i | 0 <= i < |cmd_fences_| :: old(nextHandle) < cmd_fences_[i] <= nextHandle
      ensures old(nextHandle) <= nextHandle
      ensures calls == [CreateFences(|cmd_buffers_|)]
    {
      var n := |cmd_buffers_|;
      cmd_fences_ := Resized(cmd_fences_, n, NULL_HANDLE);
      var i := 0;
      while i < |cmd_fences_|
        invariant |cmd_fences_| == n && 0 <= i <= n
        invariant forall j | 0 <= j < i :: old(nextHandle) < cmd_fences_[j] <= nextHandle
        invariant old(nextHandle) <= nextHandle
      {
        var fence := NewHandle();
        cmd_fences_ := cmd_fences_[i := fence];
        i := i + 1;
      }
      calls := [CreateFences(n)];
    }

    /** The second loop of create_sync_objects: one acquire ("present") semaphore per command buffer. */
    method CreatePresentSemaphores()
      modifies this`present_semaphore_, this`nextHandle
      ensures |present_semaphore_| == |cmd_buffers_|
      ensures forall i | 0 <= i < |present_semaphore_| :: old(nextHandle) < present_semaphore_[i] <= nextHandle
      ensures old(nextHandle) <= nextHandle
    {
      var n := |cmd_buffers_|;
      present_semaphore_ := Resized(present_semaphore_, n, NULL_HANDLE);
      var i := 0;
      while i < |present_semaphore_|
        invariant |present_semaphore_| == n && 0 <= i <= n
        invariant forall j | 0 <= j < i :: old(nextHandle) < present_semaphore_[j] <= nextHandle
        invariant old(nextHandle) <= nextHandle
      {
        var semaphore := NewHandle();
        present_semaphore_ := present_semaphore_[i := semaphore];
        i := i + 1;
      }
    }

    /** The third loop of create_sync_objects: one render semaphore per command buffer. */
    method CreateRenderSemaphores()
      modifies this`render_semaphore_, this`nextHandle
      ensures |render_semaphore_| == |cmd_buffers_|
      ensures forall i | 0 <= i < |render_semaphore_| :: old(nextHandle) < render_semaphore_[i] <= nextHandle
      ensures old(nextHandle) <= nextHandle
    {
      var n := |cmd_buffers_|;
      render_semaphore_ := Resized(render_semaphore_, n, NULL_HANDLE);
      var i := 0;
      while i < |render_semaphore_|
        invariant |render_semaphore_| == n && 0 <= i <= n
        invariant forall j | 0 <= j < i :: old(nextHandle) < render_semaphore_[j] <= nextHandle
        invariant old(nextHandle) <= nextHandle
      {
        var semaphore := NewHandle();
        render_semaphore_ := render_semaphore_[i := semaphore];
        i := i + 1;
      }
    }

    /** create_sync_objects: the fences, then the two semaphore vectors, all sized like the command buffers. */
    method CreateSyncObjects() returns (ghost calls: seq<Event>)
      modifies this`cmd_fences_, this`present_semaphore_, this`render_semaphore_, this`nextHandle
      ensures SyncSized(|cmd_buffers_|)
      ensures old(nextHandle) <= nextHandle
      ensures calls == SyncEvents(|cmd_buffers_|)
    {
      var fences := CreateFrameFences();
      CreatePresentSemaphores();
      CreateRenderSemaphores();
      calls := fences + [CreateObjects(PresentSemaphores)] + [CreateObjects(RenderSemaphores)];
    }

    /**
     * create_render_pass: color (swapchain format, MSAA samples),
     * depth/stencil (the first stencil image's format, MSAA samples) and
     * resolve (swapchain format, one sample).
     */
    method CreateRenderPass() returns (ghost calls: seq<Event>)
      requires |stencil_image_| > 0
      modifies this`vk_render_pass_, this`render_pass_attachments, this`nextHandle
      ensures vk_render_pass_ != NULL_HANDLE && old(nextHandle) < nextHandle
      ensures render_pass_attachments == [
        Attachment(swap_chain_format_, vk_sample_count_),
        Attachment(stencil_image_[0].format, vk_sample_count_),
        Attachment(swap_chain_format_, VK_SAMPLE_COUNT_1_BIT)]
      ensures calls == [CreateObjects(RenderPass)]
    {
      render_pass_attachments := [
        Attachment(swap_chain_format_, vk_sample_count_),
        Attachment(stencil_image_[0].format, vk_sample_count_),
        Attachment(swap_chain_format_, VK_SAMPLE_COUNT_1_BIT)];
      vk_render_pass_ := NewHandle();
      calls := [CreateObjects(RenderPass)];
    }

    /** create_frame_buffer: one framebuffer per swapchain view, attachments [sampler view, stencil view, swapchain view]. */
    method CreateFrameBuffer() returns (ghost calls: seq<Event>)
      requires |sampler_image_| == |swap_chain_image_view_| && |stencil_image_| == |swap_chain_image_view_|
      modifies this`swap_chain_frame_buffers_, this`nextHandle
      ensures |swap_chain_frame_buffers_| == |swap_chain_image_view_|
      ensures FramebuffersBound()
      ensures old(nextHandle) <= nextHandle
      ensures calls == [CreateObjects(Framebuffers)]
    {
      var n := |swap_chain_image_view_|;
      swap_chain_frame_buffers_ := Resized(swap_chain_frame_buffers_, n, Framebuffer(NULL_HANDLE, NULL_HANDLE, [], Extent(0, 0)));
      var i := 0;
      while i < |swap_chain_frame_buffers_|
        invariant |swap_chain_frame_buffers_| == n && 0 <= i <= n
        invariant forall j | 0 <= j < i ::
          && swap_chain_frame_buffers_[j].attachments
               == [sampler_image_[j].image_view, stencil_image_[j].image_view, swap_chain_image_view_[j]]
          && swap_chain_frame_buffers_[j].renderPass == vk_render_pass_
          && swap_chain_frame_buffers_[j].extent == swap_chain_extend_
        invariant old(nextHandle) <= nextHandle
      {
        var attachments := [sampler_image_[i].image_view, stencil_image_[i].image_view, swap_chain_image_view_[i]];
        var fb := NewHandle();
        swap_chain_frame_buffers_ := swap_chain_frame_buffers_[i := Framebuffer(fb, vk_render_pass_, attachments, swap_chain_extend_)];
        i := i + 1;
      }
      calls := [CreateObjects(Framebuffers)];
    }

    /** init_vk, first four steps: the instance and the surface, the adapter choice and, when one is chosen, the device. */
    method OpenDevice(adapters: seq<Adapter>) returns (r: SelectionResult, ghost calls: seq<Event>)
      modifies this`vk_instance_, this`vk_surface_, this`vk_phy_device_, this`gpu, this`graphic_queue_index_,
               this`present_queue_index_, this`compute_queue_index_, this`vk_sample_count_, this`vk_device_,
               this`vk_graphic_queue_, this`vk_present_queue_, this`vk_compute_queue_, this`nextHandle
      ensures r == Selection.PickPhyDevice(adapters)
      ensures r.Selected? ==>
        && r.choice.device < |adapters|
        && vk_phy_device_ == r.choice.device && gpu == adapters[r.choice.device]
        && graphic_queue_index_ == r.choice.graphicQueue
        && present_queue_index_ == r.choice.presentQueue
        && compute_queue_index_ == r.choice.computeQueue
        && vk_sample_count_ == r.choice.sampleCount
      ensures vk_surface_ != NULL_HANDLE && old(nextHandle) <= nextHandle
      ensures calls == OpenDeviceEvents(r.Selected?)
    {
      var instance := CreateVkInstance();
      var surface := CreateVkSurface();
      r := PickPhyDevice(adapters);
      if r.Selected? {
        var device := CreateDevice();
        calls := instance + surface + device;
      } else {
        calls := instance + surface + [];
      }
    }

    /** init_vk, next two steps: the swapchain and its views, up to the depth/stencil probe's verdict. */
    method OpenSwapchain(p: Platform) returns (ok: bool, ghost calls: seq<Event>)
      requires depth_stencil_format_ == VK_FORMAT_UNDEFINED
      modifies this`vk_swap_chain_, this`swap_chain_format_, this`swap_chain_extend_, this`surface_composite_,
               this`vk_surface_transform_, this`sampler_image_, this`swap_chain_image_view_, this`stencil_image_,
               this`depth_stencil_format_, this`nextHandle
      ensures ok == GetSupportDepthFormat(gpu.optimalTilingFeatures, VK_FORMAT_UNDEFINED).found
      ensures ok ==> DepthFormatSettled()
      ensures old(nextHandle) < vk_swap_chain_ <= nextHandle
      ensures swap_chain_format_ == ChooseSwapChainFormat(p.surfaceFormats)
      ensures swap_chain_extend_ == p.caps.currentExtent
      ensures surface_composite_ == ChooseCompositeAlpha(p.caps.supportedCompositeAlpha)
      ensures ok ==> |sampler_image_| == p.imageCount && |swap_chain_image_view_| == p.imageCount && |stencil_image_| == p.imageCount
      ensures ok ==> ImageFormats()
      ensures calls == [CreateSwapchain(InitialCreateInfo(vk_surface_, p.caps, swap_chain_format_, present_queue_index_), vk_swap_chain_)]
                       + CreateViewsEvents(ok)
    {
      var created := CreateSwapChain(p.surfaceFormats, p.caps);
      ghost var views;
      ok, views := CreateSwapChainViews(p.imageCount);
      calls := created + views;
      if ok {
        DepthProbeIsStable(gpu.optimalTilingFeatures, VK_FORMAT_UNDEFINED);
      }
    }

    /** init_vk, the remaining steps: command pool and buffers, fences and semaphores, render pass, framebuffers. */
    method OpenFrames() returns (ghost calls: seq<Event>)
      requires |sampler_image_| == |swap_chain_image_view_| && |stencil_image_| == |swap_chain_image_view_| && |stencil_image_| > 0
      requires ImageFormats() && DepthFormatSettled()
      modifies this`cmd_pool_, this`cmd_buffers_, this`cmd_fences_, this`present_semaphore_, this`render_semaphore_,
               this`vk_render_pass_, this`render_pass_attachments, this`swap_chain_frame_buffers_, this`nextHandle
      ensures FramesReady(|swap_chain_image_view_|)
      ensures old(nextHandle) <= nextHandle
      ensures calls == OpenFramesEvents(|cmd_buffers_|)
    {
      var pool := CreateCommandPool();
      var buffers := CreateCommandBuffers();
      var sync := CreateSyncObjects();
      var pass := CreateRenderPass();
      var framebuffers := CreateFrameBuffer();
      calls := pool + buffers + sync + (pass + framebuffers);
    }

    /** The create_* steps of init_vk, up to the first failed check. */
    method OpenAll(p: Platform) returns (outcome: InitOutcome, ghost calls: seq<Event>)
      requires depth_stencil_format_ == VK_FORMAT_UNDEFINED
      requires p.imageCount >= MinImageCount(p.caps.minImageCount)
      modifies this`vk_instance_, this`vk_surface_, this`vk_phy_device_, this`gpu, this`graphic_queue_index_,
               this`present_queue_index_, this`compute_queue_index_, this`vk_sample_count_, this`vk_device_,
               this`vk_graphic_queue_, this`vk_present_queue_, this`vk_compute_queue_,
               this`vk_swap_chain_, this`swap_chain_format_, this`swap_chain_extend_, this`surface_composite_,
               this`vk_surface_transform_, this`sampler_image_, this`swap_chain_image_view_, this`stencil_image_,
               this`depth_stencil_format_, this`cmd_pool_, this`cmd_buffers_, this`cmd_fences_, this`present_semaphore_,
               this`render_semaphore_, this`vk_render_pass_, this`render_pass_attachments, this`swap_chain_frame_buffers_,
               this`nextHandle
      ensures EndsAs(p, outcome)
      ensures calls == InitEvents(outcome, p, vk_surface_, vk_swap_chain_, present_queue_index_)
      ensures !outcome.SelectionAborted? ==> old(nextHandle) < vk_swap_chain_ <= nextHandle
      ensures outcome.Ready? ==> FramesReady(p.imageCount)
    {
      var selection, device := OpenDevice(p.adapters);
      if selection.SelectionFailed? {
        return SelectionAborted(selection.error), device;
      }
      var ok, views := OpenSwapchain(p);
      if !ok {
        return NoDepthStencilFormat, device + views;
      }
      var frames := OpenFrames();
      outcome, calls := Ready, device + views + frames;
    }

    /**
     * init_vk: the create_* steps in order, up to the first failed check.
     * Whichever check ends it, the calls made obey the API rules; when none
     * does, the device is ready to draw with one fence per swapchain image.
     */
    method InitVk(p: Platform) returns (outcome: InitOutcome)
      requires log == [] && dev == Initial && nextHandle == 0
      requires depth_stencil_format_ == VK_FORMAT_UNDEFINED && frame_index_ == 0 && current_frame_ == 0
      requires p.imageCount >= MinImageCount(p.caps.minImageCount)
      modifies this`vk_instance_, this`vk_surface_, this`vk_phy_device_, this`gpu, this`graphic_queue_index_,
               this`present_queue_index_, this`compute_queue_index_, this`vk_sample_count_, this`vk_device_,
               this`vk_graphic_queue_, this`vk_present_queue_, this`vk_compute_queue_,
               this`vk_swap_chain_, this`swap_chain_format_, this`swap_chain_extend_, this`surface_composite_,
               this`vk_surface_transform_, this`sampler_image_, this`swap_chain_image_view_, this`stencil_image_,
               this`depth_stencil_format_, this`cmd_pool_, this`cmd_buffers_, this`cmd_fences_, this`present_semaphore_,
               this`render_semaphore_, this`vk_render_pass_, this`render_pass_attachments, this`swap_chain_frame_buffers_,
               this`nextHandle, this`log, this`dev
      ensures EndsAs(p, outcome)
      ensures log == InitEvents(outcome, p, vk_surface_, vk_swap_chain_, present_queue_index_)
      ensures LogConsistent()
      ensures outcome.Ready? ==> Valid() && dev.idle && |cmd_buffers_| == p.imageCount
    {
      ghost var calls;
      outcome, calls := OpenAll(p);
      ghost var reached := InitAllowed(outcome, p, vk_surface_, vk_swap_chain_, present_queue_index_);
      log, dev := calls, reached;
    }

    /** init: store the window size and density, then init_vk. */
    method Init(w: int, h: int, d: int, p: Platform) returns (outcome: InitOutcome)
      requires log == [] && dev == Initial && nextHandle == 0
      requires depth_stencil_format_ == VK_FORMAT_UNDEFINED && frame_index_ == 0 && current_frame_ == 0
      requires p.imageCount >= MinImageCount(p.caps.minImageCount)
      modifies this`width_, this`height_, this`density_,
               this`vk_instance_, this`vk_surface_, this`vk_phy_device_, this`gpu, this`graphic_queue_index_,
               this`present_queue_index_, this`compute_queue_index_, this`vk_sample_count_, this`vk_device_,
               this`vk_graphic_queue_, this`vk_present_queue_, this`vk_compute_queue_,
               this`vk_swap_chain_, this`swap_chain_format_, this`swap_chain_extend_, this`surface_composite_,
               this`vk_surface_transform_, this`sampler_image_, this`swap_chain_image_view_, this`stencil_image_,
               this`depth_stencil_format_, this`cmd_pool_, this`cmd_buffers_, this`cmd_fences_, this`present_semaphore_,
               this`render_semaphore_, this`vk_render_pass_, this`render_pass_attachments, this`swap_chain_frame_buffers_,
               this`nextHandle, this`log, this`dev
      ensures width_ == w && height_ == h && density_ == d
      ensures EndsAs(p, outcome)
      ensures log == InitEvents(outcome, p, vk_surface_, vk_swap_chain_, present_queue_index_)
      ensures LogConsistent()
      ensures outcome.Ready? ==> Valid() && frame_index_ == 0 && current_frame_ == 0
    {
      width_, height_, density_ := w, h, d;
      outcome := InitVk(p);
    }

    // -------------------------------------------------------------------
    // Swapchain rebuild

    /** destroy_swap_chain_views: destroys framebuffers, stencil images, sampler images and swapchain views, and clears all four vectors. */
    method DestroySwapChainViews() returns (ghost calls: seq<Event>)
      modifies this`swap_chain_frame_buffers_, this`stencil_image_, this`sampler_image_, this`swap_chain_image_view_
      ensures swap_chain_frame_buffers_ == [] && stencil_image_ == [] && sampler_image_ == [] && swap_chain_image_view_ == []
      ensures calls == DestroyViewsEvents
    {
      swap_chain_frame_buffers_ := [];
      stencil_image_ := [];
      sampler_image_ := [];
      swap_chain_image_view_ := [];
      calls := [DestroyObjects(Framebuffers)] + [DestroyObjects(StencilImages)] + [DestroyObjects(SamplerImages)]
               + [DestroyObjects(SwapchainViews)];
    }

    /**
     * recreate_swap_chain: the extent is the surface's, with width and height
     * swapped for a 90 or 270 degree transform; the new swapchain is created
     * with the current transform as pre-transform and the old swapchain as
     * oldSwapchain, and only then is the old one destroyed.
     */
    method RecreateSwapChain(caps: SurfaceCaps) returns (ghost created: Handle, ghost calls: seq<Event>)
      modifies this`vk_swap_chain_, this`swap_chain_extend_, this`pretransform_flag_, this`vk_surface_transform_,
               this`nextHandle
      ensures created == vk_swap_chain_ == nextHandle == old(nextHandle) + 1
      ensures swap_chain_extend_ == RotatedExtent(caps.currentExtent, caps.currentTransform)
      ensures pretransform_flag_ == caps.currentTransform && vk_surface_transform_ == caps.currentTransform
      ensures calls == RecreateSwapchainEvents(old(Config()), caps, old(vk_swap_chain_), created)
      ensures Config() == old(Config())
    {
      var oldSwapChain := vk_swap_chain_;
      pretransform_flag_ := caps.currentTransform;
      swap_chain_extend_ := RotatedExtent(caps.currentExtent, caps.currentTransform);
      var info := RecreateCreateInfo(vk_surface_, caps, swap_chain_format_, surface_composite_,
                                     present_queue_index_, oldSwapChain);
      var h := NewHandle();
      calls := [CreateSwapchain(info, h)];
      vk_swap_chain_ := h;
      created := h;
      vk_surface_transform_ := caps.currentTransform;
      if oldSwapChain != NULL_HANDLE {
        calls := calls + [DestroySwapchain(oldSwapChain)];
      }
    }

    /**
     * recreate_frame_buffer: destroy the views, create them again for
     * `imageCount` images, then the framebuffers.  The command buffers, fences
     * and semaphores are not resized, so the per-image objects stay
     * consistent only when the new swapchain has as many images as the old.
     */
    method RecreateFrameBuffer(imageCount: nat) returns (ghost calls: seq<Event>)
      requires SyncSized(imageCount) && RenderPassMatches() && DepthFormatSettled()
      modifies this`swap_chain_frame_buffers_, this`stencil_image_, this`sampler_image_, this`swap_chain_image_view_,
               this`depth_stencil_format_, this`nextHandle
      ensures FramesReady(imageCount)
      ensures depth_stencil_format_ == old(depth_stencil_format_)
      ensures old(nextHandle) <= nextHandle
      ensures calls == RebuildViewsEvents
    {
      var destroyed := DestroySwapChainViews();
      var ok, views := CreateSwapChainViews(imageCount);
      var framebuffers := CreateFrameBuffer();
      calls := destroyed + views + framebuffers;
    }

    /**
     * The rebuild draw runs after a stale acquire or present: wait idle,
     * recreate_swap_chain, recreate_frame_buffer, then both cursors back to 0.
     * The per-image objects stay consistent when the rebuilt swapchain has
     * as many images as before.
     */
    method RecoverSwapchain(r: Rebuild) returns (ghost created: Handle, ghost calls: seq<Event>)
      requires Prepared() && r.imageCount == |cmd_buffers_|
      modifies this`vk_swap_chain_, this`swap_chain_extend_, this`pretransform_flag_, this`vk_surface_transform_,
               this`swap_chain_frame_buffers_, this`stencil_image_, this`sampler_image_, this`swap_chain_image_view_,
               this`depth_stencil_format_, this`frame_index_, this`current_frame_, this`nextHandle
      ensures Prepared()
      ensures old(nextHandle) < created == vk_swap_chain_ <= nextHandle
      ensures swap_chain_extend_ == RotatedExtent(r.caps.currentExtent, r.caps.currentTransform)
      ensures frame_index_ == 0 && current_frame_ == 0
      ensures calls == RecoveryEvents(old(Config()), r.caps, old(vk_swap_chain_), created)
      ensures swap_chain_format_ == old(swap_chain_format_) && surface_composite_ == old(surface_composite_)
    {
      ghost var recreated;
      created, recreated := RecreateSwapChain(r.caps);
      var rebuilt := RecreateFrameBuffer(r.imageCount);
      frame_index_, current_frame_ := 0, 0;
      calls := [WaitIdle] + recreated + rebuilt;
    }

    // -------------------------------------------------------------------
    // Drawing

    /**
     * The part of draw after the acquire: reset and begin the acquired
     * image's command buffer (a failed begin ends the frame), record, reset
     * the image's fence, submit, wait for the fence, present; on a stale
     * present rebuild, otherwise advance the semaphore slot.
     */
    method RecordAndPresent(a: FrameAnswers) returns (outcome: FrameOutcome, ghost created: Handle, ghost calls: seq<Event>)
      requires Prepared()
      requires a.beginSucceeds && SwapchainStale(a.present) ==> a.presentRebuild.imageCount == |cmd_buffers_|
      modifies this`current_frame_, this`frame_index_, this`vk_swap_chain_, this`swap_chain_extend_,
               this`pretransform_flag_, this`vk_surface_transform_, this`sampler_image_, this`swap_chain_image_view_,
               this`stencil_image_, this`depth_stencil_format_, this`swap_chain_frame_buffers_, this`nextHandle
      ensures outcome == (if !a.beginSucceeds then BeginFailed else if SwapchainStale(a.present) then Recreated else Presented)
      ensures calls == RecordAndPresentEvents(old(Config()), old(frame_index_), old(vk_swap_chain_), old(current_frame_), a, created)
      ensures Prepared()
      ensures outcome == BeginFailed ==> frame_index_ == old(frame_index_) && current_frame_ == old(current_frame_)
      ensures outcome == Presented ==>
        frame_index_ == (old(frame_index_) + 1) % |cmd_buffers_| && current_frame_ == old(current_frame_)
      ensures outcome == Recreated ==> frame_index_ == 0 && current_frame_ == 0
      ensures outcome == Recreated ==> old(nextHandle) < created == vk_swap_chain_ <= nextHandle
      ensures outcome != Recreated ==> vk_swap_chain_ == old(vk_swap_chain_)
    {
      created := NULL_HANDLE;
      var image := current_frame_;
      ghost var begun := BeginEvents(image, a.beginSucceeds);
      if !a.beginSucceeds {
        return BeginFailed, created, begun;
      }
      ghost var submitted := SubmitEvents(frame_index_, image);
      if SwapchainStale(a.present) {
        ghost var recovery;
        created, recovery := RecoverSwapchain(a.presentRebuild);
        return Recreated, created, begun + submitted + recovery;
      }
      frame_index_ := (frame_index_ + 1) % |swap_chain_image_view_|;
      outcome, calls := Presented, begun + submitted;
    }

    /**
     * The acquire part of draw: acquire on semaphore slot frame_index_; on a
     * stale swapchain rebuild, then acquire once more, now on slot 0.  The
     * frame goes on only when the last acquire succeeded, and then
     * current_frame_ is the acquired image.
     */
    method AcquireFrame(a: FrameAnswers) returns (acquired: bool, ghost created: Handle, ghost calls: seq<Event>)
      requires Prepared() && AnswersFit(a, |cmd_buffers_|)
      modifies this`current_frame_, this`frame_index_, this`vk_swap_chain_, this`swap_chain_extend_,
               this`pretransform_flag_, this`vk_surface_transform_, this`sampler_image_, this`swap_chain_image_view_,
               this`stencil_image_, this`depth_stencil_format_, this`swap_chain_frame_buffers_, this`nextHandle
      ensures acquired == AcquireSucceeds(a)
      ensures calls == AcquireEvents(old(Config()), old(frame_index_), old(vk_swap_chain_), a, created)
      ensures Prepared()
      ensures acquired ==> current_frame_ == AcquiredImage(a) && frame_index_ == FrameSlot(old(frame_index_), a)
      ensures SwapchainStale(a.acquire) ==> old(nextHandle) < created == vk_swap_chain_ <= nextHandle
      ensures !SwapchainStale(a.acquire) ==> vk_swap_chain_ == old(vk_swap_chain_)
    {
      created := NULL_HANDLE;
      ghost var first := [AcquireImage(frame_index_)];
      if !SwapchainStale(a.acquire) {
        if a.acquire == VK_SUCCESS {
          current_frame_ := a.image;
        }
        return a.acquire == VK_SUCCESS, created, first;
      }
      ghost var recovery;
      created, recovery := RecoverSwapchain(a.acquireRebuild);
      calls := first + recovery + [AcquireImage(frame_index_)];
      if a.retry == VK_SUCCESS {
        current_frame_ := a.retryImage;
      }
      acquired := a.retry == VK_SUCCESS;
    }

    /** One draw on the renderer's own state: the acquire, then, when an image was acquired, record and present. */
    method DrawFrame(a: FrameAnswers) returns (outcome: FrameOutcome, ghost h1: Handle, ghost h2: Handle, ghost calls: seq<Event>)
      requires Prepared() && AnswersFit(a, |cmd_buffers_|)
      modifies this`current_frame_, this`frame_index_, this`vk_swap_chain_, this`swap_chain_extend_,
               this`pretransform_flag_, this`vk_surface_transform_, this`sampler_image_, this`swap_chain_image_view_,
               this`stencil_image_, this`depth_stencil_format_, this`swap_chain_frame_buffers_, this`nextHandle
      ensures outcome == FrameOutcomeOf(a)
      ensures calls == FrameEvents(old(Config()), old(frame_index_), old(vk_swap_chain_), a, h1, h2)
      ensures Prepared()
      ensures vk_swap_chain_ == SwapchainAfter(old(vk_swap_chain_), a, h1, h2)
      ensures SwapchainStale(a.acquire) ==> h1 != NULL_HANDLE && h1 != old(vk_swap_chain_)
      ensures outcome == Recreated ==> h2 != NULL_HANDLE && h2 != (if SwapchainStale(a.acquire) then h1 else old(vk_swap_chain_))
      ensures outcome != FrameAborted ==>
        (frame_index_, current_frame_) == CursorAfter(old(frame_index_), |cmd_buffers_|, a)
    {
      var acquired;
      ghost var acquiredCalls;
      acquired, h1, acquiredCalls := AcquireFrame(a);
      h2 := NULL_HANDLE;
      if !acquired {
        return FrameAborted, h1, h2, acquiredCalls;
      }
      ghost var presentCalls;
      outcome, h2, presentCalls := RecordAndPresent(a);
      calls := acquiredCalls + presentCalls;
    }

    /**
     * draw: one frame.  Every call obeys the API rules, and afterwards the
     * device is ready again, with the last swapchain a rebuild created
     * current.
     */
    method Draw(a: FrameAnswers) returns (outcome: FrameOutcome, ghost h1: Handle, ghost h2: Handle)
      requires Valid()
      requires AnswersFit(a, |cmd_buffers_|)
      modifies this`current_frame_, this`frame_index_, this`vk_swap_chain_, this`swap_chain_extend_,
               this`pretransform_flag_, this`vk_surface_transform_, this`sampler_image_, this`swap_chain_image_view_,
               this`stencil_image_, this`depth_stencil_format_, this`swap_chain_frame_buffers_, this`nextHandle,
               this`log, this`dev
      ensures outcome == FrameOutcomeOf(a)
      ensures log == old(log) + FrameEvents(old(Config()), old(frame_index_), old(vk_swap_chain_), a, h1, h2)
      ensures Valid()
      ensures vk_swap_chain_ == SwapchainAfter(old(vk_swap_chain_), a, h1, h2)
      ensures outcome != FrameAborted ==>
        (frame_index_, current_frame_) == CursorAfter(old(frame_index_), |cmd_buffers_|, a)
    {
      ghost var calls;
      outcome, h1, h2, calls := DrawFrame(a);
      ghost var next := FrameExtendsLog(log, old(Config()), old(frame_index_), old(vk_swap_chain_), |cmd_buffers_|, old(dev.idle),
                                        a, h1, h2);
      log, dev := log + calls, next;
    }

    // -------------------------------------------------------------------
    // Teardown

    /** The middle of destroy: the render pass, both semaphore vectors, the fences, then the command pool, reset and destroyed. */
    method DestroyFrameObjects() returns (ghost calls: seq<Event>)
      modifies this`vk_render_pass_, this`present_semaphore_, this`render_semaphore_, this`cmd_fences_, this`cmd_pool_
      ensures vk_render_pass_ == NULL_HANDLE && cmd_pool_ == NULL_HANDLE
      ensures present_semaphore_ == [] && render_semaphore_ == [] && cmd_fences_ == []
      ensures calls == TeardownPassEvents + TeardownPoolEvents
    {
      vk_render_pass_ := NULL_HANDLE;
      present_semaphore_ := [];
      render_semaphore_ := [];
      cmd_fences_ := [];
      cmd_pool_ := NULL_HANDLE;
      calls := [DestroyObjects(RenderPass)] + [DestroyObjects(PresentSemaphores)] + [DestroyObjects(RenderSemaphores)]
               + ([DestroyObjects(Fences)] + [ResetCommandPool] + [DestroyObjects(CommandPool)]);
    }

    /** The end of destroy: the swapchain, the device, the surface and the instance. */
    method DestroyDeviceObjects() returns (ghost calls: seq<Event>)
      modifies this`vk_swap_chain_, this`vk_device_, this`vk_surface_, this`vk_instance_
      ensures vk_swap_chain_ == NULL_HANDLE && vk_device_ == NULL_HANDLE
      ensures vk_surface_ == NULL_HANDLE && vk_instance_ == NULL_HANDLE
      ensures calls == TeardownDeviceEvents(old(vk_swap_chain_))
    {
      calls := [DestroySwapchain(vk_swap_chain_)] + [DestroyObjects(Device)] + [DestroyObjects(Surface)]
               + [DestroyObjects(Instance)];
      vk_swap_chain_, vk_device_, vk_surface_, vk_instance_ := NULL_HANDLE, NULL_HANDLE, NULL_HANDLE, NULL_HANDLE;
    }

    /**
     * destroy: wait idle, destroy the views, the per-frame objects, then the
     * device objects.  The command buffer vector is left as it was.  Every
     * call obeys the API rules and the device ends as it started, with
     * nothing alive.
     */
    method Destroy()
      requires Valid()
      modifies this`swap_chain_frame_buffers_, this`stencil_image_, this`sampler_image_, this`swap_chain_image_view_,
               this`vk_render_pass_, this`present_semaphore_, this`render_semaphore_, this`cmd_fences_, this`cmd_pool_,
               this`vk_swap_chain_, this`vk_device_, this`vk_surface_, this`vk_instance_, this`log, this`dev
      ensures log == old(log) + TeardownEvents(old(vk_swap_chain_))
      ensures LogConsistent() && dev == Initial
      ensures swap_chain_frame_buffers_ == [] && stencil_image_ == [] && sampler_image_ == [] && swap_chain_image_view_ == []
      ensures vk_render_pass_ == NULL_HANDLE && cmd_pool_ == NULL_HANDLE
      ensures present_semaphore_ == [] && render_semaphore_ == [] && cmd_fences_ == []
      ensures vk_swap_chain_ == NULL_HANDLE && vk_device_ == NULL_HANDLE
      ensures vk_surface_ == NULL_HANDLE && vk_instance_ == NULL_HANDLE
      ensures cmd_buffers_ == old(cmd_buffers_)
    {
      ghost var sc := vk_swap_chain_;
      TeardownExtendsLog(log, sc, |cmd_buffers_|, dev.idle);
      var views := DestroySwapChainViews();
      var frames := DestroyFrameObjects();
      var device := DestroyDeviceObjects();
      TeardownByBlocks(log, sc);
      log, dev := log + [WaitIdle] + views + frames + device, Initial;
    }
  }
}
