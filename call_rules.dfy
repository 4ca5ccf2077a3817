// The renderer's call sequences respect the API rules: every block of calls
// an operation makes is allowed in the device state the renderer is in when
// it makes them, and leads to the state the next operation expects.  The
// states between frames are the ready states: everything alive, one
// swapchain, every fence signalled and no command buffer in use.
module CallRules {
  import opened Vulkan
  import opened Selection
  import opened SwapchainParams
  import opened DeviceProtocol
  import opened RendererCalls

  /** The device state between frames, with swapchain `sc` current and `n` per-image fences. */
  function ReadyState(sc: Handle, n: nat, idle: bool): DeviceState {
    DeviceState(EverythingAlive, sc, {}, AllSignalled(n), {}, {}, idle)
  }

  /** After create_device: instance and surface alive, and the device when an adapter was chosen. */
  function DeviceOpened(selected: bool): DeviceState {
    Initial.(live := {Instance, Surface} + (if selected then {Device} else {}))
  }

  /** After create_swap_chain_views: the swapchain `sc` and its views, the stencil images when a format was found. */
  function SwapchainOpened(sc: Handle, found: bool): DeviceState {
    Initial.(live := {Instance, Surface, Device, SamplerImages, SwapchainViews} + (if found then {StencilImages} else {}),
             current := sc)
  }

  /** Extending a log by two blocks is extending it by their concatenation. */
  lemma AppendAssoc(a: seq<Event>, b: seq<Event>, c: seq<Event>)
    ensures a + b + c == a + (b + c)
  {
  }

  /** vkDeviceWaitIdle on a device whose fences are all signalled leaves them all signalled. */
  lemma CompletedKeepsSignalled(n: nat)
    ensures Completed(AllSignalled(n)) == AllSignalled(n)
  {
    assert forall i | 0 <= i < n :: Completed(AllSignalled(n))[i] == Signalled;
  }

  /** No submission is pending while all fences are signalled. */
  lemma NothingPendingWhenSignalled(n: nat, cb: nat)
    ensures Pending(cb) !in AllSignalled(n)
  {
    forall i | 0 <= i < n
      ensures AllSignalled(n)[i] != Pending(cb)
    {
    }
  }

  // ---------------------------------------------------------------------
  // Initialisation

  /** Instance, surface and device can be created in that order on a fresh device. */
  lemma {:induction false} OpenDeviceAllowed(selected: bool)
    ensures Replay(Initial, OpenDeviceEvents(selected)) == Some(DeviceOpened(selected))
  {
    var s1 := Initial.(live := Initial.live + {Instance});
    var s2 := s1.(live := s1.live + {Surface});
    CreateAllowed(Initial, Instance);
    ReplayOne(Initial, CreateObjects(Instance));
    CreateAllowed(s1, Surface);
    SnocThen(Initial, [CreateObjects(Instance)], CreateObjects(Surface), s1, s2);
    if selected {
      CreateAllowed(s2, Device);
      assert s2.live + {Device} == DeviceOpened(true).live;
      SnocThen(Initial, [CreateObjects(Instance)] + [CreateObjects(Surface)], CreateObjects(Device), s2, DeviceOpened(true));
    } else {
      assert OpenDeviceEvents(false) == [CreateObjects(Instance)] + [CreateObjects(Surface)];
      assert s2.live == DeviceOpened(false).live;
    }
  }

  /**
   * create_swap_chain_views's calls are allowed on a device with a swapchain
   * and none of the three kinds alive, and make exactly them alive (the
   * stencil images only when a format was found).
   */
  lemma {:induction false} CreateViewsAllowed(st: DeviceState, found: bool)
    requires Device in st.live && st.current != NULL_HANDLE
    requires SamplerImages !in st.live && SwapchainViews !in st.live && StencilImages !in st.live
    ensures Replay(st, CreateViewsEvents(found))
            == Some(st.(live := st.live + {SamplerImages, SwapchainViews} + (if found then {StencilImages} else {})))
  {
    var s1 := st.(live := st.live + {SamplerImages});
    var s2 := s1.(live := s1.live + {SwapchainViews});
    CreateAllowed(st, SamplerImages);
    ReplayOne(st, CreateObjects(SamplerImages));
    CreateAllowed(s1, SwapchainViews);
    SnocThen(st, [CreateObjects(SamplerImages)], CreateObjects(SwapchainViews), s1, s2);
    if found {
      CreateAllowed(s2, StencilImages);
      SnocThen(st, [CreateObjects(SamplerImages)] + [CreateObjects(SwapchainViews)], CreateObjects(StencilImages),
               s2, s2.(live := s2.live + {StencilImages}));
      assert s2.live + {StencilImages} == st.live + {SamplerImages, SwapchainViews} + {StencilImages};
    } else {
      assert CreateViewsEvents(false) == [CreateObjects(SamplerImages)] + [CreateObjects(SwapchainViews)];
      assert s2.live == st.live + {SamplerImages, SwapchainViews} + {};
    }
  }

  /** The first swapchain, then its views, on an opened device. */
  lemma {:induction false} OpenSwapchainAllowed(info: SwapchainCreateInfo, sc: Handle, found: bool)
    requires info.oldSwapchain == NULL_HANDLE && sc != NULL_HANDLE
    ensures Replay(DeviceOpened(true), [CreateSwapchain(info, sc)] + CreateViewsEvents(found)) == Some(SwapchainOpened(sc, found))
  {
    var s1 := DeviceOpened(true).(current := sc);
    assert Step(DeviceOpened(true), CreateSwapchain(info, sc)) == Some(s1);
    ReplayOne(DeviceOpened(true), CreateSwapchain(info, sc));
    CreateViewsAllowed(s1, found);
    assert s1.live + {SamplerImages, SwapchainViews} + (if found then {StencilImages} else {}) == SwapchainOpened(sc, found).live;
    ReplayThen(DeviceOpened(true), [CreateSwapchain(info, sc)], CreateViewsEvents(found), s1, SwapchainOpened(sc, found));
  }

  /** create_command_pool then create_command_buffers. */
  lemma {:induction false} CommandsAllowed(st: DeviceState)
    requires Device in st.live && CommandPool !in st.live && CommandBuffers !in st.live
    ensures Replay(st, [CreateObjects(CommandPool)] + [CreateObjects(CommandBuffers)])
            == Some(st.(live := st.live + {CommandPool} + {CommandBuffers}))
  {
    var s1 := st.(live := st.live + {CommandPool});
    CreateAllowed(st, CommandPool);
    ReplayOne(st, CreateObjects(CommandPool));
    CreateAllowed(s1, CommandBuffers);
    SnocThen(st, [CreateObjects(CommandPool)], CreateObjects(CommandBuffers), s1, s1.(live := s1.live + {CommandBuffers}));
  }

  /** create_sync_objects: every fence created signalled, then both semaphore vectors. */
  lemma {:induction false} SyncAllowed(st: DeviceState, n: nat)
    requires Device in st.live && Fences !in st.live && PresentSemaphores !in st.live && RenderSemaphores !in st.live
    ensures Replay(st, SyncEvents(n))
            == Some(st.(live := st.live + {Fences} + {PresentSemaphores} + {RenderSemaphores}, fences := AllSignalled(n)))
  {
    var s1 := st.(live := st.live + {Fences}, fences := AllSignalled(n));
    var s2 := s1.(live := s1.live + {PresentSemaphores});
    assert Step(st, CreateFences(n)) == Some(s1);
    ReplayOne(st, CreateFences(n));
    CreateAllowed(s1, PresentSemaphores);
    SnocThen(st, [CreateFences(n)], CreateObjects(PresentSemaphores), s1, s2);
    CreateAllowed(s2, RenderSemaphores);
    SnocThen(st, [CreateFences(n)] + [CreateObjects(PresentSemaphores)], CreateObjects(RenderSemaphores),
             s2, s2.(live := s2.live + {RenderSemaphores}));
  }

  /** create_render_pass then create_frame_buffer, once the three attachment kinds are alive. */
  lemma {:induction false} PassAllowed(st: DeviceState)
    requires Device in st.live && RenderPass !in st.live && Framebuffers !in st.live
    requires SamplerImages in st.live && StencilImages in st.live && SwapchainViews in st.live
    ensures Replay(st, [CreateObjects(RenderPass)] + [CreateObjects(Framebuffers)])
            == Some(st.(live := st.live + {RenderPass} + {Framebuffers}))
  {
    var s1 := st.(live := st.live + {RenderPass});
    CreateAllowed(st, RenderPass);
    ReplayOne(st, CreateObjects(RenderPass));
    CreateAllowed(s1, Framebuffers);
    SnocThen(st, [CreateObjects(RenderPass)], CreateObjects(Framebuffers), s1, s1.(live := s1.live + {Framebuffers}));
  }

  /** init_vk's last five steps bring an opened swapchain to the ready state, with `n` fences. */
  lemma {:induction false} OpenFramesAllowed(sc: Handle, n: nat)
    requires sc != NULL_HANDLE
    ensures Replay(SwapchainOpened(sc, true), OpenFramesEvents(n)) == Some(ReadyState(sc, n, true))
  {
    var s0 := SwapchainOpened(sc, true);
    var pool := [CreateObjects(CommandPool)] + [CreateObjects(CommandBuffers)];
    var s1 := s0.(live := s0.live + {CommandPool} + {CommandBuffers});
    var s2 := s1.(live := s1.live + {Fences} + {PresentSemaphores} + {RenderSemaphores}, fences := AllSignalled(n));
    var s3 := s2.(live := s2.live + {RenderPass} + {Framebuffers});
    // The set facts first, while no replay is in scope.
    assert s3 == ReadyState(sc, n, true);
    assert Device in s1.live && Fences !in s1.live && PresentSemaphores !in s1.live && RenderSemaphores !in s1.live;
    assert RenderPass !in s2.live && Framebuffers !in s2.live;
    CommandsAllowed(s0);
    SyncAllowed(s1, n);
    ReplayThen(s0, pool, SyncEvents(n), s1, s2);
    PassAllowed(s2);
    ReplayThen(s0, pool + SyncEvents(n), [CreateObjects(RenderPass)] + [CreateObjects(Framebuffers)], s2, s3);
  }

  /**
   * init_vk's calls are allowed whichever check ends it, and when none does
   * they leave the device ready with one fence per swapchain image.
   */
  lemma {:induction false} InitAllowed(outcome: InitOutcome, p: Platform, surface: Handle, sc: Handle, presentQueue: U32)
    returns (st: DeviceState)
    requires !outcome.SelectionAborted? ==> sc != NULL_HANDLE
    ensures Reaches(InitEvents(outcome, p, surface, sc, presentQueue), st)
    ensures outcome == Ready ==> st == ReadyState(sc, p.imageCount, true)
  {
    var info := InitialCreateInfo(surface, p.caps, ChooseSwapChainFormat(p.surfaceFormats), presentQueue);
    var created := [CreateSwapchain(info, sc)];
    match outcome {
    case SelectionAborted(_) =>
      OpenDeviceAllowed(false);
    case NoDepthStencilFormat =>
      OpenDeviceAllowed(true);
      OpenSwapchainAllowed(info, sc, false);
      ReplayThen(Initial, OpenDeviceEvents(true), created + CreateViewsEvents(false), DeviceOpened(true), SwapchainOpened(sc, false));
    case Ready =>
      OpenDeviceAllowed(true);
      OpenSwapchainAllowed(info, sc, true);
      ReplayThen(Initial, OpenDeviceEvents(true), created + CreateViewsEvents(true), DeviceOpened(true), SwapchainOpened(sc, true));
      OpenFramesAllowed(sc, p.imageCount);
      ReplayThen(Initial, OpenDeviceEvents(true) + (created + CreateViewsEvents(true)), OpenFramesEvents(p.imageCount),
                 SwapchainOpened(sc, true), ReadyState(sc, p.imageCount, true));
    }
    st := Replay(Initial, InitEvents(outcome, p, surface, sc, presentQueue)).value;
  }

  // ---------------------------------------------------------------------
  // The swapchain rebuild

  /** vkDeviceWaitIdle on a ready device makes it idle and changes nothing else. */
  lemma {:induction false} WaitIdleAllowed(sc: Handle, n: nat, idle: bool)
    ensures Replay(ReadyState(sc, n, idle), [WaitIdle]) == Some(ReadyState(sc, n, true))
  {
    CompletedKeepsSignalled(n);
    assert Step(ReadyState(sc, n, idle), WaitIdle) == Some(ReadyState(sc, n, true));
    ReplayOne(ReadyState(sc, n, idle), WaitIdle);
  }

  /**
   * recreate_swap_chain's calls on an idle device: the new swapchain `h`
   * retires the current one, whose destruction then leaves `h` the only
   * swapchain.
   */
  lemma {:induction false} RecreateSwapchainAllowed(st: DeviceState, cfg: SwapchainConfig, caps: SurfaceCaps, h: Handle)
    requires st.idle && Device in st.live && Surface in st.live
    requires st.current != NULL_HANDLE && st.retired == {} && h != NULL_HANDLE && h != st.current
    ensures Replay(st, RecreateSwapchainEvents(cfg, caps, st.current, h)) == Some(st.(current := h))
  {
    var info := RecreateCreateInfo(cfg.surface, caps, cfg.format, cfg.composite, cfg.presentQueue, st.current);
    var s1 := st.(current := h, retired := st.retired + {st.current});
    assert Step(st, CreateSwapchain(info, h)) == Some(s1);
    ReplayOne(st, CreateSwapchain(info, h));
    assert s1.retired - {st.current} == {};
    assert Step(s1, DestroySwapchain(st.current)) == Some(st.(current := h));
    SnocThen(st, [CreateSwapchain(info, h)], DestroySwapchain(st.current), s1, st.(current := h));
  }

  /** destroy_swap_chain_views's calls are allowed on an idle device with the four kinds alive, and kill exactly them. */
  lemma {:induction false} DestroyViewsAllowed(st: DeviceState)
    requires st.idle
    requires Framebuffers in st.live && StencilImages in st.live && SamplerImages in st.live && SwapchainViews in st.live
    ensures Replay(st, DestroyViewsEvents)
            == Some(st.(live := st.live - {Framebuffers} - {StencilImages} - {SamplerImages} - {SwapchainViews}))
  {
    var s1 := Without(st, Framebuffers);
    var s2 := Without(s1, StencilImages);
    var s3 := Without(s2, SamplerImages);
    DestroyAllowed(st, Framebuffers);
    ReplayOne(st, DestroyObjects(Framebuffers));
    DestroyAllowed(s1, StencilImages);
    SnocThen(st, [DestroyObjects(Framebuffers)], DestroyObjects(StencilImages), s1, s2);
    DestroyAllowed(s2, SamplerImages);
    SnocThen(st, [DestroyObjects(Framebuffers)] + [DestroyObjects(StencilImages)], DestroyObjects(SamplerImages), s2, s3);
    DestroyAllowed(s3, SwapchainViews);
    SnocThen(st, [DestroyObjects(Framebuffers)] + [DestroyObjects(StencilImages)] + [DestroyObjects(SamplerImages)],
             DestroyObjects(SwapchainViews), s3, Without(s3, SwapchainViews));
  }

  /** recreate_frame_buffer's calls on an idle device with everything alive leave it exactly as it was. */
  lemma {:induction false} RebuildViewsAllowed(st: DeviceState)
    requires st.idle && st.live == EverythingAlive && st.current != NULL_HANDLE
    ensures Replay(st, RebuildViewsEvents) == Some(st)
  {
    var s1 := st.(live := st.live - {Framebuffers} - {StencilImages} - {SamplerImages} - {SwapchainViews});
    DestroyViewsAllowed(st);
    var s2 := s1.(live := s1.live + {SamplerImages, SwapchainViews} + {StencilImages});
    CreateViewsAllowed(s1, true);
    ReplayThen(st, DestroyViewsEvents, CreateViewsEvents(true), s1, s2);
    CreateAllowed(s2, Framebuffers);
    assert s2.live + {Framebuffers} == st.live;
    SnocThen(st, DestroyViewsEvents + CreateViewsEvents(true), CreateObjects(Framebuffers), s2, st);
  }

  /**
   * The rebuild draw runs after a stale result is allowed on a ready device
   * and leaves it ready and idle with the new swapchain `h` current.
   */
  lemma {:induction false} RecoveryAllowed(cfg: SwapchainConfig, caps: SurfaceCaps, sc: Handle, h: Handle, n: nat, idle: bool)
    requires sc != NULL_HANDLE && h != NULL_HANDLE && h != sc
    ensures Replay(ReadyState(sc, n, idle), RecoveryEvents(cfg, caps, sc, h)) == Some(ReadyState(h, n, true))
  {
    WaitIdleAllowed(sc, n, idle);
    RecreateSwapchainAllowed(ReadyState(sc, n, true), cfg, caps, h);
    ReplayThen(ReadyState(sc, n, idle), [WaitIdle], RecreateSwapchainEvents(cfg, caps, sc, h), ReadyState(sc, n, true), ReadyState(h, n, true));
    RebuildViewsAllowed(ReadyState(h, n, true));
    ReplayThen(ReadyState(sc, n, idle), [WaitIdle] + RecreateSwapchainEvents(cfg, caps, sc, h), RebuildViewsEvents,
               ReadyState(h, n, true), ReadyState(h, n, true));
  }

  // ---------------------------------------------------------------------
  // Drawing

  /** Resetting and beginning a command buffer of a ready device is allowed; a successful begin starts recording it. */
  lemma {:induction false} BeginAllowed(sc: Handle, n: nat, idle: bool, image: nat, succeeded: bool)
    ensures Replay(ReadyState(sc, n, idle), BeginEvents(image, succeeded))
            == Some(if succeeded then ReadyState(sc, n, idle).(recording := {image}) else ReadyState(sc, n, idle))
  {
    var st := ReadyState(sc, n, idle);
    NothingPendingWhenSignalled(n, image);
    assert {} - {image} == {} && {} + {image} == {image};
    assert Step(st, ResetCommandBuffer(image)) == Some(st);
    ReplayOne(st, ResetCommandBuffer(image));
    var ready := if succeeded then st.(recording := {image}) else st;
    assert Step(st, BeginCommandBuffer(image, succeeded)) == Some(ready);
    SnocThen(st, [ResetCommandBuffer(image)], BeginCommandBuffer(image, succeeded), st, ready);
  }

  /**
   * Recording, the fence cycle and present are allowed on a ready device
   * recording the image's command buffer; afterwards it is ready again, and
   * busy.
   */
  lemma {:induction false} SubmitAllowed(sc: Handle, n: nat, idle: bool, slot: nat, image: nat)
    requires sc != NULL_HANDLE && image < n
    ensures Replay(ReadyState(sc, n, idle).(recording := {image}), SubmitEvents(slot, image)) == Some(ReadyState(sc, n, false))
  {
    var st := ReadyState(sc, n, idle).(recording := {image});
    var recorded := st.(recording := {}, executable := {image});
    assert {image} - {image} == {} && {} + {image} == {image};
    assert Step(st, RecordFrame(image, image)) == Some(recorded);
    ReplayOne(st, RecordFrame(image, image));
    NothingPendingWhenSignalled(n, image);
    var cycle := [ResetFence(image), Submit(image, slot, slot, image), WaitFence(image)];
    FenceCycle(recorded, image, slot, slot, image);
    var submitted := recorded.(executable := {}, idle := false);
    ReplayThen(st, [RecordFrame(image, image)], cycle, recorded, submitted);
    assert Step(submitted, Present(image, slot)) == Some(ReadyState(sc, n, false));
    SnocThen(st, [RecordFrame(image, image)] + cycle, Present(image, slot), submitted, ReadyState(sc, n, false));
  }

  /**
   * The calls after a successful acquire of `image` are allowed on a ready
   * device and leave it ready: as it was after a failed begin, busy after a
   * plain present, idle with the new swapchain `h` after a present rebuild.
   */
  lemma {:induction false} RecordAndPresentAllowed(cfg: SwapchainConfig, slot: nat, sc: Handle, n: nat, idle: bool,
                                                   image: nat, a: FrameAnswers, h: Handle)
    requires sc != NULL_HANDLE && image < n
    requires a.beginSucceeds && SwapchainStale(a.present) ==> h != NULL_HANDLE && h != sc
    ensures Replay(ReadyState(sc, n, idle), RecordAndPresentEvents(cfg, slot, sc, image, a, h))
            == Some(if !a.beginSucceeds then ReadyState(sc, n, idle)
                    else if SwapchainStale(a.present) then ReadyState(h, n, true)
                    else ReadyState(sc, n, false))
  {
    var st := ReadyState(sc, n, idle);
    BeginAllowed(sc, n, idle, image, a.beginSucceeds);
    if a.beginSucceeds {
      SubmitAllowed(sc, n, idle, slot, image);
      ReplayThen(st, BeginEvents(image, true), SubmitEvents(slot, image), st.(recording := {image}), ReadyState(sc, n, false));
      if SwapchainStale(a.present) {
        RecoveryAllowed(cfg, a.presentRebuild.caps, sc, h, n, false);
        ReplayThen(st, BeginEvents(image, true) + SubmitEvents(slot, image), RecoveryEvents(cfg, a.presentRebuild.caps, sc, h),
                   ReadyState(sc, n, false), ReadyState(h, n, true));
      }
    }
  }

  /**
   * The acquire calls are allowed on a ready device: a plain acquire changes
   * nothing, a stale one is followed by the rebuild and a retry, which leave
   * the device ready and idle with `h` current.
   */
  lemma {:induction false} AcquireAllowed(cfg: SwapchainConfig, slot: nat, sc: Handle, n: nat, idle: bool, a: FrameAnswers, h: Handle)
    requires sc != NULL_HANDLE
    requires SwapchainStale(a.acquire) ==> h != NULL_HANDLE && h != sc
    ensures Replay(ReadyState(sc, n, idle), AcquireEvents(cfg, slot, sc, a, h))
            == Some(if SwapchainStale(a.acquire) then ReadyState(h, n, true) else ReadyState(sc, n, idle))
  {
    var st := ReadyState(sc, n, idle);
    assert Step(st, AcquireImage(slot)) == Some(st);
    ReplayOne(st, AcquireImage(slot));
    if SwapchainStale(a.acquire) {
      var recovery := RecoveryEvents(cfg, a.acquireRebuild.caps, sc, h);
      RecoveryAllowed(cfg, a.acquireRebuild.caps, sc, h, n, idle);
      ReplayThen(st, [AcquireImage(slot)], recovery, st, ReadyState(h, n, true));
      assert Step(ReadyState(h, n, true), AcquireImage(0)) == Some(ReadyState(h, n, true));
      SnocThen(st, [AcquireImage(slot)] + recovery, AcquireImage(0), ReadyState(h, n, true), ReadyState(h, n, true));
    }
  }

  /**
   * Every draw from a ready device makes only allowed calls and leaves the
   * device ready, with the swapchain the frame ends on current, as long as
   * acquired images are below the image count and every rebuild creates a
   * new swapchain.
   */
  lemma {:induction false} FrameAllowed(cfg: SwapchainConfig, slot: nat, sc: Handle, n: nat, idle: bool,
                                        a: FrameAnswers, h1: Handle, h2: Handle)
    requires sc != NULL_HANDLE && AnswersFit(a, n)
    requires SwapchainStale(a.acquire) ==> h1 != NULL_HANDLE && h1 != sc
    requires FrameOutcomeOf(a) == Recreated ==> h2 != NULL_HANDLE && h2 != (if SwapchainStale(a.acquire) then h1 else sc)
    ensures var r := Replay(ReadyState(sc, n, idle), FrameEvents(cfg, slot, sc, a, h1, h2));
      r.Some? && r.value == ReadyState(SwapchainAfter(sc, a, h1, h2), n, r.value.idle)
  {
    var st := ReadyState(sc, n, idle);
    AcquireAllowed(cfg, slot, sc, n, idle, a, h1);
    var acquired := AcquireEvents(cfg, slot, sc, a, h1);
    if AcquireSucceeds(a) {
      if SwapchainStale(a.acquire) {
        RecordAndPresentAllowed(cfg, 0, h1, n, true, a.retryImage, a, h2);
        var after := RecordAndPresentEvents(cfg, 0, h1, a.retryImage, a, h2);
        ReplayThen(st, acquired, after, ReadyState(h1, n, true), Replay(ReadyState(h1, n, true), after).value);
      } else {
        RecordAndPresentAllowed(cfg, slot, sc, n, idle, a.image, a, h2);
        var after := RecordAndPresentEvents(cfg, slot, sc, a.image, a, h2);
        ReplayThen(st, acquired, after, st, Replay(st, after).value);
      }
    }
  }

  /** A draw appended to a log that left the device ready leaves it ready again, with the frame's last swapchain current. */
  lemma {:induction false} FrameExtendsLog(prefix: seq<Event>, cfg: SwapchainConfig, slot: nat, sc: Handle, n: nat, idle: bool,
                                           a: FrameAnswers, h1: Handle, h2: Handle)
    returns (next: DeviceState)
    requires Reaches(prefix, ReadyState(sc, n, idle))
    requires sc != NULL_HANDLE && AnswersFit(a, n)
    requires SwapchainStale(a.acquire) ==> h1 != NULL_HANDLE && h1 != sc
    requires FrameOutcomeOf(a) == Recreated ==> h2 != NULL_HANDLE && h2 != (if SwapchainStale(a.acquire) then h1 else sc)
    ensures Reaches(prefix + FrameEvents(cfg, slot, sc, a, h1, h2), next)
    ensures next == ReadyState(SwapchainAfter(sc, a, h1, h2), n, next.idle)
  {
    assert Replay(Initial, prefix) == Some(ReadyState(sc, n, idle));
    var frame := FrameEvents(cfg, slot, sc, a, h1, h2);
    FrameAllowed(cfg, slot, sc, n, idle, a, h1, h2);
    next := Replay(ReadyState(sc, n, idle), frame).value;
    ReplayThen(Initial, prefix, frame, ReadyState(sc, n, idle), next);
  }

  // ---------------------------------------------------------------------
  // Teardown

  /** The render pass and both semaphore vectors can go once the framebuffers have. */
  lemma {:induction false} TeardownPassAllowed(st: DeviceState)
    requires st.idle && Framebuffers !in st.live
    requires RenderPass in st.live && PresentSemaphores in st.live && RenderSemaphores in st.live
    ensures Replay(st, TeardownPassEvents)
            == Some(st.(live := st.live - {RenderPass} - {PresentSemaphores} - {RenderSemaphores}))
  {
    var s1 := Without(st, RenderPass);
    var s2 := Without(s1, PresentSemaphores);
    DestroyAllowed(st, RenderPass);
    ReplayOne(st, DestroyObjects(RenderPass));
    DestroyAllowed(s1, PresentSemaphores);
    SnocThen(st, [DestroyObjects(RenderPass)], DestroyObjects(PresentSemaphores), s1, s2);
    DestroyAllowed(s2, RenderSemaphores);
    SnocThen(st, [DestroyObjects(RenderPass)] + [DestroyObjects(PresentSemaphores)], DestroyObjects(RenderSemaphores),
             s2, Without(s2, RenderSemaphores));
  }

  /** The fences, then the command pool after resetting it, on an idle device; the pool's buffers go with it. */
  lemma {:induction false} TeardownPoolAllowed(st: DeviceState)
    requires st.idle && Fences in st.live && CommandPool in st.live
    ensures Replay(st, TeardownPoolEvents)
            == Some(st.(live := st.live - {Fences} - {CommandPool, CommandBuffers}, fences := [], recording := {}, executable := {}))
  {
    var s1 := Without(st, Fences);
    var s2 := s1.(recording := {}, executable := {});
    DestroyAllowed(st, Fences);
    ReplayOne(st, DestroyObjects(Fences));
    assert Step(s1, ResetCommandPool) == Some(s2);
    SnocThen(st, [DestroyObjects(Fences)], ResetCommandPool, s1, s2);
    DestroyAllowed(s2, CommandPool);
    SnocThen(st, [DestroyObjects(Fences)] + [ResetCommandPool], DestroyObjects(CommandPool), s2, Without(s2, CommandPool));
  }

  /** The swapchain, the device, the surface and the instance, in that order, bring the device back to the initial state. */
  lemma {:induction false} TeardownDeviceAllowed(sc: Handle)
    requires sc != NULL_HANDLE
    ensures Replay(Initial.(live := {Instance, Surface, Device}, current := sc), TeardownDeviceEvents(sc)) == Some(Initial)
  {
    var st := Initial.(live := {Instance, Surface, Device}, current := sc);
    var s1 := Initial.(live := {Instance, Surface, Device});
    var s2 := Initial.(live := {Instance, Surface});
    var s3 := Initial.(live := {Instance});
    assert Step(st, DestroySwapchain(sc)) == Some(s1);
    ReplayOne(st, DestroySwapchain(sc));
    DestroyAllowed(s1, Device);
    assert Without(s1, Device) == s2;
    SnocThen(st, [DestroySwapchain(sc)], DestroyObjects(Device), s1, s2);
    DestroyAllowed(s2, Surface);
    assert Without(s2, Surface) == s3;
    SnocThen(st, [DestroySwapchain(sc)] + [DestroyObjects(Device)], DestroyObjects(Surface), s2, s3);
    DestroyAllowed(s3, Instance);
    assert Without(s3, Instance) == Initial;
    SnocThen(st, [DestroySwapchain(sc)] + [DestroyObjects(Device)] + [DestroyObjects(Surface)], DestroyObjects(Instance), s3, Initial);
  }

  /**
   * destroy's calls are allowed on a ready device, whatever its fences and
   * command buffers are doing, and bring it back to its initial state:
   * nothing alive, no swapchain.
   */
  lemma {:induction false} TeardownAllowed(sc: Handle, n: nat, idle: bool)
    requires sc != NULL_HANDLE
    ensures Replay(ReadyState(sc, n, idle), TeardownEvents(sc)) == Some(Initial)
  {
    var st := ReadyState(sc, n, idle);
    var s1 := ReadyState(sc, n, true);
    var s2 := s1.(live := s1.live - {Framebuffers} - {StencilImages} - {SamplerImages} - {SwapchainViews});
    var s3 := s2.(live := s2.live - {RenderPass} - {PresentSemaphores} - {RenderSemaphores});
    var s4 := s3.(live := s3.live - {Fences} - {CommandPool, CommandBuffers}, fences := [], recording := {}, executable := {});
    // The set facts first, while no replay is in scope.
    assert s4 == Initial.(live := {Instance, Surface, Device}, current := sc);
    assert Framebuffers !in s2.live && RenderPass in s2.live && PresentSemaphores in s2.live && RenderSemaphores in s2.live;
    assert Fences in s3.live && CommandPool in s3.live;
    WaitIdleAllowed(sc, n, idle);
    DestroyViewsAllowed(s1);
    ReplayThen(st, [WaitIdle], DestroyViewsEvents, s1, s2);
    TeardownPassAllowed(s2);
    ReplayThen(st, [WaitIdle] + DestroyViewsEvents, TeardownPassEvents, s2, s3);
    TeardownPoolAllowed(s3);
    ReplayThen(st, [WaitIdle] + DestroyViewsEvents + TeardownPassEvents, TeardownPoolEvents, s3, s4);
    TeardownDeviceAllowed(sc);
    ReplayThen(st, [WaitIdle] + DestroyViewsEvents + TeardownPassEvents + TeardownPoolEvents, TeardownDeviceEvents(sc), s4, Initial);
  }

  /** The teardown log as destroy() writes it: the wait, the views, the per-frame objects, the device objects. */
  lemma TeardownByBlocks(prefix: seq<Event>, sc: Handle)
    ensures prefix + [WaitIdle] + DestroyViewsEvents + (TeardownPassEvents + TeardownPoolEvents) + TeardownDeviceEvents(sc)
            == prefix + TeardownEvents(sc)
  {
  }

  /** Teardown appended to a log that left the device ready leaves it as it started. */
  lemma {:induction false} TeardownExtendsLog(prefix: seq<Event>, sc: Handle, n: nat, idle: bool)
    requires sc != NULL_HANDLE && Reaches(prefix, ReadyState(sc, n, idle))
    ensures Reaches(prefix + TeardownEvents(sc), Initial)
  {
    assert Replay(Initial, prefix) == Some(ReadyState(sc, n, idle));
    TeardownAllowed(sc, n, idle);
    ReplayThen(Initial, prefix, TeardownEvents(sc), ReadyState(sc, n, idle), Initial);
  }
}
