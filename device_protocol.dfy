// The rules of the Vulkan API that the renderer's calls have to respect, as a
// state machine over an event log: objects are created after the objects they
// are made from and destroyed before them and only when the device is idle;
// a command buffer is reset, begun or submitted only when no unfinished
// submission uses it; a fence is reset only when no unfinished submission
// will signal it, submitted only unsignalled, and waited on only when some
// submission will signal it; a new swapchain names the current one as its
// oldSwapchain, which retires it; a retired swapchain may still be destroyed.
module DeviceProtocol {
  import opened Vulkan
  import opened SwapchainParams

  datatype Option<T> = None | Some(value: T)

  /** The kinds of objects the renderer creates; each vector of per-image objects counts as one. */
  datatype Resource =
    | Instance | Surface | Device
    | SamplerImages | SwapchainViews | StencilImages
    | CommandPool | CommandBuffers | Fences | PresentSemaphores | RenderSemaphores
    | RenderPass | Framebuffers

  const AllResources: set<Resource> := {
    Instance, Surface, Device, SamplerImages, SwapchainViews, StencilImages,
    CommandPool, CommandBuffers, Fences, PresentSemaphores, RenderSemaphores,
    RenderPass, Framebuffers}

  /** The kinds of objects alive. */
  type Live = set<Resource>

  const NothingAlive: Live := {}
  const EverythingAlive: Live := AllResources

  predicate Alive(live: Live, k: Resource) {
    k in live
  }

  /** The live kinds with k added (`alive`) or removed, every other kept. */
  function Mark(live: Live, k: Resource, alive: bool): Live {
    if alive then live + {k} else live - {k}
  }

  /** What must be alive for an object of this kind to be created. */
  function Prerequisites(k: Resource): set<Resource> {
    match k
    case Instance => {}
    case Surface => {Instance}
    case Device => {Instance}
    case CommandBuffers => {CommandPool}
    case Framebuffers => {RenderPass, SamplerImages, StencilImages, SwapchainViews}
    case _ => {Device}
  }

  /**
   * The live objects that keep one of kind k from being destroyed.  Command
   * buffers do not keep their pool alive: destroying a pool frees them.
   */
  function Blockers(k: Resource, live: Live): set<Resource> {
    set r | r in live && k in Prerequisites(r) && !(k == CommandPool && r == CommandBuffers)
  }

  /** Every prerequisite of k is alive, written out kind by kind. */
  predicate PrerequisitesLive(k: Resource, live: Live) {
    match k
    case Instance => true
    case Surface => Instance in live
    case Device => Instance in live
    case CommandBuffers => CommandPool in live
    case Framebuffers => RenderPass in live && SamplerImages in live && StencilImages in live && SwapchainViews in live
    case _ => Device in live
  }

  /** Nothing that blocks destroying k is alive, written out kind by kind. */
  predicate DependentsDead(k: Resource, live: Live) {
    match k
    case Instance => Surface !in live && Device !in live
    case Device =>
      && SamplerImages !in live && SwapchainViews !in live && StencilImages !in live && CommandPool !in live
      && Fences !in live && PresentSemaphores !in live && RenderSemaphores !in live && RenderPass !in live
    case SamplerImages => Framebuffers !in live
    case SwapchainViews => Framebuffers !in live
    case StencilImages => Framebuffers !in live
    case RenderPass => Framebuffers !in live
    case _ => true
  }

  /** The creation rule Step checks is exactly "all prerequisites alive". */
  lemma PrerequisitesLiveIsSubset(k: Resource, live: Live)
    ensures PrerequisitesLive(k, live) <==> Prerequisites(k) <= live
  {
  }

  /** The destruction rule Step checks is exactly "nothing made from it is alive". */
  lemma {:induction false} DependentsDeadIsNoBlockers(k: Resource, live: Live)
    ensures DependentsDead(k, live) <==> Blockers(k, live) == {}
  {
    if DependentsDead(k, live) {
      forall r | r in Blockers(k, live)
        ensures false
      {
      }
    } else {
      var r :=
        match k
        case Instance => if Surface in live then Surface else Device
        case Device =>
          if SamplerImages in live then SamplerImages else if SwapchainViews in live then SwapchainViews
          else if StencilImages in live then StencilImages else if CommandPool in live then CommandPool
          else if Fences in live then Fences else if PresentSemaphores in live then PresentSemaphores
          else if RenderSemaphores in live then RenderSemaphores else RenderPass
        case _ => Framebuffers;
      assert r in Blockers(k, live);
    }
  }

  /** A fence is signalled, unsignalled, or will be signalled by the submission of a command buffer. */
  datatype FenceState = Signalled | Unsignalled | Pending(commandBuffer: nat)

  /**
   * What the API rules need to know about the device: the live objects, the
   * current swapchain and the retired ones, each fence's state, the command
   * buffers being recorded and those ready to submit, and whether the device
   * is known to have finished all work.
   */
  datatype DeviceState = DeviceState(
    live: Live,
    current: Handle,
    retired: set<Handle>,
    fences: seq<FenceState>,
    recording: set<nat>,
    executable: set<nat>,
    idle: bool)

  const Initial := DeviceState(NothingAlive, NULL_HANDLE, {}, [], {}, {}, true)

  /** n fences created with VK_FENCE_CREATE_SIGNALED_BIT. */
  function AllSignalled(n: nat): (r: seq<FenceState>)
    ensures |r| == n && forall i | 0 <= i < n :: r[i] == Signalled
  {
    seq(n, _ => Signalled)
  }

  /** After vkDeviceWaitIdle every submission has finished and signalled its fence. */
  function Completed(fences: seq<FenceState>): (r: seq<FenceState>)
    ensures |r| == |fences|
    ensures forall i | 0 <= i < |r| :: r[i] == (if fences[i].Pending? then Signalled else fences[i])
  {
    seq(|fences|, i requires 0 <= i < |fences| => if fences[i].Pending? then Signalled else fences[i])
  }

  /** The API calls the renderer makes, in the terms the rules need. */
  datatype Event =
    | CreateObjects(kind: Resource)
    | CreateFences(count: nat)
    | DestroyObjects(kind: Resource)
    | CreateSwapchain(info: SwapchainCreateInfo, created: Handle)
    | DestroySwapchain(swapchain: Handle)
    | WaitIdle
    | AcquireImage(semaphore: nat)
    | ResetCommandBuffer(commandBuffer: nat)
    | BeginCommandBuffer(commandBuffer: nat, succeeded: bool)
    | RecordFrame(commandBuffer: nat, framebuffer: nat)
    | ResetFence(fence: nat)
    | Submit(commandBuffer: nat, waitSemaphore: nat, signalSemaphore: nat, fence: nat)
    | WaitFence(fence: nat)
    | Present(image: nat, waitSemaphore: nat)
    | ResetCommandPool

  /** The state after destroying an object of kind k (its pool's command buffers go with it). */
  function Without(st: DeviceState, k: Resource): DeviceState {
    if k == CommandPool then st.(live := st.live - {CommandPool, CommandBuffers}, recording := {}, executable := {})
    else if k == Fences then st.(live := st.live - {Fences}, fences := [])
    else st.(live := Mark(st.live, k, false))
  }

  /** vkCreate* for the objects of kind k (fences have their own event). */
  function CreateStep(st: DeviceState, k: Resource): Option<DeviceState> {
    if k != Fences && !Alive(st.live, k) && PrerequisitesLive(k, st.live)
       && (k == SwapchainViews ==> st.current != NULL_HANDLE)
    then Some(st.(live := Mark(st.live, k, true)))
    else None
  }

  /** vkCreateFence, n times, each created signalled. */
  function CreateFencesStep(st: DeviceState, n: nat): Option<DeviceState> {
    if Fences !in st.live && Device in st.live
    then Some(st.(live := st.live + {Fences}, fences := AllSignalled(n)))
    else None
  }

  /** vkDestroy* for the objects of kind k. */
  function DestroyStep(st: DeviceState, k: Resource): Option<DeviceState> {
    if st.idle && Alive(st.live, k) && DependentsDead(k, st.live)
       && ((k == Device || k == Surface) ==> st.current == NULL_HANDLE && st.retired == {})
    then Some(Without(st, k))
    else None
  }

  /** vkCreateSwapchainKHR returning handle h. */
  function CreateSwapchainStep(st: DeviceState, info: SwapchainCreateInfo, h: Handle): Option<DeviceState> {
    if Device in st.live && Surface in st.live && h != NULL_HANDLE && h != st.current
       && h !in st.retired && info.oldSwapchain == st.current
    then Some(st.(current := h,
                  retired := if st.current == NULL_HANDLE then st.retired else st.retired + {st.current}))
    else None
  }

  /** vkDestroySwapchainKHR. */
  function DestroySwapchainStep(st: DeviceState, h: Handle): Option<DeviceState> {
    if st.idle && h != NULL_HANDLE && (h == st.current || h in st.retired)
    then Some(if h == st.current then st.(current := NULL_HANDLE) else st.(retired := st.retired - {h}))
    else None
  }

  /** vkDeviceWaitIdle. */
  function WaitIdleStep(st: DeviceState): Option<DeviceState> {
    if Device in st.live then Some(st.(fences := Completed(st.fences), idle := true)) else None
  }

  /** vkAcquireNextImageKHR. */
  function AcquireStep(st: DeviceState): Option<DeviceState> {
    if st.current != NULL_HANDLE && PresentSemaphores in st.live then Some(st) else None
  }

  /** vkResetCommandBuffer. */
  function ResetCommandBufferStep(st: DeviceState, cb: nat): Option<DeviceState> {
    if CommandBuffers in st.live && Pending(cb) !in st.fences
    then Some(st.(recording := st.recording - {cb}, executable := st.executable - {cb}))
    else None
  }

  /** vkBeginCommandBuffer, which starts recording when it succeeds. */
  function BeginStep(st: DeviceState, cb: nat, ok: bool): Option<DeviceState> {
    if CommandBuffers in st.live && Pending(cb) !in st.fences && cb !in st.recording
    then Some(if ok then st.(recording := st.recording + {cb}, executable := st.executable - {cb}) else st)
    else None
  }

  /** The render pass recorded into a command buffer, ended by vkEndCommandBuffer. */
  function RecordStep(st: DeviceState, cb: nat): Option<DeviceState> {
    if cb in st.recording && RenderPass in st.live && Framebuffers in st.live
    then Some(st.(recording := st.recording - {cb}, executable := st.executable + {cb}))
    else None
  }

  /** vkResetFences on fence i. */
  function ResetFenceStep(st: DeviceState, i: nat): Option<DeviceState> {
    if Fences in st.live && i < |st.fences| && !st.fences[i].Pending?
    then Some(st.(fences := st.fences[i := Unsignalled]))
    else None
  }

  /** vkQueueSubmit of command buffer cb, signalling fence i. */
  function SubmitStep(st: DeviceState, cb: nat, i: nat): Option<DeviceState> {
    if cb in st.executable && Pending(cb) !in st.fences
       && PresentSemaphores in st.live && RenderSemaphores in st.live
       && Fences in st.live && i < |st.fences| && st.fences[i] == Unsignalled
    then Some(st.(fences := st.fences[i := Pending(cb)], executable := st.executable - {cb}, idle := false))
    else None
  }

  /** vkWaitForFences on fence i. */
  function WaitFenceStep(st: DeviceState, i: nat): Option<DeviceState> {
    if Fences in st.live && i < |st.fences| && st.fences[i] != Unsignalled
    then Some(st.(fences := st.fences[i := Signalled]))
    else None
  }

  /** vkQueuePresentKHR. */
  function PresentStep(st: DeviceState): Option<DeviceState> {
    if st.current != NULL_HANDLE && RenderSemaphores in st.live then Some(st.(idle := false)) else None
  }

  /** vkResetCommandPool. */
  function ResetCommandPoolStep(st: DeviceState): Option<DeviceState> {
    if CommandPool in st.live && st.idle then Some(st.(recording := {}, executable := {})) else None
  }

  /** The effect of one call, or None when the call breaks a rule. */
  function Step(st: DeviceState, e: Event): Option<DeviceState> {
    match e
    case CreateObjects(k) => CreateStep(st, k)
    case CreateFences(n) => CreateFencesStep(st, n)
    case DestroyObjects(k) => DestroyStep(st, k)
    case CreateSwapchain(info, h) => CreateSwapchainStep(st, info, h)
    case DestroySwapchain(h) => DestroySwapchainStep(st, h)
    case WaitIdle => WaitIdleStep(st)
    case AcquireImage(_) => AcquireStep(st)
    case ResetCommandBuffer(cb) => ResetCommandBufferStep(st, cb)
    case BeginCommandBuffer(cb, ok) => BeginStep(st, cb, ok)
    case RecordFrame(cb, _) => RecordStep(st, cb)
    case ResetFence(i) => ResetFenceStep(st, i)
    case Submit(cb, _, _, i) => SubmitStep(st, cb, i)
    case WaitFence(i) => WaitFenceStep(st, i)
    case Present(_, _) => PresentStep(st)
    case ResetCommandPool => ResetCommandPoolStep(st)
  }

  /** The state after a sequence of calls, or None if one of them breaks a rule. */
  function Replay(st: DeviceState, events: seq<Event>): Option<DeviceState>
    decreases |events|, st
  {
    if events == [] then Some(st)
    else match Step(st, events[0])
      case None => None
      case Some(next) => Replay(next, events[1..])
  }

  /**
   * `events` replays from the initial state without breaking a rule and ends
   * in `st`.  Stated for every log equal to `events`, so that a proof unfolds
   * the replay only where it names one.
   */
  ghost predicate Reaches(events: seq<Event>, st: DeviceState) {
    forall e | e == events :: Replay(Initial, e) == Some(st)
  }

  /** Creating objects of kind k is allowed when none are alive and their prerequisites are. */
  lemma CreateAllowed(st: DeviceState, k: Resource)
    requires k != Fences && !Alive(st.live, k) && PrerequisitesLive(k, st.live)
    requires k == SwapchainViews ==> st.current != NULL_HANDLE
    ensures Step(st, CreateObjects(k)) == Some(st.(live := Mark(st.live, k, true)))
  {
  }

  /** Destroying the objects of kind k is allowed when the device is idle, they are alive and nothing made from them is. */
  lemma DestroyAllowed(st: DeviceState, k: Resource)
    requires st.idle && Alive(st.live, k) && DependentsDead(k, st.live)
    requires (k == Device || k == Surface) ==> st.current == NULL_HANDLE && st.retired == {}
    ensures Step(st, DestroyObjects(k)) == Some(Without(st, k))
  {
  }

  /** A log of one call replays as that call. */
  lemma ReplayOne(st: DeviceState, e: Event)
    ensures Replay(st, [e]) == Step(st, e)
  {
    assert [e][1..] == [];
  }

  /** Replaying a log extended by one call is replaying the log, then stepping the call. */
  lemma {:induction false} ReplaySnoc(st: DeviceState, events: seq<Event>, e: Event)
    requires Replay(st, events).Some?
    ensures Replay(st, events + [e]) == Step(Replay(st, events).value, e)
    decreases |events|
  {
    if events == [] {
      assert [] + [e] == [e];
    } else {
      assert (events + [e])[0] == events[0];
      assert (events + [e])[1..] == events[1..] + [e];
      var next := Step(st, events[0]).value;
      ReplaySnoc(next, events[1..], e);
    }
  }

  /** Replay composes: a log split in two replays as its first part, then its second. */
  lemma {:induction false} ReplayAppend(st: DeviceState, a: seq<Event>, b: seq<Event>)
    ensures Replay(st, a + b) == (match Replay(st, a) case None => None case Some(m) => Replay(m, b))
    decreases |a|
  {
    if a == [] {
      assert [] + b == b;
    } else {
      assert (a + b)[0] == a[0];
      assert (a + b)[1..] == a[1..] + b;
      match Step(st, a[0]) {
        case None =>
        case Some(next) => ReplayAppend(next, a[1..], b);
      }
    }
  }

  /** Two blocks replayed one after the other, from the state the first leads to. */
  lemma ReplayThen(st: DeviceState, a: seq<Event>, b: seq<Event>, mid: DeviceState, fin: DeviceState)
    requires Replay(st, a) == Some(mid) && Replay(mid, b) == Some(fin)
    ensures Replay(st, a + b) == Some(fin)
  {
    ReplayAppend(st, a, b);
  }

  /** A block then one call replayed, from the state the block leads to. */
  lemma SnocThen(st: DeviceState, events: seq<Event>, e: Event, mid: DeviceState, fin: DeviceState)
    requires Replay(st, events) == Some(mid) && Step(mid, e) == Some(fin)
    ensures Replay(st, events + [e]) == Some(fin)
  {
    ReplaySnoc(st, events, e);
  }

  /**
   * The frame's fence cycle: reset, submit, wait.  It is allowed on a
   * signalled fence whose command buffer is ready and unused, and it changes
   * nothing but that buffer leaving the ready set and the device becoming busy.
   */
  lemma FenceCycle(st: DeviceState, cb: nat, w: nat, s: nat, i: nat)
    requires Fences in st.live && PresentSemaphores in st.live && RenderSemaphores in st.live
    requires i < |st.fences| && st.fences[i] == Signalled
    requires cb in st.executable && Pending(cb) !in st.fences
    ensures Replay(st, [ResetFence(i), Submit(cb, w, s, i), WaitFence(i)])
            == Some(st.(executable := st.executable - {cb}, idle := false))
  {
    var s1 := st.(fences := st.fences[i := Unsignalled]);
    var s2 := s1.(fences := s1.fences[i := Pending(cb)], executable := s1.executable - {cb}, idle := false);
    var s3 := s2.(fences := s2.fences[i := Signalled]);
    assert Step(st, ResetFence(i)) == Some(s1);
    assert Pending(cb) !in s1.fences by {
      assert forall k | 0 <= k < |s1.fences| :: s1.fences[k] == st.fences[k] || s1.fences[k] == Unsignalled;
    }
    assert Step(s1, Submit(cb, w, s, i)) == Some(s2);
    assert Step(s2, WaitFence(i)) == Some(s3);
    assert s3.fences == st.fences;
    assert [ResetFence(i), Submit(cb, w, s, i), WaitFence(i)][1..] == [Submit(cb, w, s, i), WaitFence(i)];
    assert [Submit(cb, w, s, i), WaitFence(i)][1..] == [WaitFence(i)];
    assert [WaitFence(i)][1..] == [];
    assert Replay(s2, [WaitFence(i)]) == Some(s3);
    assert Replay(s1, [Submit(cb, w, s, i), WaitFence(i)]) == Some(s3);
  }

  /** Submitting with a fence that is still signalled breaks the rules: the reset before submit is needed. */
  lemma SubmitNeedsUnsignalledFence(st: DeviceState, cb: nat, w: nat, s: nat, i: nat)
    requires i < |st.fences| && st.fences[i] == Signalled
    ensures Step(st, Submit(cb, w, s, i)) == None
  {
  }

  /** Waiting on an unsignalled fence that no submission will signal would block forever. */
  lemma WaitNeedsSubmission(st: DeviceState, i: nat)
    requires i < |st.fences| && st.fences[i] == Unsignalled
    ensures Step(st, WaitFence(i)) == None
  {
  }

  /**
   * The old swapchain has to outlive the creation that names it as
   * oldSwapchain: destroying it first makes that creation break the rules,
   * while creating first and destroying afterwards is allowed.
   */
  lemma {:induction false} OldSwapchainOutlivesRecreation(st: DeviceState, info: SwapchainCreateInfo, h: Handle)
    requires Device in st.live && Surface in st.live && st.idle
    requires st.current != NULL_HANDLE && info.oldSwapchain == st.current
    requires h != NULL_HANDLE && h != st.current && h !in st.retired
    ensures Replay(st, [DestroySwapchain(st.current), CreateSwapchain(info, h)]) == None
    ensures var r := Replay(st, [CreateSwapchain(info, h), DestroySwapchain(st.current)]);
      r.Some? && r.value.current == h && r.value.retired == st.retired - {st.current}
  {
    var gone := st.(current := NULL_HANDLE);
    assert Step(st, DestroySwapchain(st.current)) == Some(gone);
    assert Step(gone, CreateSwapchain(info, h)) == None;
    assert [DestroySwapchain(st.current), CreateSwapchain(info, h)][1..] == [CreateSwapchain(info, h)];
    var next := st.(current := h, retired := st.retired + {st.current});
    assert Step(st, CreateSwapchain(info, h)) == Some(next);
    assert Step(next, DestroySwapchain(st.current)) == Some(next.(retired := next.retired - {st.current}));
    assert [CreateSwapchain(info, h), DestroySwapchain(st.current)][1..] == [DestroySwapchain(st.current)];
    assert [DestroySwapchain(st.current)][1..] == [];
    assert Replay(next, [DestroySwapchain(st.current)]) == Some(next.(retired := next.retired - {st.current}));
  }

  /** A device may not be destroyed while something made from it is alive. */
  lemma DeviceOutlivesItsObjects(st: DeviceState, k: Resource)
    requires Alive(st.live, k) && Device in Prerequisites(k)
    ensures Step(st, DestroyObjects(Device)) == None
  {
    DependentsDeadIsNoBlockers(Device, st.live);
    assert k in Blockers(Device, st.live);
  }
}
