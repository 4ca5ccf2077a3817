# Vulkan presentation engine of Skity-Android, in Dafny

This project models `VkRenderer`, the Vulkan presentation engine of
Skity-Android (`skity/src/cpp/vk_renderer.cc` and `vk_renderer.hpp`), and
proves properties of the model. It has two parts.

**Selection policies** are pure functions over the capability data Vulkan
reports. The queries are not modelled: their answers are plain inputs. The
modules are `Selection` and `SwapchainParams`. They cover:

- the sample count;
- the swapchain colour format;
- the depth/stencil probe;
- the memory-type scan;
- adapter and queue-family selection;
- the composite-alpha preference;
- `max(2, minImageCount)`;
- the rotation-aware extent;
- the two swapchain create-infos.

**The renderer** is the class `Renderer.VkRenderer`. Its fields are those of
the header, plus the fields the `.cc` uses. Each `create_*`, `destroy*`,
`recreate_*` and `draw` step is a method that updates those fields in place.
The create steps keep the source's loops that fill the per-image vectors; the
destroy steps do not loop (see "## Left out").

- Vulkan objects are handles drawn from a counter.
- Acquire, present and begin results arrive as a `FrameAnswers` parameter, so every recovery path is covered.
- Each method returns the API calls it makes as a ghost sequence of `DeviceProtocol.Event`s. `RendererCalls` names these sequences.
- `init`, `draw` and `destroy` append their calls to a ghost log.

`DeviceProtocol` states the Vulkan rules these calls must respect, as a state
machine `Step`/`Replay` over that log:

- an object is created after what it is made from, and destroyed before it;
- objects are destroyed only on an idle device;
- command buffers are reset or begun only when no unfinished submission uses them;
- fences go through reset, then submit, then wait;
- a new swapchain names the current one as `oldSwapchain`, which retires it.

`CallRules` proves that each block of calls is allowed in the state the
renderer is in when it makes the calls. On that basis:

- `init` leaves the device in the "ready" state: everything alive, one swapchain, every fence signalled.
- Every `draw`, on every path, returns to a ready state.
- `destroy` brings the device back to the initial state with nothing alive.

The model follows the code as it is written, including its quirks:

- the present queue is searched for with `VK_QUEUE_PROTECTED_BIT`;
- `std::distance(it, begin())` has its arguments reversed, giving minus the position;
- the null check covers only the graphics and present indices;
- a failed `vkBeginCommandBuffer` returns without advancing the cursor;
- a present result other than out-of-date or suboptimal is ignored.

Lemmas exhibit the consequences of these quirks, in particular
`GraphicsFamilyOneIsRejected`, `SingleFamilyWithoutProtectedIsRejected`,
`ComputeFamilyIsNotChecked` and `GraphicsIndexInRangeOnlyAtZero`.

Two orderings in the code are worth stating, because they are not the
obvious ones:

- **Swapchain rebuild.** The rebuild creates the new swapchain, naming the old
  one, and then destroys the old one, before the views are destroyed. Only
  afterwards, in `recreate_frame_buffer`, are the views and framebuffers
  destroyed and rebuilt.
- **Shutdown order.** Shutdown is not the reverse of creation. `destroy`
  destroys the views and framebuffers, then the render pass, the semaphores,
  the fences, the command pool, the swapchain, the device, the surface and the
  instance. So the views go before the command pool and the sync objects,
  although they were created before them.

## Model

| member | source | states |
|---|---|---|
| `Vulkan.ToU32` | skity/src/cpp/vk_renderer.cc:421-423 | storing an int32 in a uint32 keeps a non-negative value and adds 2^32 to a negative one |
| `Selection.MaxUsableSampleCount` | skity/src/cpp/vk_renderer.cc:35-48 | the result is 1 or one of the 64..2 bits; a result other than 1 is supported by both the colour and the stencil limit; no higher one of those bits is set in both limits |
| `Selection.SampleCountIsSingleBit` | skity/src/cpp/vk_renderer.cc:35-48 | the chosen sample count has exactly one bit set |
| `Selection.SampleCountIsMaximal` | skity/src/cpp/vk_renderer.cc:35-48 | every one of the 64..2 bits that both limits share is at most the chosen count |
| `Selection.FirstPreferredFormat` | skity/src/cpp/vk_renderer.cc:68-73 | the position found is the first R8G8B8A8_UNORM / SRGB_NONLINEAR entry, and no earlier entry is one; it is the end of the list when there is none |
| `Selection.ChooseSwapChainFormat` | skity/src/cpp/vk_renderer.cc:50-76 | an empty list gives UNDEFINED; a lone UNDEFINED entry gives R8G8B8A8_UNORM; otherwise R8G8B8A8_UNORM when the preferred pair is offered, else the first reported format |
| `Selection.ChosenFormatIsReportedOrDefault` | skity/src/cpp/vk_renderer.cc:50-76 | the chosen format is one the surface reported, or one of the two fixed defaults in exactly their two cases |
| `Selection.FirstDepthCandidateIsFirst` | skity/src/cpp/vk_renderer.cc:83-97 | every candidate the scan passes over lacks the depth/stencil attachment feature, and the one it stops at has it |
| `Selection.GetSupportDepthFormat` | skity/src/cpp/vk_renderer.cc:78-100 | when nothing is found, `*out_format` is left as it was |
| `Selection.GetSupportDepthFormatIsFirstSupported` | skity/src/cpp/vk_renderer.cc:78-100 | `found` holds exactly when one of D32_S8, D24_S8, D16_S8 supports depth/stencil attachment with optimal tiling; the format is then the first such candidate, and otherwise the caller's value |
| `Selection.DepthProbeIsStable` | skity/src/cpp/vk_renderer.cc:641-643 | probing again with the format found as the old value finds the same format, so the rebuild in recreate_frame_buffer keeps depth_stencil_format_ |
| `Selection.GetMemoryType` | skity/src/cpp/vk_renderer.cc:546-563 | when some memory type index is allowed by its bit of type_bits and has all the requested flags, the result is the smallest such index; when none is, the result is 0 |
| `Selection.ShiftIsShift` | skity/src/cpp/vk_renderer.cc:551-559 | shifting type_bits right one bit per memory type, as the loop does, equals shifting it by i at once, so the bit the loop tests for type i is bit i of type_bits |
| `Selection.NoMatchLooksLikeTypeZero` | skity/src/cpp/vk_renderer.cc:562 | for type_bits 1 and DEVICE_LOCAL over one memory type without that flag no index matches, so the "not found" result 0 names a type that does not qualify |
| `Selection.FindFamilyFrom` | skity/src/cpp/vk_renderer.cc:356-372 | the std::find_if search: the first family at or after the start with the flag, or the end of the list when none has it |
| `Selection.FindFamily` | skity/src/cpp/vk_renderer.cc:356-372 | the first family with the flag, every earlier one without it, or the end of the list |
| `Selection.FirstSuitableAdapter` | skity/src/cpp/vk_renderer.cc:347-387 | the first adapter with both a graphics and a compute family; no earlier adapter has both |
| `Selection.SelectAdapter` | skity/src/cpp/vk_renderer.cc:334-430 | the adapter loop with its break, the null check, the surface-support override and the sample count compute exactly the reference choice `PickPhyDevice` |
| `Selection.SelectedAdapterIsFirstSuitable` | skity/src/cpp/vk_renderer.cc:347-387 | a successful selection picks an adapter that has graphics and compute families, and no earlier adapter has both |
| `Selection.NoComputeMeansFatal` | skity/src/cpp/vk_renderer.cc:374-411 | when no adapter has a compute family, selection fails |
| `Selection.GraphicsFamilyOneIsRejected` | skity/src/cpp/vk_renderer.cc:377-411 | because the std::distance arguments are reversed, a first graphics family at position 1 reads as -1 and the adapter is rejected as having no graphics support |
| `Selection.SingleFamilyWithoutProtectedIsRejected` | skity/src/cpp/vk_renderer.cc:362-411 | because the present family is searched for with the PROTECTED bit, a first suitable adapter whose single family lacks that bit gets present index -1 and selection fails |
| `Selection.ComputeFamilyIsNotChecked` | skity/src/cpp/vk_renderer.cc:383-423 | a compute family at position 1 passes the null check and is stored as 0xFFFFFFFF |
| `Selection.GraphicsIndexInRangeOnlyAtZero` | skity/src/cpp/vk_renderer.cc:377-423 | the only stored graphics index that names a real family is 0, which is then the first graphics family; the present index is 0 too when family 0 can present |
| `SwapchainParams.ChooseCompositeAlpha` | skity/src/cpp/vk_renderer.cc:509-521 | the result is inherit exactly when none of opaque, pre- and post-multiplied is supported; otherwise it is the first supported one in that order |
| `SwapchainParams.MinImageCount` | skity/src/cpp/vk_renderer.cc:526 | at least 2 and at least the surface minimum, and equal to one of them |
| `SwapchainParams.RotatedExtent` | skity/src/cpp/vk_renderer.cc:882-891 | width and height are swapped exactly when the transform has ROTATE_90 or ROTATE_270; otherwise the extent is unchanged |
| `SwapchainParams.RotationIsInvolution` | skity/src/cpp/vk_renderer.cc:884-889 | applying the rotation twice gives the surface's extent back |
| `SwapchainParams.RecreationKeepsPolicy` | skity/src/cpp/vk_renderer.cc:894-908 | with the format and composite alpha the renderer kept, the recreated swapchain's create-info keeps the colour space, the MAILBOX present mode and at least 2 images; it takes the rotated extent and the current transform where the first uses the reported extent and identity, and names the replaced swapchain as oldSwapchain where the first names none |
| `DeviceProtocol.PrerequisitesLiveIsSubset` | skity/src/cpp/vk_renderer.cc:271-286 | the creation rule, written per kind, is exactly "every object this kind is made from is alive" |
| `DeviceProtocol.DependentsDeadIsNoBlockers` | skity/src/cpp/vk_renderer.cc:112-151 | the destruction rule, written per kind, is exactly "no live object is made from it" (a pool's command buffers go with the pool) |
| `DeviceProtocol.AllSignalled` | skity/src/cpp/vk_renderer.cc:717-725 | n fences created with the signalled flag are all signalled |
| `DeviceProtocol.Completed` | skity/src/cpp/vk_renderer.cc:167 | after a device wait-idle every pending fence is signalled and the others keep their state |
| `DeviceProtocol.CreateAllowed` | skity/src/cpp/vk_renderer.cc:271-286 | creating a kind whose prerequisites are alive and which is not yet alive is allowed and makes just that kind alive |
| `DeviceProtocol.DestroyAllowed` | skity/src/cpp/vk_renderer.cc:112-151 | destroying a live kind with nothing made from it alive, on an idle device, is allowed and removes just that kind |
| `DeviceProtocol.FenceCycle` | skity/src/cpp/vk_renderer.cc:233-238 | reset, submit and wait on a signalled fence are allowed, leave the fence signalled again, and change nothing else but the submitted buffer and the device's busy flag |
| `DeviceProtocol.SubmitNeedsUnsignalledFence` | skity/src/cpp/vk_renderer.cc:233-235 | submitting with a fence that is still signalled breaks the rules, so the reset before submit is needed |
| `DeviceProtocol.WaitNeedsSubmission` | skity/src/cpp/vk_renderer.cc:237-238 | waiting on an unsignalled fence that no submission will signal breaks the rules |
| `DeviceProtocol.OldSwapchainOutlivesRecreation` | skity/src/cpp/vk_renderer.cc:906-915 | destroying the old swapchain before the creation that names it breaks the rules; creating first and destroying afterwards is allowed and leaves the new swapchain current |
| `DeviceProtocol.DeviceOutlivesItsObjects` | skity/src/cpp/vk_renderer.cc:141-145 | the device cannot be destroyed while an object made from it is alive |
| `RendererCalls.Resized` | skity/src/cpp/vk_renderer.cc:573 | std::vector::resize keeps the first elements and fills the new ones with the empty value |
| `RendererCalls.CursorAfter` | skity/src/cpp/vk_renderer.cc:172-264 | after a frame that did not abort, both cursors are below the image count; after a present the semaphore slot is the frame's slot plus 1 mod n, which is (slot + 1) mod n when the acquire did not rebuild; a failed begin leaves the frame's slot; a present rebuild puts both cursors at 0; otherwise the image cursor is the acquired image |
| `CallRules.CompletedKeepsSignalled` | skity/src/cpp/vk_renderer.cc:113 | waiting idle when every fence is signalled leaves them all signalled |
| `CallRules.NothingPendingWhenSignalled` | skity/src/cpp/vk_renderer.cc:717-725 | when every fence is signalled, no submission is pending on any command buffer |
| `CallRules.OpenDeviceAllowed` | skity/src/cpp/vk_renderer.cc:275-278 | instance, surface and (when an adapter was chosen) device creation are allowed on a fresh device |
| `CallRules.CreateViewsAllowed` | skity/src/cpp/vk_renderer.cc:565-693 | the sampler images, swapchain views and stencil images can be created once a device and a swapchain exist |
| `CallRules.OpenSwapchainAllowed` | skity/src/cpp/vk_renderer.cc:279-280 | the first swapchain with no old swapchain, then its views, can be created after the device |
| `CallRules.CommandsAllowed` | skity/src/cpp/vk_renderer.cc:281-282 | the command pool, then its buffers, can be created on a device |
| `CallRules.SyncAllowed` | skity/src/cpp/vk_renderer.cc:717-740 | the fences, created signalled, and both semaphore vectors can be created on a device |
| `CallRules.PassAllowed` | skity/src/cpp/vk_renderer.cc:284-285 | the render pass, then the framebuffers, can be created once the views exist |
| `CallRules.OpenFramesAllowed` | skity/src/cpp/vk_renderer.cc:281-285 | after the views, the per-frame objects can be created and the device is then ready with n signalled fences |
| `CallRules.InitAllowed` | skity/src/cpp/vk_renderer.cc:271-286 | init_vk's calls obey the rules whichever check ends it, and a completed init leaves the device ready, idle, with one signalled fence per image |
| `CallRules.WaitIdleAllowed` | skity/src/cpp/vk_renderer.cc:167 | a wait-idle from a ready state leaves it ready and idle |
| `CallRules.RecreateSwapchainAllowed` | skity/src/cpp/vk_renderer.cc:875-916 | on an idle device, creating the new swapchain naming the old one and then destroying the old one is allowed, and leaves only the new one |
| `CallRules.DestroyViewsAllowed` | skity/src/cpp/vk_renderer.cc:849-873 | the framebuffers, stencil images, sampler images and swapchain views can be destroyed in this order on an idle device |
| `CallRules.RebuildViewsAllowed` | skity/src/cpp/vk_renderer.cc:918-922 | destroying and recreating the views and framebuffers is allowed and returns to the same state |
| `CallRules.RecoveryAllowed` | skity/src/cpp/vk_renderer.cc:163-173 | wait-idle, swapchain recreation and the view rebuild from a ready state are allowed and end ready, on the new swapchain |
| `CallRules.BeginAllowed` | skity/src/cpp/vk_renderer.cc:184-194 | resetting and beginning the acquired image's command buffer is allowed in a ready state |
| `CallRules.SubmitAllowed` | skity/src/cpp/vk_renderer.cc:217-247 | recording, the fence cycle with the image's fence and present are allowed and end in a ready (busy) state |
| `CallRules.RecordAndPresentAllowed` | skity/src/cpp/vk_renderer.cc:184-264 | the calls after a successful acquire are allowed on every path (failed begin, plain present, present rebuild) and end ready |
| `CallRules.AcquireAllowed` | skity/src/cpp/vk_renderer.cc:157-182 | the acquire, with the rebuild and the retry after a stale result, is allowed and ends ready on the current swapchain |
| `CallRules.FrameAllowed` | skity/src/cpp/vk_renderer.cc:156-265 | every path of one draw is allowed from a ready state and ends in a ready state on the last swapchain created |
| `CallRules.FrameExtendsLog` | skity/src/cpp/vk_renderer.cc:156-265 | a log that reached a ready state still obeys the rules after one more draw, and reaches a ready state again |
| `CallRules.TeardownPassAllowed` | skity/src/cpp/vk_renderer.cc:119-130 | once the framebuffers are gone, the render pass and both semaphore vectors can be destroyed |
| `CallRules.TeardownPoolAllowed` | skity/src/cpp/vk_renderer.cc:132-139 | the fences, then the command pool (reset first), can be destroyed on an idle device |
| `CallRules.TeardownDeviceAllowed` | skity/src/cpp/vk_renderer.cc:141-151 | the swapchain, device, surface and instance can be destroyed in this order and leave nothing alive |
| `CallRules.TeardownAllowed` | skity/src/cpp/vk_renderer.cc:112-151 | destroy's calls from any ready state are allowed and end in the initial state |
| `CallRules.TeardownExtendsLog` | skity/src/cpp/vk_renderer.cc:112-151 | a log that reached a ready state, followed by destroy's calls, obeys the rules and ends with nothing alive |
| `Renderer.VkRenderer.constructor` | skity/src/cpp/vk_renderer.hpp:66-93 | the queue indices start at uint32(-1), the sample count at 1, the depth format undefined, both cursors at 0, an empty log |
| `Renderer.VkRenderer.CreateVkInstance` | skity/src/cpp/vk_renderer.cc:288-332 | a non-null instance handle, one instance creation call |
| `Renderer.VkRenderer.CreateVkSurface` | skity/src/cpp/vk_renderer.cc:494-500 | a non-null surface handle, one surface creation call |
| `Renderer.VkRenderer.PickPhyDevice` | skity/src/cpp/vk_renderer.cc:334-430 | the result is the reference choice; on success the adapter, the three queue indices and the sample count are stored as chosen; on failure the sample count is untouched |
| `Renderer.VkRenderer.CreateDevice` | skity/src/cpp/vk_renderer.cc:432-492 | a non-null device handle, one device creation call |
| `Renderer.VkRenderer.CreateSwapChain` | skity/src/cpp/vk_renderer.cc:502-544 | a new swapchain with the chosen format, the surface's extent and transform and the preferred composite alpha, created with the initial create-info |
| `Renderer.VkRenderer.CreateSamplerImages` | skity/src/cpp/vk_renderer.cc:573-623 | sampler_image_ is resized to the image count and every entry has the swapchain format |
| `Renderer.VkRenderer.CreateSwapchainImageViews` | skity/src/cpp/vk_renderer.cc:626-640 | one swapchain image view per image, each a fresh non-null handle |
| `Renderer.VkRenderer.CreateStencilImages` | skity/src/cpp/vk_renderer.cc:656-692 | stencil_image_ is resized to the image count and every entry has the depth/stencil format |
| `Renderer.VkRenderer.CreateSwapChainViews` | skity/src/cpp/vk_renderer.cc:565-693 | the sampler images and views are created for every image; the probe's verdict decides success and sets the depth format; stencil images exist only on success; the stencil vector is untouched when the probe fails |
| `Renderer.VkRenderer.CreateCommandPool` | skity/src/cpp/vk_renderer.cc:695-702 | a non-null command pool handle, one pool creation call |
| `Renderer.VkRenderer.CreateCommandBuffers` | skity/src/cpp/vk_renderer.cc:704-715 | one command buffer per swapchain image view, allocated in one call, each a fresh non-null handle |
| `Renderer.VkRenderer.CreateFrameFences` | skity/src/cpp/vk_renderer.cc:717-725 | one fence per command buffer, created signalled, each a fresh non-null handle |
| `Renderer.VkRenderer.CreatePresentSemaphores` | skity/src/cpp/vk_renderer.cc:727-735 | one acquire semaphore per command buffer, each a fresh non-null handle |
| `Renderer.VkRenderer.CreateRenderSemaphores` | skity/src/cpp/vk_renderer.cc:736-739 | one render semaphore per command buffer, each a fresh non-null handle |
| `Renderer.VkRenderer.CreateSyncObjects` | skity/src/cpp/vk_renderer.cc:717-740 | fences and both semaphore vectors sized like the command buffers, fences first |
| `Renderer.VkRenderer.CreateRenderPass` | skity/src/cpp/vk_renderer.cc:742-824 | three attachments: colour (swapchain format, MSAA samples), depth/stencil (the first stencil image's format, MSAA samples), resolve (swapchain format, one sample) |
| `Renderer.VkRenderer.CreateFrameBuffer` | skity/src/cpp/vk_renderer.cc:826-847 | one framebuffer per swapchain view, each bound to [sampler view i, stencil view i, swapchain view i], the render pass and the current extent |
| `Renderer.VkRenderer.OpenDevice` | skity/src/cpp/vk_renderer.cc:275-278 | instance, surface and adapter choice, and the device only when an adapter was chosen |
| `Renderer.VkRenderer.OpenSwapchain` | skity/src/cpp/vk_renderer.cc:279-280 | the swapchain and its views; success iff the depth probe finds a format, which is then settled; on success all three vectors have the image count and the right formats |
| `Renderer.VkRenderer.OpenFrames` | skity/src/cpp/vk_renderer.cc:281-285 | pool, buffers, sync objects, render pass and framebuffers leave n of every per-image object, bound and in their formats |
| `Renderer.VkRenderer.OpenAll` | skity/src/cpp/vk_renderer.cc:271-286 | the outcome is the one the platform determines; the calls are init_vk's for that outcome; a completed init leaves every per-image object ready |
| `Renderer.VkRenderer.InitVk` | skity/src/cpp/vk_renderer.cc:271-286 | init_vk's calls obey the API rules on every outcome; a completed init leaves the renderer valid, the device idle and one command buffer per image |
| `Renderer.VkRenderer.Init` | skity/src/cpp/vk_renderer.cc:102-110 | the window size and density are stored, then init_vk; a completed init leaves the renderer valid with both cursors at 0 |
| `Renderer.VkRenderer.DestroySwapChainViews` | skity/src/cpp/vk_renderer.cc:849-873 | all four vectors are cleared; framebuffers, stencil images, sampler images, swapchain views are destroyed in this order |
| `Renderer.VkRenderer.RecreateSwapChain` | skity/src/cpp/vk_renderer.cc:875-916 | a new swapchain with the rotated extent and the current transform, created naming the old one, which is destroyed only afterwards and only when it exists; surface, format, composite alpha and present queue are kept |
| `Renderer.VkRenderer.RecreateFrameBuffer` | skity/src/cpp/vk_renderer.cc:918-922 | the views and framebuffers are destroyed and rebuilt for the image count, with the depth format unchanged |
| `Renderer.VkRenderer.RecoverSwapchain` | skity/src/cpp/vk_renderer.cc:163-173 | wait idle, recreate the swapchain and the framebuffers, both cursors back to 0; the renderer stays prepared on the new swapchain, with the swapchain format and composite alpha kept |
| `Renderer.VkRenderer.RecordAndPresent` | skity/src/cpp/vk_renderer.cc:184-264 | a failed begin returns with both cursors unchanged; a stale present rebuilds and zeroes both; otherwise the semaphore slot advances modulo the image count |
| `Renderer.VkRenderer.AcquireFrame` | skity/src/cpp/vk_renderer.cc:157-182 | the frame goes on exactly when the acquire (or its one retry after a rebuild) succeeds; current_frame_ is then the acquired image and the slot 0 after a rebuild |
| `Renderer.VkRenderer.DrawFrame` | skity/src/cpp/vk_renderer.cc:156-265 | the outcome and the calls are those the driver's answers determine; the renderer stays prepared; the cursors follow CursorAfter; the current swapchain is the last one created |
| `Renderer.VkRenderer.Draw` | skity/src/cpp/vk_renderer.cc:156-265 | the outcome is the one the answers determine; the log grows by exactly the frame's calls, still obeys the API rules and leaves the device ready on the current swapchain; the cursors follow CursorAfter |
| `Renderer.VkRenderer.DestroyFrameObjects` | skity/src/cpp/vk_renderer.cc:119-139 | render pass, semaphores, fences and command pool are destroyed and their fields cleared |
| `Renderer.VkRenderer.DestroyDeviceObjects` | skity/src/cpp/vk_renderer.cc:141-151 | swapchain, device, surface and instance are destroyed in this order and nulled |
| `Renderer.VkRenderer.Destroy` | skity/src/cpp/vk_renderer.cc:112-154 | destroy's calls obey the API rules and end with nothing alive; the render pass, pool, swapchain, device, surface and instance handles are nulled, the framebuffer, image, view, semaphore and fence vectors are cleared, and the command buffer vector is left as it was |

## Left out

- Instance creation's details are not modelled: the validation-layer check, the extension lists, `volkInitialize` and `volkLoad*` (vk_renderer.cc:272-273, 288-332). They are foreign loader calls. Only the creation of a handle is kept.
- Extension enumeration and logging (394-405, 457-476) are not modelled. They are foreign calls with no effect on the state.
- Memory allocation and binding for the sampler and stencil images are not modelled, and neither are the create-info contents of images and views. The same goes for the full render-pass and subpass-dependency structures; only the attachment formats and sample counts are kept. `get_memory_type` is modelled on its own, but the image creation does not call it.
- The canvas is not modelled: `onDraw`, `flush`, `set_default_typeface` and the clear colours are Skity library calls and float values that pass through unchanged.
- The accessors `GetInstance` … `GetSurfaceTransform` (924-986) are not modelled. Each returns a field.
- The `ANativeWindow` is not modelled: surface creation yields a handle.
- Width, height and density are stored as unbounded integers. The source only stores them.
- GPU asynchrony is not modelled. The device is a sequential oracle that answers through `FrameAnswers`.
- Semaphore signal states are not tracked; semaphores appear only as indices in the events. So the model does not see two paths that break Vulkan's rule that an acquire must signal an unsignalled semaphore. On a failed `vkBeginCommandBuffer` (190-194), `present_semaphore_[frame_index_]`, which the acquire signalled (157-160), is never waited on, and the next draw acquires with the same slot. On a stale acquire (162-178), the first acquire's semaphore stays signalled when the rebuild resets the slot to 0 and acquires again. The claims that every draw is allowed and returns to a ready state say nothing about semaphore states.
- Liveness is tracked per kind of object, not per handle: each vector of per-image objects counts as one.
- The per-element destroy loops are not modelled as loops. That covers the loops of `destroy_swap_chain_views` (850-872) and the semaphore and fence loops of `destroy` (122-135). Because liveness is per kind, each loop becomes one `DestroyObjects(kind)` event followed by clearing the vector. The model therefore does not capture the order in which the elements of one vector are destroyed.
- Failed `CALL_VK` creation calls are not modelled; creation always succeeds. In `draw`, `vkEndCommandBuffer` (219), `vkQueueSubmit` (235) and `vkWaitForFences` (237) are also wrapped in `CALL_VK` and are assumed to succeed: `FrameAnswers` has no answer for them, so their aborting path is not modelled. The `assert`s in `pick_phy_device`, `create_swap_chain_views` and `draw` are treated as aborting, as in a debug build (`InitOutcome`, `FrameOutcome.FrameAborted`). Build variants that compile the asserts out, where execution would continue with invalid indices, are not modelled.
- `vk_phy_device_` is modelled as the position of the chosen adapter.
- `vkGetPhysicalDeviceSurfaceSupportKHR` can be called with an out-of-range family index, which the reversed `std::distance` produces. The model reads that call as "unsupported".
- The header shipped with the source declares neither `frame_index_`, `current_frame_`, `swap_chain_frame_buffers_` and `vk_render_pass_`, nor `surface_composite_`, `vk_surface_transform_` and `pretransform_flag_`. The `.cc` uses them, and the model declares them as fields. The constructor starting `frame_index_` and `current_frame_` at 0 is therefore an assumption, not a header default.
- The old swapchain is destroyed while views of its images are still alive, until `recreate_frame_buffer` runs. The model tracks views per kind, so it does not distinguish the old swapchain's views from the new one's.
- Renderer.VkRenderer.InitVk: requires that the swapchain has at least `max(2, minImageCount)` images, which a conforming driver guarantees, and that the renderer is freshly constructed. Calling init twice is not modelled.
- Renderer.VkRenderer.Init: the same requirements as InitVk.
- Renderer.VkRenderer.Draw: requires `AnswersFit`. Acquired image indices must be below the image count, as a driver guarantees, and a rebuilt swapchain must have as many images as before. `recreate_frame_buffer` never resizes the command buffers, the fences or the semaphores. With more images the source indexes past them. With fewer, acquired indices and the slot (which wraps modulo the new view count, 263-264) stay within them, so the source is sound, but the model's invariant ties the number of views to the number of command buffers and does not cover that case. It also requires a completed init (`Valid()`).
- Renderer.VkRenderer.DrawFrame: the same `AnswersFit` requirement as Draw, which excludes a rebuild with fewer images although the source handles it.
- Renderer.VkRenderer.AcquireFrame: the same `AnswersFit` requirement as Draw, which excludes a rebuild with fewer images although the source handles it.
- Renderer.VkRenderer.RecordAndPresent: requires that a present rebuild keeps the image count, for the same reason as Draw: a larger count is unsound in the source, and a smaller one is sound but not covered.
- Renderer.VkRenderer.RecoverSwapchain: requires that the rebuilt swapchain has as many images as there are command buffers, for the same reason as Draw: a larger count is unsound in the source, and a smaller one is sound but not covered.
- Renderer.VkRenderer.RecreateFrameBuffer: requires that the new image count equals the sizes of the command buffer, fence and semaphore vectors, for the same reason as Draw: a larger count is unsound in the source, and a smaller one is sound but not covered.
- Renderer.VkRenderer.Destroy: requires a completed init. Destroy after a failed init, or destroy called twice, is not modelled.
