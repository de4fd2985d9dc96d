# fxng / glal in Dafny

fxng is a small game engine built on glal, a graphics abstraction layer
with an OpenGL backend and a partial Vulkan backend. The engine also carries
its own copy of the OpenGL backend. Under the native GL and Vulkan calls sits
a layer of plain bookkeeping, and this project models that layer and proves
what it promises:

- **Ownership registries.** A device, physical device or instance keeps one
  ordered list per object kind: `Registry`, the three `*Device` modules and
  the three `*PhysicalDevice` modules.
  - Create appends to the list.
  - Destroy erases the first match.
  - The destructors either demand empty lists ("strict") or delete
    everything that is left ("permissive").
- **Frame ring.** `FrameRing` and the two swapchains hold a modular image
  index with a fence slot per image. The two OpenGL copies differ: glal
  advances and then returns the new index; the engine returns the old index
  and then advances.
- **Fence/queue protocol.** `*Fence` holds an optional sync object, and
  `*Queue.Submit` resets the fence it is given.
- **Binding model.**
  - Descriptor-set layouts are ordered binding lists with a find-first
    lookup.
  - Pipeline layouts are ordered lists of descriptor-set layouts.
  - Descriptor sets come in three versions: the engine's maps of
    whole-or-range entries, glal OpenGL's maps of range entries, and
    Vulkan's append-only write list.
  - The native slot of a binding is `set * 8 + binding` (`BindingSlots`).
- **Pipelines and command recording.**
  - The engine's vertex stride is a sum over the attributes.
  - The glal pipeline finds a vertex binding by its number.
  - The OpenGL command buffer keeps the bound pipeline and the index type.
    Its guards abort on misuse. It builds the render-pass attachment list
    and computes the `DrawIndexed` byte offset.
- **Translation tables.** These map glal enumerations to GL and Vulkan
  enumerants, each with a round trip or a meaning lemma: the `*Common`,
  `*Image`, `*Sampler` and `*ShaderModule` modules.
- **Scene and entities.** `Scenes` and `Entities` cover:
  - the scene's entity list, looked up by id;
  - the typed n-th-of-class lookup `Get<C>(index)`;
  - hooks that reach every component in order.

Conventions of the model:

- **Fatal and Assert.** The library's `Fatal` and failed `Assert` terminate
  the process. Here an operation that can abort returns
  `Log.Outcome<T>`, either `Ok(value)` or `Fatal(message)`. The message is
  the library's format string, without the values substituted into it
  (for example "buffer is not owned by device" for "buffer {} is not owned
  by device {}"). An aborting operation leaves the model's state
  as it was, except where the source changes state before it aborts
  (`VulkanPhysicalDevice.PhysicalDevice.DestroyDevice` erases the device's
  entry before the device's destructor runs). An object's constructor
  that can abort is a method returning an `Outcome`. The device's
  generic `Create` takes that outcome as a parameter; the compositions
  `CreateBuffer`, `CreateShaderModule` and the like call the constructor
  themselves.
- **Out-of-range `.at()`.** An out-of-range `std::vector::at` throws, and
  nothing catches it. It is modelled as `Fatal("out of range")`.
- **Native handles.** A native handle, or an object the library allocates,
  is a fresh `Registry.Handle` (or a fresh class instance). Its identity is
  object identity.
- **Native calls.** Calls whose effect matters are logged as values in the
  order they are issued: the command buffer's `issued` list, uploads,
  sampler parameters and descriptor writes.
- **Enumerations.** C++ enumerations are datatypes of their declared
  enumerators. Bit-mask enumerations (shader stages, queue types, engine
  device features) are `bv32`. Integer widths are written out where they
  matter: `G.U32` and the 32-bit wrap of `first_set + i` and
  `first_index * size`.

## Model

| member | source | states |
|---|---|---|
| Log.Assert | engine/include/fxng/log.hxx:53-60 | `Assert` returns normally exactly when the condition holds, and otherwise aborts with the given message |
| Log.Then | engine/include/fxng/log.hxx:46-51 | after an aborting step nothing further runs: the abort's message is the outcome; after a normal step the next step's outcome is the result |
| LogLevels.Rank | engine/include/fxng/log.hxx:12-20 | each of the six log levels has a rank no higher than Fatal's, 5 |
| LogLevels.RankFollowsDeclaration | engine/include/fxng/log.hxx:12-20 | the ranks strictly increase in declaration order, Verbose lowest and Fatal highest |
| LogLevels.RankInjective | engine/include/fxng/log.hxx:12-20 | distinct levels have distinct ranks |
| GlalTypes.FirstWithBinding | glal/src/vulkan/descriptor_set_layout.cxx:68-75 | position of the first binding with that number; at the end exactly when no binding has it, and no earlier binding has it |
| Registry.Find | glal/src/opengl/device.cxx:44-45 | the position a destroy stops at: the first entry that is the object, or the end when the list has none |
| Registry.ScanFirst | glal/src/opengl/device.cxx:44-50 | the destroy loop walks from the front and stops at the first entry that is the object, the position `Find` names |
| Registry.RemoveFirstOwned | glal/src/vulkan/device.cxx:79-85 | erasing an owned object shrinks the list by one, keeps the entries before and after in order, and removes exactly one occurrence |
| Registry.RemoveFirstUnowned | glal/src/opengl/device.cxx:42-51 | erasing an object the list does not hold changes nothing |
| Registry.RemoveFirstAt | glal/src/opengl/device.cxx:44-48 | entry k of the erased list is entry k before the erased position and entry k+1 after it |
| Registry.RemoveFirstDistinct | glal/src/opengl/device.cxx:42-51 | in a list without repeats, the erased list has no repeats, no longer holds the object, and holds every other object exactly when it did before |
| Registry.FlattenHolds | glal/src/opengl/device.cxx:9-35 | the objects the destructor visits are exactly those held by one of the lists it walks |
| Registry.FlattenLength | glal/src/opengl/device.cxx:9-35 | the destructor visits as many objects as the lists hold in total |
| Registry.FlattenSnoc | glal/src/opengl/device.cxx:9-35 | walking one more list appends that list's objects after those already visited |
| Registry.VisitAll | glal/src/opengl/device.cxx:11-32 | the destructor's nested loops visit the lists in order and each list front to back |
| FrameRing.Advance | glal/src/opengl/swapchain.cxx:55 | the next slot stays in the ring: one more, or back to 0 after the last slot |
| FrameRing.Iterate | glal/src/opengl/swapchain.cxx:53-62 | the slot after n acquisitions stays inside the ring |
| FrameRing.IterateWithinTurn | glal/src/opengl/swapchain.cxx:55 | fewer than `count` advances move that many slots on, wrapping once past the end |
| FrameRing.ConsecutiveAdvancesCoverRing | glal/src/opengl/swapchain.cxx:55 | every slot of the ring is reached within `count` consecutive acquisitions |
| FrameRing.FullTurn | glal/src/opengl/swapchain.cxx:55 | `count` acquisitions come back to the starting slot |
| OpenGLDevice.EveryKindTornDown | glal/src/opengl/device.cxx:9-35 | the destructor walks the list of every one of the eleven object kinds |
| OpenGLDevice.Device.constructor | glal/src/opengl/device.cxx:3-7 | a new device owns no objects and makes its one queue |
| OpenGLDevice.Device.Create | glal/src/opengl/device.cxx:37-40 | `CreateBuffer` ... `CreateFence`: when the object's constructor returns normally, the new object is appended to its kind's list and returned, every other list unchanged; when it aborts, the abort is the outcome and no list changes |
| OpenGLDevice.Device.CreateShaderModule | glal/src/opengl/device.cxx:85-88 | succeeds exactly for the six OpenGL stages, appending the new module; otherwise aborts with "shader stage not supported" and appends nothing |
| OpenGLDevice.Device.CreatePipeline | glal/src/opengl/device.cxx:118-121 | succeeds exactly when the program links and validates, appending the new pipeline; otherwise aborts with the link or validation message and appends nothing |
| OpenGLDevice.Device.Destroy | glal/src/opengl/device.cxx:42-51 | `DestroyBuffer` ... `DestroyFence`: the first entry that is the object is erased, afterwards the list no longer holds it, and an object the device does not own changes nothing |
| OpenGLDevice.Device.Teardown | glal/src/opengl/device.cxx:9-35 | the destructor deletes the objects list by list in its order, then the queue; every listed object and nothing else |
| OpenGLDevice.Device.GetQueue | glal/src/opengl/device.cxx:217-220 | the same single queue whatever queue type is asked for |
| OpenGLDevice.Device.Supports | glal/src/opengl/device.cxx:222-225 | defers to the physical device: geometry shaders, tessellation and compute only |
| OpenGLDevice.Device.GetLimits | glal/src/opengl/device.cxx:227-230 | the physical device's limits |
| EngineGLDevice.EveryKindTornDown | engine/src/internal/glal_opengl/device.cxx:9-29 | the destructor walks the list of every one of the eight object kinds |
| EngineGLDevice.Device.constructor | engine/src/internal/glal_opengl/device.cxx:3-7 | a new device owns no objects and makes its one queue |
| EngineGLDevice.Device.Create | engine/src/internal/glal_opengl/device.cxx:31-85 | when the object's constructor returns normally, the new object is appended to its kind's list and that same object is returned; when it aborts, the abort is the outcome and no list changes |
| EngineGLDevice.Device.CreateShaderModule | engine/src/internal/glal_opengl/device.cxx:52-57 | succeeds exactly for the six OpenGL stages, appending the new module; otherwise aborts with "shader stage not supported" and appends nothing |
| EngineGLDevice.Device.CreatePipeline | engine/src/internal/glal_opengl/device.cxx:59-64 | succeeds exactly when every attribute is typed and the program links and validates, appending the new pipeline; otherwise aborts with the first failing check's message and appends nothing |
| EngineGLDevice.Device.Teardown | engine/src/internal/glal_opengl/device.cxx:9-29 | the destructor deletes every listed object, list by list, then the queue |
| EngineGLDevice.Device.GetQueue | engine/src/internal/glal_opengl/device.cxx:87-90 | the same single queue whatever queue type is asked for |
| EngineGLDevice.Device.Supports | engine/src/internal/glal_opengl/device.cxx:92-95 | defers to the physical device: the geometry shader, tessellation and compute feature bits only |
| EngineGLDevice.Device.GetLimits | engine/src/internal/glal_opengl/device.cxx:97-100 | the physical device's limits |
| VulkanDevice.Device.constructor | glal/src/vulkan/device.cxx:9-50 | a new device owns no objects of any of the fourteen kinds |
| VulkanDevice.Device.Create | glal/src/vulkan/device.cxx:72-75 | `CreateBuffer` ... `CreateFence`: when the object's constructor returns normally, the new object is appended to its kind's list and returned; when it aborts, the abort is the outcome and no list changes |
| VulkanDevice.Device.CreateBuffer | glal/src/vulkan/device.cxx:72-75 | succeeds exactly when some memory type suits the buffer, appending the new buffer; otherwise aborts with "unsupported memory requirements" and appends nothing |
| VulkanDevice.Device.CreateDescriptorSetLayout | glal/src/vulkan/device.cxx:212-215 | succeeds exactly when every declared descriptor type translates, appending the new layout; otherwise aborts with "descriptor type not supported" and appends nothing |
| VulkanDevice.Device.Destroy | glal/src/vulkan/device.cxx:77-90 | succeeds exactly when the device owns the object; then one entry is erased and the list no longer holds it; otherwise it aborts with the "not owned" message and changes nothing; other kinds' lists are untouched |
| VulkanDevice.Device.Teardown | glal/src/vulkan/device.cxx:52-65 | the destructor returns normally exactly when the eleven checked lists are empty, and otherwise aborts with the leak message of the first checked kind, in the destructor's order, whose list is not empty |
| VulkanDevice.Device.CheckEmpty | glal/src/vulkan/device.cxx:54-64 | the chain of `Assert`s passes exactly when every checked list is empty; an abort carries the message of the first kind in the chain whose list is not empty |
| VulkanDevice.Device.FirstLeakShift | glal/src/vulkan/device.cxx:54-64 | when the first kind's list is empty, the first leak among the remaining kinds is the first leak of the whole chain |
| VulkanDevice.Device.UncheckedKinds | glal/src/vulkan/device.cxx:52-65 | image views, render passes and framebuffers are never checked: leaking them does not abort |
| VulkanDevice.Device.GetQueue | glal/src/vulkan/device.cxx:352-356 | no queue is returned, whatever the type |
| VulkanDevice.Device.Supports | glal/src/vulkan/device.cxx:358-361 | defers to the physical device, which reports every feature as supported |
| VulkanDevice.Device.GetLimits | glal/src/vulkan/device.cxx:363-366 | the physical device's static, zero-initialised limits |
| OpenGLPhysicalDevice.PhysicalDevice.constructor | glal/src/opengl/physical_device.cxx:4-14 | no devices; limits are the reported texture size, 16 uniform buffers and 2^30 bytes |
| OpenGLPhysicalDevice.PhysicalDevice.CreateDevice | glal/src/opengl/physical_device.cxx:21-24 | a new device appended to the list and returned |
| OpenGLPhysicalDevice.PhysicalDevice.DestroyDevice | glal/src/opengl/physical_device.cxx:26-39 | succeeds exactly for an owned device, which is then erased and no longer held; otherwise aborts with the "not owned" message and changes nothing |
| OpenGLPhysicalDevice.PhysicalDevice.Teardown | glal/src/opengl/physical_device.cxx:16-19 | the destructor aborts exactly when some device was not destroyed |
| OpenGLPhysicalDevice.PhysicalDevice.Supports | glal/src/opengl/physical_device.cxx:41-46 | true exactly for geometry shaders, tessellation and compute |
| EngineGLPhysicalDevice.PhysicalDevice.constructor | engine/src/internal/glal_opengl/physical_device.cxx:5-15 | no devices; limits are the reported texture size, 16 uniform buffers and 2^30 bytes |
| EngineGLPhysicalDevice.PhysicalDevice.Teardown | engine/src/internal/glal_opengl/physical_device.cxx:17-22 | the destructor deletes every remaining device, in order, and empties the list |
| EngineGLPhysicalDevice.PhysicalDevice.CreateDevice | engine/src/internal/glal_opengl/physical_device.cxx:24-27 | a new device appended to the list and returned |
| EngineGLPhysicalDevice.PhysicalDevice.DestroyDevice | engine/src/internal/glal_opengl/physical_device.cxx:29-38 | the first entry that is the device is erased; an unowned device changes nothing |
| EngineGLPhysicalDevice.PhysicalDevice.Supports | engine/src/internal/glal_opengl/physical_device.cxx:40-45 | true exactly for the geometry shader, tessellation and compute feature values |
| EngineGLPhysicalDevice.CombinedFeaturesUnsupported | engine/src/internal/glal_opengl/physical_device.cxx:40-45 | a mask of several feature bits compares unequal to each single feature, so it is reported unsupported |
| VulkanPhysicalDevice.PhysicalDevice.constructor | glal/src/vulkan/physical_device.cxx:3-7 | no devices; remembers its instance |
| VulkanPhysicalDevice.PhysicalDevice.CreateDevice | glal/src/vulkan/physical_device.cxx:9-12 | a new device appended to the list and returned |
| VulkanPhysicalDevice.PhysicalDevice.DestroyDevice | glal/src/vulkan/physical_device.cxx:14-23 | the first entry that is the device is erased; an unowned device changes nothing; it aborts exactly when the device was owned and its destructor aborts, with the destructor's message, after the entry is erased |
| VulkanPhysicalDevice.PhysicalDevice.Supports | glal/src/vulkan/physical_device.cxx:30-34 | every feature is reported supported |
| VulkanPhysicalDevice.PhysicalDevice.GetLimits | glal/src/vulkan/physical_device.cxx:36-41 | the same zero-initialised static limits on every call |
| OpenGLInstance.SeverityOrder | glal/src/opengl/instance.cxx:13-31 | notification < low < medium < high keep their order as log levels, no driver message aborts, and every other severity logs at Debug |
| OpenGLInstance.SourceNames | glal/src/opengl/instance.cxx:33-57 | a source is named "unknown" exactly when it is none of the six known sources, and known sources have distinct names |
| OpenGLInstance.TypeNames | glal/src/opengl/instance.cxx:59-92 | a message type is named "unknown" exactly when it is none of the nine known types, and known types have distinct names |
| OpenGLInstance.DebugCallback | glal/src/opengl/instance.cxx:4-95 | the record carries the severity's level, the source and type names, and the message's id and text unchanged |
| OpenGLInstance.Instance.constructor | glal/src/opengl/instance.cxx:97-109 | the debug callback is installed exactly when validation is enabled; exactly one new physical device, owned by this instance, with no devices |
| OpenGLInstance.Instance.EnumeratePhysicalDevices | glal/src/opengl/instance.cxx:111-116 | returns the number of physical devices; the array is written exactly when an output is passed |
| EngineGLInstance.TablesAgreeWithGlal | engine/src/internal/glal_opengl/instance.cxx:4-95 | the engine's severity, source and type tables agree with the glal copy on every input, so the "unknown" defaults hold here too |
| EngineGLInstance.Instance.constructor | engine/src/internal/glal_opengl/instance.cxx:97-110 | the debug callback is installed exactly when validation is enabled; one new physical device and a count of 1 |
| EngineGLInstance.Instance.Dispose | engine/src/internal/glal_opengl/instance.cxx:112-118 | the destructor deletes the physical-device array and leaves a null array and a count of 0 |
| EngineGLInstance.Instance.EnumeratePhysicalDevices | engine/src/internal/glal_opengl/instance.cxx:120-125 | returns the stored count; the array is written exactly when an output is passed |
| OpenGLFence.Fence.constructor | glal/src/opengl/fence.cxx:3-7 | a new fence holds no sync object |
| OpenGLFence.Fence.Wait | glal/src/opengl/fence.cxx:9-13 | holds a new sync object, overwriting the old one without deleting it |
| OpenGLFence.Fence.Reset | glal/src/opengl/fence.cxx:15-22 | a held sync object is deleted and none is held; with none held nothing changes |
| EngineGLFence.Fence.constructor | engine/src/internal/glal_opengl/fence.cxx:4-8 | a new fence holds no sync object |
| EngineGLFence.Fence.Wait | engine/src/internal/glal_opengl/fence.cxx:10-14 | holds a new sync object, overwriting the old one without deleting it |
| EngineGLFence.Fence.Reset | engine/src/internal/glal_opengl/fence.cxx:16-23 | a held sync object is deleted and none is held; with none held nothing changes |
| OpenGLQueue.Queue.constructor | glal/src/opengl/queue.cxx:3-6 | remembers its device |
| OpenGLQueue.Queue.Submit | glal/src/opengl/queue.cxx:8-17 | only resets the fence, when one is given; the command buffers are not read |
| OpenGLQueue.Queue.Present | glal/src/opengl/queue.cxx:19-22 | presents the swapchain's current slot once; with no slots the `.at()` aborts and nothing is shown |
| EngineGLQueue.Queue.constructor | engine/src/internal/glal_opengl/queue.cxx:3-6 | remembers its device |
| EngineGLQueue.Queue.Submit | engine/src/internal/glal_opengl/queue.cxx:8-17 | only resets the fence, when one is given; the command buffers are not read |
| EngineGLQueue.Queue.Present | engine/src/internal/glal_opengl/queue.cxx:19-22 | presents the swapchain's current slot once; with no slots the `.at()` aborts and nothing is shown |
| OpenGLSwapchain.ImageView.constructor | glal/src/opengl/swapchain.cxx:28 | a slot view refers to its slot's image |
| OpenGLSwapchain.Swapchain.constructor | glal/src/opengl/swapchain.cxx:6-30 | one new 2D image per slot made by the device from the requested format and extent, one view of it, no fences, current slot 0 |
| OpenGLSwapchain.Swapchain.GetImageView | glal/src/opengl/swapchain.cxx:48-51 | the view of slot `index`, which shows that slot's image; an index past the ring aborts |
| OpenGLSwapchain.Swapchain.AcquireNextImage | glal/src/opengl/swapchain.cxx:53-62 | advances the current slot first, waits on the fence that slot still holds, stores the new fence there and returns the advanced slot |
| OpenGLSwapchain.Swapchain.Present | glal/src/opengl/swapchain.cxx:64-87 | shows the current slot's view, the one last acquired; changes no slot or fence |
| OpenGLSwapchain.Swapchain.Dispose | glal/src/opengl/swapchain.cxx:32-36 | the destructor deletes the views, one per slot, and not the images |
| OpenGLSwapchain.AcquireFromFreshRingOfTwo | glal/src/opengl/swapchain.cxx:53-62 | a fresh ring of two hands out slots 1, 0, 1 |
| EngineGLSwapchain.ImageView.constructor | engine/src/internal/glal_opengl/swapchain.cxx:28 | a slot view refers to its slot's image |
| EngineGLSwapchain.Swapchain.constructor | engine/src/internal/glal_opengl/swapchain.cxx:6-30 | one new image per slot made by the device from the requested format and extent, one view of it, no fences, current slot 0 |
| EngineGLSwapchain.Swapchain.GetImageView | engine/src/internal/glal_opengl/swapchain.cxx:48-51 | the view of slot `index`; an index past the ring aborts |
| EngineGLSwapchain.Swapchain.AcquireNextImage | engine/src/internal/glal_opengl/swapchain.cxx:53-63 | hands out the current slot and advances afterwards; waits on the fence the handed-out slot holds and stores the new fence there |
| EngineGLSwapchain.Swapchain.Present | engine/src/internal/glal_opengl/swapchain.cxx:65-88 | shows the current slot's view, which after an acquisition is the slot after the one handed out |
| EngineGLSwapchain.Swapchain.Dispose | engine/src/internal/glal_opengl/swapchain.cxx:32-36 | the destructor deletes the views, one per slot, and not the images |
| EngineGLSwapchain.AcquireFromFreshRingOfTwo | engine/src/internal/glal_opengl/swapchain.cxx:53-63 | a fresh ring of two hands out slots 0, 1, 0 |
| BindingSlots.SlotInjective | glal/src/opengl/descriptor_set.cxx:63-76 | within one set, two bindings that land on the same native slot are the same binding, even when `set * 8 + binding` wraps in 32 bits |
| BindingSlots.SlotsOfSetsAreDisjoint | glal/src/opengl/descriptor_set.cxx:63-76 | for sets below 2^29 and bindings below 8, different set/binding pairs never share a slot |
| BindingSlots.SmallSlot | glal/src/opengl/descriptor_set.cxx:63 | below the wrap-around the slot is the plain `set * 8 + binding` |
| BindingSlots.NinthBindingAliasesNextSet | engine/src/internal/glal_opengl/descriptor_set.cxx:94-115 | binding 8 of a set lands on the slot of binding 0 of the next set: the eight-slot stride is not enforced |
| OpenGLDescriptorSetLayout.DescriptorSetLayout.constructor | glal/src/opengl/descriptor_set_layout.cxx:3-12 | keeps the set number and a copy of every declared binding, in order |
| OpenGLDescriptorSetLayout.DescriptorSetLayout.GetDescriptorBinding | glal/src/opengl/descriptor_set_layout.cxx:19-23 | the `index`-th binding; an index past the count aborts |
| OpenGLDescriptorSetLayout.DescriptorSetLayout.Elements | glal/src/opengl/descriptor_set_layout.cxx:30-38 | iteration visits exactly the count of bindings, each the one indexing returns at that position |
| OpenGLDescriptorSet.TruncatedSize | glal/src/opengl/descriptor_set.cxx:14 | a buffer size below 2^32 passes unchanged as a 32-bit size |
| OpenGLDescriptorSet.DescriptorSet.constructor | glal/src/opengl/descriptor_set.cxx:4-8 | keeps its layout; nothing is bound |
| OpenGLDescriptorSet.DescriptorSet.FindDescriptorBinding | glal/src/opengl/descriptor_set.cxx:25 | the layout's first declaration numbered `binding`, found exactly when one exists |
| OpenGLDescriptorSet.DescriptorSet.BindBufferRange | glal/src/opengl/descriptor_set.cxx:17-45 | succeeds exactly when the layout declares the binding; then records the range with the uniform target for a uniform-buffer declaration and the storage target otherwise; an undeclared binding aborts with "missing descriptor for binding" and records nothing; image entries untouched |
| OpenGLDescriptorSet.DescriptorSet.BindBuffer | glal/src/opengl/descriptor_set.cxx:10-15 | binds the range from 0 of the buffer's size, with the same success and abort cases |
| OpenGLDescriptorSet.DescriptorSet.BindImageView | glal/src/opengl/descriptor_set.cxx:47-59 | records the view and sampler at the binding, overwriting any earlier entry, without consulting the layout |
| OpenGLDescriptorSet.DescriptorSet.Bind | glal/src/opengl/descriptor_set.cxx:61-78 | one range binding per recorded buffer entry and one texture-and-sampler binding per image entry, each at slot `set * 8 + binding` (the predicate `IssuesAs`) |
| OpenGLDescriptorSet.DescriptorSet.BindBuffers | glal/src/opengl/descriptor_set.cxx:65-71 | exactly the recorded buffer bindings, each bound as its range at its slot |
| OpenGLDescriptorSet.DescriptorSet.BindImages | glal/src/opengl/descriptor_set.cxx:73-77 | exactly the recorded image bindings, each view and sampler at its slot |
| EngineGLDescriptorSetLayout.DescriptorSetLayout.constructor | engine/src/internal/glal_opengl/descriptor_set_layout.cxx:3-10 | keeps the set number and a copy of every declared binding, in order |
| EngineGLDescriptorSetLayout.DescriptorSetLayout.GetDescriptorBinding | engine/src/internal/glal_opengl/descriptor_set_layout.cxx:17-21 | the `index`-th binding; an index past the count aborts |
| EngineGLDescriptorSetLayout.DescriptorSetLayout.Elements | engine/src/internal/glal_opengl/descriptor_set_layout.cxx:28-36 | iteration visits exactly the count of bindings, each the one indexing returns at that position |
| EngineGLDescriptorSet.LastDeclaringLayoutDecides | engine/src/internal/glal_opengl/descriptor_set.cxx:16-31 | when layout `k` declares the binding and no later layout does, layout `k`'s first declaration decides the target: later layouts override earlier ones |
| EngineGLDescriptorSet.UndeclaredBindingHasNoTarget | engine/src/internal/glal_opengl/descriptor_set.cxx:16-32 | no declaration decides exactly when no layout declares the binding |
| EngineGLDescriptorSet.DescriptorSet.constructor | engine/src/internal/glal_opengl/descriptor_set.cxx:4-10 | keeps every given layout, in order; nothing is bound |
| EngineGLDescriptorSet.DescriptorSet.ResolveTarget | engine/src/internal/glal_opengl/descriptor_set.cxx:16-31 | the nested scan leaves the target of the deciding declaration, and 0 exactly when no layout declares the binding |
| EngineGLDescriptorSet.DescriptorSet.BindBuffer | engine/src/internal/glal_opengl/descriptor_set.cxx:12-41 | succeeds exactly when some layout declares the binding; then records a whole-buffer entry with the deciding target; otherwise aborts with "missing descriptor for binding" and records nothing |
| EngineGLDescriptorSet.DescriptorSet.BindBufferRange | engine/src/internal/glal_opengl/descriptor_set.cxx:43-76 | succeeds exactly when some layout declares the binding; then records the range with the deciding target; otherwise aborts and records nothing |
| EngineGLDescriptorSet.DescriptorSet.BindImageView | engine/src/internal/glal_opengl/descriptor_set.cxx:78-90 | records the view and sampler at the binding without consulting the layouts |
| EngineGLDescriptorSet.DescriptorSet.Bind | engine/src/internal/glal_opengl/descriptor_set.cxx:92-117 | one call per recorded entry at slot `index * 8 + binding`: a whole-buffer binding for a base entry, a range binding otherwise, and a texture-and-sampler binding per image entry |
| EngineGLDescriptorSet.DescriptorSet.BindBuffers | engine/src/internal/glal_opengl/descriptor_set.cxx:96-110 | exactly the recorded buffer bindings, each bound whole or as its range at its slot |
| EngineGLDescriptorSet.DescriptorSet.BindImages | engine/src/internal/glal_opengl/descriptor_set.cxx:112-116 | exactly the recorded image bindings, each view and sampler at its slot |
| VulkanDescriptorSetLayout.StageFlagsBitByBit | glal/src/vulkan/descriptor_set_layout.cxx:14-32 | a single stage is set in the mask exactly when the Vulkan bit `ToVkShaderStage` gives that stage is set in the flags |
| VulkanDescriptorSetLayout.StageFlagsOfSingleStages | glal/src/vulkan/descriptor_set_layout.cxx:14-32 | no stages give no flags, and a single stage gives exactly its `ToVkShaderStage` bit |
| VulkanDescriptorSetLayout.NativeBindingOf | glal/src/vulkan/descriptor_set_layout.cxx:34-40 | keeps number and count, translates the stages bit by bit, and its native type translates back to the declared one; read-only storage buffers and push constants abort with "descriptor type not supported" |
| VulkanDescriptorSetLayout.DescriptorSetLayout.constructor | glal/src/vulkan/descriptor_set_layout.cxx:3-8 | keeps the set number and a copy of every declared binding |
| VulkanDescriptorSetLayout.DescriptorSetLayout.GetDescriptorBinding | glal/src/vulkan/descriptor_set_layout.cxx:63-66 | the `index`-th binding; an index past the count aborts |
| VulkanDescriptorSetLayout.DescriptorSetLayout.FindDescriptorBinding | glal/src/vulkan/descriptor_set_layout.cxx:68-75 | some binding exactly when one is numbered `binding`, and then the first such |
| VulkanDescriptorSetLayout.NewDescriptorSetLayout | glal/src/vulkan/descriptor_set_layout.cxx:3-51 | succeeds exactly when every declared type translates; the native array then holds each binding's native entry in order, and the layout gets a fresh native handle; otherwise aborts with "descriptor type not supported" |
| VulkanDescriptorSet.TruncatedSize | glal/src/vulkan/descriptor_set.cxx:52 | a buffer size below 2^32 passes unchanged as a 32-bit size |
| VulkanDescriptorSet.DescriptorSet.constructor | glal/src/vulkan/descriptor_set.cxx:3-40 | the pool holds one size per layout binding, in order, of its native type and declared count, and room for exactly one set; a fresh pool and a fresh set, distinct; no writes yet |
| VulkanDescriptorSet.DescriptorSet.Dispose | glal/src/vulkan/descriptor_set.cxx:42-46 | the destructor frees the set from its pool and destroys the pool, each once, and no set is freed from the pool after the pool is destroyed |
| VulkanDescriptorSet.DescriptorSet.DeclaredTypeTranslates | glal/src/vulkan/descriptor_set.cxx:70-79 | a declared binding's type translates, since the layout was created from it |
| VulkanDescriptorSet.DescriptorSet.BindBufferRange | glal/src/vulkan/descriptor_set.cxx:55-86 | appends one write of one descriptor at element 0 of the binding, with the declared type's native value and the buffer range |
| VulkanDescriptorSet.DescriptorSet.BindBuffer | glal/src/vulkan/descriptor_set.cxx:48-53 | appends the write for the range from 0 of the buffer's size in 32 bits |
| VulkanDescriptorSet.DescriptorSet.BindImageView | glal/src/vulkan/descriptor_set.cxx:88-117 | appends one write of one descriptor with the declared type's native value, the sampler and the view |
| VulkanDescriptorSet.DescriptorSet.Bind | glal/src/vulkan/descriptor_set.cxx:119-127 | submits every write gathered so far, in the order they were made, each still holding the info its bind described |
| VulkanDescriptorSet.RecordInCall | glal/src/vulkan/descriptor_set.cxx:63-85 | while a bind call runs, the write it records points at the call's live local info |
| VulkanDescriptorSet.OnReturn | glal/src/vulkan/descriptor_set.cxx:85-86 | once the bind call returns, its recorded write points at a released local |
| VulkanDescriptorSet.AsWrittenSubmitsReleased | glal/src/vulkan/descriptor_set.cxx:55-127 | every write the library as written submits keeps its binding, element, count and type, but its info pointer reaches nothing |
| VulkanDescriptorSet.AsWrittenLosesInfo | glal/src/vulkan/descriptor_set.cxx:88-127 | a single bind shows it: the write reached its info while the call ran, and the submitted one reaches nothing |
| OpenGLBuffer.MapAgreesWithStorage | glal/src/opengl/buffer.cxx:11-23 | a buffer maps exactly when its storage flags allow mapping, for writing exactly with the write flag and for reading exactly with the read flag; only device-local memory is refused |
| OpenGLBuffer.Buffer.constructor | glal/src/opengl/buffer.cxx:4-27 | keeps size, usage and memory usage; the storage is allocated with the buffer's size and the flags of its memory usage |
| OpenGLBuffer.Buffer.Map | glal/src/opengl/buffer.cxx:44-60 | write-only access for host-to-device, read-only for device-to-host; device-local memory aborts with "device local memory not accessible" |
| EngineGLBuffer.MapAgreesWithStorage | engine/src/internal/glal_opengl/buffer.cxx:12-24 | a buffer maps exactly when its storage flags allow mapping, each access matching its flag; device-local and `None` memory are refused |
| EngineGLBuffer.Buffer.constructor | engine/src/internal/glal_opengl/buffer.cxx:5-28 | keeps size, usage and memory usage; every usage other than the two host-visible ones gets no storage flags |
| EngineGLBuffer.Buffer.Map | engine/src/internal/glal_opengl/buffer.cxx:45-61 | write-only access for host-to-device, read-only for device-to-host; any other memory usage aborts with "cannot map buffer with memory usage" |
| VulkanBuffer.UsageFlagsAreDistinctBits | glal/src/vulkan/buffer.cxx:24-39 | each buffer usage becomes exactly one Vulkan usage bit, distinct usages distinct bits |
| VulkanBuffer.MemoryPropertyFlagsAreDistinctBits | glal/src/vulkan/buffer.cxx:41-53 | each memory usage requires exactly one memory property, distinct usages distinct properties |
| VulkanBuffer.FindMemoryTypeIndex | glal/src/vulkan/buffer.cxx:4-15 | the smallest memory type the type bits accept that has every required property; "unsupported memory requirements" exactly when there is none |
| VulkanBuffer.Buffer.constructor | glal/src/vulkan/buffer.cxx:17-22 | keeps size and usage, the usage's Vulkan flags and the memory type it allocated from |
| VulkanBuffer.Buffer.MappedRange | glal/src/vulkan/buffer.cxx:94-99 | `Map` maps the whole buffer, from offset 0 to its size |
| VulkanBuffer.NewBuffer | glal/src/vulkan/buffer.cxx:17-82 | succeeds exactly when some memory type is suitable for the memory usage's property; the memory then comes from the first suitable type; otherwise aborts with "unsupported memory requirements" |
| OpenGLPipelineLayout.PipelineLayout.constructor | glal/src/opengl/pipeline_layout.cxx:3-9 | keeps every given descriptor set layout, in order |
| OpenGLPipelineLayout.PipelineLayout.GetDescriptorSetLayout | glal/src/opengl/pipeline_layout.cxx:11-15 | the `index`-th layout; an index past the count aborts |
| OpenGLPipelineLayout.PipelineLayout.Elements | glal/src/opengl/pipeline_layout.cxx:22-30 | iteration visits exactly the count of layouts, each the one indexing returns at that position |
| EngineGLPipelineLayout.PipelineLayout.constructor | engine/src/internal/glal_opengl/pipeline_layout.cxx:3-9 | keeps every given descriptor set layout, in order |
| EngineGLPipelineLayout.PipelineLayout.GetDescriptorSetLayout | engine/src/internal/glal_opengl/pipeline_layout.cxx:11-15 | the `index`-th layout; an index past the count aborts |
| EngineGLPipelineLayout.PipelineLayout.Elements | engine/src/internal/glal_opengl/pipeline_layout.cxx:22-30 | iteration visits exactly the count of layouts, each the one indexing returns at that position |
| VulkanPipelineLayout.PipelineLayout.constructor | glal/src/vulkan/pipeline_layout.cxx:3-22 | keeps the layouts in order; the native create info holds the native handle of each layout, in the same order, and no push-constant ranges |
| VulkanPipelineLayout.PipelineLayout.GetDescriptorSetLayout | glal/src/vulkan/pipeline_layout.cxx:29-32 | the `index`-th layout; an index past the count aborts |
| OpenGLPipeline.FirstBinding | glal/src/opengl/pipeline.cxx:99-109 | some binding exactly when one is numbered `binding`, and then the first such in declaration order |
| OpenGLPipeline.Pipeline.constructor | glal/src/opengl/pipeline.cxx:4-16 | keeps layout, type and topology and copies the vertex bindings and attributes verbatim; the depth, blend and restart flags are ignored |
| OpenGLPipeline.Pipeline.BindVertexArray | glal/src/opengl/pipeline.cxx:72-91 | succeeds exactly when every attribute has a data type; then one format per attribute, in order, each the translation of that attribute; otherwise aborts with "data type is not set" |
| OpenGLPipeline.Pipeline.BindVertexBuffer | glal/src/opengl/pipeline.cxx:93-110 | binds exactly when a binding with that number exists, with the stride of the first such binding; otherwise nothing is bound |
| OpenGLPipeline.NewPipeline | glal/src/opengl/pipeline.cxx:4-55 | succeeds exactly when the program links and validates; the pipeline then keeps the descriptor's type, topology, bindings and attributes; a failed link aborts with "failed to link program", a failed validation after it with "failed to validate program" |
| EngineGLPipeline.AttributeBytes | engine/src/internal/glal_opengl/pipeline.cxx:21-24 | an attribute occupies its type's size times its count; a count of 0 occupies nothing |
| EngineGLPipeline.Stride | engine/src/internal/glal_opengl/pipeline.cxx:16-25 | the exact sum of the attributes' sizes; no attributes give 0 |
| EngineGLPipeline.StrideOfConcat | engine/src/internal/glal_opengl/pipeline.cxx:16-25 | the stride of two attribute lists one after the other is the sum of their strides |
| EngineGLPipeline.TwoThenThreeFloats | engine/src/internal/glal_opengl/pipeline.cxx:16-25 | two floats then three floats make a 20-byte vertex |
| EngineGLPipeline.Pipeline.constructor | engine/src/internal/glal_opengl/pipeline.cxx:5-9 | keeps the type, the attributes and the stride |
| EngineGLPipeline.Pipeline.LayoutVertexArray | engine/src/internal/glal_opengl/pipeline.cxx:83-102 | one format per stored attribute, in order, each the translation of that attribute |
| EngineGLPipeline.NewPipeline | engine/src/internal/glal_opengl/pipeline.cxx:5-66 | succeeds exactly when every attribute is typed and the program links and validates; an untyped attribute aborts with "data type is not set", then a failed link or validation with its message; the stored stride is the exact stride modulo 2^32 |
| OpenGLCommon.TranslateImageFormat | glal/src/opengl/common.cxx:9-58 | BGRA8 keeps internal RGBA8 with BGRA channel order, the two depth formats get their depth triples, and the half and full float formats upload as floats |
| OpenGLCommon.ImageFormatsAreDistinguishable | glal/src/opengl/common.cxx:15-57 | no two formats share both internal and external format; the only shared internal format is RGBA8, between RGBA8 and BGRA8 |
| OpenGLCommon.DepthFormats | glal/src/opengl/common.cxx:47-56 | a format uploads with a depth external format exactly when it is D24S8 or D32F |
| OpenGLCommon.GLTypeSize | glal/src/opengl/common.cxx:71-120 | the byte size OpenGL fixes for each scalar type, the reference the data-type table is checked against |
| OpenGLCommon.TranslateDataType | glal/src/opengl/common.cxx:60-122 | aborts with "data type is not set" exactly for `None`; only the two 8-bit integer types are normalised |
| OpenGLCommon.DataTypeSizes | glal/src/opengl/common.cxx:71-120 | 8-bit types are 1 byte, 16-bit types and half floats 2, 32-bit types, floats and fixed 4, doubles 8 |
| OpenGLCommon.DataTypeAgreesWithGLType | glal/src/opengl/common.cxx:71-120 | each reported size is the size of the reported GL type, and distinct data types get distinct GL types |
| OpenGLCommon.AttribFormatOf | glal/src/opengl/pipeline.cxx:74-90 | defined exactly for typed attributes; keeps location, binding, count and offset and takes GL type and normalisation from the data-type table |
| EngineGLCommon.TranslateFormat | engine/src/internal/glal_opengl/common.cxx:8-62 | the engine's `None` format, and only it, yields 0 for all three answers; the 8-bit, sRGB and depth formats get their internal and external formats |
| EngineGLCommon.AgreesWithGlal | engine/src/internal/glal_opengl/common.cxx:21-60 | apart from `None`, the engine's table is the glal table |
| OpenGLImage.TextureTarget | glal/src/opengl/image.cxx:16-74 | every dimension gets a 1D, 2D or 3D texture target |
| OpenGLImage.TextureTargetInjective | glal/src/opengl/image.cxx:19-54 | distinct dimensions get distinct texture targets |
| OpenGLImage.UsedExtent | glal/src/opengl/image.cxx:20-73 | a texture of a dimension gets as many extent components as it has axes |
| OpenGLImage.UsedExtentIsPrefix | glal/src/opengl/image.cxx:20-73 | 1D uses the width, 2D width and height, 3D all three: always a prefix of (width, height, depth) |
| OpenGLImage.WholeUpload | glal/src/opengl/image.cxx:25-73 | the upload is at level 0 from offset 0 on every axis, covers the whole size and uses the format's external format and pixel type |
| OpenGLImage.Image.constructor | glal/src/opengl/image.cxx:4-78 | keeps the descriptor; storage has the dimension's target, one level per mip level, the format's internal format and the used extent; then one whole upload |
| EngineGLImage.Image.constructor | engine/src/internal/glal_opengl/image.cxx:4-34 | keeps the descriptor; storage is always a 3D texture over the full extent with one level per mip level and the format's internal format; then one whole upload |
| OpenGLSampler.FilterParameter | glal/src/opengl/sampler.cxx:11-35 | a value outside the filter enumeration sets the filter parameter to 0 |
| OpenGLSampler.WrapParameter | glal/src/opengl/sampler.cxx:37-83 | a value outside the address-mode enumeration sets the wrap parameter to 0 |
| OpenGLSampler.TablesOnDeclaredValues | glal/src/opengl/sampler.cxx:11-83 | declared filters and address modes get their GL names, never 0, and distinct ones distinct names |
| OpenGLSampler.Sampler.constructor | glal/src/opengl/sampler.cxx:3-90 | exactly five parameters in call order: min and mag filter, then wrap S, T, R from address U, V, W |
| OpenGLShaderModule.ShaderType | glal/src/opengl/shader_module.cxx:9-31 | a shader type exactly for the six OpenGL stages; any other stage, no stage or a combined mask aborts with "shader stage not supported" |
| OpenGLShaderModule.ShaderTypeRoundTrip | glal/src/opengl/shader_module.cxx:9-28 | the shader type of each supported stage gives back that stage |
| OpenGLShaderModule.RayStagesUnsupported | glal/src/opengl/shader_module.cxx:29-30 | of the nine single stages, exactly the three ray stages have no shader type |
| OpenGLShaderModule.ShaderModule.constructor | glal/src/opengl/shader_module.cxx:4-7 | keeps stage and shader type; loads the code as a SPIR-V binary with entry point "main" |
| OpenGLShaderModule.NewShaderModule | glal/src/opengl/shader_module.cxx:4-36 | succeeds exactly for the six OpenGL stages, with the stage's shader type, the code as SPIR-V and entry point "main"; otherwise aborts with "shader stage not supported" |
| EngineGLShaderModule.ShaderModule.constructor | engine/src/internal/glal_opengl/shader_module.cxx:5-8 | keeps stage and shader type; loads the code as a SPIR-V binary with entry point "main" |
| EngineGLShaderModule.NewShaderModule | engine/src/internal/glal_opengl/shader_module.cxx:5-37 | succeeds exactly for the six OpenGL stages, with the same shader types as the glal table; otherwise aborts with "shader stage not supported" |
| OpenGLCommandBuffer.AttachmentPoints | glal/src/opengl/command_buffer.cxx:39-92 | the draw-buffer list holds colour attachment i at position i, then the depth point for each depth attachment, then the stencil point for each stencil attachment, one entry per attachment |
| OpenGLCommandBuffer.AttachCommandsAttachEach | glal/src/opengl/command_buffer.cxx:39-90 | every attachment of a group is attached at its own point, and its clear is issued exactly when the attachment asks for it |
| OpenGLCommandBuffer.ClearsBelow | glal/src/opengl/command_buffer.cxx:48-89 | a group issues clears only for draw-buffer indices of its own attachments |
| OpenGLCommandBuffer.AttachmentPointsDistinct | glal/src/opengl/command_buffer.cxx:32-92 | with at most one depth and one stencil attachment, no two entries of the draw-buffer list name the same attachment point |
| OpenGLCommandBuffer.GroupPoints | glal/src/opengl/command_buffer.cxx:46-81 | each group contributes one attachment point per attachment |
| OpenGLCommandBuffer.PointsOfGroups | glal/src/opengl/command_buffer.cxx:37-92 | the list passed to the draw-buffer call is the colour points, then the depth points, then the stencil points |
| OpenGLCommandBuffer.AttachGroup | glal/src/opengl/command_buffer.cxx:39-90 | the attachment loop of one group issues exactly that group's attach-and-clear commands and collects exactly its points |
| OpenGLCommandBuffer.IndexByteOffset | glal/src/opengl/command_buffer.cxx:187 | the first index's byte offset is its position times the index size whenever that fits in 32 bits (it wraps otherwise), and 0 for the first index 0 |
| OpenGLCommandBuffer.DrawAfterEnd | glal/src/opengl/command_buffer.cxx:20-28 | after End resets the pipeline, any draw is fatal with "pipeline not set" |
| OpenGLCommandBuffer.CommandBuffer.constructor | glal/src/opengl/command_buffer.cxx:4-12 | a new command buffer keeps its device and usage, has no pipeline, no index type and has issued nothing |
| OpenGLCommandBuffer.CommandBuffer.Begin | glal/src/opengl/command_buffer.cxx:14-18 | creates the vertex array and changes no recorded state |
| OpenGLCommandBuffer.CommandBuffer.End | glal/src/opengl/command_buffer.cxx:20-28 | unbinds the program, deletes the vertex array, and forgets the pipeline and the index type |
| OpenGLCommandBuffer.CommandBuffer.BeginRenderPass | glal/src/opengl/command_buffer.cxx:30-98 | more than one depth, or else more than one stencil attachment, is fatal before anything is issued; otherwise every attachment is attached and cleared if asked and the draw buffers are set; then an incomplete framebuffer is fatal and a complete one is bound; it succeeds exactly when all three checks pass |
| OpenGLCommandBuffer.CommandBuffer.EndRenderPass | glal/src/opengl/command_buffer.cxx:100-104 | unbinds the framebuffer and changes no recorded state |
| OpenGLCommandBuffer.CommandBuffer.BindPipeline | glal/src/opengl/command_buffer.cxx:106-114 | uses the pipeline's program, lays out the vertex array from its attributes and records it as the bound pipeline |
| OpenGLCommandBuffer.CommandBuffer.BindVertexBuffer | glal/src/opengl/command_buffer.cxx:130-141 | without a pipeline it is fatal ("pipeline not set") and issues nothing; with one it binds the buffer at binding 0 with the given offset and the pipeline's vertex stride |
| OpenGLCommandBuffer.CommandBuffer.BindIndexBuffer | glal/src/opengl/command_buffer.cxx:143-149 | binds the element buffer and records the index type, keeping the pipeline |
| OpenGLCommandBuffer.CommandBuffer.BindDescriptorSets | glal/src/opengl/command_buffer.cxx:151-161 | binds the i-th given set as set first + i (32-bit), in order, one command per set, after what was already issued; each command's GL calls are exactly those the set issues at that index |
| OpenGLCommandBuffer.CommandBuffer.Requires | glal/src/opengl/command_buffer.cxx:165-194 | a pipeline of the requested type is bound exactly when the check passes; no pipeline is "pipeline not set", the wrong type "pipeline is not graphics" or "pipeline is not compute" |
| OpenGLCommandBuffer.CommandBuffer.Draw | glal/src/opengl/command_buffer.cxx:163-170 | needs a bound graphics pipeline; then draws the vertex range, and otherwise issues nothing |
| OpenGLCommandBuffer.CommandBuffer.DrawIndexed | glal/src/opengl/command_buffer.cxx:172-189 | needs a bound graphics pipeline and a recorded index type ("data type is not set" otherwise); then draws the indices with the type's GL enum at the first index's byte offset |
| OpenGLCommandBuffer.CommandBuffer.Dispatch | glal/src/opengl/command_buffer.cxx:191-197 | needs a bound compute pipeline ("pipeline not set" / "pipeline is not compute"); then dispatches the grid |
| OpenGLCommandBuffer.CommandBuffer.CopyBuffer | glal/src/opengl/command_buffer.cxx:199-218 | a missing source is fatal, then a missing destination; otherwise copies the range, and succeeds exactly when both are given |
| OpenGLCommandBuffer.CommandBuffer.CopyBufferToImage | glal/src/opengl/command_buffer.cxx:220-274 | uploads the whole image from the buffer at level 0, over the extent components its dimension uses, in its format's client layout |
| VulkanCommon.FilterRoundTrip | glal/src/vulkan/common.cxx:9-20 | the filter table sends nearest and linear to distinct Vulkan filters, so each filter can be read back |
| VulkanCommon.AddressModeRoundTrip | glal/src/vulkan/common.cxx:22-35 | repeat, clamp and mirror get distinct Vulkan address modes, so each can be read back |
| VulkanCommon.PipelineBindPointRoundTrip | glal/src/vulkan/common.cxx:37-50 | graphics, compute and ray tracing get distinct bind points, so each pipeline type can be read back |
| VulkanCommon.PrimitiveTopologyRoundTrip | glal/src/vulkan/common.cxx:253-272 | the six topologies get distinct Vulkan topologies, so each can be read back |
| VulkanCommon.ShaderStageDefinedOnSingleBits | glal/src/vulkan/common.cxx:52-77 | the stage table is defined exactly on the nine single-bit stages, and gives each a single Vulkan stage bit |
| VulkanCommon.ShaderStageMasksAreFatal | glal/src/vulkan/common.cxx:74-75 | no stage, or a mask of two or more stages, aborts with "shader stage not supported" |
| VulkanCommon.ShaderStageInjective | glal/src/vulkan/common.cxx:52-77 | distinct stages get distinct Vulkan stage bits |
| VulkanCommon.ToVkFormatMeaning | glal/src/vulkan/common.cxx:79-226 | a vertex format exists exactly for a real data type and 1 to 4 components, and it is the format with that many components of the type's scalar width and numeric kind |
| VulkanCommon.ToVkFormatMessages | glal/src/vulkan/common.cxx:94-95 | no data type aborts with "data type not supported"; a count outside 1 to 4 aborts with "count not supported" |
| VulkanCommon.FixedIsUInt32 | glal/src/vulkan/common.cxx:195-208 | fixed-point attributes use the unsigned 32-bit formats |
| VulkanCommon.DescriptorTypeRoundTrip | glal/src/vulkan/common.cxx:274-293 | exactly read-only storage buffers and push constants abort; every other descriptor type gets a distinct Vulkan descriptor type |
| VulkanCommon.ImageFormatChannelMismatch | glal/src/vulkan/common.cxx:232-239 | as written, RGBA8_UNorm and BGRA8_UNorm map to three-channel formats and RG16F to a three-channel one, so the channel count changes |
| VulkanCommon.ToVkImageFormatCorrected | glal/src/vulkan/image.cxx:25-52 | every image format maps to a Vulkan format with the same number of channels |
| VulkanCommon.ImageFormatCorrectionIsMinimal | glal/src/vulkan/common.cxx:228-251 | the corrected table differs from the written one exactly on RGBA8_UNorm, BGRA8_UNorm and RG16F |
| VulkanImage.ImageTypeRoundTrip | glal/src/vulkan/image.cxx:11-23 | 1D, 2D and 3D get distinct Vulkan image types, so each can be read back |
| VulkanImage.Image.constructor | glal/src/vulkan/image.cxx:3-76 | the image keeps the descriptor's format, type, extent, mip levels and layers; its create info has the matching image type, a format with the same channel count, the same extent, levels and layers, and one sample |
| VulkanImageView.ViewTypeRoundTrip | glal/src/vulkan/image_view.cxx:10-22 | 1D, 2D and 3D get distinct view types, so each can be read back |
| VulkanImageView.ImageView.constructor | glal/src/vulkan/image_view.cxx:3-75 | the view keeps its image, format and type; its create info has the matching view type, the image's format table, the colour aspect, and a range that covers exactly the image's mip levels and array layers |
| Entities.Component.constructor | engine/src/component/component.cxx:3-7 | a component keeps the scene and the entity it was made for, and its class |
| Entities.OfClass | engine/include/fxng/entity.hxx:31-32 | the components a typed lookup counts are components of the entity, all of the requested class, no more of them than there are components |
| Entities.NthOf | engine/include/fxng/entity.hxx:27-36 | a non-null lookup result is one of the entity's components and of the requested class |
| Entities.NthOfIsIndexing | engine/include/fxng/entity.hxx:27-36 | the lookup with index n is the n-th component of that class, and null exactly when there are at most n of them |
| Entities.OtherClassesDoNotCount | engine/include/fxng/entity.hxx:32-33 | adding a component of another class changes no lookup of a class |
| Entities.Find | engine/include/fxng/entity.hxx:30-35 | the counting loop returns exactly the n-th component of the class, or null |
| Entities.FirstOfClass | engine/include/fxng/entity.hxx:28-36 | with the default index the lookup is non-null exactly when some component has the class, and then it is the earliest such component |
| Entities.GetFirst | engine/include/fxng/entity.hxx:28-36 | `Get` with its default index returns the earliest component of the class, and null exactly when there is none |
| Entities.Entity.constructor | engine/src/entity.cxx:4-9 | a new entity keeps its scene, parent and id and has no components |
| Entities.Entity.Insert | engine/src/entity.cxx:26-29 | the component is appended after the existing ones |
| Entities.Entity.Create | engine/include/fxng/entity.hxx:21-25 | a new component of the requested class, owned by this entity and its scene, is appended and returned |
| Entities.Entity.Get | engine/include/fxng/entity.hxx:27-36 | returns the index-th component of the class, skipping the others, or null when there are not that many |
| Entities.Entity.HookCalls | engine/src/entity.cxx:31-59 | a hook reaches every component once, in insertion order |
| Entities.Entity.RunHook | engine/src/entity.cxx:31-59 | the hook loop makes exactly those calls, in that order |
| Scenes.FirstWithId | engine/src/scene.cxx:13-19 | a non-null result is an entity of the scene with that id, and null means no entity has it |
| Scenes.FirstWithIdIsFirst | engine/src/scene.cxx:15-17 | when some entity has the id, the result is the earliest entity with it |
| Scenes.SceneHookCalls | engine/src/scene.cxx:21-49 | a scene without entities makes no calls |
| Scenes.SceneHookCallsAppend | engine/src/scene.cxx:21-49 | an entity's component calls come after those of every entity before it |
| Scenes.SceneHookCallsLength | engine/src/scene.cxx:21-49 | a scene hook makes exactly one call per component of each entity |
| Scenes.Scene.constructor | engine/include/fxng/scene.hxx:26 | a new scene has no entities |
| Scenes.Scene.Clear | engine/src/scene.cxx:3-6 | drops every entity |
| Scenes.Scene.Create | engine/src/scene.cxx:8-11 | a new root entity with the id, no parent and no components is appended and returned |
| Scenes.Scene.Get | engine/src/scene.cxx:13-19 | returns the first entity with the id, and null exactly when none has it |
| Scenes.Scene.RunHook | engine/src/scene.cxx:21-49 | passes the hook to every entity in order, which passes it to each of its components |

## Left out

- Native GL, Vulkan and GLFW calls are foreign calls. Each one is an opaque fresh handle or a logged value, and its driver-side effect is not modelled.
- Driver-reported results are parameters. Framebuffer completeness is modelled in `OpenGLCommandBuffer.CommandBuffer.BeginRenderPass`; program link and validation status in `OpenGLPipeline.NewPipeline` and `EngineGLPipeline.NewPipeline`.
- Real GPU blocking in `Fence::Wait`, and any concurrency, is not modelled. Wait is only the change of the held sync object.
- Logging output is left out: formatting, timestamps and stderr are I/O. Only this remains: `Fatal` and a failed `Assert` terminate, with their messages.
- The Vulkan files that only assemble native structures, or are empty stubs, are not modelled: pipeline, command buffer, swapchain, instance, fence, shader module, sampler. The Vulkan device constructor's queue-family setup is also not modelled. Their tables live in `VulkanCommon`.
- The render-pass and framebuffer files of both glal backends are not modelled. Their attachment and descriptor types are declared in no header, and the code only copies that array.
- The OpenGL image views of glal and of the engine only forward to the wrapped image. The non-owning image relation is modelled inside the swapchains, which delete only their views.
- The application, windowing and asset code (the game's main and the engine's frame loop) is I/O and process-wide state.
- The Transform and Camera components are floating-point matrix and quaternion code. `Component`'s own hooks are empty, so only which component a hook reaches is modelled.
- Viewport, scissor and clear values are floats passed through to the driver. `SetViewport` and `SetScissor` of the OpenGL command buffer are not modelled, and neither are an attachment's clear value or the fence slot's sync payload.
- The OpenGL command buffer's `Transition` does nothing in the source, so the model has no member for it.
- OpenGLCommandBuffer.CommandBuffer.Draw: the vertex array is re-bound before the draw, and this is not logged (likewise in DrawIndexed).
- The native ids of the command buffer's vertex array and framebuffer are not modelled. `Begin` and `End` log the vertex array's creation and deletion; the render pass does not log the framebuffer's creation or deletion, only its binding and unbinding.
- Signed GL parameter casts (`GLint`, `GLsizei`, `GLintptr` of unsigned or size values) are not modelled. Sizes and offsets are unbounded naturals, apart from the 32-bit values written out as `G.U32`.
- A `std::map` visited in key order is modelled as a Dafny `map`. `OpenGLDescriptorSet.DescriptorSet.Bind` and `EngineGLDescriptorSet.DescriptorSet.Bind` return the calls keyed by binding, because the order of those calls has no visible effect.
- A `std::vector` reallocating, and so invalidating references to its elements (`Scene::Create` returns a reference into `m_Entities`), is not modelled. Entities are objects whose identity survives later `Create`s.
- OpenGLSwapchain.Swapchain.AcquireNextImage: requires at least one image; with none, the source divides by zero, whose behaviour C++ leaves undefined.
- EngineGLSwapchain.Swapchain.AcquireNextImage: requires at least one image, for the same reason.
- VulkanDescriptorSet.DescriptorSet.BindBufferRange: requires the binding to be declared in the layout, because the source uses the lookup's result without a null check.
- VulkanDescriptorSet.DescriptorSet.BindBuffer: requires a declared binding, for the same reason.
- VulkanDescriptorSet.DescriptorSet.BindImageView: requires a declared binding, for the same reason.
- VulkanDevice.Device.Create: for kinds whose constructor is not modelled (the Vulkan shader module, pipeline, sampler, swapchain, command buffer and fence), the constructor's outcome is a parameter. Only `CreateBuffer` and `CreateDescriptorSetLayout` call their constructor. The lists hold a fresh handle standing for the constructed object, not the object the constructor method returns (likewise in `OpenGLDevice` and `EngineGLDevice`).
- VulkanPhysicalDevice.PhysicalDevice.DestroyDevice: the outcome of the device's destructor is a parameter, not a call to `VulkanDevice.Device.Teardown`, because the device module is built on the physical device module.
- VulkanDescriptorSet.DescriptorSet.Bind: models the corrected behaviour, where each write owns its info. The library as written points each write at a local of the bind call that has already returned; that is modelled separately by `VulkanDescriptorSet.AsWrittenSubmission` (see Findings).
- The engine's `PipelineType`, `BufferUsage`, `MemoryUsage` and `CommandBufferUsage` are declared as bit masks in engine/include/fxng/glal.hxx, with `None = 0` and one bit per enumerator. The model has exactly one value per enumerator, so combined masks are not modelled. Such a mask would reach the `default` branch of the engine buffer's memory switches (no storage flags, and `Map` aborts), just as `None` and `DeviceLocal` do.
- The vertex descriptor of the engine's pipeline has no vertex-attribute member in the engine's header, although the backend reads one. The engine's `TranslateDataType` is declared but defined nowhere, so the model uses the glal definition in `OpenGLCommon`. `VertexBinding` appears in no header and is modelled with the two fields the backend reads.
- The glal OpenGL command buffer calls pipeline members (vertex stride, vertex-array layout) that only the library's OpenGL header declares. Its pipeline is the value `BoundPipeline` with those members.
- The glal OpenGL descriptor set calls `FindDescriptorBinding` on its layout, which that layout's source does not define. It is modelled as the find-first search over the layout's bindings.
- The Vulkan image reads a type from its descriptor where the header declares a dimension. The engine swapchain fills in a dimension that the engine header's image descriptor lacks. Both are modelled as the code reads them.
- The `default: Fatal` branches of switches that cover every declared enumerator are unreachable here, because a Dafny datatype has no values outside its enumerators. These include the image dimension switches and `ToVkFilter`/`ToVkAddressMode`. The OpenGL sampler's unrecognised values are modelled through their numeric values (`OpenGLSampler.FilterValue`), because the source maps them to 0 rather than aborting.

## Findings

| source | as written | input that shows it | evidently intended | confidence | as-written member | corrected member |
|---|---|---|---|---|---|---|
| glal/src/vulkan/common.cxx:232-239 | the image-format table maps RGBA8_UNorm to R8G8B8_UNORM, BGRA8_UNorm to B8G8R8_UNORM and RG16F to R16G16B16_SFLOAT, changing the channel count | `ToVkFormat(ImageFormat_RGBA8_UNorm)` gives a three-channel format for a four-channel image format | the table of glal/src/vulkan/image.cxx:25-52, which keeps each format's channel count (R8G8B8A8_UNORM, B8G8R8A8_UNORM, R16G16_SFLOAT) | high, not executed | VulkanCommon.ImageFormatChannelMismatch | VulkanCommon.ToVkImageFormatCorrected |
| glal/src/vulkan/descriptor_set.cxx:55-127 | each bind call builds its buffer or image info as a local, stores the local's address in the write it appends, and returns; `Bind` then submits those writes | `BindBuffer(0, buffer)` followed by `Bind()`: the submitted write's buffer info pointer refers to a local of the returned `BindBuffer` call, whose lifetime has ended, which C++ leaves undefined | each write keeps its info in storage the descriptor set owns until `Bind` submits it | high, not executed | VulkanDescriptorSet.AsWrittenSubmitsReleased | VulkanDescriptorSet.DescriptorSet.Bind |
