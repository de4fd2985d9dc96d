/**
 * The Vulkan device's ownership registry.
 *
 * The device keeps one list per object kind.  `CreateBuffer` ...
 * `CreateFence` construct the new object and, unless its constructor
 * aborts, append it to their kind's list and return it;
 * `DestroyBuffer` ... `DestroyFence` erase the first entry that is the object
 * and abort when the device does not own it.  The destructor aborts unless
 * eleven of the fourteen lists are empty.
 */
module VulkanDevice {
  import opened Registry
  import opened Log
  import opened Wrappers
  import G = GlalTypes
  import PD = VulkanPhysicalDevice
  import opened Vk
  import Buffers = VulkanBuffer
  import Layouts = VulkanDescriptorSetLayout

  datatype Kind =
    | Buffer | Image | ImageView | Sampler | ShaderModule | PipelineLayout | Pipeline
    | DescriptorSetLayout | DescriptorSet | Swapchain | RenderPass | Framebuffer | CommandBuffer | Fence

  /** The kinds the destructor requires to be empty, in the order it checks them. */
  const CHECKED_AT_TEARDOWN: seq<Kind> := [
    Buffer, Image, Sampler, ShaderModule, PipelineLayout, Pipeline,
    DescriptorSetLayout, DescriptorSet, Swapchain, CommandBuffer, Fence]

  function KindName(kind: Kind): string {
    match kind
    case Buffer => "buffer"
    case Image => "image"
    case ImageView => "image view"
    case Sampler => "sampler"
    case ShaderModule => "shader module"
    case PipelineLayout => "pipeline layout"
    case Pipeline => "pipeline"
    case DescriptorSetLayout => "descriptor set layout"
    case DescriptorSet => "descriptor set"
    case Swapchain => "swapchain"
    case RenderPass => "render pass"
    case Framebuffer => "framebuffer"
    case CommandBuffer => "command buffer"
    case Fence => "fence"
  }

  function NotOwnedMessage(kind: Kind): string {
    KindName(kind) + " is not owned by device"
  }

  function LeakMessage(kind: Kind): string {
    "not all " + KindName(kind) + "s were explicitly destroyed"
  }

  class Device {
    const physicalDevice: PD.PhysicalDevice
    var lists: map<Kind, seq<Handle>>

    ghost predicate Valid()
      reads this
    {
      (forall k: Kind :: k in lists) &&
      (forall k: Kind :: k in lists ==> Distinct(lists[k]))
    }

    constructor (physicalDevice: PD.PhysicalDevice)
      ensures Valid()
      ensures this.physicalDevice == physicalDevice
      ensures forall k: Kind :: lists[k] == []
    {
      this.physicalDevice := physicalDevice;
      lists := map k: Kind {:trigger KindName(k)} | true :: [];
    }

    /**
     * `CreateBuffer` ... `CreateFence`: constructs the object, then appends it
     * at the end of its kind's list.  `constructed` is the outcome of the
     * object's own constructor (`VulkanBuffer.NewBuffer`,
     * `VulkanDescriptorSetLayout.NewDescriptorSetLayout`, ...); when that
     * aborts, nothing is appended.
     */
    method Create(kind: Kind, constructed: Outcome<()>) returns (r: Outcome<Handle>)
      requires Valid()
      modifies this
      ensures Valid()
      ensures r.Ok? <==> constructed.Ok?
      ensures r.Ok? ==> fresh(r.value) && lists == old(lists)[kind := old(lists)[kind] + [r.value]]
      ensures r.Fatal? ==> r.message == constructed.message && lists == old(lists)
    {
      if constructed.Fatal? {
        return Fatal(constructed.message);
      }
      var h := new Handle();
      lists := lists[kind := lists[kind] + [h]];
      r := Ok(h);
    }

    /** `CreateBuffer`: the buffer's constructor, which aborts without a suitable memory type, then the append. */
    method CreateBuffer(desc: G.BufferDesc, propertyFlags: seq<VkFlags>, typeBits: bv32) returns (r: Outcome<Handle>)
      requires Valid() && |propertyFlags| <= Buffers.MAX_MEMORY_TYPES
      modifies this
      ensures Valid()
      ensures r.Ok? <==> exists i: nat :: i < |propertyFlags| && Buffers.Suitable(propertyFlags, typeBits, Buffers.MemoryPropertyFlags(desc.memory), i)
      ensures r.Ok? ==> fresh(r.value) && lists == old(lists)[Buffer := old(lists)[Buffer] + [r.value]]
      ensures r.Fatal? ==> r.message == "unsupported memory requirements" && lists == old(lists)
    {
      var buffer := Buffers.NewBuffer(this, desc, propertyFlags, typeBits);
      r := Create(Buffer, Status(buffer));
    }

    /** `CreateDescriptorSetLayout`: the layout's constructor, which aborts on a type Vulkan cannot express, then the append. */
    method CreateDescriptorSetLayout(desc: G.DescriptorSetLayoutDesc) returns (r: Outcome<Handle>)
      requires Valid()
      modifies this
      ensures Valid()
      ensures r.Ok? <==> forall i :: 0 <= i < |desc.descriptorBindings| ==> Layouts.NativeBindingOf(desc.descriptorBindings[i]).Ok?
      ensures r.Ok? ==> fresh(r.value) && lists == old(lists)[DescriptorSetLayout := old(lists)[DescriptorSetLayout] + [r.value]]
      ensures r.Fatal? ==> r.message == "descriptor type not supported" && lists == old(lists)
    {
      var layout := Layouts.NewDescriptorSetLayout(this, desc);
      r := Create(DescriptorSetLayout, Status(layout));
    }

    /**
     * `DestroyBuffer` ... `DestroyFence`: erases the first entry that is `h`
     * and leaves every other list alone; aborts when the device does not own
     * `h` as an object of that kind.
     */
    method Destroy(kind: Kind, h: Handle) returns (r: Outcome<()>)
      requires Valid()
      modifies this
      ensures Valid()
      ensures r.Ok? <==> h in old(lists)[kind]
      ensures r.Ok? ==> lists == old(lists)[kind := RemoveFirst(old(lists)[kind], h)]
      ensures r.Ok? ==> h !in lists[kind]
      ensures r.Ok? ==> |lists[kind]| == |old(lists)[kind]| - 1
      ensures forall k :: k != kind ==> lists[k] == old(lists)[k]
      ensures r.Fatal? ==> lists == old(lists) && r.message == NotOwnedMessage(kind)
    {
      var list := lists[kind];
      var i := ScanFirst(list, h);
      if i < |list| {
        RemoveFirstDistinct(list, h);
        RemoveFirstOwned(list, h);
        lists := lists[kind := list[..i] + list[i + 1..]];
        r := Ok(());
      } else {
        r := Fatal(NotOwnedMessage(kind));
      }
    }

    /** `kinds[i]` is the first of `kinds` whose list is not empty. */
    ghost predicate FirstLeak(kinds: seq<Kind>, i: int)
      requires Valid()
      reads this
    {
      0 <= i < |kinds| && lists[kinds[i]] != [] && forall j :: 0 <= j < i ==> lists[kinds[j]] == []
    }

    /** The destructor's checks, in order: aborts at the first checked kind whose list is not empty. */
    function Teardown(): (r: Outcome<()>)
      requires Valid()
      reads this
      ensures r.Ok? <==> forall k :: k in CHECKED_AT_TEARDOWN ==> lists[k] == []
      ensures r.Fatal? ==> exists i :: FirstLeak(CHECKED_AT_TEARDOWN, i) && r.message == LeakMessage(CHECKED_AT_TEARDOWN[i])
    {
      CheckEmpty(CHECKED_AT_TEARDOWN)
    }

    function CheckEmpty(kinds: seq<Kind>): (r: Outcome<()>)
      requires Valid()
      reads this
      ensures r.Ok? <==> forall k :: k in kinds ==> lists[k] == []
      ensures r.Fatal? ==> exists i :: FirstLeak(kinds, i) && r.message == LeakMessage(kinds[i])
    {
      if kinds == [] then Ok(())
      else
        var tail := CheckEmpty(kinds[1..]);
        assert forall k :: k in kinds <==> k == kinds[0] || k in kinds[1..];
        if lists[kinds[0]] != [] then
          assert FirstLeak(kinds, 0);
          Then(Assert(lists[kinds[0]] == [], LeakMessage(kinds[0])), tail)
        else
          assert tail.Fatal? ==> exists i :: FirstLeak(kinds, i) && tail.message == LeakMessage(kinds[i]) by {
            if tail.Fatal? {
              var i :| FirstLeak(kinds[1..], i) && tail.message == LeakMessage(kinds[1..][i]);
              FirstLeakShift(kinds, i);
            }
          }
          Then(Assert(lists[kinds[0]] == [], LeakMessage(kinds[0])), tail)
    }

    /** A first leak in the tail is the first leak of the whole list when the head's list is empty. */
    lemma FirstLeakShift(kinds: seq<Kind>, i: int)
      requires Valid() && kinds != [] && lists[kinds[0]] == []
      requires FirstLeak(kinds[1..], i)
      ensures FirstLeak(kinds, i + 1) && kinds[i + 1] == kinds[1..][i]
    {
      forall j | 0 <= j < i + 1
        ensures lists[kinds[j]] == []
      {
        if j > 0 {
          assert kinds[j] == kinds[1..][j - 1];
        }
      }
    }

    /** Image views, render passes and framebuffers are not checked: leaking them never aborts. */
    lemma UncheckedKinds()
      requires Valid()
      requires forall k :: k in CHECKED_AT_TEARDOWN ==> lists[k] == []
      ensures Teardown().Ok?
      ensures ImageView !in CHECKED_AT_TEARDOWN && RenderPass !in CHECKED_AT_TEARDOWN && Framebuffer !in CHECKED_AT_TEARDOWN
    {}

    /** No queue is handed out yet, whatever the queue type. */
    function GetQueue(queueType: G.QueueType): (r: Option<Handle>)
      ensures r == None
    {
      None
    }

    /** The physical device's answer, which is "supported" for every feature. */
    function Supports(feature: G.DeviceFeature): (r: bool)
      ensures r == physicalDevice.Supports(feature)
      ensures r
    {
      physicalDevice.Supports(feature)
    }

    /** The physical device's static limits. */
    function GetLimits(): (r: G.DeviceLimits)
      ensures r == physicalDevice.GetLimits()
      ensures r == PD.STATIC_LIMITS
    {
      physicalDevice.GetLimits()
    }
  }
}
