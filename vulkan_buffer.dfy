/**
 * The Vulkan buffer: usage and memory-property translation, and the search
 * for the first memory type that the buffer accepts and that has every
 * required property.
 */
module VulkanBuffer {
  import opened Log
  import opened Vk
  import G = GlalTypes

  /** Vulkan allows at most this many memory types. */
  const MAX_MEMORY_TYPES: nat := 32

  function UsageFlags(usage: G.BufferUsage): VkFlags {
    match usage
    case Vertex => VK_BUFFER_USAGE_VERTEX_BUFFER_BIT
    case Index => VK_BUFFER_USAGE_INDEX_BUFFER_BIT
    case Uniform => VK_BUFFER_USAGE_UNIFORM_BUFFER_BIT
    case Storage => VK_BUFFER_USAGE_STORAGE_BUFFER_BIT
  }

  /** Each usage maps to exactly one Vulkan usage bit, and distinct usages to distinct bits. */
  lemma UsageFlagsAreDistinctBits(a: G.BufferUsage, b: G.BufferUsage)
    ensures UsageFlags(a) != 0 && UsageFlags(a) & (UsageFlags(a) - 1) == 0
    ensures UsageFlags(a) == UsageFlags(b) ==> a == b
  {
  }

  function MemoryPropertyFlags(memory: G.MemoryUsage): VkFlags {
    match memory
    case DeviceLocal => VK_MEMORY_PROPERTY_DEVICE_LOCAL_BIT
    case HostToDevice => VK_MEMORY_PROPERTY_HOST_VISIBLE_BIT
    case DeviceToHost => VK_MEMORY_PROPERTY_HOST_COHERENT_BIT
  }

  /** Each memory usage requires exactly one memory property, and distinct usages distinct ones. */
  lemma MemoryPropertyFlagsAreDistinctBits(a: G.MemoryUsage, b: G.MemoryUsage)
    ensures MemoryPropertyFlags(a) != 0 && MemoryPropertyFlags(a) & (MemoryPropertyFlags(a) - 1) == 0
    ensures MemoryPropertyFlags(a) == MemoryPropertyFlags(b) ==> a == b
  {
  }

  /** Memory type `i` is accepted by `typeBits` and has every property in `required`. */
  predicate Suitable(propertyFlags: seq<VkFlags>, typeBits: bv32, required: VkFlags, i: nat)
    requires |propertyFlags| <= MAX_MEMORY_TYPES
  {
    i < |propertyFlags| && typeBits & (1 << i) != 0 && propertyFlags[i] & required == required
  }

  /**
   * `find_memory_type_index`: the smallest suitable memory type; fatal when
   * none is.  `propertyFlags[i]` is memory type `i`'s property flags, as the
   * physical device reports them.
   */
  method FindMemoryTypeIndex(propertyFlags: seq<VkFlags>, typeBits: bv32, required: VkFlags) returns (r: Outcome<nat>)
    requires |propertyFlags| <= MAX_MEMORY_TYPES
    ensures r.Ok? ==> Suitable(propertyFlags, typeBits, required, r.value)
    ensures r.Ok? ==> forall j: nat :: j < r.value ==> !Suitable(propertyFlags, typeBits, required, j)
    ensures r.Fatal? <==> forall j: nat :: j < |propertyFlags| ==> !Suitable(propertyFlags, typeBits, required, j)
    ensures r.Fatal? ==> r.message == "unsupported memory requirements"
  {
    var i: nat := 0;
    while i < |propertyFlags|
      invariant i <= |propertyFlags|
      invariant forall j: nat :: j < i ==> !Suitable(propertyFlags, typeBits, required, j)
    {
      if typeBits & (1 << i) != 0 && propertyFlags[i] & required == required {
        assert Suitable(propertyFlags, typeBits, required, i);
        return Ok(i);
      }
      i := i + 1;
    }
    r := Fatal("unsupported memory requirements");
  }

  class Buffer {
    const device: object
    const size: nat
    const usage: G.BufferUsage
    /** The usage flags the native buffer was created with. */
    const usageFlags: VkFlags
    /** The memory type the backing memory was allocated from. */
    const memoryTypeIndex: nat

    constructor (device: object, desc: G.BufferDesc, memoryTypeIndex: nat)
      ensures this.device == device && size == desc.size && usage == desc.usage
      ensures usageFlags == UsageFlags(desc.usage) && this.memoryTypeIndex == memoryTypeIndex
    {
      this.device := device;
      size := desc.size;
      usage := desc.usage;
      usageFlags := UsageFlags(desc.usage);
      this.memoryTypeIndex := memoryTypeIndex;
    }

    function GetSize(): nat {
      size
    }

    function GetUsage(): G.BufferUsage {
      usage
    }

    /** The byte range `Map` maps: all of the buffer, from offset 0. */
    function MappedRange(): (r: (nat, nat))
      ensures r.0 == 0 && r.0 + r.1 == GetSize()
    {
      (0, size)
    }
  }

  /**
   * The constructor: allocates the backing memory from the first suitable
   * memory type for the usage's required property, and is fatal when there
   * is none.  `propertyFlags` and `typeBits` are what the driver reports.
   */
  method NewBuffer(device: object, desc: G.BufferDesc, propertyFlags: seq<VkFlags>, typeBits: bv32) returns (r: Outcome<Buffer>)
    requires |propertyFlags| <= MAX_MEMORY_TYPES
    ensures r.Ok? <==> exists i: nat :: i < |propertyFlags| && Suitable(propertyFlags, typeBits, MemoryPropertyFlags(desc.memory), i)
    ensures r.Ok? ==> fresh(r.value) && r.value.size == desc.size && r.value.usage == desc.usage
    ensures r.Ok? ==> r.value.usageFlags == UsageFlags(desc.usage)
    ensures r.Ok? ==> Suitable(propertyFlags, typeBits, MemoryPropertyFlags(desc.memory), r.value.memoryTypeIndex)
    ensures r.Ok? ==> forall j: nat :: j < r.value.memoryTypeIndex ==> !Suitable(propertyFlags, typeBits, MemoryPropertyFlags(desc.memory), j)
    ensures r.Fatal? ==> r.message == "unsupported memory requirements"
  {
    var index := FindMemoryTypeIndex(propertyFlags, typeBits, MemoryPropertyFlags(desc.memory));
    if index.Fatal? {
      return Fatal(index.message);
    }
    var buffer := new Buffer(device, desc, index.value);
    r := Ok(buffer);
  }
}
