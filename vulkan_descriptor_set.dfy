/**
 * The Vulkan descriptor set: one set allocated from a pool sized for its
 * layout.  Every bind call appends one descriptor write; `Bind` submits all
 * writes gathered so far.
 */
module VulkanDescriptorSet {
  import opened Wrappers
  import opened Log
  import opened Vk
  import G = GlalTypes
  import VC = VulkanCommon
  import Layouts = VulkanDescriptorSetLayout
  import Buffers = VulkanBuffer
  import Registry

  datatype PoolSize = PoolSize(descriptorType: VkEnum, descriptorCount: G.U32)

  datatype DescriptorInfo =
    | BufferInfo(buffer: Buffers.Buffer, offset: G.U32, range: G.U32)
    | ImageInfo(sampler: object, imageView: object)

  /** One descriptor write: always one descriptor, at array element 0. */
  datatype Write = Write(dstBinding: G.U32, dstArrayElement: nat, descriptorCount: nat, descriptorType: VkEnum, info: DescriptorInfo)

  /** A native call of the destructor: freeing sets from a pool, or destroying a pool. */
  datatype Release = FreeDescriptorSets(pool: Registry.Handle, sets: seq<Registry.Handle>) | DestroyDescriptorPool(pool: Registry.Handle)

  /** No set is freed from a pool after that pool is destroyed. */
  predicate FreedBeforePoolDestroyed(calls: seq<Release>) {
    forall i, j ::
      0 <= i < |calls| && 0 <= j < |calls| && calls[i].FreeDescriptorSets? && calls[j].DestroyDescriptorPool? && calls[j].pool == calls[i].pool
      ==> i < j
  }

  /** The pool entry for one declared binding. */
  function PoolSizeOf(b: G.DescriptorBinding): Outcome<PoolSize> {
    match VC.ToVkDescriptorType(b.descriptorType)
    case Ok(t) => Ok(PoolSize(t, b.count))
    case Fatal(message) => Fatal(message)
  }

  /** A buffer's size passed as a 32-bit size: the low 32 bits. */
  function TruncatedSize(size: nat): (r: G.U32)
    ensures size < G.U32_LIMIT ==> r == size
  {
    size % G.U32_LIMIT
  }

  /**
   * The info a write recorded by a bind call points at: that call's local,
   * live while the call runs and released once it returns.
   */
  datatype InfoSlot = Live(info: DescriptorInfo) | Released

  /** A descriptor write as the library records it: the info is reached through a pointer. */
  datatype RecordedWrite = RecordedWrite(dstBinding: G.U32, dstArrayElement: nat, descriptorCount: nat, descriptorType: VkEnum, pointee: InfoSlot)

  /** The write a bind call records while it runs: it points at the call's live local. */
  function RecordInCall(w: Write): (r: RecordedWrite)
    ensures r.pointee == Live(w.info)
  {
    RecordedWrite(w.dstBinding, w.dstArrayElement, w.descriptorCount, w.descriptorType, Live(w.info))
  }

  /** The same write once the bind call that recorded it has returned: its local is gone. */
  function OnReturn(r: RecordedWrite): (q: RecordedWrite)
    ensures q.pointee == Released
  {
    r.(pointee := Released)
  }

  /** What a pointer reaches: the info while it is live, nothing once it is released. */
  function Deref(slot: InfoSlot): Option<DescriptorInfo> {
    match slot
    case Live(info) => Some(info)
    case Released => None
  }

  /**
   * The writes the library as written submits, after one bind call per
   * write, in order: each bind recorded a pointer to its own local and has
   * returned before `Bind` runs.
   */
  function AsWrittenSubmission(writes: seq<Write>): seq<RecordedWrite> {
    if writes == [] then []
    else AsWrittenSubmission(writes[..|writes| - 1]) + [OnReturn(RecordInCall(writes[|writes| - 1]))]
  }

  /**
   * Every write the library as written submits keeps the bind's binding,
   * element, count and type, but reaches no info: each points at a local of
   * a bind call that has already returned.
   */
  lemma {:induction false} AsWrittenSubmitsReleased(writes: seq<Write>)
    ensures |AsWrittenSubmission(writes)| == |writes|
    ensures forall i :: 0 <= i < |writes| ==>
      var r := AsWrittenSubmission(writes)[i];
      r.dstBinding == writes[i].dstBinding && r.dstArrayElement == writes[i].dstArrayElement &&
      r.descriptorCount == writes[i].descriptorCount && r.descriptorType == writes[i].descriptorType &&
      r.pointee == Released && Deref(r.pointee) == None
  {
    if writes != [] {
      AsWrittenSubmitsReleased(writes[..|writes| - 1]);
    }
  }

  /** One bind already shows it: its write reached the info while the call ran, the submitted write reaches nothing. */
  lemma AsWrittenLosesInfo(w: Write)
    ensures Deref(AsWrittenSubmission([w])[0].pointee) == None
    ensures Deref(RecordInCall(w).pointee) == Some(w.info)
  {
    assert [w][..0] == [];
  }

  class DescriptorSet {
    const device: object
    const layout: Layouts.DescriptorSetLayout
    /** The pool's sizes, one per layout binding. */
    const poolSizes: seq<PoolSize>
    /** How many sets the pool allows; exactly one is allocated, from `layout`. */
    const maxSets: nat
    /** The native pool and the set allocated from it. */
    const pool: Registry.Handle
    const handle: Registry.Handle
    var writes: seq<Write>

    ghost predicate Valid()
      reads this
    {
      layout.Valid() && |poolSizes| == |layout.descriptorBindings| &&
      forall i :: 0 <= i < |poolSizes| ==> PoolSizeOf(layout.descriptorBindings[i]) == Ok(poolSizes[i])
    }

    /**
     * Sizes the pool with one entry per layout binding, in order, each of the
     * binding's declared type and count, lets it hold one set and allocates
     * that set from the layout.
     */
    constructor (device: object, layout: Layouts.DescriptorSetLayout)
      requires layout.Valid()
      ensures Valid()
      ensures this.device == device && this.layout == layout && maxSets == 1 && writes == []
      ensures fresh(pool) && fresh(handle) && pool != handle
    {
      var bindings := layout.descriptorBindings;
      var sizes: seq<PoolSize> := [];
      var i := 0;
      while i < |bindings|
        invariant 0 <= i <= |bindings|
        invariant |sizes| == i
        invariant forall j :: 0 <= j < i ==> PoolSizeOf(bindings[j]) == Ok(sizes[j])
      {
        assert Layouts.NativeBindingOf(bindings[i]) == Ok(layout.nativeBindings[i]);
        var t := VC.ToVkDescriptorType(bindings[i].descriptorType).value;
        sizes := sizes + [PoolSize(t, bindings[i].count)];
        i := i + 1;
      }
      this.device := device;
      this.layout := layout;
      poolSizes := sizes;
      maxSets := 1;
      pool := new Registry.Handle();
      handle := new Registry.Handle();
      writes := [];
    }

    /** Describes `size` bytes from `offset` of the buffer at `binding`, which the layout must declare. */
    method BindBufferRange(binding: G.U32, buffer: Buffers.Buffer, offset: G.U32, size: G.U32)
      requires Valid() && layout.FindDescriptorBinding(binding).Some?
      modifies this
      ensures Valid()
      ensures var declared := layout.FindDescriptorBinding(binding).value;
        VC.ToVkDescriptorType(declared.descriptorType).Ok? &&
        writes == old(writes) + [Write(binding, 0, 1, VC.ToVkDescriptorType(declared.descriptorType).value, BufferInfo(buffer, offset, size))]
    {
      var declared := layout.FindDescriptorBinding(binding).value;
      DeclaredTypeTranslates(binding);
      writes := writes + [Write(binding, 0, 1, VC.ToVkDescriptorType(declared.descriptorType).value, BufferInfo(buffer, offset, size))];
    }

    /** Describes the whole buffer: exactly the range from 0 of the buffer's size in 32 bits. */
    method BindBuffer(binding: G.U32, buffer: Buffers.Buffer)
      requires Valid() && layout.FindDescriptorBinding(binding).Some?
      modifies this
      ensures Valid()
      ensures var declared := layout.FindDescriptorBinding(binding).value;
        VC.ToVkDescriptorType(declared.descriptorType).Ok? &&
        writes == old(writes) + [Write(binding, 0, 1, VC.ToVkDescriptorType(declared.descriptorType).value,
                                       BufferInfo(buffer, 0, TruncatedSize(buffer.GetSize())))]
    {
      BindBufferRange(binding, buffer, 0, TruncatedSize(buffer.GetSize()));
    }

    /** Describes the view and sampler at `binding`, which the layout must declare. */
    method BindImageView(binding: G.U32, imageView: object, sampler: object)
      requires Valid() && layout.FindDescriptorBinding(binding).Some?
      modifies this
      ensures Valid()
      ensures var declared := layout.FindDescriptorBinding(binding).value;
        VC.ToVkDescriptorType(declared.descriptorType).Ok? &&
        writes == old(writes) + [Write(binding, 0, 1, VC.ToVkDescriptorType(declared.descriptorType).value, ImageInfo(sampler, imageView))]
    {
      var declared := layout.FindDescriptorBinding(binding).value;
      DeclaredTypeTranslates(binding);
      writes := writes + [Write(binding, 0, 1, VC.ToVkDescriptorType(declared.descriptorType).value, ImageInfo(sampler, imageView))];
    }

    /** A binding the layout declares has a descriptor type Vulkan can express, as the layout was created. */
    lemma DeclaredTypeTranslates(binding: G.U32)
      requires Valid() && layout.FindDescriptorBinding(binding).Some?
      ensures VC.ToVkDescriptorType(layout.FindDescriptorBinding(binding).value.descriptorType).Ok?
    {
      var declared := layout.FindDescriptorBinding(binding).value;
      var i :| 0 <= i < |layout.descriptorBindings| && layout.descriptorBindings[i] == declared;
      assert Layouts.NativeBindingOf(layout.descriptorBindings[i]).Ok?;
    }

    /**
     * The destructor's native calls: the set is freed from its pool, once,
     * and then the pool is destroyed, once.
     */
    function Dispose(): (calls: seq<Release>)
      ensures |calls| == 2
      ensures FreeDescriptorSets(pool, [handle]) in calls && DestroyDescriptorPool(pool) in calls
      ensures FreedBeforePoolDestroyed(calls)
    {
      [FreeDescriptorSets(pool, [handle]), DestroyDescriptorPool(pool)]
    }

    /**
     * Submits every write gathered so far, in the order the binds made them.
     * Each write holds its info by value, in storage the set owns, so the
     * submitted write still carries the info its bind described.
     */
    method Bind() returns (submitted: seq<Write>)
      ensures submitted == writes
    {
      submitted := writes;
    }
  }
}
