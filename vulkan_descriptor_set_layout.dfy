/**
 * The Vulkan descriptor set layout: a copy of the declared bindings, and the
 * native binding array handed to the driver, with each binding's shader
 * stages translated bit by bit.
 */
module VulkanDescriptorSetLayout {
  import opened Wrappers
  import opened Log
  import opened Vk
  import VC = VulkanCommon
  import G = GlalTypes
  import Registry

  /** One entry of the native binding array. */
  datatype NativeBinding = NativeBinding(binding: G.U32, descriptorType: VkEnum, descriptorCount: G.U32, stageFlags: VkFlags)

  /** `bit` when `stage` is set in `stages`, no flags otherwise. */
  function BitIf(stages: G.ShaderStage, stage: G.ShaderStage, bit: VkFlags): VkFlags {
    if stages & stage != 0 then bit else 0
  }

  /** The Vulkan stage flags of a stage mask: one Vulkan bit for each stage bit set. */
  function StageFlags(stages: G.ShaderStage): VkFlags {
    BitIf(stages, G.STAGE_VERTEX, VK_SHADER_STAGE_VERTEX_BIT) |
    BitIf(stages, G.STAGE_GEOMETRY, VK_SHADER_STAGE_GEOMETRY_BIT) |
    BitIf(stages, G.STAGE_TESS_CONTROL, VK_SHADER_STAGE_TESSELLATION_CONTROL_BIT) |
    BitIf(stages, G.STAGE_TESS_EVALUATION, VK_SHADER_STAGE_TESSELLATION_EVALUATION_BIT) |
    BitIf(stages, G.STAGE_FRAGMENT, VK_SHADER_STAGE_FRAGMENT_BIT) |
    BitIf(stages, G.STAGE_COMPUTE, VK_SHADER_STAGE_COMPUTE_BIT) |
    BitIf(stages, G.STAGE_RAY_GENERATION, VK_SHADER_STAGE_RAYGEN_BIT_KHR) |
    BitIf(stages, G.STAGE_RAY_HIT, VK_SHADER_STAGE_CLOSEST_HIT_BIT_KHR) |
    BitIf(stages, G.STAGE_RAY_MISS, VK_SHADER_STAGE_MISS_BIT_KHR)
  }

  /**
   * A stage bit is set in the mask exactly when its Vulkan bit, as
   * `ToVkShaderStage` translates that single stage, is set in the flags.
   */
  lemma StageFlagsBitByBit(stages: G.ShaderStage, stage: G.ShaderStage)
    requires stage in G.SINGLE_STAGES
    ensures VC.ToVkShaderStage(stage).Ok?
    ensures stages & stage != 0 <==> StageFlags(stages) & VC.ToVkShaderStage(stage).value != 0
  {
    VC.ShaderStageDefinedOnSingleBits(stage);
  }

  /** No stage gives no flags, and a single stage gives the bit `ToVkShaderStage` translates it to. */
  lemma StageFlagsOfSingleStages(stage: G.ShaderStage)
    ensures StageFlags(G.STAGE_NONE) == 0
    ensures stage in G.SINGLE_STAGES ==> StageFlags(stage) == VC.ToVkShaderStage(stage).value
  {
  }

  /** The native entry of one binding; an untranslatable descriptor type is fatal. */
  function NativeBindingOf(b: G.DescriptorBinding): (r: Outcome<NativeBinding>)
    ensures r.Ok? <==> b.descriptorType !in {G.ReadOnlyStorageBuffer, G.PushConstant}
    ensures r.Ok? ==> r.value.binding == b.binding && r.value.descriptorCount == b.count
    ensures r.Ok? ==> r.value.stageFlags == StageFlags(b.stages)
    ensures r.Ok? ==> VC.DescriptorTypeOf(r.value.descriptorType) == Some(b.descriptorType)
    ensures r.Fatal? ==> r.message == "descriptor type not supported"
  {
    VC.DescriptorTypeRoundTrip(b.descriptorType);
    match VC.ToVkDescriptorType(b.descriptorType)
    case Ok(descriptorType) => Ok(NativeBinding(b.binding, descriptorType, b.count, StageFlags(b.stages)))
    case Fatal(message) => Fatal(message)
  }

  class DescriptorSetLayout {
    const device: object
    const setIndex: G.U32
    const descriptorBindings: seq<G.DescriptorBinding>
    /** The binding array the native layout was created from. */
    const nativeBindings: seq<NativeBinding>
    /** The native layout the driver created from `nativeBindings`. */
    const handle: Registry.Handle

    ghost predicate Valid() {
      |nativeBindings| == |descriptorBindings| &&
      forall i :: 0 <= i < |descriptorBindings| ==> NativeBindingOf(descriptorBindings[i]) == Ok(nativeBindings[i])
    }

    constructor (device: object, desc: G.DescriptorSetLayoutDesc, nativeBindings: seq<NativeBinding>, handle: Registry.Handle)
      ensures this.device == device && setIndex == desc.setIndex && descriptorBindings == desc.descriptorBindings
      ensures this.nativeBindings == nativeBindings && this.handle == handle
    {
      this.device := device;
      setIndex := desc.setIndex;
      descriptorBindings := desc.descriptorBindings;
      this.nativeBindings := nativeBindings;
      this.handle := handle;
    }

    function GetHandle(): Registry.Handle {
      handle
    }

    function GetSet(): G.U32 {
      setIndex
    }

    function GetDescriptorBindingCount(): nat {
      |descriptorBindings|
    }

    /** The `index`-th binding; an index past the end is fatal. */
    function GetDescriptorBinding(index: nat): (r: Outcome<G.DescriptorBinding>)
      ensures r.Ok? <==> index < GetDescriptorBindingCount()
      ensures r.Ok? ==> r.value == descriptorBindings[index]
    {
      if index < |descriptorBindings| then Ok(descriptorBindings[index]) else Fatal("out of range")
    }

    /** The first binding numbered `binding`, or none when no binding is. */
    function FindDescriptorBinding(binding: G.U32): (r: Option<G.DescriptorBinding>)
      ensures r.Some? <==> exists i :: 0 <= i < |descriptorBindings| && descriptorBindings[i].binding == binding
      ensures r.Some? ==> r.value.binding == binding
      ensures r.Some? ==> exists i :: 0 <= i < |descriptorBindings| && descriptorBindings[i] == r.value &&
                                      forall j :: 0 <= j < i ==> descriptorBindings[j].binding != binding
    {
      var i := G.FirstWithBinding(descriptorBindings, binding);
      if i < |descriptorBindings| then Some(descriptorBindings[i]) else None
    }
  }

  /**
   * The constructor: translates every binding into the native array, in
   * order, and is fatal at the first binding whose descriptor type Vulkan
   * cannot express.
   */
  method NewDescriptorSetLayout(device: object, desc: G.DescriptorSetLayoutDesc) returns (r: Outcome<DescriptorSetLayout>)
    ensures r.Ok? <==> forall i :: 0 <= i < |desc.descriptorBindings| ==> NativeBindingOf(desc.descriptorBindings[i]).Ok?
    ensures r.Ok? ==> fresh(r.value) && fresh(r.value.handle) && r.value.Valid()
    ensures r.Ok? ==> r.value.setIndex == desc.setIndex && r.value.descriptorBindings == desc.descriptorBindings
    ensures r.Fatal? ==> r.message == "descriptor type not supported"
  {
    var bindings := desc.descriptorBindings;
    var native: seq<NativeBinding> := [];
    var i := 0;
    while i < |bindings|
      invariant 0 <= i <= |bindings|
      invariant |native| == i
      invariant forall j :: 0 <= j < i ==> NativeBindingOf(bindings[j]) == Ok(native[j])
    {
      var entry := NativeBindingOf(bindings[i]);
      if entry.Fatal? {
        return Fatal(entry.message);
      }
      native := native + [entry.value];
      i := i + 1;
    }
    var handle := new Registry.Handle();
    var layout := new DescriptorSetLayout(device, desc, native, handle);
    r := Ok(layout);
  }
}
