/**
 * The Vulkan backend's translation tables from glal enumerations to Vulkan
 * enumerants.  Unhandled inputs abort through `Fatal`.
 *
 * The inverse tables (`FilterOf`, `AddressModeOf`, ...) are not part of the
 * backend; each states, by its round-trip lemma, that its table sends
 * distinct inputs to distinct enumerants.
 */
module VulkanCommon {
  import opened Wrappers
  import opened Log
  import opened Vk
  import G = GlalTypes

  function ToVkFilter(filter: G.Filter): VkEnum {
    match filter
    case Nearest => VK_FILTER_NEAREST
    case Linear => VK_FILTER_LINEAR
  }

  function FilterOf(native: VkEnum): Option<G.Filter> {
    if native == VK_FILTER_NEAREST then Some(G.Nearest)
    else if native == VK_FILTER_LINEAR then Some(G.Linear)
    else None
  }

  lemma FilterRoundTrip(filter: G.Filter)
    ensures FilterOf(ToVkFilter(filter)) == Some(filter)
  {}

  function ToVkAddressMode(mode: G.AddressMode): VkEnum {
    match mode
    case Repeat => VK_SAMPLER_ADDRESS_MODE_REPEAT
    case Clamp => VK_SAMPLER_ADDRESS_MODE_CLAMP_TO_EDGE
    case Mirror => VK_SAMPLER_ADDRESS_MODE_MIRRORED_REPEAT
  }

  function AddressModeOf(native: VkEnum): Option<G.AddressMode> {
    if native == VK_SAMPLER_ADDRESS_MODE_REPEAT then Some(G.Repeat)
    else if native == VK_SAMPLER_ADDRESS_MODE_CLAMP_TO_EDGE then Some(G.Clamp)
    else if native == VK_SAMPLER_ADDRESS_MODE_MIRRORED_REPEAT then Some(G.Mirror)
    else None
  }

  lemma AddressModeRoundTrip(mode: G.AddressMode)
    ensures AddressModeOf(ToVkAddressMode(mode)) == Some(mode)
  {}

  function ToVkPipelineBindPoint(pipelineType: G.PipelineType): VkEnum {
    match pipelineType
    case Graphics => VK_PIPELINE_BIND_POINT_GRAPHICS
    case Compute => VK_PIPELINE_BIND_POINT_COMPUTE
    case RayTracing => VK_PIPELINE_BIND_POINT_RAY_TRACING_KHR
  }

  function PipelineTypeOf(native: VkEnum): Option<G.PipelineType> {
    if native == VK_PIPELINE_BIND_POINT_GRAPHICS then Some(G.PipelineType.Graphics)
    else if native == VK_PIPELINE_BIND_POINT_COMPUTE then Some(G.PipelineType.Compute)
    else if native == VK_PIPELINE_BIND_POINT_RAY_TRACING_KHR then Some(G.PipelineType.RayTracing)
    else None
  }

  lemma PipelineBindPointRoundTrip(pipelineType: G.PipelineType)
    ensures PipelineTypeOf(ToVkPipelineBindPoint(pipelineType)) == Some(pipelineType)
  {}

  function ToVkPrimitiveTopology(topology: G.PrimitiveTopology): VkEnum {
    match topology
    case PointList => VK_PRIMITIVE_TOPOLOGY_POINT_LIST
    case LineList => VK_PRIMITIVE_TOPOLOGY_LINE_LIST
    case LineStrip => VK_PRIMITIVE_TOPOLOGY_LINE_STRIP
    case TriangleList => VK_PRIMITIVE_TOPOLOGY_TRIANGLE_LIST
    case TriangleStrip => VK_PRIMITIVE_TOPOLOGY_TRIANGLE_STRIP
    case TriangleFan => VK_PRIMITIVE_TOPOLOGY_TRIANGLE_FAN
  }

  function TopologyOf(native: VkEnum): Option<G.PrimitiveTopology> {
    if native == VK_PRIMITIVE_TOPOLOGY_POINT_LIST then Some(G.PointList)
    else if native == VK_PRIMITIVE_TOPOLOGY_LINE_LIST then Some(G.LineList)
    else if native == VK_PRIMITIVE_TOPOLOGY_LINE_STRIP then Some(G.LineStrip)
    else if native == VK_PRIMITIVE_TOPOLOGY_TRIANGLE_LIST then Some(G.TriangleList)
    else if native == VK_PRIMITIVE_TOPOLOGY_TRIANGLE_STRIP then Some(G.TriangleStrip)
    else if native == VK_PRIMITIVE_TOPOLOGY_TRIANGLE_FAN then Some(G.TriangleFan)
    else None
  }

  lemma PrimitiveTopologyRoundTrip(topology: G.PrimitiveTopology)
    ensures TopologyOf(ToVkPrimitiveTopology(topology)) == Some(topology)
  {}

  /** Only the nine single-bit stages have a Vulkan stage bit; `None` and combined masks abort. */
  function ToVkShaderStage(stage: G.ShaderStage): Outcome<VkFlags> {
    if stage == G.STAGE_VERTEX then Ok(VK_SHADER_STAGE_VERTEX_BIT)
    else if stage == G.STAGE_GEOMETRY then Ok(VK_SHADER_STAGE_GEOMETRY_BIT)
    else if stage == G.STAGE_TESS_CONTROL then Ok(VK_SHADER_STAGE_TESSELLATION_CONTROL_BIT)
    else if stage == G.STAGE_TESS_EVALUATION then Ok(VK_SHADER_STAGE_TESSELLATION_EVALUATION_BIT)
    else if stage == G.STAGE_FRAGMENT then Ok(VK_SHADER_STAGE_FRAGMENT_BIT)
    else if stage == G.STAGE_COMPUTE then Ok(VK_SHADER_STAGE_COMPUTE_BIT)
    else if stage == G.STAGE_RAY_GENERATION then Ok(VK_SHADER_STAGE_RAYGEN_BIT_KHR)
    else if stage == G.STAGE_RAY_HIT then Ok(VK_SHADER_STAGE_CLOSEST_HIT_BIT_KHR)
    else if stage == G.STAGE_RAY_MISS then Ok(VK_SHADER_STAGE_MISS_BIT_KHR)
    else Fatal("shader stage not supported")
  }

  /** The translation is defined exactly on the single-bit stages, and each gets a single Vulkan bit. */
  lemma ShaderStageDefinedOnSingleBits(stage: G.ShaderStage)
    ensures ToVkShaderStage(stage).Ok? <==> stage in G.SINGLE_STAGES
    ensures ToVkShaderStage(stage).Ok? ==>
      var bit := ToVkShaderStage(stage).value; bit != 0 && bit & (bit - 1) == 0
  {}

  /** `None`, and any mask with two or more bits set, is fatal. */
  lemma ShaderStageMasksAreFatal(stage: G.ShaderStage)
    requires stage == G.STAGE_NONE || stage & (stage - 1) != 0
    ensures ToVkShaderStage(stage).Fatal?
  {}

  /** Distinct stages get distinct Vulkan bits. */
  lemma ShaderStageInjective(a: G.ShaderStage, b: G.ShaderStage)
    requires ToVkShaderStage(a).Ok? && ToVkShaderStage(b).Ok?
    requires ToVkShaderStage(a) == ToVkShaderStage(b)
    ensures a == b
  {}

  /** Picks the `count`-component format of a family; only 1 to 4 components exist. */
  function PickCount(count: G.U32, one: VkEnum, two: VkEnum, three: VkEnum, four: VkEnum): Outcome<VkEnum> {
    if count == 1 then Ok(one)
    else if count == 2 then Ok(two)
    else if count == 3 then Ok(three)
    else if count == 4 then Ok(four)
    else Fatal("count not supported")
  }

  /** The vertex-attribute format of `count` components of `dataType`. */
  function ToVkFormat(dataType: G.DataType, count: G.U32): Outcome<VkEnum> {
    match dataType
    case UInt8 => PickCount(count, VK_FORMAT_R8_UINT, VK_FORMAT_R8G8_UINT, VK_FORMAT_R8G8B8_UINT, VK_FORMAT_R8G8B8A8_UINT)
    case UInt16 => PickCount(count, VK_FORMAT_R16_UINT, VK_FORMAT_R16G16_UINT, VK_FORMAT_R16G16B16_UINT, VK_FORMAT_R16G16B16A16_UINT)
    case UInt32 => PickCount(count, VK_FORMAT_R32_UINT, VK_FORMAT_R32G32_UINT, VK_FORMAT_R32G32B32_UINT, VK_FORMAT_R32G32B32A32_UINT)
    case Int8 => PickCount(count, VK_FORMAT_R8_SINT, VK_FORMAT_R8G8_SINT, VK_FORMAT_R8G8B8_SINT, VK_FORMAT_R8G8B8A8_SINT)
    case Int16 => PickCount(count, VK_FORMAT_R16_SINT, VK_FORMAT_R16G16_SINT, VK_FORMAT_R16G16B16_SINT, VK_FORMAT_R16G16B16A16_SINT)
    case Int32 => PickCount(count, VK_FORMAT_R32_SINT, VK_FORMAT_R32G32_SINT, VK_FORMAT_R32G32B32_SINT, VK_FORMAT_R32G32B32A32_SINT)
    case Half => PickCount(count, VK_FORMAT_R16_SFLOAT, VK_FORMAT_R16G16_SFLOAT, VK_FORMAT_R16G16B16_SFLOAT, VK_FORMAT_R16G16B16A16_SFLOAT)
    case Float => PickCount(count, VK_FORMAT_R32_SFLOAT, VK_FORMAT_R32G32_SFLOAT, VK_FORMAT_R32G32B32_SFLOAT, VK_FORMAT_R32G32B32A32_SFLOAT)
    case Fixed => PickCount(count, VK_FORMAT_R32_UINT, VK_FORMAT_R32G32_UINT, VK_FORMAT_R32G32B32_UINT, VK_FORMAT_R32G32B32A32_UINT)
    case Double => PickCount(count, VK_FORMAT_R64_SFLOAT, VK_FORMAT_R64G64_SFLOAT, VK_FORMAT_R64G64B64_SFLOAT, VK_FORMAT_R64G64B64A64_SFLOAT)
    case None => Fatal("data type not supported")
  }

  /** Width in bits of one scalar of a data type, as the Vulkan table encodes it. */
  function ScalarBits(dataType: G.DataType): nat {
    match dataType
    case None => 0
    case UInt8 => 8
    case Int8 => 8
    case UInt16 => 16
    case Int16 => 16
    case Half => 16
    case UInt32 => 32
    case Int32 => 32
    case Float => 32
    case Fixed => 32
    case Double => 64
  }

  function NumericOf(dataType: G.DataType): Numeric {
    match dataType
    case Int8 => SInt
    case Int16 => SInt
    case Int32 => SInt
    case Half => SFloat
    case Float => SFloat
    case Double => SFloat
    case _ => UInt
  }

  /**
   * `ToVkFormat(t, k)` is defined exactly when `t` is not `None` and `k` is 1
   * to 4, and then it is the format of `k` components of `t`'s width and kind.
   */
  lemma ToVkFormatMeaning(dataType: G.DataType, count: G.U32)
    ensures ToVkFormat(dataType, count).Ok? <==> dataType != G.DataType.None && 1 <= count <= 4
    ensures ToVkFormat(dataType, count).Ok? ==>
      Describe(ToVkFormat(dataType, count).value) == Some(FormatInfo(count, ScalarBits(dataType), NumericOf(dataType)))
  {}

  /** A bad data type is reported before a bad count. */
  lemma ToVkFormatMessages(dataType: G.DataType, count: G.U32)
    ensures dataType == G.DataType.None ==> ToVkFormat(dataType, count) == Fatal("data type not supported")
    ensures dataType != G.DataType.None && !(1 <= count <= 4) ==> ToVkFormat(dataType, count) == Fatal("count not supported")
  {}

  /** `Fixed` shares the unsigned 32-bit formats. */
  lemma FixedIsUInt32(count: G.U32)
    ensures ToVkFormat(G.Fixed, count) == ToVkFormat(G.UInt32, count)
  {}

  /** Uniform, storage and the image and sampler types translate; read-only storage and push constants abort. */
  function ToVkDescriptorType(descriptorType: G.DescriptorType): Outcome<VkEnum> {
    match descriptorType
    case UniformBuffer => Ok(VK_DESCRIPTOR_TYPE_UNIFORM_BUFFER)
    case StorageBuffer => Ok(VK_DESCRIPTOR_TYPE_STORAGE_BUFFER)
    case CombinedImageSampler => Ok(VK_DESCRIPTOR_TYPE_COMBINED_IMAGE_SAMPLER)
    case SampledImage => Ok(VK_DESCRIPTOR_TYPE_SAMPLED_IMAGE)
    case StorageImage => Ok(VK_DESCRIPTOR_TYPE_STORAGE_IMAGE)
    case Sampler => Ok(VK_DESCRIPTOR_TYPE_SAMPLER)
    case _ => Fatal("descriptor type not supported")
  }

  function DescriptorTypeOf(native: VkEnum): Option<G.DescriptorType> {
    if native == VK_DESCRIPTOR_TYPE_UNIFORM_BUFFER then Some(G.UniformBuffer)
    else if native == VK_DESCRIPTOR_TYPE_STORAGE_BUFFER then Some(G.StorageBuffer)
    else if native == VK_DESCRIPTOR_TYPE_COMBINED_IMAGE_SAMPLER then Some(G.CombinedImageSampler)
    else if native == VK_DESCRIPTOR_TYPE_SAMPLED_IMAGE then Some(G.SampledImage)
    else if native == VK_DESCRIPTOR_TYPE_STORAGE_IMAGE then Some(G.StorageImage)
    else if native == VK_DESCRIPTOR_TYPE_SAMPLER then Some(G.DescriptorType.Sampler)
    else None
  }

  /** Fatal exactly for read-only storage buffers and push constants; otherwise invertible. */
  lemma DescriptorTypeRoundTrip(descriptorType: G.DescriptorType)
    ensures ToVkDescriptorType(descriptorType).Fatal? <==>
      descriptorType == G.ReadOnlyStorageBuffer || descriptorType == G.PushConstant
    ensures ToVkDescriptorType(descriptorType).Ok? ==>
      DescriptorTypeOf(ToVkDescriptorType(descriptorType).value) == Some(descriptorType)
  {}

  /** Number of colour, depth or stencil channels an image format names. */
  function ChannelCount(format: G.ImageFormat): nat {
    match format
    case RGBA8_UNorm => 4
    case RGBA8_SRGB => 4
    case BGRA8_UNorm => 4
    case RG16F => 2
    case RGBA16F => 4
    case RGBA32F => 4
    case D24S8 => 2
    case D32F => 1
  }

  /**
   * The image-format table as written, used for swapchain images.  Three of
   * its entries name a format with a different number of channels than the
   * image format: see `ImageFormatChannelMismatch`.
   */
  function ToVkImageFormat(format: G.ImageFormat): VkEnum {
    match format
    case RGBA8_UNorm => VK_FORMAT_R8G8B8_UNORM
    case RGBA8_SRGB => VK_FORMAT_R8G8B8A8_SRGB
    case BGRA8_UNorm => VK_FORMAT_B8G8R8_UNORM
    case RG16F => VK_FORMAT_R16G16B16_SFLOAT
    case RGBA16F => VK_FORMAT_R16G16B16A16_SFLOAT
    case RGBA32F => VK_FORMAT_R32G32B32A32_SFLOAT
    case D24S8 => VK_FORMAT_D24_UNORM_S8_UINT
    case D32F => VK_FORMAT_D32_SFLOAT
  }

  /** RGBA8_UNorm and BGRA8_UNorm lose their alpha channel; RG16F gains a blue one. */
  lemma ImageFormatChannelMismatch()
    ensures Describe(ToVkImageFormat(G.RGBA8_UNorm)).value.components == 3 != ChannelCount(G.RGBA8_UNorm)
    ensures Describe(ToVkImageFormat(G.BGRA8_UNorm)).value.components == 3 != ChannelCount(G.BGRA8_UNorm)
    ensures Describe(ToVkImageFormat(G.RG16F)).value.components == 3 != ChannelCount(G.RG16F)
  {}

  /**
   * The corrected table: the one the image and image-view objects use.  Every
   * format keeps its channel count.
   */
  function ToVkImageFormatCorrected(format: G.ImageFormat): (r: VkEnum)
    ensures Describe(r).Some? && Describe(r).value.components == ChannelCount(format)
  {
    match format
    case RGBA8_UNorm => VK_FORMAT_R8G8B8A8_UNORM
    case RGBA8_SRGB => VK_FORMAT_R8G8B8A8_SRGB
    case BGRA8_UNorm => VK_FORMAT_B8G8R8A8_UNORM
    case RG16F => VK_FORMAT_R16G16_SFLOAT
    case RGBA16F => VK_FORMAT_R16G16B16A16_SFLOAT
    case RGBA32F => VK_FORMAT_R32G32B32A32_SFLOAT
    case D24S8 => VK_FORMAT_D24_UNORM_S8_UINT
    case D32F => VK_FORMAT_D32_SFLOAT
  }

  /** The corrected table agrees with the written one except on the three mismatched formats. */
  lemma ImageFormatCorrectionIsMinimal(format: G.ImageFormat)
    ensures ToVkImageFormatCorrected(format) == ToVkImageFormat(format) <==>
      format !in {G.RGBA8_UNorm, G.BGRA8_UNorm, G.RG16F}
  {}
}
