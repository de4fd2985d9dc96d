/**
 * The Vulkan enumerants and flag bits the Vulkan backend passes to the
 * driver, with their values from the Vulkan registry, and a reference
 * description of the formats it uses, read off the format names.
 */
module Vk {
  import opened Wrappers

  type VkEnum = nat
  type VkFlags = bv32

  const VK_FILTER_NEAREST: VkEnum := 0
  const VK_FILTER_LINEAR: VkEnum := 1

  const VK_SAMPLER_ADDRESS_MODE_REPEAT: VkEnum := 0
  const VK_SAMPLER_ADDRESS_MODE_MIRRORED_REPEAT: VkEnum := 1
  const VK_SAMPLER_ADDRESS_MODE_CLAMP_TO_EDGE: VkEnum := 2

  const VK_PIPELINE_BIND_POINT_GRAPHICS: VkEnum := 0
  const VK_PIPELINE_BIND_POINT_COMPUTE: VkEnum := 1
  const VK_PIPELINE_BIND_POINT_RAY_TRACING_KHR: VkEnum := 1000165000

  const VK_PRIMITIVE_TOPOLOGY_POINT_LIST: VkEnum := 0
  const VK_PRIMITIVE_TOPOLOGY_LINE_LIST: VkEnum := 1
  const VK_PRIMITIVE_TOPOLOGY_LINE_STRIP: VkEnum := 2
  const VK_PRIMITIVE_TOPOLOGY_TRIANGLE_LIST: VkEnum := 3
  const VK_PRIMITIVE_TOPOLOGY_TRIANGLE_STRIP: VkEnum := 4
  const VK_PRIMITIVE_TOPOLOGY_TRIANGLE_FAN: VkEnum := 5

  const VK_DESCRIPTOR_TYPE_SAMPLER: VkEnum := 0
  const VK_DESCRIPTOR_TYPE_COMBINED_IMAGE_SAMPLER: VkEnum := 1
  const VK_DESCRIPTOR_TYPE_SAMPLED_IMAGE: VkEnum := 2
  const VK_DESCRIPTOR_TYPE_STORAGE_IMAGE: VkEnum := 3
  const VK_DESCRIPTOR_TYPE_UNIFORM_BUFFER: VkEnum := 6
  const VK_DESCRIPTOR_TYPE_STORAGE_BUFFER: VkEnum := 7

  const VK_IMAGE_TYPE_1D: VkEnum := 0
  const VK_IMAGE_TYPE_2D: VkEnum := 1
  const VK_IMAGE_TYPE_3D: VkEnum := 2
  const VK_IMAGE_VIEW_TYPE_1D: VkEnum := 0
  const VK_IMAGE_VIEW_TYPE_2D: VkEnum := 1
  const VK_IMAGE_VIEW_TYPE_3D: VkEnum := 2

  const VK_SHADER_STAGE_VERTEX_BIT: VkFlags := 0x1
  const VK_SHADER_STAGE_TESSELLATION_CONTROL_BIT: VkFlags := 0x2
  const VK_SHADER_STAGE_TESSELLATION_EVALUATION_BIT: VkFlags := 0x4
  const VK_SHADER_STAGE_GEOMETRY_BIT: VkFlags := 0x8
  const VK_SHADER_STAGE_FRAGMENT_BIT: VkFlags := 0x10
  const VK_SHADER_STAGE_COMPUTE_BIT: VkFlags := 0x20
  const VK_SHADER_STAGE_RAYGEN_BIT_KHR: VkFlags := 0x100
  const VK_SHADER_STAGE_CLOSEST_HIT_BIT_KHR: VkFlags := 0x400
  const VK_SHADER_STAGE_MISS_BIT_KHR: VkFlags := 0x800

  const VK_BUFFER_USAGE_UNIFORM_BUFFER_BIT: VkFlags := 0x10
  const VK_BUFFER_USAGE_STORAGE_BUFFER_BIT: VkFlags := 0x20
  const VK_BUFFER_USAGE_INDEX_BUFFER_BIT: VkFlags := 0x40
  const VK_BUFFER_USAGE_VERTEX_BUFFER_BIT: VkFlags := 0x80

  const VK_MEMORY_PROPERTY_DEVICE_LOCAL_BIT: VkFlags := 0x1
  const VK_MEMORY_PROPERTY_HOST_VISIBLE_BIT: VkFlags := 0x2
  const VK_MEMORY_PROPERTY_HOST_COHERENT_BIT: VkFlags := 0x4

  const VK_SAMPLE_COUNT_1_BIT: VkFlags := 0x1
  const VK_IMAGE_ASPECT_COLOR_BIT: VkFlags := 0x1

  const VK_FORMAT_R8_UINT: VkEnum := 13
  const VK_FORMAT_R8_SINT: VkEnum := 14
  const VK_FORMAT_R8G8_UINT: VkEnum := 20
  const VK_FORMAT_R8G8_SINT: VkEnum := 21
  const VK_FORMAT_R8G8B8_UNORM: VkEnum := 23
  const VK_FORMAT_R8G8B8_UINT: VkEnum := 27
  const VK_FORMAT_R8G8B8_SINT: VkEnum := 28
  const VK_FORMAT_B8G8R8_UNORM: VkEnum := 30
  const VK_FORMAT_R8G8B8A8_UNORM: VkEnum := 37
  const VK_FORMAT_R8G8B8A8_UINT: VkEnum := 41
  const VK_FORMAT_R8G8B8A8_SINT: VkEnum := 42
  const VK_FORMAT_R8G8B8A8_SRGB: VkEnum := 43
  const VK_FORMAT_B8G8R8A8_UNORM: VkEnum := 44
  const VK_FORMAT_R16_UINT: VkEnum := 74
  const VK_FORMAT_R16_SINT: VkEnum := 75
  const VK_FORMAT_R16_SFLOAT: VkEnum := 76
  const VK_FORMAT_R16G16_UINT: VkEnum := 81
  const VK_FORMAT_R16G16_SINT: VkEnum := 82
  const VK_FORMAT_R16G16_SFLOAT: VkEnum := 83
  const VK_FORMAT_R16G16B16_UINT: VkEnum := 88
  const VK_FORMAT_R16G16B16_SINT: VkEnum := 89
  const VK_FORMAT_R16G16B16_SFLOAT: VkEnum := 90
  const VK_FORMAT_R16G16B16A16_UINT: VkEnum := 95
  const VK_FORMAT_R16G16B16A16_SINT: VkEnum := 96
  const VK_FORMAT_R16G16B16A16_SFLOAT: VkEnum := 97
  const VK_FORMAT_R32_UINT: VkEnum := 98
  const VK_FORMAT_R32_SINT: VkEnum := 99
  const VK_FORMAT_R32_SFLOAT: VkEnum := 100
  const VK_FORMAT_R32G32_UINT: VkEnum := 101
  const VK_FORMAT_R32G32_SINT: VkEnum := 102
  const VK_FORMAT_R32G32_SFLOAT: VkEnum := 103
  const VK_FORMAT_R32G32B32_UINT: VkEnum := 104
  const VK_FORMAT_R32G32B32_SINT: VkEnum := 105
  const VK_FORMAT_R32G32B32_SFLOAT: VkEnum := 106
  const VK_FORMAT_R32G32B32A32_UINT: VkEnum := 107
  const VK_FORMAT_R32G32B32A32_SINT: VkEnum := 108
  const VK_FORMAT_R32G32B32A32_SFLOAT: VkEnum := 109
  const VK_FORMAT_R64_SFLOAT: VkEnum := 112
  const VK_FORMAT_R64G64_SFLOAT: VkEnum := 115
  const VK_FORMAT_R64G64B64_SFLOAT: VkEnum := 118
  const VK_FORMAT_R64G64B64A64_SFLOAT: VkEnum := 121
  const VK_FORMAT_D32_SFLOAT: VkEnum := 126
  const VK_FORMAT_D24_UNORM_S8_UINT: VkEnum := 129

  /** How a format's components are interpreted. */
  datatype Numeric = UInt | SInt | SFloat | UNorm | Srgb | DepthStencil

  /** What a format is made of: its number of components, the width in bits of its first component, and their kind. */
  datatype FormatInfo = FormatInfo(components: nat, bits: nat, numeric: Numeric)

  /** The description each format used by the backend carries in its name. */
  function Describe(format: VkEnum): Option<FormatInfo> {
    if format == VK_FORMAT_R8_UINT then Some(FormatInfo(1, 8, UInt))
    else if format == VK_FORMAT_R8G8_UINT then Some(FormatInfo(2, 8, UInt))
    else if format == VK_FORMAT_R8G8B8_UINT then Some(FormatInfo(3, 8, UInt))
    else if format == VK_FORMAT_R8G8B8A8_UINT then Some(FormatInfo(4, 8, UInt))
    else if format == VK_FORMAT_R8_SINT then Some(FormatInfo(1, 8, SInt))
    else if format == VK_FORMAT_R8G8_SINT then Some(FormatInfo(2, 8, SInt))
    else if format == VK_FORMAT_R8G8B8_SINT then Some(FormatInfo(3, 8, SInt))
    else if format == VK_FORMAT_R8G8B8A8_SINT then Some(FormatInfo(4, 8, SInt))
    else if format == VK_FORMAT_R16_UINT then Some(FormatInfo(1, 16, UInt))
    else if format == VK_FORMAT_R16G16_UINT then Some(FormatInfo(2, 16, UInt))
    else if format == VK_FORMAT_R16G16B16_UINT then Some(FormatInfo(3, 16, UInt))
    else if format == VK_FORMAT_R16G16B16A16_UINT then Some(FormatInfo(4, 16, UInt))
    else if format == VK_FORMAT_R16_SINT then Some(FormatInfo(1, 16, SInt))
    else if format == VK_FORMAT_R16G16_SINT then Some(FormatInfo(2, 16, SInt))
    else if format == VK_FORMAT_R16G16B16_SINT then Some(FormatInfo(3, 16, SInt))
    else if format == VK_FORMAT_R16G16B16A16_SINT then Some(FormatInfo(4, 16, SInt))
    else if format == VK_FORMAT_R16_SFLOAT then Some(FormatInfo(1, 16, SFloat))
    else if format == VK_FORMAT_R16G16_SFLOAT then Some(FormatInfo(2, 16, SFloat))
    else if format == VK_FORMAT_R16G16B16_SFLOAT then Some(FormatInfo(3, 16, SFloat))
    else if format == VK_FORMAT_R16G16B16A16_SFLOAT then Some(FormatInfo(4, 16, SFloat))
    else if format == VK_FORMAT_R32_UINT then Some(FormatInfo(1, 32, UInt))
    else if format == VK_FORMAT_R32G32_UINT then Some(FormatInfo(2, 32, UInt))
    else if format == VK_FORMAT_R32G32B32_UINT then Some(FormatInfo(3, 32, UInt))
    else if format == VK_FORMAT_R32G32B32A32_UINT then Some(FormatInfo(4, 32, UInt))
    else if format == VK_FORMAT_R32_SINT then Some(FormatInfo(1, 32, SInt))
    else if format == VK_FORMAT_R32G32_SINT then Some(FormatInfo(2, 32, SInt))
    else if format == VK_FORMAT_R32G32B32_SINT then Some(FormatInfo(3, 32, SInt))
    else if format == VK_FORMAT_R32G32B32A32_SINT then Some(FormatInfo(4, 32, SInt))
    else if format == VK_FORMAT_R32_SFLOAT then Some(FormatInfo(1, 32, SFloat))
    else if format == VK_FORMAT_R32G32_SFLOAT then Some(FormatInfo(2, 32, SFloat))
    else if format == VK_FORMAT_R32G32B32_SFLOAT then Some(FormatInfo(3, 32, SFloat))
    else if format == VK_FORMAT_R32G32B32A32_SFLOAT then Some(FormatInfo(4, 32, SFloat))
    else if format == VK_FORMAT_R64_SFLOAT then Some(FormatInfo(1, 64, SFloat))
    else if format == VK_FORMAT_R64G64_SFLOAT then Some(FormatInfo(2, 64, SFloat))
    else if format == VK_FORMAT_R64G64B64_SFLOAT then Some(FormatInfo(3, 64, SFloat))
    else if format == VK_FORMAT_R64G64B64A64_SFLOAT then Some(FormatInfo(4, 64, SFloat))
    else if format == VK_FORMAT_R8G8B8_UNORM then Some(FormatInfo(3, 8, UNorm))
    else if format == VK_FORMAT_B8G8R8_UNORM then Some(FormatInfo(3, 8, UNorm))
    else if format == VK_FORMAT_R8G8B8A8_UNORM then Some(FormatInfo(4, 8, UNorm))
    else if format == VK_FORMAT_B8G8R8A8_UNORM then Some(FormatInfo(4, 8, UNorm))
    else if format == VK_FORMAT_R8G8B8A8_SRGB then Some(FormatInfo(4, 8, Srgb))
    else if format == VK_FORMAT_D24_UNORM_S8_UINT then Some(FormatInfo(2, 24, DepthStencil))
    else if format == VK_FORMAT_D32_SFLOAT then Some(FormatInfo(1, 32, SFloat))
    else None
  }
}
