/**
 * Enumerations and plain records of the glal library (its enum, common and
 * descriptor headers).  Both glal backends use these shapes.
 *
 * Enumerations whose values are bit flags (`QueueType`, `ShaderStage`) are
 * 32-bit masks; the other enumerations are datatypes of their enumerators.
 * Unsigned 32-bit fields are `U32`, 64-bit and size fields are `nat`.
 */
module GlalTypes {
  const U32_LIMIT: int := 0x1_0000_0000
  type U32 = x: int | 0 <= x < U32_LIMIT

  datatype AddressMode = Repeat | Clamp | Mirror
  datatype BufferUsage = Vertex | Index | Uniform | Storage
  datatype CommandBufferUsage = Once | Reusable
  datatype DataType = None | UInt8 | UInt16 | UInt32 | Int8 | Int16 | Int32 | Half | Float | Fixed | Double
  datatype DescriptorType =
    | UniformBuffer | StorageBuffer | ReadOnlyStorageBuffer
    | CombinedImageSampler | SampledImage | StorageImage | Sampler | PushConstant
  datatype DeviceFeature =
    | Compute | GeometryShader | Tessellation | RayTracing
    | ExplicitBarriers | DescriptorSets | TimelineSemaphore
  datatype Filter = Nearest | Linear
  datatype ImageType = Type1D | Type2D | Type3D
  datatype ImageFormat = RGBA8_UNorm | RGBA8_SRGB | BGRA8_UNorm | RG16F | RGBA16F | RGBA32F | D24S8 | D32F
  datatype MemoryUsage = DeviceLocal | HostToDevice | DeviceToHost
  datatype PipelineType = Graphics | Compute | RayTracing

  /**
   * The OpenGL backend's image dimension.  Its enumeration is declared in
   * none of the library's headers; the backend uses exactly these three.
   */
  datatype ImageDimension = Dim1D | Dim2D | Dim3D

  /** The primitive topologies the Vulkan translation table names. */
  datatype PrimitiveTopology = PointList | LineList | LineStrip | TriangleList | TriangleStrip | TriangleFan

  type QueueType = bv32
  const QUEUE_NONE: QueueType := 0
  const QUEUE_GRAPHICS: QueueType := 1
  const QUEUE_COMPUTE: QueueType := 2
  const QUEUE_TRANSFER: QueueType := 4
  const QUEUE_PRESENT: QueueType := 8

  type ShaderStage = bv32
  const STAGE_NONE: ShaderStage := 0
  const STAGE_VERTEX: ShaderStage := 0x1
  const STAGE_GEOMETRY: ShaderStage := 0x2
  const STAGE_TESS_CONTROL: ShaderStage := 0x4
  const STAGE_TESS_EVALUATION: ShaderStage := 0x8
  const STAGE_FRAGMENT: ShaderStage := 0x10
  const STAGE_COMPUTE: ShaderStage := 0x20
  const STAGE_RAY_GENERATION: ShaderStage := 0x40
  const STAGE_RAY_HIT: ShaderStage := 0x80
  const STAGE_RAY_MISS: ShaderStage := 0x100

  /** The nine single-bit stages, in declaration order. */
  const SINGLE_STAGES: seq<ShaderStage> := [
    STAGE_VERTEX, STAGE_GEOMETRY, STAGE_TESS_CONTROL, STAGE_TESS_EVALUATION, STAGE_FRAGMENT,
    STAGE_COMPUTE, STAGE_RAY_GENERATION, STAGE_RAY_HIT, STAGE_RAY_MISS]

  datatype DescriptorBinding = DescriptorBinding(binding: U32, descriptorType: DescriptorType, count: U32, stages: ShaderStage)
  datatype DeviceLimits = DeviceLimits(maxTextureSize2D: U32, maxUniformBuffers: U32, maxBufferSize: nat)
  datatype Extent2D = Extent2D(width: U32, height: U32)
  datatype Extent3D = Extent3D(width: U32, height: U32, depth: U32)
  datatype VertexAttribute = VertexAttribute(binding: U32, location: U32, dataType: DataType, count: U32, offset: U32)
  /** A vertex buffer binding point and its stride; no header declares it, the backends read these two fields. */
  datatype VertexBinding = VertexBinding(binding: U32, stride: U32)

  datatype BufferDesc = BufferDesc(size: nat, usage: BufferUsage, memory: MemoryUsage)
  datatype ImageDesc = ImageDesc(format: ImageFormat, dimension: ImageDimension, extent: Extent3D, mipLevelCount: U32, arrayLayerCount: U32)
  datatype SamplerDesc = SamplerDesc(minFilter: Filter, magFilter: Filter, addressU: AddressMode, addressV: AddressMode, addressW: AddressMode)
  datatype SwapchainDesc = SwapchainDesc(extent: Extent2D, format: ImageFormat, imageCount: U32)
  /** A descriptor's array and its count are one sequence of that length. */
  datatype DescriptorSetLayoutDesc = DescriptorSetLayoutDesc(setIndex: U32, descriptorBindings: seq<DescriptorBinding>)

  /** Index of the first binding numbered `binding`, or `|bindings|` when no binding is. */
  function FirstWithBinding(bindings: seq<DescriptorBinding>, binding: U32): (i: nat)
    ensures i <= |bindings|
    ensures i < |bindings| ==> bindings[i].binding == binding
    ensures forall j :: 0 <= j < i ==> bindings[j].binding != binding
  {
    if |bindings| == 0 then 0
    else if bindings[0].binding == binding then 0
    else 1 + FirstWithBinding(bindings[1..], binding)
  }
}
