/**
 * Enumerations and plain records of the engine's graphics interface header.
 *
 * Here several enumerations gain a `None` enumerator at value 0, and the
 * device features become bit flags.  The engine's OpenGL backend also uses
 * data types, descriptor bindings and vertex attributes that this header does
 * not declare; for those the model uses the glal shapes of `GlalTypes`.
 */
module FxngTypes {
  import GlalTypes

  type U32 = GlalTypes.U32

  type DeviceFeature = bv32
  const FEATURE_NONE: DeviceFeature := 0
  const FEATURE_COMPUTE: DeviceFeature := 0x1
  const FEATURE_GEOMETRY_SHADER: DeviceFeature := 0x2
  const FEATURE_TESSELLATION: DeviceFeature := 0x4
  const FEATURE_RAY_TRACING: DeviceFeature := 0x8
  const FEATURE_EXPLICIT_BARRIERS: DeviceFeature := 0x10
  const FEATURE_DESCRIPTOR_SETS: DeviceFeature := 0x20
  const FEATURE_TIMELINE_SEMAPHORE: DeviceFeature := 0x40

  type QueueType = bv32
  type ShaderStage = GlalTypes.ShaderStage

  datatype CommandBufferUsage = None | Once | Reusable
  datatype PipelineType = None | Graphics | Compute | RayTracing
  datatype BufferUsage = None | VertexBuffer | IndexBuffer | StorageBuffer
  datatype MemoryUsage = None | DeviceLocal | HostToDevice | DeviceToHost
  datatype ImageFormat = None | RGBA8_UNorm | RGBA8_SRGB | BGRA8_UNorm | RG16F | RGBA16F | RGBA32F | D24S8 | D32F
  datatype Filter = None | Nearest | Linear
  datatype AddressMode = None | Repeat | Clamp | Mirror

  datatype Extent2D = Extent2D(width: int, height: int)
  datatype Extent3D = Extent3D(width: int, height: int, depth: int)
  datatype DeviceLimits = DeviceLimits(maxTextureSize2D: U32, maxUniformBuffers: U32, maxBufferSize: nat)

  datatype BufferDesc = BufferDesc(size: nat, usage: BufferUsage, memory: MemoryUsage)
  datatype ImageDesc = ImageDesc(format: ImageFormat, extent: Extent3D, mipLevels: U32, arrayLayers: U32)
  datatype SwapchainDesc = SwapchainDesc(extent: Extent2D, format: ImageFormat, imageCount: U32)
}
