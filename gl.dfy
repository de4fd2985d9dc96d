/**
 * The OpenGL enumerants the backends pass to the driver, with their values
 * from the OpenGL registry.  A native OpenGL enumerant is a 32-bit unsigned
 * number; 0 is the "no value" the backends write for unhandled inputs.
 */
module GL {
  type GLenum = nat

  const GL_BYTE: GLenum := 0x1400
  const GL_UNSIGNED_BYTE: GLenum := 0x1401
  const GL_SHORT: GLenum := 0x1402
  const GL_UNSIGNED_SHORT: GLenum := 0x1403
  const GL_INT: GLenum := 0x1404
  const GL_UNSIGNED_INT: GLenum := 0x1405
  const GL_FLOAT: GLenum := 0x1406
  const GL_DOUBLE: GLenum := 0x140A
  const GL_HALF_FLOAT: GLenum := 0x140B
  const GL_FIXED: GLenum := 0x140C

  const GL_DEPTH_COMPONENT: GLenum := 0x1902
  const GL_RGBA: GLenum := 0x1908
  const GL_RG: GLenum := 0x8227
  const GL_BGRA: GLenum := 0x80E1
  const GL_DEPTH_STENCIL: GLenum := 0x84F9

  const GL_RGBA8: GLenum := 0x8058
  const GL_SRGB8_ALPHA8: GLenum := 0x8C43
  const GL_RG16F: GLenum := 0x822F
  const GL_RGBA16F: GLenum := 0x881A
  const GL_RGBA32F: GLenum := 0x8814
  const GL_DEPTH24_STENCIL8: GLenum := 0x88F0
  const GL_DEPTH_COMPONENT32F: GLenum := 0x8CAC
  const GL_UNSIGNED_INT_24_8: GLenum := 0x84FA

  const GL_TEXTURE_1D: GLenum := 0x0DE0
  const GL_TEXTURE_2D: GLenum := 0x0DE1
  const GL_TEXTURE_3D: GLenum := 0x806F

  const GL_TEXTURE_MAG_FILTER: GLenum := 0x2800
  const GL_TEXTURE_MIN_FILTER: GLenum := 0x2801
  const GL_TEXTURE_WRAP_S: GLenum := 0x2802
  const GL_TEXTURE_WRAP_T: GLenum := 0x2803
  const GL_TEXTURE_WRAP_R: GLenum := 0x8072

  const GL_NEAREST: GLenum := 0x2600
  const GL_LINEAR: GLenum := 0x2601
  const GL_REPEAT: GLenum := 0x2901
  const GL_CLAMP_TO_EDGE: GLenum := 0x812F
  const GL_MIRRORED_REPEAT: GLenum := 0x8370

  const GL_FRAGMENT_SHADER: GLenum := 0x8B30
  const GL_VERTEX_SHADER: GLenum := 0x8B31
  const GL_GEOMETRY_SHADER: GLenum := 0x8DD9
  const GL_TESS_EVALUATION_SHADER: GLenum := 0x8E87
  const GL_TESS_CONTROL_SHADER: GLenum := 0x8E88
  const GL_COMPUTE_SHADER: GLenum := 0x91B9
  const GL_SHADER_BINARY_FORMAT_SPIR_V: GLenum := 0x9551

  const GL_MAP_READ_BIT: GLenum := 0x0001
  const GL_MAP_WRITE_BIT: GLenum := 0x0002
  const GL_READ_ONLY: GLenum := 0x88B8
  const GL_WRITE_ONLY: GLenum := 0x88B9

  const GL_UNIFORM_BUFFER: GLenum := 0x8A11
  const GL_SHADER_STORAGE_BUFFER: GLenum := 0x90D2

  const GL_COLOR_ATTACHMENT0: GLenum := 0x8CE0
  const GL_DEPTH_ATTACHMENT: GLenum := 0x8D00
  const GL_STENCIL_ATTACHMENT: GLenum := 0x8D20

  const GL_DEBUG_SOURCE_API: GLenum := 0x8246
  const GL_DEBUG_SOURCE_WINDOW_SYSTEM: GLenum := 0x8247
  const GL_DEBUG_SOURCE_SHADER_COMPILER: GLenum := 0x8248
  const GL_DEBUG_SOURCE_THIRD_PARTY: GLenum := 0x8249
  const GL_DEBUG_SOURCE_APPLICATION: GLenum := 0x824A
  const GL_DEBUG_SOURCE_OTHER: GLenum := 0x824B
  const GL_DEBUG_TYPE_ERROR: GLenum := 0x824C
  const GL_DEBUG_TYPE_DEPRECATED_BEHAVIOR: GLenum := 0x824D
  const GL_DEBUG_TYPE_UNDEFINED_BEHAVIOR: GLenum := 0x824E
  const GL_DEBUG_TYPE_PORTABILITY: GLenum := 0x824F
  const GL_DEBUG_TYPE_PERFORMANCE: GLenum := 0x8250
  const GL_DEBUG_TYPE_OTHER: GLenum := 0x8251
  const GL_DEBUG_TYPE_MARKER: GLenum := 0x8268
  const GL_DEBUG_TYPE_PUSH_GROUP: GLenum := 0x8269
  const GL_DEBUG_TYPE_POP_GROUP: GLenum := 0x826A
  const GL_DEBUG_SEVERITY_NOTIFICATION: GLenum := 0x826B
  const GL_DEBUG_SEVERITY_HIGH: GLenum := 0x9146
  const GL_DEBUG_SEVERITY_MEDIUM: GLenum := 0x9147
  const GL_DEBUG_SEVERITY_LOW: GLenum := 0x9148
}
