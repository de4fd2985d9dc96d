/**
 * The engine's OpenGL format table.  Unlike the glal one it knows the
 * engine's `None` format, which yields 0 for every answer.
 */
module EngineGLCommon {
  import opened GL
  import F = FxngTypes
  import G = GlalTypes
  import Glal = OpenGLCommon

  /** The texture format triple of each engine image format. */
  function TranslateFormat(format: F.ImageFormat): (r: Glal.FormatInfo)
    ensures format == F.ImageFormat.None <==> r == Glal.FormatInfo(0, 0, 0)
    ensures format == F.RGBA8_SRGB ==> r.internalFormat == GL_SRGB8_ALPHA8
    ensures format in {F.RGBA8_UNorm, F.BGRA8_UNorm} ==> r.internalFormat == GL_RGBA8
    ensures format == F.RGBA8_UNorm ==> r.externalFormat == GL_RGBA
    ensures format == F.BGRA8_UNorm ==> r.externalFormat == GL_BGRA
    ensures format == F.D24S8 ==> r.internalFormat == GL_DEPTH24_STENCIL8 && r.externalFormat == GL_DEPTH_STENCIL
    ensures format == F.D32F ==> r.internalFormat == GL_DEPTH_COMPONENT32F && r.externalFormat == GL_DEPTH_COMPONENT
  {
    match format
    case None => Glal.FormatInfo(0, 0, 0)
    case RGBA8_UNorm => Glal.FormatInfo(GL_RGBA8, GL_RGBA, GL_UNSIGNED_BYTE)
    case RGBA8_SRGB => Glal.FormatInfo(GL_SRGB8_ALPHA8, GL_RGBA, GL_UNSIGNED_BYTE)
    case BGRA8_UNorm => Glal.FormatInfo(GL_RGBA8, GL_BGRA, GL_UNSIGNED_BYTE)
    case RG16F => Glal.FormatInfo(GL_RG16F, GL_RG, GL_FLOAT)
    case RGBA16F => Glal.FormatInfo(GL_RGBA16F, GL_RGBA, GL_FLOAT)
    case RGBA32F => Glal.FormatInfo(GL_RGBA32F, GL_RGBA, GL_FLOAT)
    case D24S8 => Glal.FormatInfo(GL_DEPTH24_STENCIL8, GL_DEPTH_STENCIL, GL_UNSIGNED_INT_24_8)
    case D32F => Glal.FormatInfo(GL_DEPTH_COMPONENT32F, GL_DEPTH_COMPONENT, GL_FLOAT)
  }

  /** The glal format of the same name; the engine's `None` has none. */
  function GlalFormat(format: F.ImageFormat): (r: G.ImageFormat)
    requires format != F.ImageFormat.None
  {
    match format
    case RGBA8_UNorm => G.RGBA8_UNorm
    case RGBA8_SRGB => G.RGBA8_SRGB
    case BGRA8_UNorm => G.BGRA8_UNorm
    case RG16F => G.RG16F
    case RGBA16F => G.RGBA16F
    case RGBA32F => G.RGBA32F
    case D24S8 => G.D24S8
    case D32F => G.D32F
  }

  /** Apart from `None`, the engine's table is the glal table. */
  lemma AgreesWithGlal(format: F.ImageFormat)
    requires format != F.ImageFormat.None
    ensures TranslateFormat(format) == Glal.TranslateImageFormat(GlalFormat(format))
  {
  }
}
