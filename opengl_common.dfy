/**
 * The glal OpenGL backend's two translation tables: image formats to the
 * (internal format, external format, pixel type) triple of a texture, and
 * vertex/index data types to (byte size, GL type, normalized).
 *
 * The C++ functions write each answer through an optional output pointer
 * and never through a null one; here the function returns all three answers
 * and each caller takes the ones it asked for, so an unrequested answer is
 * never observable.
 */
module OpenGLCommon {
  import opened Log
  import opened GL
  import G = GlalTypes

  datatype FormatInfo = FormatInfo(internalFormat: GLenum, externalFormat: GLenum, pixelType: GLenum)
  datatype DataTypeInfo = DataTypeInfo(size: G.U32, glType: GLenum, normalized: bool)

  /** The texture format triple of each image format. */
  function TranslateImageFormat(format: G.ImageFormat): (r: FormatInfo)
    ensures format == G.BGRA8_UNorm ==> r.internalFormat == GL_RGBA8 && r.externalFormat == GL_BGRA
    ensures format == G.D24S8 ==> r == FormatInfo(GL_DEPTH24_STENCIL8, GL_DEPTH_STENCIL, GL_UNSIGNED_INT_24_8)
    ensures format == G.D32F ==> r == FormatInfo(GL_DEPTH_COMPONENT32F, GL_DEPTH_COMPONENT, GL_FLOAT)
    ensures format in {G.RG16F, G.RGBA16F, G.RGBA32F} ==> r.pixelType == GL_FLOAT
  {
    match format
    case RGBA8_UNorm => FormatInfo(GL_RGBA8, GL_RGBA, GL_UNSIGNED_BYTE)
    case RGBA8_SRGB => FormatInfo(GL_SRGB8_ALPHA8, GL_RGBA, GL_UNSIGNED_BYTE)
    case BGRA8_UNorm => FormatInfo(GL_RGBA8, GL_BGRA, GL_UNSIGNED_BYTE)
    case RG16F => FormatInfo(GL_RG16F, GL_RG, GL_FLOAT)
    case RGBA16F => FormatInfo(GL_RGBA16F, GL_RGBA, GL_FLOAT)
    case RGBA32F => FormatInfo(GL_RGBA32F, GL_RGBA, GL_FLOAT)
    case D24S8 => FormatInfo(GL_DEPTH24_STENCIL8, GL_DEPTH_STENCIL, GL_UNSIGNED_INT_24_8)
    case D32F => FormatInfo(GL_DEPTH_COMPONENT32F, GL_DEPTH_COMPONENT, GL_FLOAT)
  }

  /**
   * No two formats share both internal and external format: the two 8-bit
   * unsigned-normalised formats share internal RGBA8 and differ only in
   * channel order.
   */
  lemma ImageFormatsAreDistinguishable(a: G.ImageFormat, b: G.ImageFormat)
    ensures var (x, y) := (TranslateImageFormat(a), TranslateImageFormat(b));
      (x.internalFormat, x.externalFormat) == (y.internalFormat, y.externalFormat) ==> a == b
    ensures var (x, y) := (TranslateImageFormat(a), TranslateImageFormat(b));
      (x.internalFormat == y.internalFormat && a != b) <==> {a, b} == {G.RGBA8_UNorm, G.BGRA8_UNorm}
  {
  }

  /** The depth formats are exactly those uploaded with a depth external format. */
  lemma DepthFormats(format: G.ImageFormat)
    ensures TranslateImageFormat(format).externalFormat in {GL_DEPTH_STENCIL, GL_DEPTH_COMPONENT}
        <==> format in {G.D24S8, G.D32F}
  {
  }

  /** Size in bytes of each OpenGL scalar type, as the OpenGL specification fixes it. */
  function GLTypeSize(glType: GLenum): (r: nat)
    ensures glType in {GL_UNSIGNED_BYTE, GL_BYTE} ==> r == 1
  {
    if glType in {GL_UNSIGNED_BYTE, GL_BYTE} then 1
    else if glType in {GL_UNSIGNED_SHORT, GL_SHORT, GL_HALF_FLOAT} then 2
    else if glType in {GL_UNSIGNED_INT, GL_INT, GL_FLOAT, GL_FIXED} then 4
    else if glType == GL_DOUBLE then 8
    else 0
  }

  /** The attribute and index translation; an unset data type is fatal. */
  function TranslateDataType(dataType: G.DataType): (r: Outcome<DataTypeInfo>)
    ensures r.Fatal? <==> dataType == G.DataType.None
    ensures r.Fatal? ==> r.message == "data type is not set"
    ensures r.Ok? ==> (r.value.normalized <==> dataType in {G.UInt8, G.Int8})
  {
    match dataType
    case None => Fatal("data type is not set")
    case UInt8 => Ok(DataTypeInfo(1, GL_UNSIGNED_BYTE, true))
    case UInt16 => Ok(DataTypeInfo(2, GL_UNSIGNED_SHORT, false))
    case UInt32 => Ok(DataTypeInfo(4, GL_UNSIGNED_INT, false))
    case Int8 => Ok(DataTypeInfo(1, GL_BYTE, true))
    case Int16 => Ok(DataTypeInfo(2, GL_SHORT, false))
    case Int32 => Ok(DataTypeInfo(4, GL_INT, false))
    case Half => Ok(DataTypeInfo(2, GL_HALF_FLOAT, false))
    case Float => Ok(DataTypeInfo(4, GL_FLOAT, false))
    case Fixed => Ok(DataTypeInfo(4, GL_FIXED, false))
    case Double => Ok(DataTypeInfo(8, GL_DOUBLE, false))
  }

  /** The byte size a data type gets: 1, 2, 4 or 8 by width. */
  lemma DataTypeSizes(dataType: G.DataType)
    requires dataType != G.DataType.None
    ensures var size := TranslateDataType(dataType).value.size;
      (dataType in {G.UInt8, G.Int8} ==> size == 1)
      && (dataType in {G.UInt16, G.Int16, G.Half} ==> size == 2)
      && (dataType in {G.UInt32, G.Int32, G.Float, G.Fixed} ==> size == 4)
      && (dataType == G.Double ==> size == 8)
  {
  }

  /**
   * Each data type gets a distinct GL type, and the size the table reports
   * is the size OpenGL gives that GL type.
   */
  lemma DataTypeAgreesWithGLType(a: G.DataType, b: G.DataType)
    requires a != G.DataType.None && b != G.DataType.None
    ensures TranslateDataType(a).value.size == GLTypeSize(TranslateDataType(a).value.glType)
    ensures TranslateDataType(a).value.glType == TranslateDataType(b).value.glType ==> a == b
  {
  }

  /**
   * One vertex attribute as the vertex array is told about it: enabled at
   * its location, fed from its binding, with its component count, GL type,
   * normalisation and relative offset.
   */
  datatype AttribFormat = AttribFormat(location: G.U32, binding: G.U32, count: G.U32, glType: GLenum, normalized: bool, offset: G.U32)

  /** The vertex-array setup of one attribute; an unset data type is fatal. */
  function AttribFormatOf(attribute: G.VertexAttribute): (r: Outcome<AttribFormat>)
    ensures r.Ok? <==> attribute.dataType != G.DataType.None
    ensures r.Ok? ==> (r.value.location, r.value.binding) == (attribute.location, attribute.binding)
    ensures r.Ok? ==> (r.value.count, r.value.offset) == (attribute.count, attribute.offset)
    ensures r.Ok? ==> var info := TranslateDataType(attribute.dataType).value;
      r.value.glType == info.glType && r.value.normalized == info.normalized
  {
    match TranslateDataType(attribute.dataType)
    case Fatal(message) => Fatal(message)
    case Ok(info) => Ok(AttribFormat(attribute.location, attribute.binding, attribute.count, info.glType, info.normalized, attribute.offset))
  }
}
