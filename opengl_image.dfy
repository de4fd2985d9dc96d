/**
 * The glal OpenGL image: a texture of the descriptor's dimension with
 * immutable storage for all its mip levels, followed by one upload of the
 * whole extent at level 0.  The texture dimension decides how many of the
 * extent's components the storage and the upload use.
 */
module OpenGLImage {
  import opened GL
  import G = GlalTypes
  import Common = OpenGLCommon

  /** Immutable texture storage: the texture target, its level count, internal format and size. */
  datatype TextureStorage = TextureStorage(target: GLenum, levels: G.U32, internalFormat: GLenum, size: seq<int>)

  /** A texture sub-image upload: level, offset and size per used axis, and the client pixel layout. */
  datatype TextureUpload = TextureUpload(level: nat, offset: seq<nat>, size: seq<int>, externalFormat: GLenum, pixelType: GLenum)

  /** Number of axes a texture of each dimension has. */
  function Axes(dimension: G.ImageDimension): nat {
    match dimension
    case Dim1D => 1
    case Dim2D => 2
    case Dim3D => 3
  }

  function TextureTarget(dimension: G.ImageDimension): (r: GLenum)
    ensures r in {GL_TEXTURE_1D, GL_TEXTURE_2D, GL_TEXTURE_3D}
  {
    match dimension
    case Dim1D => GL_TEXTURE_1D
    case Dim2D => GL_TEXTURE_2D
    case Dim3D => GL_TEXTURE_3D
  }

  /** The extent components a texture of this dimension is given. */
  function UsedExtent(dimension: G.ImageDimension, extent: G.Extent3D): (r: seq<G.U32>)
    ensures |r| == Axes(dimension)
  {
    match dimension
    case Dim1D => [extent.width]
    case Dim2D => [extent.width, extent.height]
    case Dim3D => [extent.width, extent.height, extent.depth]
  }

  /** 1D uses the width only, 2D width and height, 3D all three: a prefix of (width, height, depth). */
  lemma UsedExtentIsPrefix(dimension: G.ImageDimension, extent: G.Extent3D)
    ensures UsedExtent(dimension, extent) == [extent.width, extent.height, extent.depth][..Axes(dimension)]
  {
  }

  /** Distinct dimensions give distinct texture targets. */
  lemma TextureTargetInjective(a: G.ImageDimension, b: G.ImageDimension)
    ensures TextureTarget(a) == TextureTarget(b) ==> a == b
  {
  }

  /** The upload of a whole texture of `size` from offset 0 at level 0, in the format's client layout. */
  function WholeUpload(size: seq<int>, info: Common.FormatInfo): (r: TextureUpload)
    ensures r.level == 0 && |r.offset| == |size| && forall i :: 0 <= i < |r.offset| ==> r.offset[i] == 0
    ensures r.size == size
    ensures r.externalFormat == info.externalFormat && r.pixelType == info.pixelType
  {
    TextureUpload(0, seq(|size|, _ => 0), size, info.externalFormat, info.pixelType)
  }

  class Image {
    const device: object
    const format: G.ImageFormat
    const dimension: G.ImageDimension
    const extent: G.Extent3D
    const mipLevelCount: G.U32
    const arrayLayerCount: G.U32
    const storage: TextureStorage
    const upload: TextureUpload

    constructor (device: object, desc: G.ImageDesc)
      ensures this.device == device && format == desc.format && dimension == desc.dimension
      ensures extent == desc.extent && mipLevelCount == desc.mipLevelCount && arrayLayerCount == desc.arrayLayerCount
      ensures storage.target == TextureTarget(desc.dimension) && storage.levels == desc.mipLevelCount
      ensures storage.internalFormat == Common.TranslateImageFormat(desc.format).internalFormat
      ensures storage.size == UsedExtent(desc.dimension, desc.extent)
      ensures upload == WholeUpload(UsedExtent(desc.dimension, desc.extent), Common.TranslateImageFormat(desc.format))
    {
      var info := Common.TranslateImageFormat(desc.format);
      this.device := device;
      format := desc.format;
      dimension := desc.dimension;
      extent := desc.extent;
      mipLevelCount := desc.mipLevelCount;
      arrayLayerCount := desc.arrayLayerCount;
      storage := TextureStorage(TextureTarget(desc.dimension), desc.mipLevelCount, info.internalFormat, UsedExtent(desc.dimension, desc.extent));
      upload := WholeUpload(UsedExtent(desc.dimension, desc.extent), info);
    }

    function GetFormat(): G.ImageFormat { format }
    function GetDimension(): G.ImageDimension { dimension }
    function GetExtent(): G.Extent3D { extent }
    function GetMipLevelCount(): G.U32 { mipLevelCount }
    function GetArrayLayerCount(): G.U32 { arrayLayerCount }
  }
}
