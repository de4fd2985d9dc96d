/**
 * The engine's OpenGL image: always a 3D texture, whatever the descriptor,
 * with storage for all its mip levels over the full extent, followed by
 * one upload of the whole extent at level 0.
 */
module EngineGLImage {
  import opened GL
  import G = GlalTypes
  import F = FxngTypes
  import Common = EngineGLCommon
  import Glal = OpenGLImage

  class Image {
    const device: object
    const format: F.ImageFormat
    const extent: F.Extent3D
    const mipLevels: G.U32
    const storage: Glal.TextureStorage
    const upload: Glal.TextureUpload

    constructor (device: object, desc: F.ImageDesc)
      ensures this.device == device && format == desc.format && extent == desc.extent && mipLevels == desc.mipLevels
      ensures storage.target == GL_TEXTURE_3D && storage.levels == desc.mipLevels
      ensures storage.internalFormat == Common.TranslateFormat(desc.format).internalFormat
      ensures storage.size == [desc.extent.width, desc.extent.height, desc.extent.depth]
      ensures upload == Glal.WholeUpload(storage.size, Common.TranslateFormat(desc.format))
    {
      var info := Common.TranslateFormat(desc.format);
      var size := [desc.extent.width, desc.extent.height, desc.extent.depth];
      this.device := device;
      format := desc.format;
      extent := desc.extent;
      mipLevels := desc.mipLevels;
      storage := Glal.TextureStorage(GL_TEXTURE_3D, desc.mipLevels, info.internalFormat, size);
      upload := Glal.WholeUpload(size, info);
    }

    function GetFormat(): F.ImageFormat { format }
    function GetExtent(): F.Extent3D { extent }
    function GetMipLevels(): G.U32 { mipLevels }
  }
}
