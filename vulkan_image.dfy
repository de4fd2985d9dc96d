/**
 * The Vulkan image: the descriptor's values, kept for the accessors, and the
 * create info built from them.
 */
module VulkanImage {
  import opened Wrappers
  import opened Vk
  import G = GlalTypes
  import Common = VulkanCommon

  /**
   * What the Vulkan image reads from its descriptor.  It reads an image
   * type where the library's descriptor header declares a dimension.
   */
  datatype ImageDesc = ImageDesc(format: G.ImageFormat, imageType: G.ImageType, extent: G.Extent3D, mipLevelCount: G.U32, arrayLayerCount: G.U32)

  /** The fields of the native create info that the descriptor determines. */
  datatype ImageCreateInfo = ImageCreateInfo(imageType: VkEnum, format: VkEnum, extent: G.Extent3D, mipLevels: G.U32, arrayLayers: G.U32, samples: VkFlags)

  function ToVkImageType(imageType: G.ImageType): VkEnum {
    match imageType
    case Type1D => VK_IMAGE_TYPE_1D
    case Type2D => VK_IMAGE_TYPE_2D
    case Type3D => VK_IMAGE_TYPE_3D
  }

  function ImageTypeOf(native: VkEnum): Option<G.ImageType> {
    if native == VK_IMAGE_TYPE_1D then Some(G.Type1D)
    else if native == VK_IMAGE_TYPE_2D then Some(G.Type2D)
    else if native == VK_IMAGE_TYPE_3D then Some(G.Type3D)
    else None
  }

  /** Each image type gets its own Vulkan image type, of the same dimensionality. */
  lemma ImageTypeRoundTrip(imageType: G.ImageType)
    ensures ImageTypeOf(ToVkImageType(imageType)) == Some(imageType)
  {
  }

  class Image {
    const device: object
    const format: G.ImageFormat
    const imageType: G.ImageType
    const extent: G.Extent3D
    const mipLevelCount: G.U32
    const arrayLayerCount: G.U32
    const createInfo: ImageCreateInfo

    /**
     * The image type and format go through their tables (the format table
     * of this file keeps four channels for four-channel formats); extent,
     * mip levels and array layers pass through, with one sample.
     */
    constructor (device: object, desc: ImageDesc)
      ensures this.device == device && format == desc.format && imageType == desc.imageType
      ensures extent == desc.extent && mipLevelCount == desc.mipLevelCount && arrayLayerCount == desc.arrayLayerCount
      ensures ImageTypeOf(createInfo.imageType) == Some(desc.imageType)
      ensures createInfo.format == Common.ToVkImageFormatCorrected(desc.format)
      ensures Describe(createInfo.format).Some? && Describe(createInfo.format).value.components == Common.ChannelCount(desc.format)
      ensures createInfo.extent == desc.extent
      ensures createInfo.mipLevels == desc.mipLevelCount && createInfo.arrayLayers == desc.arrayLayerCount
      ensures createInfo.samples == VK_SAMPLE_COUNT_1_BIT
    {
      ImageTypeRoundTrip(desc.imageType);
      this.device := device;
      format := desc.format;
      imageType := desc.imageType;
      extent := desc.extent;
      mipLevelCount := desc.mipLevelCount;
      arrayLayerCount := desc.arrayLayerCount;
      createInfo := ImageCreateInfo(
        ToVkImageType(desc.imageType), Common.ToVkImageFormatCorrected(desc.format),
        desc.extent, desc.mipLevelCount, desc.arrayLayerCount, VK_SAMPLE_COUNT_1_BIT);
    }

    function GetFormat(): G.ImageFormat { format }
    function GetType(): G.ImageType { imageType }
    function GetExtent(): G.Extent3D { extent }
    function GetMipLevelCount(): G.U32 { mipLevelCount }
    function GetArrayLayerCount(): G.U32 { arrayLayerCount }
  }
}
