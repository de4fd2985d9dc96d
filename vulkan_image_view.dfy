/**
 * The Vulkan image view: the image it views, with the descriptor's format
 * and type, and a create info whose subresource range covers the whole
 * image.
 */
module VulkanImageView {
  import opened Wrappers
  import opened Vk
  import G = GlalTypes
  import Common = VulkanCommon
  import Images = VulkanImage

  datatype ImageViewDesc = ImageViewDesc(imageResource: Images.Image, format: G.ImageFormat, imageType: G.ImageType)

  datatype SubresourceRange = SubresourceRange(aspectMask: VkFlags, baseMipLevel: nat, levelCount: G.U32, baseArrayLayer: nat, layerCount: G.U32)

  datatype ImageViewCreateInfo = ImageViewCreateInfo(image: Images.Image, viewType: VkEnum, format: VkEnum, range: SubresourceRange)

  function ToVkImageViewType(imageType: G.ImageType): VkEnum {
    match imageType
    case Type1D => VK_IMAGE_VIEW_TYPE_1D
    case Type2D => VK_IMAGE_VIEW_TYPE_2D
    case Type3D => VK_IMAGE_VIEW_TYPE_3D
  }

  function ViewTypeOf(native: VkEnum): Option<G.ImageType> {
    if native == VK_IMAGE_VIEW_TYPE_1D then Some(G.Type1D)
    else if native == VK_IMAGE_VIEW_TYPE_2D then Some(G.Type2D)
    else if native == VK_IMAGE_VIEW_TYPE_3D then Some(G.Type3D)
    else None
  }

  /** Each image type gets its own view type, of the same dimensionality. */
  lemma ViewTypeRoundTrip(imageType: G.ImageType)
    ensures ViewTypeOf(ToVkImageViewType(imageType)) == Some(imageType)
  {
  }

  /** A subresource range contains a mip level and a layer. */
  predicate Covers(range: SubresourceRange, level: nat, layer: nat) {
    range.baseMipLevel <= level < range.baseMipLevel + range.levelCount
    && range.baseArrayLayer <= layer < range.baseArrayLayer + range.layerCount
  }

  class ImageView {
    const device: object
    const image: Images.Image
    const format: G.ImageFormat
    const imageType: G.ImageType
    const createInfo: ImageViewCreateInfo

    /**
     * The view type and format come from the view's descriptor, through the
     * same format table as the image's; the range is read from the image.
     */
    constructor (device: object, desc: ImageViewDesc)
      ensures this.device == device && image == desc.imageResource
      ensures format == desc.format && imageType == desc.imageType
      ensures createInfo.image == desc.imageResource
      ensures ViewTypeOf(createInfo.viewType) == Some(desc.imageType)
      ensures createInfo.format == Common.ToVkImageFormatCorrected(desc.format)
      ensures createInfo.range.aspectMask == VK_IMAGE_ASPECT_COLOR_BIT
      ensures forall level: nat, layer: nat {:trigger Covers(createInfo.range, level, layer)} ::
        Covers(createInfo.range, level, layer) <==> level < desc.imageResource.mipLevelCount && layer < desc.imageResource.arrayLayerCount
    {
      ViewTypeRoundTrip(desc.imageType);
      this.device := device;
      image := desc.imageResource;
      format := desc.format;
      imageType := desc.imageType;
      createInfo := ImageViewCreateInfo(
        desc.imageResource, ToVkImageViewType(desc.imageType), Common.ToVkImageFormatCorrected(desc.format),
        SubresourceRange(VK_IMAGE_ASPECT_COLOR_BIT, 0, desc.imageResource.GetMipLevelCount(), 0, desc.imageResource.GetArrayLayerCount()));
    }

    function GetImage(): Images.Image { image }
    function GetFormat(): G.ImageFormat { format }
    function GetType(): G.ImageType { imageType }
  }
}
