/**
 * The glal OpenGL swapchain: a ring of `imageCount` slots, each holding an
 * image made by the device, a view of that image, and the fence of the frame
 * last handed that slot.  Acquiring advances the current slot, then hands it
 * out; presenting shows the current slot's view.
 */
module OpenGLSwapchain {
  import opened Registry
  import opened Log
  import opened FrameRing
  import G = GlalTypes
  import Dev = OpenGLDevice
  import Fences = OpenGLFence

  /** A view of one slot image; it does not own the image. */
  class ImageView {
    const image: Handle

    constructor (image: Handle)
      ensures this.image == image
    {
      this.image := image;
    }
  }

  class Swapchain {
    const device: Dev.Device
    const extent: G.Extent2D
    const imageCount: G.U32
    /** The description every slot image is created from. */
    const slotImageDesc: G.ImageDesc
    var imageIndex: nat
    var images: seq<Handle>
    var fences: seq<Fences.Fence?>
    var imageViews: seq<ImageView>
    /** The views shown on the window, oldest first. */
    var presented: seq<ImageView>

    ghost predicate Valid()
      reads this
    {
      |images| == imageCount && |fences| == imageCount && |imageViews| == imageCount &&
      (imageCount > 0 ==> imageIndex < imageCount) &&
      (imageCount == 0 ==> imageIndex == 0) &&
      (forall i :: 0 <= i < |imageViews| ==> imageViews[i].image == images[i])
    }

    /**
     * Asks the device for one 2D image per slot, of the requested format and
     * of the swapchain's extent with depth 0, one mip level and one layer,
     * and wraps each in a view.  Every fence slot starts empty and the
     * current slot is 0.
     */
    constructor (device: Dev.Device, desc: G.SwapchainDesc)
      requires device.Valid()
      modifies device
      ensures Valid() && device.Valid()
      ensures this.device == device && extent == desc.extent && imageCount == desc.imageCount
      ensures slotImageDesc == G.ImageDesc(desc.format, G.Dim2D, G.Extent3D(desc.extent.width, desc.extent.height, 0), 1, 1)
      ensures imageIndex == 0 && presented == []
      ensures forall i :: 0 <= i < |fences| ==> fences[i] == null
      ensures device.lists == old(device.lists)[Dev.Image := old(device.lists)[Dev.Image] + images]
      ensures forall i :: 0 <= i < |images| ==> fresh(images[i]) && fresh(imageViews[i])
    {
      var slotImages: seq<Handle> := [];
      var views: seq<ImageView> := [];
      var i := 0;
      assert Dev.Image in device.lists && device.lists[Dev.Image] + slotImages == device.lists[Dev.Image];
      assert device.lists[Dev.Image := device.lists[Dev.Image]] == device.lists;
      while i < desc.imageCount
        invariant 0 <= i <= desc.imageCount
        invariant |slotImages| == i && |views| == i
        invariant device.Valid()
        invariant device.lists == old(device.lists)[Dev.Image := old(device.lists)[Dev.Image] + slotImages]
        invariant forall j :: 0 <= j < i ==> fresh(slotImages[j]) && fresh(views[j]) && views[j].image == slotImages[j]
      {
        // The slot image's constructor does not abort, so its creation succeeds.
        var created := device.Create(Dev.Image, Ok(()));
        var image := created.value;
        var view := new ImageView(image);
        assert old(device.lists)[Dev.Image] + slotImages + [image] == old(device.lists)[Dev.Image] + (slotImages + [image]);
        slotImages := slotImages + [image];
        views := views + [view];
        i := i + 1;
      }
      var noFences: seq<Fences.Fence?> := seq(desc.imageCount, _ => null);
      this.device := device;
      extent := desc.extent;
      imageCount := desc.imageCount;
      slotImageDesc := G.ImageDesc(desc.format, G.Dim2D, G.Extent3D(desc.extent.width, desc.extent.height, 0), 1, 1);
      imageIndex := 0;
      images := slotImages;
      fences := noFences;
      imageViews := views;
      presented := [];
    }

    function GetExtent(): G.Extent2D {
      extent
    }

    function GetImageCount(): G.U32 {
      imageCount
    }

    /** The view of slot `index`; an index past the ring is fatal. */
    function GetImageView(index: nat): (r: Outcome<ImageView>)
      requires Valid()
      reads this
      ensures r.Ok? <==> index < imageCount
      ensures r.Ok? ==> r.value == imageViews[index] && r.value.image == images[index]
    {
      if index < |imageViews| then Ok(imageViews[index]) else Fatal("out of range")
    }

    /**
     * Advances the current slot, waits on the fence that slot still holds,
     * stores `fence` in it and returns it.
     */
    method AcquireNextImage(fence: Fences.Fence?) returns (index: nat)
      requires Valid() && imageCount > 0
      modifies this, fences[Advance(imageIndex, imageCount)]
      ensures Valid()
      ensures index == Advance(old(imageIndex), imageCount) && imageIndex == index
      ensures fences == old(fences)[index := fence]
      ensures images == old(images) && imageViews == old(imageViews) && presented == old(presented)
      ensures old(fences)[index] != null ==>
        old(fences)[index].sync.Some? && fresh(old(fences)[index].sync.value) &&
        old(fences)[index].deletedSyncs == old(fences[index].deletedSyncs)
    {
      imageIndex := (imageIndex + 1) % imageCount;
      var inFlight := fences[imageIndex];
      if inFlight != null {
        inFlight.Wait();
      }
      fences := fences[imageIndex := fence];
      index := imageIndex;
    }

    /** Shows the current slot's view, which is the one last acquired. */
    method Present() returns (r: Outcome<ImageView>)
      requires Valid()
      modifies this
      ensures Valid()
      ensures r.Ok? <==> imageCount > 0
      ensures r.Ok? ==> r.value == imageViews[imageIndex] && presented == old(presented) + [r.value]
      ensures r.Fatal? ==> presented == old(presented)
      ensures imageIndex == old(imageIndex) && fences == old(fences)
      ensures images == old(images) && imageViews == old(imageViews)
    {
      if imageIndex < |imageViews| {
        r := Ok(imageViews[imageIndex]);
        presented := presented + [imageViews[imageIndex]];
      } else {
        r := Fatal("out of range");
      }
    }

    /** The destructor deletes the views only; the images stay listed by the device. */
    method Dispose() returns (deleted: seq<ImageView>)
      requires Valid()
      ensures deleted == imageViews && |deleted| == imageCount
    {
      deleted := imageViews;
    }
  }

  /** From a fresh ring of two slots, three acquisitions hand out slots 1, 0, 1. */
  method AcquireFromFreshRingOfTwo(swapchain: Swapchain, fence: Fences.Fence?) returns (first: nat, second: nat, third: nat)
    requires swapchain.Valid() && swapchain.imageCount == 2 && swapchain.imageIndex == 0
    modifies swapchain, swapchain.fences[0], swapchain.fences[1], fence
    ensures first == 1 && second == 0 && third == 1
  {
    first := swapchain.AcquireNextImage(fence);
    second := swapchain.AcquireNextImage(fence);
    third := swapchain.AcquireNextImage(fence);
  }
}
