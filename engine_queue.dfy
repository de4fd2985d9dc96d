/**
 * The engine's OpenGL queue.  Commands were already executed while recording,
 * so submitting only resets the fence, and presenting forwards to the
 * swapchain.
 */
module EngineGLQueue {
  import opened Log
  import Fences = EngineGLFence
  import Swapchains = EngineGLSwapchain

  class Queue {
    const device: object

    constructor (device: object)
      ensures this.device == device
    {
      this.device := device;
    }

    /**
     * Resets `fence` when one is given and does nothing else: the command
     * buffers and their count are not read.
     */
    method Submit(commandBuffers: seq<object>, commandBufferCount: nat, fence: Fences.Fence?)
      modifies if fence != null then {fence} else {}
      ensures fence != null ==> fence.sync.None?
      ensures fence != null && old(fence.sync).Some? ==> fence.deletedSyncs == old(fence.deletedSyncs) + [old(fence.sync).value]
      ensures fence != null && old(fence.sync).None? ==> fence.deletedSyncs == old(fence.deletedSyncs)
    {
      if fence != null {
        fence.Reset();
      }
    }

    /** Presents `swapchain` once. */
    method Present(swapchain: Swapchains.Swapchain) returns (r: Outcome<Swapchains.ImageView>)
      requires swapchain.Valid()
      modifies swapchain
      ensures swapchain.Valid()
      ensures r.Ok? <==> swapchain.imageCount > 0
      ensures r.Ok? ==> r.value == swapchain.imageViews[swapchain.imageIndex]
      ensures r.Ok? ==> swapchain.presented == old(swapchain.presented) + [r.value]
      ensures r.Fatal? ==> swapchain.presented == old(swapchain.presented)
      ensures swapchain.imageIndex == old(swapchain.imageIndex) && swapchain.fences == old(swapchain.fences)
    {
      r := swapchain.Present();
    }
  }
}
