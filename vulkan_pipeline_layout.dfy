/**
 * The Vulkan pipeline layout: the descriptor set layouts it was made from,
 * in order, and the native create info built from their handles, with no
 * push-constant ranges.
 */
module VulkanPipelineLayout {
  import opened Log
  import Layouts = VulkanDescriptorSetLayout
  import Registry

  class PipelineLayout {
    const device: object
    const descriptorSetLayouts: seq<Layouts.DescriptorSetLayout>
    /** The native set-layout array: one layout handle per layout, in order. */
    const nativeSetLayouts: seq<Registry.Handle>
    const pushConstantRangeCount: nat

    constructor (device: object, layouts: seq<Layouts.DescriptorSetLayout>)
      ensures this.device == device && descriptorSetLayouts == layouts
      ensures |nativeSetLayouts| == |layouts| && forall i :: 0 <= i < |layouts| ==> nativeSetLayouts[i] == layouts[i].GetHandle()
      ensures pushConstantRangeCount == 0
    {
      var handles: seq<Registry.Handle> := [];
      var i := 0;
      while i < |layouts|
        invariant 0 <= i <= |layouts|
        invariant |handles| == i && forall j :: 0 <= j < i ==> handles[j] == layouts[j].GetHandle()
      {
        handles := handles + [layouts[i].GetHandle()];
        i := i + 1;
      }
      this.device := device;
      descriptorSetLayouts := layouts;
      nativeSetLayouts := handles;
      pushConstantRangeCount := 0;
    }

    function GetDescriptorSetLayoutCount(): nat {
      |descriptorSetLayouts|
    }

    /** The `index`-th layout; an index past the end is fatal. */
    function GetDescriptorSetLayout(index: nat): (r: Outcome<Layouts.DescriptorSetLayout>)
      ensures r.Ok? <==> index < GetDescriptorSetLayoutCount()
      ensures r.Ok? ==> r.value == descriptorSetLayouts[index]
    {
      if index < |descriptorSetLayouts| then Ok(descriptorSetLayouts[index]) else Fatal("out of range")
    }
  }
}
