/**
 * The engine's OpenGL pipeline layout: the descriptor set layouts it was made
 * from, in order, which can be indexed or iterated.
 */
module EngineGLPipelineLayout {
  import opened Log
  import Layouts = EngineGLDescriptorSetLayout

  class PipelineLayout {
    const device: object
    const descriptorSetLayouts: seq<Layouts.DescriptorSetLayout>

    /** Copies the given layouts one by one, in order. */
    constructor (device: object, layouts: seq<Layouts.DescriptorSetLayout>)
      ensures this.device == device && descriptorSetLayouts == layouts
    {
      var copied: seq<Layouts.DescriptorSetLayout> := [];
      var i := 0;
      while i < |layouts|
        invariant 0 <= i <= |layouts|
        invariant copied == layouts[..i]
      {
        copied := copied + [layouts[i]];
        i := i + 1;
      }
      this.device := device;
      descriptorSetLayouts := copied;
    }

    function GetDescriptorSetLayoutCount(): nat {
      |descriptorSetLayouts|
    }

    /** The `index`-th layout; an index past the end is fatal. */
    function GetDescriptorSetLayout(index: nat): (r: Outcome<Layouts.DescriptorSetLayout>)
      ensures r.Ok? <==> index < GetDescriptorSetLayoutCount()
      ensures r.Ok? ==> r.value == descriptorSetLayouts[index]
    {
      if index < |descriptorSetLayouts| then Ok(descriptorSetLayouts[index]) else Fatal("out of range")
    }

    /** What `begin()` to `end()` visits: every layout once, in the order indexing sees them. */
    function Elements(): (r: seq<Layouts.DescriptorSetLayout>)
      ensures |r| == GetDescriptorSetLayoutCount()
      ensures forall i :: 0 <= i < |r| ==> GetDescriptorSetLayout(i) == Ok(r[i])
    {
      descriptorSetLayouts
    }
  }
}
