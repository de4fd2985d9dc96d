/**
 * The glal OpenGL descriptor set layout: the set number and a copy of the
 * declared bindings, which can be indexed or iterated.
 */
module OpenGLDescriptorSetLayout {
  import opened Log
  import G = GlalTypes

  class DescriptorSetLayout {
    const device: object
    const setIndex: G.U32
    const descriptorBindings: seq<G.DescriptorBinding>

    /** Copies the declared bindings one by one, in order. */
    constructor (device: object, desc: G.DescriptorSetLayoutDesc)
      ensures this.device == device && setIndex == desc.setIndex
      ensures descriptorBindings == desc.descriptorBindings
    {
      var copied: seq<G.DescriptorBinding> := [];
      var i := 0;
      while i < |desc.descriptorBindings|
        invariant 0 <= i <= |desc.descriptorBindings|
        invariant copied == desc.descriptorBindings[..i]
      {
        copied := copied + [desc.descriptorBindings[i]];
        i := i + 1;
      }
      this.device := device;
      setIndex := desc.setIndex;
      descriptorBindings := copied;
    }

    function GetSet(): G.U32 {
      setIndex
    }

    function GetDescriptorBindingCount(): nat {
      |descriptorBindings|
    }

    /** The `index`-th binding; an index past the end is fatal. */
    function GetDescriptorBinding(index: nat): (r: Outcome<G.DescriptorBinding>)
      ensures r.Ok? <==> index < GetDescriptorBindingCount()
      ensures r.Ok? ==> r.value == descriptorBindings[index]
    {
      if index < |descriptorBindings| then Ok(descriptorBindings[index]) else Fatal("out of range")
    }

    /** What `begin()` to `end()` visits: every binding once, in the order indexing sees them. */
    function Elements(): (r: seq<G.DescriptorBinding>)
      ensures |r| == GetDescriptorBindingCount()
      ensures forall i :: 0 <= i < |r| ==> GetDescriptorBinding(i) == Ok(r[i])
    {
      descriptorBindings
    }
  }
}
