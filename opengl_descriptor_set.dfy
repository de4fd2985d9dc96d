/**
 * The glal OpenGL descriptor set.  It looks a buffer binding's target up in
 * its one layout, records one buffer range and one image entry per binding
 * number, and binds every recorded entry to its native slot.
 */
module OpenGLDescriptorSet {
  import opened Log
  import opened GL
  import G = GlalTypes
  import Slots = BindingSlots
  import Layouts = OpenGLDescriptorSetLayout
  import Buffers = OpenGLBuffer

  datatype BufferEntry = BufferEntry(target: GLenum, buffer: Buffers.Buffer, offset: G.U32, size: G.U32)

  datatype ImageEntry = ImageEntry(imageView: object, sampler: object)

  datatype BufferCall = BindBufferRange(target: GLenum, slot: G.U32, buffer: Buffers.Buffer, offset: G.U32, size: G.U32)

  /** The texture-unit and sampler binding `Bind` makes for an image entry, both at `slot`. */
  datatype ImageCall = BindTextureAndSampler(slot: G.U32, imageView: object, sampler: object)

  /** The buffer target a declared descriptor type calls for. */
  function TargetOf(descriptorType: G.DescriptorType): GLenum {
    if descriptorType == G.UniformBuffer then GL_UNIFORM_BUFFER else GL_SHADER_STORAGE_BUFFER
  }

  /** A buffer's size passed as a 32-bit size: the low 32 bits. */
  function TruncatedSize(size: nat): (r: G.U32)
    ensures size < G.U32_LIMIT ==> r == size
  {
    size % G.U32_LIMIT
  }

  class DescriptorSet {
    const device: object
    const layout: Layouts.DescriptorSetLayout
    var bufferBindings: map<G.U32, BufferEntry>
    var imageBindings: map<G.U32, ImageEntry>

    constructor (device: object, layout: Layouts.DescriptorSetLayout)
      ensures this.device == device && this.layout == layout
      ensures bufferBindings == map[] && imageBindings == map[]
    {
      this.device := device;
      this.layout := layout;
      bufferBindings := map[];
      imageBindings := map[];
    }

    /**
     * The layout's first declaration numbered `binding`.  The layout itself
     * declares no lookup; this is the first-match search its bindings support.
     */
    function FindDescriptorBinding(binding: G.U32): (i: nat)
      ensures i <= |layout.descriptorBindings|
      ensures i < |layout.descriptorBindings| <==>
        exists j :: 0 <= j < |layout.descriptorBindings| && layout.descriptorBindings[j].binding == binding
      ensures i < |layout.descriptorBindings| ==> layout.descriptorBindings[i].binding == binding
    {
      G.FirstWithBinding(layout.descriptorBindings, binding)
    }

    /** Binds `size` bytes from `offset` at `binding`; a binding the layout does not declare is fatal. */
    method BindBufferRange(binding: G.U32, buffer: Buffers.Buffer, offset: G.U32, size: G.U32) returns (r: Outcome<()>)
      modifies this
      ensures var i := FindDescriptorBinding(binding); r.Ok? <==> i < |layout.descriptorBindings|
      ensures r.Ok? ==>
        var declaration := layout.descriptorBindings[FindDescriptorBinding(binding)];
        bufferBindings == old(bufferBindings)[binding := BufferEntry(TargetOf(declaration.descriptorType), buffer, offset, size)]
      ensures r.Fatal? ==> bufferBindings == old(bufferBindings) && r.message == "missing descriptor for binding"
      ensures imageBindings == old(imageBindings)
    {
      var i := FindDescriptorBinding(binding);
      r := Assert(i < |layout.descriptorBindings|, "missing descriptor for binding");
      if r.Ok? {
        var target := TargetOf(layout.descriptorBindings[i].descriptorType);
        bufferBindings := bufferBindings[binding := BufferEntry(target, buffer, offset, size)];
      }
    }

    /** Binds the whole buffer: exactly the range from 0 of the buffer's size in 32 bits. */
    method BindBuffer(binding: G.U32, buffer: Buffers.Buffer) returns (r: Outcome<()>)
      modifies this
      ensures var i := FindDescriptorBinding(binding); r.Ok? <==> i < |layout.descriptorBindings|
      ensures r.Ok? ==>
        var declaration := layout.descriptorBindings[FindDescriptorBinding(binding)];
        var size := TruncatedSize(buffer.GetSize());
        bufferBindings == old(bufferBindings)[binding := BufferEntry(TargetOf(declaration.descriptorType), buffer, 0, size)]
      ensures r.Fatal? ==> bufferBindings == old(bufferBindings) && r.message == "missing descriptor for binding"
      ensures imageBindings == old(imageBindings)
    {
      r := BindBufferRange(binding, buffer, 0, TruncatedSize(buffer.GetSize()));
    }

    /** Records the view and sampler at `binding`, without consulting the layout. */
    method BindImageView(binding: G.U32, imageView: object, sampler: object)
      modifies this
      ensures imageBindings == old(imageBindings)[binding := ImageEntry(imageView, sampler)]
      ensures bufferBindings == old(bufferBindings)
    {
      imageBindings := imageBindings[binding := ImageEntry(imageView, sampler)];
    }

    /** `bufferCalls` and `imageCalls` are exactly the GL calls that bind the recorded entries as set `setIndex`. */
    ghost predicate IssuesAs(setIndex: G.U32, bufferCalls: map<G.U32, BufferCall>, imageCalls: map<G.U32, ImageCall>)
      reads this
    {
      bufferCalls.Keys == bufferBindings.Keys && imageCalls.Keys == imageBindings.Keys &&
      (forall b :: b in bufferCalls ==>
        var e := bufferBindings[b];
        bufferCalls[b] == BufferCall.BindBufferRange(e.target, Slots.Slot(setIndex, b), e.buffer, e.offset, e.size)) &&
      (forall b :: b in imageCalls ==>
        imageCalls[b] == BindTextureAndSampler(Slots.Slot(setIndex, b), imageBindings[b].imageView, imageBindings[b].sampler))
    }

    /**
     * Binds every recorded entry as set `setIndex`: each buffer entry at
     * binding `b` as its range at slot `Slot(setIndex, b)`, and each image
     * entry's texture and sampler at that same slot.
     */
    method Bind(setIndex: G.U32) returns (bufferCalls: map<G.U32, BufferCall>, imageCalls: map<G.U32, ImageCall>)
      ensures IssuesAs(setIndex, bufferCalls, imageCalls)
    {
      bufferCalls := BindBuffers(setIndex);
      imageCalls := BindImages(setIndex);
    }

    method BindBuffers(setIndex: G.U32) returns (calls: map<G.U32, BufferCall>)
      ensures calls.Keys == bufferBindings.Keys
      ensures forall b :: b in calls ==>
        var e := bufferBindings[b];
        calls[b] == BufferCall.BindBufferRange(e.target, Slots.Slot(setIndex, b), e.buffer, e.offset, e.size)
    {
      calls := map[];
      var pending := bufferBindings.Keys;
      while pending != {}
        invariant pending <= bufferBindings.Keys
        invariant calls.Keys == bufferBindings.Keys - pending
        invariant forall b :: b in calls ==>
          var e := bufferBindings[b];
          calls[b] == BufferCall.BindBufferRange(e.target, Slots.Slot(setIndex, b), e.buffer, e.offset, e.size)
        decreases |pending|
      {
        var b :| b in pending;
        var e := bufferBindings[b];
        calls := calls[b := BufferCall.BindBufferRange(e.target, Slots.Slot(setIndex, b), e.buffer, e.offset, e.size)];
        pending := pending - {b};
      }
    }

    method BindImages(setIndex: G.U32) returns (calls: map<G.U32, ImageCall>)
      ensures calls.Keys == imageBindings.Keys
      ensures forall b :: b in calls ==>
        calls[b] == BindTextureAndSampler(Slots.Slot(setIndex, b), imageBindings[b].imageView, imageBindings[b].sampler)
    {
      calls := map[];
      var pending := imageBindings.Keys;
      while pending != {}
        invariant pending <= imageBindings.Keys
        invariant calls.Keys == imageBindings.Keys - pending
        invariant forall b :: b in calls ==>
          calls[b] == BindTextureAndSampler(Slots.Slot(setIndex, b), imageBindings[b].imageView, imageBindings[b].sampler)
        decreases |pending|
      {
        var b :| b in pending;
        calls := calls[b := BindTextureAndSampler(Slots.Slot(setIndex, b), imageBindings[b].imageView, imageBindings[b].sampler)];
        pending := pending - {b};
      }
    }
  }
}
