/**
 * The engine's OpenGL descriptor set.  It keeps the layouts it was made
 * from, records one buffer entry and one image entry per binding number,
 * and binds every recorded entry to its native slot.  A buffer binding's
 * target comes from the layouts: a scan over every layout in which the
 * last layout declaring the binding wins.
 */
module EngineGLDescriptorSet {
  import opened Wrappers
  import opened Log
  import opened GL
  import G = GlalTypes
  import Slots = BindingSlots
  import Layouts = EngineGLDescriptorSetLayout
  import Buffers = EngineGLBuffer

  /** A recorded buffer binding; `base` binds the whole buffer and ignores offset and size. */
  datatype BufferEntry = BufferEntry(target: GLenum, buffer: Buffers.Buffer, base: bool, offset: G.U32, size: G.U32)

  datatype ImageEntry = ImageEntry(imageView: object, sampler: object)

  /** The native binding calls `Bind` makes for a buffer entry. */
  datatype BufferCall =
    | BindBufferBase(target: GLenum, slot: G.U32, buffer: Buffers.Buffer)
    | BindBufferRange(target: GLenum, slot: G.U32, buffer: Buffers.Buffer, offset: G.U32, size: G.U32)

  /** The texture-unit and sampler binding `Bind` makes for an image entry, both at `slot`. */
  datatype ImageCall = BindTextureAndSampler(slot: G.U32, imageView: object, sampler: object)

  /**
   * `call` binds entry `e` at `slot`: the whole buffer for a base entry, the
   * entry's range otherwise.
   */
  predicate Realizes(call: BufferCall, slot: G.U32, e: BufferEntry) {
    call.slot == slot && call.target == e.target && call.buffer == e.buffer &&
    (call.BindBufferBase? <==> e.base) &&
    (call.BindBufferRange? ==> call.offset == e.offset && call.size == e.size)
  }

  /** The buffer target a declared descriptor type calls for. */
  function TargetOf(descriptorType: G.DescriptorType): GLenum {
    if descriptorType == G.UniformBuffer then GL_UNIFORM_BUFFER else GL_SHADER_STORAGE_BUFFER
  }

  predicate Declares(bindings: seq<G.DescriptorBinding>, binding: G.U32) {
    exists i :: 0 <= i < |bindings| && bindings[i].binding == binding
  }

  /**
   * The declaration that decides `binding`'s target: the first declaration
   * of it in the last layout that declares it.
   */
  function Deciding(layouts: seq<Layouts.DescriptorSetLayout>, binding: G.U32): Option<G.DescriptorBinding> {
    if |layouts| == 0 then None
    else
      var last := layouts[|layouts| - 1].descriptorBindings;
      var i := G.FirstWithBinding(last, binding);
      if i < |last| then Some(last[i]) else Deciding(layouts[..|layouts| - 1], binding)
  }

  /** The target the scan leaves: that of the deciding declaration, or 0 when no layout declares the binding. */
  function ScannedTarget(layouts: seq<Layouts.DescriptorSetLayout>, binding: G.U32): GLenum {
    match Deciding(layouts, binding)
    case None => 0
    case Some(declaration) => TargetOf(declaration.descriptorType)
  }

  /**
   * If layout `k` declares `binding` and no later layout does, layout `k`'s
   * first declaration decides: later layouts override earlier ones.
   */
  lemma {:induction false} LastDeclaringLayoutDecides(layouts: seq<Layouts.DescriptorSetLayout>, binding: G.U32, k: nat)
    requires k < |layouts| && Declares(layouts[k].descriptorBindings, binding)
    requires forall m :: k < m < |layouts| ==> !Declares(layouts[m].descriptorBindings, binding)
    ensures Deciding(layouts, binding) ==
      Some(layouts[k].descriptorBindings[G.FirstWithBinding(layouts[k].descriptorBindings, binding)])
  {
    var n := |layouts| - 1;
    if k < n {
      assert !Declares(layouts[n].descriptorBindings, binding);
      LastDeclaringLayoutDecides(layouts[..n], binding, k);
    }
  }

  /** No declaration decides exactly when no layout declares the binding. */
  lemma {:induction false} UndeclaredBindingHasNoTarget(layouts: seq<Layouts.DescriptorSetLayout>, binding: G.U32)
    ensures Deciding(layouts, binding).None? <==> forall m :: 0 <= m < |layouts| ==> !Declares(layouts[m].descriptorBindings, binding)
  {
    if |layouts| > 0 {
      var n := |layouts| - 1;
      UndeclaredBindingHasNoTarget(layouts[..n], binding);
      assert forall m :: 0 <= m < n ==> layouts[..n][m] == layouts[m];
    }
  }

  class DescriptorSet {
    const device: object
    const layouts: seq<Layouts.DescriptorSetLayout>
    var bufferBindings: map<G.U32, BufferEntry>
    var imageBindings: map<G.U32, ImageEntry>

    /** Keeps the given layouts, in order. */
    constructor (device: object, layouts: seq<Layouts.DescriptorSetLayout>)
      ensures this.device == device && this.layouts == layouts
      ensures bufferBindings == map[] && imageBindings == map[]
    {
      var copied: seq<Layouts.DescriptorSetLayout> := [];
      var i := 0;
      while i < |layouts|
        invariant 0 <= i <= |layouts|
        invariant copied == layouts[..i]
      {
        copied := copied + [layouts[i]];
        i := i + 1;
      }
      this.device := device;
      this.layouts := copied;
      bufferBindings := map[];
      imageBindings := map[];
    }

    /**
     * The scan over every layout and every binding in it; a match sets the
     * target and ends the scan of that layout only.
     */
    method ResolveTarget(binding: G.U32) returns (target: GLenum)
      ensures target == ScannedTarget(layouts, binding)
      ensures target != 0 <==> Deciding(layouts, binding).Some?
    {
      target := 0;
      var i := 0;
      while i < |layouts|
        invariant 0 <= i <= |layouts|
        invariant target == ScannedTarget(layouts[..i], binding)
      {
        var bindings := layouts[i].descriptorBindings;
        var j := 0;
        var found := false;
        while j < |bindings| && !found
          invariant 0 <= j <= |bindings|
          decreases |bindings| - j, if found then 0 else 1
          invariant !found ==> forall m :: 0 <= m < j ==> bindings[m].binding != binding
          invariant !found ==> target == ScannedTarget(layouts[..i], binding)
          invariant found ==> j < |bindings| && j == G.FirstWithBinding(bindings, binding)
          invariant found ==> target == TargetOf(bindings[j].descriptorType)
        {
          if bindings[j].binding == binding {
            target := TargetOf(bindings[j].descriptorType);
            found := true;
          } else {
            j := j + 1;
          }
        }
        assert layouts[..i + 1][..i] == layouts[..i];
        assert layouts[..i + 1][i] == layouts[i];
        i := i + 1;
      }
      assert layouts[..i] == layouts;
    }

    /** Binds the whole buffer at `binding`; a binding no layout declares is fatal. */
    method BindBuffer(binding: G.U32, buffer: Buffers.Buffer) returns (r: Outcome<()>)
      modifies this
      ensures r.Ok? <==> Deciding(layouts, binding).Some?
      ensures r.Ok? ==> var target := TargetOf(Deciding(layouts, binding).value.descriptorType);
                        bufferBindings == old(bufferBindings)[binding := BufferEntry(target, buffer, true, 0, 0)]
      ensures r.Fatal? ==> bufferBindings == old(bufferBindings) && r.message == "missing descriptor for binding"
      ensures imageBindings == old(imageBindings)
    {
      var target := ResolveTarget(binding);
      r := Assert(target != 0, "missing descriptor for binding");
      if r.Ok? {
        bufferBindings := bufferBindings[binding := BufferEntry(target, buffer, true, 0, 0)];
      }
    }

    /** Binds `size` bytes of the buffer from `offset` at `binding`; a binding no layout declares is fatal. */
    method BindBufferRange(binding: G.U32, buffer: Buffers.Buffer, offset: G.U32, size: G.U32) returns (r: Outcome<()>)
      modifies this
      ensures r.Ok? <==> Deciding(layouts, binding).Some?
      ensures r.Ok? ==> var target := TargetOf(Deciding(layouts, binding).value.descriptorType);
                        bufferBindings == old(bufferBindings)[binding := BufferEntry(target, buffer, false, offset, size)]
      ensures r.Fatal? ==> bufferBindings == old(bufferBindings) && r.message == "missing descriptor for binding"
      ensures imageBindings == old(imageBindings)
    {
      var target := ResolveTarget(binding);
      r := Assert(target != 0, "missing descriptor for binding");
      if r.Ok? {
        bufferBindings := bufferBindings[binding := BufferEntry(target, buffer, false, offset, size)];
      }
    }

    /** Records the view and sampler at `binding`, without consulting the layouts. */
    method BindImageView(binding: G.U32, imageView: object, sampler: object)
      modifies this
      ensures imageBindings == old(imageBindings)[binding := ImageEntry(imageView, sampler)]
      ensures bufferBindings == old(bufferBindings)
    {
      imageBindings := imageBindings[binding := ImageEntry(imageView, sampler)];
    }

    /**
     * Binds every recorded entry as set `setIndex`: each buffer entry and
     * each image entry at binding `b` goes to slot `Slot(setIndex, b)`, a
     * base entry binding the whole buffer and any other a range of it.
     * The calls are returned keyed by binding number.
     */
    method Bind(setIndex: G.U32) returns (bufferCalls: map<G.U32, BufferCall>, imageCalls: map<G.U32, ImageCall>)
      ensures bufferCalls.Keys == bufferBindings.Keys && imageCalls.Keys == imageBindings.Keys
      ensures forall b :: b in bufferCalls ==> Realizes(bufferCalls[b], Slots.Slot(setIndex, b), bufferBindings[b])
      ensures forall b :: b in imageCalls ==>
        imageCalls[b] == BindTextureAndSampler(Slots.Slot(setIndex, b), imageBindings[b].imageView, imageBindings[b].sampler)
    {
      bufferCalls := BindBuffers(setIndex);
      imageCalls := BindImages(setIndex);
    }

    method BindBuffers(setIndex: G.U32) returns (calls: map<G.U32, BufferCall>)
      ensures calls.Keys == bufferBindings.Keys
      ensures forall b :: b in calls ==> Realizes(calls[b], Slots.Slot(setIndex, b), bufferBindings[b])
    {
      calls := map[];
      var pending := bufferBindings.Keys;
      while pending != {}
        invariant pending <= bufferBindings.Keys
        invariant calls.Keys == bufferBindings.Keys - pending
        invariant forall b :: b in calls ==> Realizes(calls[b], Slots.Slot(setIndex, b), bufferBindings[b])
        decreases |pending|
      {
        var b :| b in pending;
        var e := bufferBindings[b];
        var slot := Slots.Slot(setIndex, b);
        if e.base {
          calls := calls[b := BufferCall.BindBufferBase(e.target, slot, e.buffer)];
        } else {
          calls := calls[b := BufferCall.BindBufferRange(e.target, slot, e.buffer, e.offset, e.size)];
        }
        pending := pending - {b};
      }
    }

    method BindImages(setIndex: G.U32) returns (calls: map<G.U32, ImageCall>)
      ensures calls.Keys == imageBindings.Keys
      ensures forall b :: b in calls ==>
        calls[b] == BindTextureAndSampler(Slots.Slot(setIndex, b), imageBindings[b].imageView, imageBindings[b].sampler)
    {
      calls := map[];
      var pending := imageBindings.Keys;
      while pending != {}
        invariant pending <= imageBindings.Keys
        invariant calls.Keys == imageBindings.Keys - pending
        invariant forall b :: b in calls ==>
          calls[b] == BindTextureAndSampler(Slots.Slot(setIndex, b), imageBindings[b].imageView, imageBindings[b].sampler)
        decreases |pending|
      {
        var b :| b in pending;
        calls := calls[b := BindTextureAndSampler(Slots.Slot(setIndex, b), imageBindings[b].imageView, imageBindings[b].sampler)];
        pending := pending - {b};
      }
    }
  }
}
