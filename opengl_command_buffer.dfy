/**
 * The glal OpenGL command buffer.  OpenGL has no deferred recording: every
 * command is issued to the driver at once.  The model keeps the native
 * commands issued, in order, in `issued`, together with the state the
 * buffer carries from one call to the next: the bound pipeline and the
 * index type of the bound index buffer.
 */
module OpenGLCommandBuffer {
  import opened Log
  import opened Wrappers
  import opened GL
  import G = GlalTypes
  import Common = OpenGLCommon
  import Buffers = OpenGLBuffer
  import Images = OpenGLImage
  import Sets = OpenGLDescriptorSet

  /**
   * What the command buffer reads from a pipeline: the program, the type,
   * the vertex stride and the vertex-array setup of its attributes.  These
   * are the members the library's OpenGL header declares for its pipeline.
   */
  datatype BoundPipeline = BoundPipeline(program: object, pipelineType: G.PipelineType, vertexStride: G.U32, layout: seq<Common.AttribFormat>)

  /** One colour, depth or stencil attachment: its view and whether it is cleared on entry. */
  datatype Attachment = Attachment(view: object, clear: bool)
  datatype RenderPassDesc = RenderPassDesc(color: seq<Attachment>, depth: seq<Attachment>, stencil: seq<Attachment>)

  datatype ClearBuffer = ColorBuffer | DepthBuffer | StencilBuffer

  datatype Command =
    | CreateVertexArray
    | DeleteVertexArray
    | UseProgram(program: Option<object>)
    | LayoutVertexArray(formats: seq<Common.AttribFormat>)
    | FramebufferTexture(attachmentPoint: GLenum, view: object)
    | ClearAttachment(clearBuffer: ClearBuffer, drawBuffer: nat)
    | DrawBuffers(attachmentPoints: seq<GLenum>)
    | BindFramebuffer(bound: bool)
    | VertexBuffer(bindingIndex: nat, buffer: Buffers.Buffer, offset: nat, stride: G.U32)
    | ElementBuffer(buffer: Buffers.Buffer)
    | DescriptorSetBound(descriptorSet: Sets.DescriptorSet, setIndex: G.U32,
                         bufferCalls: map<G.U32, Sets.BufferCall>, imageCalls: map<G.U32, Sets.ImageCall>)
    | DrawArrays(first: G.U32, count: G.U32)
    | DrawElements(count: G.U32, indexType: GLenum, byteOffset: G.U32)
    | DispatchCompute(x: G.U32, y: G.U32, z: G.U32)
    | CopyBufferSubData(src: Buffers.Buffer, dst: Buffers.Buffer, srcOffset: nat, dstOffset: nat, size: nat)
    | UploadFromBuffer(source: Buffers.Buffer, image: Images.Image, upload: Images.TextureUpload)

  /**
   * The draw-buffer list of a render pass: colour attachment i for each
   * colour attachment, then the depth attachment for each depth
   * attachment, then the stencil attachment for each stencil attachment.
   */
  function AttachmentPoints(colorCount: nat, depthCount: nat, stencilCount: nat): (r: seq<GLenum>)
    ensures |r| == colorCount + depthCount + stencilCount
    ensures forall i :: 0 <= i < colorCount ==> r[i] == GL_COLOR_ATTACHMENT0 + i
    ensures forall i :: colorCount <= i < colorCount + depthCount ==> r[i] == GL_DEPTH_ATTACHMENT
    ensures forall i :: colorCount + depthCount <= i < |r| ==> r[i] == GL_STENCIL_ATTACHMENT
  {
    seq(colorCount, i => GL_COLOR_ATTACHMENT0 + i) + seq(depthCount, _ => GL_DEPTH_ATTACHMENT) + seq(stencilCount, _ => GL_STENCIL_ATTACHMENT)
  }

  /** Where an attachment of each kind is attached: colour attachment i, or the depth or stencil point. */
  function AttachmentPoint(buffer: ClearBuffer, i: nat): GLenum {
    match buffer
    case ColorBuffer => GL_COLOR_ATTACHMENT0 + i
    case DepthBuffer => GL_DEPTH_ATTACHMENT
    case StencilBuffer => GL_STENCIL_ATTACHMENT
  }

  /** The commands attaching one group of attachments: each one attached, then cleared if it asks for it. */
  function AttachCommands(attachments: seq<Attachment>, buffer: ClearBuffer): seq<Command> {
    if |attachments| == 0 then []
    else
      var i := |attachments| - 1;
      AttachCommands(attachments[..i], buffer)
      + [FramebufferTexture(AttachmentPoint(buffer, i), attachments[i].view)]
      + (if attachments[i].clear then [ClearAttachment(buffer, i)] else [])
  }

  /** Every attachment of a group is attached at its point, and cleared exactly when it asks to be. */
  lemma {:induction false} AttachCommandsAttachEach(attachments: seq<Attachment>, buffer: ClearBuffer, i: nat)
    requires i < |attachments|
    ensures FramebufferTexture(AttachmentPoint(buffer, i), attachments[i].view) in AttachCommands(attachments, buffer)
    ensures ClearAttachment(buffer, i) in AttachCommands(attachments, buffer) <==> attachments[i].clear
  {
    var n := |attachments| - 1;
    var rest := AttachCommands(attachments[..n], buffer);
    var last := (if attachments[n].clear then [ClearAttachment(buffer, n)] else []);
    assert AttachCommands(attachments, buffer) == rest + [FramebufferTexture(AttachmentPoint(buffer, n), attachments[n].view)] + last;
    ClearsBelow(attachments[..n], buffer);
    if i < n {
      AttachCommandsAttachEach(attachments[..n], buffer, i);
      assert attachments[..n][i] == attachments[i];
    }
  }

  /** A group's commands clear only indices of that group. */
  lemma {:induction false} ClearsBelow(attachments: seq<Attachment>, buffer: ClearBuffer)
    ensures forall j: nat :: ClearAttachment(buffer, j) in AttachCommands(attachments, buffer) ==> j < |attachments|
  {
    if |attachments| > 0 {
      ClearsBelow(attachments[..|attachments| - 1], buffer);
    }
  }

  /** What a render pass issues before the framebuffer is checked: the three attachment groups, then the draw buffers. */
  function RenderPassSetup(desc: RenderPassDesc): seq<Command> {
    AttachCommands(desc.color, ColorBuffer) + AttachCommands(desc.depth, DepthBuffer) + AttachCommands(desc.stencil, StencilBuffer)
    + [DrawBuffers(AttachmentPoints(|desc.color|, |desc.depth|, |desc.stencil|))]
  }

  /** Each attachment point of a render pass OpenGL can hold names a distinct attachment. */
  lemma AttachmentPointsDistinct(colorCount: nat, depthCount: nat, stencilCount: nat, i: nat, j: nat)
    requires colorCount < GL_DEPTH_ATTACHMENT - GL_COLOR_ATTACHMENT0 && depthCount <= 1 && stencilCount <= 1
    requires i < j < colorCount + depthCount + stencilCount
    ensures AttachmentPoints(colorCount, depthCount, stencilCount)[i] != AttachmentPoints(colorCount, depthCount, stencilCount)[j]
  {
  }

  /** The points of one group: `AttachmentPoint` for each index. */
  function GroupPoints(count: nat, buffer: ClearBuffer): (r: seq<GLenum>)
    ensures |r| == count
  {
    seq(count, (i: nat) => AttachmentPoint(buffer, i))
  }

  /** The draw-buffer list is the three groups' points one after another. */
  lemma PointsOfGroups(colorCount: nat, depthCount: nat, stencilCount: nat)
    ensures AttachmentPoints(colorCount, depthCount, stencilCount)
      == GroupPoints(colorCount, ColorBuffer) + GroupPoints(depthCount, DepthBuffer) + GroupPoints(stencilCount, StencilBuffer)
  {
  }

  /**
   * The attachment loop for one group: attaches each attachment at its
   * point, clears it when it asks for it, and collects the points.
   */
  method AttachGroup(attachments: seq<Attachment>, buffer: ClearBuffer) returns (setup: seq<Command>, points: seq<GLenum>)
    ensures setup == AttachCommands(attachments, buffer)
    ensures points == GroupPoints(|attachments|, buffer)
  {
    setup := [];
    points := [];
    for i := 0 to |attachments|
      invariant points == GroupPoints(i, buffer)
      invariant setup == AttachCommands(attachments[..i], buffer)
    {
      assert attachments[..i + 1][..i] == attachments[..i];
      setup := setup + [FramebufferTexture(AttachmentPoint(buffer, i), attachments[i].view)];
      points := points + [AttachmentPoint(buffer, i)];
      if attachments[i].clear {
        setup := setup + [ClearAttachment(buffer, i)];
      }
    }
    assert attachments[..|attachments|] == attachments;
  }

  /** The byte offset of the first index: its position times the index size, in 32-bit arithmetic. */
  function IndexByteOffset(firstIndex: G.U32, size: G.U32): (r: G.U32)
    ensures firstIndex * size < G.U32_LIMIT ==> r == firstIndex * size
    ensures firstIndex == 0 ==> r == 0
  {
    (firstIndex * size) % G.U32_LIMIT
  }

  /** The command binds `descriptorSet` as set `setIndex`, with exactly the GL calls the set issues for that index. */
  ghost predicate BindsSet(command: Command, descriptorSet: Sets.DescriptorSet, setIndex: G.U32)
    reads descriptorSet
  {
    command.DescriptorSetBound? && command.descriptorSet == descriptorSet && command.setIndex == setIndex &&
    descriptorSet.IssuesAs(setIndex, command.bufferCalls, command.imageCalls)
  }

  class CommandBuffer {
    const device: object
    const usage: G.CommandBufferUsage
    var pipeline: Option<BoundPipeline>
    var indexType: G.DataType
    var issued: seq<Command>

    constructor (device: object, usage: G.CommandBufferUsage)
      ensures this.device == device && this.usage == usage
      ensures pipeline == None && indexType == G.DataType.None && issued == []
    {
      this.device := device;
      this.usage := usage;
      pipeline := None;
      indexType := G.DataType.None;
      issued := [];
    }

    method Begin()
      modifies this
      ensures issued == old(issued) + [CreateVertexArray]
      ensures pipeline == old(pipeline) && indexType == old(indexType)
    {
      issued := issued + [CreateVertexArray];
    }

    /** Unbinds the program and the vertex array, deletes it, and forgets pipeline and index type. */
    method End()
      modifies this
      ensures issued == old(issued) + [UseProgram(None), DeleteVertexArray]
      ensures pipeline == None && indexType == G.DataType.None
    {
      issued := issued + [UseProgram(None), DeleteVertexArray];
      pipeline := None;
      indexType := G.DataType.None;
    }

    /**
     * Attaches every attachment and clears those asking for it, sets the
     * draw buffers, and binds the framebuffer, which the driver must find
     * complete.  More than one depth or stencil attachment is fatal before
     * anything is issued; an incomplete framebuffer is fatal after the setup.
     */
    method BeginRenderPass(desc: RenderPassDesc, framebufferComplete: bool) returns (r: Outcome<()>)
      modifies this
      ensures r.Ok? <==> |desc.depth| <= 1 && |desc.stencil| <= 1 && framebufferComplete
      ensures |desc.depth| > 1 ==> r == Fatal("opengl only supports one depth attachment per render pass")
      ensures |desc.depth| <= 1 && |desc.stencil| > 1 ==> r == Fatal("opengl only supports one stencil attachment per render pass")
      ensures |desc.depth| <= 1 && |desc.stencil| <= 1 && !framebufferComplete ==> r == Fatal("incomplete framebuffer")
      ensures r.Ok? ==> issued == old(issued) + RenderPassSetup(desc) + [BindFramebuffer(true)]
      ensures r.Fatal? && |desc.depth| <= 1 && |desc.stencil| <= 1 ==> issued == old(issued) + RenderPassSetup(desc)
      ensures r.Fatal? && (|desc.depth| > 1 || |desc.stencil| > 1) ==> issued == old(issued)
      ensures pipeline == old(pipeline) && indexType == old(indexType)
    {
      if |desc.depth| > 1 {
        return Fatal("opengl only supports one depth attachment per render pass");
      }
      if |desc.stencil| > 1 {
        return Fatal("opengl only supports one stencil attachment per render pass");
      }
      var colorSetup, colorPoints := AttachGroup(desc.color, ColorBuffer);
      var depthSetup, depthPoints := AttachGroup(desc.depth, DepthBuffer);
      var stencilSetup, stencilPoints := AttachGroup(desc.stencil, StencilBuffer);
      PointsOfGroups(|desc.color|, |desc.depth|, |desc.stencil|);
      var points := colorPoints + depthPoints + stencilPoints;
      issued := issued + (colorSetup + depthSetup + stencilSetup + [DrawBuffers(points)]);
      if !framebufferComplete {
        return Fatal("incomplete framebuffer");
      }
      issued := issued + [BindFramebuffer(true)];
      return Ok(());
    }

    method EndRenderPass()
      modifies this
      ensures issued == old(issued) + [BindFramebuffer(false)]
      ensures pipeline == old(pipeline) && indexType == old(indexType)
    {
      issued := issued + [BindFramebuffer(false)];
    }

    /** Uses the pipeline's program, lays out its attributes, and remembers it for later draws. */
    method BindPipeline(bound: BoundPipeline)
      modifies this
      ensures issued == old(issued) + [UseProgram(Some(bound.program)), LayoutVertexArray(bound.layout)]
      ensures pipeline == Some(bound) && indexType == old(indexType)
    {
      issued := issued + [UseProgram(Some(bound.program)), LayoutVertexArray(bound.layout)];
      pipeline := Some(bound);
    }

    /** Binds `buffer` at vertex binding 0 with the bound pipeline's stride; fatal with no pipeline. */
    method BindVertexBuffer(buffer: Buffers.Buffer, offset: nat) returns (r: Outcome<()>)
      modifies this
      ensures r.Ok? <==> old(pipeline).Some?
      ensures r.Fatal? ==> r.message == "pipeline not set" && issued == old(issued)
      ensures r.Ok? ==> issued == old(issued) + [VertexBuffer(0, buffer, offset, old(pipeline).value.vertexStride)]
      ensures pipeline == old(pipeline) && indexType == old(indexType)
    {
      if pipeline.None? {
        return Fatal("pipeline not set");
      }
      issued := issued + [VertexBuffer(0, buffer, offset, pipeline.value.vertexStride)];
      return Ok(());
    }

    /** Binds the element buffer and remembers the index type for indexed draws. */
    method BindIndexBuffer(buffer: Buffers.Buffer, dataType: G.DataType)
      modifies this
      ensures issued == old(issued) + [ElementBuffer(buffer)]
      ensures indexType == dataType && pipeline == old(pipeline)
    {
      issued := issued + [ElementBuffer(buffer)];
      indexType := dataType;
    }

    /** Binds `descriptorSets[i]` as set `firstSet + i` (32-bit), for i in ascending order. */
    method BindDescriptorSets(firstSet: G.U32, descriptorSets: seq<Sets.DescriptorSet>)
      modifies this
      ensures |issued| == |old(issued)| + |descriptorSets| && issued[..|old(issued)|] == old(issued)
      ensures forall i :: 0 <= i < |descriptorSets| ==> BindsSet(issued[|old(issued)| + i], descriptorSets[i], (firstSet + i) % G.U32_LIMIT)
      ensures pipeline == old(pipeline) && indexType == old(indexType)
    {
      ghost var before := issued;
      for i := 0 to |descriptorSets|
        invariant |issued| == |before| + i && issued[..|before|] == before
        invariant forall j :: 0 <= j < i ==> BindsSet(issued[|before| + j], descriptorSets[j], (firstSet + j) % G.U32_LIMIT)
        invariant pipeline == old(pipeline) && indexType == old(indexType)
      {
        var setIndex: G.U32 := (firstSet + i) % G.U32_LIMIT;
        var bufferCalls, imageCalls := descriptorSets[i].Bind(setIndex);
        ghost var previous := issued;
        issued := issued + [DescriptorSetBound(descriptorSets[i], setIndex, bufferCalls, imageCalls)];
        assert forall k :: 0 <= k < |previous| ==> issued[k] == previous[k];
      }
    }

    /** The guard every draw and dispatch starts with. */
    function Requires(pipelineType: G.PipelineType): (r: Outcome<()>)
      reads this
      ensures r.Ok? <==> pipeline.Some? && pipeline.value.pipelineType == pipelineType
      ensures pipeline.None? ==> r == Fatal("pipeline not set")
      ensures pipeline.Some? && pipeline.value.pipelineType != pipelineType && pipelineType == G.Graphics ==> r == Fatal("pipeline is not graphics")
      ensures pipeline.Some? && pipeline.value.pipelineType != pipelineType && pipelineType != G.Graphics ==> r == Fatal("pipeline is not compute")
    {
      if pipeline.None? then Fatal("pipeline not set")
      else if pipeline.value.pipelineType != pipelineType then
        (if pipelineType == G.Graphics then Fatal("pipeline is not graphics") else Fatal("pipeline is not compute"))
      else Ok(())
    }

    /** Draws `vertexCount` vertices from `firstVertex`; needs a graphics pipeline. */
    method Draw(vertexCount: G.U32, firstVertex: G.U32) returns (r: Outcome<()>)
      modifies this
      ensures r == Requires(G.Graphics)
      ensures r.Ok? ==> issued == old(issued) + [DrawArrays(firstVertex, vertexCount)]
      ensures r.Fatal? ==> issued == old(issued)
      ensures pipeline == old(pipeline) && indexType == old(indexType)
    {
      r := Requires(G.Graphics);
      if r.Ok? {
        issued := issued + [DrawArrays(firstVertex, vertexCount)];
      }
    }

    /**
     * Draws `indexCount` indices from `firstIndex`; needs a graphics pipeline
     * and a recorded index type, whose size scales the byte offset.
     */
    method DrawIndexed(indexCount: G.U32, firstIndex: G.U32) returns (r: Outcome<()>)
      modifies this
      ensures r.Ok? <==> Requires(G.Graphics).Ok? && indexType != G.DataType.None
      ensures Requires(G.Graphics).Ok? && indexType == G.DataType.None ==> r == Fatal("data type is not set")
      ensures r.Ok? ==> var info := Common.TranslateDataType(indexType).value;
        issued == old(issued) + [DrawElements(indexCount, info.glType, IndexByteOffset(firstIndex, info.size))]
      ensures r.Fatal? ==> issued == old(issued)
      ensures pipeline == old(pipeline) && indexType == old(indexType)
    {
      r := Requires(G.Graphics);
      if r.Fatal? {
        return;
      }
      var info := Common.TranslateDataType(indexType);
      if info.Fatal? {
        return Fatal(info.message);
      }
      issued := issued + [DrawElements(indexCount, info.value.glType, IndexByteOffset(firstIndex, info.value.size))];
    }

    /** Dispatches an `x` by `y` by `z` grid; needs a compute pipeline. */
    method Dispatch(x: G.U32, y: G.U32, z: G.U32) returns (r: Outcome<()>)
      modifies this
      ensures r == Requires(G.PipelineType.Compute)
      ensures r.Ok? ==> issued == old(issued) + [DispatchCompute(x, y, z)]
      ensures r.Fatal? ==> issued == old(issued)
      ensures pipeline == old(pipeline) && indexType == old(indexType)
    {
      r := Requires(G.PipelineType.Compute);
      if r.Ok? {
        issued := issued + [DispatchCompute(x, y, z)];
      }
    }

    /** Copies `size` bytes between buffers; a missing source or destination is fatal. */
    method CopyBuffer(src: Buffers.Buffer?, dst: Buffers.Buffer?, srcOffset: nat, dstOffset: nat, size: nat) returns (r: Outcome<()>)
      modifies this
      ensures r.Ok? <==> src != null && dst != null
      ensures src == null ==> r == Fatal("missing src buffer")
      ensures src != null && dst == null ==> r == Fatal("missing dst buffer")
      ensures r.Ok? ==> issued == old(issued) + [CopyBufferSubData(src, dst, srcOffset, dstOffset, size)]
      ensures r.Fatal? ==> issued == old(issued)
      ensures pipeline == old(pipeline) && indexType == old(indexType)
    {
      if src == null {
        return Fatal("missing src buffer");
      }
      if dst == null {
        return Fatal("missing dst buffer");
      }
      issued := issued + [CopyBufferSubData(src, dst, srcOffset, dstOffset, size)];
      return Ok(());
    }

    /**
     * Uploads the whole image from the buffer: level 0, offset 0, the extent
     * components the image's dimension uses, in its format's client layout.
     */
    method CopyBufferToImage(src: Buffers.Buffer, dst: Images.Image)
      modifies this
      ensures issued == old(issued)
        + [UploadFromBuffer(src, dst, Images.WholeUpload(Images.UsedExtent(dst.GetDimension(), dst.GetExtent()), Common.TranslateImageFormat(dst.GetFormat())))]
      ensures pipeline == old(pipeline) && indexType == old(indexType)
    {
      var info := Common.TranslateImageFormat(dst.GetFormat());
      var upload := Images.WholeUpload(Images.UsedExtent(dst.GetDimension(), dst.GetExtent()), info);
      issued := issued + [UploadFromBuffer(src, dst, upload)];
    }
  }

  /** After `End`, drawing is fatal until a pipeline is bound again. */
  method DrawAfterEnd(buffer: CommandBuffer, vertexCount: G.U32, firstVertex: G.U32) returns (r: Outcome<()>)
    modifies buffer
    ensures r == Fatal("pipeline not set")
  {
    buffer.End();
    r := buffer.Draw(vertexCount, firstVertex);
  }
}
