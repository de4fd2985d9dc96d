/**
 * The glal OpenGL pipeline: its layout, type and topology, the vertex
 * bindings and attributes copied from its descriptor, and the linked
 * program.  The depth, blend and primitive-restart flags are read and
 * ignored.
 */
module OpenGLPipeline {
  import opened Log
  import opened Wrappers
  import G = GlalTypes
  import Common = OpenGLCommon

  /** The parts of a pipeline descriptor the backend reads. */
  datatype PipelineDesc = PipelineDesc(
    pipelineType: G.PipelineType,
    topology: G.PrimitiveTopology,
    layout: object,
    stages: seq<object>,
    vertexBindings: seq<G.VertexBinding>,
    vertexAttributes: seq<G.VertexAttribute>,
    depthTest: bool, depthWrite: bool, blendEnable: bool, primitiveRestartEnable: bool)

  /** The vertex-buffer call for one binding point: the buffer at `offset`, with the binding's stride. */
  datatype VertexBufferCall = VertexBufferCall(binding: G.U32, buffer: object, offset: G.U32, stride: G.U32)

  /** The first vertex binding numbered `binding`, if any. */
  function FirstBinding(bindings: seq<G.VertexBinding>, binding: G.U32): (r: Option<G.VertexBinding>)
    ensures r.Some? <==> exists i :: 0 <= i < |bindings| && bindings[i].binding == binding
    ensures r.Some? ==> r.value.binding == binding
    ensures r.Some? ==> exists i :: 0 <= i < |bindings| && bindings[i] == r.value && (forall j :: 0 <= j < i ==> bindings[j].binding != binding)
  {
    if |bindings| == 0 then None
    else if bindings[0].binding == binding then Some(bindings[0])
    else
      var rest := FirstBinding(bindings[1..], binding);
      assert forall i :: 1 <= i < |bindings| ==> bindings[i] == bindings[1..][i - 1];
      rest
  }

  class Pipeline {
    const device: object
    const layout: object
    const pipelineType: G.PipelineType
    const topology: G.PrimitiveTopology
    const vertexBindings: seq<G.VertexBinding>
    const vertexAttributes: seq<G.VertexAttribute>

    constructor (device: object, desc: PipelineDesc)
      ensures this.device == device && layout == desc.layout
      ensures pipelineType == desc.pipelineType && topology == desc.topology
      ensures vertexBindings == desc.vertexBindings && vertexAttributes == desc.vertexAttributes
    {
      this.device := device;
      layout := desc.layout;
      pipelineType := desc.pipelineType;
      topology := desc.topology;
      vertexBindings := desc.vertexBindings;
      vertexAttributes := desc.vertexAttributes;
    }

    function GetType(): (r: G.PipelineType)
    {
      pipelineType
    }

    function GetTopology(): (r: G.PrimitiveTopology)
    {
      topology
    }

    /**
     * `BindVertexArray`: configures every stored attribute in order; the
     * first attribute without a data type is fatal.
     */
    method BindVertexArray() returns (r: Outcome<seq<Common.AttribFormat>>)
      ensures r.Ok? <==> forall i :: 0 <= i < |vertexAttributes| ==> vertexAttributes[i].dataType != G.DataType.None
      ensures r.Fatal? ==> r.message == "data type is not set"
      ensures r.Ok? ==> |r.value| == |vertexAttributes|
      ensures r.Ok? ==> forall i :: 0 <= i < |r.value| ==> Common.AttribFormatOf(vertexAttributes[i]) == Ok(r.value[i])
    {
      var formats: seq<Common.AttribFormat> := [];
      for i := 0 to |vertexAttributes|
        invariant |formats| == i
        invariant forall j :: 0 <= j < i ==> vertexAttributes[j].dataType != G.DataType.None
        invariant forall j :: 0 <= j < i ==> Common.AttribFormatOf(vertexAttributes[j]) == Ok(formats[j])
      {
        var format := Common.AttribFormatOf(vertexAttributes[i]);
        if format.Fatal? {
          return Fatal(format.message);
        }
        formats := formats + [format.value];
      }
      return Ok(formats);
    }

    /**
     * `BindVertexBuffer`: binds `buffer` with the stride of the first stored
     * binding numbered `binding`; with no such binding nothing is bound.
     */
    method BindVertexBuffer(buffer: object, binding: G.U32, offset: G.U32) returns (call: Option<VertexBufferCall>)
      ensures call.Some? <==> FirstBinding(vertexBindings, binding).Some?
      ensures call.Some? ==> call.value == VertexBufferCall(binding, buffer, offset, FirstBinding(vertexBindings, binding).value.stride)
    {
      call := None;
      var i := 0;
      while i < |vertexBindings|
        invariant 0 <= i <= |vertexBindings|
        invariant FirstBinding(vertexBindings, binding) == FirstBinding(vertexBindings[i..], binding)
      {
        if vertexBindings[i].binding == binding {
          call := Some(VertexBufferCall(vertexBindings[i].binding, buffer, offset, vertexBindings[i].stride));
          break;
        }
        assert vertexBindings[i..][1..] == vertexBindings[i + 1..];
        i := i + 1;
      }
    }
  }

  /** The constructor, with the program's driver-decided link and validation results; either failing is fatal. */
  method NewPipeline(device: object, desc: PipelineDesc, linked: bool, validated: bool) returns (r: Outcome<Pipeline>)
    ensures r.Ok? <==> linked && validated
    ensures !linked ==> r == Fatal("failed to link program")
    ensures linked && !validated ==> r == Fatal("failed to validate program")
    ensures r.Ok? ==> fresh(r.value) && r.value.vertexBindings == desc.vertexBindings && r.value.vertexAttributes == desc.vertexAttributes
    ensures r.Ok? ==> r.value.GetType() == desc.pipelineType && r.value.GetTopology() == desc.topology
  {
    var pipeline := new Pipeline(device, desc);
    if !linked {
      return Fatal("failed to link program");
    }
    if !validated {
      return Fatal("failed to validate program");
    }
    return Ok(pipeline);
  }
}
