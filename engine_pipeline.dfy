/**
 * The engine's OpenGL pipeline: its type, its vertex attributes and the
 * vertex stride summed from them, and the linked program.  The depth-test,
 * depth-write and blend flags of the descriptor are read and ignored.
 */
module EngineGLPipeline {
  import opened Log
  import G = GlalTypes
  import F = FxngTypes
  import Common = OpenGLCommon

  /** The parts of a pipeline descriptor the backend reads. */
  datatype PipelineDesc = PipelineDesc(
    pipelineType: F.PipelineType,
    stages: seq<object>,
    vertexAttributes: seq<G.VertexAttribute>,
    depthTest: bool, depthWrite: bool, blendEnable: bool)

  /** Bytes one attribute occupies in a vertex: its type's size times its count. */
  function AttributeBytes(attribute: G.VertexAttribute): (r: nat)
    requires attribute.dataType != G.DataType.None
    ensures attribute.count == 0 ==> r == 0
  {
    Common.TranslateDataType(attribute.dataType).value.size * attribute.count
  }

  predicate AllTyped(attributes: seq<G.VertexAttribute>) {
    forall i :: 0 <= i < |attributes| ==> attributes[i].dataType != G.DataType.None
  }

  /** The exact (unbounded) sum of the attributes' sizes. */
  function Stride(attributes: seq<G.VertexAttribute>): (r: nat)
    requires AllTyped(attributes)
    ensures |attributes| == 0 ==> r == 0
  {
    if |attributes| == 0 then 0
    else Stride(attributes[..|attributes| - 1]) + AttributeBytes(attributes[|attributes| - 1])
  }

  /** Two floats then three floats make a 20-byte vertex. */
  lemma TwoThenThreeFloats(a: G.VertexAttribute, b: G.VertexAttribute)
    requires a.dataType == G.Float && a.count == 2 && b.dataType == G.Float && b.count == 3
    ensures Stride([a, b]) == 20
  {
    assert [a, b][..1] == [a];
    assert [a][..0] == [];
  }

  /** Adding an attribute adds its bytes, whatever the attributes before it. */
  lemma {:induction false} StrideOfConcat(s: seq<G.VertexAttribute>, t: seq<G.VertexAttribute>)
    requires AllTyped(s) && AllTyped(t)
    ensures AllTyped(s + t) && Stride(s + t) == Stride(s) + Stride(t)
    decreases |t|
  {
    assert AllTyped(s + t) by {
      forall i | 0 <= i < |s + t| ensures (s + t)[i].dataType != G.DataType.None {
        if i < |s| { assert (s + t)[i] == s[i]; } else { assert (s + t)[i] == t[i - |s|]; }
      }
    }
    if |t| == 0 {
      assert s + t == s;
    } else {
      var t' := t[..|t| - 1];
      assert (s + t)[..|s + t| - 1] == s + t';
      assert AllTyped(t') by {
        forall i | 0 <= i < |t'| ensures t'[i].dataType != G.DataType.None { assert t'[i] == t[i]; }
      }
      StrideOfConcat(s, t');
    }
  }

  class Pipeline {
    const device: object
    const pipelineType: F.PipelineType
    const vertexAttributes: seq<G.VertexAttribute>
    /** The 32-bit accumulated stride. */
    const vertexStride: G.U32

    ghost predicate Valid() {
      AllTyped(vertexAttributes) && vertexStride == Stride(vertexAttributes) % G.U32_LIMIT
    }

    constructor (device: object, pipelineType: F.PipelineType, vertexAttributes: seq<G.VertexAttribute>, vertexStride: G.U32)
      ensures this.device == device && this.pipelineType == pipelineType
      ensures this.vertexAttributes == vertexAttributes && this.vertexStride == vertexStride
    {
      this.device := device;
      this.pipelineType := pipelineType;
      this.vertexAttributes := vertexAttributes;
      this.vertexStride := vertexStride;
    }

    function GetType(): (r: F.PipelineType)
    {
      pipelineType
    }

    function GetVertexStride(): (r: G.U32)
    {
      vertexStride
    }

    /**
     * `LayoutVertexArray`: one format call per stored attribute, in order,
     * each with that attribute's own location, binding, count and offset.
     */
    method LayoutVertexArray() returns (formats: seq<Common.AttribFormat>)
      requires Valid()
      ensures |formats| == |vertexAttributes|
      ensures forall i :: 0 <= i < |formats| ==> Common.AttribFormatOf(vertexAttributes[i]) == Ok(formats[i])
    {
      formats := [];
      for i := 0 to |vertexAttributes|
        invariant |formats| == i
        invariant forall j :: 0 <= j < i ==> Common.AttribFormatOf(vertexAttributes[j]) == Ok(formats[j])
      {
        var format := Common.AttribFormatOf(vertexAttributes[i]);
        formats := formats + [format.value];
      }
    }
  }

  /**
   * The constructor: attributes are stored verbatim and their sizes summed
   * with 32-bit wrap-around; an attribute without a data type is fatal, and
   * so are a failed link and a failed validation, which the driver decides.
   */
  method NewPipeline(device: object, desc: PipelineDesc, linked: bool, validated: bool) returns (r: Outcome<Pipeline>)
    ensures r.Ok? <==> AllTyped(desc.vertexAttributes) && linked && validated
    ensures !AllTyped(desc.vertexAttributes) ==> r == Fatal("data type is not set")
    ensures AllTyped(desc.vertexAttributes) && !linked ==> r == Fatal("failed to link program")
    ensures AllTyped(desc.vertexAttributes) && linked && !validated ==> r == Fatal("failed to validate program")
    ensures r.Ok? ==> fresh(r.value) && r.value.Valid()
    ensures r.Ok? ==> r.value.pipelineType == desc.pipelineType && r.value.vertexAttributes == desc.vertexAttributes
  {
    var attributes := desc.vertexAttributes;
    var stride: G.U32 := 0;
    for i := 0 to |attributes|
      invariant AllTyped(attributes[..i])
      invariant stride == Stride(attributes[..i]) % G.U32_LIMIT
    {
      var info := Common.TranslateDataType(attributes[i].dataType);
      if info.Fatal? {
        return Fatal(info.message);
      }
      assert attributes[..i + 1][..i] == attributes[..i];
      stride := (stride + info.value.size * attributes[i].count) % G.U32_LIMIT;
    }
    assert attributes[..|attributes|] == attributes;
    if !linked {
      return Fatal("failed to link program");
    }
    if !validated {
      return Fatal("failed to validate program");
    }
    var pipeline := new Pipeline(device, desc.pipelineType, attributes, stride);
    return Ok(pipeline);
  }
}
