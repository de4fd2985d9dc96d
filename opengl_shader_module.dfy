/**
 * The glal OpenGL shader module: a shader object of the stage's type,
 * loaded from a SPIR-V binary and specialised at entry point "main".
 */
module OpenGLShaderModule {
  import opened Wrappers
  import opened Log
  import opened GL
  import G = GlalTypes

  /** The six stages OpenGL has shader types for. */
  const GL_STAGES: set<G.ShaderStage> := {
    G.STAGE_VERTEX, G.STAGE_GEOMETRY, G.STAGE_TESS_CONTROL, G.STAGE_TESS_EVALUATION, G.STAGE_FRAGMENT, G.STAGE_COMPUTE}

  /** The shader type of a stage; ray stages, no stage and combined masks are fatal. */
  function ShaderType(stage: G.ShaderStage): (r: Outcome<GLenum>)
    ensures r.Ok? <==> stage in GL_STAGES
    ensures r.Fatal? ==> r.message == "shader stage not supported"
  {
    if stage == G.STAGE_VERTEX then Ok(GL_VERTEX_SHADER)
    else if stage == G.STAGE_GEOMETRY then Ok(GL_GEOMETRY_SHADER)
    else if stage == G.STAGE_TESS_CONTROL then Ok(GL_TESS_CONTROL_SHADER)
    else if stage == G.STAGE_TESS_EVALUATION then Ok(GL_TESS_EVALUATION_SHADER)
    else if stage == G.STAGE_FRAGMENT then Ok(GL_FRAGMENT_SHADER)
    else if stage == G.STAGE_COMPUTE then Ok(GL_COMPUTE_SHADER)
    else Fatal("shader stage not supported")
  }

  function StageOf(shaderType: GLenum): Option<G.ShaderStage> {
    if shaderType == GL_VERTEX_SHADER then Some(G.STAGE_VERTEX)
    else if shaderType == GL_GEOMETRY_SHADER then Some(G.STAGE_GEOMETRY)
    else if shaderType == GL_TESS_CONTROL_SHADER then Some(G.STAGE_TESS_CONTROL)
    else if shaderType == GL_TESS_EVALUATION_SHADER then Some(G.STAGE_TESS_EVALUATION)
    else if shaderType == GL_FRAGMENT_SHADER then Some(G.STAGE_FRAGMENT)
    else if shaderType == GL_COMPUTE_SHADER then Some(G.STAGE_COMPUTE)
    else None
  }

  /** Each supported stage gets its own shader type. */
  lemma ShaderTypeRoundTrip(stage: G.ShaderStage)
    requires stage in GL_STAGES
    ensures StageOf(ShaderType(stage).value) == Some(stage)
  {
  }

  /** The ray stages are the single stages OpenGL has no shader type for. */
  lemma RayStagesUnsupported()
    ensures forall i :: 0 <= i < |G.SINGLE_STAGES| ==> (ShaderType(G.SINGLE_STAGES[i]).Fatal? <==> 6 <= i)
  {
  }

  datatype ShaderModuleDesc = ShaderModuleDesc(stage: G.ShaderStage, code: seq<bv8>)

  class ShaderModule {
    const device: object
    const stage: G.ShaderStage
    const shaderType: GLenum
    const binaryFormat: GLenum
    const binary: seq<bv8>
    const entryPoint: string

    constructor (device: object, stage: G.ShaderStage, shaderType: GLenum, code: seq<bv8>)
      ensures this.device == device && this.stage == stage && this.shaderType == shaderType
      ensures binaryFormat == GL_SHADER_BINARY_FORMAT_SPIR_V && binary == code && entryPoint == "main"
    {
      this.device := device;
      this.stage := stage;
      this.shaderType := shaderType;
      binaryFormat := GL_SHADER_BINARY_FORMAT_SPIR_V;
      binary := code;
      entryPoint := "main";
    }

    function GetStage(): G.ShaderStage { stage }
  }

  /** The constructor: fatal for a stage without a shader type. */
  method NewShaderModule(device: object, desc: ShaderModuleDesc) returns (r: Outcome<ShaderModule>)
    ensures r.Ok? <==> desc.stage in GL_STAGES
    ensures r.Fatal? ==> r.message == "shader stage not supported"
    ensures r.Ok? ==> fresh(r.value) && r.value.GetStage() == desc.stage && Ok(r.value.shaderType) == ShaderType(desc.stage)
    ensures r.Ok? ==> r.value.binaryFormat == GL_SHADER_BINARY_FORMAT_SPIR_V && r.value.binary == desc.code && r.value.entryPoint == "main"
  {
    var shaderType := ShaderType(desc.stage);
    if shaderType.Fatal? {
      return Fatal(shaderType.message);
    }
    var shaderModule := new ShaderModule(device, desc.stage, shaderType.value, desc.code);
    return Ok(shaderModule);
  }
}
