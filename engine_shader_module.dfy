/**
 * The engine's OpenGL shader module.  Its stage table is the glal backend's,
 * line for line, so it is stated once, in `OpenGLShaderModule.ShaderType`.
 */
module EngineGLShaderModule {
  import opened Log
  import opened GL
  import F = FxngTypes
  import Glal = OpenGLShaderModule

  datatype ShaderModuleDesc = ShaderModuleDesc(stage: F.ShaderStage, code: seq<bv8>)

  class ShaderModule {
    const device: object
    const stage: F.ShaderStage
    const shaderType: GLenum
    const binaryFormat: GLenum
    const binary: seq<bv8>
    const entryPoint: string

    constructor (device: object, stage: F.ShaderStage, shaderType: GLenum, code: seq<bv8>)
      ensures this.device == device && this.stage == stage && this.shaderType == shaderType
      ensures binaryFormat == GL_SHADER_BINARY_FORMAT_SPIR_V && binary == code && entryPoint == "main"
    {
      this.device := device;
      this.stage := stage;
      this.shaderType := shaderType;
      binaryFormat := GL_SHADER_BINARY_FORMAT_SPIR_V;
      binary := code;
      entryPoint := "main";
    }

    function GetStage(): F.ShaderStage { stage }
  }

  /** The constructor: fatal for a stage without a shader type. */
  method NewShaderModule(device: object, desc: ShaderModuleDesc) returns (r: Outcome<ShaderModule>)
    ensures r.Ok? <==> desc.stage in Glal.GL_STAGES
    ensures r.Fatal? ==> r.message == "shader stage not supported"
    ensures r.Ok? ==> fresh(r.value) && r.value.GetStage() == desc.stage && Ok(r.value.shaderType) == Glal.ShaderType(desc.stage)
    ensures r.Ok? ==> r.value.binaryFormat == GL_SHADER_BINARY_FORMAT_SPIR_V && r.value.binary == desc.code && r.value.entryPoint == "main"
  {
    var shaderType := Glal.ShaderType(desc.stage);
    if shaderType.Fatal? {
      return Fatal(shaderType.message);
    }
    var shaderModule := new ShaderModule(device, desc.stage, shaderType.value, desc.code);
    return Ok(shaderModule);
  }
}
