/**
 * The glal OpenGL sampler: five sampler parameters, set in order from the
 * descriptor's filters and address modes.  An enumerator value outside its
 * enumeration is not refused: its parameter is set to 0.
 */
module OpenGLSampler {
  import opened GL
  import G = GlalTypes

  /** The numeric value of each enumerator, in declaration order from 0. */
  function FilterValue(filter: G.Filter): nat {
    match filter
    case Nearest => 0
    case Linear => 1
  }

  function AddressModeValue(mode: G.AddressMode): nat {
    match mode
    case Repeat => 0
    case Clamp => 1
    case Mirror => 2
  }

  /** The min- or mag-filter parameter for a filter enumerator value. */
  function FilterParameter(value: nat): (r: GLenum)
    ensures value > 1 ==> r == 0
  {
    if value == FilterValue(G.Nearest) then GL_NEAREST
    else if value == FilterValue(G.Linear) then GL_LINEAR
    else 0
  }

  /** The wrap parameter for an address mode enumerator value. */
  function WrapParameter(value: nat): (r: GLenum)
    ensures value > 2 ==> r == 0
  {
    if value == AddressModeValue(G.Repeat) then GL_REPEAT
    else if value == AddressModeValue(G.Clamp) then GL_CLAMP_TO_EDGE
    else if value == AddressModeValue(G.Mirror) then GL_MIRRORED_REPEAT
    else 0
  }

  /** Declared filters and modes map to their GL names, distinct ones to distinct names, never to 0. */
  lemma TablesOnDeclaredValues(f: G.Filter, g: G.Filter, a: G.AddressMode, b: G.AddressMode)
    ensures FilterParameter(FilterValue(G.Nearest)) == GL_NEAREST && FilterParameter(FilterValue(G.Linear)) == GL_LINEAR
    ensures WrapParameter(AddressModeValue(G.Repeat)) == GL_REPEAT
    ensures WrapParameter(AddressModeValue(G.Clamp)) == GL_CLAMP_TO_EDGE
    ensures WrapParameter(AddressModeValue(G.Mirror)) == GL_MIRRORED_REPEAT
    ensures FilterParameter(FilterValue(f)) != 0 && WrapParameter(AddressModeValue(a)) != 0
    ensures FilterParameter(FilterValue(f)) == FilterParameter(FilterValue(g)) ==> f == g
    ensures WrapParameter(AddressModeValue(a)) == WrapParameter(AddressModeValue(b)) ==> a == b
  {
  }

  class Sampler {
    const device: object
    /** The `(parameter, value)` pairs passed to the driver, in call order. */
    const parameters: seq<(GLenum, GLenum)>

    /**
     * Min and mag filters are translated independently; address U, V and W
     * set wrap S, T and R.
     */
    constructor (device: object, desc: G.SamplerDesc)
      ensures this.device == device
      ensures |parameters| == 5
      ensures parameters[0] == (GL_TEXTURE_MIN_FILTER, FilterParameter(FilterValue(desc.minFilter)))
      ensures parameters[1] == (GL_TEXTURE_MAG_FILTER, FilterParameter(FilterValue(desc.magFilter)))
      ensures parameters[2] == (GL_TEXTURE_WRAP_S, WrapParameter(AddressModeValue(desc.addressU)))
      ensures parameters[3] == (GL_TEXTURE_WRAP_T, WrapParameter(AddressModeValue(desc.addressV)))
      ensures parameters[4] == (GL_TEXTURE_WRAP_R, WrapParameter(AddressModeValue(desc.addressW)))
    {
      this.device := device;
      var minFilter := FilterParameter(FilterValue(desc.minFilter));
      var magFilter := FilterParameter(FilterValue(desc.magFilter));
      var wrapS := WrapParameter(AddressModeValue(desc.addressU));
      var wrapT := WrapParameter(AddressModeValue(desc.addressV));
      var wrapR := WrapParameter(AddressModeValue(desc.addressW));
      parameters := [
        (GL_TEXTURE_MIN_FILTER, minFilter), (GL_TEXTURE_MAG_FILTER, magFilter),
        (GL_TEXTURE_WRAP_S, wrapS), (GL_TEXTURE_WRAP_T, wrapT), (GL_TEXTURE_WRAP_R, wrapR)];
    }
  }
}
