/**
 * The engine's OpenGL instance: the same single physical device and debug
 * tables as the glal copy, but held as a heap array plus a count, which the
 * destructor deletes and resets.
 */
module EngineGLInstance {
  import opened Wrappers
  import opened GL
  import opened LogLevels
  import F = FxngTypes
  import PD = EngineGLPhysicalDevice
  import Glal = OpenGLInstance

  /** Log level of a driver message's severity; unrecognised severities log at `Debug`. */
  function SeverityLevel(severity: GLenum): LogLevel {
    if severity == GL_DEBUG_SEVERITY_NOTIFICATION then Verbose
    else if severity == GL_DEBUG_SEVERITY_LOW then Info
    else if severity == GL_DEBUG_SEVERITY_MEDIUM then Warning
    else if severity == GL_DEBUG_SEVERITY_HIGH then Error
    else Debug
  }

  function SourceName(source: GLenum): string {
    if source == GL_DEBUG_SOURCE_API then "api"
    else if source == GL_DEBUG_SOURCE_APPLICATION then "application"
    else if source == GL_DEBUG_SOURCE_OTHER then "other"
    else if source == GL_DEBUG_SOURCE_SHADER_COMPILER then "shader compiler"
    else if source == GL_DEBUG_SOURCE_THIRD_PARTY then "third party"
    else if source == GL_DEBUG_SOURCE_WINDOW_SYSTEM then "window system"
    else "unknown"
  }

  function TypeName(messageType: GLenum): string {
    if messageType == GL_DEBUG_TYPE_DEPRECATED_BEHAVIOR then "deprecated behavior"
    else if messageType == GL_DEBUG_TYPE_ERROR then "error"
    else if messageType == GL_DEBUG_TYPE_MARKER then "marker"
    else if messageType == GL_DEBUG_TYPE_OTHER then "other"
    else if messageType == GL_DEBUG_TYPE_PERFORMANCE then "performance"
    else if messageType == GL_DEBUG_TYPE_POP_GROUP then "pop group"
    else if messageType == GL_DEBUG_TYPE_PORTABILITY then "portability"
    else if messageType == GL_DEBUG_TYPE_PUSH_GROUP then "push group"
    else if messageType == GL_DEBUG_TYPE_UNDEFINED_BEHAVIOR then "undefined behavior"
    else "unknown"
  }

  /**
   * The engine's three tables agree with the glal copy's on every input, so
   * the properties proved there (severity order, the "unknown" defaults,
   * distinct names) hold here too.
   */
  lemma TablesAgreeWithGlal(severity: GLenum, source: GLenum, messageType: GLenum)
    ensures SeverityLevel(severity) == Glal.SeverityLevel(severity)
    ensures SourceName(source) == Glal.SourceName(source)
    ensures TypeName(messageType) == Glal.TypeName(messageType)
    ensures SourceName(source) == "unknown" <==> source !in Glal.KNOWN_SOURCES
    ensures TypeName(messageType) == "unknown" <==> messageType !in Glal.KNOWN_TYPES
  {
    Glal.SourceNames(source, source);
    Glal.TypeNames(messageType, messageType);
  }

  class Instance {
    const debugOutput: bool
    /** The physical-device array; the null pointer is the empty sequence. */
    var physicalDevices: seq<PD.PhysicalDevice>
    var physicalDeviceCount: nat

    constructor (enableValidation: bool, maxTextureSize: F.U32)
      ensures debugOutput == enableValidation
      ensures physicalDeviceCount == 1 && |physicalDevices| == 1 && fresh(physicalDevices[0])
      ensures physicalDevices[0].instance == this && physicalDevices[0].devices == []
      ensures physicalDevices[0].GetLimits().maxTextureSize2D == maxTextureSize
    {
      debugOutput := enableValidation;
      new;
      var physicalDevice := new PD.PhysicalDevice(this, maxTextureSize);
      physicalDevices := [physicalDevice];
      physicalDeviceCount := 1;
    }

    /** The destructor: deletes the array and returns what it deleted, leaving a null array and a count of 0. */
    method Dispose() returns (deleted: seq<PD.PhysicalDevice>)
      modifies this
      ensures deleted == old(physicalDevices)
      ensures physicalDevices == [] && physicalDeviceCount == 0
    {
      deleted := physicalDevices;
      physicalDevices := [];
      physicalDeviceCount := 0;
    }

    /** Returns the stored count, and writes the array pointer only when the caller passes an output. */
    method EnumeratePhysicalDevices(wantsArray: bool) returns (count: nat, written: Option<seq<PD.PhysicalDevice>>)
      ensures count == physicalDeviceCount
      ensures written.Some? <==> wantsArray
      ensures written.Some? ==> written.value == physicalDevices
    {
      if wantsArray {
        written := Some(physicalDevices);
      } else {
        written := None;
      }
      count := physicalDeviceCount;
    }
  }
}
