/**
 * The glal OpenGL instance: it owns the single physical device OpenGL
 * exposes, enumerates it, and, when validation is enabled, installs a debug
 * callback that turns driver messages into log records.
 */
module OpenGLInstance {
  import opened Wrappers
  import opened GL
  import opened LogLevels
  import G = GlalTypes
  import PD = OpenGLPhysicalDevice

  /** Log level of a driver message's severity; unrecognised severities log at `Debug`. */
  function SeverityLevel(severity: GLenum): LogLevel {
    if severity == GL_DEBUG_SEVERITY_NOTIFICATION then Verbose
    else if severity == GL_DEBUG_SEVERITY_LOW then Info
    else if severity == GL_DEBUG_SEVERITY_MEDIUM then Warning
    else if severity == GL_DEBUG_SEVERITY_HIGH then Error
    else Debug
  }

  /** The driver's severities keep their order as log levels, and none of them aborts. */
  lemma SeverityOrder(severity: GLenum)
    ensures Rank(SeverityLevel(GL_DEBUG_SEVERITY_NOTIFICATION)) < Rank(SeverityLevel(GL_DEBUG_SEVERITY_LOW))
      < Rank(SeverityLevel(GL_DEBUG_SEVERITY_MEDIUM)) < Rank(SeverityLevel(GL_DEBUG_SEVERITY_HIGH))
    ensures SeverityLevel(severity) != LogLevel.Fatal
    ensures severity !in {GL_DEBUG_SEVERITY_NOTIFICATION, GL_DEBUG_SEVERITY_LOW, GL_DEBUG_SEVERITY_MEDIUM, GL_DEBUG_SEVERITY_HIGH}
      ==> SeverityLevel(severity) == Debug
  {}

  const KNOWN_SOURCES: seq<GLenum> := [
    GL_DEBUG_SOURCE_API, GL_DEBUG_SOURCE_APPLICATION, GL_DEBUG_SOURCE_OTHER,
    GL_DEBUG_SOURCE_SHADER_COMPILER, GL_DEBUG_SOURCE_THIRD_PARTY, GL_DEBUG_SOURCE_WINDOW_SYSTEM]

  function SourceName(source: GLenum): string {
    if source == GL_DEBUG_SOURCE_API then "api"
    else if source == GL_DEBUG_SOURCE_APPLICATION then "application"
    else if source == GL_DEBUG_SOURCE_OTHER then "other"
    else if source == GL_DEBUG_SOURCE_SHADER_COMPILER then "shader compiler"
    else if source == GL_DEBUG_SOURCE_THIRD_PARTY then "third party"
    else if source == GL_DEBUG_SOURCE_WINDOW_SYSTEM then "window system"
    else "unknown"
  }

  /** A source is named "unknown" exactly when it is none of the six the callback knows; known sources get distinct names. */
  lemma SourceNames(source: GLenum, other: GLenum)
    ensures SourceName(source) == "unknown" <==> source !in KNOWN_SOURCES
    ensures source in KNOWN_SOURCES && SourceName(source) == SourceName(other) ==> source == other
  {}

  const KNOWN_TYPES: seq<GLenum> := [
    GL_DEBUG_TYPE_DEPRECATED_BEHAVIOR, GL_DEBUG_TYPE_ERROR, GL_DEBUG_TYPE_MARKER,
    GL_DEBUG_TYPE_OTHER, GL_DEBUG_TYPE_PERFORMANCE, GL_DEBUG_TYPE_POP_GROUP,
    GL_DEBUG_TYPE_PORTABILITY, GL_DEBUG_TYPE_PUSH_GROUP, GL_DEBUG_TYPE_UNDEFINED_BEHAVIOR]

  function TypeName(messageType: GLenum): string {
    if messageType == GL_DEBUG_TYPE_DEPRECATED_BEHAVIOR then "deprecated behavior"
    else if messageType == GL_DEBUG_TYPE_ERROR then "error"
    else if messageType == GL_DEBUG_TYPE_MARKER then "marker"
    else if messageType == GL_DEBUG_TYPE_OTHER then "other"
    else if messageType == GL_DEBUG_TYPE_PERFORMANCE then "performance"
    else if messageType == GL_DEBUG_TYPE_POP_GROUP then "pop group"
    else if messageType == GL_DEBUG_TYPE_PORTABILITY then "portability"
    else if messageType == GL_DEBUG_TYPE_PUSH_GROUP then "push group"
    else if messageType == GL_DEBUG_TYPE_UNDEFINED_BEHAVIOR then "undefined behavior"
    else "unknown"
  }

  /** A type is named "unknown" exactly when it is none of the nine the callback knows; known types get distinct names. */
  lemma TypeNames(messageType: GLenum, other: GLenum)
    ensures TypeName(messageType) == "unknown" <==> messageType !in KNOWN_TYPES
    ensures messageType in KNOWN_TYPES && TypeName(messageType) == TypeName(other) ==> messageType == other
  {}

  /** What the debug callback logs for one driver message. */
  datatype LogRecord = LogRecord(level: LogLevel, source: string, messageType: string, id: nat, message: string)

  function DebugCallback(source: GLenum, messageType: GLenum, id: nat, severity: GLenum, message: string): (r: LogRecord)
    ensures r.level == SeverityLevel(severity) && r.source == SourceName(source) && r.messageType == TypeName(messageType)
    ensures r.id == id && r.message == message
  {
    LogRecord(SeverityLevel(severity), SourceName(source), TypeName(messageType), id, message)
  }

  class Instance {
    /** Whether the debug callback was installed. */
    const debugOutput: bool
    var physicalDevices: seq<PD.PhysicalDevice>

    /** `maxTextureSize` is what the driver reports for the largest texture. */
    constructor (enableValidation: bool, maxTextureSize: G.U32)
      ensures debugOutput == enableValidation
      ensures |physicalDevices| == 1 && fresh(physicalDevices[0])
      ensures physicalDevices[0].instance == this && physicalDevices[0].devices == []
      ensures physicalDevices[0].GetLimits().maxTextureSize2D == maxTextureSize
    {
      debugOutput := enableValidation;
      new;
      var physicalDevice := new PD.PhysicalDevice(this, maxTextureSize);
      physicalDevices := [physicalDevice];
    }

    /**
     * Returns the number of physical devices; when the caller passes an
     * output (`wantsArray`), also writes the physical-device array to it,
     * and otherwise writes nothing.
     */
    method EnumeratePhysicalDevices(wantsArray: bool) returns (count: nat, written: Option<seq<PD.PhysicalDevice>>)
      ensures count == |physicalDevices|
      ensures written.Some? <==> wantsArray
      ensures written.Some? ==> written.value == physicalDevices
    {
      if wantsArray {
        written := Some(physicalDevices);
      } else {
        written := None;
      }
      count := |physicalDevices|;
    }
  }
}
