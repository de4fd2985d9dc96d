/**
 * The engine's OpenGL buffer: as in the glal copy, except that every memory
 * usage other than the two host-visible ones, `None` included, gets no
 * storage flags and cannot be mapped.
 */
module EngineGLBuffer {
  import opened Log
  import opened GL
  import F = FxngTypes

  /** The storage flags of a memory usage. */
  function StorageFlags(memory: F.MemoryUsage): GLenum {
    match memory
    case HostToDevice => GL_MAP_WRITE_BIT
    case DeviceToHost => GL_MAP_READ_BIT
    case _ => 0
  }

  /** The access `Map` requests; any other memory usage cannot be mapped. */
  function MapAccess(memory: F.MemoryUsage): Outcome<GLenum> {
    match memory
    case HostToDevice => Ok(GL_WRITE_ONLY)
    case DeviceToHost => Ok(GL_READ_ONLY)
    case _ => Fatal("cannot map buffer with memory usage")
  }

  /**
   * A buffer can be mapped exactly when its storage allows some mapping,
   * and the access requested is the one the storage flags allow.  Both
   * device-local memory and `None` are fatal to map.
   */
  lemma MapAgreesWithStorage(memory: F.MemoryUsage)
    ensures MapAccess(memory).Ok? <==> StorageFlags(memory) != 0
    ensures MapAccess(memory) == Ok(GL_WRITE_ONLY) <==> StorageFlags(memory) == GL_MAP_WRITE_BIT
    ensures MapAccess(memory) == Ok(GL_READ_ONLY) <==> StorageFlags(memory) == GL_MAP_READ_BIT
    ensures MapAccess(memory).Fatal? <==> memory == F.MemoryUsage.DeviceLocal || memory == F.MemoryUsage.None
  {
  }

  class Buffer {
    const device: object
    const size: nat
    const usage: F.BufferUsage
    const memory: F.MemoryUsage
    /** The flags the storage was allocated with. */
    const storageFlags: GLenum
    /** The number of bytes the storage was allocated with. */
    const storageSize: nat

    constructor (device: object, desc: F.BufferDesc)
      ensures this.device == device && size == desc.size && usage == desc.usage && memory == desc.memory
      ensures storageFlags == StorageFlags(desc.memory) && storageSize == desc.size
    {
      this.device := device;
      size := desc.size;
      usage := desc.usage;
      memory := desc.memory;
      storageFlags := StorageFlags(desc.memory);
      storageSize := desc.size;
    }

    function GetSize(): nat {
      size
    }

    function GetUsage(): F.BufferUsage {
      usage
    }

    /** Maps the storage with the access its memory usage allows; any other usage is fatal. */
    method Map() returns (r: Outcome<GLenum>)
      ensures r == MapAccess(memory)
      ensures r.Ok? ==> r.value == GL_WRITE_ONLY || r.value == GL_READ_ONLY
    {
      match memory {
        case HostToDevice => r := Ok(GL_WRITE_ONLY);
        case DeviceToHost => r := Ok(GL_READ_ONLY);
        case _ => r := Fatal("cannot map buffer with memory usage");
      }
    }
  }
}
