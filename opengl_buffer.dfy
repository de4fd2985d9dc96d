/**
 * The glal OpenGL buffer: immutable storage of the requested size whose
 * storage flags, and the access `Map` asks for, follow the memory usage.
 */
module OpenGLBuffer {
  import opened Log
  import opened GL
  import G = GlalTypes

  /** The storage flags of a memory usage. */
  function StorageFlags(memory: G.MemoryUsage): GLenum {
    match memory
    case HostToDevice => GL_MAP_WRITE_BIT
    case DeviceToHost => GL_MAP_READ_BIT
    case DeviceLocal => 0
  }

  /** The access `Map` requests; device-local memory cannot be mapped. */
  function MapAccess(memory: G.MemoryUsage): Outcome<GLenum> {
    match memory
    case HostToDevice => Ok(GL_WRITE_ONLY)
    case DeviceToHost => Ok(GL_READ_ONLY)
    case DeviceLocal => Fatal("device local memory not accessible")
  }

  /**
   * A buffer can be mapped exactly when its storage allows some mapping,
   * and the access requested is the one the storage flags allow: writing
   * for host-to-device memory, reading for device-to-host memory.
   */
  lemma MapAgreesWithStorage(memory: G.MemoryUsage)
    ensures MapAccess(memory).Ok? <==> StorageFlags(memory) != 0
    ensures MapAccess(memory) == Ok(GL_WRITE_ONLY) <==> StorageFlags(memory) == GL_MAP_WRITE_BIT
    ensures MapAccess(memory) == Ok(GL_READ_ONLY) <==> StorageFlags(memory) == GL_MAP_READ_BIT
    ensures MapAccess(memory).Fatal? ==> memory == G.DeviceLocal
  {
  }

  class Buffer {
    const device: object
    const size: nat
    const usage: G.BufferUsage
    const memory: G.MemoryUsage
    /** The flags the storage was allocated with. */
    const storageFlags: GLenum
    /** The number of bytes the storage was allocated with. */
    const storageSize: nat

    constructor (device: object, desc: G.BufferDesc)
      ensures this.device == device && size == desc.size && usage == desc.usage && memory == desc.memory
      ensures storageFlags == StorageFlags(desc.memory) && storageSize == desc.size
    {
      this.device := device;
      size := desc.size;
      usage := desc.usage;
      memory := desc.memory;
      storageFlags := StorageFlags(desc.memory);
      storageSize := desc.size;
    }

    function GetSize(): nat {
      size
    }

    function GetUsage(): G.BufferUsage {
      usage
    }

    /** Maps the storage with the access its memory usage allows; device-local memory is fatal. */
    method Map() returns (r: Outcome<GLenum>)
      ensures r == MapAccess(memory)
      ensures r.Ok? ==> r.value == GL_WRITE_ONLY || r.value == GL_READ_ONLY
    {
      match memory {
        case HostToDevice => r := Ok(GL_WRITE_ONLY);
        case DeviceToHost => r := Ok(GL_READ_ONLY);
        case DeviceLocal => r := Fatal("device local memory not accessible");
      }
    }
  }
}
