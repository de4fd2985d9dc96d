/**
 * The engine's OpenGL physical device: the devices created from it, a fixed
 * feature set and fixed limits.  Its registry is permissive: destroying a
 * device it does not own does nothing, and its destructor deletes every
 * device still listed.
 */
module EngineGLPhysicalDevice {
  import opened Registry
  import F = FxngTypes

  const MAX_UNIFORM_BUFFERS: F.U32 := 16
  const MAX_BUFFER_SIZE: nat := 0x4000_0000

  class PhysicalDevice {
    const instance: object
    const limits: F.DeviceLimits
    var devices: seq<Handle>

    ghost predicate Valid()
      reads this
    {
      Distinct(devices)
    }

    /** `maxTextureSize` is what the driver reports for the largest texture. */
    constructor (instance: object, maxTextureSize: F.U32)
      ensures Valid()
      ensures this.instance == instance && devices == []
      ensures GetLimits() == F.DeviceLimits(maxTextureSize, 16, 0x4000_0000)
    {
      this.instance := instance;
      limits := F.DeviceLimits(maxTextureSize, MAX_UNIFORM_BUFFERS, MAX_BUFFER_SIZE);
      devices := [];
    }

    /** The destructor: deletes every listed device, in order, and empties the list. */
    method Teardown() returns (deleted: seq<Handle>)
      modifies this
      ensures deleted == old(devices)
      ensures devices == []
    {
      deleted := devices;
      devices := [];
    }

    /** Appends a new device and returns it. */
    method CreateDevice() returns (device: Handle)
      requires Valid()
      modifies this
      ensures Valid()
      ensures fresh(device)
      ensures devices == old(devices) + [device]
    {
      device := new Handle();
      devices := devices + [device];
    }

    /** Erases the first entry that is `device`; a device it does not own is silently ignored. */
    method DestroyDevice(device: Handle)
      requires Valid()
      modifies this
      ensures Valid()
      ensures devices == RemoveFirst(old(devices), device)
      ensures device !in devices
      ensures device !in old(devices) ==> devices == old(devices)
    {
      var i := ScanFirst(devices, device);
      RemoveFirstDistinct(devices, device);
      if i < |devices| {
        devices := devices[..i] + devices[i + 1..];
      }
    }

    /**
     * Geometry shaders, tessellation and compute.  Features are bit flags
     * here, and the test is equality, so a mask naming two supported
     * features is reported unsupported.
     */
    function Supports(feature: F.DeviceFeature): (r: bool)
      ensures r <==> feature in {F.FEATURE_GEOMETRY_SHADER, F.FEATURE_TESSELLATION, F.FEATURE_COMPUTE}
    {
      feature == F.FEATURE_GEOMETRY_SHADER || feature == F.FEATURE_TESSELLATION || feature == F.FEATURE_COMPUTE
    }

    function GetLimits(): F.DeviceLimits {
      limits
    }
  }

  /** A mask with two or more features set is never supported, even when each feature is. */
  lemma CombinedFeaturesUnsupported(pd: PhysicalDevice, feature: F.DeviceFeature)
    requires feature & (feature - 1) != 0
    ensures !pd.Supports(feature)
  {}
}
