/**
 * The glal OpenGL physical device: the devices created from it, a fixed
 * feature set and fixed limits.  Its registry is strict: destroying a device
 * it does not own aborts, and its destructor aborts unless every device was
 * destroyed first.
 */
module OpenGLPhysicalDevice {
  import opened Registry
  import opened Log
  import G = GlalTypes

  const MAX_UNIFORM_BUFFERS: G.U32 := 16
  const MAX_BUFFER_SIZE: nat := 0x4000_0000

  const NOT_OWNED: string := "device is not owned by physical device"
  const LEAKED: string := "not all devices were explicitly destroyed"

  class PhysicalDevice {
    const instance: object
    const limits: G.DeviceLimits
    var devices: seq<Handle>

    ghost predicate Valid()
      reads this
    {
      Distinct(devices)
    }

    /** `maxTextureSize` is what the driver reports for the largest texture. */
    constructor (instance: object, maxTextureSize: G.U32)
      ensures Valid()
      ensures this.instance == instance && devices == []
      ensures GetLimits() == G.DeviceLimits(maxTextureSize, 16, 0x4000_0000)
    {
      this.instance := instance;
      limits := G.DeviceLimits(maxTextureSize, MAX_UNIFORM_BUFFERS, MAX_BUFFER_SIZE);
      devices := [];
    }

    /** Appends a new device and returns it. */
    method CreateDevice() returns (device: Handle)
      requires Valid()
      modifies this
      ensures Valid()
      ensures fresh(device)
      ensures devices == old(devices) + [device]
    {
      device := new Handle();
      devices := devices + [device];
    }

    /** Erases the first entry that is `device`; aborts when the device is not owned. */
    method DestroyDevice(device: Handle) returns (r: Outcome<()>)
      requires Valid()
      modifies this
      ensures Valid()
      ensures r.Ok? <==> device in old(devices)
      ensures r.Ok? ==> devices == RemoveFirst(old(devices), device) && device !in devices
      ensures r.Fatal? ==> devices == old(devices) && r.message == NOT_OWNED
    {
      var i := ScanFirst(devices, device);
      if i < |devices| {
        RemoveFirstDistinct(devices, device);
        devices := devices[..i] + devices[i + 1..];
        r := Ok(());
      } else {
        r := Fatal(NOT_OWNED);
      }
    }

    /** The destructor's check. */
    function Teardown(): (r: Outcome<()>)
      reads this
      ensures r.Ok? <==> devices == []
      ensures r.Fatal? ==> r.message == LEAKED
    {
      Assert(devices == [], LEAKED)
    }

    /** Geometry shaders, tessellation and compute, and nothing else. */
    function Supports(feature: G.DeviceFeature): (r: bool)
      ensures r <==> feature in {G.GeometryShader, G.Tessellation, G.DeviceFeature.Compute}
    {
      feature == G.GeometryShader || feature == G.Tessellation || feature == G.DeviceFeature.Compute
    }

    function GetLimits(): G.DeviceLimits {
      limits
    }
  }
}
