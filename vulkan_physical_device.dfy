/**
 * The Vulkan physical device: the devices created from it, its feature
 * query and its limits.  It does not yet query the driver: every feature is
 * reported as supported, and the limits are one default-initialised object.
 */
module VulkanPhysicalDevice {
  import opened Registry
  import opened Log
  import G = GlalTypes

  /** The static limits object: zero-initialised, never written. */
  const STATIC_LIMITS: G.DeviceLimits := G.DeviceLimits(0, 0, 0)

  class PhysicalDevice {
    const instance: object
    var devices: seq<Handle>

    ghost predicate Valid()
      reads this
    {
      Distinct(devices)
    }

    constructor (instance: object)
      ensures Valid()
      ensures GetInstance() == instance
      ensures devices == []
    {
      this.instance := instance;
      devices := [];
    }

    /** The instance that enumerated this physical device. */
    function GetInstance(): object {
      instance
    }

    /** Appends a new device and returns it. */
    method CreateDevice() returns (device: Handle)
      requires Valid()
      modifies this
      ensures Valid()
      ensures fresh(device)
      ensures devices == old(devices) + [device]
    {
      device := new Handle();
      devices := devices + [device];
    }

    /**
     * Erases the first entry that is `device` and then deletes that device; a
     * device it does not own is silently ignored.  `destroyed` is the outcome
     * of the device's destructor (`VulkanDevice.Device.Teardown`), which
     * aborts when the device still owns objects: the entry is erased before
     * that abort.
     */
    method DestroyDevice(device: Handle, destroyed: Outcome<()>) returns (r: Outcome<()>)
      requires Valid()
      modifies this
      ensures Valid()
      ensures devices == RemoveFirst(old(devices), device)
      ensures device !in devices
      ensures device !in old(devices) ==> devices == old(devices)
      ensures r.Fatal? <==> device in old(devices) && destroyed.Fatal?
      ensures r.Fatal? ==> r.message == destroyed.message
    {
      var i := ScanFirst(devices, device);
      RemoveFirstDistinct(devices, device);
      r := Ok(());
      if i < |devices| {
        devices := devices[..i] + devices[i + 1..];
        r := destroyed;
      }
    }

    function Supports(feature: G.DeviceFeature): (r: bool)
      ensures r
    {
      true
    }

    /** The same static object on every call. */
    function GetLimits(): (r: G.DeviceLimits)
      ensures r == STATIC_LIMITS
    {
      STATIC_LIMITS
    }
  }
}
