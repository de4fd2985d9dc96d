/**
 * The glal OpenGL device's ownership registry.
 *
 * Eleven lists, one per object kind, and a single queue made at
 * construction.  Creating appends.  Destroying erases the first entry that
 * is the object and does nothing when the device does not own it.  The
 * destructor deletes every object still listed, list by list, then the
 * queue.
 */
module OpenGLDevice {
  import opened Registry
  import opened Log
  import G = GlalTypes
  import PD = OpenGLPhysicalDevice
  import Modules = OpenGLShaderModule
  import Pipelines = OpenGLPipeline

  datatype Kind =
    | Buffer | Image | Sampler | ShaderModule | PipelineLayout | Pipeline
    | DescriptorSetLayout | DescriptorSet | Swapchain | CommandBuffer | Fence

  /** The lists in the order the destructor deletes them. */
  const TEARDOWN_ORDER: seq<Kind> := [
    Buffer, Image, Sampler, ShaderModule, PipelineLayout, Pipeline,
    DescriptorSetLayout, DescriptorSet, Swapchain, CommandBuffer, Fence]

  /** Every kind has its list deleted by the destructor. */
  lemma EveryKindTornDown(k: Kind)
    ensures k in TEARDOWN_ORDER
  {
    match k
    case Buffer => assert TEARDOWN_ORDER[0] == k;
    case Image => assert TEARDOWN_ORDER[1] == k;
    case Sampler => assert TEARDOWN_ORDER[2] == k;
    case ShaderModule => assert TEARDOWN_ORDER[3] == k;
    case PipelineLayout => assert TEARDOWN_ORDER[4] == k;
    case Pipeline => assert TEARDOWN_ORDER[5] == k;
    case DescriptorSetLayout => assert TEARDOWN_ORDER[6] == k;
    case DescriptorSet => assert TEARDOWN_ORDER[7] == k;
    case Swapchain => assert TEARDOWN_ORDER[8] == k;
    case CommandBuffer => assert TEARDOWN_ORDER[9] == k;
    case Fence => assert TEARDOWN_ORDER[10] == k;
  }

  class Device {
    const physicalDevice: PD.PhysicalDevice
    const queue: Handle
    var lists: map<Kind, seq<Handle>>

    ghost predicate Valid()
      reads this
    {
      (forall k: Kind :: k in lists) &&
      (forall k: Kind :: k in lists ==> Distinct(lists[k]))
    }

    /** Makes the device's one queue. */
    constructor (physicalDevice: PD.PhysicalDevice)
      ensures Valid()
      ensures this.physicalDevice == physicalDevice
      ensures fresh(queue)
      ensures forall k: Kind :: lists[k] == []
    {
      this.physicalDevice := physicalDevice;
      queue := new Handle();
      lists := map k: Kind | k in TEARDOWN_ORDER :: [];
      forall k: Kind ensures k in TEARDOWN_ORDER {
        EveryKindTornDown(k);
      }
    }

    /**
     * `CreateBuffer` ... `CreateFence`: constructs the object, then appends it
     * at the end of its kind's list.  `constructed` is the outcome of the
     * object's own constructor (`OpenGLShaderModule.NewShaderModule`,
     * `OpenGLPipeline.NewPipeline`, ...); when that aborts, nothing is
     * appended.
     */
    method Create(kind: Kind, constructed: Outcome<()>) returns (r: Outcome<Handle>)
      requires Valid()
      modifies this
      ensures Valid()
      ensures r.Ok? <==> constructed.Ok?
      ensures r.Ok? ==> fresh(r.value) && lists == old(lists)[kind := old(lists)[kind] + [r.value]]
      ensures r.Fatal? ==> r.message == constructed.message && lists == old(lists)
    {
      if constructed.Fatal? {
        return Fatal(constructed.message);
      }
      var h := new Handle();
      lists := lists[kind := lists[kind] + [h]];
      r := Ok(h);
    }

    /** `CreateShaderModule`: the module's constructor, which aborts on a stage OpenGL has no shader type for, then the append. */
    method CreateShaderModule(desc: Modules.ShaderModuleDesc) returns (r: Outcome<Handle>)
      requires Valid()
      modifies this
      ensures Valid()
      ensures r.Ok? <==> desc.stage in Modules.GL_STAGES
      ensures r.Ok? ==> fresh(r.value) && lists == old(lists)[ShaderModule := old(lists)[ShaderModule] + [r.value]]
      ensures r.Fatal? ==> r.message == "shader stage not supported" && lists == old(lists)
    {
      var shaderModule := Modules.NewShaderModule(this, desc);
      r := Create(ShaderModule, Status(shaderModule));
    }

    /** `CreatePipeline`: the pipeline's constructor, which aborts when the driver fails to link or validate the program, then the append. */
    method CreatePipeline(desc: Pipelines.PipelineDesc, linked: bool, validated: bool) returns (r: Outcome<Handle>)
      requires Valid()
      modifies this
      ensures Valid()
      ensures r.Ok? <==> linked && validated
      ensures r.Ok? ==> fresh(r.value) && lists == old(lists)[Pipeline := old(lists)[Pipeline] + [r.value]]
      ensures r.Fatal? ==> lists == old(lists)
      ensures r.Fatal? ==> r.message == if !linked then "failed to link program" else "failed to validate program"
    {
      var pipeline := Pipelines.NewPipeline(this, desc, linked, validated);
      r := Create(Pipeline, Status(pipeline));
    }

    /**
     * `DestroyBuffer` ... `DestroyFence`: erases the first entry that is `h`;
     * an object the device does not own leaves every list unchanged.
     */
    method Destroy(kind: Kind, h: Handle)
      requires Valid()
      modifies this
      ensures Valid()
      ensures lists == old(lists)[kind := RemoveFirst(old(lists)[kind], h)]
      ensures h !in lists[kind]
      ensures h !in old(lists)[kind] ==> lists == old(lists)
    {
      var list := lists[kind];
      var i := ScanFirst(list, h);
      RemoveFirstDistinct(list, h);
      if i < |list| {
        lists := lists[kind := list[..i] + list[i + 1..]];
      } else {
        assert lists == lists[kind := list];
      }
    }

    /**
     * The destructor: the objects it deletes, in order, ending with the
     * queue.  Every listed object is deleted exactly once.
     */
    method Teardown() returns (deleted: seq<Handle>)
      requires Valid()
      ensures deleted == Flatten(lists, TEARDOWN_ORDER) + [queue]
      ensures forall h :: h in deleted <==> h == queue || exists k :: h in lists[k]
    {
      var objects := VisitAll(lists, TEARDOWN_ORDER);
      forall h ensures h in objects <==> exists k :: h in lists[k] {
        FlattenHolds(lists, TEARDOWN_ORDER, h);
        if k :| h in lists[k] {
          EveryKindTornDown(k);
        }
      }
      deleted := objects + [queue];
    }

    /** The one queue, whatever the queue type. */
    function GetQueue(queueType: G.QueueType): (r: Handle)
      ensures r == queue
    {
      queue
    }

    /** The physical device's answer: geometry shaders, tessellation and compute. */
    function Supports(feature: G.DeviceFeature): (r: bool)
      ensures r == physicalDevice.Supports(feature)
      ensures r <==> feature in {G.GeometryShader, G.Tessellation, G.DeviceFeature.Compute}
    {
      physicalDevice.Supports(feature)
    }

    /** The physical device's limits. */
    function GetLimits(): (r: G.DeviceLimits)
      ensures r == physicalDevice.GetLimits()
    {
      physicalDevice.GetLimits()
    }
  }
}
