/**
 * The glal OpenGL fence: an optional driver sync object.  Waiting creates a
 * new sync and overwrites the held one; resetting deletes a held sync.
 */
module OpenGLFence {
  import opened Wrappers
  import opened Registry

  class Fence {
    const device: object
    /** The held sync object, if any. */
    var sync: Option<Handle>
    /** The sync objects handed back to the driver, in order. */
    var deletedSyncs: seq<Handle>

    /** A new fence holds no sync. */
    constructor (device: object)
      ensures this.device == device
      ensures sync == None && deletedSyncs == []
    {
      this.device := device;
      sync := None;
      deletedSyncs := [];
    }

    /**
     * Holds a new sync; a previously held one is dropped without being
     * deleted.  The blocking wait on the GPU is not modelled.
     */
    method Wait()
      modifies this
      ensures sync.Some? && fresh(sync.value)
      ensures deletedSyncs == old(deletedSyncs)
    {
      var created := new Handle();
      sync := Some(created);
    }

    /** Deletes a held sync and holds none; with no sync held it does nothing. */
    method Reset()
      modifies this
      ensures sync == None
      ensures old(sync).Some? ==> deletedSyncs == old(deletedSyncs) + [old(sync).value]
      ensures old(sync).None? ==> deletedSyncs == old(deletedSyncs)
    {
      if sync.Some? {
        deletedSyncs := deletedSyncs + [sync.value];
        sync := None;
      }
    }
  }
}
