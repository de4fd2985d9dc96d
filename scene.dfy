/**
 * The engine's scene: an ordered list of top-level entities.  Entities are
 * found by id, the first match winning, and each lifecycle hook is passed to
 * every entity in order, which passes it to each of its components.
 */
module Scenes {
  import opened Entities

  /** The first entity whose id is `id`, or null. */
  function FirstWithId(entities: seq<Entity>, id: string): (r: Entity?)
    reads set e | e in entities
    ensures r != null ==> r in entities && r.id == id
    ensures r == null <==> forall e :: e in entities ==> e.id != id
  {
    if |entities| == 0 then null
    else if entities[0].id == id then entities[0]
    else FirstWithId(entities[1..], id)
  }

  /** Matches before the first are impossible: the result is the lowest index with that id. */
  lemma {:induction false} FirstWithIdIsFirst(entities: seq<Entity>, id: string, i: nat)
    requires i < |entities| && entities[i].id == id
    ensures FirstWithId(entities, id) != null
    ensures exists k :: 0 <= k <= i && entities[k] == FirstWithId(entities, id) && (forall j :: 0 <= j < k ==> entities[j].id != id)
  {
    if entities[0].id != id {
      FirstWithIdIsFirst(entities[1..], id, i - 1);
      var k :| 0 <= k <= i - 1 && entities[1..][k] == FirstWithId(entities, id) && (forall j :: 0 <= j < k ==> entities[1..][j].id != id);
      assert entities[k + 1] == FirstWithId(entities, id);
      forall j | 0 <= j < k + 1 ensures entities[j].id != id {
        if j > 0 { assert entities[j] == entities[1..][j - 1]; }
      }
    } else {
      assert entities[0] == FirstWithId(entities, id);
    }
  }

  /** What a scene-wide hook does: each entity's component calls, entity by entity. */
  function SceneHookCalls(entities: seq<Entity>, hook: Hook): (r: seq<HookCall>)
    reads set e | e in entities
    ensures |entities| == 0 ==> r == []
  {
    if |entities| == 0 then []
    else SceneHookCalls(entities[..|entities| - 1], hook) + entities[|entities| - 1].HookCalls(hook)
  }

  /** The entity's calls come after those of the entities before it. */
  lemma {:induction false} SceneHookCallsAppend(entities: seq<Entity>, e: Entity, hook: Hook)
    ensures SceneHookCalls(entities + [e], hook) == SceneHookCalls(entities, hook) + e.HookCalls(hook)
  {
    assert (entities + [e])[..|entities|] == entities;
  }

  /** The scene's calls are exactly one call per component of each entity. */
  lemma {:induction false} SceneHookCallsLength(entities: seq<Entity>, hook: Hook)
    ensures |SceneHookCalls(entities, hook)| == ComponentTotal(entities)
  {
    if |entities| > 0 {
      SceneHookCallsLength(entities[..|entities| - 1], hook);
    }
  }

  function ComponentTotal(entities: seq<Entity>): nat
    reads set e | e in entities
  {
    if |entities| == 0 then 0 else ComponentTotal(entities[..|entities| - 1]) + |entities[|entities| - 1].components|
  }

  class Scene {
    var entities: seq<Entity>

    constructor ()
      ensures entities == []
    {
      entities := [];
    }

    /** Drops every entity. */
    method Clear()
      modifies this
      ensures entities == []
    {
      entities := [];
    }

    /** Appends a new root entity of this scene with the given id and returns it. */
    method Create(id: string) returns (e: Entity)
      modifies this
      ensures fresh(e) && e.scene == this && e.parent == null && e.id == id && e.components == []
      ensures entities == old(entities) + [e]
    {
      e := new Entity(this, null, id);
      entities := entities + [e];
    }

    /** The first entity with that id, or null when none has it. */
    method Get(id: string) returns (e: Entity?)
      ensures e == FirstWithId(entities, id)
      ensures e != null ==> e in entities && e.id == id
      ensures e == null <==> forall x :: x in entities ==> x.id != id
    {
      var i := 0;
      while i < |entities|
        invariant 0 <= i <= |entities|
        invariant FirstWithId(entities, id) == FirstWithId(entities[i..], id)
      {
        assert entities[i..][1..] == entities[i + 1..];
        if entities[i].id == id {
          return entities[i];
        }
        i := i + 1;
      }
      return null;
    }

    /** `OnInit`, `PreFrame`, `OnFrame`, `PostFrame`, `OnExit`. */
    method RunHook(hook: Hook) returns (calls: seq<HookCall>)
      ensures calls == SceneHookCalls(entities, hook)
    {
      calls := [];
      var i := 0;
      while i < |entities|
        invariant 0 <= i <= |entities|
        invariant calls == SceneHookCalls(entities[..i], hook)
      {
        var entityCalls := entities[i].RunHook(hook);
        SceneHookCallsAppend(entities[..i], entities[i], hook);
        assert entities[..i + 1] == entities[..i] + [entities[i]];
        calls := calls + entityCalls;
        i := i + 1;
      }
      assert entities[..i] == entities;
    }
  }
}
