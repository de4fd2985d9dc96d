/**
 * The engine's entities: a named node of a scene with an optional parent
 * and an ordered list of components.  Components are looked up by type,
 * counting only components of that type; every lifecycle hook is passed to
 * each component once, in insertion order.
 */
module Entities {
  import G = GlalTypes

  /** The concrete component classes; each derives directly from `Component` and is final. */
  datatype Kind = Plain | Transform | Camera | Model

  /** A type argument of `Get<C>`: the base class, which every component is, or one concrete class. */
  datatype ComponentClass = AnyComponent | Only(kind: Kind)

  /** Whether a component of `kind` is a `cls`, as a dynamic cast decides. */
  predicate IsA(kind: Kind, cls: ComponentClass) {
    cls.AnyComponent? || cls.kind == kind
  }

  datatype Hook = OnInit | PreFrame | OnFrame | PostFrame | OnExit

  class Component {
    const scene: object
    const parent: Entity
    const kind: Kind

    constructor (scene: object, parent: Entity, kind: Kind)
      ensures this.scene == scene && this.parent == parent && this.kind == kind
    {
      this.scene := scene;
      this.parent := parent;
      this.kind := kind;
    }
  }

  datatype HookCall = HookCall(component: Component, hook: Hook)

  /** The components of `cls`, in order. */
  function OfClass(components: seq<Component>, cls: ComponentClass): (r: seq<Component>)
    ensures |r| <= |components|
    ensures forall c :: c in r ==> c in components && IsA(c.kind, cls)
  {
    if |components| == 0 then []
    else (if IsA(components[0].kind, cls) then [components[0]] else []) + OfClass(components[1..], cls)
  }

  /** The `index`-th component of `cls`, skipping the others, or null when there are not that many. */
  function NthOf(components: seq<Component>, cls: ComponentClass, index: nat): (r: Component?)
    ensures r != null ==> r in components && IsA(r.kind, cls)
  {
    if |components| == 0 then null
    else if IsA(components[0].kind, cls) then
      (if index == 0 then components[0] else NthOf(components[1..], cls, index - 1))
    else NthOf(components[1..], cls, index)
  }

  /** `NthOf` is indexing into the components of that class: null exactly past their end. */
  lemma {:induction false} NthOfIsIndexing(components: seq<Component>, cls: ComponentClass, index: nat)
    ensures NthOf(components, cls, index) == if index < |OfClass(components, cls)| then OfClass(components, cls)[index] else null
  {
    if |components| > 0 {
      if IsA(components[0].kind, cls) {
        if index > 0 {
          NthOfIsIndexing(components[1..], cls, index - 1);
        }
      } else {
        NthOfIsIndexing(components[1..], cls, index);
      }
    }
  }

  /** Components of other classes do not count: appending one leaves every lookup of `cls` as it was. */
  lemma {:induction false} OtherClassesDoNotCount(components: seq<Component>, other: Component, cls: ComponentClass, index: nat)
    requires !IsA(other.kind, cls)
    ensures NthOf(components + [other], cls, index) == NthOf(components, cls, index)
  {
    if |components| == 0 {
      assert [other][1..] == [];
    } else {
      assert (components + [other])[1..] == components[1..] + [other];
      if IsA(components[0].kind, cls) {
        if index > 0 {
          OtherClassesDoNotCount(components[1..], other, cls, index - 1);
        }
      } else {
        OtherClassesDoNotCount(components[1..], other, cls, index);
      }
    }
  }

  /**
   * The lookup loop of `Get<C>(index)`: walks the components counting those
   * of `cls` and returns the one whose count reaches `index`; null when it
   * runs out.
   */
  method Find(components: seq<Component>, cls: ComponentClass, index: nat) returns (r: Component?)
    ensures r == NthOf(components, cls, index)
  {
    var seen: nat := 0;
    var i := 0;
    while i < |components|
      invariant 0 <= i <= |components| && seen <= index
      invariant NthOf(components, cls, index) == NthOf(components[i..], cls, index - seen)
    {
      assert components[i..][1..] == components[i + 1..];
      if IsA(components[i].kind, cls) {
        if seen >= index {
          return components[i];
        }
        seen := seen + 1;
      }
      i := i + 1;
    }
    return null;
  }

  class Entity {
    const scene: object
    const parent: Entity?
    const id: string
    var components: seq<Component>

    constructor (scene: object, parent: Entity?, id: string)
      ensures this.scene == scene && this.parent == parent && this.id == id && components == []
    {
      this.scene := scene;
      this.parent := parent;
      this.id := id;
      components := [];
    }

    function GetParent(): Entity? { parent }
    function GetId(): string { id }

    /** Appends an existing component. */
    method Insert(component: Component)
      modifies this
      ensures components == old(components) + [component]
    {
      components := components + [component];
    }

    /** `Create<C>`: makes a component of `kind` belonging to this entity, appends it and returns it. */
    method Create(kind: Kind) returns (component: Component)
      modifies this
      ensures fresh(component) && component.kind == kind && component.parent == this && component.scene == scene
      ensures components == old(components) + [component]
    {
      component := new Component(scene, this, kind);
      components := components + [component];
    }

    /**
     * `Get<C>(index)`: walks the components counting those of `cls` and
     * returns the one whose count reaches `index`; null when it runs out.
     */
    method Get(cls: ComponentClass, index: G.U32) returns (r: Component?)
      ensures r == NthOf(components, cls, index)
      ensures r == if index < |OfClass(components, cls)| then OfClass(components, cls)[index] else null
    {
      r := Find(components, cls, index);
      NthOfIsIndexing(components, cls, index);
    }

    /** The calls a hook makes: the hook on every component, once each, in order. */
    function HookCalls(hook: Hook): (r: seq<HookCall>)
      reads this
      ensures |r| == |components|
      ensures forall i :: 0 <= i < |r| ==> r[i] == HookCall(components[i], hook)
    {
      seq(|components|, i requires 0 <= i < |components| reads this => HookCall(components[i], hook))
    }

    /** `OnInit`, `PreFrame`, `OnFrame`, `PostFrame`, `OnExit`. */
    method RunHook(hook: Hook) returns (calls: seq<HookCall>)
      ensures calls == HookCalls(hook)
    {
      calls := [];
      for i := 0 to |components|
        invariant calls == HookCalls(hook)[..i]
      {
        calls := calls + [HookCall(components[i], hook)];
      }
    }
  }

  /** `Get<C>()` with its default index returns the first component of that class. */
  method GetFirst(entity: Entity, cls: ComponentClass) returns (r: Component?)
    ensures r != null <==> exists i :: 0 <= i < |entity.components| && IsA(entity.components[i].kind, cls)
    ensures r != null ==> IsA(r.kind, cls)
    ensures r != null ==> exists i :: 0 <= i < |entity.components| && entity.components[i] == r && (forall j :: 0 <= j < i ==> !IsA(entity.components[j].kind, cls))
  {
    r := entity.Get(cls, 0);
    FirstOfClass(entity.components, cls);
  }

  lemma {:induction false} FirstOfClass(components: seq<Component>, cls: ComponentClass)
    ensures var r := NthOf(components, cls, 0);
      r != null <==> exists i :: 0 <= i < |components| && IsA(components[i].kind, cls)
    ensures var r := NthOf(components, cls, 0);
      r != null ==> exists i :: 0 <= i < |components| && components[i] == r && (forall j :: 0 <= j < i ==> !IsA(components[j].kind, cls))
  {
    if |components| > 0 && !IsA(components[0].kind, cls) {
      FirstOfClass(components[1..], cls);
      var r := NthOf(components, cls, 0);
      if r != null {
        var i :| 0 <= i < |components[1..]| && components[1..][i] == r && (forall j :: 0 <= j < i ==> !IsA(components[1..][j].kind, cls));
        assert components[i + 1] == r;
        assert forall j :: 0 <= j < i + 1 ==> !IsA(components[j].kind, cls) by {
          forall j | 0 <= j < i + 1 ensures !IsA(components[j].kind, cls) {
            if j > 0 { assert components[j] == components[1..][j - 1]; }
          }
        }
      }
      if exists i :: 0 <= i < |components| && IsA(components[i].kind, cls) {
        var i :| 0 <= i < |components| && IsA(components[i].kind, cls);
        assert components[1..][i - 1] == components[i];
      }
    }
  }
}
