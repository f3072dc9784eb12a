/**
 * The world of src/world.rs: an append-only table of objects in creation
 * order and a separate list of top-level children (the scene roots).
 * Objects are shared references, so a handle is the object itself; nothing
 * is ever removed from either list.
 */
module Worlds {
  import opened Wrappers
  import opened LinearAlgebra

  /** The plain transform component an object is created with (src/components/transform.rs). */
  datatype TransformComp = TransformComp(pos: Vec3, rot: Vec3, scale: Vec3)

  /** `TransformComp::default()`: every component zero, the scale included. */
  function DefaultTransformComp(): (t: TransformComp)
    ensures t.pos == Zero3 && t.rot == Zero3 && t.scale == Zero3
  {
    TransformComp(Zero3, Zero3, Zero3)
  }

  /** What an object can draw: a mesh renderer for a registered mesh id. */
  datatype Drawable = MeshRenderer(mesh: nat)

  class GameObject {
    const name: string
    var children: seq<GameObject>
    var transform: TransformComp
    var drawable: Option<Drawable>

    constructor (name: string)
      ensures this.name == name && children == []
      ensures transform == DefaultTransformComp() && drawable == None
    {
      this.name := name;
      children := [];
      transform := DefaultTransformComp();
      drawable := None;
    }

    /** Appends `child` to this object's children, with no duplicate check. */
    method AddChild(child: GameObject)
      modifies this`children
      ensures children == old(children) + [child]
    {
      children := children + [child];
    }
  }

  /** The names of a sequence of objects, in order (names never change). */
  function Names(objs: seq<GameObject>): (r: seq<string>)
    ensures |r| == |objs| && forall i | 0 <= i < |objs| :: r[i] == objs[i].name
  {
    if objs == [] then [] else Names(objs[..|objs| - 1]) + [objs[|objs| - 1].name]
  }

  class World {
    var objects: seq<GameObject>
    var children: seq<GameObject>

    constructor ()
      ensures objects == [] && children == []
    {
      objects := [];
      children := [];
    }

    /**
     * Creates an object named `name` with no children, no drawable and the
     * default transform, appends it to `objects` and returns it.
     */
    method NewObject(name: string) returns (obj: GameObject)
      modifies this`objects
      ensures fresh(obj)
      ensures objects == old(objects) + [obj]
      ensures obj == objects[|objects| - 1]
      ensures obj.name == name && obj.children == [] && obj.drawable == None
      ensures obj.transform == DefaultTransformComp()
    {
      obj := new GameObject(name);
      objects := objects + [obj];
    }

    /** Appends `obj` to the top-level children; `objects` is untouched and duplicates are kept. */
    method AddChild(obj: GameObject)
      modifies this`children
      ensures children == old(children) + [obj]
    {
      children := children + [obj];
    }
  }
}
