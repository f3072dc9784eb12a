/**
 * The bind-group layout registry of
 * src/asset_management/bindgroup_layout_manager.rs: layout definitions
 * (name and entries) stored under increasing ids, each with a device
 * layout built from it once a device is known. The four standard layouts
 * are registered by `new` at fixed ids. Setting a device discards every
 * built layout and rebuilds all of them on the new device.
 */
module BindGroupLayouts {
  import opened Wrappers
  import Gpu

  type BGLId = nat

  const CAMERA_UBGL_ID: BGLId := 0
  const MODEL_UBGL_ID: BGLId := 1
  const MATERIAL_UBGL_ID: BGLId := 2
  const POST_PROCESS_BGL_ID: BGLId := 3

  datatype ShaderStages = VertexFragment | Fragment

  datatype BindingType =
    | UniformBuffer
    | FilterableFloatTexture2D
    | Sampler(filtering: bool)

  datatype LayoutEntry = LayoutEntry(binding: nat, visibility: ShaderStages, ty: BindingType)

  datatype LayoutDefinition = LayoutDefinition(name: Option<string>, entries: seq<LayoutEntry>)

  datatype LayoutItem = LayoutItem(raw: LayoutDefinition, runtime: Option<Gpu.Handle>)

  /** The device layout created from a definition (labelled with its name, or unlabelled). */
  function BuildLayout(device: Gpu.Device, def: LayoutDefinition): (h: Gpu.Handle)
    ensures h.device == device
  {
    Gpu.Create(device, def.name.GetOr(""))
  }

  /**
   * `BindGroupLayoutItem::init_runtime`: nothing happens when the layout is
   * already built; otherwise it is built from the definition. The definition
   * is never changed.
   */
  function InitItem(item: LayoutItem, device: Gpu.Device): (r: LayoutItem)
    ensures r.raw == item.raw && r.runtime.Some?
    ensures item.runtime.Some? ==> r == item
    ensures item.runtime.None? ==> r.runtime == Some(BuildLayout(device, item.raw))
  {
    if item.runtime.Some? then item else LayoutItem(item.raw, Some(BuildLayout(device, item.raw)))
  }

  lemma InitItemIdempotent(item: LayoutItem, device: Gpu.Device, other: Gpu.Device)
    ensures InitItem(InitItem(item, device), other) == InitItem(item, device)
  {
  }

  /** Every layout with its runtime discarded. */
  function Reset(layouts: map<BGLId, LayoutItem>): (r: map<BGLId, LayoutItem>)
    ensures r.Keys == layouts.Keys
    ensures forall id | id in r :: r[id].raw == layouts[id].raw && r[id].runtime.None?
  {
    map id | id in layouts :: LayoutItem(layouts[id].raw, None)
  }

  /** `init_runtime` applied to every layout. */
  function InitAll(layouts: map<BGLId, LayoutItem>, device: Gpu.Device): (r: map<BGLId, LayoutItem>)
    ensures r.Keys == layouts.Keys
    ensures forall id | id in r :: r[id].raw == layouts[id].raw && r[id].runtime.Some?
    ensures forall id | id in r && layouts[id].runtime.Some? :: r[id] == layouts[id]
  {
    map id | id in layouts :: InitItem(layouts[id], device)
  }

  /** After a reset, building everything gives each layout a runtime built from its definition on `device`. */
  lemma ResetThenInitAll(layouts: map<BGLId, LayoutItem>, device: Gpu.Device)
    ensures var r := InitAll(Reset(layouts), device);
            && r.Keys == layouts.Keys
            && forall id | id in r :: r[id] == LayoutItem(layouts[id].raw, Some(BuildLayout(device, layouts[id].raw)))
  {
  }

  /** The uniform buffer the camera and model layouts hold, visible to both stages. */
  function UniformEntries(): (r: seq<LayoutEntry>) {
    [LayoutEntry(0, VertexFragment, UniformBuffer)]
  }

  /** The material layout: its uniform buffer and two texture/sampler pairs. */
  function MaterialEntries(): (r: seq<LayoutEntry>) {
    [LayoutEntry(0, Fragment, UniformBuffer),
     LayoutEntry(1, Fragment, FilterableFloatTexture2D),
     LayoutEntry(2, Fragment, Sampler(false)),
     LayoutEntry(3, Fragment, FilterableFloatTexture2D),
     LayoutEntry(4, Fragment, Sampler(false))]
  }

  /** The post-processing layout: one texture and a filtering sampler. */
  function PostProcessEntries(): (r: seq<LayoutEntry>) {
    [LayoutEntry(0, Fragment, FilterableFloatTexture2D),
     LayoutEntry(1, Fragment, Sampler(true))]
  }

  /** The four definitions `new` registers, by id. */
  function StandardLayouts(): (m: map<BGLId, LayoutItem>)
    ensures m.Keys == {CAMERA_UBGL_ID, MODEL_UBGL_ID, MATERIAL_UBGL_ID, POST_PROCESS_BGL_ID}
    ensures forall id | id in m :: m[id].runtime.None?
  {
    map[CAMERA_UBGL_ID := LayoutItem(LayoutDefinition(Some("Camera Uniform Bind Group Layout"), UniformEntries()), None),
        MODEL_UBGL_ID := LayoutItem(LayoutDefinition(Some("Model Uniform Bind Group Layout"), UniformEntries()), None),
        MATERIAL_UBGL_ID := LayoutItem(LayoutDefinition(Some("Material Uniform Bind Group Layout"), MaterialEntries()), None),
        POST_PROCESS_BGL_ID := LayoutItem(LayoutDefinition(Some("Post-Processing Bind Group Layout"), PostProcessEntries()), None)]
  }

  class BindGroupLayoutManager {
    var layouts: map<BGLId, LayoutItem>
    var nextId: BGLId
    var device: Option<Gpu.Device>

    /** Every stored id was handed out before `nextId`, and with a device every layout is built. */
    ghost predicate Valid()
      reads this
    {
      && (forall id | id in layouts :: id < nextId)
      && (device.Some? ==> forall id | id in layouts :: layouts[id].runtime.Some?)
    }

    /** `BindGroupLayoutManager::new`: no device, and the four standard layouts as ids 0 to 3, unbuilt. */
    constructor ()
      ensures Valid()
      ensures device.None? && nextId == 4
      ensures layouts == StandardLayouts()
    {
      layouts := map[];
      nextId := 0;
      device := None;
      new;
      var id := AddBindGroupLayout(Some("Camera Uniform Bind Group Layout"), UniformEntries());
      assert id == CAMERA_UBGL_ID;
      id := AddBindGroupLayout(Some("Model Uniform Bind Group Layout"), UniformEntries());
      assert id == MODEL_UBGL_ID;
      id := AddBindGroupLayout(Some("Material Uniform Bind Group Layout"), MaterialEntries());
      assert id == MATERIAL_UBGL_ID;
      id := AddBindGroupLayout(Some("Post-Processing Bind Group Layout"), PostProcessEntries());
      assert id == POST_PROCESS_BGL_ID;
    }

    /**
     * Stores the definition under the next id, built at once when a device
     * is set; every other entry is unchanged.
     */
    method AddBindGroupLayout(name: Option<string>, entries: seq<LayoutEntry>) returns (id: BGLId)
      requires Valid()
      modifies this`layouts, this`nextId
      ensures Valid()
      ensures id == old(nextId) && id !in old(layouts) && nextId == old(nextId) + 1
      ensures device.None? ==> layouts == old(layouts)[id := LayoutItem(LayoutDefinition(name, entries), None)]
      ensures device.Some? ==>
        layouts == old(layouts)[id := LayoutItem(LayoutDefinition(name, entries),
                                                 Some(BuildLayout(device.value, LayoutDefinition(name, entries))))]
      ensures layouts[id].runtime.Some? <==> device.Some?
    {
      layouts := layouts[nextId := LayoutItem(LayoutDefinition(name, entries), None)];
      if device.Some? {
        layouts := layouts[nextId := InitItem(layouts[nextId], device.value)];
      }
      id := nextId;
      nextId := nextId + 1;
    }

    /**
     * `init_runtime(device)`: remembers the device, discards every built
     * layout and rebuilds them all on it.
     */
    method InitRuntime(d: Gpu.Device)
      requires Valid()
      modifies this`layouts, this`device
      ensures Valid()
      ensures device == Some(d)
      ensures layouts == InitAll(Reset(old(layouts)), d)
    {
      device := Some(d);
      layouts := Reset(layouts);
      InitAllRuntime();
    }

    /** Builds every layout not built yet on the stored device, which must be set. */
    method InitAllRuntime()
      requires device.Some?
      requires forall id | id in layouts :: id < nextId
      modifies this`layouts
      ensures Valid()
      ensures layouts == InitAll(old(layouts), device.value)
    {
      var d := device.value;
      var remaining := layouts.Keys;
      while remaining != {}
        invariant remaining <= layouts.Keys && layouts.Keys == old(layouts).Keys
        invariant forall id | id in remaining :: layouts[id] == old(layouts)[id]
        invariant forall id | id in layouts.Keys - remaining :: layouts[id] == InitItem(old(layouts)[id], d)
        decreases remaining
      {
        var id :| id in remaining;
        layouts := layouts[id := InitItem(layouts[id], d)];
        remaining := remaining - {id};
      }
    }

    /** The built layout `id`: none for an unknown id or an unbuilt layout. */
    function GetBindGroupLayout(id: BGLId): (r: Option<Gpu.Handle>)
      reads this
      ensures r.Some? <==> id in layouts && layouts[id].runtime.Some?
      ensures r.Some? ==> r == layouts[id].runtime
    {
      if id in layouts then layouts[id].runtime else None
    }
  }
}
