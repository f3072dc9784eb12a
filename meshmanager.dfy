/**
 * The mesh registry of src/asset_management/meshmanager.rs: meshes under
 * increasing ids, never removed, each with runtime data built lazily, at
 * most once, on the registry's device.
 */
module MeshManagement {
  import opened Wrappers
  import opened Registries
  import opened Meshes
  import Gpu

  type MeshId = nat

  class MeshManager {
    var meshes: map<MeshId, Entry<Mesh, RuntimeMesh>>
    var nextId: MeshId
    const device: Gpu.Device

    /** Every stored id was handed out before `nextId`. */
    ghost predicate Valid()
      reads this
    {
      forall id | id in meshes :: id < nextId
    }

    constructor (device: Gpu.Device)
      ensures Valid()
      ensures meshes == map[] && nextId == 0 && this.device == device
    {
      meshes := map[];
      nextId := 0;
      this.device := device;
    }

    /** Stores `mesh` without runtime data under the next id; every other entry is unchanged. */
    method AddMesh(mesh: Mesh) returns (id: MeshId)
      requires Valid()
      modifies this`meshes, this`nextId
      ensures Valid()
      ensures id == old(nextId) && id !in old(meshes) && nextId == old(nextId) + 1
      ensures meshes == old(meshes)[id := Entry(mesh, None)]
    {
      id := nextId;
      meshes := meshes[nextId := Entry(mesh, None)];
      nextId := nextId + 1;
    }

    function GetRawMesh(id: MeshId): (r: Option<Mesh>)
      reads this
      ensures r.Some? <==> id in meshes
      ensures r.Some? ==> r.value == meshes[id].raw
    {
      RawOf(meshes, id)
    }

    /** None for an unknown id and for a mesh whose runtime data was not built yet. */
    function GetRuntimeMesh(id: MeshId): (r: Option<RuntimeMesh>)
      reads this
      ensures r.Some? <==> id in meshes && meshes[id].runtime.Some?
      ensures r.Some? ==> r == meshes[id].runtime
    {
      RuntimeOf(meshes, id)
    }

    /**
     * Builds the runtime data of mesh `id` through `model_uniform_bind_group_layout`
     * unless it is unknown or already built, and returns the stored runtime data.
     */
    method GetRuntimeMeshOrInit(id: MeshId, modelLayout: Gpu.Handle) returns (r: Option<RuntimeMesh>)
      requires Valid()
      modifies this`meshes
      ensures Valid()
      ensures (meshes, r) == OrInit(old(meshes), id, m => InitRuntime(m, device, modelLayout))
    {
      if id !in meshes {
        return None;
      }
      var entry := meshes[id];
      match entry.runtime {
        case Some(_) =>
          r := entry.runtime;
        case None =>
          r := Some(InitRuntime(entry.raw, device, modelLayout));
          meshes := meshes[id := Entry(entry.raw, r)];
      }
    }

    /** `init_runtime_mesh`: the same step with the answer dropped. */
    method InitRuntimeMesh(id: MeshId, modelLayout: Gpu.Handle)
      requires Valid()
      modifies this`meshes
      ensures Valid()
      ensures meshes == OrInit(old(meshes), id, m => InitRuntime(m, device, modelLayout)).0
    {
      var _ := GetRuntimeMeshOrInit(id, modelLayout);
    }
  }
}
