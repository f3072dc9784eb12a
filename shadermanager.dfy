/**
 * The shader registry of src/asset_management/shadermanager.rs: shaders
 * stored under increasing ids, never removed, with the "Fallback" shader
 * loaded first so that it gets `FALLBACK_SHADER_ID`. Shader modules,
 * pipeline layouts and pipelines are opaque device objects.
 */
module Shaders {
  import opened Wrappers
  import Gpu

  type ShaderId = nat

  const FALLBACK_SHADER_ID: ShaderId := 0

  datatype Shader = Shader(name: string, shaderModule: Gpu.Handle, pipelineLayout: Gpu.Handle, pipeline: Gpu.Handle)

  /**
   * The shader `load_combined_shader` builds for `name`: a module labelled
   * `name`, and a pipeline layout and pipeline labelled after it.
   */
  function CombinedShader(device: Gpu.Device, name: string): (s: Shader)
    ensures s.name == name
    ensures s.shaderModule.device == device && s.pipeline.device == device
  {
    Shader(name,
           Gpu.Create(device, name),
           Gpu.Create(device, name + " Pipeline Layout"),
           Gpu.Create(device, name + " Pipeline"))
  }

  class ShaderManager {
    const device: Gpu.Device
    const cameraUniformBindGroupLayout: Gpu.Handle
    const modelUniformBindGroupLayout: Gpu.Handle
    const materialUniformBindGroupLayout: Gpu.Handle
    var nextId: ShaderId
    var shaders: map<ShaderId, Shader>

    /** Every stored id was handed out before `nextId`. */
    ghost predicate Valid()
      reads this
    {
      forall id | id in shaders :: id < nextId
    }

    /** `ShaderManager::new`: the three uniform layouts, then the fallback shader as id 0. */
    constructor (device: Gpu.Device)
      ensures Valid()
      ensures this.device == device
      ensures cameraUniformBindGroupLayout == Gpu.Create(device, "Camera Uniform Bind Group Layout")
      ensures modelUniformBindGroupLayout == Gpu.Create(device, "Model Uniform Bind Group Layout")
      ensures materialUniformBindGroupLayout == Gpu.Create(device, "Material Uniform Bind Group Layout")
      ensures shaders == map[FALLBACK_SHADER_ID := CombinedShader(device, "Fallback")]
      ensures nextId == 1
    {
      this.device := device;
      cameraUniformBindGroupLayout := Gpu.Create(device, "Camera Uniform Bind Group Layout");
      modelUniformBindGroupLayout := Gpu.Create(device, "Model Uniform Bind Group Layout");
      materialUniformBindGroupLayout := Gpu.Create(device, "Material Uniform Bind Group Layout");
      nextId := 0;
      shaders := map[];
      new;
      var id := LoadCombinedShader("Fallback");
      assert id == FALLBACK_SHADER_ID;
    }

    /** Builds the shader for `name` on the device and registers it under a fresh id. */
    method LoadCombinedShader(name: string) returns (id: ShaderId)
      requires Valid()
      modifies this`shaders, this`nextId
      ensures Valid()
      ensures id == old(nextId) && id !in old(shaders) && nextId == old(nextId) + 1
      ensures shaders == old(shaders)[id := CombinedShader(device, name)]
      ensures shaders[id].name == name
    {
      id := AddShader(CombinedShader(device, name));
    }

    /** Stores `shader` under the next id; every other entry is unchanged. */
    method AddShader(shader: Shader) returns (id: ShaderId)
      requires Valid()
      modifies this`shaders, this`nextId
      ensures Valid()
      ensures id == old(nextId) && id !in old(shaders) && nextId == old(nextId) + 1
      ensures shaders == old(shaders)[id := shader]
    {
      id := nextId;
      shaders := shaders[nextId := shader];
      nextId := nextId + 1;
    }

    function GetShader(id: ShaderId): (r: Option<Shader>)
      reads this
      ensures r.Some? <==> id in shaders
      ensures r.Some? ==> r.value == shaders[id]
    {
      if id in shaders then Some(shaders[id]) else None
    }

    /**
     * Some id whose shader has the given name, or none when no stored shader
     * has it. The map is searched in no particular order, so which matching
     * id is found is left open.
     */
    method FindShaderByName(name: string) returns (r: Option<ShaderId>)
      ensures r.Some? ==> r.value in shaders && shaders[r.value].name == name
      ensures r.None? <==> forall id | id in shaders :: shaders[id].name != name
    {
      var remaining := shaders.Keys;
      while remaining != {}
        invariant remaining <= shaders.Keys
        invariant forall id | id in shaders.Keys - remaining :: shaders[id].name != name
        decreases remaining
      {
        var id :| id in remaining;
        if shaders[id].name == name {
          return Some(id);
        }
        remaining := remaining - {id};
      }
      return None;
    }
  }
}
