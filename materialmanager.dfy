/**
 * Materials of src/asset_management/materialmanager.rs: the raw material,
 * the uniform block built from it, and the registry that stores materials
 * under increasing ids and builds their runtime data lazily. The registry
 * owns the shader registry and starts with the fallback material at
 * `FALLBACK_MATERIAL_ID`.
 */
module Materials {
  import opened Wrappers
  import opened Primitives
  import opened LinearAlgebra
  import opened Registries
  import Gpu
  import Shaders

  type MaterialId = nat

  type TextureId = nat

  const FALLBACK_MATERIAL_ID: MaterialId := 0

  datatype Material = Material(
    name: string,
    diffuse: Vec3,
    diffuseTexture: Option<TextureId>,
    normalTexture: Option<TextureId>,
    shininess: real,
    shininessTexture: Option<TextureId>,
    opacity: real,
    shader: Shaders.ShaderId)

  /** The material `MaterialManager::new` registers first. */
  function FallbackMaterial(): (m: Material)
    ensures m.name == "Fallback Material" && m.shader == Shaders.FALLBACK_SHADER_ID
    ensures m.diffuse == One3 && m.shininess == 0.0 && m.opacity == 1.0
    ensures m.diffuseTexture.None? && m.normalTexture.None? && m.shininessTexture.None?
  {
    Material("Fallback Material", Vec3(1.0, 1.0, 1.0), None, None, 0.0, None, 1.0, Shaders.FALLBACK_SHADER_ID)
  }

  /** The uniform block uploaded for a material; the flags are `is_some() as u32`. */
  datatype RuntimeMaterialData = RuntimeMaterialData(
    diffuse: Vec3,
    padding1: u32,
    useDiffuseTexture: u32,
    useNormalTexture: u32,
    shininess: real,
    opacity: real)

  /** `b as u32` for a boolean. */
  function Flag(b: bool): (r: u32)
    ensures r <= 1
    ensures r == 1 <==> b
  {
    if b then 1 else 0
  }

  /** The uniform block of `m`: its colour, shininess and opacity, and which of its textures are set. */
  function MaterialData(m: Material): (d: RuntimeMaterialData)
    ensures d.diffuse == m.diffuse && d.shininess == m.shininess && d.opacity == m.opacity
    ensures d.padding1 == 0
    ensures d.useDiffuseTexture == 1 <==> m.diffuseTexture.Some?
    ensures d.useNormalTexture == 1 <==> m.normalTexture.Some?
    ensures d.useDiffuseTexture <= 1 && d.useNormalTexture <= 1
  {
    RuntimeMaterialData(m.diffuse, 0, Flag(m.diffuseTexture.Some?), Flag(m.normalTexture.Some?), m.shininess, m.opacity)
  }

  /**
   * The texture ids used when no texture is set. Their values belong to the
   * texture manager, whose definitions are not part of this model.
   */
  datatype TextureFallbacks = TextureFallbacks(diffuse: TextureId, normal: TextureId, shininess: TextureId)

  /** The three texture ids `init_runtime` makes sure are loaded. */
  datatype TextureChoice = TextureChoice(diffuse: TextureId, normal: TextureId, shininess: TextureId)

  /**
   * All three ids are taken from the material's DIFFUSE texture, each with
   * its own fallback: the normal and shininess textures of the material are
   * never consulted.
   */
  function ChosenTextures(m: Material, f: TextureFallbacks): (c: TextureChoice)
    ensures m.diffuseTexture.Some? ==>
      c.diffuse == m.diffuseTexture.value && c.normal == m.diffuseTexture.value && c.shininess == m.diffuseTexture.value
    ensures m.diffuseTexture.None? ==> c == TextureChoice(f.diffuse, f.normal, f.shininess)
  {
    TextureChoice(m.diffuseTexture.GetOr(f.diffuse), m.diffuseTexture.GetOr(f.normal), m.diffuseTexture.GetOr(f.shininess))
  }

  /** Changing a material's normal or shininess texture does not change which textures are used. */
  lemma ChosenTexturesIgnoreNormalAndShininess(m: Material, f: TextureFallbacks, normal: Option<TextureId>, shininess: Option<TextureId>)
    ensures ChosenTextures(m.(normalTexture := normal, shininessTexture := shininess), f) == ChosenTextures(m, f)
  {
  }

  /**
   * A material's runtime data: the uniform block, its buffer, and the bind
   * group, which binds the buffer and the view and sampler of the texture
   * `boundTexture`.
   */
  datatype RuntimeMaterial = RuntimeMaterial(data: RuntimeMaterialData, buffer: Gpu.Handle, bindGroup: Gpu.Handle, boundTexture: TextureId)

  /** `Material::init_runtime`: the bind group uses the chosen diffuse texture. */
  function InitRuntime(m: Material, device: Gpu.Device, layout: Gpu.Handle, f: TextureFallbacks): (r: RuntimeMaterial)
    ensures r.data == MaterialData(m)
    ensures r.boundTexture == ChosenTextures(m, f).diffuse
    ensures r.buffer.device == device && r.bindGroup.device == device
  {
    RuntimeMaterial(
      MaterialData(m),
      Gpu.Create(device, "Material Data Buffer"),
      Gpu.Create(device, "Material Bind Group"),
      m.diffuseTexture.GetOr(f.diffuse))
  }

  class MaterialManager {
    var materials: map<MaterialId, Entry<Material, RuntimeMaterial>>
    var nextId: MaterialId
    const shaders: Shaders.ShaderManager
    const device: Gpu.Device

    /** Every stored id was handed out before `nextId`. */
    ghost predicate Valid()
      reads this
    {
      forall id | id in materials :: id < nextId
    }

    /** `MaterialManager::new`: a fresh shader registry and the fallback material as id 0, not yet built. */
    constructor (device: Gpu.Device)
      ensures Valid()
      ensures this.device == device && fresh(shaders) && shaders.Valid()
      ensures shaders.device == device
      ensures shaders.shaders == map[Shaders.FALLBACK_SHADER_ID := Shaders.CombinedShader(device, "Fallback")]
      ensures materials == map[FALLBACK_MATERIAL_ID := Entry(FallbackMaterial(), None)]
      ensures nextId == 1
    {
      var shaderManager := new Shaders.ShaderManager(device);
      this.device := device;
      shaders := shaderManager;
      materials := map[];
      nextId := 0;
      new;
      var id := AddMaterial(FallbackMaterial());
      assert id == FALLBACK_MATERIAL_ID;
    }

    /** Stores `material` without runtime data under the next id; every other entry is unchanged. */
    method AddMaterial(material: Material) returns (id: MaterialId)
      requires Valid()
      modifies this`materials, this`nextId
      ensures Valid()
      ensures id == old(nextId) && id !in old(materials) && nextId == old(nextId) + 1
      ensures materials == old(materials)[id := Entry(material, None)]
    {
      id := nextId;
      materials := materials[nextId := Entry(material, None)];
      nextId := nextId + 1;
    }

    function GetRawMaterial(id: MaterialId): (r: Option<Material>)
      reads this
      ensures r.Some? <==> id in materials
      ensures r.Some? ==> r.value == materials[id].raw
    {
      RawOf(materials, id)
    }

    /** None for an unknown id and for a material whose runtime data was not built yet. */
    function GetRuntimeMaterial(id: MaterialId): (r: Option<RuntimeMaterial>)
      reads this
      ensures r.Some? <==> id in materials && materials[id].runtime.Some?
      ensures r.Some? ==> r == materials[id].runtime
    {
      RuntimeOf(materials, id)
    }

    /**
     * Builds the runtime data of material `id` unless it is unknown or
     * already built, and returns the stored runtime data.
     */
    method GetRuntimeMaterialOrInit(id: MaterialId, layout: Gpu.Handle, f: TextureFallbacks)
      returns (r: Option<RuntimeMaterial>)
      requires Valid()
      modifies this`materials
      ensures Valid()
      ensures (materials, r) == OrInit(old(materials), id, m => InitRuntime(m, device, layout, f))
    {
      if id !in materials {
        return None;
      }
      var entry := materials[id];
      match entry.runtime {
        case Some(_) =>
          r := entry.runtime;
        case None =>
          r := Some(InitRuntime(entry.raw, device, layout, f));
          materials := materials[id := Entry(entry.raw, r)];
      }
    }

    /** `init_runtime_material`: the same step with the answer dropped. */
    method InitRuntimeMaterial(id: MaterialId, layout: Gpu.Handle, f: TextureFallbacks)
      requires Valid()
      modifies this`materials
      ensures Valid()
      ensures materials == OrInit(old(materials), id, m => InitRuntime(m, device, layout, f)).0
    {
      var _ := GetRuntimeMaterialOrInit(id, layout, f);
    }
  }
}
