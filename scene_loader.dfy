/**
 * The scene-loading steps of src/scene_loader.rs that do not depend on the
 * importer or the image decoder: building a node's mesh and attaching it,
 * the depth-first creation of one object per node, the remapping of the
 * meshes' material indices, the material property lookups and defaults, and
 * the RGBA-to-BGRA swizzle of decoded textures. The imported scene is given
 * as a value.
 */
module SceneLoader {
  import opened Wrappers
  import opened Primitives
  import opened LinearAlgebra
  import opened Meshes
  import opened SceneData
  import opened Worlds
  import opened Registries
  import MeshManagement
  import Materials
  import Shaders

  /** An imported scene node: its name, the scene meshes it lists and its children. */
  datatype Node = Node(name: string, meshes: seq<u32>, children: seq<Node>)

  /** The names of the objects `load_rec` creates below `n`, in depth-first pre-order. */
  function DescendantNames(n: Node): (r: seq<string>)
    decreases n
  {
    ForestNames(n.children)
  }

  function ForestNames(cs: seq<Node>): (r: seq<string>)
    decreases cs
  {
    if cs == [] then []
    else
      var last := cs[|cs| - 1];
      ForestNames(cs[..|cs| - 1]) + [last.name] + DescendantNames(last)
  }

  /** The names of the nodes `cs`, in order. */
  function NodeNames(cs: seq<Node>): (r: seq<string>)
    ensures |r| == |cs| && forall i | 0 <= i < |cs| :: r[i] == cs[i].name
  {
    if cs == [] then [] else NodeNames(cs[..|cs| - 1]) + [cs[|cs| - 1].name]
  }

  /** How many nodes of the tree rooted at `n` list at least one mesh. */
  function MeshNodes(n: Node): (r: nat)
    decreases n
  {
    (if n.meshes != [] then 1 else 0) + ForestMeshNodes(n.children)
  }

  function ForestMeshNodes(cs: seq<Node>): (r: nat)
    decreases cs
  {
    if cs == [] then 0 else ForestMeshNodes(cs[..|cs| - 1]) + MeshNodes(cs[|cs| - 1])
  }

  /**
   * The mesh `load_data` builds for a node: the zipped, normalised streams
   * of its meshes' triangles, no index list, and one material range per
   * listed mesh.
   */
  function NodeMesh(sceneMeshes: seq<AiMesh>, nodeMeshes: seq<u32>): (r: Mesh) {
    var sel := Selected(sceneMeshes, nodeMeshes);
    NewMesh(Zip(Normalize(NodeStreams(sel))), None, Some(Ranges(sel)))
  }

  /**
   * A node's mesh has one vertex per extracted position and keeps the
   * per-mesh ranges; only when none of the listed meshes exists in the
   * scene does it fall back to a single range over all its vertices.
   */
  lemma NodeMeshShape(sceneMeshes: seq<AiMesh>, nodeMeshes: seq<u32>)
    ensures var sel := Selected(sceneMeshes, nodeMeshes);
            var m := NodeMesh(sceneMeshes, nodeMeshes);
            && |m.data.vertices| == |NodeStreams(sel).positions|
            && m.data.indices.None?
            && (sel != [] ==> m.materialRanges == Ranges(sel))
            && (sel == [] ==> m.materialRanges == [MaterialRange(Materials.FALLBACK_MATERIAL_ID, 0, TruncateU32(|m.data.vertices|))])
  {
    NormalizedZip(NodeStreams(Selected(sceneMeshes, nodeMeshes)));
  }

  /**
   * `load_data`: a node without meshes changes nothing; otherwise its mesh
   * is registered and the object draws it. (Copying the node's decomposed
   * transformation onto the object is not part of this model.)
   */
  method LoadData(meshes: MeshManagement.MeshManager, sceneMeshes: seq<AiMesh>, node: Node, obj: GameObject)
    requires meshes.Valid()
    modifies meshes`meshes, meshes`nextId, obj`drawable
    ensures meshes.Valid()
    ensures node.meshes == [] ==>
      meshes.meshes == old(meshes.meshes) && meshes.nextId == old(meshes.nextId) && obj.drawable == old(obj.drawable)
    ensures node.meshes != [] ==>
      && meshes.meshes == old(meshes.meshes)[old(meshes.nextId) := Entry(NodeMesh(sceneMeshes, node.meshes), None)]
      && meshes.nextId == old(meshes.nextId) + 1
      && obj.drawable == Some(MeshRenderer(old(meshes.nextId)))
    ensures RegistryGrows(old(meshes.meshes), old(meshes.nextId), meshes.meshes, meshes.nextId)
  {
    if node.meshes == [] {
      return;
    }
    var streams, ranges := GatherNodeData(sceneMeshes, node.meshes);
    var normalized := Normalize(streams);
    var vertices := Zip(normalized);
    var mesh := NewMesh(vertices, None, Some(ranges));
    var id := meshes.AddMesh(mesh);
    obj.drawable := Some(MeshRenderer(id));
  }

  /**
   * `load_rec`: loads the node's own data, then for each child in order
   * creates an object named after it, attaches it to `obj` and recurses.
   * The world's objects grow by exactly the descendants' names in
   * depth-first pre-order, `obj`'s children by its child nodes' objects,
   * and one mesh is registered per node that lists a mesh.
   */
  method LoadRec(world: World, meshes: MeshManagement.MeshManager, sceneMeshes: seq<AiMesh>, node: Node, obj: GameObject)
    requires meshes.Valid()
    modifies world`objects, meshes`meshes, meshes`nextId, obj`drawable, obj`children
    ensures meshes.Valid()
    ensures |world.objects| >= |old(world.objects)| && world.objects[..|old(world.objects)|] == old(world.objects)
    ensures Names(world.objects) == Names(old(world.objects)) + DescendantNames(node)
    ensures |obj.children| == |old(obj.children)| + |node.children|
    ensures obj.children[..|old(obj.children)|] == old(obj.children)
    ensures Names(obj.children) == Names(old(obj.children)) + NodeNames(node.children)
    ensures meshes.nextId == old(meshes.nextId) + MeshNodes(node)
    ensures RegistryGrows(old(meshes.meshes), old(meshes.nextId), meshes.meshes, meshes.nextId)
    ensures forall c | c in obj.children[|old(obj.children)|..] :: c in world.objects[|old(world.objects)|..]
    decreases node, 0
  {
    ghost var objects0, children0 := world.objects, obj.children;
    ghost var meshes0, next0 := meshes.meshes, meshes.nextId;
    LoadData(meshes, sceneMeshes, node, obj);
    ghost var afterData := meshes.nextId;
    var i := 0;
    while i < |node.children|
      invariant 0 <= i <= |node.children|
      invariant meshes.Valid()
      invariant |world.objects| >= |objects0| && world.objects[..|objects0|] == objects0
      invariant Names(world.objects) == Names(objects0) + ForestNames(node.children[..i])
      invariant |obj.children| == |children0| + i && obj.children[..|children0|] == children0
      invariant Names(obj.children) == Names(children0) + NodeNames(node.children[..i])
      invariant meshes.nextId == afterData + ForestMeshNodes(node.children[..i])
      invariant RegistryGrows(meshes0, next0, meshes.meshes, meshes.nextId)
      invariant forall c | c in obj.children[|children0|..] :: c in world.objects[|objects0|..]
    {
      ghost var objectsBefore, childrenBefore := world.objects, obj.children;
      ghost var meshesBefore, nextBefore := meshes.meshes, meshes.nextId;
      var childObj := LoadChild(world, meshes, sceneMeshes, node.children[i], obj);
      ObjectsStep(objects0, objectsBefore, world.objects, node.children, i);
      ChildrenStep(children0, childrenBefore, obj.children, childObj, node.children, i);
      NewChildStep(objects0, objectsBefore, world.objects, children0, childrenBefore, childObj);
      RegistryGrowsTrans(meshes0, next0, meshesBefore, nextBefore, meshes.meshes, meshes.nextId);
      ForestMeshNodesSnoc(node.children, i);
      i := i + 1;
    }
    assert node.children[..i] == node.children;
  }

  /**
   * One iteration of `load_rec`'s loop: a new object named after `child`
   * joins the world and `obj`'s children, and the child's subtree is loaded
   * into it.
   */
  method LoadChild(world: World, meshes: MeshManagement.MeshManager, sceneMeshes: seq<AiMesh>, child: Node, obj: GameObject)
    returns (childObj: GameObject)
    requires meshes.Valid()
    modifies world`objects, meshes`meshes, meshes`nextId, obj`children
    ensures meshes.Valid()
    ensures childObj.name == child.name
    ensures |world.objects| > |old(world.objects)| && world.objects[..|old(world.objects)|] == old(world.objects)
    ensures Names(world.objects) == Names(old(world.objects)) + [child.name] + DescendantNames(child)
    ensures obj.children == old(obj.children) + [childObj]
    ensures meshes.nextId == old(meshes.nextId) + MeshNodes(child)
    ensures RegistryGrows(old(meshes.meshes), old(meshes.nextId), meshes.meshes, meshes.nextId)
    ensures world.objects[|old(world.objects)|] == childObj
    decreases child, 1
  {
    childObj := world.NewObject(child.name);
    ghost var withChild := world.objects;
    obj.AddChild(childObj);
    LoadRec(world, meshes, sceneMeshes, child, childObj);
    PrefixOfPrefix(old(world.objects), withChild, world.objects);
    assert world.objects[|old(world.objects)|] == withChild[|old(world.objects)|];
    NamesSnoc(old(world.objects), childObj);
  }

  /**
   * The mesh registry only grew from (`m0`, `next0`) to (`m1`, `next1`):
   * every earlier entry is kept as it was, and the ids added are exactly
   * those handed out in between.
   */
  ghost predicate RegistryGrows(m0: map<MeshManagement.MeshId, Entry<Mesh, RuntimeMesh>>, next0: nat,
                                m1: map<MeshManagement.MeshId, Entry<Mesh, RuntimeMesh>>, next1: nat)
  {
    && next0 <= next1
    && (forall id | id in m0 :: id in m1 && m1[id] == m0[id])
    && (forall id :: id in m1 <==> id in m0 || next0 <= id < next1)
  }

  lemma RegistryGrowsTrans(m0: map<MeshManagement.MeshId, Entry<Mesh, RuntimeMesh>>, next0: nat,
                           m1: map<MeshManagement.MeshId, Entry<Mesh, RuntimeMesh>>, next1: nat,
                           m2: map<MeshManagement.MeshId, Entry<Mesh, RuntimeMesh>>, next2: nat)
    requires RegistryGrows(m0, next0, m1, next1) && RegistryGrows(m1, next1, m2, next2)
    ensures RegistryGrows(m0, next0, m2, next2)
  {
  }

  /** One iteration of `load_rec`'s loop, as seen in which objects the new children are. */
  lemma NewChildStep(objects0: seq<GameObject>, before: seq<GameObject>, after: seq<GameObject>,
                     children0: seq<GameObject>, childrenBefore: seq<GameObject>, childObj: GameObject)
    requires |objects0| <= |before| < |after| && after[..|before|] == before
    requires |children0| <= |childrenBefore|
    requires forall c | c in childrenBefore[|children0|..] :: c in before[|objects0|..]
    requires after[|before|] == childObj
    ensures forall c | c in (childrenBefore + [childObj])[|children0|..] :: c in after[|objects0|..]
  {
    forall c | c in (childrenBefore + [childObj])[|children0|..]
      ensures c in after[|objects0|..]
    {
      var k :| 0 <= k < |(childrenBefore + [childObj])[|children0|..]| && (childrenBefore + [childObj])[|children0|..][k] == c;
      if |children0| + k < |childrenBefore| {
        assert c in childrenBefore[|children0|..];
        var j :| 0 <= j < |before[|objects0|..]| && before[|objects0|..][j] == c;
        assert after[|objects0|..][j] == before[|objects0| + j];
      } else {
        assert c == childObj;
        assert after[|objects0|..][|before| - |objects0|] == childObj;
      }
    }
  }

  /** One iteration of `load_rec`'s loop, as seen in the world's object list. */
  lemma ObjectsStep(start: seq<GameObject>, before: seq<GameObject>, after: seq<GameObject>, children: seq<Node>, i: nat)
    requires i < |children|
    requires |before| >= |start| && before[..|start|] == start
    requires Names(before) == Names(start) + ForestNames(children[..i])
    requires |after| > |before| && after[..|before|] == before
    requires Names(after) == Names(before) + [children[i].name] + DescendantNames(children[i])
    ensures |after| >= |start| && after[..|start|] == start
    ensures Names(after) == Names(start) + ForestNames(children[..i + 1])
  {
    PrefixOfPrefix(start, before, after);
    var forest := ForestNames(children[..i]);
    var below := DescendantNames(children[i]);
    assert ForestNames(children[..i + 1]) == forest + [children[i].name] + below by {
      assert children[..i + 1][..i] == children[..i];
    }
    SnocAssociates(Names(start), forest, children[i].name, below);
  }

  /** Counting over one more child adds that child's subtree. */
  lemma ForestMeshNodesSnoc(cs: seq<Node>, i: nat)
    requires i < |cs|
    ensures ForestMeshNodes(cs[..i + 1]) == ForestMeshNodes(cs[..i]) + MeshNodes(cs[i])
  {
    assert cs[..i + 1][..i] == cs[..i];
  }

  /** A prefix of a prefix is a prefix. */
  lemma PrefixOfPrefix(start: seq<GameObject>, before: seq<GameObject>, after: seq<GameObject>)
    requires |before| >= |start| && before[..|start|] == start
    requires |after| >= |before| && after[..|before|] == before
    ensures after[..|start|] == start
  {
    assert after[..|start|] == after[..|before|][..|start|];
  }

  lemma SnocAssociates(a: seq<string>, b: seq<string>, x: string, c: seq<string>)
    ensures (a + b) + [x] + c == a + (b + [x] + c)
  {
  }

  /** One iteration of `load_rec`'s loop, as seen in the parent's children. */
  lemma ChildrenStep(start: seq<GameObject>, before: seq<GameObject>, after: seq<GameObject>,
                     childObj: GameObject, children: seq<Node>, i: nat)
    requires i < |children| && childObj.name == children[i].name
    requires |before| == |start| + i && before[..|start|] == start
    requires Names(before) == Names(start) + NodeNames(children[..i])
    requires after == before + [childObj]
    ensures |after| == |start| + i + 1 && after[..|start|] == start
    ensures Names(after) == Names(start) + NodeNames(children[..i + 1])
  {
    assert children[..i + 1][..i] == children[..i];
    NamesSnoc(before, childObj);
    assert after[..|start|] == before[..|start|];
  }

  /** Appending an object appends its name. */
  lemma NamesSnoc(objs: seq<GameObject>, o: GameObject)
    ensures Names(objs + [o]) == Names(objs) + [o.name]
  {
    assert (objs + [o])[..|objs|] == objs;
  }

  /**
   * The material index `update_material_indicies` stores: the mapped
   * material id, or 0 when the index is unmapped or the id does not fit in
   * a `u32`.
   */
  function RemapMaterialIndex(matMap: map<u32, Materials.MaterialId>, index: u32): (r: u32)
    ensures index in matMap && matMap[index] < U32_LIMIT ==> r == matMap[index]
    ensures index !in matMap ==> r == 0
    ensures index in matMap && matMap[index] >= U32_LIMIT ==> r == 0
  {
    var intermediate := if index in matMap then matMap[index] else 0;
    if intermediate < U32_LIMIT then intermediate else 0
  }

  /** `update_material_indicies`: every mesh's material index is remapped in place; nothing else changes. */
  method UpdateMaterialIndices(sceneMeshes: array<AiMesh>, matMap: map<u32, Materials.MaterialId>)
    modifies sceneMeshes
    ensures forall i | 0 <= i < sceneMeshes.Length ::
      sceneMeshes[i] == old(sceneMeshes[i]).(materialIndex := RemapMaterialIndex(matMap, old(sceneMeshes[i].materialIndex)))
  {
    var i := 0;
    while i < sceneMeshes.Length
      invariant 0 <= i <= sceneMeshes.Length
      invariant forall j | 0 <= j < i ::
        sceneMeshes[j] == old(sceneMeshes[j]).(materialIndex := RemapMaterialIndex(matMap, old(sceneMeshes[j].materialIndex)))
      invariant forall j | i <= j < sceneMeshes.Length :: sceneMeshes[j] == old(sceneMeshes[j])
    {
      var mesh := sceneMeshes[i];
      var newIdx := if mesh.materialIndex in matMap then Some(matMap[mesh.materialIndex]) else None;
      var intermediate := newIdx.GetOr(0);
      var stored: u32 := if intermediate < U32_LIMIT then intermediate else 0;
      sceneMeshes[i] := mesh.(materialIndex := stored);
      i := i + 1;
    }
  }

  /** The value of an imported material property. */
  datatype PropertyData = FloatArray(values: seq<real>) | StringData(text: string) | OtherData

  datatype MaterialProperty = MaterialProperty(key: string, data: PropertyData)

  /** Whether `part` occurs in `s` as a contiguous substring (`str::contains`). */
  predicate Contains(s: string, part: string)
    decreases |s|
  {
    part <= s || (s != [] && Contains(s[1..], part))
  }

  /** A substring found at any position is contained. */
  lemma {:induction false} ContainsAt(s: string, part: string, at: nat)
    requires at + |part| <= |s| && s[at..at + |part|] == part
    ensures Contains(s, part)
    decreases at
  {
    if at == 0 {
      assert part <= s;
    } else {
      assert s[1..][at - 1..at - 1 + |part|] == part;
      ContainsAt(s[1..], part, at - 1);
    }
  }

  /** A contained substring is no longer than the string. */
  lemma {:induction false} ContainsNoLonger(s: string, part: string)
    requires Contains(s, part)
    ensures |part| <= |s|
    decreases |s|
  {
    if !(part <= s) {
      ContainsNoLonger(s[1..], part);
    }
  }

  /** The position of the first property whose key contains `key` (`iter().find`). */
  function FindProperty(props: seq<MaterialProperty>, key: string): (r: Option<nat>)
    ensures r.Some? ==> r.value < |props| && Contains(props[r.value].key, key)
    ensures r.Some? ==> forall j | 0 <= j < r.value :: !Contains(props[j].key, key)
    ensures r.None? <==> forall j | 0 <= j < |props| :: !Contains(props[j].key, key)
  {
    if props == [] then None
    else if Contains(props[0].key, key) then Some(0)
    else
      match FindProperty(props[1..], key)
      case None => None
      case Some(i) => Some(i + 1)
  }

  /** Properties after a match are never looked at. */
  lemma {:induction false} FirstMatchWins(props: seq<MaterialProperty>, extra: seq<MaterialProperty>, key: string)
    requires FindProperty(props, key).Some?
    ensures FindProperty(props + extra, key) == FindProperty(props, key)
  {
    if !Contains(props[0].key, key) {
      assert (props + extra)[1..] == props[1..] + extra;
      FirstMatchWins(props[1..], extra, key);
    }
  }

  /** The data of the first property matching `key`, if any. */
  function FindData(props: seq<MaterialProperty>, key: string): (r: Option<PropertyData>)
    ensures FindProperty(props, key).None? ==> r.None?
    ensures FindProperty(props, key).Some? ==> r == Some(props[FindProperty(props, key).value].data)
  {
    match FindProperty(props, key)
    case None => None
    case Some(i) => Some(props[i].data)
  }

  /**
   * `extract_vec3_property`: the first matching property when it is an
   * array of exactly three floats, otherwise `default`.
   */
  function ExtractVec3Property(props: seq<MaterialProperty>, key: string, default: Vec3): (r: Vec3)
    ensures (FindData(props, key).Some? && FindData(props, key).value.FloatArray?
             && |FindData(props, key).value.values| == 3)
            ==> var v := FindData(props, key).value.values; r == Vec3(v[0], v[1], v[2])
    ensures !(FindData(props, key).Some? && FindData(props, key).value.FloatArray?
              && |FindData(props, key).value.values| == 3)
            ==> r == default
  {
    match FindData(props, key)
    case Some(FloatArray(arr)) => if |arr| == 3 then Vec3(arr[0], arr[1], arr[2]) else default
    case _ => default
  }

  /** `extract_string_property`: the first matching property when it is a string, otherwise `default`. */
  function ExtractStringProperty(props: seq<MaterialProperty>, key: string, default: string): (r: string)
    ensures FindData(props, key).Some? && FindData(props, key).value.StringData? ==> r == FindData(props, key).value.text
    ensures !(FindData(props, key).Some? && FindData(props, key).value.StringData?) ==> r == default
  {
    match FindData(props, key)
    case Some(StringData(s)) => s
    case _ => default
  }

  /**
   * `extract_float_property`: the first element of the first matching
   * property when it is a non-empty float array, otherwise `default`.
   */
  function ExtractFloatProperty(props: seq<MaterialProperty>, key: string, default: real): (r: real)
    ensures (FindData(props, key).Some? && FindData(props, key).value.FloatArray?
             && |FindData(props, key).value.values| > 0)
            ==> r == FindData(props, key).value.values[0]
    ensures !(FindData(props, key).Some? && FindData(props, key).value.FloatArray?
              && |FindData(props, key).value.values| > 0)
            ==> r == default
  {
    match FindData(props, key)
    case Some(FloatArray(f)) => if |f| > 0 then f[0] else default
    case _ => default
  }

  /** The diffuse colour a material without a usable "diffuse" property gets. */
  const DEFAULT_DIFFUSE: Vec3 := Vec3(0.788, 0.788, 0.788)

  /**
   * The material `load_material` builds: name, diffuse colour and
   * shininess from the properties with their defaults, the loaded diffuse
   * and normal textures, no shininess texture, full opacity and the given
   * shader.
   */
  function MaterialFromProperties(props: seq<MaterialProperty>, diffuseTexture: Option<Materials.TextureId>,
                                  normalTexture: Option<Materials.TextureId>, shader: Shaders.ShaderId): (m: Materials.Material)
    ensures m.name == ExtractStringProperty(props, "name", "Material")
    ensures m.diffuse == ExtractVec3Property(props, "diffuse", DEFAULT_DIFFUSE)
    ensures m.shininess == ExtractFloatProperty(props, "shininess", 0.0)
    ensures m.diffuseTexture == diffuseTexture && m.normalTexture == normalTexture
    ensures m.shininessTexture.None? && m.opacity == 1.0 && m.shader == shader
  {
    Materials.Material(
      ExtractStringProperty(props, "name", "Material"),
      ExtractVec3Property(props, "diffuse", DEFAULT_DIFFUSE),
      diffuseTexture,
      normalTexture,
      ExtractFloatProperty(props, "shininess", 0.0),
      None,
      1.0,
      shader)
  }

  /** Without properties every field takes its default. */
  lemma MaterialDefaults(diffuseTexture: Option<Materials.TextureId>, normalTexture: Option<Materials.TextureId>, shader: Shaders.ShaderId)
    ensures MaterialFromProperties([], diffuseTexture, normalTexture, shader)
            == Materials.Material("Material", DEFAULT_DIFFUSE, diffuseTexture, normalTexture, 0.0, None, 1.0, shader)
  {
  }

  /**
   * `load_material`: registers the material built from the properties.
   * The texture ids are those the texture loads returned.
   */
  method LoadMaterial(materials: Materials.MaterialManager, props: seq<MaterialProperty>,
                      diffuseTexture: Option<Materials.TextureId>, normalTexture: Option<Materials.TextureId>,
                      shader: Shaders.ShaderId) returns (id: Materials.MaterialId)
    requires materials.Valid()
    modifies materials`materials, materials`nextId
    ensures materials.Valid()
    ensures id == old(materials.nextId) && materials.nextId == id + 1
    ensures materials.materials == old(materials.materials)[id := Entry(MaterialFromProperties(props, diffuseTexture, normalTexture, shader), None)]
  {
    var name := ExtractStringProperty(props, "name", "Material");
    var diffuse := ExtractVec3Property(props, "diffuse", DEFAULT_DIFFUSE);
    var shininess := ExtractFloatProperty(props, "shininess", 0.0);
    var material := Materials.Material(name, diffuse, diffuseTexture, normalTexture, shininess, None, 1.0, shader);
    id := materials.AddMaterial(material);
  }

  /** A decoded RGBA8 pixel. */
  datatype Rgba = Rgba(r: u8, g: u8, b: u8, a: u8)

  /** The bytes of `pixels` in B, G, R, A order, pixel after pixel. */
  function Bgra(pixels: seq<Rgba>): (data: seq<u8>)
    ensures |data| == 4 * |pixels|
  {
    if pixels == [] then []
    else
      var p := pixels[|pixels| - 1];
      Bgra(pixels[..|pixels| - 1]) + [p.b, p.g, p.r, p.a]
  }

  /** Pixel i occupies bytes 4i..4i+3, blue first and alpha last. */
  lemma {:induction false} BgraLayout(pixels: seq<Rgba>)
    ensures forall i | 0 <= i < |pixels| :: Bgra(pixels)[4 * i..4 * i + 4] == [pixels[i].b, pixels[i].g, pixels[i].r, pixels[i].a]
  {
    if pixels != [] {
      var prefix := pixels[..|pixels| - 1];
      BgraLayout(prefix);
      var data := Bgra(pixels);
      assert data[..4 * |prefix|] == Bgra(prefix);
      forall i | 0 <= i < |pixels|
        ensures data[4 * i..4 * i + 4] == [pixels[i].b, pixels[i].g, pixels[i].r, pixels[i].a]
      {
        if i < |prefix| {
          assert data[4 * i..4 * i + 4] == Bgra(prefix)[4 * i..4 * i + 4];
          assert pixels[i] == prefix[i];
        }
      }
    }
  }

  /** Reads BGRA bytes back into pixels. */
  function FromBgra(data: seq<u8>): (pixels: seq<Rgba>)
    requires |data| % 4 == 0
    ensures |pixels| == |data| / 4
  {
    if data == [] then []
    else
      var n := |data|;
      FromBgra(data[..n - 4]) + [Rgba(data[n - 2], data[n - 3], data[n - 4], data[n - 1])]
  }

  /** The swizzle loses nothing: the pixels can be read back from its bytes. */
  lemma {:induction false} BgraRoundTrip(pixels: seq<Rgba>)
    ensures FromBgra(Bgra(pixels)) == pixels
  {
    if pixels != [] {
      var prefix := pixels[..|pixels| - 1];
      var data := Bgra(pixels);
      assert data[..|data| - 4] == Bgra(prefix);
      BgraRoundTrip(prefix);
    }
  }

  /** The byte loop of `load_texture`: four bytes per pixel, blue, green, red, alpha. */
  method Swizzle(pixels: seq<Rgba>) returns (data: seq<u8>)
    ensures data == Bgra(pixels)
  {
    data := [];
    var i := 0;
    while i < |pixels|
      invariant 0 <= i <= |pixels|
      invariant data == Bgra(pixels[..i])
    {
      var pixel := pixels[i];
      assert pixels[..i + 1][..i] == pixels[..i];
      data := data + [pixel.b];
      data := data + [pixel.g];
      data := data + [pixel.r];
      data := data + [pixel.a];
      i := i + 1;
    }
    assert pixels[..i] == pixels;
  }
}
