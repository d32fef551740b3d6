// The name-to-field registry of src/language/reflectionmap.cpp
// (VolcanoReflectionMap), the DeviceFeatures registration and pNext chain,
// and the zero-result check of ImageFormatProperties::getProperties.
//
// A registered Pointer names the struct member it reaches (its FieldRef).
// The storage those members occupy is the map's `memory`, where a member not
// present reads as 0.

module Reflection {
  import opened VkTypes
  import opened Wrappers
  import Choose

  /** The two value types the registry is specialised for. */
  datatype Kind = Bool32 | Size

  /** A struct member: the sub-structure it lives in and its name. */
  datatype FieldRef = FieldRef(substruct: string, member: string)

  /** reflect::Pointer: the kind, the member it points to, and the length
    * when it was added as an array. */
  datatype Pointer = Pointer(kind: Kind, target: FieldRef, arrayLen: Option<nat>)

  /** reflect::Pointer's typed accessors are not part of this model; they are
    * taken to succeed exactly on a scalar of the requested kind. */
  predicate Accessible(p: Pointer, kind: Kind) {
    p.kind == kind && p.arrayLen.None?
  }

  class VolcanoReflectionMap {
    var fields: map<string, Pointer>
    var memory: map<FieldRef, int>

    constructor()
      ensures fields == map[] && memory == map[]
    {
      fields := map[];
      memory := map[];
    }

    function Read(t: FieldRef): int
      reads this`memory
    {
      if t in memory then memory[t] else 0
    }

    /** getField: the registered pointer, or None (nullptr). */
    function GetField(name: string): (p: Option<Pointer>)
      reads this`fields
      ensures p.None? <==> name !in fields
      ensures p.Some? ==> p.value == fields[name]
    {
      if name in fields then Some(fields[name]) else None
    }

    /** get: 1 for an unknown name or an inaccessible pointer, leaving the
      * caller's variable (`prior`) as it was; else 0 and the member's value. */
    method Get(name: string, kind: Kind, prior: int) returns (r: int, value: int)
      ensures r == 0 || r == 1
      ensures r == 0 <==> name in fields && Accessible(fields[name], kind)
      ensures r == 0 ==> value == Read(fields[name].target)
      ensures r == 1 ==> value == prior
    {
      var p := GetField(name);
      if p.None? || !Accessible(p.value, kind) {
        return 1, prior;
      }
      return 0, Read(p.value.target);
    }

    /** set: 1 and no change for an unknown name or an inaccessible pointer;
      * else 0 and only the pointed-to member changes. */
    method Set(name: string, kind: Kind, value: int) returns (r: int)
      modifies this`memory
      ensures r == 0 || r == 1
      ensures r == 0 <==> name in fields && Accessible(fields[name], kind)
      ensures r == 0 ==> memory == old(memory)[fields[name].target := value]
      ensures r == 1 ==> memory == old(memory)
    {
      var p := GetField(name);
      if p.None? || !Accessible(p.value, kind) {
        return 1;
      }
      memory := memory[p.value.target := value];
      return 0;
    }

    /** addField: 1 and the existing entry untouched when the name is taken;
      * else 0 and a scalar pointer to `target` is registered. */
    method AddField(name: string, kind: Kind, target: FieldRef) returns (r: int)
      modifies this`fields
      ensures r == 0 || r == 1
      ensures r == 1 <==> name in old(fields)
      ensures r == 1 ==> fields == old(fields)
      ensures r == 0 ==> fields == old(fields)[name := Pointer(kind, target, None)]
    {
      if GetField(name).Some? {
        return 1;
      }
      fields := fields[name := Pointer(kind, target, None)];
      return 0;
    }

    /** addArrayField: as addField, registering an array of `len` elements. */
    method AddArrayField(name: string, kind: Kind, target: FieldRef, len: nat) returns (r: int)
      modifies this`fields
      ensures r == 0 || r == 1
      ensures r == 1 <==> name in old(fields)
      ensures r == 1 ==> fields == old(fields)
      ensures r == 0 ==> fields == old(fields)[name := Pointer(kind, target, Some(len))]
    {
      if GetField(name).Some? {
        return 1;
      }
      fields := fields[name := Pointer(kind, target, Some(len))];
      return 0;
    }
  }

  /** The VkBool32 members the DeviceFeatures constructor registers, in
    * order: VkPhysicalDeviceFeatures, then the Vulkan 1.1 and extension
    * feature structs. */
  const FEATURE_FIELDS: seq<FieldRef> := [
    FieldRef("features", "robustBufferAccess"),
    FieldRef("features", "fullDrawIndexUint32"),
    FieldRef("features", "imageCubeArray"),
    FieldRef("features", "independentBlend"),
    FieldRef("features", "geometryShader"),
    FieldRef("features", "tessellationShader"),
    FieldRef("features", "sampleRateShading"),
    FieldRef("features", "dualSrcBlend"),
    FieldRef("features", "logicOp"),
    FieldRef("features", "multiDrawIndirect"),
    FieldRef("features", "drawIndirectFirstInstance"),
    FieldRef("features", "depthClamp"),
    FieldRef("features", "depthBiasClamp"),
    FieldRef("features", "fillModeNonSolid"),
    FieldRef("features", "depthBounds"),
    FieldRef("features", "wideLines"),
    FieldRef("features", "largePoints"),
    FieldRef("features", "alphaToOne"),
    FieldRef("features", "multiViewport"),
    FieldRef("features", "samplerAnisotropy"),
    FieldRef("features", "textureCompressionETC2"),
    FieldRef("features", "textureCompressionASTC_LDR"),
    FieldRef("features", "textureCompressionBC"),
    FieldRef("features", "occlusionQueryPrecise"),
    FieldRef("features", "pipelineStatisticsQuery"),
    FieldRef("features", "vertexPipelineStoresAndAtomics"),
    FieldRef("features", "fragmentStoresAndAtomics"),
    FieldRef("features", "shaderTessellationAndGeometryPointSize"),
    FieldRef("features", "shaderImageGatherExtended"),
    FieldRef("features", "shaderStorageImageExtendedFormats"),
    FieldRef("features", "shaderStorageImageMultisample"),
    FieldRef("features", "shaderStorageImageReadWithoutFormat"),
    FieldRef("features", "shaderStorageImageWriteWithoutFormat"),
    FieldRef("features", "shaderUniformBufferArrayDynamicIndexing"),
    FieldRef("features", "shaderSampledImageArrayDynamicIndexing"),
    FieldRef("features", "shaderStorageBufferArrayDynamicIndexing"),
    FieldRef("features", "shaderStorageImageArrayDynamicIndexing"),
    FieldRef("features", "shaderClipDistance"),
    FieldRef("features", "shaderCullDistance"),
    FieldRef("features", "shaderFloat64"),
    FieldRef("features", "shaderInt64"),
    FieldRef("features", "shaderInt16"),
    FieldRef("features", "shaderResourceResidency"),
    FieldRef("features", "shaderResourceMinLod"),
    FieldRef("features", "sparseBinding"),
    FieldRef("features", "sparseResidencyBuffer"),
    FieldRef("features", "sparseResidencyImage2D"),
    FieldRef("features", "sparseResidencyImage3D"),
    FieldRef("features", "sparseResidency2Samples"),
    FieldRef("features", "sparseResidency4Samples"),
    FieldRef("features", "sparseResidency8Samples"),
    FieldRef("features", "sparseResidency16Samples"),
    FieldRef("features", "sparseResidencyAliased"),
    FieldRef("features", "variableMultisampleRate"),
    FieldRef("features", "inheritedQueries"),
    FieldRef("variablePointer", "variablePointersStorageBuffer"),
    FieldRef("variablePointer", "variablePointers"),
    FieldRef("multiview", "multiview"),
    FieldRef("multiview", "multiviewGeometryShader"),
    FieldRef("multiview", "multiviewTessellationShader"),
    FieldRef("drm", "protectedMemory"),
    FieldRef("shaderDraw", "shaderDrawParameters"),
    FieldRef("storage16Bit", "storageBuffer16BitAccess"),
    FieldRef("storage16Bit", "uniformAndStorageBuffer16BitAccess"),
    FieldRef("storage16Bit", "storagePushConstant16"),
    FieldRef("storage16Bit", "storageInputOutput16"),
    FieldRef("blendOpAdvanced", "advancedBlendCoherentOperations"),
    FieldRef("descriptorIndexing", "shaderInputAttachmentArrayDynamicIndexing"),
    FieldRef("descriptorIndexing", "shaderUniformTexelBufferArrayDynamicIndexing"),
    FieldRef("descriptorIndexing", "shaderStorageTexelBufferArrayDynamicIndexing"),
    FieldRef("descriptorIndexing", "shaderUniformBufferArrayNonUniformIndexing"),
    FieldRef("descriptorIndexing", "shaderSampledImageArrayNonUniformIndexing"),
    FieldRef("descriptorIndexing", "shaderStorageBufferArrayNonUniformIndexing"),
    FieldRef("descriptorIndexing", "shaderStorageImageArrayNonUniformIndexing"),
    FieldRef("descriptorIndexing", "shaderInputAttachmentArrayNonUniformIndexing"),
    FieldRef("descriptorIndexing", "shaderUniformTexelBufferArrayNonUniformIndexing"),
    FieldRef("descriptorIndexing", "shaderStorageTexelBufferArrayNonUniformIndexing"),
    FieldRef("descriptorIndexing", "descriptorBindingUniformBufferUpdateAfterBind"),
    FieldRef("descriptorIndexing", "descriptorBindingSampledImageUpdateAfterBind"),
    FieldRef("descriptorIndexing", "descriptorBindingStorageImageUpdateAfterBind"),
    FieldRef("descriptorIndexing", "descriptorBindingStorageBufferUpdateAfterBind"),
    FieldRef("descriptorIndexing", "descriptorBindingUniformTexelBufferUpdateAfterBind"),
    FieldRef("descriptorIndexing", "descriptorBindingStorageTexelBufferUpdateAfterBind"),
    FieldRef("descriptorIndexing", "descriptorBindingUpdateUnusedWhilePending"),
    FieldRef("descriptorIndexing", "descriptorBindingPartiallyBound"),
    FieldRef("descriptorIndexing", "descriptorBindingVariableDescriptorCount"),
    FieldRef("descriptorIndexing", "runtimeDescriptorArray")]

  /** What the registration loop leaves: the registry after adding each
    * field in turn, and whether every addField succeeded. It stops at the
    * first name that is already registered. */
  function Register(fields: map<string, Pointer>, todo: seq<FieldRef>): (r: (map<string, Pointer>, bool))
    ensures fields.Keys <= r.0.Keys
    ensures forall n :: n in fields ==> r.0[n] == fields[n]
    decreases |todo|
  {
    if todo == [] then (fields, true)
    else if todo[0].member in fields then (fields, false)
    else Register(fields[todo[0].member := Pointer(Bool32, todo[0], None)], todo[1..])
  }

  predicate DistinctMembers(todo: seq<FieldRef>) {
    forall i, j :: 0 <= i < j < |todo| ==> todo[i].member != todo[j].member
  }

  /** With distinct names none of which is registered yet, every addField
    * succeeds and each name points to its own member. */
  lemma {:induction false} RegisterDistinct(fields: map<string, Pointer>, todo: seq<FieldRef>)
    requires DistinctMembers(todo)
    requires forall i :: 0 <= i < |todo| ==> todo[i].member !in fields
    ensures Register(fields, todo).1
    ensures forall i :: 0 <= i < |todo| ==>
      todo[i].member in Register(fields, todo).0 &&
      Register(fields, todo).0[todo[i].member] == Pointer(Bool32, todo[i], None)
    decreases |todo|
  {
    if todo != [] {
      var f := fields[todo[0].member := Pointer(Bool32, todo[0], None)];
      forall i | 0 <= i < |todo[1..]|
        ensures todo[1..][i].member !in f
      {
        assert todo[1..][i] == todo[i + 1];
      }
      RegisterDistinct(f, todo[1..]);
      forall i | 0 <= i < |todo|
        ensures todo[i].member in Register(fields, todo).0 &&
          Register(fields, todo).0[todo[i].member] == Pointer(Bool32, todo[i], None)
      {
        if i > 0 {
          assert todo[1..][i - 1] == todo[i];
        }
      }
    }
  }

  /** A failed registration is caused by a repeated name or one that was
    * registered before. */
  lemma {:induction false} RegisterFailsOnRepeat(fields: map<string, Pointer>, todo: seq<FieldRef>)
    requires !Register(fields, todo).1
    ensures (exists i :: 0 <= i < |todo| && todo[i].member in fields) || !DistinctMembers(todo)
    decreases |todo|
  {
    if todo[0].member !in fields {
      var f := fields[todo[0].member := Pointer(Bool32, todo[0], None)];
      RegisterFailsOnRepeat(f, todo[1..]);
      if exists i :: 0 <= i < |todo[1..]| && todo[1..][i].member in f {
        var i :| 0 <= i < |todo[1..]| && todo[1..][i].member in f;
        assert todo[i + 1] == todo[1..][i];
        if todo[i + 1].member !in fields {
          assert todo[i + 1].member == todo[0].member;
          assert !DistinctMembers(todo);
        }
      } else {
        var i, j :| 0 <= i < j < |todo[1..]| && todo[1..][i].member == todo[1..][j].member;
        assert todo[i + 1] == todo[1..][i] && todo[j + 1] == todo[1..][j];
      }
    }
  }

  /** VK_MAKE_VERSION(1, 1, 0). */
  const API_VERSION_1_1: int := 0x40_1000

  const BLEND_OP_ADVANCED_EXTENSION: string := "VK_EXT_blend_operation_advanced"
  const DESCRIPTOR_INDEXING_EXTENSION: string := "VK_EXT_descriptor_indexing"
  const AMD_LOD_GATHER_EXTENSION: string := "VK_AMD_texture_gather_bias_lod"

  /** The sub-structures getFeatures links from pNext, in chain order. */
  function FeatureChain(apiVersion: int, available: seq<string>): (c: seq<string>)
    ensures apiVersion < API_VERSION_1_1 ==> c == []
    ensures apiVersion >= API_VERSION_1_1 ==>
      5 <= |c| <= 7 && c[..5] == ["variablePointer", "multiview", "drm", "shaderDraw", "storage16Bit"]
    ensures "blendOpAdvanced" in c <==> apiVersion >= API_VERSION_1_1 && BLEND_OP_ADVANCED_EXTENSION in available
    ensures "descriptorIndexing" in c <==> apiVersion >= API_VERSION_1_1 && DESCRIPTOR_INDEXING_EXTENSION in available
    ensures apiVersion >= API_VERSION_1_1 && BLEND_OP_ADVANCED_EXTENSION in available ==> c[5] == "blendOpAdvanced"
    ensures |c| == 7 ==> c[6] == "descriptorIndexing"
  {
    if apiVersion < API_VERSION_1_1 then []
    else
      ["variablePointer", "multiview", "drm", "shaderDraw", "storage16Bit"] +
      (if BLEND_OP_ADVANCED_EXTENSION in available then ["blendOpAdvanced"] else []) +
      (if DESCRIPTOR_INDEXING_EXTENSION in available then ["descriptorIndexing"] else [])
  }

  /** The struct members the registry points at. */
  function Targets(fields: map<string, Pointer>): set<FieldRef> {
    set n | n in fields :: fields[n].target
  }

  /** What the driver writes into the registered members: those of
    * "features" always, plus those of each sub-structure on the chain, each
    * with the value the driver reports. */
  function Filled(fields: map<string, Pointer>, chain: seq<string>, reported: FieldRef -> int): (m: map<FieldRef, int>)
    ensures forall n :: n in fields && (fields[n].target.substruct == "features" || fields[n].target.substruct in chain) ==>
      fields[n].target in m && m[fields[n].target] == reported(fields[n].target)
    ensures forall t :: t in m ==> t.substruct == "features" || t.substruct in chain
  {
    map t | t in Targets(fields) && (t.substruct == "features" || t.substruct in chain) :: reported(t)
  }

  /** The registry a DeviceFeatures holds once its constructor has run. */
  ghost function RegisteredFeatures(): map<string, Pointer> {
    Register(map[], FEATURE_FIELDS).0
  }

  class DeviceFeatures {
    const reflect: VolcanoReflectionMap
    /** The sub-structures linked from pNext, in order. */
    var chain: seq<string>

    /** Register every member by name, stopping at the first addField that
      * fails; reset() runs only when all of them succeed. */
    constructor()
      ensures fresh(reflect)
      ensures reflect.fields == RegisteredFeatures()
      ensures reflect.memory == map[] && chain == []
    {
      var m := new VolcanoReflectionMap();
      reflect := m;
      chain := [];
      new;
      RegisterAll();
    }

    /** The constructor's body: the ADD_FIELD sequence on the empty
      * registry, then reset() if no addField returned early. */
    method RegisterAll()
      requires reflect.fields == map[] && reflect.memory == map[] && chain == []
      modifies reflect`fields, this`chain, reflect`memory
      ensures reflect.fields == RegisteredFeatures()
      ensures reflect.memory == map[] && chain == []
    {
      var ok := AddFields(FEATURE_FIELDS);
      ghost var registered := reflect.fields;
      assert registered == RegisteredFeatures();
      if ok {
        Reset();
      }
      assert reflect.fields == registered;
    }

    /** The ADD_FIELD sequence: addField for each member in turn, returning
      * at the first failure. */
    method AddFields(todo: seq<FieldRef>) returns (ok: bool)
      modifies reflect`fields
      ensures (reflect.fields, ok) == Register(old(reflect.fields), todo)
    {
      var i := 0;
      while i < |todo|
        invariant 0 <= i <= |todo|
        invariant Register(reflect.fields, todo[i..]) == Register(old(reflect.fields), todo)
      {
        var f := todo[i];
        var r := reflect.AddField(f.member, Bool32, f);
        if r != 0 {
          return false;
        }
        assert todo[i..][1..] == todo[i + 1..];
        i := i + 1;
      }
      return true;
    }

    /** reset: every feature struct back to zero, no pNext chain; the
      * registry itself is kept. */
    method Reset()
      modifies this`chain, reflect`memory
      ensures chain == [] && reflect.memory == map[]
    {
      chain := [];
      reflect.memory := map[];
    }

    /** getFeatures: reset, build the pNext chain for Vulkan 1.1 (asking the
      * device's extension list `available` for the two optional structs),
      * then let the driver fill the linked structs; `reported` is what the
      * driver writes. It always returns 0. */
    method GetFeatures(apiVersion: int, available: seq<string>, reported: FieldRef -> int) returns (r: int)
      modifies this`chain, reflect`memory
      ensures r == 0
      ensures chain == FeatureChain(apiVersion, available)
      ensures reflect.memory == Filled(reflect.fields, chain, reported)
    {
      Reset();
      if apiVersion < API_VERSION_1_1 {
        reflect.memory := Filled(reflect.fields, [], reported);
        return 0;
      }
      chain := ["variablePointer", "multiview", "drm", "shaderDraw", "storage16Bit"];
      var hasBlend := Choose.IsExtensionAvailable(available, BLEND_OP_ADVANCED_EXTENSION);
      if hasBlend == 1 {
        chain := chain + ["blendOpAdvanced"];
      }
      var hasIndexing := Choose.IsExtensionAvailable(available, DESCRIPTOR_INDEXING_EXTENSION);
      if hasIndexing == 1 {
        chain := chain + ["descriptorIndexing"];
      }
      reflect.memory := Filled(reflect.fields, chain, reported);
      return 0;
    }

    /** DeviceFeatures::get: the registry's get for the same name. */
    method GetBool(name: string, prior: int) returns (r: int, value: int)
      ensures r == 0 || r == 1
      ensures r == 0 <==> name in reflect.fields && Accessible(reflect.fields[name], Bool32)
      ensures r == 0 ==> value == reflect.Read(reflect.fields[name].target)
      ensures r == 1 ==> value == prior
    {
      r, value := reflect.Get(name, Bool32, prior);
    }

    /** DeviceFeatures::set: the registry's set for the same name. */
    method SetBool(name: string, value: int) returns (r: int)
      modifies reflect`memory
      ensures r == 0 || r == 1
      ensures r == 0 <==> name in reflect.fields && Accessible(reflect.fields[name], Bool32)
      ensures r == 0 ==> reflect.memory == old(reflect.memory)[reflect.fields[name].target := value]
      ensures r == 1 ==> reflect.memory == old(reflect.memory)
    {
      r := reflect.Set(name, Bool32, value);
    }
  }

  /** The VkImageFormatProperties limits whose all-zero value the driver must
    * not report together with VK_SUCCESS. */
  datatype ImageFormatLimits = ImageFormatLimits(
    maxExtent: Extent3D, maxMipLevels: u32, maxArrayLayers: u32,
    sampleCounts: Flags, maxResourceSize: u64)

  predicate AllZero(l: ImageFormatLimits) {
    l.maxExtent == Extent3D(0, 0, 0) && l.maxMipLevels == 0 && l.maxArrayLayers == 0 &&
    l.sampleCounts == 0 && l.maxResourceSize == 0
  }

  /** The result of getProperties from the driver's result and limits: on the
    * Vulkan 1.1 path a VK_SUCCESS with all-zero limits becomes
    * VK_ERROR_VALIDATION_FAILED_EXT; the 1.0 path returns the driver's
    * result as it is. */
  function ImageFormatResult(apiVersion: int, driverResult: int, limits: ImageFormatLimits): (r: int)
    ensures r == VK_ERROR_VALIDATION_FAILED_EXT || r == driverResult
    ensures driverResult != VK_ERROR_VALIDATION_FAILED_EXT ==>
      (r == VK_ERROR_VALIDATION_FAILED_EXT <==>
         apiVersion >= API_VERSION_1_1 && driverResult == VK_SUCCESS && AllZero(limits))
  {
    if apiVersion >= API_VERSION_1_1 && driverResult == VK_SUCCESS && AllZero(limits)
    then VK_ERROR_VALIDATION_FAILED_EXT
    else driverResult
  }

  /** The VkPhysicalDeviceImageFormatInfo2 fields getProperties passes to the
    * driver; externalHandleType is 0 when no external memory is requested. */
  datatype ImageFormatQuery = ImageFormatQuery(
    format: int, imageType: int, tiling: int, usage: Flags, flags: Flags, externalHandleType: Flags)

  class ImageFormatProperties {
    var chain: seq<string>
    var limits: ImageFormatLimits
    /** What the last getProperties asked the driver. */
    var query: ImageFormatQuery

    constructor()
      ensures chain == [] && AllZero(limits)
    {
      chain := [];
      limits := ImageFormatLimits(Extent3D(0, 0, 0), 0, 0, 0, 0);
      query := ImageFormatQuery(0, 0, 0, 0, 0, 0);
    }

    /** getProperties: reset, build the chain (Vulkan 1.1: ycbcrConversion,
      * then externalImage when external memory is requested, then
      * amdLODGather when its extension is available), query the driver and
      * apply the zero-result check. `driverResult` and `reported` are the
      * driver's answer. */
    method GetProperties(apiVersion: int, available: seq<string>,
                         format: int, imageType: int, tiling: int, usage: Flags, flags: Flags,
                         externalMemoryFlags: Flags, driverResult: int, reported: ImageFormatLimits)
      returns (r: int)
      modifies this
      ensures r == ImageFormatResult(apiVersion, driverResult, reported)
      ensures limits == reported
      ensures apiVersion < API_VERSION_1_1 ==>
        chain == [] && query == ImageFormatQuery(format, imageType, tiling, usage, flags, 0)
      ensures apiVersion >= API_VERSION_1_1 ==>
        query == ImageFormatQuery(format, imageType, tiling, usage, flags, externalMemoryFlags) &&
        chain == ["ycbcrConversion"] +
          (if externalMemoryFlags != 0 then ["externalImage"] else []) +
          (if AMD_LOD_GATHER_EXTENSION in available then ["amdLODGather"] else [])
    {
      chain := [];
      limits := ImageFormatLimits(Extent3D(0, 0, 0), 0, 0, 0, 0);
      if apiVersion < API_VERSION_1_1 {
        query := ImageFormatQuery(format, imageType, tiling, usage, flags, 0);
        limits := reported;
        return driverResult;
      }
      chain := ["ycbcrConversion"];
      if externalMemoryFlags != 0 {
        chain := chain + ["externalImage"];
      }
      var amd := Choose.IsExtensionAvailable(available, AMD_LOD_GATHER_EXTENSION);
      if amd == 1 {
        chain := chain + ["amdLODGather"];
      }
      query := ImageFormatQuery(format, imageType, tiling, usage, flags, externalMemoryFlags);
      limits := reported;
      if driverResult != VK_SUCCESS || !AllZero(limits) {
        return driverResult;
      }
      return VK_ERROR_VALIDATION_FAILED_EXT;
    }

    /** The VkImageCreateInfo form: forwards format, imageType, tiling, usage
      * and flags unchanged. */
    method GetPropertiesFor(apiVersion: int, available: seq<string>, ici: ImageCreateInfo,
                            externalMemoryFlags: Flags, driverResult: int, reported: ImageFormatLimits)
      returns (r: int)
      modifies this
      ensures r == ImageFormatResult(apiVersion, driverResult, reported)
      ensures query.format == ici.format && query.imageType == ici.imageType && query.tiling == ici.tiling
      ensures query.usage == ici.usage && query.flags == ici.flags
    {
      r := GetProperties(apiVersion, available, ici.format, ici.imageType, ici.tiling, ici.usage, ici.flags,
                         externalMemoryFlags, driverResult, reported);
    }
  }
}
