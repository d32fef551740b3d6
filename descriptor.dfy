// memory::DescriptorPool, DescriptorSetLayout and DescriptorSet: reserving
// descriptors, remembering the descriptor type of each binding, and checking
// each write against the type of the binding it targets.
//
// vkUpdateDescriptorSets is not called here: a write that passes its checks
// returns the VkWriteDescriptorSet it would send.

module Descriptors {
  import opened VkTypes
  import opened Wrappers
  import opened Buffers
  import opened Samplers

  /** VkDescriptorType. */
  const DESCRIPTOR_TYPE_SAMPLER: int := 0
  const DESCRIPTOR_TYPE_COMBINED_IMAGE_SAMPLER: int := 1
  const DESCRIPTOR_TYPE_SAMPLED_IMAGE: int := 2
  const DESCRIPTOR_TYPE_STORAGE_IMAGE: int := 3
  const DESCRIPTOR_TYPE_UNIFORM_TEXEL_BUFFER: int := 4
  const DESCRIPTOR_TYPE_STORAGE_TEXEL_BUFFER: int := 5
  const DESCRIPTOR_TYPE_UNIFORM_BUFFER: int := 6
  const DESCRIPTOR_TYPE_STORAGE_BUFFER: int := 7
  const DESCRIPTOR_TYPE_UNIFORM_BUFFER_DYNAMIC: int := 8
  const DESCRIPTOR_TYPE_STORAGE_BUFFER_DYNAMIC: int := 9
  const DESCRIPTOR_TYPE_INPUT_ATTACHMENT: int := 10

  /** VK_DESCRIPTOR_POOL_CREATE_FREE_DESCRIPTOR_SET_BIT. */
  const DESCRIPTOR_POOL_CREATE_FREE_DESCRIPTOR_SET: Flags := 0x1

  datatype DescriptorPoolSize = DescriptorPoolSize(descriptorType: int, descriptorCount: u32)
  datatype DescriptorPoolCreateInfo = DescriptorPoolCreateInfo(
    flags: Flags, maxSets: u32, poolSizes: seq<DescriptorPoolSize>)

  datatype DescriptorSetLayoutBinding = DescriptorSetLayoutBinding(
    binding: u32, descriptorType: int, descriptorCount: u32, stageFlags: Flags)

  /** What a VkWriteDescriptorSet points at. */
  datatype WritePayload =
    | ImageInfos(images: seq<DescriptorImageInfo>)
    | BufferInfos(buffers: seq<DescriptorBufferInfo>)
    | TexelViews(views: seq<Handle>)

  datatype WriteDescriptorSet = WriteDescriptorSet(
    dstSet: Handle, dstBinding: u32, dstArrayElement: u32, descriptorType: int,
    descriptorCount: nat, payload: WritePayload)

  /** The three write overloads. */
  datatype WriteKind = ImageWrite | BufferWrite | TexelWrite

  /** The descriptor types each write overload accepts. */
  predicate Accepts(kind: WriteKind, t: int) {
    match kind
    case ImageWrite =>
      t == DESCRIPTOR_TYPE_SAMPLER || t == DESCRIPTOR_TYPE_COMBINED_IMAGE_SAMPLER ||
      t == DESCRIPTOR_TYPE_SAMPLED_IMAGE || t == DESCRIPTOR_TYPE_STORAGE_IMAGE
    case BufferWrite =>
      t == DESCRIPTOR_TYPE_UNIFORM_BUFFER || t == DESCRIPTOR_TYPE_STORAGE_BUFFER ||
      t == DESCRIPTOR_TYPE_UNIFORM_BUFFER_DYNAMIC || t == DESCRIPTOR_TYPE_STORAGE_BUFFER_DYNAMIC
    case TexelWrite =>
      t == DESCRIPTOR_TYPE_UNIFORM_TEXEL_BUFFER || t == DESCRIPTOR_TYPE_STORAGE_TEXEL_BUFFER
  }

  /** No descriptor type is accepted by two overloads, and an input
    * attachment is accepted by none. */
  lemma AcceptsDisjoint(t: int, k1: WriteKind, k2: WriteKind)
    ensures Accepts(k1, t) && Accepts(k2, t) ==> k1 == k2
    ensures !Accepts(k1, DESCRIPTOR_TYPE_INPUT_ATTACHMENT)
  {
  }

  /** Every type from SAMPLER to STORAGE_BUFFER_DYNAMIC has an overload. */
  lemma AcceptsCoversTypes(t: int)
    requires DESCRIPTOR_TYPE_SAMPLER <= t <= DESCRIPTOR_TYPE_STORAGE_BUFFER_DYNAMIC
    ensures Accepts(ImageWrite, t) || Accepts(BufferWrite, t) || Accepts(TexelWrite, t)
  {
  }

  /** The guard of the three writes as written: `binding > types.size()`
    * lets binding == |types| through to types.at(binding), which throws
    * std::out_of_range; the library catches no exceptions, so the process
    * ends (Exited). */
  function WriteCheckAsWritten(kind: WriteKind, types: seq<int>, binding: u32): (s: Status)
    ensures s.Exited? <==> binding == |types|
    ensures s.Returned? ==> s.code in {0, 1}
  {
    if binding > |types| then Returned(1)
    else if binding == |types| then Exited
    else if Accepts(kind, types[binding]) then Returned(0)
    else Returned(1)
  }

  /** The write check as intended: a binding past the end is refused. */
  function WriteCheck(kind: WriteKind, types: seq<int>, binding: u32): (r: int)
    ensures r in {0, 1}
    ensures r == 0 <==> binding < |types| && Accepts(kind, types[binding])
  {
    if binding >= |types| then 1
    else if Accepts(kind, types[binding]) then 0
    else 1
  }

  /** A write to the first binding past the end of a one-binding set ends
    * the process instead of returning 1. */
  lemma WriteCheckAsWrittenExitsAtEnd()
    ensures WriteCheckAsWritten(ImageWrite, [DESCRIPTOR_TYPE_SAMPLER], 1) == Exited
    ensures WriteCheck(ImageWrite, [DESCRIPTOR_TYPE_SAMPLER], 1) == 1
  {
  }

  /** Everywhere else the two checks agree. */
  lemma WriteCheckAgrees(kind: WriteKind, types: seq<int>, binding: u32)
    requires binding != |types|
    ensures WriteCheckAsWritten(kind, types, binding) == Returned(WriteCheck(kind, types, binding))
  {
  }

  /** At most one overload can write a given binding. */
  lemma WriteCheckOneKind(types: seq<int>, binding: u32, k1: WriteKind, k2: WriteKind)
    requires WriteCheck(k1, types, binding) == 0 && WriteCheck(k2, types, binding) == 0
    ensures k1 == k2
  {
    AcceptsDisjoint(types[binding], k1, k2);
  }

  /** The number of descriptors of type t that pool sizes reserve: the sum of
    * descriptorCount over the entries of that type. */
  function Reserved(sizes: seq<DescriptorPoolSize>, t: int): nat
    decreases |sizes|
  {
    if sizes == [] then 0
    else Reserved(sizes[..|sizes| - 1], t) +
         (if sizes[|sizes| - 1].descriptorType == t then sizes[|sizes| - 1].descriptorCount else 0)
  }

  /** The pool sizes of DescriptorPool::ctorError: one entry per requested
    * type, in order, each for one descriptor. */
  predicate OnePerType(sizes: seq<DescriptorPoolSize>, types: seq<int>) {
    |sizes| == |types| && forall i :: 0 <= i < |sizes| ==> sizes[i] == DescriptorPoolSize(types[i], 1)
  }

  /** With one entry per requested type, the pool reserves for each type as
    * many descriptors as that type was requested: the multiset the header
    * declares. */
  lemma {:induction false} OnePerTypeReservesCount(sizes: seq<DescriptorPoolSize>, types: seq<int>, t: int)
    requires OnePerType(sizes, types)
    ensures Reserved(sizes, t) == multiset(types)[t]
    decreases |types|
  {
    if types != [] {
      var n := |types| - 1;
      assert OnePerType(sizes[..n], types[..n]);
      OnePerTypeReservesCount(sizes[..n], types[..n], t);
      assert types == types[..n] + [types[n]];
      assert multiset(types) == multiset(types[..n]) + multiset{types[n]};
    }
  }

  class DescriptorPool {
    const dev: nat
    var vk: Handle

    constructor (dev: nat)
      ensures this.dev == dev && vk == NULL_HANDLE
    {
      this.dev := dev;
      vk := NULL_HANDLE;
    }

    /** ctorError(maxSets, maxDescriptors): a pool whose sets may be freed,
      * for maxSets sets, with one pool size per requested type. The info is
      * returned with the result. */
    method CtorError(maxSets: u32, maxDescriptors: seq<int>, created: Option<Handle>)
      returns (r: int, info: DescriptorPoolCreateInfo)
      modifies this`vk
      ensures info.flags == DESCRIPTOR_POOL_CREATE_FREE_DESCRIPTOR_SET && info.maxSets == maxSets
      ensures OnePerType(info.poolSizes, maxDescriptors)
      ensures r == 0 <==> created.Some?
      ensures vk == (if created.Some? then created.value else NULL_HANDLE)
    {
      var poolSizes: seq<DescriptorPoolSize> := [];
      var i := 0;
      while i < |maxDescriptors|
        invariant 0 <= i <= |maxDescriptors|
        invariant OnePerType(poolSizes, maxDescriptors[..i])
      {
        poolSizes := poolSizes + [DescriptorPoolSize(maxDescriptors[i], 1)];
        i := i + 1;
      }
      assert maxDescriptors[..i] == maxDescriptors;
      info := DescriptorPoolCreateInfo(DESCRIPTOR_POOL_CREATE_FREE_DESCRIPTOR_SET, maxSets, poolSizes);
      vk := NULL_HANDLE;
      if created.None? {
        return 1, info;
      }
      vk := created.value;
      r := 0;
    }

    /** reset: vkResetDescriptorPool. */
    method Reset(resetOk: bool) returns (r: int)
      ensures r == (if resetOk then 0 else 1)
    {
      r := if resetOk then 0 else 1;
    }
  }

  class DescriptorSetLayout {
    var types: seq<int>
    var vk: Handle

    constructor ()
      ensures types == [] && vk == NULL_HANDLE
    {
      types := [];
      vk := NULL_HANDLE;
    }

    /** ctorError(dev, bindings): types becomes the bindings' descriptor types
      * in order, whether or not the driver then creates the layout. */
    method CtorError(bindings: seq<DescriptorSetLayoutBinding>, created: Option<Handle>) returns (r: int)
      modifies this`types, this`vk
      ensures |types| == |bindings|
      ensures forall i :: 0 <= i < |bindings| ==> types[i] == bindings[i].descriptorType
      ensures r == 0 <==> created.Some?
      ensures vk == (if created.Some? then created.value else NULL_HANDLE)
    {
      types := [];
      var i := 0;
      while i < |bindings|
        invariant 0 <= i <= |bindings|
        invariant |types| == i
        invariant forall j :: 0 <= j < i ==> types[j] == bindings[j].descriptorType
      {
        types := types + [bindings[i].descriptorType];
        i := i + 1;
      }
      vk := NULL_HANDLE;
      if created.None? {
        return 1;
      }
      vk := created.value;
      r := 0;
    }
  }

  class DescriptorSet {
    const pool: DescriptorPool
    var types: seq<int>
    var vk: Handle

    constructor (pool: DescriptorPool)
      ensures this.pool == pool && types == [] && vk == NULL_HANDLE
    {
      this.pool := pool;
      types := [];
      vk := NULL_HANDLE;
    }

    /** ctorError(layout): the set takes the layout's types, then one set is
      * allocated from the pool. */
    method CtorError(layout: DescriptorSetLayout, allocation: Option<Handle>) returns (r: int)
      modifies this`types, this`vk
      ensures types == layout.types
      ensures r == 0 <==> allocation.Some?
      ensures r == 0 ==> vk == allocation.value
      ensures r != 0 ==> vk == old(vk)
    {
      types := layout.types;
      if allocation.None? {
        return 1;
      }
      vk := allocation.value;
      r := 0;
    }

    /** The write a passing check sends. */
    function WriteFor(binding: u32, arrayI: u32, payload: WritePayload, count: nat): (w: WriteDescriptorSet)
      requires binding < |types|
      reads this
      ensures w.dstSet == vk && w.dstBinding == binding && w.dstArrayElement == arrayI
      ensures w.descriptorType == types[binding] && w.descriptorCount == count && w.payload == payload
    {
      WriteDescriptorSet(vk, binding, arrayI, types[binding], count, payload)
    }

    /** write(binding, imageInfo, arrayI), with the intended bounds check. */
    method WriteImages(binding: u32, imageInfo: seq<DescriptorImageInfo>, arrayI: u32)
      returns (r: int, w: Option<WriteDescriptorSet>)
      ensures r == WriteCheck(ImageWrite, types, binding)
      ensures r == 0 <==> w.Some?
      ensures w.Some? ==> binding < |types| && w.value == WriteFor(binding, arrayI, ImageInfos(imageInfo), |imageInfo|)
    {
      if binding >= |types| || !Accepts(ImageWrite, types[binding]) {
        return 1, None;
      }
      return 0, Some(WriteDescriptorSet(vk, binding, arrayI, types[binding], |imageInfo|, ImageInfos(imageInfo)));
    }

    /** write(binding, bufferInfo, arrayI), with the intended bounds check. */
    method WriteBufferInfos(binding: u32, bufferInfo: seq<DescriptorBufferInfo>, arrayI: u32)
      returns (r: int, w: Option<WriteDescriptorSet>)
      ensures r == WriteCheck(BufferWrite, types, binding)
      ensures r == 0 <==> w.Some?
      ensures w.Some? ==> binding < |types| && w.value == WriteFor(binding, arrayI, BufferInfos(bufferInfo), |bufferInfo|)
    {
      if binding >= |types| || !Accepts(BufferWrite, types[binding]) {
        return 1, None;
      }
      return 0, Some(WriteDescriptorSet(vk, binding, arrayI, types[binding], |bufferInfo|, BufferInfos(bufferInfo)));
    }

    /** write(binding, texelBufferViewInfo, arrayI), with the intended bounds
      * check. */
    method WriteTexelViews(binding: u32, texelBufferViewInfo: seq<Handle>, arrayI: u32)
      returns (r: int, w: Option<WriteDescriptorSet>)
      ensures r == WriteCheck(TexelWrite, types, binding)
      ensures r == 0 <==> w.Some?
      ensures w.Some? ==>
        binding < |types| && w.value == WriteFor(binding, arrayI, TexelViews(texelBufferViewInfo), |texelBufferViewInfo|)
    {
      if binding >= |types| || !Accepts(TexelWrite, types[binding]) {
        return 1, None;
      }
      return 0, Some(WriteDescriptorSet(vk, binding, arrayI, types[binding], |texelBufferViewInfo|,
                                        TexelViews(texelBufferViewInfo)));
    }

    /** write(binding, samplers, arrayI): each sampler's toDescriptor, in
      * order, written as image infos. */
    method WriteSamplers(binding: u32, samplers: seq<Sampler>, arrayI: u32)
      returns (r: int, w: Option<WriteDescriptorSet>)
      ensures r == WriteCheck(ImageWrite, types, binding)
      ensures r == 0 <==> w.Some?
      ensures w.Some? ==>
        binding < |types| && w.value.descriptorCount == |samplers| &&
        w.value.dstSet == vk && w.value.descriptorType == types[binding] && w.value.payload.ImageInfos? &&
        |w.value.payload.images| == |samplers|
      ensures w.Some? ==> forall i :: 0 <= i < |samplers| ==>
        w.value.payload.images[i] == DescriptorImageInfo(samplers[i].vk, samplers[i].viewVk, samplers[i].image.currentLayout)
    {
      var imageInfo: seq<DescriptorImageInfo> := [];
      var i := 0;
      while i < |samplers|
        invariant 0 <= i <= |samplers|
        invariant |imageInfo| == i
        invariant forall j :: 0 <= j < i ==> imageInfo[j] == samplers[j].ToDescriptor()
      {
        imageInfo := imageInfo + [samplers[i].ToDescriptor()];
        i := i + 1;
      }
      r, w := WriteImages(binding, imageInfo, arrayI);
    }

    /** write(binding, buffers, arrayI): each whole buffer, from offset 0 for
      * info.size bytes, written as buffer infos. */
    method WriteBuffers(binding: u32, buffers: seq<Buffer>, arrayI: u32)
      returns (r: int, w: Option<WriteDescriptorSet>)
      ensures r == WriteCheck(BufferWrite, types, binding)
      ensures r == 0 <==> w.Some?
      ensures w.Some? ==>
        binding < |types| && w.value.descriptorCount == |buffers| &&
        w.value.dstSet == vk && w.value.descriptorType == types[binding] && w.value.payload.BufferInfos? &&
        |w.value.payload.buffers| == |buffers|
      ensures w.Some? ==> forall i :: 0 <= i < |buffers| ==>
        w.value.payload.buffers[i] == DescriptorBufferInfo(buffers[i].vk, 0, buffers[i].info.size)
    {
      var bufferInfos: seq<DescriptorBufferInfo> := [];
      var i := 0;
      while i < |buffers|
        invariant 0 <= i <= |buffers|
        invariant |bufferInfos| == i
        invariant forall j :: 0 <= j < i ==> bufferInfos[j] == DescriptorBufferInfo(buffers[j].vk, 0, buffers[j].info.size)
      {
        bufferInfos := bufferInfos + [DescriptorBufferInfo(buffers[i].vk, 0, buffers[i].info.size)];
        i := i + 1;
      }
      r, w := WriteBufferInfos(binding, bufferInfos, arrayI);
    }
  }
}
