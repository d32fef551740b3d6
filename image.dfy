// memory::Image: a VkImage, its create info, the layout it was last
// transitioned to, its DeviceMemory, and (for LINEAR images) the subresource
// layouts queried after creation.
//
// The format predicates of vk_format_utils (FormatIsColor, FormatHasDepth,
// FormatHasStencil, FormatPlaneCount, FormatIsMultiplane) are parameters,
// bundled as FormatTraits. The driver's answers are parameters too.

module Images {
  import opened VkTypes
  import opened Wrappers
  import opened Memory

  const IMAGE_TYPE_2D: int := 1
  const SAMPLE_COUNT_1: Flags := 0x1
  const IMAGE_CREATE_SPARSE_BINDING: Flags := 0x1
  const IMAGE_CREATE_SPARSE_RESIDENCY: Flags := 0x2
  const IMAGE_CREATE_SPARSE_ALIASED: Flags := 0x4

  /** Every aspect bit getAllAspects can set. */
  const ALL_ASPECTS: Flags := ASPECT_COLOR | ASPECT_DEPTH | ASPECT_STENCIL | ASPECT_METADATA |
                              ASPECT_PLANE_0 | ASPECT_PLANE_1 | ASPECT_PLANE_2

  datatype FormatTraits = FormatTraits(
    isColor: int -> bool, hasDepth: int -> bool, hasStencil: int -> bool,
    planeCount: int -> nat, isMultiplane: int -> bool)

  datatype ImageSubresource = ImageSubresource(aspectMask: Flags, mipLevel: u32, arrayLayer: u32)

  /** A VkSubresourceLayout as vkGetImageSubresourceLayout reports it. */
  datatype SubresourceLayout = SubresourceLayout(offset: u64, size: u64, rowPitch: u64, arrayPitch: u64, depthPitch: u64)

  /** The info the Image constructor leaves: zeroed by VkOverwrite, then a 2D
    * single-level, single-layer, single-sample, OPTIMAL, EXCLUSIVE image that
    * starts PREINITIALIZED. Extent, format and usage are left for the caller. */
  function DefaultImageInfo(): (info: ImageCreateInfo)
    ensures info.imageType == IMAGE_TYPE_2D && info.mipLevels == 1 && info.arrayLayers == 1
    ensures info.tiling == TILING_OPTIMAL && info.initialLayout == LAYOUT_PREINITIALIZED
    ensures info.samples == SAMPLE_COUNT_1 && info.sharingMode == SHARING_EXCLUSIVE
    ensures info.extent == Extent3D(0, 0, 0) && info.format == FORMAT_UNDEFINED && info.usage == 0
    ensures info.flags == 0 && info.queueFamilyIndices == []
  {
    ImageCreateInfo(0, IMAGE_TYPE_2D, FORMAT_UNDEFINED, Extent3D(0, 0, 0), 1, 1, SAMPLE_COUNT_1,
                    TILING_OPTIMAL, 0, SHARING_EXCLUSIVE, [], LAYOUT_PREINITIALIZED)
  }

  /** validateImageCreateInfo's test: none of the fields the caller must set
    * is zero. */
  predicate ImageInfoComplete(info: ImageCreateInfo) {
    info.extent.width != 0 && info.extent.height != 0 && info.extent.depth != 0 &&
    info.format != 0 && info.usage != 0 && info.mipLevels != 0 && info.arrayLayers != 0
  }

  /** An Image straight from its constructor cannot be created until the
    * caller has filled in extent, format and usage. */
  lemma DefaultImageInfoIncomplete()
    ensures !ImageInfoComplete(DefaultImageInfo())
  {
  }

  /** getAllAspects: a function of info.format and info.flags only. */
  function AllAspects(traits: FormatTraits, info: ImageCreateInfo): (a: Flags)
    ensures Contains(a, ASPECT_COLOR) <==> traits.isColor(info.format)
    ensures Contains(a, ASPECT_DEPTH) <==> traits.hasDepth(info.format)
    ensures Contains(a, ASPECT_STENCIL) <==> traits.hasStencil(info.format)
    ensures Contains(a, ASPECT_METADATA) <==>
      info.flags & (IMAGE_CREATE_SPARSE_BINDING | IMAGE_CREATE_SPARSE_RESIDENCY | IMAGE_CREATE_SPARSE_ALIASED) != 0
    ensures Contains(a, ASPECT_PLANE_0) <==> traits.planeCount(info.format) > 1
    ensures Contains(a, ASPECT_PLANE_1) <==> traits.planeCount(info.format) > 1
    ensures Contains(a, ASPECT_PLANE_2) <==> traits.planeCount(info.format) > 2
    ensures a & !ALL_ASPECTS == 0
  {
    var f := info.format;
    var c: Flags := if traits.isColor(f) then ASPECT_COLOR else 0;
    var d: Flags := if traits.hasDepth(f) then c | ASPECT_DEPTH else c;
    var s: Flags := if traits.hasStencil(f) then d | ASPECT_STENCIL else d;
    var sparse := IMAGE_CREATE_SPARSE_BINDING | IMAGE_CREATE_SPARSE_RESIDENCY | IMAGE_CREATE_SPARSE_ALIASED;
    var m: Flags := if info.flags & sparse != 0 then s | ASPECT_METADATA else s;
    var p: Flags := if traits.planeCount(f) > 1 then m | ASPECT_PLANE_0 | ASPECT_PLANE_1 else m;
    if traits.planeCount(f) > 2 then p | ASPECT_PLANE_2 else p
  }

  /** getSubresource(mipLevel, arrayLayer). */
  function Subresource(traits: FormatTraits, info: ImageCreateInfo, mipLevel: u32, arrayLayer: u32): (s: ImageSubresource)
    ensures s.aspectMask == AllAspects(traits, info) && s.mipLevel == mipLevel && s.arrayLayer == arrayLayer
  {
    ImageSubresource(AllAspects(traits, info), mipLevel, arrayLayer)
  }

  /** getSubresourceRange: every mip level and every array layer. */
  function SubresourceRange(traits: FormatTraits, info: ImageCreateInfo): (r: ImageSubresourceRange)
    ensures r.aspectMask == AllAspects(traits, info)
    ensures r.baseMipLevel == 0 && r.levelCount == info.mipLevels
    ensures r.baseArrayLayer == 0 && r.layerCount == info.arrayLayers
  {
    ImageSubresourceRange(AllAspects(traits, info), 0, info.mipLevels, 0, info.arrayLayers)
  }

  /** getSubresourceLayers(mipLevel): one mip level, every array layer. */
  function SubresourceLayers(traits: FormatTraits, info: ImageCreateInfo, mipLevel: u32): (l: ImageSubresourceLayers)
    ensures l.aspectMask == AllAspects(traits, info) && l.mipLevel == mipLevel
    ensures l.baseArrayLayer == 0 && l.layerCount == info.arrayLayers
  {
    ImageSubresourceLayers(AllAspects(traits, info), mipLevel, 0, info.arrayLayers)
  }

  /** range names every aspect, mip level and array layer of layers. */
  predicate RangeCovers(range: ImageSubresourceRange, layers: ImageSubresourceLayers) {
    Contains(range.aspectMask, layers.aspectMask) &&
    range.baseMipLevel <= layers.mipLevel < range.baseMipLevel + range.levelCount &&
    range.baseArrayLayer <= layers.baseArrayLayer &&
    layers.baseArrayLayer + layers.layerCount <= range.baseArrayLayer + range.layerCount
  }

  /** The whole-image range covers the layers of every mip level of the image
    * and of no other level; a single subresource lies inside it exactly when
    * its indices are in bounds. */
  lemma SubresourceRangeCoversLevels(traits: FormatTraits, info: ImageCreateInfo, mipLevel: u32, arrayLayer: u32)
    ensures RangeCovers(SubresourceRange(traits, info), SubresourceLayers(traits, info, mipLevel))
      <==> mipLevel < info.mipLevels
    ensures var r, s := SubresourceRange(traits, info), Subresource(traits, info, mipLevel, arrayLayer);
      (Contains(r.aspectMask, s.aspectMask) && s.mipLevel < r.baseMipLevel + r.levelCount &&
       s.arrayLayer < r.baseArrayLayer + r.layerCount)
      <==> mipLevel < info.mipLevels && arrayLayer < info.arrayLayers
  {
    var a := AllAspects(traits, info);
    assert a & a == a;
  }

  /** The subresources of one array layer, in mip order. */
  function MipRow(aspect: Flags, layer: u32, mips: u32): (r: seq<ImageSubresource>)
    ensures |r| == mips
    ensures forall m :: 0 <= m < mips ==> r[m] == ImageSubresource(aspect, m, layer)
  {
    seq(mips, m requires 0 <= m < mips => ImageSubresource(aspect, m, layer))
  }

  /** The subresources getSubresourceLayouts queries for one aspect: array
    * layers 0 .. layers-1 in the outer loop, mip levels in the inner one. */
  function Subresources(aspect: Flags, layers: nat, mips: u32): (r: seq<ImageSubresource>)
    requires layers <= U32_LIMIT
    decreases layers
  {
    if layers == 0 then [] else Subresources(aspect, layers - 1, mips) + MipRow(aspect, layers - 1, mips)
  }


  /** Entry layer * mips + m is mip level m of array layer `layer`. */
  lemma {:induction false} SubresourcesLayerMajor(aspect: Flags, layers: nat, mips: u32, layer: nat, m: nat)
    requires layers <= U32_LIMIT
    requires layer < layers && m < mips
    ensures |Subresources(aspect, layers, mips)| == layers * mips
    ensures layer * mips + m < layers * mips
    ensures Subresources(aspect, layers, mips)[layer * mips + m] == ImageSubresource(aspect, m, layer)
    decreases layers
  {
    var prev := Subresources(aspect, layers - 1, mips);
    assert (layers - 1) * mips + mips == layers * mips;
    if layer < layers - 1 {
      SubresourcesLayerMajor(aspect, layers - 1, mips, layer, m);
    } else {
      SubresourcesLength(aspect, layers - 1, mips);
      assert layer * mips == |prev|;
    }
  }

  lemma {:induction false} SubresourcesLength(aspect: Flags, layers: nat, mips: u32)
    requires layers <= U32_LIMIT
    ensures |Subresources(aspect, layers, mips)| == layers * mips
    decreases layers
  {
    if layers > 0 {
      SubresourcesLength(aspect, layers - 1, mips);
      assert (layers - 1) * mips + mips == layers * mips;
    }
  }

  /** The driver's answers for a list of subresources, in order. */
  function QueryAll(query: ImageSubresource -> SubresourceLayout, subs: seq<ImageSubresource>): (ls: seq<SubresourceLayout>)
    ensures |ls| == |subs|
    ensures forall k :: 0 <= k < |subs| ==> ls[k] == query(subs[k])
    decreases |subs|
  {
    if subs == [] then [] else QueryAll(query, subs[..|subs| - 1]) + [query(subs[|subs| - 1])]
  }

  /** The layouts getSubresourceLayouts appends for one aspect. */
  function AspectLayouts(query: ImageSubresource -> SubresourceLayout, aspect: Flags, info: ImageCreateInfo): seq<SubresourceLayout> {
    QueryAll(query, Subresources(aspect, info.arrayLayers, info.mipLevels))
  }

  lemma QueryAllSnoc(query: ImageSubresource -> SubresourceLayout, subs: seq<ImageSubresource>, s: ImageSubresource)
    ensures QueryAll(query, subs + [s]) == QueryAll(query, subs) + [query(s)]
  {
    assert (subs + [s])[..|subs|] == subs;
  }

  lemma MipRowSnoc(aspect: Flags, layer: u32, mip: u32)
    requires mip + 1 < U32_LIMIT
    ensures MipRow(aspect, layer, mip + 1) == MipRow(aspect, layer, mip) + [ImageSubresource(aspect, mip, layer)]
  {
  }

  /** One of the three nested loops of getSubresourceLayouts. */
  method QueryAspect(aspect: Flags, layers: u32, mips: u32, query: ImageSubresource -> SubresourceLayout)
    returns (ls: seq<SubresourceLayout>)
    ensures ls == QueryAll(query, Subresources(aspect, layers, mips))
  {
    ls := [];
    var layer: u32 := 0;
    while layer < layers
      invariant layer <= layers
      invariant ls == QueryAll(query, Subresources(aspect, layer, mips))
    {
      var mip: u32 := 0;
      ghost var done := Subresources(aspect, layer, mips);
      assert done + MipRow(aspect, layer, 0) == done;
      while mip < mips
        invariant mip <= mips
        invariant ls == QueryAll(query, done + MipRow(aspect, layer, mip))
      {
        var s := ImageSubresource(aspect, mip, layer);
        MipRowSnoc(aspect, layer, mip);
        assert done + MipRow(aspect, layer, mip + 1) == (done + MipRow(aspect, layer, mip)) + [s];
        QueryAllSnoc(query, done + MipRow(aspect, layer, mip), s);
        ls := ls + [query(s)];
        mip := mip + 1;
      }
      layer := layer + 1;
    }
  }

  class Image {
    const mem: DeviceMemory
    var info: ImageCreateInfo
    var currentLayout: int
    var vk: Handle
    var colorMem: seq<SubresourceLayout>
    var depthMem: seq<SubresourceLayout>
    var stencilMem: seq<SubresourceLayout>

    /** The defaults of the Image constructor; currentLayout matches the
      * initial layout. */
    constructor (dev: nat)
      ensures fresh(mem) && mem.dev == dev && mem.vmaAlloc == NULL_HANDLE && mem.vk == NULL_HANDLE
      ensures info == DefaultImageInfo() && currentLayout == LAYOUT_PREINITIALIZED
      ensures vk == NULL_HANDLE && colorMem == [] && depthMem == [] && stencilMem == []
    {
      mem := new DeviceMemory(dev);
      info := DefaultImageInfo();
      currentLayout := LAYOUT_PREINITIALIZED;
      vk := NULL_HANDLE;
      colorMem, depthMem, stencilMem := [], [], [];
    }

    /** validateImageCreateInfo. Its apiUsage call only logs. */
    function ValidateImageCreateInfo(): (r: int)
      reads this
      ensures r in {0, 1}
      ensures r == 0 <==> ImageInfoComplete(info)
    {
      if ImageInfoComplete(info) then 0 else 1
    }

    /** getSubresourceLayouts: nothing for a non-LINEAR image; otherwise one
      * layout per (array layer, mip level) for each aspect the format has. */
    method GetSubresourceLayouts(traits: FormatTraits, query: ImageSubresource -> SubresourceLayout) returns (r: int)
      modifies this`colorMem, this`depthMem, this`stencilMem
      ensures r == 0
      ensures info.tiling != TILING_LINEAR ==>
        colorMem == old(colorMem) && depthMem == old(depthMem) && stencilMem == old(stencilMem)
      ensures info.tiling == TILING_LINEAR ==>
        colorMem == old(colorMem) + (if traits.isColor(info.format) then AspectLayouts(query, ASPECT_COLOR, info) else []) &&
        depthMem == old(depthMem) + (if traits.hasDepth(info.format) then AspectLayouts(query, ASPECT_DEPTH, info) else []) &&
        stencilMem == old(stencilMem) + (if traits.hasStencil(info.format) then AspectLayouts(query, ASPECT_STENCIL, info) else [])
    {
      if info.tiling != TILING_LINEAR {
        return 0;
      }
      var ls: seq<SubresourceLayout> := [];
      if traits.isColor(info.format) {
        ls := QueryAspect(ASPECT_COLOR, info.arrayLayers, info.mipLevels, query);
      }
      colorMem := colorMem + ls;
      ls := [];
      if traits.hasDepth(info.format) {
        ls := QueryAspect(ASPECT_DEPTH, info.arrayLayers, info.mipLevels, query);
      }
      depthMem := depthMem + ls;
      ls := [];
      if traits.hasStencil(info.format) {
        ls := QueryAspect(ASPECT_STENCIL, info.arrayLayers, info.mipLevels, query);
      }
      stencilMem := stencilMem + ls;
      return 0;
    }

    /** The body shared by both ctorError forms (VMA build): validate, create
      * the image, adopt its initial layout, allocate through
      * MemoryRequirements(dev, *this, usage) with requiredFlags, and query
      * the layouts. get(Image&) with aspect 0 cannot fail, so the logF in the
      * MemoryRequirements constructor is never reached. */
    method CtorWith(usage: int, requiredFlags: Flags, traits: FormatTraits, replies: Replies,
                    query: ImageSubresource -> SubresourceLayout) returns (r: int)
      modifies this`vk, this`currentLayout, this`colorMem, this`depthMem, this`stencilMem, mem`vmaAlloc
      ensures r in {0, 1}
      ensures !ImageInfoComplete(info) ==>
        r == 1 && vk == old(vk) && currentLayout == old(currentLayout) && mem.vmaAlloc == old(mem.vmaAlloc)
      ensures ImageInfoComplete(info) && replies.created.None? ==>
        r == 1 && vk == NULL_HANDLE && currentLayout == old(currentLayout) && mem.vmaAlloc == old(mem.vmaAlloc)
      ensures ImageInfoComplete(info) && replies.created.Some? ==>
        vk == replies.created.value && currentLayout == info.initialLayout &&
        (r == 0 <==> replies.allocatorReady && replies.allocation.Some? &&
                     RequestValid(AllocRequest(NULL_HANDLE, vk, usage, requiredFlags)))
      ensures r == 1 ==> colorMem == old(colorMem) && depthMem == old(depthMem) && stencilMem == old(stencilMem)
      ensures r == 0 ==> mem.vmaAlloc == replies.allocation.value
    {
      if ValidateImageCreateInfo() != 0 {
        return 1;
      }
      vk := NULL_HANDLE;
      if replies.created.None? {
        return 1;
      }
      vk := replies.created.value;
      currentLayout := info.initialLayout;
      var req := new MemoryRequirements();
      var g := req.GetImageOf(vk, info.format, info.flags, 0, traits.isMultiplane);
      req.usage := usage;
      req.requiredFlags := requiredFlags;
      var a := mem.Alloc(req.Request(), replies.allocatorReady, replies.allocation);
      if a != 0 {
        return 1;
      }
      r := GetSubresourceLayouts(traits, query);
    }

    /** ctorError(props): a request with VMA_MEMORY_USAGE_UNKNOWN and
      * requiredFlags = props, so props == 0 is refused by alloc. */
    method CtorError(props: Flags, traits: FormatTraits, replies: Replies,
                     query: ImageSubresource -> SubresourceLayout) returns (r: int)
      modifies this`vk, this`currentLayout, this`colorMem, this`depthMem, this`stencilMem, mem`vmaAlloc
      ensures r in {0, 1}
      ensures r == 0 <==> ImageInfoComplete(info) && replies.created.Some? && replies.created.value != NULL_HANDLE &&
                          replies.allocatorReady && replies.allocation.Some? && props != 0
      ensures r == 0 ==> vk == replies.created.value && currentLayout == info.initialLayout
    {
      r := CtorWith(VMA_MEMORY_USAGE_UNKNOWN, props, traits, replies, query);
    }

    /** ctorError(VmaMemoryUsage usage): requiredFlags stays 0. */
    method CtorErrorUsage(usage: int, traits: FormatTraits, replies: Replies,
                          query: ImageSubresource -> SubresourceLayout) returns (r: int)
      modifies this`vk, this`currentLayout, this`colorMem, this`depthMem, this`stencilMem, mem`vmaAlloc
      ensures r in {0, 1}
      ensures r == 0 <==> ImageInfoComplete(info) && replies.created.Some? && replies.created.value != NULL_HANDLE &&
                          replies.allocatorReady && replies.allocation.Some? && usage != VMA_MEMORY_USAGE_UNKNOWN
      ensures r == 0 ==> vk == replies.created.value && currentLayout == info.initialLayout
    {
      r := CtorWith(usage, 0, traits, replies, query);
    }

    /** ctorDeviceLocal. */
    method CtorDeviceLocal(traits: FormatTraits, replies: Replies,
                           query: ImageSubresource -> SubresourceLayout) returns (r: int)
      modifies this`vk, this`currentLayout, this`colorMem, this`depthMem, this`stencilMem, mem`vmaAlloc
      ensures r in {0, 1}
      ensures r == 0 <==> ImageInfoComplete(info) && replies.created.Some? && replies.created.value != NULL_HANDLE &&
                          replies.allocatorReady && replies.allocation.Some?
      ensures r == 0 ==> vk == replies.created.value && currentLayout == info.initialLayout
    {
      r := CtorError(MEMORY_PROPERTY_DEVICE_LOCAL, traits, replies, query);
    }

    /** ctorHostVisible / ctorHostCoherent: LINEAR tiling and both transfer
      * usage bits added to whatever usage the caller set, then ctorError with
      * host-visible (and, when coherent, host-coherent) memory. */
    method CtorHost(coherent: bool, traits: FormatTraits, replies: Replies,
                    query: ImageSubresource -> SubresourceLayout) returns (r: int)
      modifies this`info, this`vk, this`currentLayout, this`colorMem, this`depthMem, this`stencilMem, mem`vmaAlloc
      ensures info == old(info).(tiling := TILING_LINEAR, usage := old(info).usage | USAGE_TRANSFER_SRC | USAGE_TRANSFER_DST)
      ensures r in {0, 1}
      ensures r == 0 <==> ImageInfoComplete(info) && replies.created.Some? && replies.created.value != NULL_HANDLE &&
                          replies.allocatorReady && replies.allocation.Some?
    {
      info := info.(tiling := TILING_LINEAR, usage := info.usage | USAGE_TRANSFER_SRC | USAGE_TRANSFER_DST);
      var props := if coherent then MEMORY_PROPERTY_HOST_VISIBLE | MEMORY_PROPERTY_HOST_COHERENT
                   else MEMORY_PROPERTY_HOST_VISIBLE;
      r := CtorError(props, traits, replies, query);
    }

    /** bindMemory (VMA build): VMA chooses the offset, so a nonzero one is
      * refused before the driver is called. */
    method BindMemory(offset: u64, boundOk: bool) returns (r: int)
      ensures r == (if offset != 0 || !boundOk then 1 else 0)
    {
      if offset != 0 {
        return 1;
      }
      r := if boundOk then 0 else 1;
    }

    /** reset: releases the image; the build without VMA also releases the
      * VkDeviceMemory, the VMA build keeps the allocation. */
    method Reset(vmaBuild: bool) returns (r: int)
      modifies this`vk, mem`vk, mem`allocSize
      ensures r == 0 && vk == NULL_HANDLE
      ensures vmaBuild ==> mem.vk == old(mem.vk) && mem.allocSize == old(mem.allocSize)
      ensures !vmaBuild ==> mem.vk == NULL_HANDLE && mem.allocSize == 0
    {
      if !vmaBuild {
        mem.allocSize := 0;
        mem.vk := NULL_HANDLE;
      }
      vk := NULL_HANDLE;
      return 0;
    }
  }
}
