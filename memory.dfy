// DeviceMemory (a block of bytes the device can access) and
// MemoryRequirements (what a buffer or an image asks of that block).
//
// The library builds in one of two configurations. By default allocation is
// delegated to the Vulkan Memory Allocator (VMA); with
// VOLCANO_DISABLE_VULKANMEMORYALLOCATOR the library picks a memory type
// itself and calls vkAllocateMemory. Each member says which configuration it
// models. The results of VMA and driver calls are parameters.

module Memory {
  import opened VkTypes
  import opened Wrappers

  /** VK_MAX_MEMORY_TYPES: the length of VkPhysicalDeviceMemoryProperties'
    * memoryTypes array. */
  const VK_MAX_MEMORY_TYPES: nat := 32
  const VMA_MEMORY_USAGE_UNKNOWN: int := 0
  const IMAGE_CREATE_DISJOINT: Flags := 0x200

  /** `1 << i` as a 32-bit mask. */
  function Bit(i: nat): Flags
    requires i < 32
  {
    (1 as bv32) << i
  }

  /** Memory type i is allowed by memoryTypeBits and has every property flag
    * in props. */
  predicate Qualifies(memoryTypeBits: Flags, propertyFlags: seq<Flags>, props: Flags, i: nat)
    requires i < |propertyFlags| <= VK_MAX_MEMORY_TYPES
  {
    memoryTypeBits & Bit(i) != 0 && Contains(propertyFlags[i], props)
  }

  /** The least qualifying memory type in [i, count), or -1 if there is none. */
  function FirstQualifyingFrom(memoryTypeBits: Flags, propertyFlags: seq<Flags>, count: nat, props: Flags, i: nat): (r: int)
    requires count <= |propertyFlags| <= VK_MAX_MEMORY_TYPES && i <= count
    ensures r == -1 || i <= r < count
    ensures r != -1 ==> Qualifies(memoryTypeBits, propertyFlags, props, r)
    ensures forall j :: i <= j < count && (r == -1 || j < r) ==> !Qualifies(memoryTypeBits, propertyFlags, props, j)
    decreases count - i
  {
    if i == count then -1
    else if Qualifies(memoryTypeBits, propertyFlags, props, i) then i
    else FirstQualifyingFrom(memoryTypeBits, propertyFlags, count, props, i + 1)
  }

  /** What MemoryRequirements::indexOf computes: the least memory type index
    * below memoryTypeCount that the requirements allow and that has all of
    * props, or -1. */
  function MemoryTypeIndex(memoryTypeBits: Flags, propertyFlags: seq<Flags>, count: nat, props: Flags): (r: int)
    requires count <= |propertyFlags| <= VK_MAX_MEMORY_TYPES
    ensures r == -1 <==> forall j :: 0 <= j < count ==> !Qualifies(memoryTypeBits, propertyFlags, props, j)
    ensures r != -1 ==> 0 <= r < count && Qualifies(memoryTypeBits, propertyFlags, props, r)
    ensures r != -1 ==> forall j :: 0 <= j < r ==> !Qualifies(memoryTypeBits, propertyFlags, props, j)
  {
    FirstQualifyingFrom(memoryTypeBits, propertyFlags, count, props, 0)
  }

  /** Asking for fewer property flags never makes the search fail or land
    * later. */
  lemma MemoryTypeIndexFewerProps(memoryTypeBits: Flags, propertyFlags: seq<Flags>, count: nat, fewer: Flags, more: Flags)
    requires count <= |propertyFlags| <= VK_MAX_MEMORY_TYPES
    requires Contains(more, fewer)
    requires MemoryTypeIndex(memoryTypeBits, propertyFlags, count, more) != -1
    ensures var f := MemoryTypeIndex(memoryTypeBits, propertyFlags, count, fewer);
      f != -1 && f <= MemoryTypeIndex(memoryTypeBits, propertyFlags, count, more)
  {
    var m := MemoryTypeIndex(memoryTypeBits, propertyFlags, count, more);
    assert propertyFlags[m] & more == more;
    assert propertyFlags[m] & fewer == fewer;
    assert Qualifies(memoryTypeBits, propertyFlags, fewer, m);
  }

  /** A VMA allocation request as DeviceMemory::alloc reads it: the buffer or
    * image from MemoryRequirements::get and the caller's usage and flags. */
  datatype AllocRequest = AllocRequest(vkbuf: Handle, vkimg: Handle, usage: int, requiredFlags: Flags)

  /** The requests alloc passes on to VMA: a usage or some required flags,
    * and exactly one of a buffer and an image. */
  predicate RequestValid(req: AllocRequest) {
    !(req.usage == VMA_MEMORY_USAGE_UNKNOWN && req.requiredFlags == 0) &&
    (req.vkbuf != NULL_HANDLE <==> req.vkimg == NULL_HANDLE)
  }

  /** What the driver and VMA answer while a buffer or image is constructed:
    * the handle vkCreate* returns, whether dev.vmaAllocator exists (or is
    * created by this alloc), and the allocation VMA hands out. */
  datatype Replies = Replies(created: Option<Handle>, allocatorReady: bool, allocation: Option<Handle>)

  /** get(Image&, optionalAspect): the aspect is kept only for a multiplane
    * format created with VK_IMAGE_CREATE_DISJOINT_BIT, and cleared
    * otherwise. FormatIsMultiplane is a parameter. */
  function ImageAspectFor(format: int, flags: Flags, optionalAspect: Flags, isMultiplane: int -> bool): (a: Flags)
    ensures a == optionalAspect || a == 0
    ensures a == optionalAspect <==>
      optionalAspect == 0 || (isMultiplane(format) && flags & IMAGE_CREATE_DISJOINT != 0)
  {
    if optionalAspect != 0 && (!isMultiplane(format) || flags & IMAGE_CREATE_DISJOINT == 0) then 0
    else optionalAspect
  }

  /** A VkMappedMemoryRange, without its sType. */
  datatype MappedMemoryRange = MappedMemoryRange(memory: Handle, offset: u64, size: u64)

  /** The ranges flush hands to vkFlushMappedMemoryRanges: the caller's
    * ranges with every .memory replaced by this allocation. */
  function Retarget(ranges: seq<MappedMemoryRange>, vk: Handle): (r: seq<MappedMemoryRange>)
    ensures |r| == |ranges|
    ensures forall i :: 0 <= i < |r| ==> r[i].memory == vk
    ensures forall i :: 0 <= i < |r| ==> r[i].offset == ranges[i].offset && r[i].size == ranges[i].size
  {
    seq(|ranges|, i requires 0 <= i < |ranges| => ranges[i].(memory := vk))
  }

  /** Retargeting twice is retargeting once. */
  lemma RetargetIdempotent(ranges: seq<MappedMemoryRange>, vk: Handle)
    ensures Retarget(Retarget(ranges, vk), vk) == Retarget(ranges, vk)
  {
  }

  /** Ranges already pointing at this allocation (as makeRange builds them)
    * are flushed exactly as given. */
  lemma RetargetKeepsOwnRanges(ranges: seq<MappedMemoryRange>, vk: Handle)
    requires forall i :: 0 <= i < |ranges| ==> ranges[i].memory == vk
    ensures Retarget(ranges, vk) == ranges
  {
    var r := Retarget(ranges, vk);
    assert forall i :: 0 <= i < |r| ==> r[i] == ranges[i];
  }

  class DeviceMemory {
    /** Identity of the language::Device this memory belongs to. */
    const dev: nat
    /** The VMA allocation (VMA build). */
    var vmaAlloc: Handle
    /** vmaAlloc.vk, the VkDeviceMemory (build without VMA). */
    var vk: Handle
    /** vmaAlloc.requiredProps and vmaAlloc.allocSize (build without VMA). */
    var requiredProps: Flags
    var allocSize: u64
    /** vmaAlloc.mapped, the host pointer of the current mapping, 0 if none
      * (build without VMA). */
    var mapped: nat
    /** The bytes of the allocation as a host mapping sees them. */
    var contents: seq<bv8>

    constructor (dev: nat)
      ensures this.dev == dev
      ensures vmaAlloc == NULL_HANDLE && vk == NULL_HANDLE && requiredProps == 0
      ensures allocSize == 0 && mapped == 0 && contents == []
    {
      this.dev := dev;
      vmaAlloc, vk, requiredProps, allocSize, mapped, contents := NULL_HANDLE, NULL_HANDLE, 0, 0, 0, [];
    }

    /** alloc (VMA build). allocatorReady says whether dev.vmaAllocator exists
      * or was created now; allocation is what vmaAllocateMemoryFor(Buffer or
      * Image) returns. */
    method Alloc(req: AllocRequest, allocatorReady: bool, allocation: Option<Handle>) returns (r: int)
      modifies this`vmaAlloc
      ensures r in {0, 1}
      ensures r == 0 <==> allocatorReady && RequestValid(req) && allocation.Some?
      ensures vmaAlloc == if r == 0 then allocation.value else old(vmaAlloc)
    {
      if !allocatorReady {
        return 1;
      }
      if req.usage == VMA_MEMORY_USAGE_UNKNOWN && req.requiredFlags == 0 {
        return 1;
      }
      if req.vkbuf != NULL_HANDLE {
        if req.vkimg != NULL_HANDLE {
          return 1;
        }
      } else if req.vkimg == NULL_HANDLE {
        return 1;
      }
      if allocation.None? {
        return 1;
      }
      vmaAlloc := allocation.value;
      return 0;
    }

    /** alloc (build without VMA). req is passed by value, so findVkalloc
      * updates a copy; allocation is what vkAllocateMemory returns. */
    method AllocDirect(req: MemoryRequirements, propertyFlags: seq<Flags>, count: nat, allocation: Option<Handle>)
      returns (r: int)
      requires count <= |propertyFlags| <= VK_MAX_MEMORY_TYPES
      modifies this`allocSize, this`vk
      ensures MemoryTypeIndex(req.memoryTypeBits, propertyFlags, count, requiredProps) == -1 ==>
        r == 1 && allocSize == old(allocSize) && vk == old(vk)
      ensures MemoryTypeIndex(req.memoryTypeBits, propertyFlags, count, requiredProps) != -1 ==>
        allocSize == req.size && r in {0, 1} && (r == 0 <==> allocation.Some?) &&
        vk == (if allocation.Some? then allocation.value else NULL_HANDLE)
    {
      var copy := new MemoryRequirements.Copy(req);
      ghost var i := MemoryTypeIndex(req.memoryTypeBits, propertyFlags, count, requiredProps);
      var f := copy.FindVkalloc(propertyFlags, count, requiredProps);
      assert f == 0 <==> i != -1;
      if f != 0 {
        return 1;
      }
      allocSize := copy.allocationSize;
      vk := NULL_HANDLE;
      if allocation.None? {
        return 1;
      }
      vk := allocation.value;
      return 0;
    }

    /** mmap (VMA build): VMA maps the whole allocation, so a nonzero offset
      * is applied by advancing the returned pointer. */
    method MmapVma(offset: u64, mappedByVma: Option<nat>) returns (r: int, pData: nat)
      ensures mappedByVma.None? ==> r == 1
      ensures mappedByVma.Some? ==> r == 0 && pData == mappedByVma.value + offset
    {
      if mappedByVma.None? {
        return 1, 0;
      }
      pData := mappedByVma.value;
      if offset != 0 {
        pData := pData + offset;
      }
      r := 0;
    }

    /** mmap (build without VMA): the driver applies the offset and the
      * pointer is remembered for munmap. */
    method MmapDirect(mappedByDriver: Option<nat>) returns (r: int, pData: nat)
      modifies this`mapped
      ensures mappedByDriver.None? ==> r == 1 && mapped == old(mapped)
      ensures mappedByDriver.Some? ==> r == 0 && pData == mappedByDriver.value && mapped == pData
    {
      if mappedByDriver.None? {
        return 1, 0;
      }
      pData := mappedByDriver.value;
      mapped := pData;
      r := 0;
    }

    /** munmap (build without VMA). */
    method Munmap()
      modifies this`mapped
      ensures mapped == 0
    {
      mapped := 0;
    }

    /** makeRange (build without VMA): a fresh range over this memory; nothing
      * of the range passed in survives. */
    method MakeRange(range: MappedMemoryRange, offset: u64, size: u64) returns (r: MappedMemoryRange)
      ensures r == MappedMemoryRange(vk, offset, size)
      ensures Retarget([r], vk) == [r]
    {
      r := MappedMemoryRange(vk, offset, size);
      RetargetKeepsOwnRanges([r], vk);
    }

    /** flush(ranges) (build without VMA): an empty list is refused; otherwise
      * every range is pointed at this memory and handed to the driver, whose
      * result is flushedOk. */
    method Flush(ranges: seq<MappedMemoryRange>, flushedOk: bool) returns (r: int, sent: seq<MappedMemoryRange>)
      ensures ranges == [] ==> r == 1 && sent == []
      ensures ranges != [] ==> sent == Retarget(ranges, vk) && (r == 0 <==> flushedOk) && r in {0, 1}
    {
      if |ranges| == 0 {
        return 1, [];
      }
      var mem := ranges;
      var i := 0;
      while i < |mem|
        invariant 0 <= i <= |mem| == |ranges|
        invariant mem[..i] == Retarget(ranges[..i], vk)
        invariant mem[i..] == ranges[i..]
      {
        assert Retarget(ranges[..i + 1], vk) == Retarget(ranges[..i], vk) + [ranges[i].(memory := vk)];
        mem := mem[i := mem[i].(memory := vk)];
        i := i + 1;
      }
      assert ranges[..i] == ranges;
      assert mem[..i] == mem;
      sent := mem;
      r := if flushedOk then 0 else 1;
    }
  }

  class MemoryRequirements {
    /** VMA build: the buffer or image to allocate for, and the
      * VmaAllocationCreateInfo fields alloc reads. */
    var vkbuf: Handle
    var vkimg: Handle
    var usage: int
    var requiredFlags: Flags
    /** Build without VMA: vk.memoryRequirements and vkalloc. */
    var memoryTypeBits: Flags
    var size: u64
    var memoryTypeIndex: u32
    var allocationSize: u64

    constructor ()
      ensures vkbuf == NULL_HANDLE && vkimg == NULL_HANDLE && usage == VMA_MEMORY_USAGE_UNKNOWN && requiredFlags == 0
      ensures memoryTypeBits == 0 && size == 0 && memoryTypeIndex == 0 && allocationSize == 0
    {
      vkbuf, vkimg, usage, requiredFlags := NULL_HANDLE, NULL_HANDLE, VMA_MEMORY_USAGE_UNKNOWN, 0;
      memoryTypeBits, size, memoryTypeIndex, allocationSize := 0, 0, 0, 0;
    }

    /** The implicit copy constructor (alloc takes its argument by value). */
    constructor Copy(other: MemoryRequirements)
      ensures vkbuf == other.vkbuf && vkimg == other.vkimg && usage == other.usage && requiredFlags == other.requiredFlags
      ensures memoryTypeBits == other.memoryTypeBits && size == other.size
      ensures memoryTypeIndex == other.memoryTypeIndex && allocationSize == other.allocationSize
    {
      vkbuf, vkimg, usage, requiredFlags := other.vkbuf, other.vkimg, other.usage, other.requiredFlags;
      memoryTypeBits, size := other.memoryTypeBits, other.size;
      memoryTypeIndex, allocationSize := other.memoryTypeIndex, other.allocationSize;
    }

    /** The VMA request these requirements describe. */
    function Request(): (q: AllocRequest)
      reads this
      ensures q.vkbuf == vkbuf && q.vkimg == vkimg && q.usage == usage && q.requiredFlags == requiredFlags
    {
      AllocRequest(vkbuf, vkimg, usage, requiredFlags)
    }

    /** get(VkImage, optionalAspect) (VMA build): remember the image, clear the
      * create info; VMA cannot allocate one plane, so a nonzero aspect fails
      * (after the image has been recorded). */
    method GetImage(img: Handle, optionalAspect: Flags) returns (r: int)
      modifies this`vkbuf, this`vkimg, this`usage, this`requiredFlags
      ensures vkbuf == NULL_HANDLE && vkimg == img
      ensures usage == VMA_MEMORY_USAGE_UNKNOWN && requiredFlags == 0
      ensures r == (if optionalAspect != 0 then 1 else 0)
    {
      vkbuf, vkimg := NULL_HANDLE, img;
      usage, requiredFlags := VMA_MEMORY_USAGE_UNKNOWN, 0;
      if optionalAspect != 0 {
        return 1;
      }
      return 0;
    }

    /** get(Image&, optionalAspect): the aspect is first cleared unless the
      * image can use it, then get(VkImage) runs on the image's handle. */
    method GetImageOf(img: Handle, format: int, flags: Flags, optionalAspect: Flags, isMultiplane: int -> bool)
      returns (r: int)
      modifies this`vkbuf, this`vkimg, this`usage, this`requiredFlags
      ensures vkbuf == NULL_HANDLE && vkimg == img
      ensures usage == VMA_MEMORY_USAGE_UNKNOWN && requiredFlags == 0
      ensures r == 1 <==> optionalAspect != 0 && isMultiplane(format) && flags & IMAGE_CREATE_DISJOINT != 0
      ensures r in {0, 1}
    {
      r := GetImage(img, ImageAspectFor(format, flags, optionalAspect, isMultiplane));
    }

    /** get(VkBuffer) (VMA build). */
    method GetBuffer(buf: Handle) returns (r: int)
      modifies this`vkbuf, this`vkimg, this`usage, this`requiredFlags
      ensures vkbuf == buf && vkimg == NULL_HANDLE
      ensures usage == VMA_MEMORY_USAGE_UNKNOWN && requiredFlags == 0
      ensures r == 0
    {
      vkbuf, vkimg := buf, NULL_HANDLE;
      usage, requiredFlags := VMA_MEMORY_USAGE_UNKNOWN, 0;
      return 0;
    }

    /** indexOf (build without VMA): a scan of the first count memory types,
      * whose property flags come from the device. */
    method IndexOf(propertyFlags: seq<Flags>, count: nat, props: Flags) returns (r: int)
      requires count <= |propertyFlags| <= VK_MAX_MEMORY_TYPES
      ensures r == MemoryTypeIndex(memoryTypeBits, propertyFlags, count, props)
    {
      var i := 0;
      while i < count
        invariant 0 <= i <= count
        invariant FirstQualifyingFrom(memoryTypeBits, propertyFlags, count, props, i)
               == MemoryTypeIndex(memoryTypeBits, propertyFlags, count, props)
      {
        if memoryTypeBits & Bit(i) != 0 && propertyFlags[i] & props == props {
          return i;
        }
        i := i + 1;
      }
      return -1;
    }

    /** findVkalloc (build without VMA): on success vkalloc names the chosen
      * memory type and the required size; on failure it is left alone. */
    method FindVkalloc(propertyFlags: seq<Flags>, count: nat, props: Flags) returns (r: int)
      requires count <= |propertyFlags| <= VK_MAX_MEMORY_TYPES
      modifies this`memoryTypeIndex, this`allocationSize
      ensures var i := MemoryTypeIndex(memoryTypeBits, propertyFlags, count, props);
        if i == -1 then r == 1 && memoryTypeIndex == old(memoryTypeIndex) && allocationSize == old(allocationSize)
        else r == 0 && memoryTypeIndex == i && allocationSize == size
    {
      var i := IndexOf(propertyFlags, count, props);
      if i == -1 {
        return 1;
      }
      memoryTypeIndex := i;
      allocationSize := size;
      return 0;
    }
  }
}
