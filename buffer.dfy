// memory::Buffer and memory::UniformBuffer: a VkBuffer, its create info and
// its DeviceMemory, with the checks made before creating, binding and
// copying into it (VMA build unless a member says otherwise).
//
// The bytes a host mapping of the buffer's memory sees are
// DeviceMemory.contents; memcpy into a mapping is an update of that sequence.

module Buffers {
  import opened VkTypes
  import opened Wrappers
  import opened Memory
  import opened CommandBuffers

  /** VkBufferCreateInfo, with pQueueFamilyIndices held as a sequence. */
  datatype BufferCreateInfo = BufferCreateInfo(
    flags: Flags, size: u64, usage: Flags, sharingMode: int, queueFamilyIndices: seq<u32>)

  /** VK_BUFFER_USAGE_FLAG_BITS_MAX_ENUM: the usage dump stops below it, so
    * it names bits 0 to 30. */
  const BUFFER_USAGE_FLAG_BITS_MAX_ENUM: int := 0x7FFF_FFFF
  const DUMPED_BITS: nat := 31

  /** The Buffer constructor: zeroed by VkOverwrite, then EXCLUSIVE; size and
    * usage are left for the caller. */
  function DefaultBufferInfo(): (info: BufferCreateInfo)
    ensures info.size == 0 && info.usage == 0 && info.flags == 0
    ensures info.sharingMode == SHARING_EXCLUSIVE && info.queueFamilyIndices == []
  {
    BufferCreateInfo(0, 0, 0, SHARING_EXCLUSIVE, [])
  }

  /** The bounds test of copyFromHost, copyAndKeepMmap and copy(cmdBuffer,
    * ...) as written: `dstOffset + len > size` is evaluated in 64-bit
    * unsigned arithmetic, so the sum wraps. */
  predicate FitsAsWritten(dstOffset: u64, len: u64, size: u64) {
    (dstOffset + len) % U64_LIMIT <= size
  }

  /** The test as intended: the copied bytes end inside the buffer. */
  predicate Fits(dstOffset: u64, len: u64, size: u64) {
    dstOffset + len <= size
  }

  /** The wrapped test lets through a copy that starts at the last byte
    * address and runs 2 bytes past it, into a 16-byte buffer. */
  lemma FitsAsWrittenAdmitsOverrun()
    ensures FitsAsWritten(U64_LIMIT - 1, 2, 16)
    ensures !Fits(U64_LIMIT - 1, 2, 16)
  {
  }

  /** The two tests agree exactly when the sum does not wrap; the intended
    * test keeps every copied byte inside the buffer. */
  lemma FitsAgreesWithoutWrap(dstOffset: u64, len: u64, size: u64)
    ensures dstOffset + len < U64_LIMIT ==> (FitsAsWritten(dstOffset, len, size) <==> Fits(dstOffset, len, size))
    ensures Fits(dstOffset, len, size) ==> FitsAsWritten(dstOffset, len, size)
  {
  }

  /** The bytes of contents after memcpy(mapped + dstOffset, src, |src|). */
  function Written(contents: seq<bv8>, dstOffset: nat, src: seq<bv8>): (c: seq<bv8>)
    requires dstOffset + |src| <= |contents|
    ensures |c| == |contents|
    ensures c[dstOffset..dstOffset + |src|] == src
    ensures c[..dstOffset] == contents[..dstOffset]
    ensures c[dstOffset + |src|..] == contents[dstOffset + |src|..]
  {
    contents[..dstOffset] + src + contents[dstOffset + |src|..]
  }

  /** Writing the bytes already there changes nothing. */
  lemma WrittenSameBytes(contents: seq<bv8>, dstOffset: nat, len: nat)
    requires dstOffset + len <= |contents|
    ensures Written(contents, dstOffset, contents[dstOffset..dstOffset + len]) == contents
  {
    var c := Written(contents, dstOffset, contents[dstOffset..dstOffset + len]);
    assert c == c[..dstOffset] + c[dstOffset..dstOffset + len] + c[dstOffset + len..];
    assert contents == contents[..dstOffset] + contents[dstOffset..dstOffset + len] + contents[dstOffset + len..];
  }

  /** Bit i of a usage mask is set. */
  predicate HasBit(usage: Flags, i: nat)
    requires i < 32
  {
    usage & Bit(i) != 0
  }

  /** What the dump loop of copyFromHost prints from bit i on, given whether
    * a name has been printed yet (first): each set bit's name, after " ("
    * for the first and " | " for the others, and ")" at the end when
    * anything was printed. name stands for string_VkBufferUsageFlagBits.
    * Only this suffix of the warning is modelled: the "usage = 0x" prefix
    * with the mask in hexadecimal that precedes it is not. */
  function DumpFrom(usage: Flags, name: nat -> string, i: nat, first: bool): string
    requires i <= DUMPED_BITS
    decreases DUMPED_BITS - i
  {
    if i == DUMPED_BITS then (if first then "" else ")")
    else if HasBit(usage, i) then (if first then " (" else " | ") + name(i) + DumpFrom(usage, name, i + 1, false)
    else DumpFrom(usage, name, i + 1, first)
  }

  /** The usage dump: nothing at all when no bit below bit 31 is set. */
  function UsageDump(usage: Flags, name: nat -> string): string {
    DumpFrom(usage, name, 0, true)
  }

  /** Once a name has been printed the dump goes on to the closing
    * parenthesis; before that it prints nothing unless a bit is set. */
  lemma {:induction false} DumpFromShape(usage: Flags, name: nat -> string, i: nat, first: bool)
    requires i <= DUMPED_BITS
    ensures var d := DumpFrom(usage, name, i, first);
      (d == "" <==> first && forall j :: i <= j < DUMPED_BITS ==> !HasBit(usage, j)) &&
      (d != "" ==> d[|d| - 1] == ')') &&
      (first && d != "" ==> |d| >= 2 && d[..2] == " (")
    decreases DUMPED_BITS - i
  {
    if i < DUMPED_BITS {
      DumpFromShape(usage, name, i + 1, false);
      DumpFromShape(usage, name, i + 1, first);
      if HasBit(usage, i) {
        var sep := if first then " (" else " | ";
        var rest := DumpFrom(usage, name, i + 1, false);
        assert DumpFrom(usage, name, i, first) == sep + (name(i) + rest);
      }
    }
  }

  /** The usage dump is empty exactly when no bit below bit 31 is set, and
    * is otherwise enclosed in " (" and ")". */
  lemma UsageDumpShape(usage: Flags, name: nat -> string)
    ensures UsageDump(usage, name) == "" <==> forall j :: 0 <= j < DUMPED_BITS ==> !HasBit(usage, j)
    ensures var d := UsageDump(usage, name);
      d != "" ==> |d| >= 3 && d[..2] == " (" && d[|d| - 1] == ')'
  {
    DumpFromShape(usage, name, 0, true);
  }

  /** The dump loop of copyFromHost: walk bit = 1, 2, 4, ... while below
    * VK_BUFFER_USAGE_FLAG_BITS_MAX_ENUM, printing " (" before the first name
    * and " | " before the others, and ")" at the end if anything was
    * printed. */
  method DumpUsage(usage: Flags, name: nat -> string) returns (msg: string)
    ensures msg == UsageDump(usage, name)
  {
    msg := "";
    var first := true;
    var i: nat := 0;
    while i < DUMPED_BITS
      invariant i <= DUMPED_BITS
      invariant msg + DumpFrom(usage, name, i, first) == UsageDump(usage, name)
    {
      if HasBit(usage, i) {
        var piece := (if first then " (" else " | ") + name(i);
        assert msg + DumpFrom(usage, name, i, first) == (msg + piece) + DumpFrom(usage, name, i + 1, false);
        msg := msg + piece;
        first := false;
      }
      i := i + 1;
    }
    if !first {
      msg := msg + ")";
    }
  }

  class Buffer {
    const mem: DeviceMemory
    var info: BufferCreateInfo
    var vk: Handle

    constructor (dev: nat)
      ensures fresh(mem) && mem.dev == dev && mem.vmaAlloc == NULL_HANDLE && mem.contents == []
      ensures info == DefaultBufferInfo() && vk == NULL_HANDLE
    {
      mem := new DeviceMemory(dev);
      info := DefaultBufferInfo();
      vk := NULL_HANDLE;
    }

    /** validateBufferCreateInfo: size and usage must be set; a non-empty
      * queueFams makes the buffer CONCURRENT over those families. */
    method ValidateBufferCreateInfo(queueFams: seq<u32>) returns (r: int)
      modifies this`info
      ensures r in {0, 1}
      ensures r == 1 <==> old(info).size == 0 || old(info).usage == 0
      ensures r == 1 ==> info == old(info)
      ensures r == 0 ==> info == old(info).(
        sharingMode := if queueFams != [] then SHARING_CONCURRENT else old(info).sharingMode,
        queueFamilyIndices := queueFams)
    {
      if info.size == 0 || info.usage == 0 {
        return 1;
      }
      if |queueFams| > 0 {
        info := info.(sharingMode := SHARING_CONCURRENT);
      }
      info := info.(queueFamilyIndices := queueFams);
      return 0;
    }

    /** The body shared by both ctorError forms: validate, create the buffer,
      * then allocate through MemoryRequirements(dev, *this, usage) with
      * requiredFlags. */
    method CtorWith(usage: int, requiredFlags: Flags, queueFams: seq<u32>, replies: Replies) returns (r: int)
      modifies this`info, this`vk, mem`vmaAlloc
      ensures r in {0, 1}
      ensures info.size == old(info).size && info.usage == old(info).usage
      ensures old(info).size == 0 || old(info).usage == 0 ==>
        r == 1 && info == old(info) && vk == old(vk) && mem.vmaAlloc == old(mem.vmaAlloc)
      ensures old(info).size != 0 && old(info).usage != 0 ==> info.queueFamilyIndices == queueFams
      ensures old(info).size != 0 && old(info).usage != 0 && replies.created.None? ==>
        r == 1 && vk == NULL_HANDLE && mem.vmaAlloc == old(mem.vmaAlloc)
      ensures old(info).size != 0 && old(info).usage != 0 && replies.created.Some? ==>
        vk == replies.created.value &&
        (r == 0 <==> replies.allocatorReady && replies.allocation.Some? &&
                     RequestValid(AllocRequest(vk, NULL_HANDLE, usage, requiredFlags)))
      ensures r == 0 ==> mem.vmaAlloc == replies.allocation.value
    {
      var v := ValidateBufferCreateInfo(queueFams);
      if v != 0 {
        return 1;
      }
      vk := NULL_HANDLE;
      if replies.created.None? {
        return 1;
      }
      vk := replies.created.value;
      var req := new MemoryRequirements();
      var g := req.GetBuffer(vk);
      req.usage := usage;
      req.requiredFlags := requiredFlags;
      r := mem.Alloc(req.Request(), replies.allocatorReady, replies.allocation);
    }

    /** ctorError(props, queueFams): requiredFlags = props with an UNKNOWN
      * usage, so props == 0 is refused by alloc. */
    method CtorError(props: Flags, queueFams: seq<u32>, replies: Replies) returns (r: int)
      modifies this`info, this`vk, mem`vmaAlloc
      ensures r in {0, 1}
      ensures r == 0 <==> old(info).size != 0 && old(info).usage != 0 && replies.created.Some? &&
                          replies.created.value != NULL_HANDLE && replies.allocatorReady &&
                          replies.allocation.Some? && props != 0
      ensures r == 0 ==> vk == replies.created.value && info.queueFamilyIndices == queueFams
      ensures info.size == old(info).size && info.usage == old(info).usage
    {
      r := CtorWith(VMA_MEMORY_USAGE_UNKNOWN, props, queueFams, replies);
    }

    /** ctorError(VmaMemoryUsage usage, queueFams). */
    method CtorErrorUsage(usage: int, queueFams: seq<u32>, replies: Replies) returns (r: int)
      modifies this`info, this`vk, mem`vmaAlloc
      ensures r in {0, 1}
      ensures r == 0 <==> old(info).size != 0 && old(info).usage != 0 && replies.created.Some? &&
                          replies.created.value != NULL_HANDLE && replies.allocatorReady &&
                          replies.allocation.Some? && usage != VMA_MEMORY_USAGE_UNKNOWN
      ensures info.size == old(info).size && info.usage == old(info).usage
    {
      r := CtorWith(usage, 0, queueFams, replies);
    }

    /** ctorDeviceLocal: TRANSFER_DST is added to the caller's usage. */
    method CtorDeviceLocal(queueFams: seq<u32>, replies: Replies) returns (r: int)
      modifies this`info, this`vk, mem`vmaAlloc
      ensures info.usage == old(info).usage | USAGE_TRANSFER_DST && info.size == old(info).size
      ensures r in {0, 1}
      ensures r == 0 <==> old(info).size != 0 && replies.created.Some? && replies.created.value != NULL_HANDLE &&
                          replies.allocatorReady && replies.allocation.Some?
    {
      info := info.(usage := info.usage | USAGE_TRANSFER_DST);
      r := CtorError(MEMORY_PROPERTY_DEVICE_LOCAL, queueFams, replies);
    }

    /** ctorHostVisible / ctorHostCoherent: both transfer bits are added to
      * the caller's usage; the memory is host visible (and coherent). */
    method CtorHost(coherent: bool, queueFams: seq<u32>, replies: Replies) returns (r: int)
      modifies this`info, this`vk, mem`vmaAlloc
      ensures info.usage == old(info).usage | USAGE_TRANSFER_SRC | USAGE_TRANSFER_DST && info.size == old(info).size
      ensures r in {0, 1}
      ensures r == 0 <==> old(info).size != 0 && replies.created.Some? && replies.created.value != NULL_HANDLE &&
                          replies.allocatorReady && replies.allocation.Some?
    {
      info := info.(usage := info.usage | USAGE_TRANSFER_SRC | USAGE_TRANSFER_DST);
      var props := if coherent then MEMORY_PROPERTY_HOST_VISIBLE | MEMORY_PROPERTY_HOST_COHERENT
                   else MEMORY_PROPERTY_HOST_VISIBLE;
      r := CtorError(props, queueFams, replies);
    }

    /** bindMemory: VMA chooses the offset, so a nonzero one is refused
      * before the driver is called. */
    method BindMemory(offset: u64, boundOk: bool) returns (r: int)
      ensures r == (if offset != 0 || !boundOk then 1 else 0)
    {
      if offset != 0 {
        return 1;
      }
      r := if boundOk then 0 else 1;
    }

    /** reset: releases the buffer; the build without VMA also releases the
      * VkDeviceMemory, the VMA build keeps the allocation. */
    method Reset(vmaBuild: bool) returns (r: int)
      modifies this`vk, mem`vk, mem`allocSize
      ensures r == 0 && vk == NULL_HANDLE
      ensures vmaBuild ==> mem.vk == old(mem.vk) && mem.allocSize == old(mem.allocSize)
      ensures !vmaBuild ==> mem.vk == NULL_HANDLE && mem.allocSize == 0
    {
      if !vmaBuild {
        mem.allocSize := 0;
        mem.vk := NULL_HANDLE;
      }
      vk := NULL_HANDLE;
      return 0;
    }

    /** copyFromHost(src, len, dstOffset): refused unless the usage has the
      * transfer-source bit (the code tests VK_IMAGE_USAGE_TRANSFER_SRC_BIT,
      * which has the same value as the buffer bit), in which case the usage
      * dump is the warning; refused when the bytes would not fit; otherwise
      * the memory is mapped, written and unmapped. The bounds test is the
      * intended one (Fits), see FitsAsWrittenAdmitsOverrun. */
    method CopyFromHost(src: seq<bv8>, dstOffset: u64, mapping: Option<nat>, name: nat -> string)
      returns (r: int, warning: string)
      requires |src| < U64_LIMIT
      requires info.size <= |mem.contents|
      modifies mem`contents
      ensures r in {0, 1}
      ensures info.usage & USAGE_TRANSFER_SRC == 0 ==> r == 1 && warning == UsageDump(info.usage, name)
      ensures r == 0 <==> info.usage & USAGE_TRANSFER_SRC != 0 && Fits(dstOffset, |src|, info.size) && mapping.Some?
      ensures r == 0 ==> mem.contents == Written(old(mem.contents), dstOffset, src)
      ensures r == 1 ==> mem.contents == old(mem.contents)
    {
      warning := "";
      if info.usage & USAGE_TRANSFER_SRC == 0 {
        warning := DumpUsage(info.usage, name);
        return 1, warning;
      }
      if dstOffset + |src| > info.size {
        return 1, warning;
      }
      var m, mapped := mem.MmapVma(0, mapping);
      if m != 0 {
        return 1, warning;
      }
      mem.contents := mem.contents[..dstOffset] + src + mem.contents[dstOffset + |src|..];
      r := 0;
    }

    /** copy(cmdBuffer, src, dstOffset): one region from the start of src to
      * dstOffset, src.info.size bytes long, if it fits (the intended bounds
      * test, see FitsAsWrittenAdmitsOverrun). */
    method CopyTo(cmdBuffer: CommandBuffer, src: Buffer, dstOffset: u64) returns (r: int)
      modifies cmdBuffer`lazyBarriers, cmdBuffer`emitted
      ensures !Fits(dstOffset, src.info.size, info.size) ==>
        r == 1 && cmdBuffer.lazyBarriers == old(cmdBuffer.lazyBarriers) && cmdBuffer.emitted == old(cmdBuffer.emitted)
      ensures Fits(dstOffset, src.info.size, info.size) ==>
        var f := FlushOf(old(cmdBuffer.lazyBarriers), cmdBuffer.vk, cmdBuffer.trimSrcStage, cmdBuffer.trimDstStage);
        cmdBuffer.lazyBarriers == f.after &&
        (if f.code == 1 then r == 1 && cmdBuffer.emitted == old(cmdBuffer.emitted)
         else r == 0 && cmdBuffer.emitted == old(cmdBuffer.emitted) + f.cmds +
              [CopyBuffer(src.vk, vk, [BufferCopy(0, dstOffset, src.info.size)])])
    {
      if dstOffset + src.info.size > info.size {
        return 1;
      }
      r := cmdBuffer.CopyBufferRegions(src.vk, vk, [BufferCopy(0, dstOffset, src.info.size)]);
    }

    /** copy(pool, src): src must not be larger than this buffer; the copy is
      * then recorded on a SmartCommandBuffer borrowed from the pool, whose
      * ctorError() || autoSubmit() outcome is smartReady. */
    method CopyViaPool(cmdBuffer: CommandBuffer, src: Buffer, smartReady: bool) returns (r: int)
      modifies cmdBuffer`lazyBarriers, cmdBuffer`emitted
      ensures src.info.size > info.size || !smartReady ==>
        r == 1 && cmdBuffer.lazyBarriers == old(cmdBuffer.lazyBarriers) && cmdBuffer.emitted == old(cmdBuffer.emitted)
      ensures src.info.size <= info.size && smartReady ==>
        var f := FlushOf(old(cmdBuffer.lazyBarriers), cmdBuffer.vk, cmdBuffer.trimSrcStage, cmdBuffer.trimDstStage);
        cmdBuffer.lazyBarriers == f.after &&
        (if f.code == 1 then r == 1 && cmdBuffer.emitted == old(cmdBuffer.emitted)
         else r == 0 && cmdBuffer.emitted == old(cmdBuffer.emitted) + f.cmds +
              [CopyBuffer(src.vk, vk, [BufferCopy(0, 0, src.info.size)])])
    {
      if src.info.size > info.size {
        return 1;
      }
      if !smartReady {
        return 1;
      }
      r := CopyTo(cmdBuffer, src, 0);
    }
  }

  /** Creating, allocating and binding a buffer of nBytes succeeds with
    * these driver and VMA answers. */
  predicate Succeeds(nBytes: u64, replies: Replies, bound: bool) {
    nBytes != 0 && replies.created.Some? && replies.created.value != NULL_HANDLE &&
    replies.allocatorReady && replies.allocation.Some? && bound
  }

  class UniformBuffer {
    /** The device-local buffer itself (UniformBuffer derives from Buffer). */
    const buffer: Buffer
    /** The host-coherent staging buffer. */
    const stage: Buffer
    /** The cached mapping of stage, 0 for nullptr. */
    var stageMmap: nat

    predicate Valid()
      reads this, buffer, stage
    {
      buffer != stage && buffer.mem != stage.mem
    }

    constructor (dev: nat)
      ensures Valid() && fresh(buffer) && fresh(stage) && fresh(buffer.mem) && fresh(stage.mem)
      ensures buffer.info == DefaultBufferInfo() && stage.info == DefaultBufferInfo() && stageMmap == 0
    {
      buffer := new Buffer(dev);
      stage := new Buffer(dev);
      stageMmap := 0;
    }

    /** ctorError(nBytes): both buffers get nBytes and the buffer UNIFORM
      * usage; then stage.ctorHostCoherent(), stage.bindMemory(),
      * ctorDeviceLocal() and bindMemory() run in turn until one fails. */
    method CtorError(nBytes: u64, stageReplies: Replies, stageBound: bool, replies: Replies, bound: bool)
      returns (r: int)
      requires Valid()
      modifies buffer`info, buffer`vk, buffer.mem`vmaAlloc, stage`info, stage`vk, stage.mem`vmaAlloc
      ensures buffer.info.size == nBytes && stage.info.size == nBytes
      ensures r in {0, 1}
      ensures r == 0 <==> Succeeds(nBytes, stageReplies, stageBound) && Succeeds(nBytes, replies, bound)
      ensures !Succeeds(nBytes, stageReplies, stageBound) ==>
        buffer.info.usage == BUFFER_USAGE_UNIFORM_BUFFER && buffer.vk == old(buffer.vk)
      ensures Succeeds(nBytes, stageReplies, stageBound) ==>
        buffer.info.usage == BUFFER_USAGE_UNIFORM_BUFFER | USAGE_TRANSFER_DST
      ensures stage.info.usage == old(stage.info.usage) | USAGE_TRANSFER_SRC | USAGE_TRANSFER_DST
    {
      buffer.info := buffer.info.(size := nBytes, usage := BUFFER_USAGE_UNIFORM_BUFFER);
      stage.info := stage.info.(size := nBytes);
      ghost var info := buffer.info;
      var s := stage.CtorHost(true, [], stageReplies);
      assert buffer.info == info && buffer.vk == old(buffer.vk);
      assert stage.info.usage == old(stage.info.usage) | USAGE_TRANSFER_SRC | USAGE_TRANSFER_DST;
      if s != 0 {
        return 1;
      }
      s := stage.BindMemory(0, stageBound);
      if s != 0 {
        return 1;
      }
      assert Succeeds(nBytes, stageReplies, stageBound);
      var d := buffer.CtorDeviceLocal([], replies);
      if d != 0 {
        return 1;
      }
      r := buffer.BindMemory(0, bound);
    }

    /** copy(pool, src, len, dstOffset): stage the bytes, then copy the whole
      * stage buffer into this one. */
    method Copy(cmdBuffer: CommandBuffer, src: seq<bv8>, dstOffset: u64, mapping: Option<nat>,
                name: nat -> string, smartReady: bool) returns (r: int)
      requires Valid()
      requires |src| < U64_LIMIT && stage.info.size <= |stage.mem.contents|
      modifies stage.mem`contents, cmdBuffer`lazyBarriers, cmdBuffer`emitted
      ensures var staged := stage.info.usage & USAGE_TRANSFER_SRC != 0 && Fits(dstOffset, |src|, stage.info.size) &&
                            mapping.Some?;
        (!staged ==> r == 1 && stage.mem.contents == old(stage.mem.contents) && cmdBuffer.emitted == old(cmdBuffer.emitted) &&
                     cmdBuffer.lazyBarriers == old(cmdBuffer.lazyBarriers)) &&
        (staged ==> stage.mem.contents == Written(old(stage.mem.contents), dstOffset, src))
      // a staged copy then goes through CopyViaPool, stage to this buffer
      ensures var staged := stage.info.usage & USAGE_TRANSFER_SRC != 0 && Fits(dstOffset, |src|, stage.info.size) &&
                            mapping.Some?;
        var f := FlushOf(old(cmdBuffer.lazyBarriers), cmdBuffer.vk, cmdBuffer.trimSrcStage, cmdBuffer.trimDstStage);
        (staged && (stage.info.size > buffer.info.size || !smartReady) ==>
          r == 1 && cmdBuffer.lazyBarriers == old(cmdBuffer.lazyBarriers) && cmdBuffer.emitted == old(cmdBuffer.emitted)) &&
        (staged && stage.info.size <= buffer.info.size && smartReady ==>
          cmdBuffer.lazyBarriers == f.after &&
          (if f.code == 1 then r == 1 && cmdBuffer.emitted == old(cmdBuffer.emitted)
           else r == 0 && cmdBuffer.emitted == old(cmdBuffer.emitted) + f.cmds +
                [CopyBuffer(stage.vk, buffer.vk, [BufferCopy(0, 0, stage.info.size)])]))
    {
      var c, w := stage.CopyFromHost(src, dstOffset, mapping, name);
      if c != 0 {
        return 1;
      }
      r := buffer.CopyViaPool(cmdBuffer, stage, smartReady);
    }

    /** copyAndKeepMmap: like copy, but the stage buffer is mapped only the
      * first time (or until a mapping has been obtained) and the pointer is
      * kept for later calls. */
    method CopyAndKeepMmap(cmdBuffer: CommandBuffer, src: seq<bv8>, dstOffset: u64, mapping: Option<nat>,
                           smartReady: bool) returns (r: int)
      requires Valid()
      requires |src| < U64_LIMIT && stage.info.size <= |stage.mem.contents|
      modifies this`stageMmap, stage.mem`contents, cmdBuffer`lazyBarriers, cmdBuffer`emitted
      ensures var checked := stage.info.usage & USAGE_TRANSFER_SRC != 0 && Fits(dstOffset, |src|, stage.info.size);
        (!checked ==> r == 1 && stageMmap == old(stageMmap) && stage.mem.contents == old(stage.mem.contents)) &&
        (checked && old(stageMmap) != 0 ==>
          stageMmap == old(stageMmap) && stage.mem.contents == Written(old(stage.mem.contents), dstOffset, src)) &&
        (checked && old(stageMmap) == 0 && mapping.None? ==>
          r == 1 && stageMmap == 0 && stage.mem.contents == old(stage.mem.contents)) &&
        (checked && old(stageMmap) == 0 && mapping.Some? ==>
          stageMmap == mapping.value && stage.mem.contents == Written(old(stage.mem.contents), dstOffset, src))
      // refused bytes record nothing; staged bytes go through CopyViaPool
      ensures var staged := stage.info.usage & USAGE_TRANSFER_SRC != 0 && Fits(dstOffset, |src|, stage.info.size) &&
                            (old(stageMmap) != 0 || mapping.Some?);
        var f := FlushOf(old(cmdBuffer.lazyBarriers), cmdBuffer.vk, cmdBuffer.trimSrcStage, cmdBuffer.trimDstStage);
        (!staged ==> r == 1 && cmdBuffer.lazyBarriers == old(cmdBuffer.lazyBarriers) && cmdBuffer.emitted == old(cmdBuffer.emitted)) &&
        (staged && (stage.info.size > buffer.info.size || !smartReady) ==>
          r == 1 && cmdBuffer.lazyBarriers == old(cmdBuffer.lazyBarriers) && cmdBuffer.emitted == old(cmdBuffer.emitted)) &&
        (staged && stage.info.size <= buffer.info.size && smartReady ==>
          cmdBuffer.lazyBarriers == f.after &&
          (if f.code == 1 then r == 1 && cmdBuffer.emitted == old(cmdBuffer.emitted)
           else r == 0 && cmdBuffer.emitted == old(cmdBuffer.emitted) + f.cmds +
                [CopyBuffer(stage.vk, buffer.vk, [BufferCopy(0, 0, stage.info.size)])]))
    {
      if stage.info.usage & USAGE_TRANSFER_SRC == 0 {
        return 1;
      }
      if dstOffset + |src| > stage.info.size {
        return 1;
      }
      if stageMmap == 0 {
        var m, p := stage.mem.MmapVma(0, mapping);
        if m != 0 {
          return 1;
        }
        stageMmap := p;
      }
      stage.mem.contents := stage.mem.contents[..dstOffset] + src + stage.mem.contents[dstOffset + |src|..];
      r := buffer.CopyViaPool(cmdBuffer, stage, smartReady);
    }
  }
}
