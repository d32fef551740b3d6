// CommandBuffer: a VkCommandBuffer handle plus the lazily batched barriers
// that every recording command flushes first.
//
// Driver calls (vkCmd*, vkBeginCommandBuffer, queue submission) are not
// executed; each one is appended to the ghost log `emitted`, and any result
// the driver would return is an extra parameter of the method.

module CommandBuffers {
  import opened VkTypes
  import opened BarrierSets

  datatype BufferCopy = BufferCopy(srcOffset: u64, dstOffset: u64, size: u64)

  /** VkViewport holds floats; the model keeps them as opaque integers. */
  datatype Viewport = Viewport(x: int, y: int, width: int, height: int, minDepth: int, maxDepth: int)
  datatype Rect2D = Rect2D(x: int, y: int, extent: Extent2D)

  datatype RenderPassBeginInfo = RenderPassBeginInfo(
    renderPass: Handle, framebuffer: Handle, renderArea: Rect2D, clearValueCount: u32)

  /** The parts of a pipeline's info that setViewport/setScissor read. */
  datatype PipelineInfo = PipelineInfo(viewports: seq<Viewport>, scissors: seq<Rect2D>)

  /** One driver call made through a command buffer. */
  datatype Cmd =
    | PipelineBarrier(srcStageMask: Flags, dstStageMask: Flags, dependencyFlags: Flags,
                      mem: seq<MemoryBarrier>, buf: seq<BufferMemoryBarrier>, img: seq<ImageMemoryBarrier>)
    | WaitEvents(events: seq<Handle>, srcStageMask: Flags, dstStageMask: Flags,
                 mem: seq<MemoryBarrier>, buf: seq<BufferMemoryBarrier>, img: seq<ImageMemoryBarrier>)
    | CopyBuffer(src: Handle, dst: Handle, regions: seq<BufferCopy>)
    | BeginRenderPass(info: RenderPassBeginInfo, contents: int)
    | BindIndexBuffer(indexBuf: Handle, offset: u64, indexType: int)
    | DrawIndexed(indexCount: u32, instanceCount: u32, firstIndex: u32, vertexOffset: int, firstInstance: u32)
    | SetViewport(firstViewport: u32, viewports: seq<Viewport>)
    | SetScissor(firstScissor: u32, scissors: seq<Rect2D>)
    | QueueSubmit(poolQindex: nat, waitSemaphores: seq<Handle>, waitStages: seq<Flags>,
                  signalSemaphores: seq<Handle>, fence: Handle)
    /** Any other entry point, by name, with its scalar arguments. */
    | Call(entryPoint: string, args: seq<int>)

  const INDEX_TYPE_UINT16: int := 0
  const INDEX_TYPE_UINT32: int := 1

  /** What flushLazyBarriers returns, leaves pending and emits. */
  datatype Flush = Flush(code: int, after: BarrierSet, cmds: seq<Cmd>)

  function FlushOf(b: BarrierSet, vk: Handle, trimSrc: Trim, trimDst: Trim): (f: Flush)
    ensures f.code in {0, 1}
    ensures f.code == 1 <==> Validate(b, vk, trimSrc, trimDst).code == 1
    ensures f.code == 1 ==> f.cmds == [] && f.after == Validate(b, vk, trimSrc, trimDst).after
    ensures IsEmpty(b) && vk != NULL_HANDLE ==> f == Flush(0, b, [])
    ensures f.code == 0 && !IsEmpty(b) ==> f.after == ResetSet() && |f.cmds| == 1
  {
    var v := Validate(b, vk, trimSrc, trimDst);
    if v.code == 1 then Flush(1, v.after, [])
    else if v.code == 2 then Flush(0, v.after, [])
    else Flush(0, ResetSet(), [PipelineBarrier(v.after.srcStageMask, v.after.dstStageMask, 0,
                                               v.after.mem, v.after.buf, v.after.img)])
  }

  /** A flush of a non-empty valid set emits one pipeline barrier carrying
    * every pending barrier, kind by kind and in insertion order, with the
    * stage masks the trim functions accumulated during validation; only the
    * access masks of the barriers themselves have been rewritten. */
  lemma FlushCarriesPending(b: BarrierSet, vk: Handle, trimSrc: Trim, trimDst: Trim)
    requires FlushOf(b, vk, trimSrc, trimDst).code == 0 && !IsEmpty(b)
    ensures var c := FlushOf(b, vk, trimSrc, trimDst).cmds[0];
      c.PipelineBarrier? && c.dependencyFlags == 0 &&
      c.srcStageMask == Validate(b, vk, trimSrc, trimDst).after.srcStageMask &&
      c.dstStageMask == Validate(b, vk, trimSrc, trimDst).after.dstStageMask &&
      |c.mem| == |b.mem| && |c.buf| == |b.buf| && |c.img| == |b.img| &&
      (forall i :: 0 <= i < |b.mem| ==> c.mem[i].sType == b.mem[i].sType && c.mem[i].payload == b.mem[i].payload) &&
      (forall i :: 0 <= i < |b.buf| ==> c.buf[i].sType == b.buf[i].sType && c.buf[i].payload == b.buf[i].payload) &&
      (forall i :: 0 <= i < |b.img| ==> c.img[i].sType == b.img[i].sType && c.img[i].payload == b.img[i].payload)
  {
    var m := TrimList(b.mem, STYPE_MEMORY_BARRIER, MemHandleSet, b.srcStageMask, b.dstStageMask, trimSrc, trimDst);
    var u := TrimList(b.buf, STYPE_BUFFER_MEMORY_BARRIER, BufHandleSet, m.srcStageMask, m.dstStageMask, trimSrc, trimDst);
    forall i | 0 <= i < |b.mem|
      ensures m.barriers[i].sType == b.mem[i].sType && m.barriers[i].payload == b.mem[i].payload
    {
      TrimListKeepsPayload(b.mem, STYPE_MEMORY_BARRIER, MemHandleSet, b.srcStageMask, b.dstStageMask, trimSrc, trimDst, i);
    }
    forall i | 0 <= i < |b.buf|
      ensures u.barriers[i].sType == b.buf[i].sType && u.barriers[i].payload == b.buf[i].payload
    {
      TrimListKeepsPayload(b.buf, STYPE_BUFFER_MEMORY_BARRIER, BufHandleSet, m.srcStageMask, m.dstStageMask, trimSrc, trimDst, i);
    }
    forall i | 0 <= i < |b.img|
      ensures TrimList(b.img, STYPE_IMAGE_MEMORY_BARRIER, ImgHandleSet, u.srcStageMask, u.dstStageMask, trimSrc, trimDst).barriers[i].sType == b.img[i].sType
      ensures TrimList(b.img, STYPE_IMAGE_MEMORY_BARRIER, ImgHandleSet, u.srcStageMask, u.dstStageMask, trimSrc, trimDst).barriers[i].payload == b.img[i].payload
    {
      TrimListKeepsPayload(b.img, STYPE_IMAGE_MEMORY_BARRIER, ImgHandleSet, u.srcStageMask, u.dstStageMask, trimSrc, trimDst, i);
    }
  }

  /** A successful flush leaves nothing to flush: flushing again returns 0,
    * emits nothing and changes nothing. */
  lemma FlushThenFlushIsNoop(b: BarrierSet, vk: Handle, trimSrc: Trim, trimDst: Trim)
    requires FlushOf(b, vk, trimSrc, trimDst).code == 0
    ensures var a := FlushOf(b, vk, trimSrc, trimDst).after;
      FlushOf(a, vk, trimSrc, trimDst) == Flush(0, a, [])
  {
    if IsEmpty(b) {
      assert FlushOf(b, vk, trimSrc, trimDst).after == b;
    }
  }

  /** The viewports (or scissors) of all pipelines, concatenated in order. */
  function Concat<T>(xss: seq<seq<T>>): (r: seq<T>)
    decreases |xss|
  {
    if xss == [] then [] else Concat(xss[..|xss| - 1]) + xss[|xss| - 1]
  }

  lemma {:induction false} ConcatAppend<T>(xss: seq<seq<T>>, yss: seq<seq<T>>)
    ensures Concat(xss + yss) == Concat(xss) + Concat(yss)
    decreases |yss|
  {
    if yss == [] {
      assert xss + yss == xss;
    } else {
      assert (xss + yss)[..|xss + yss| - 1] == xss + yss[..|yss| - 1];
      ConcatAppend(xss, yss[..|yss| - 1]);
    }
  }

  /** Every element of every pipeline's list appears in the concatenation,
    * after the elements of all earlier pipelines. */
  lemma {:induction false} ConcatAt<T>(xss: seq<seq<T>>, i: nat, j: nat)
    requires i < |xss| && j < |xss[i]|
    ensures |Concat(xss[..i])| + j < |Concat(xss)|
    ensures Concat(xss)[|Concat(xss[..i])| + j] == xss[i][j]
  {
    assert xss == xss[..i] + [xss[i]] + xss[i + 1..];
    ConcatAppend(xss[..i] + [xss[i]], xss[i + 1..]);
    ConcatAppend(xss[..i], [xss[i]]);
    assert Concat([xss[i]]) == xss[i] by {
      assert [xss[i]][..0] == [];
    }
  }

  function ViewportLists(pipes: seq<PipelineInfo>): (r: seq<seq<Viewport>>)
    ensures |r| == |pipes| && forall i :: 0 <= i < |pipes| ==> r[i] == pipes[i].viewports
  {
    seq(|pipes|, i requires 0 <= i < |pipes| => pipes[i].viewports)
  }

  function ScissorLists(pipes: seq<PipelineInfo>): (r: seq<seq<Rect2D>>)
    ensures |r| == |pipes| && forall i :: 0 <= i < |pipes| ==> r[i] == pipes[i].scissors
  {
    seq(|pipes|, i requires 0 <= i < |pipes| => pipes[i].scissors)
  }

  class CommandBuffer {
    var vk: Handle
    var lazyBarriers: BarrierSet
    /** Every driver call made through this command buffer, in order. */
    ghost var emitted: seq<Cmd>
    const trimSrcStage: Trim
    const trimDstStage: Trim

    /** An empty CommandBuffer: no handle, a freshly reset BarrierSet. */
    constructor (trimSrc: Trim, trimDst: Trim)
      ensures vk == NULL_HANDLE && lazyBarriers == ResetSet() && emitted == []
      ensures trimSrcStage == trimSrc && trimDstStage == trimDst
    {
      vk := NULL_HANDLE;
      lazyBarriers := ResetSet();
      emitted := [];
      trimSrcStage, trimDstStage := trimSrc, trimDst;
    }

    /** The move constructor takes the handle and nulls it in `other`. The
      * pending barriers are not moved: the new object starts with a reset
      * BarrierSet and `other` keeps its own. */
    constructor Move(other: CommandBuffer)
      modifies other`vk
      ensures vk == old(other.vk) && other.vk == NULL_HANDLE
      ensures lazyBarriers == ResetSet() && emitted == []
      ensures other.lazyBarriers == old(other.lazyBarriers) && other.emitted == old(other.emitted)
      ensures trimSrcStage == other.trimSrcStage && trimDstStage == other.trimDstStage
    {
      vk := other.vk;
      lazyBarriers := ResetSet();
      emitted := [];
      trimSrcStage, trimDstStage := other.trimSrcStage, other.trimDstStage;
      other.vk := NULL_HANDLE;
    }

    /** One loop of validateLazyBarriers: check each barrier of a list and
      * trim its access masks and the running stage masks. */
    method TrimPass<P>(xs: seq<Barrier<P>>, sType: int, handleSet: P -> bool, src: Flags, dst: Flags)
      returns (r: Trimmed<P>)
      ensures r == TrimList(xs, sType, handleSet, src, dst, trimSrcStage, trimDstStage)
    {
      var done: seq<Barrier<P>> := [];
      var s, d := src, dst;
      var i := 0;
      while i < |xs|
        invariant 0 <= i <= |xs| && |done| == i
        invariant TrimList(xs, sType, handleSet, src, dst, trimSrcStage, trimDstStage) ==
          Prepend(done, TrimList(xs[i..], sType, handleSet, s, d, trimSrcStage, trimDstStage))
      {
        ghost var t := TrimList(xs[i..], sType, handleSet, s, d, trimSrcStage, trimDstStage);
        TrimListStep(xs[i..], sType, handleSet, s, d, trimSrcStage, trimDstStage);
        assert xs[i..][1..] == xs[i + 1..];
        if !Acceptable(xs[i], sType, handleSet) {
          return Trimmed(false, done + xs[i..], s, d);
        }
        var ts := trimSrcStage(xs[i].srcAccessMask, s);
        var td := trimDstStage(xs[i].dstAccessMask, d);
        var head := xs[i].(srcAccessMask := ts.0, dstAccessMask := td.0);
        ghost var rest := TrimList(xs[i + 1..], sType, handleSet, ts.1, td.1, trimSrcStage, trimDstStage);
        assert t == Prepend([head], rest);
        PrependPrepend(done, [head], rest);
        done := done + [head];
        s, d := ts.1, td.1;
        i := i + 1;
      }
      assert xs[i..] == [];
      assert done + [] == done;
      r := Trimmed(true, done, s, d);
    }

    /** validateLazyBarriers: 1 if a pending barrier is malformed or the
      * buffer is not allocated, 2 if nothing is pending, else 0. The lists
      * are trimmed in place up to the point where a check fails. */
    method ValidateLazyBarriers() returns (code: int)
      modifies this`lazyBarriers
      ensures var v := Validate(old(lazyBarriers), vk, trimSrcStage, trimDstStage);
        code == v.code && lazyBarriers == v.after
    {
      var b := lazyBarriers;
      var found := false;
      var m := TrimPass(b.mem, STYPE_MEMORY_BARRIER, MemHandleSet, b.srcStageMask, b.dstStageMask);
      found := found || |b.mem| > 0;
      if !m.ok {
        lazyBarriers := BarrierSet(m.barriers, b.buf, b.img, m.srcStageMask, m.dstStageMask);
        return 1;
      }
      var u := TrimPass(b.buf, STYPE_BUFFER_MEMORY_BARRIER, BufHandleSet, m.srcStageMask, m.dstStageMask);
      found := found || |b.buf| > 0;
      if !u.ok {
        lazyBarriers := BarrierSet(m.barriers, u.barriers, b.img, u.srcStageMask, u.dstStageMask);
        return 1;
      }
      var g := TrimPass(b.img, STYPE_IMAGE_MEMORY_BARRIER, ImgHandleSet, u.srcStageMask, u.dstStageMask);
      found := found || |b.img| > 0;
      lazyBarriers := BarrierSet(m.barriers, u.barriers, g.barriers, g.srcStageMask, g.dstStageMask);
      if !g.ok || vk == NULL_HANDLE {
        return 1;
      }
      code := if found then 0 else 2;
    }

    /** flushLazyBarriers: emit one pipeline barrier for everything pending
      * and reset the set; nothing is emitted when nothing is pending or
      * validation fails. */
    method FlushLazyBarriers() returns (r: int)
      modifies this`lazyBarriers, this`emitted
      ensures var f := FlushOf(old(lazyBarriers), vk, trimSrcStage, trimDstStage);
        r == f.code && lazyBarriers == f.after && emitted == old(emitted) + f.cmds
    {
      var code := ValidateLazyBarriers();
      if code == 1 {
        return 1;
      } else if code == 2 {
        return 0;
      }
      var b := lazyBarriers;
      emitted := emitted + [PipelineBarrier(b.srcStageMask, b.dstStageMask, 0, b.mem, b.buf, b.img)];
      lazyBarriers := ResetSet();
      r := 0;
    }

    /** The shape of every recording command (draw, dispatch, fillBuffer,
      * setEvent, the dynamic-state setters, ...): flush, and record `c`
      * only if the flush succeeded. */
    method Record(c: Cmd) returns (r: int)
      modifies this`lazyBarriers, this`emitted
      ensures var f := FlushOf(old(lazyBarriers), vk, trimSrcStage, trimDstStage);
        lazyBarriers == f.after &&
        (if f.code == 1 then r == 1 && emitted == old(emitted)
        else r == 0 && emitted == old(emitted) + f.cmds + [c])
    {
      r := FlushLazyBarriers();
      if r != 0 {
        return 1;
      }
      emitted := emitted + [c];
    }

    /** reset, begin and end: flush, then a driver call whose result decides
      * between 0 and 1. */
    method RecordChecked(c: Cmd, driverResult: int) returns (r: int)
      modifies this`lazyBarriers, this`emitted
      ensures var f := FlushOf(old(lazyBarriers), vk, trimSrcStage, trimDstStage);
        lazyBarriers == f.after &&
        (if f.code == 1 then r == 1 && emitted == old(emitted)
        else r == (if driverResult == VK_SUCCESS then 0 else 1) && emitted == old(emitted) + f.cmds + [c])
    {
      r := FlushLazyBarriers();
      if r != 0 {
        return 1;
      }
      emitted := emitted + [c];
      r := if driverResult == VK_SUCCESS then 0 else 1;
    }

    /** Two recording commands joined by `||` (bindAndDraw and the
      * bind*PipelineAndDescriptors helpers): the second runs only if the
      * first returned 0, and its flush has nothing left to emit. */
    method RecordPair(c1: Cmd, c2: Cmd) returns (r: int)
      modifies this`lazyBarriers, this`emitted
      ensures var f := FlushOf(old(lazyBarriers), vk, trimSrcStage, trimDstStage);
        lazyBarriers == f.after &&
        (if f.code == 1 then r == 1 && emitted == old(emitted)
        else r == 0 && emitted == old(emitted) + f.cmds + [c1, c2])
    {
      ghost var b0 := lazyBarriers;
      r := Record(c1);
      if r != 0 {
        return 1;
      }
      FlushThenFlushIsNoop(b0, vk, trimSrcStage, trimDstStage);
      r := Record(c2);
      r := if r != 0 then 1 else 0;
    }

    /** bindAndDraw(vector<uint16_t>): bind the index buffer as 16-bit
      * indices, then draw |indices| indices. The size_t count is narrowed to
      * the uint32_t indexCount parameter. */
    method BindAndDraw16(indices: seq<u16>, indexBuf: Handle, offset: u64,
                         instanceCount: u32, firstIndex: u32, vertexOffset: int, firstInstance: u32)
      returns (r: int)
      modifies this`lazyBarriers, this`emitted
      ensures var f := FlushOf(old(lazyBarriers), vk, trimSrcStage, trimDstStage);
        lazyBarriers == f.after &&
        (if f.code == 1 then r == 1 && emitted == old(emitted)
        else r == 0 && emitted == old(emitted) + f.cmds +
                [BindIndexBuffer(indexBuf, offset, INDEX_TYPE_UINT16),
                 DrawIndexed(|indices| % U32_LIMIT, instanceCount, firstIndex, vertexOffset, firstInstance)])
    {
      r := RecordPair(BindIndexBuffer(indexBuf, offset, INDEX_TYPE_UINT16),
                      DrawIndexed(|indices| % U32_LIMIT, instanceCount, firstIndex, vertexOffset, firstInstance));
    }

    /** bindAndDraw(vector<uint32_t>): the same with 32-bit indices. */
    method BindAndDraw32(indices: seq<u32>, indexBuf: Handle, offset: u64,
                         instanceCount: u32, firstIndex: u32, vertexOffset: int, firstInstance: u32)
      returns (r: int)
      modifies this`lazyBarriers, this`emitted
      ensures var f := FlushOf(old(lazyBarriers), vk, trimSrcStage, trimDstStage);
        lazyBarriers == f.after &&
        (if f.code == 1 then r == 1 && emitted == old(emitted)
        else r == 0 && emitted == old(emitted) + f.cmds +
                [BindIndexBuffer(indexBuf, offset, INDEX_TYPE_UINT32),
                 DrawIndexed(|indices| % U32_LIMIT, instanceCount, firstIndex, vertexOffset, firstInstance)])
    {
      r := RecordPair(BindIndexBuffer(indexBuf, offset, INDEX_TYPE_UINT32),
                      DrawIndexed(|indices| % U32_LIMIT, instanceCount, firstIndex, vertexOffset, firstInstance));
    }

    /** submit: mismatched wait lists are rejected before anything is
      * flushed; otherwise the pool's submitMany result is returned. */
    method Submit(poolQindex: nat, waitSemaphores: seq<Handle>, waitStages: seq<Flags>,
                  signalSemaphores: seq<Handle>, fence: Handle, submitResult: int)
      returns (r: int)
      modifies this`lazyBarriers, this`emitted
      ensures |waitSemaphores| != |waitStages| ==>
        r == 1 && lazyBarriers == old(lazyBarriers) && emitted == old(emitted)
      ensures |waitSemaphores| == |waitStages| ==>
        var f := FlushOf(old(lazyBarriers), vk, trimSrcStage, trimDstStage);
        lazyBarriers == f.after &&
        (if f.code == 1 then r == 1 && emitted == old(emitted)
        else r == submitResult && emitted == old(emitted) + f.cmds +
                [QueueSubmit(poolQindex, waitSemaphores, waitStages, signalSemaphores, fence)])
    {
      if |waitSemaphores| != |waitStages| {
        return 1;
      }
      r := FlushLazyBarriers();
      if r != 0 {
        return 1;
      }
      emitted := emitted + [QueueSubmit(poolQindex, waitSemaphores, waitStages, signalSemaphores, fence)];
      r := submitResult;
    }

    /** copyBuffer(src, dst, regions): empty regions are rejected before the
      * flush. */
    method CopyBufferRegions(src: Handle, dst: Handle, regions: seq<BufferCopy>) returns (r: int)
      modifies this`lazyBarriers, this`emitted
      ensures regions == [] ==> r == 1 && lazyBarriers == old(lazyBarriers) && emitted == old(emitted)
      ensures regions != [] ==>
        var f := FlushOf(old(lazyBarriers), vk, trimSrcStage, trimDstStage);
        lazyBarriers == f.after &&
        (if f.code == 1 then r == 1 && emitted == old(emitted)
        else r == 0 && emitted == old(emitted) + f.cmds + [CopyBuffer(src, dst, regions)])
    {
      if |regions| == 0 {
        return 1;
      }
      r := Record(CopyBuffer(src, dst, regions));
    }

    /** copyBuffer(src, dst, size): one region of `size` bytes at offset 0
      * in both buffers. */
    method CopyBufferSize(src: Handle, dst: Handle, size: u64) returns (r: int)
      modifies this`lazyBarriers, this`emitted
      ensures var f := FlushOf(old(lazyBarriers), vk, trimSrcStage, trimDstStage);
        lazyBarriers == f.after &&
        (if f.code == 1 then r == 1 && emitted == old(emitted)
        else r == 0 && emitted == old(emitted) + f.cmds + [CopyBuffer(src, dst, [BufferCopy(0, 0, size)])])
    {
      r := CopyBufferRegions(src, dst, [BufferCopy(0, 0, size)]);
    }

    /** beginRenderPass(info, contents): the flush happens first, so pending
      * barriers are emitted even when the null framebuffer is then rejected. */
    method BeginRenderPassInfo(info: RenderPassBeginInfo, contents: int) returns (r: int)
      modifies this`lazyBarriers, this`emitted
      ensures var f := FlushOf(old(lazyBarriers), vk, trimSrcStage, trimDstStage);
        lazyBarriers == f.after &&
        (if f.code == 1 then r == 1 && emitted == old(emitted)
        else if info.framebuffer == NULL_HANDLE then r == 1 && emitted == old(emitted) + f.cmds
        else r == 0 && emitted == old(emitted) + f.cmds + [BeginRenderPass(info, contents)])
    {
      r := FlushLazyBarriers();
      if r != 0 {
        return 1;
      }
      if info.framebuffer == NULL_HANDLE {
        return 1;
      }
      emitted := emitted + [BeginRenderPass(info, contents)];
    }

    /** beginRenderPass(pass, framebuf, contents): the render area is the
      * whole swapchain extent at offset (0, 0), with one clear value per
      * clear colour of the pass. */
    method BeginRenderPassFor(renderPass: Handle, framebuffer: Handle, swapChainExtent: Extent2D,
                              clearColorCount: nat, contents: int) returns (r: int)
      modifies this`lazyBarriers, this`emitted
      ensures var f := FlushOf(old(lazyBarriers), vk, trimSrcStage, trimDstStage);
        var info := RenderPassBeginInfo(renderPass, framebuffer, Rect2D(0, 0, swapChainExtent),
                                        clearColorCount % U32_LIMIT);
        lazyBarriers == f.after &&
        (if f.code == 1 then r == 1 && emitted == old(emitted)
        else if framebuffer == NULL_HANDLE then r == 1 && emitted == old(emitted) + f.cmds
        else r == 0 && emitted == old(emitted) + f.cmds + [BeginRenderPass(info, contents)])
    {
      var info := RenderPassBeginInfo(renderPass, framebuffer, Rect2D(0, 0, swapChainExtent),
                                      clearColorCount % U32_LIMIT);
      r := BeginRenderPassInfo(info, contents);
    }

    /** waitBarrier(b, dependencyFlags): flush, then emit the caller's set
      * exactly as given (it is neither validated nor trimmed). */
    method WaitBarrier(b: BarrierSet, dependencyFlags: Flags) returns (r: int)
      modifies this`lazyBarriers, this`emitted
      ensures var f := FlushOf(old(lazyBarriers), vk, trimSrcStage, trimDstStage);
        lazyBarriers == f.after &&
        (if f.code == 1 then r == 1 && emitted == old(emitted)
        else r == 0 && emitted == old(emitted) + f.cmds +
                [PipelineBarrier(b.srcStageMask, b.dstStageMask, dependencyFlags, b.mem, b.buf, b.img)])
    {
      r := Record(PipelineBarrier(b.srcStageMask, b.dstStageMask, dependencyFlags, b.mem, b.buf, b.img));
    }

    /** waitEvents(events): the pending barriers travel in the wait-events
      * command itself; an empty pending set does not skip the command. */
    method WaitEventsPending(events: seq<Handle>) returns (r: int)
      modifies this`lazyBarriers, this`emitted
      ensures var v := Validate(old(lazyBarriers), vk, trimSrcStage, trimDstStage);
        if v.code == 1 then r == 1 && lazyBarriers == v.after && emitted == old(emitted)
        else r == 0 && lazyBarriers == ResetSet() &&
                emitted == old(emitted) + [WaitEvents(events, v.after.srcStageMask, v.after.dstStageMask,
                                                       v.after.mem, v.after.buf, v.after.img)]
    {
      var code := ValidateLazyBarriers();
      if code == 1 {
        return 1;
      }
      var b := lazyBarriers;
      emitted := emitted + [WaitEvents(events, b.srcStageMask, b.dstStageMask, b.mem, b.buf, b.img)];
      lazyBarriers := ResetSet();
      r := 0;
    }

    /** waitEvents(events, b): flush, then wait on the events with the
      * caller's set. */
    method WaitEventsWith(events: seq<Handle>, b: BarrierSet) returns (r: int)
      modifies this`lazyBarriers, this`emitted
      ensures var f := FlushOf(old(lazyBarriers), vk, trimSrcStage, trimDstStage);
        lazyBarriers == f.after &&
        (if f.code == 1 then r == 1 && emitted == old(emitted)
        else r == 0 && emitted == old(emitted) + f.cmds +
                [WaitEvents(events, b.srcStageMask, b.dstStageMask, b.mem, b.buf, b.img)])
    {
      r := Record(WaitEvents(events, b.srcStageMask, b.dstStageMask, b.mem, b.buf, b.img));
    }

    /** barrier(VkBufferMemoryBarrier): check and queue; nothing is emitted. */
    method BarrierBuffer(b: BufferMemoryBarrier) returns (r: int)
      modifies this`lazyBarriers
      ensures r == (if b.sType == STYPE_BUFFER_MEMORY_BARRIER && b.payload.buffer != NULL_HANDLE then 0 else 1)
      ensures lazyBarriers == if r == 0 then old(lazyBarriers).(buf := old(lazyBarriers).buf + [b])
                              else old(lazyBarriers)
    {
      if b.sType != STYPE_BUFFER_MEMORY_BARRIER {
        return 1;
      }
      if b.payload.buffer == NULL_HANDLE {
        return 1;
      }
      lazyBarriers := lazyBarriers.(buf := lazyBarriers.buf + [b]);
      r := 0;
    }

    /** barrier(VkMemoryBarrier): check and queue; nothing is emitted. */
    method BarrierMemory(b: MemoryBarrier) returns (r: int)
      modifies this`lazyBarriers
      ensures r == (if b.sType == STYPE_MEMORY_BARRIER then 0 else 1)
      ensures lazyBarriers == if r == 0 then old(lazyBarriers).(mem := old(lazyBarriers).mem + [b])
                              else old(lazyBarriers)
    {
      if b.sType != STYPE_MEMORY_BARRIER {
        return 1;
      }
      lazyBarriers := lazyBarriers.(mem := lazyBarriers.mem + [b]);
      r := 0;
    }

    /** setViewport(RenderPass): every pipeline's viewports, concatenated in
      * pipeline order, set starting at viewport 0. */
    method SetViewportForPass(pipelines: seq<PipelineInfo>) returns (r: int)
      modifies this`lazyBarriers, this`emitted
      ensures var f := FlushOf(old(lazyBarriers), vk, trimSrcStage, trimDstStage);
        lazyBarriers == f.after &&
        (if f.code == 1 then r == 1 && emitted == old(emitted)
        else r == 0 && emitted == old(emitted) + f.cmds + [SetViewport(0, Concat(ViewportLists(pipelines)))])
    {
      var viewports: seq<Viewport> := [];
      var i := 0;
      while i < |pipelines|
        invariant 0 <= i <= |pipelines|
        invariant viewports == Concat(ViewportLists(pipelines)[..i])
      {
        assert ViewportLists(pipelines)[..i + 1][..i] == ViewportLists(pipelines)[..i];
        viewports := viewports + pipelines[i].viewports;
        i := i + 1;
      }
      assert ViewportLists(pipelines)[..i] == ViewportLists(pipelines);
      r := Record(SetViewport(0, viewports));
    }

    /** setScissor(RenderPass): the same for scissors. */
    method SetScissorForPass(pipelines: seq<PipelineInfo>) returns (r: int)
      modifies this`lazyBarriers, this`emitted
      ensures var f := FlushOf(old(lazyBarriers), vk, trimSrcStage, trimDstStage);
        lazyBarriers == f.after &&
        (if f.code == 1 then r == 1 && emitted == old(emitted)
        else r == 0 && emitted == old(emitted) + f.cmds + [SetScissor(0, Concat(ScissorLists(pipelines)))])
    {
      var scissors: seq<Rect2D> := [];
      var i := 0;
      while i < |pipelines|
        invariant 0 <= i <= |pipelines|
        invariant scissors == Concat(ScissorLists(pipelines)[..i])
      {
        assert ScissorLists(pipelines)[..i + 1][..i] == ScissorLists(pipelines)[..i];
        scissors := scissors + pipelines[i].scissors;
        i := i + 1;
      }
      assert ScissorLists(pipelines)[..i] == ScissorLists(pipelines);
      r := Record(SetScissor(0, scissors));
    }
  }
}
