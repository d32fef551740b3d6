// The pending barrier set of a command buffer (CommandBuffer::BarrierSet) and
// the pure specification of what validating and flushing it does.
//
// A barrier is modelled by a header shared by the three Vulkan barrier
// structs (sType and the two access masks) and a payload specific to each:
// nothing for VkMemoryBarrier, the buffer fields for VkBufferMemoryBarrier
// and the image fields for VkImageMemoryBarrier.

module BarrierSets {
  import opened VkTypes

  datatype Barrier<P> = Barrier(sType: int, srcAccessMask: Flags, dstAccessMask: Flags, payload: P)

  datatype BufferPart = BufferPart(
    srcQueueFamilyIndex: u32, dstQueueFamilyIndex: u32,
    buffer: Handle, offset: u64, size: u64)

  datatype ImagePart = ImagePart(
    oldLayout: int, newLayout: int,
    srcQueueFamilyIndex: u32, dstQueueFamilyIndex: u32,
    image: Handle, subresourceRange: ImageSubresourceRange)

  type MemoryBarrier = Barrier<()>
  type BufferMemoryBarrier = Barrier<BufferPart>
  type ImageMemoryBarrier = Barrier<ImagePart>

  /** trimSrcStage / trimDstStage: (access, stage) to the rewritten
    * (access, stage). Their bodies are not part of this model, so the
    * command buffer carries them as uninterpreted functions. */
  type Trim = (Flags, Flags) -> (Flags, Flags)

  datatype BarrierSet = BarrierSet(
    mem: seq<MemoryBarrier>,
    buf: seq<BufferMemoryBarrier>,
    img: seq<ImageMemoryBarrier>,
    srcStageMask: Flags,
    dstStageMask: Flags)

  /** BarrierSet::reset, which the BarrierSet constructor also runs. */
  function ResetSet(): (b: BarrierSet)
    ensures b.mem == [] && b.buf == [] && b.img == []
    ensures b.srcStageMask == STAGE_TOP_OF_PIPE && b.dstStageMask == STAGE_ALL_COMMANDS
  {
    BarrierSet([], [], [], STAGE_TOP_OF_PIPE, STAGE_ALL_COMMANDS)
  }

  predicate IsEmpty(b: BarrierSet) {
    b.mem == [] && b.buf == [] && b.img == []
  }

  /** The handle tests of validateLazyBarriers: a memory barrier has no
    * handle, the other two must name a non-null buffer or image. */
  predicate MemHandleSet(p: ()) { true }
  predicate BufHandleSet(p: BufferPart) { p.buffer != NULL_HANDLE }
  predicate ImgHandleSet(p: ImagePart) { p.image != NULL_HANDLE }

  predicate Acceptable<P>(b: Barrier<P>, sType: int, handleSet: P -> bool) {
    b.sType == sType && handleSet(b.payload)
  }

  predicate AllAcceptable<P>(xs: seq<Barrier<P>>, sType: int, handleSet: P -> bool) {
    forall i :: 0 <= i < |xs| ==> Acceptable(xs[i], sType, handleSet)
  }

  /** Index of the first barrier that fails its list's checks, or |xs|. */
  function FirstUnacceptable<P>(xs: seq<Barrier<P>>, sType: int, handleSet: P -> bool): (k: nat)
    ensures k <= |xs|
    ensures AllAcceptable(xs[..k], sType, handleSet)
    ensures k < |xs| ==> !Acceptable(xs[k], sType, handleSet)
    ensures k == |xs| <==> AllAcceptable(xs, sType, handleSet)
    decreases |xs|
  {
    if xs == [] then 0
    else if !Acceptable(xs[0], sType, handleSet) then 0
    else
      var k := 1 + FirstUnacceptable(xs[1..], sType, handleSet);
      assert xs[..k] == [xs[0]] + xs[1..][..k - 1];
      k
  }

  datatype Trimmed<P> = Trimmed(ok: bool, barriers: seq<Barrier<P>>, srcStageMask: Flags, dstStageMask: Flags)

  /** One pass of validateLazyBarriers over one list: each barrier is checked
    * and, if acceptable, its access masks and the set's stage masks are
    * rewritten by the trim functions. The pass stops at the first
    * unacceptable barrier, leaving it and the rest of the list as they were. */
  function TrimList<P>(xs: seq<Barrier<P>>, sType: int, handleSet: P -> bool,
                       src: Flags, dst: Flags, trimSrc: Trim, trimDst: Trim): (r: Trimmed<P>)
    ensures |r.barriers| == |xs|
    ensures r.ok <==> AllAcceptable(xs, sType, handleSet)
    decreases |xs|
  {
    if xs == [] then Trimmed(true, [], src, dst)
    else if !Acceptable(xs[0], sType, handleSet) then Trimmed(false, xs, src, dst)
    else
      var s := trimSrc(xs[0].srcAccessMask, src);
      var d := trimDst(xs[0].dstAccessMask, dst);
      var head := xs[0].(srcAccessMask := s.0, dstAccessMask := d.0);
      var rest := TrimList(xs[1..], sType, handleSet, s.1, d.1, trimSrc, trimDst);
      Trimmed(rest.ok, [head] + rest.barriers, rest.srcStageMask, rest.dstStageMask)
  }

  /** A trim result with an already-processed prefix put in front. */
  function Prepend<P>(pre: seq<Barrier<P>>, t: Trimmed<P>): (r: Trimmed<P>)
    ensures |r.barriers| == |pre| + |t.barriers|
    ensures r.barriers[..|pre|] == pre && r.barriers[|pre|..] == t.barriers
  {
    t.(barriers := pre + t.barriers)
  }

  lemma PrependPrepend<P>(a: seq<Barrier<P>>, b: seq<Barrier<P>>, t: Trimmed<P>)
    ensures Prepend(a, Prepend(b, t)) == Prepend(a + b, t)
  {
    assert a + (b + t.barriers) == (a + b) + t.barriers;
  }

  /** One step of the trim pass, as the loop of validateLazyBarriers takes it. */
  lemma TrimListStep<P>(xs: seq<Barrier<P>>, sType: int, handleSet: P -> bool,
                        src: Flags, dst: Flags, trimSrc: Trim, trimDst: Trim)
    requires xs != []
    ensures var r := TrimList(xs, sType, handleSet, src, dst, trimSrc, trimDst);
      if !Acceptable(xs[0], sType, handleSet) then r == Trimmed(false, xs, src, dst)
      else
        var s := trimSrc(xs[0].srcAccessMask, src);
        var d := trimDst(xs[0].dstAccessMask, dst);
        var rest := TrimList(xs[1..], sType, handleSet, s.1, d.1, trimSrc, trimDst);
        r == Trimmed(rest.ok, [xs[0].(srcAccessMask := s.0, dstAccessMask := d.0)] + rest.barriers,
                     rest.srcStageMask, rest.dstStageMask)
  {
  }

  /** The trim pass only rewrites access masks: the type tag and the payload
    * (handles, ranges, layouts) of every barrier are kept. */
  lemma {:induction false} TrimListKeepsPayload<P>(xs: seq<Barrier<P>>, sType: int, handleSet: P -> bool,
                                                  src: Flags, dst: Flags, trimSrc: Trim, trimDst: Trim, i: nat)
    requires i < |xs|
    ensures var r := TrimList(xs, sType, handleSet, src, dst, trimSrc, trimDst);
      r.barriers[i].sType == xs[i].sType && r.barriers[i].payload == xs[i].payload
    decreases |xs|
  {
    if i > 0 && Acceptable(xs[0], sType, handleSet) {
      var s := trimSrc(xs[0].srcAccessMask, src);
      var d := trimDst(xs[0].dstAccessMask, dst);
      TrimListKeepsPayload(xs[1..], sType, handleSet, s.1, d.1, trimSrc, trimDst, i - 1);
    }
  }

  /** On a failed pass the first unacceptable barrier and everything after it
    * are left untouched. */
  lemma {:induction false} TrimListStopsAtFirstUnacceptable<P>(xs: seq<Barrier<P>>, sType: int, handleSet: P -> bool,
                                                              src: Flags, dst: Flags, trimSrc: Trim, trimDst: Trim)
    ensures var k := FirstUnacceptable(xs, sType, handleSet);
      TrimList(xs, sType, handleSet, src, dst, trimSrc, trimDst).barriers[k..] == xs[k..]
    decreases |xs|
  {
    if xs != [] && Acceptable(xs[0], sType, handleSet) {
      var s := trimSrc(xs[0].srcAccessMask, src);
      var d := trimDst(xs[0].dstAccessMask, dst);
      var head := xs[0].(srcAccessMask := s.0, dstAccessMask := d.0);
      var rest := TrimList(xs[1..], sType, handleSet, s.1, d.1, trimSrc, trimDst);
      TrimListStopsAtFirstUnacceptable(xs[1..], sType, handleSet, s.1, d.1, trimSrc, trimDst);
      var k := FirstUnacceptable(xs[1..], sType, handleSet);
      assert ([head] + rest.barriers)[k + 1..] == rest.barriers[k..];
      assert xs[k + 1..] == xs[1..][k..];
    }
  }

  /** Outcome of validateLazyBarriers: the returned code (1 error, 2 nothing
    * pending, 0 pending and valid) and the barrier set as the passes left it. */
  datatype Validation = Validation(code: int, after: BarrierSet)

  function Validate(b: BarrierSet, vk: Handle, trimSrc: Trim, trimDst: Trim): (v: Validation)
    ensures v.code in {0, 1, 2}
    ensures v.code == 1 <==>
      !AllAcceptable(b.mem, STYPE_MEMORY_BARRIER, MemHandleSet) ||
      !AllAcceptable(b.buf, STYPE_BUFFER_MEMORY_BARRIER, BufHandleSet) ||
      !AllAcceptable(b.img, STYPE_IMAGE_MEMORY_BARRIER, ImgHandleSet) ||
      vk == NULL_HANDLE
    ensures v.code == 2 <==> IsEmpty(b) && vk != NULL_HANDLE
    ensures |v.after.mem| == |b.mem| && |v.after.buf| == |b.buf| && |v.after.img| == |b.img|
    ensures IsEmpty(b) ==> v.after == b
    // a failed memory pass keeps the stage masks it had trimmed so far
    ensures var m := TrimList(b.mem, STYPE_MEMORY_BARRIER, MemHandleSet, b.srcStageMask, b.dstStageMask, trimSrc, trimDst);
      v.after.mem == m.barriers &&
      (!m.ok ==> v.after.buf == b.buf && v.after.img == b.img &&
                 v.after.srcStageMask == m.srcStageMask && v.after.dstStageMask == m.dstStageMask)
  {
    var m := TrimList(b.mem, STYPE_MEMORY_BARRIER, MemHandleSet, b.srcStageMask, b.dstStageMask, trimSrc, trimDst);
    if !m.ok then Validation(1, BarrierSet(m.barriers, b.buf, b.img, m.srcStageMask, m.dstStageMask))
    else
      var u := TrimList(b.buf, STYPE_BUFFER_MEMORY_BARRIER, BufHandleSet, m.srcStageMask, m.dstStageMask, trimSrc, trimDst);
      if !u.ok then Validation(1, BarrierSet(m.barriers, u.barriers, b.img, u.srcStageMask, u.dstStageMask))
      else
        var g := TrimList(b.img, STYPE_IMAGE_MEMORY_BARRIER, ImgHandleSet, u.srcStageMask, u.dstStageMask, trimSrc, trimDst);
        var after := BarrierSet(m.barriers, u.barriers, g.barriers, g.srcStageMask, g.dstStageMask);
        if !g.ok || vk == NULL_HANDLE then Validation(1, after)
        else if IsEmpty(b) then Validation(2, after)
        else Validation(0, after)
  }
}
