// The science layer: convenience builders on top of the memory and command
// layers. ImageCopies fills a list of VkImageCopy regions, one per mip
// level; SmartCommandBuffer borrows a one-time command buffer and may submit
// it from its destructor; PipeBuilder adds its pipeline to a render pass at
// most once and collects vertex inputs; CommandPoolContainer rebuilds the
// render pass, swapchain and framebuffers when the window is resized.
// Every driver call whose result the code checks is an oracle: a parameter
// saying whether that step succeeds.

module Science {
  import opened VkTypes
  import opened Wrappers
  import Structs
  import Images
  import CommandBuffers
  import Swapchain

  // ---------------------------------------------------------------------
  // ImageCopies

  /** The part of VkImageSubresourceLayers that addColor and setMipLevel
    * write. */
  datatype SubresourceLayers = SubresourceLayers(aspectMask: Flags, mipLevel: u32)

  datatype ImageCopy = ImageCopy(
    srcSubresource: SubresourceLayers, srcOffset: Offset3D,
    dstSubresource: SubresourceLayers, dstOffset: Offset3D, extent: Extent3D)

  function Pow2(n: nat): (p: nat)
    ensures p >= 1
  {
    if n == 0 then 1 else 2 * Pow2(n - 1)
  }

  /** `x >> n` on a uint32_t; a shift by 32 or more is undefined in C++. */
  function Shr32(x: u32, n: nat): u32
    requires n < 32
  {
    DivFloor(x, Pow2(n))
  }

  /** Division of naturals rounding down; the quotient never exceeds the
    * dividend. */
  function DivFloor(x: nat, d: nat): (q: nat)
    requires d >= 1
    ensures q <= x
  {
    DivAtMost(x, d);
    x / d
  }

  /** The region that addSrcAtMipLevel(src, m) appends: colour aspect, level
    * m of the source, level 0 of the destination, zero offsets, and the
    * source extent with width and height shifted right by m. */
  function MipRegion(extent: Extent3D, m: nat): ImageCopy
    requires m < 32
  {
    ImageCopy(SubresourceLayers(ASPECT_COLOR, m), Offset3D(0, 0, 0),
              SubresourceLayers(ASPECT_COLOR, 0), Offset3D(0, 0, 0),
              Extent3D(Shr32(extent.width, m), Shr32(extent.height, m), extent.depth))
  }

  /** The region addSrc leaves for level m: MipRegion with the destination
    * level set to m as well. */
  function LevelCopy(extent: Extent3D, m: nat): ImageCopy
    requires m < 32
  {
    var c := MipRegion(extent, m);
    c.(dstSubresource := c.dstSubresource.(mipLevel := m))
  }

  /** The regions addSrc appends for an image with n mip levels. */
  function MipChain(extent: Extent3D, n: nat): seq<ImageCopy>
    requires n <= 32
  {
    seq(n, m requires 0 <= m < n => LevelCopy(extent, m))
  }

  lemma MulAtLeast(k: int, d: int)
    requires k >= 1 && d > 0
    ensures k * d >= d
  {
    assert k * d == (k - 1) * d + d;
  }

  lemma DivAtMost(x: nat, d: nat)
    requires d >= 1
    ensures x / d <= x
  {
    var q, r := x / d, x % d;
    assert x == q * d + r;
    if q >= 1 {
      MulAtLeast(d, q);
      assert q * d == d * q;
    }
  }

  lemma DivUnique(x: int, d: int, a: int, s: int)
    requires d > 0 && x == a * d + s && 0 <= s < d
    ensures x / d == a
  {
    var q, r := x / d, x % d;
    assert x == q * d + r;
    if q > a {
      assert (q - a) * d == s - r;
      MulAtLeast(q - a, d);
      assert false;
    } else if q < a {
      assert (a - q) * d == r - s;
      MulAtLeast(a - q, d);
      assert false;
    }
  }

  lemma DivDiv(x: nat, p: nat)
    requires p >= 1
    ensures x / (2 * p) == x / p / 2
  {
    var q, r := x / p, x % p;
    var a, b := q / 2, q % 2;
    assert x == q * p + r;
    assert q == 2 * a + b;
    assert q * p == a * (2 * p) + b * p by {
      assert (2 * a + b) * p == a * (2 * p) + b * p;
    }
    assert 0 <= b * p <= p;
    DivUnique(x, 2 * p, a, b * p + r);
  }

  /** Every region of the chain copies level m of the source into level m of
    * the destination, colour aspect only, at zero offsets; level 0 copies
    * the whole source extent and the depth never changes. */
  lemma MipChainLevels(extent: Extent3D, n: nat, m: nat)
    requires m < n <= 32
    ensures var c := MipChain(extent, n)[m];
      c.srcSubresource == SubresourceLayers(ASPECT_COLOR, m) &&
      c.dstSubresource == SubresourceLayers(ASPECT_COLOR, m) &&
      c.srcOffset == Offset3D(0, 0, 0) && c.dstOffset == Offset3D(0, 0, 0) &&
      c.extent.depth == extent.depth &&
      c.extent.width <= extent.width && c.extent.height <= extent.height &&
      (m == 0 ==> c.extent == extent)
  {
  }

  /** Each level's width and height are half (rounded down) of the level
    * above it. */
  lemma {:induction false} MipChainHalves(extent: Extent3D, n: nat, m: nat)
    requires m + 1 < n <= 32
    ensures var c := MipChain(extent, n);
      c[m + 1].extent.width == c[m].extent.width / 2 &&
      c[m + 1].extent.height == c[m].extent.height / 2 &&
      c[m + 1].extent.depth == c[m].extent.depth
  {
    assert Pow2(m + 1) == 2 * Pow2(m);
    DivDiv(extent.width, Pow2(m));
    DivDiv(extent.height, Pow2(m));
  }

  /** ImageCopies is a std::vector<VkImageCopy>. */
  class ImageCopies {
    var regions: seq<ImageCopy>

    constructor ()
      ensures regions == []
    {
      regions := [];
    }

    /** Appends the region for mip level m of src. */
    method AddSrcAtMipLevel(src: Images.Image, m: nat)
      requires m < 32
      modifies this
      ensures regions == old(regions) + [MipRegion(src.info.extent, m)]
    {
      regions := regions + [MipRegion(src.info.extent, m)];
    }

    /** Appends one region per mip level of src, in increasing level order,
      * each copying level m to level m. */
    method AddSrc(src: Images.Image)
      requires src.info.mipLevels <= 32
      modifies this
      ensures regions == old(regions) + MipChain(src.info.extent, src.info.mipLevels)
    {
      var mipLevel := 0;
      while mipLevel < src.info.mipLevels
        invariant 0 <= mipLevel <= src.info.mipLevels
        invariant regions == old(regions) + MipChain(src.info.extent, mipLevel)
      {
        AddSrcAtMipLevel(src, mipLevel);
        var last := regions[|regions| - 1];
        regions := regions[|regions| - 1 := last.(dstSubresource := last.dstSubresource.(mipLevel := mipLevel))];
        assert MipChain(src.info.extent, mipLevel + 1)
            == MipChain(src.info.extent, mipLevel) + [LevelCopy(src.info.extent, mipLevel)];
        mipLevel := mipLevel + 1;
      }
    }
  }

  // ---------------------------------------------------------------------
  // SmartCommandBuffer

  /** The calls ~SmartCommandBuffer makes whose failure reaches logF. */
  datatype DtorStep = End | Submit(poolQindex: nat) | Unborrow(buffer: Handle) | WaitIdle(poolQindex: nat)

  /** The calls made before vk is set to VK_NULL_HANDLE. */
  function DtorRelease(want: bool, success: bool, vk: Handle, q: nat): seq<DtorStep> {
    (if want then [End, Submit(q)] else []) + (if success then [Unborrow(vk)] else [])
  }

  /** Every call of the destructor, in order. */
  function DtorChain(want: bool, success: bool, vk: Handle, q: nat): seq<DtorStep> {
    DtorRelease(want, success, vk, q) + (if want then [WaitIdle(q)] else [])
  }

  /** A buffer that asked for auto-submit was borrowed successfully, so the
    * destructor ends and submits it, gives it back to the pool and then
    * waits for the queue, in that order; without auto-submit it only gives
    * it back, and only if it was borrowed. */
  lemma DtorChainOrder(want: bool, success: bool, vk: Handle, q: nat)
    requires want ==> success
    ensures want ==> DtorChain(want, success, vk, q) == [End, Submit(q), Unborrow(vk), WaitIdle(q)]
    ensures !want ==> DtorChain(want, success, vk, q) == if success then [Unborrow(vk)] else []
    ensures (Unborrow(vk) in DtorChain(want, success, vk, q)) <==> success
  {
  }

  class SmartCommandBuffer {
    const base: CommandBuffers.CommandBuffer
    const poolQindex: nat
    var ctorErrorSuccess: bool
    var wantAutoSubmit: bool

    /** autoSubmit succeeds only after ctorError did. */
    ghost predicate Valid()
      reads this
    {
      wantAutoSubmit ==> ctorErrorSuccess
    }

    constructor (cmd: CommandBuffers.CommandBuffer, poolQindex: nat)
      ensures base == cmd && this.poolQindex == poolQindex
      ensures !ctorErrorSuccess && !wantAutoSubmit && Valid()
    {
      base := cmd;
      this.poolQindex := poolQindex;
      ctorErrorSuccess := false;
      wantAutoSubmit := false;
    }

    /** The move constructor moves the command buffer and copies the queue
      * index and both flags. */
    constructor Move(other: SmartCommandBuffer, moved: CommandBuffers.CommandBuffer)
      requires moved.vk == other.base.vk
      ensures base == moved && poolQindex == other.poolQindex
      ensures ctorErrorSuccess == other.ctorErrorSuccess && wantAutoSubmit == other.wantAutoSubmit
      ensures other.Valid() ==> Valid()
    {
      base := moved;
      poolQindex := other.poolQindex;
      ctorErrorSuccess := other.ctorErrorSuccess;
      wantAutoSubmit := other.wantAutoSubmit;
    }

    /** Borrows a one-time buffer from the pool (`borrowed`, VK_NULL_HANDLE
      * when the pool has none) and begins it (`beginOk`). */
    method CtorError(borrowed: Handle, beginOk: bool) returns (r: int)
      modifies base`vk, this`ctorErrorSuccess
      ensures base.vk == borrowed
      ensures r in {0, 1} && (r == 0 <==> borrowed != NULL_HANDLE && beginOk)
      ensures ctorErrorSuccess == (r == 0 || old(ctorErrorSuccess))
      ensures old(Valid()) ==> Valid()
    {
      base.vk := borrowed;
      if base.vk == NULL_HANDLE {
        return 1;
      }
      if !beginOk {
        return 1;
      }
      ctorErrorSuccess := true;
      return 0;
    }

    method AutoSubmit() returns (r: int)
      modifies this`wantAutoSubmit
      ensures r in {0, 1} && (r == 0 <==> ctorErrorSuccess)
      ensures wantAutoSubmit == (r == 0 || old(wantAutoSubmit))
      ensures old(Valid()) ==> Valid()
    {
      if !ctorErrorSuccess {
        return 1;
      }
      wantAutoSubmit := true;
      return 0;
    }

    /** ~SmartCommandBuffer. `steps` are the calls it makes; the first one
      * that fails ends the process through logF (Exited). The handle is
      * nulled once every call before the queue wait succeeded. */
    method Destroy(ok: DtorStep -> bool) returns (s: Status, steps: seq<DtorStep>)
      modifies base`vk
      ensures steps == Attempted(DtorChain(wantAutoSubmit, ctorErrorSuccess, old(base.vk), poolQindex), ok)
      ensures s == if AllOk(DtorChain(wantAutoSubmit, ctorErrorSuccess, old(base.vk), poolQindex), ok)
        then Returned(0) else Exited
      ensures AllOk(DtorRelease(wantAutoSubmit, ctorErrorSuccess, old(base.vk), poolQindex), ok) ==>
        base.vk == NULL_HANDLE
      ensures !AllOk(DtorRelease(wantAutoSubmit, ctorErrorSuccess, old(base.vk), poolQindex), ok) ==>
        base.vk == old(base.vk)
    {
      ghost var release := DtorRelease(wantAutoSubmit, ctorErrorSuccess, base.vk, poolQindex);
      ghost var chain := DtorChain(wantAutoSubmit, ctorErrorSuccess, base.vk, poolQindex);
      steps := [];
      if wantAutoSubmit {
        assert IsPrefix([End], chain);
        if !ok(End) {
          AttemptedAtFailure(chain, [], End, ok);
          assert release[0] == End;
          return Exited, [End];
        }
        steps := [End];
        assert IsPrefix([End, Submit(poolQindex)], chain);
        if !ok(Submit(poolQindex)) {
          AttemptedAtFailure(chain, [End], Submit(poolQindex), ok);
          assert release[1] == Submit(poolQindex);
          return Exited, [End, Submit(poolQindex)];
        }
        steps := [End, Submit(poolQindex)];
      }
      assert steps + (if ctorErrorSuccess then [Unborrow(base.vk)] else []) == release;
      if ctorErrorSuccess {
        var x := Unborrow(base.vk);
        assert IsPrefix(steps + [x], chain);
        if !ok(x) {
          AttemptedAtFailure(chain, steps, x, ok);
          assert release[|steps|] == x;
          return Exited, steps + [x];
        }
        steps := steps + [x];
      }
      assert steps == release;
      base.vk := NULL_HANDLE;
      if wantAutoSubmit {
        var x := WaitIdle(poolQindex);
        assert steps + [x] == chain;
        if !ok(x) {
          AttemptedAtFailure(chain, steps, x, ok);
          return Exited, steps + [x];
        }
        steps := steps + [x];
      }
      assert steps == chain;
      AttemptedAllOk(chain, ok);
      s := Returned(0);
    }
  }

  // ---------------------------------------------------------------------
  // PipeBuilder

  /** The two colour-blend states PipelineCreateInfo provides:
    * withDisabledAlpha() and withEnabledAlpha(). */
  datatype BlendState = DisabledAlpha | EnabledAlpha

  const ATTACHMENT_LOAD_OP_LOAD: int := 0
  const ATTACHMENT_LOAD_OP_CLEAR: int := 1
  const VERTEX_INPUT_RATE_VERTEX: int := 0

  /** The VkAttachmentDescription fields of a PipelineAttachment. */
  datatype Attachment = Attachment(format: int, loadOp: int, storeOp: int, initialLayout: int, finalLayout: int)

  datatype VertexBinding = VertexBinding(binding: u32, stride: u32, inputRate: int)
  datatype VertexAttribute = VertexAttribute(location: u32, binding: u32, format: int, offset: u32)

  /** A command::Pipeline, reduced to the parts of its PipelineCreateInfo
    * that PipeBuilder writes. */
  class Pipeline {
    var vertexBindingDescriptionCount: u32
    var vertexAttributeDescriptionCount: u32
    var perFramebufColorBlend: seq<BlendState>
    var attach: seq<Attachment>

    /** PipelineCreateInfo(dev) gives the initial blend states and
      * attachments. */
    constructor (blend: seq<BlendState>, attachments: seq<Attachment>)
      ensures perFramebufColorBlend == blend && attach == attachments
      ensures vertexBindingDescriptionCount == 0 && vertexAttributeDescriptionCount == 0
    {
      perFramebufColorBlend := blend;
      attach := attachments;
      vertexBindingDescriptionCount := 0;
      vertexAttributeDescriptionCount := 0;
    }
  }

  class RenderPass {
    var pipelines: seq<Pipeline>

    constructor ()
      ensures pipelines == []
    {
      pipelines := [];
    }

    /** RenderPass::addPipeline appends a new pipeline and returns it. */
    method AddPipeline(blend: seq<BlendState>, attachments: seq<Attachment>) returns (p: Pipeline)
      modifies this`pipelines
      ensures fresh(p) && pipelines == old(pipelines) + [p]
      ensures p.perFramebufColorBlend == blend && p.attach == attachments
      ensures p.vertexBindingDescriptionCount == 0 && p.vertexAttributeDescriptionCount == 0
    {
      p := new Pipeline(blend, attachments);
      pipelines := pipelines + [p];
    }
  }

  class PipeBuilder {
    const pass: RenderPass
    var pipe: Option<Pipeline>
    var vertexInputs: seq<VertexBinding>
    var attributeInputs: seq<VertexAttribute>

    /** The pipeline, once made, belongs to the render pass. */
    ghost predicate Valid()
      reads this, pass
    {
      pipe.Some? ==> pipe.value in pass.pipelines
    }

    constructor (pass: RenderPass)
      ensures this.pass == pass && pipe == None && vertexInputs == [] && attributeInputs == []
      ensures Valid()
    {
      this.pass := pass;
      pipe := None;
      vertexInputs := [];
      attributeInputs := [];
    }

    /** Adds a pipeline to the render pass only when there is none yet; a
      * second call changes nothing. */
    method AddPipelineOnce(blend: seq<BlendState>, attachments: seq<Attachment>)
      modifies this`pipe, pass`pipelines
      ensures pipe.Some?
      ensures old(pipe).Some? ==> pipe == old(pipe) && pass.pipelines == old(pass.pipelines)
      ensures old(pipe).None? ==>
        fresh(pipe.value) && pass.pipelines == old(pass.pipelines) + [pipe.value] &&
        pipe.value.perFramebufColorBlend == blend && pipe.value.attach == attachments &&
        pipe.value.vertexBindingDescriptionCount == 0 && pipe.value.vertexAttributeDescriptionCount == 0
      ensures old(Valid()) ==> Valid()
    {
      if pipe.None? {
        var p := pass.AddPipeline(blend, attachments);
        pipe := Some(p);
      }
    }

    /** info(): the pipeline's create info, making the pipeline first. */
    method Info(blend: seq<BlendState>, attachments: seq<Attachment>) returns (p: Pipeline)
      modifies this`pipe, pass`pipelines
      ensures pipe == Some(p)
      ensures old(pipe).Some? ==> p == old(pipe).value && pass.pipelines == old(pass.pipelines)
      ensures old(pipe).None? ==>
        fresh(p) && pass.pipelines == old(pass.pipelines) + [p] &&
        p.perFramebufColorBlend == blend && p.attach == attachments &&
        p.vertexBindingDescriptionCount == 0 && p.vertexAttributeDescriptionCount == 0
      ensures old(Valid()) ==> Valid()
    {
      AddPipelineOnce(blend, attachments);
      p := pipe.value;
    }

    /** addDepthImage: Pipeline::addDepthImage is not part of this model;
      * `depthOk` says whether it succeeds. */
    method AddDepthImage(formatChoices: seq<int>, blend: seq<BlendState>, attachments: seq<Attachment>,
                         depthOk: bool) returns (r: int)
      modifies this`pipe, pass`pipelines
      ensures r == if depthOk then 0 else 1
      ensures pipe.Some? && (old(pipe).Some? ==> pipe == old(pipe) && pass.pipelines == old(pass.pipelines))
      ensures old(pipe).None? ==> fresh(pipe.value) && pass.pipelines == old(pass.pipelines) + [pipe.value]
      ensures old(Valid()) ==> Valid()
    {
      AddPipelineOnce(blend, attachments);
      r := if depthOk then 0 else 1;
    }

    /** Appends one binding of the given stride (size_t nBytes stored in a
      * uint32_t) and all the attributes, and sets both counts of the
      * pipeline to the new list lengths (also as uint32_t). */
    method AddVertexInputBySize(binding: u32, nBytes: u64, typeAttributes: seq<VertexAttribute>,
                                blend: seq<BlendState>, attachments: seq<Attachment>) returns (r: int)
      modifies this, pass`pipelines, if pipe.Some? then {pipe.value} else {}
      ensures r == 0
      ensures vertexInputs == old(vertexInputs) + [VertexBinding(binding, nBytes % U32_LIMIT, VERTEX_INPUT_RATE_VERTEX)]
      ensures attributeInputs == old(attributeInputs) + typeAttributes
      ensures pipe.Some? && (old(pipe).Some? ==> pipe == old(pipe))
      ensures pipe.value.vertexBindingDescriptionCount == |vertexInputs| % U32_LIMIT
      ensures pipe.value.vertexAttributeDescriptionCount == |attributeInputs| % U32_LIMIT
      ensures old(pipe).Some? ==>
        pass.pipelines == old(pass.pipelines) &&
        pipe.value.perFramebufColorBlend == old(pipe.value.perFramebufColorBlend) && pipe.value.attach == old(pipe.value.attach)
      ensures old(pipe).None? ==>
        fresh(pipe.value) && pass.pipelines == old(pass.pipelines) + [pipe.value] &&
        pipe.value.perFramebufColorBlend == blend && pipe.value.attach == attachments
      ensures old(Valid()) ==> Valid()
    {
      vertexInputs := vertexInputs + [VertexBinding(binding, nBytes % U32_LIMIT, VERTEX_INPUT_RATE_VERTEX)];
      var pinfo := Info(blend, attachments);
      pinfo.vertexBindingDescriptionCount := |vertexInputs| % U32_LIMIT;
      attributeInputs := attributeInputs + typeAttributes;
      pinfo.vertexAttributeDescriptionCount := |attributeInputs| % U32_LIMIT;
      r := 0;
    }

    /** Makes the pipeline blend over what an earlier pass drew: blend state
      * 0 becomes enabled alpha (`at(0)` throws, ending the process, when
      * there is none), every attachment loads instead of clearing, and a
      * depth image is added when the device has a depth format. */
    method AlphaBlendWithPreviousPass(depthFormat: int, depthOk: bool,
                                      blend: seq<BlendState>, attachments: seq<Attachment>) returns (s: Status)
      modifies this, pass`pipelines, if pipe.Some? then {pipe.value} else {}
      ensures pipe.Some? && (old(pipe).Some? ==> pipe == old(pipe))
      ensures var before := if old(pipe).Some? then old(pipe.value.perFramebufColorBlend) else blend;
        (s.Exited? <==> before == []) &&
        (!s.Exited? ==> pipe.value.perFramebufColorBlend == before[0 := EnabledAlpha])
      ensures var before := if old(pipe).Some? then old(pipe.value.attach) else attachments;
        !s.Exited? ==>
          |pipe.value.attach| == |before| &&
          forall k :: 0 <= k < |before| ==> pipe.value.attach[k] == before[k].(loadOp := ATTACHMENT_LOAD_OP_LOAD)
      ensures !s.Exited? ==> (s.code == 1 <==> depthFormat != FORMAT_UNDEFINED && !depthOk) && s.code in {0, 1}
      ensures old(pipe).Some? ==> pass.pipelines == old(pass.pipelines)
      ensures old(pipe).None? ==> fresh(pipe.value) && pass.pipelines == old(pass.pipelines) + [pipe.value]
      ensures vertexInputs == old(vertexInputs) && attributeInputs == old(attributeInputs)
      ensures pipe.value.vertexBindingDescriptionCount ==
                (if old(pipe).Some? then old(pipe.value.vertexBindingDescriptionCount) else 0) &&
              pipe.value.vertexAttributeDescriptionCount ==
                (if old(pipe).Some? then old(pipe.value.vertexAttributeDescriptionCount) else 0)
      ensures old(Valid()) ==> Valid()
    {
      var pipeInfo := Info(blend, attachments);
      if pipeInfo.perFramebufColorBlend == [] {
        return Exited;
      }
      pipeInfo.perFramebufColorBlend := pipeInfo.perFramebufColorBlend[0 := EnabledAlpha];
      ghost var before := pipeInfo.attach;
      ghost var blended := pipeInfo.perFramebufColorBlend;
      ghost var bindings, attributes := pipeInfo.vertexBindingDescriptionCount, pipeInfo.vertexAttributeDescriptionCount;
      var i := 0;
      while i < |pipeInfo.attach|
        invariant 0 <= i <= |pipeInfo.attach| == |before|
        invariant forall k :: 0 <= k < i ==> pipeInfo.attach[k] == before[k].(loadOp := ATTACHMENT_LOAD_OP_LOAD)
        invariant forall k :: i <= k < |before| ==> pipeInfo.attach[k] == before[k]
        invariant pipe == Some(pipeInfo) && pipeInfo.perFramebufColorBlend == blended
        invariant pipeInfo.vertexBindingDescriptionCount == bindings
        invariant pipeInfo.vertexAttributeDescriptionCount == attributes
        modifies pipeInfo
      {
        pipeInfo.attach := pipeInfo.attach[i := pipeInfo.attach[i].(loadOp := ATTACHMENT_LOAD_OP_LOAD)];
        i := i + 1;
      }
      if depthFormat != FORMAT_UNDEFINED {
        var r := AddDepthImage([depthFormat], blend, attachments, depthOk);
        if r != 0 {
          return Returned(1);
        }
      }
      return Returned(0);
    }
  }

  // ---------------------------------------------------------------------
  // CommandPoolContainer

  /** The calls onResized makes that can fail; Listener(l, i) is listener l
    * called for framebuf i. */
  datatype ResizeStep = CreatePass | DeviceWaitIdle | ResetSwapChain(poolQindex: nat)
                      | FramebufCtor(i: nat) | Listener(l: nat, i: nat)

  function FramebufSteps(n: nat): seq<ResizeStep> {
    seq(n, i requires 0 <= i < n => FramebufCtor(i))
  }

  function ListenerRow(l: nat, n: nat): seq<ResizeStep> {
    seq(n, i requires 0 <= i < n => Listener(l, i))
  }

  /** Listeners 0 .. count-1, each called for every framebuf in turn. */
  function ListenerSteps(count: nat, n: nat): seq<ResizeStep> {
    if count == 0 then [] else ListenerSteps(count - 1, n) + ListenerRow(count - 1, n)
  }

  /** Every call of onResized, in order: the render pass only when it is not
    * made yet, the device wait and the swapchain reset, each framebuf, then
    * each listener for each framebuf. */
  function ResizeChain(needPass: bool, q: nat, n: nat, listeners: nat): seq<ResizeStep> {
    (if needPass then [CreatePass] else []) + [DeviceWaitIdle, ResetSwapChain(q)]
      + FramebufSteps(n) + ListenerSteps(listeners, n)
  }

  /** What onResized reaches, step by step: the render pass (when it is
    * made here) and, if that succeeds, the device wait, the swapchain reset
    * and then the framebuf and listener loops. */
  lemma ResizeChainReached(needPass: bool, q: nat, n: nat, listeners: nat, ok: ResizeStep -> bool)
    ensures var chain := ResizeChain(needPass, q, n, listeners);
      needPass && !ok(CreatePass) ==> Attempted(chain, ok) == [CreatePass] && !AllOk(chain, ok)
    ensures var chain := ResizeChain(needPass, q, n, listeners);
      var pre: seq<ResizeStep> := if needPass then [CreatePass] else [];
      var tail := FramebufSteps(n) + ListenerSteps(listeners, n);
      !needPass || ok(CreatePass) ==>
        Attempted(chain, ok) ==
          pre + (if !ok(DeviceWaitIdle) then [DeviceWaitIdle]
                 else if !ok(ResetSwapChain(q)) then [DeviceWaitIdle, ResetSwapChain(q)]
                 else [DeviceWaitIdle, ResetSwapChain(q)] + Attempted(tail, ok)) &&
        (AllOk(chain, ok) <==> ok(DeviceWaitIdle) && ok(ResetSwapChain(q)) && AllOk(tail, ok))
  {
    var tail := FramebufSteps(n) + ListenerSteps(listeners, n);
    var rest := [DeviceWaitIdle, ResetSwapChain(q)] + tail;
    var pre: seq<ResizeStep> := if needPass then [CreatePass] else [];
    assert ResizeChain(needPass, q, n, listeners) == pre + rest;
    AllOkAppend(pre, rest, ok);
    if needPass {
      AttemptedCons(CreatePass, rest, ok);
    }
    if !needPass || ok(CreatePass) {
      AttemptedAppend(pre, rest, ok);
      SwapchainStepsReached(q, tail, ok);
    }
  }

  /** The device wait, then the swapchain reset, then the rest. */
  lemma SwapchainStepsReached(q: nat, tail: seq<ResizeStep>, ok: ResizeStep -> bool)
    ensures Attempted([DeviceWaitIdle, ResetSwapChain(q)] + tail, ok) ==
      if !ok(DeviceWaitIdle) then [DeviceWaitIdle]
      else if !ok(ResetSwapChain(q)) then [DeviceWaitIdle, ResetSwapChain(q)]
      else [DeviceWaitIdle, ResetSwapChain(q)] + Attempted(tail, ok)
    ensures AllOk([DeviceWaitIdle, ResetSwapChain(q)] + tail, ok) <==>
      ok(DeviceWaitIdle) && ok(ResetSwapChain(q)) && AllOk(tail, ok)
  {
    var chain, after := [DeviceWaitIdle, ResetSwapChain(q)] + tail, [ResetSwapChain(q)] + tail;
    assert chain[0] == DeviceWaitIdle && chain[1..] == after;
    assert after[0] == ResetSwapChain(q) && after[1..] == tail;
    assert Attempted(chain, ok) == if !ok(DeviceWaitIdle) then [DeviceWaitIdle] else [DeviceWaitIdle] + Attempted(after, ok);
    assert Attempted(after, ok) == if !ok(ResetSwapChain(q)) then [ResetSwapChain(q)] else [ResetSwapChain(q)] + Attempted(tail, ok);
    assert [DeviceWaitIdle] + ([ResetSwapChain(q)] + Attempted(tail, ok)) == [DeviceWaitIdle, ResetSwapChain(q)] + Attempted(tail, ok);
    assert chain == [DeviceWaitIdle] + after;
    AllOkAppend([DeviceWaitIdle], after, ok);
    AllOkAppend([ResetSwapChain(q)], tail, ok);
  }

  lemma FramebufStepsGrow(i: nat, n: nat)
    requires i < n
    ensures FramebufSteps(i) + [FramebufCtor(i)] == FramebufSteps(i + 1)
    ensures IsPrefix(FramebufSteps(i + 1), FramebufSteps(n))
  {
    assert FramebufSteps(n)[..i + 1] == FramebufSteps(i + 1);
  }

  lemma ListenerRowGrow(l: nat, j: nat, n: nat)
    requires j < n
    ensures ListenerRow(l, j) + [Listener(l, j)] == ListenerRow(l, j + 1)
    ensures IsPrefix(ListenerRow(l, j + 1), ListenerRow(l, n))
  {
    assert ListenerRow(l, n)[..j + 1] == ListenerRow(l, j + 1);
  }

  /** After listeners 0 .. l-1 have all succeeded, what the listener loop
    * reaches is their calls followed by what listener l reaches, when
    * listener l fails; when it succeeds, listeners 0 .. l have all
    * succeeded. */
  lemma ListenerRowReached(l: nat, count: nat, n: nat, ok: ResizeStep -> bool)
    requires l < count && AllOk(ListenerSteps(l, n), ok)
    ensures AllOk(ListenerRow(l, n), ok) ==> AllOk(ListenerSteps(l + 1, n), ok)
    ensures !AllOk(ListenerRow(l, n), ok) ==>
      Attempted(ListenerSteps(count, n), ok) == ListenerSteps(l, n) + Attempted(ListenerRow(l, n), ok) &&
      !AllOk(ListenerSteps(count, n), ok)
  {
    var done, row := ListenerSteps(l, n), ListenerRow(l, n);
    ListenerStepsPrefix(l + 1, count, n);
    var whole := ListenerSteps(count, n);
    var rest := whole[|ListenerSteps(l + 1, n)|..];
    assert whole == done + (row + rest) by {
      assert whole == ListenerSteps(l + 1, n) + rest;
    }
    AllOkAppend(done, row, ok);
    if !AllOk(row, ok) {
      AttemptedAppend(done, row + rest, ok);
      AttemptedFailsEarly(row, rest, ok);
      AllOkAppend(row, rest, ok);
      AllOkAppend(done, row + rest, ok);
    }
  }

  lemma {:induction false} ListenerStepsPrefix(l: nat, count: nat, n: nat)
    requires l <= count
    ensures IsPrefix(ListenerSteps(l, n), ListenerSteps(count, n))
    decreases count
  {
    if l < count {
      ListenerStepsPrefix(l, count - 1, n);
      assert IsPrefix(ListenerSteps(count - 1, n), ListenerSteps(count, n)) by {
        var a, b := ListenerSteps(count - 1, n), ListenerRow(count - 1, n);
        assert (a + b)[..|a|] == a;
      }
      IsPrefixTrans(ListenerSteps(l, n), ListenerSteps(count - 1, n), ListenerSteps(count, n));
    }
  }

  /** Whether resetSwapChain gets past its capability query to a usable
    * extent: the query succeeds and the window is not minimized. */
  predicate ExtentChosen(caps: Option<Swapchain.SurfaceCapabilities>, newSize: Extent2D) {
    caps.Some? && Swapchain.SurfaceExtent2D(caps.value, newSize).Chosen?
  }

  /** The calls of onResized with the swapchain reset failing also where its
    * capability query fails or the window is minimized. */
  function WithCapabilities(ok: ResizeStep -> bool, caps: Option<Swapchain.SurfaceCapabilities>, newSize: Extent2D)
    : (okr: ResizeStep -> bool)
    ensures forall s: ResizeStep :: okr(s) ==> ok(s)
    ensures forall s: ResizeStep :: !s.ResetSwapChain? ==> (okr(s) <==> ok(s))
    ensures forall q :: okr(ResetSwapChain(q)) <==> ok(ResetSwapChain(q)) && ExtentChosen(caps, newSize)
  {
    s => ok(s) && (!s.ResetSwapChain? || ExtentChosen(caps, newSize))
  }

  class CommandPoolContainer {
    /** cpool.queueFamily. */
    var queueFamily: int
    /** pass.vk. */
    var passVk: Handle
    var prevSize: Extent2D
    /** dev.swapChainInfo.imageExtent. */
    var imageExtent: Extent2D
    /** The number of resizeFramebufListeners. */
    var listeners: nat

    /** The pool defaults to the GRAPHICS queue family. */
    constructor (imageExtent: Extent2D)
      ensures queueFamily == Structs.SUPPORT_GRAPHICS
      ensures passVk == NULL_HANDLE && listeners == 0 && this.imageExtent == imageExtent
    {
      queueFamily := Structs.SUPPORT_GRAPHICS;
      passVk := NULL_HANDLE;
      prevSize := Extent2D(0, 0);
      this.imageExtent := imageExtent;
      listeners := 0;
    }

    /** onResized. `created` is the pass handle RenderPass::ctorError
      * installs, `caps` what the surface-capabilities query at the start of
      * resetSwapChain answers (None when it fails), `framebufs` the number
      * of framebufs after the swapchain reset, and `ok` which of the other
      * calls succeed. `steps` are the calls made: all of them up to the first
      * failure, which returns 1. */
    method OnResized(newSize: Extent2D, poolQindex: nat, created: Handle, caps: Option<Swapchain.SurfaceCapabilities>,
                     framebufs: nat, ok: ResizeStep -> bool) returns (r: int, steps: seq<ResizeStep>)
      modifies this
      ensures steps == Attempted(ResizeChain(old(passVk) == NULL_HANDLE, poolQindex, framebufs, listeners),
                                 WithCapabilities(ok, caps, newSize))
      ensures r in {0, 1}
      ensures r == 0 <==> AllOk(ResizeChain(old(passVk) == NULL_HANDLE, poolQindex, framebufs, listeners),
                                WithCapabilities(ok, caps, newSize))
      ensures listeners == old(listeners) && queueFamily == old(queueFamily)
      ensures old(passVk) == NULL_HANDLE && !ok(CreatePass) ==>
        passVk == old(passVk) && prevSize == old(prevSize) && imageExtent == old(imageExtent)
      ensures old(passVk) != NULL_HANDLE || ok(CreatePass) ==>
        prevSize == old(imageExtent) &&
        imageExtent == (if ok(DeviceWaitIdle) && ExtentChosen(caps, newSize)
                        then Swapchain.SurfaceExtent2D(caps.value, newSize).extent else newSize) &&
        passVk == (if old(passVk) == NULL_HANDLE then created else old(passVk))
    {
      var okr := WithCapabilities(ok, caps, newSize);
      ResizeChainReached(passVk == NULL_HANDLE, poolQindex, framebufs, listeners, okr);
      steps := [];
      if passVk == NULL_HANDLE {
        if !ok(CreatePass) {
          return 1, [CreatePass];
        }
        passVk := created;
        steps := [CreatePass];
      }
      prevSize := imageExtent;
      imageExtent := newSize;
      if !ok(DeviceWaitIdle) {
        return 1, steps + [DeviceWaitIdle];
      }
      // resetSwapChain clamps the requested extent to the surface before
      // anything else can fail
      if ExtentChosen(caps, newSize) {
        imageExtent := Swapchain.SurfaceExtent2D(caps.value, newSize).extent;
      }
      if !okr(ResetSwapChain(poolQindex)) {
        return 1, steps + [DeviceWaitIdle, ResetSwapChain(poolQindex)];
      }
      var tsteps;
      r, tsteps := RebuildAndNotify(framebufs, listeners, okr);
      steps := steps + ([DeviceWaitIdle, ResetSwapChain(poolQindex)] + tsteps);
    }

    /** The two loops of onResized: every framebuf is rebuilt, then every
      * listener is called for every framebuf, until a call fails. */
    static method RebuildAndNotify(n: nat, count: nat, ok: ResizeStep -> bool) returns (r: int, steps: seq<ResizeStep>)
      ensures steps == Attempted(FramebufSteps(n) + ListenerSteps(count, n), ok)
      ensures r in {0, 1} && (r == 0 <==> AllOk(FramebufSteps(n) + ListenerSteps(count, n), ok))
    {
      AllOkAppend(FramebufSteps(n), ListenerSteps(count, n), ok);
      var fsteps;
      r, fsteps := RebuildFramebufs(n, ok);
      if r != 0 {
        AttemptedFailsEarly(FramebufSteps(n), ListenerSteps(count, n), ok);
        return 1, fsteps;
      }
      AttemptedAllOk(FramebufSteps(n), ok);
      AttemptedAppend(FramebufSteps(n), ListenerSteps(count, n), ok);
      var lsteps;
      r, lsteps := NotifyListeners(count, n, ok);
      steps := fsteps + lsteps;
    }

    /** The framebuf loop of onResized: framebuf i is rebuilt for i = 0, 1,
      * ... until one fails. */
    static method RebuildFramebufs(n: nat, ok: ResizeStep -> bool) returns (r: int, steps: seq<ResizeStep>)
      ensures steps == Attempted(FramebufSteps(n), ok)
      ensures r in {0, 1} && (r == 0 <==> AllOk(FramebufSteps(n), ok))
    {
      steps := [];
      var i := 0;
      while i < n
        invariant 0 <= i <= n
        invariant steps == FramebufSteps(i)
        invariant AllOk(steps, ok)
      {
        FramebufStepsGrow(i, n);
        if !ok(FramebufCtor(i)) {
          AttemptedAtFailure(FramebufSteps(n), steps, FramebufCtor(i), ok);
          return 1, steps + [FramebufCtor(i)];
        }
        steps := steps + [FramebufCtor(i)];
        i := i + 1;
      }
      AttemptedAllOk(steps, ok);
      r := 0;
    }

    /** One listener called for every framebuf in turn until a call fails. */
    static method NotifyListener(l: nat, n: nat, ok: ResizeStep -> bool) returns (r: int, steps: seq<ResizeStep>)
      ensures steps == Attempted(ListenerRow(l, n), ok)
      ensures r in {0, 1} && (r == 0 <==> AllOk(ListenerRow(l, n), ok))
    {
      steps := [];
      var i := 0;
      while i < n
        invariant 0 <= i <= n
        invariant steps == ListenerRow(l, i)
        invariant AllOk(steps, ok)
      {
        ListenerRowGrow(l, i, n);
        if !ok(Listener(l, i)) {
          AttemptedAtFailure(ListenerRow(l, n), steps, Listener(l, i), ok);
          return 1, steps + [Listener(l, i)];
        }
        steps := steps + [Listener(l, i)];
        i := i + 1;
      }
      AttemptedAllOk(steps, ok);
      r := 0;
    }

    /** The listener loop of onResized: every listener, in order, for every
      * framebuf, until a call fails. */
    static method NotifyListeners(count: nat, n: nat, ok: ResizeStep -> bool) returns (r: int, steps: seq<ResizeStep>)
      ensures steps == Attempted(ListenerSteps(count, n), ok)
      ensures r in {0, 1} && (r == 0 <==> AllOk(ListenerSteps(count, n), ok))
    {
      steps := [];
      var l := 0;
      while l < count
        invariant 0 <= l <= count
        invariant steps == ListenerSteps(l, n)
        invariant AllOk(steps, ok)
      {
        var lr, row := NotifyListener(l, n, ok);
        ListenerRowReached(l, count, n, ok);
        if lr != 0 {
          return 1, steps + row;
        }
        AttemptedAllOk(ListenerRow(l, n), ok);
        steps := steps + row;
        l := l + 1;
      }
      AttemptedAllOk(steps, ok);
      r := 0;
    }
  }
}
