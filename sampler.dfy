// memory::Sampler: a VkSampler together with the Image it samples and that
// image's ImageView, and the two ways of filling the image, from another
// Image or from a Buffer, by commands recorded on a CommandBuffer.
//
// The steps after the image is created and bound (creating the view,
// recording a layout transition, recording the copy) go to code that is not
// part of this model; whether each succeeds is the parameter ok. A
// transition that is recorded moves the image's currentLayout to its target
// layout, as the Sampler declaration in memory.h documents.

module Samplers {
  import opened VkTypes
  import opened Wrappers
  import opened Memory
  import opened Images
  import opened Buffers

  /** The steps a Sampler constructor chains with ||, after the checks. */
  datatype Step =
    | CreateView            // imageView.ctorError(dev, image.vk, image.info.format)
    | SrcToTransferSrc      // buffer.barrier(src, TRANSFER_SRC_OPTIMAL)
    | ToTransferDst         // buffer.barrier(image, TRANSFER_DST_OPTIMAL)
    | CopyImage             // buffer.copyImage(src, image, ImageCopies(src, image))
    | CopyBufferToImage     // buffer.copyImage(src, image, regions)
    | ToShaderRead          // buffer.barrier(image, SHADER_READ_ONLY_OPTIMAL)

  /** The order of the steps when the source is an Image. */
  const IMAGE_STEPS: seq<Step> := [CreateView, SrcToTransferSrc, ToTransferDst, CopyImage, ToShaderRead]
  /** The order of the steps when the source is a Buffer. */
  const BUFFER_STEPS: seq<Step> := [CreateView, ToTransferDst, CopyBufferToImage, ToShaderRead]

  class Sampler {
    const image: Image
    /** imageView.vk and imageView.info.subresourceRange. */
    var viewVk: Handle
    var viewRange: ImageSubresourceRange
    var vk: Handle

    /** Sampler(dev): the image and its view belong to dev. The
      * VkSamplerCreateInfo defaults are floating point and not modelled. */
    constructor (dev: nat)
      ensures fresh(image) && fresh(image.mem) && image.mem.dev == dev
      ensures image.info == DefaultImageInfo() && image.vk == NULL_HANDLE
      ensures viewVk == NULL_HANDLE && vk == NULL_HANDLE
    {
      image := new Image(dev);
      viewVk := NULL_HANDLE;
      viewRange := ImageSubresourceRange(0, 0, 0, 0, 0);
      vk := NULL_HANDLE;
    }

    /** toDescriptor: the VkDescriptorImageInfo naming this sampler, its view
      * and the image's current layout. */
    function ToDescriptor(): (d: DescriptorImageInfo)
      reads this, image
    {
      DescriptorImageInfo(vk, viewVk, image.currentLayout)
    }

    /** ctorExisting: vkCreateSampler again with the current info. */
    method CtorExisting(samplerCreated: Option<Handle>) returns (r: int)
      modifies this`vk
      ensures r == 0 <==> samplerCreated.Some?
      ensures vk == (if samplerCreated.Some? then samplerCreated.value else NULL_HANDLE)
    {
      vk := NULL_HANDLE;
      if samplerCreated.None? {
        return 1;
      }
      vk := samplerCreated.value;
      return 0;
    }

    /** The steps after the image is bound, when the source is an Image:
      * attempted in order until one fails. */
    method RunImageSteps(src: Image, ok: Step -> bool, view: Handle) returns (r: int, tried: seq<Step>)
      requires src != image
      modifies this`viewVk, src`currentLayout, image`currentLayout
      ensures tried == Attempted(IMAGE_STEPS, ok)
      ensures r in {0, 1} && (r == 0 <==> AllOk(IMAGE_STEPS, ok))
      ensures ok(CreateView) ==> viewVk == view
      ensures !ok(CreateView) ==> viewVk == old(viewVk)
      ensures src.currentLayout == (if ok(CreateView) && ok(SrcToTransferSrc) then LAYOUT_TRANSFER_SRC_OPTIMAL else old(src.currentLayout))
      ensures r == 0 ==> image.currentLayout == LAYOUT_SHADER_READ_ONLY_OPTIMAL
      ensures !(ok(CreateView) && ok(SrcToTransferSrc) && ok(ToTransferDst)) ==> image.currentLayout == old(image.currentLayout)
    {
      tried := [CreateView];
      if !ok(CreateView) {
        return 1, tried;
      }
      viewVk := view;
      tried := tried + [SrcToTransferSrc];
      if !ok(SrcToTransferSrc) {
        return 1, tried;
      }
      src.currentLayout := LAYOUT_TRANSFER_SRC_OPTIMAL;
      tried := tried + [ToTransferDst];
      if !ok(ToTransferDst) {
        return 1, tried;
      }
      image.currentLayout := LAYOUT_TRANSFER_DST_OPTIMAL;
      tried := tried + [CopyImage];
      if !ok(CopyImage) {
        return 1, tried;
      }
      tried := tried + [ToShaderRead];
      if !ok(ToShaderRead) {
        return 1, tried;
      }
      image.currentLayout := LAYOUT_SHADER_READ_ONLY_OPTIMAL;
      r := 0;
    }

    /** The steps after the image is bound, when the source is a Buffer. */
    method RunBufferSteps(ok: Step -> bool, view: Handle) returns (r: int, tried: seq<Step>)
      modifies this`viewVk, image`currentLayout
      ensures tried == Attempted(BUFFER_STEPS, ok)
      ensures r in {0, 1} && (r == 0 <==> AllOk(BUFFER_STEPS, ok))
      ensures ok(CreateView) ==> viewVk == view
      ensures !ok(CreateView) ==> viewVk == old(viewVk)
      ensures r == 0 ==> image.currentLayout == LAYOUT_SHADER_READ_ONLY_OPTIMAL
      ensures !(ok(CreateView) && ok(ToTransferDst)) ==> image.currentLayout == old(image.currentLayout)
    {
      tried := [CreateView];
      if !ok(CreateView) {
        return 1, tried;
      }
      viewVk := view;
      tried := tried + [ToTransferDst];
      if !ok(ToTransferDst) {
        return 1, tried;
      }
      image.currentLayout := LAYOUT_TRANSFER_DST_OPTIMAL;
      tried := tried + [CopyBufferToImage];
      if !ok(CopyBufferToImage) {
        return 1, tried;
      }
      tried := tried + [ToShaderRead];
      if !ok(ToShaderRead) {
        return 1, tried;
      }
      image.currentLayout := LAYOUT_SHADER_READ_ONLY_OPTIMAL;
      r := 0;
    }

    /** ctorError(CommandBuffer&, Image& src): one device for the command
      * buffer (bufferDev), src and image, or nothing happens; then the
      * sampler is created; image takes src's extent, format and mip count,
      * starts UNDEFINED and is used only as a transfer destination and for
      * sampling; the view covers all of src; then the image is created,
      * bound, and the steps of IMAGE_STEPS are attempted. */
    method CtorFromImage(bufferDev: nat, src: Image, traits: FormatTraits, samplerCreated: Option<Handle>,
                         replies: Replies, query: ImageSubresource -> SubresourceLayout, boundOk: bool,
                         ok: Step -> bool, view: Handle) returns (r: int, tried: seq<Step>)
      requires src != image
      modifies this`vk, this`viewVk, this`viewRange, src`currentLayout
      modifies image`info, image`vk, image`currentLayout, image`colorMem, image`depthMem, image`stencilMem, image.mem`vmaAlloc
      ensures r in {0, 1}
      ensures bufferDev != src.mem.dev || image.mem.dev != src.mem.dev ==>
        r == 1 && tried == [] && vk == old(vk) && image.info == old(image.info) && image.vk == old(image.vk)
      ensures bufferDev == src.mem.dev && image.mem.dev == src.mem.dev && samplerCreated.None? ==>
        r == 1 && tried == [] && vk == NULL_HANDLE && image.info == old(image.info)
      ensures bufferDev == src.mem.dev && image.mem.dev == src.mem.dev && samplerCreated.Some? ==>
        vk == samplerCreated.value &&
        image.info == old(image.info).(extent := old(src.info).extent, format := old(src.info).format,
                                       mipLevels := old(src.info).mipLevels, initialLayout := LAYOUT_UNDEFINED,
                                       usage := USAGE_TRANSFER_DST | IMAGE_USAGE_SAMPLED) &&
        viewRange == SubresourceRange(traits, old(src.info))
      ensures r == 0 <==>
        bufferDev == src.mem.dev && image.mem.dev == src.mem.dev && samplerCreated.Some? &&
        ImageInfoComplete(image.info) && replies.created.Some? && replies.created.value != NULL_HANDLE &&
        replies.allocatorReady && replies.allocation.Some? && boundOk && AllOk(IMAGE_STEPS, ok)
      ensures tried != [] ==> tried == Attempted(IMAGE_STEPS, ok)
      ensures r == 0 ==> image.currentLayout == LAYOUT_SHADER_READ_ONLY_OPTIMAL &&
                         src.currentLayout == LAYOUT_TRANSFER_SRC_OPTIMAL && viewVk == view
    {
      tried := [];
      if bufferDev != src.mem.dev || image.mem.dev != src.mem.dev {
        return 1, tried;
      }
      r := CtorExisting(samplerCreated);
      if r != 0 {
        return 1, tried;
      }
      image.info := image.info.(extent := src.info.extent, format := src.info.format,
                                mipLevels := src.info.mipLevels, initialLayout := LAYOUT_UNDEFINED,
                                usage := USAGE_TRANSFER_DST | IMAGE_USAGE_SAMPLED);
      viewRange := SubresourceRange(traits, src.info);
      r := image.CtorDeviceLocal(traits, replies, query);
      if r != 0 {
        return 1, tried;
      }
      r := image.BindMemory(0, boundOk);
      if r != 0 {
        return 1, tried;
      }
      r, tried := RunImageSteps(src, ok, view);
    }

    /** ctorError(CommandBuffer&, Buffer& src, regions): one device, or
      * nothing happens; then image.info must already have a nonzero extent,
      * format, mip count and layer count, and the view must cover every mip
      * level; then the sampler is created; image starts UNDEFINED with the
      * transfer-destination and sampled bits added to its usage; then the
      * image is created, bound, and the steps of BUFFER_STEPS are
      * attempted. */
    method CtorFromBuffer(bufferDev: nat, src: Buffer, traits: FormatTraits, samplerCreated: Option<Handle>,
                          replies: Replies, query: ImageSubresource -> SubresourceLayout, boundOk: bool,
                          ok: Step -> bool, view: Handle) returns (r: int, tried: seq<Step>)
      modifies this`vk, this`viewVk
      modifies image`info, image`vk, image`currentLayout, image`colorMem, image`depthMem, image`stencilMem, image.mem`vmaAlloc
      ensures r in {0, 1}
      ensures var i := old(image.info);
        var checked := bufferDev == src.mem.dev && image.mem.dev == src.mem.dev &&
                       i.extent.width != 0 && i.extent.height != 0 && i.extent.depth != 0 &&
                       i.format != 0 && i.mipLevels != 0 && i.arrayLayers != 0 && viewRange.levelCount == i.mipLevels;
        (!checked ==> r == 1 && tried == [] && vk == old(vk) && image.info == i && image.vk == old(image.vk)) &&
        (checked && samplerCreated.None? ==> r == 1 && tried == [] && vk == NULL_HANDLE && image.info == i) &&
        (checked && samplerCreated.Some? ==>
          vk == samplerCreated.value &&
          image.info == i.(initialLayout := LAYOUT_UNDEFINED, usage := i.usage | USAGE_TRANSFER_DST | IMAGE_USAGE_SAMPLED)) &&
        (r == 0 <==> checked && samplerCreated.Some? && replies.created.Some? && replies.created.value != NULL_HANDLE &&
                     replies.allocatorReady && replies.allocation.Some? && boundOk && AllOk(BUFFER_STEPS, ok))
      ensures tried != [] ==> tried == Attempted(BUFFER_STEPS, ok)
      ensures r == 0 ==> image.currentLayout == LAYOUT_SHADER_READ_ONLY_OPTIMAL && viewVk == view
    {
      tried := [];
      if bufferDev != src.mem.dev || image.mem.dev != src.mem.dev {
        return 1, tried;
      }
      if image.info.extent.width == 0 || image.info.extent.height == 0 || image.info.extent.depth == 0 ||
         image.info.format == 0 || image.info.mipLevels == 0 || image.info.arrayLayers == 0 {
        return 1, tried;
      }
      if viewRange.levelCount != image.info.mipLevels {
        return 1, tried;
      }
      r := CtorExisting(samplerCreated);
      if r != 0 {
        return 1, tried;
      }
      image.info := image.info.(initialLayout := LAYOUT_UNDEFINED,
                                usage := image.info.usage | USAGE_TRANSFER_DST | IMAGE_USAGE_SAMPLED);
      r := image.CtorDeviceLocal(traits, replies, query);
      if r != 0 {
        return 1, tried;
      }
      r := image.BindMemory(0, boundOk);
      if r != 0 {
        return 1, tried;
      }
      r, tried := RunBufferSteps(ok, view);
    }

    /** ctorError(CommandPool&, Image& src): the same on a SmartCommandBuffer
      * borrowed from the pool, whose ctorError() || autoSubmit() outcome is
      * smartReady. */
    method CtorFromImageViaPool(poolDev: nat, smartReady: bool, src: Image, traits: FormatTraits,
                                samplerCreated: Option<Handle>, replies: Replies,
                                query: ImageSubresource -> SubresourceLayout, boundOk: bool,
                                ok: Step -> bool, view: Handle) returns (r: int, tried: seq<Step>)
      requires src != image
      modifies this`vk, this`viewVk, this`viewRange, src`currentLayout
      modifies image`info, image`vk, image`currentLayout, image`colorMem, image`depthMem, image`stencilMem, image.mem`vmaAlloc
      ensures !smartReady ==> r == 1 && tried == [] && vk == old(vk) && image.info == old(image.info)
      ensures r == 0 <==>
        smartReady && poolDev == src.mem.dev && image.mem.dev == src.mem.dev && samplerCreated.Some? &&
        ImageInfoComplete(image.info) && replies.created.Some? && replies.created.value != NULL_HANDLE &&
        replies.allocatorReady && replies.allocation.Some? && boundOk && AllOk(IMAGE_STEPS, ok)
    {
      if !smartReady {
        return 1, [];
      }
      r, tried := CtorFromImage(poolDev, src, traits, samplerCreated, replies, query, boundOk, ok, view);
    }

    /** ctorError(CommandPool&, Buffer& src, regions). */
    method CtorFromBufferViaPool(poolDev: nat, smartReady: bool, src: Buffer, traits: FormatTraits,
                                 samplerCreated: Option<Handle>, replies: Replies,
                                 query: ImageSubresource -> SubresourceLayout, boundOk: bool,
                                 ok: Step -> bool, view: Handle) returns (r: int, tried: seq<Step>)
      modifies this`vk, this`viewVk
      modifies image`info, image`vk, image`currentLayout, image`colorMem, image`depthMem, image`stencilMem, image.mem`vmaAlloc
      ensures !smartReady ==> r == 1 && tried == [] && vk == old(vk) && image.info == old(image.info)
      ensures smartReady ==> tried != [] ==> tried == Attempted(BUFFER_STEPS, ok)
      ensures r == 0 ==> smartReady && image.currentLayout == LAYOUT_SHADER_READ_ONLY_OPTIMAL
      ensures r in {0, 1}
      ensures var i := old(image.info);
        r == 0 <==>
          smartReady && poolDev == src.mem.dev && image.mem.dev == src.mem.dev &&
          i.extent.width != 0 && i.extent.height != 0 && i.extent.depth != 0 &&
          i.format != 0 && i.mipLevels != 0 && i.arrayLayers != 0 && viewRange.levelCount == i.mipLevels &&
          samplerCreated.Some? && replies.created.Some? && replies.created.value != NULL_HANDLE &&
          replies.allocatorReady && replies.allocation.Some? && boundOk && AllOk(BUFFER_STEPS, ok)
    {
      if !smartReady {
        return 1, [];
      }
      r, tried := CtorFromBuffer(poolDev, src, traits, samplerCreated, replies, query, boundOk, ok, view);
    }
  }
}
