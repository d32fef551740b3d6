# volcano core, modelled and verified in Dafny

volcano is a C++ layer over the Vulkan API. It has four layers:
- **language**: instance, device, queue families, extensions, surface and swapchain;
- **command**: command buffers, lazily batched barriers, render passes and pipelines;
- **memory**: buffers, images, samplers, device memory and descriptors;
- **science**: convenience builders over the other layers.

Three Python build helpers ship with it:
- `winpatch.py` rewrites vendored sources line by line for Windows builds;
- `sdk_info.py` reports the macOS SDK and Xcode settings;
- `midl_wrapper.py` runs the Microsoft IDL compiler with a captured environment and filters its output.

This project models the sequential core of these files. Vulkan and VMA calls are treated as driver events or as oracle parameters. Each driver call either appends an entry to a ghost log of recorded commands, or has its outcome passed in as an argument. Handles are opaque numbers, and 0 means null. Bit masks are `bv32` values whose constants match the Vulkan headers.

The Dafny modules follow the source files:

| module | file | models |
|---|---|---|
| `Wrappers`, `VkTypes` | `vk_types.dfy` | Option, Vulkan constants, and the early-return chain of 0/1 codes |
| `BarrierSets` | `barrier_set.dfy` | `CommandBuffer::BarrierSet` and the validation pass of `fence.cpp` |
| `CommandBuffers` | `command_buffer.dfy` | `CommandBuffer`: lazy barriers, flush before every command, submit, copies, render passes, viewports and scissors |
| `Structs` | `structs.dfy` | `QueueFamilyProperties`, `SurfaceSupport`, `FormatProperties` |
| `Reflection` | `reflection.dfy` | `VolcanoReflectionMap`, `DeviceFeatures`, `ImageFormatProperties` |
| `Queues` | `queues.dfy` | `supported_queues.cpp` |
| `Devices` | `device.dfy` | surface format, present mode and the `Device` constructor |
| `Swapchain` | `swapchain.dfy` | image count, extent, sharing mode and `resetSwapChain` |
| `Choose` | `choose.dfy` | extension and format choice |
| `Memory` | `memory.dfy` | `MemoryRequirements` and `DeviceMemory` |
| `Buffers` | `buffer.dfy` | `Buffer` and `UniformBuffer` |
| `Images` | `image.dfy` | `Image` |
| `Descriptors` | `descriptor.dfy` | pools, layouts, sets and descriptor writes |
| `Samplers` | `sampler.dfy` | `Sampler` construction |
| `Science` | `science.dfy` | the `ImageCopies`, `SmartCommandBuffer`, `PipeBuilder` and `CommandPoolContainer` builders |
| `Text` | `text.dfy` | Python string operations used by the scripts |
| `WinPatch`, `SdkInfo`, `MidlWrapper` | `winpatch.dfy`, `sdk_info.dfy`, `midl_wrapper.dfy` | the three build scripts |

Objects whose fields the C++ updates in place are classes. Their methods carry `modifies` clauses, and each `ensures` states the whole new state. Each such `ensures` ties the new state to a specification function, and lemmas about that function state what the source promises. Pure rules are functions with named results. Python functions that loop over lines or dictionaries are modelled as methods with loops, proved equal to the functions.

When a header and a `.cpp` file disagree, the model follows the `.cpp` body. There are four such cases:
- `science.h` declares `ImageCopies::add`, but `science.cpp` defines `addSrc` and `addSrcAtMipLevel`.
- `science.h` declares `alphaBlendWithPreviousPass(prevPipeInfo)`, but `science.cpp` defines it with no argument.
- `memory.h` declares the descriptor-pool types as a `multiset`, but `descriptor.cpp` takes a `vector`.
- `command.h`'s `addPipeline` returns a reference, but `science.h` stores a shared pointer.

`logF` ends the process outside Android. It is modelled as an outcome that ends the call (`Exited`, or no result). Nothing is executed: the properties are proved by the verifier.

## Model

| member | source | states |
|---|---|---|
| BarrierSets.ResetSet | src/command/command_buffer.h:553-562 | a reset BarrierSet has no memory, buffer or image barriers, source mask TOP_OF_PIPE and destination mask ALL_COMMANDS |
| BarrierSets.FirstUnacceptable | src/command/fence.cpp:61-95 | the index of the first pending barrier with the wrong sType or a null handle: every earlier one passes, that one fails, and it is the list's length exactly when all pass |
| BarrierSets.TrimList | src/command/fence.cpp:61-95 | one validation loop keeps the list's length and succeeds exactly when every barrier of the list passes its checks |
| BarrierSets.TrimListKeepsPayload | src/command/fence.cpp:67-68 | trimming rewrites only access masks: every barrier keeps its sType and its handles, ranges and layouts |
| BarrierSets.TrimListStopsAtFirstUnacceptable | src/command/fence.cpp:63-66 | a loop that fails returns at the first bad barrier and leaves it and every later barrier unchanged |
| BarrierSets.Validate | src/command/fence.cpp:58-101 | validateLazyBarriers returns 0, 1 or 2: 1 exactly when some list holds a bad barrier or the buffer is not allocated (even with nothing pending), 2 exactly when nothing is pending on an allocated buffer, in which case nothing changes; the lists keep their lengths; the memory list is trimmed first, and when that pass fails the buffer and image lists are untouched and the stage masks are the ones that pass trimmed |
| CommandBuffers.FlushOf | src/command/fence.cpp:103-119 | flushLazyBarriers returns 0 or 1: 1 exactly when validation fails, and then nothing is emitted and the lists and stage masks stay as validation left them, trimmed up to the failing barrier; with nothing pending on an allocated buffer it returns 0 and emits nothing; otherwise it emits one command and resets the set |
| CommandBuffers.FlushCarriesPending | src/command/fence.cpp:112-117 | the one pipeline barrier of a flush carries every pending memory, buffer and image barrier, in insertion order, with the stage masks that validation accumulated and only the barriers' access masks trimmed |
| CommandBuffers.FlushThenFlushIsNoop | src/command/fence.cpp:104-108 | after a flush that succeeds, a second flush returns 0, emits nothing and changes nothing |
| CommandBuffers.ConcatAt | src/command/command_buffer.h:729-746 | every viewport or scissor of every pipeline appears in the concatenation, after those of all earlier pipelines |
| CommandBuffers.ViewportLists | src/command/command_buffer.h:731-734 | one list of viewports per pipeline of the pass, in pipeline order |
| CommandBuffers.ScissorLists | src/command/command_buffer.h:741-744 | one list of scissors per pipeline of the pass, in pipeline order |
| CommandBuffers.CommandBuffer.constructor | src/command/command_buffer.h:47 | an empty command buffer has a null handle, a reset BarrierSet and has emitted nothing |
| CommandBuffers.CommandBuffer.Move | src/command/command_buffer.h:49-53 | the move constructor takes other's handle and nulls it there; the new buffer starts with a reset BarrierSet, and other keeps its pending barriers |
| CommandBuffers.CommandBuffer.TrimPass | src/command/fence.cpp:61-95 | each validation loop over one list computes TrimList of that list |
| CommandBuffers.CommandBuffer.ValidateLazyBarriers | src/command/fence.cpp:58-101 | the return code and the pending set afterwards are those of Validate, and nothing is emitted |
| CommandBuffers.CommandBuffer.FlushLazyBarriers | src/command/fence.cpp:103-119 | the return code, the pending set and the commands emitted are those of FlushOf |
| CommandBuffers.CommandBuffer.Record | src/command/command_buffer.h:173-179 | every recording command flushes first and records its own command only when the flush returns 0; a failed flush returns 1 and records nothing |
| CommandBuffers.CommandBuffer.RecordChecked | src/command/command_buffer.h:101-145 | reset, begin and end flush first, then return 0 or 1 according to the driver's result |
| CommandBuffers.CommandBuffer.RecordPair | src/command/command_buffer.h:406-425 | the second command of a pair joined by logical or runs only when the first returns 0, and its flush emits nothing |
| CommandBuffers.CommandBuffer.BindAndDraw16 | src/command/command_buffer.h:455-464 | binds the index buffer with 16-bit indices, then draws as many indices as the vector holds, narrowed to 32 bits; a failed barrier flush records nothing |
| CommandBuffers.CommandBuffer.BindAndDraw32 | src/command/command_buffer.h:465-475 | the same with 32-bit indices |
| CommandBuffers.CommandBuffer.Submit | src/command/command_buffer.h:70-96 | mismatched wait lists return 1 before any flush and change nothing; otherwise the flush runs first and its failure returns 1, else the pool's submit result is returned |
| CommandBuffers.CommandBuffer.CopyBufferRegions | src/command/command_buffer.h:190-200 | empty regions return 1 and change nothing; otherwise the copy is recorded after a successful flush |
| CommandBuffers.CommandBuffer.CopyBufferSize | src/command/command_buffer.h:201-205 | copies one region of the given size, at offset 0 in both buffers |
| CommandBuffers.CommandBuffer.BeginRenderPassInfo | src/command/command_buffer.h:325-335 | the flush comes first, so pending barriers are emitted even when a null framebuffer then returns 1 |
| CommandBuffers.CommandBuffer.BeginRenderPassFor | src/command/command_buffer.h:336-347 | the render area is the whole swapchain extent at offset (0, 0), with one clear value per clear colour of the pass |
| CommandBuffers.CommandBuffer.WaitBarrier | src/command/fence.cpp:121-129 | flushes the pending set first and then emits the caller's set unchanged; a failed flush emits nothing more and returns 1 |
| CommandBuffers.CommandBuffer.WaitEventsPending | src/command/fence.cpp:131-148 | emits the wait-events command carrying the pending barriers even when nothing is pending, then resets the set; a failed validation returns 1, emits nothing and leaves the set as Validate trimmed it, stage masks included |
| CommandBuffers.CommandBuffer.WaitEventsWith | src/command/command_buffer.h:588-596 | flushes, then waits on the events with the caller's set |
| CommandBuffers.CommandBuffer.BarrierBuffer | src/command/command_buffer.h:609-622 | returns 0 and appends the barrier to the buffer list exactly when its sType is right and its buffer is non-null; otherwise returns 1 and changes nothing; never emits |
| CommandBuffers.CommandBuffer.BarrierMemory | src/command/command_buffer.h:625-634 | returns 0 and appends the barrier to the memory list exactly when its sType is right; otherwise returns 1 and changes nothing; never emits |
| CommandBuffers.CommandBuffer.SetViewportForPass | src/command/command_buffer.h:729-736 | after the flush, sets all the pass's viewports, concatenated in pipeline order, from viewport 0 |
| CommandBuffers.CommandBuffer.SetScissorForPass | src/command/command_buffer.h:739-746 | after the flush, sets all the pass's scissors, concatenated in pipeline order, from scissor 0 |
| Descriptors.AcceptsDisjoint | src/memory/descriptor.cpp:111-122 | no descriptor type is accepted by two write overloads, and none accepts an input attachment |
| Descriptors.AcceptsCoversTypes | src/memory/descriptor.cpp:144-155 | every type from SAMPLER to STORAGE_BUFFER_DYNAMIC is accepted by the image, the buffer or the texel-view write |
| Descriptors.WriteCheckAsWritten | src/memory/descriptor.cpp:104-110 | the guard as written: the process ends exactly when the binding equals the number of bindings (types.at throws); otherwise the result is 0 or 1 |
| Descriptors.WriteCheck | src/memory/descriptor.cpp:101-132 | the check as intended: 0 exactly when the binding exists and its type is one the overload accepts, otherwise 1 |
| Descriptors.WriteCheckAsWrittenExitsAtEnd | src/memory/descriptor.cpp:104 | writing binding 1 of a one-binding set ends the process as written, and returns 1 as intended |
| Descriptors.WriteCheckAgrees | src/memory/descriptor.cpp:104-122 | at every other binding the guard as written and the intended check give the same result |
| Descriptors.WriteCheckOneKind | src/memory/descriptor.cpp:111-187 | at most one of the three overloads can write a given binding |
| Descriptors.OnePerTypeReservesCount | src/memory/descriptor.cpp:13-27 | with one pool size of one descriptor per requested type, the pool reserves for each type exactly as many descriptors as that type was requested |
| Descriptors.DescriptorPool.constructor | src/memory/memory.h:670-673 | a new pool belongs to its device and has no handle |
| Descriptors.DescriptorPool.CtorError | src/memory/descriptor.cpp:8-41 | the create info allows freeing sets, has maxSets and one pool size per requested type; 0 and the new handle exactly when the driver creates the pool, else 1 and no handle |
| Descriptors.DescriptorPool.Reset | src/memory/memory.h:688-696 | 0 when the driver resets the pool, else 1 |
| Descriptors.DescriptorSetLayout.constructor | src/memory/memory.h:708-711 | a new layout has no types and no handle |
| Descriptors.DescriptorSetLayout.CtorError | src/memory/descriptor.cpp:43-66 | types becomes the bindings' descriptor types in order, whether or not the driver then creates the layout; 0 and a handle exactly when it does |
| Descriptors.DescriptorSet.constructor | src/memory/memory.h:747 | a new set belongs to its pool and has no types |
| Descriptors.DescriptorSet.CtorError | src/memory/descriptor.cpp:77-99 | the set takes the layout's types, then returns 0 with the allocated handle exactly when allocation succeeds, else 1 |
| Descriptors.DescriptorSet.WriteFor | src/memory/descriptor.cpp:123-130 | the write sent names this set, the binding, the array element, the binding's type, and as many descriptors as were given |
| Descriptors.DescriptorSet.WriteImages | src/memory/descriptor.cpp:101-132 | returns the intended check's result and sends one write of the image infos exactly when it is 0 |
| Descriptors.DescriptorSet.WriteBufferInfos | src/memory/descriptor.cpp:134-165 | returns the intended check's result for buffer types and sends one write of the buffer infos exactly when it is 0 |
| Descriptors.DescriptorSet.WriteTexelViews | src/memory/descriptor.cpp:167-197 | returns the intended check's result for texel-buffer types and sends one write of the views exactly when it is 0 |
| Descriptors.DescriptorSet.WriteSamplers | src/memory/memory.h:767-776 | writes each sampler's descriptor (its layout, view and handle), in order, as image infos |
| Descriptors.DescriptorSet.WriteBuffers | src/memory/memory.h:779-792 | writes each buffer whole, from offset 0 for info.size bytes, in order, as buffer infos |
| Samplers.Sampler.constructor | src/memory/memory.h:549-571 | a new sampler's image belongs to the device and has the default image info and no handles |
| Samplers.Sampler.CtorExisting | src/memory/sampler.cpp:8-17 | 0 and the new handle exactly when the driver creates the sampler, else 1 and no handle |
| Samplers.Sampler.RunImageSteps | src/memory/sampler.cpp:45-50 | the steps are tried in source order until one fails; 0 exactly when all succeed; src moves to TRANSFER_SRC and the image ends in SHADER_READ_ONLY only after the steps that do so |
| Samplers.Sampler.RunBufferSteps | src/memory/sampler.cpp:94-98 | the same for the buffer form: tried in order until one fails, and the image ends in SHADER_READ_ONLY on success |
| Samplers.Sampler.CtorFromImage | src/memory/sampler.cpp:24-51 | more than one device returns 1 and changes nothing; a failed sampler creation returns 1 before the image is touched; otherwise the image takes src's extent, format and mip count, UNDEFINED layout, TRANSFER_DST and SAMPLED usage, the view covers src's whole range, and the steps run |
| Samplers.Sampler.CtorFromBuffer | src/memory/sampler.cpp:60-99 | more than one device, a zero extent, format, mip count or layer count, or a view that misses mip levels returns 1 and changes nothing; then the sampler is created and the usage gains TRANSFER_DST and SAMPLED before the steps run |
| Samplers.Sampler.CtorFromImageViaPool | src/memory/sampler.cpp:19-22 | when the temporary command buffer cannot be made ready, 1 and nothing tried; otherwise the command-buffer form's result |
| Samplers.Sampler.CtorFromBufferViaPool | src/memory/sampler.cpp:53-58 | 1 with nothing tried when the SmartCommandBuffer is not ready; 0 exactly when it is ready and the buffer form succeeds: same device, complete image info with a matching view level count, a sampler created, the image created, allocated and bound, and every step of the buffer upload succeeding, which leaves the image in SHADER_READ_ONLY_OPTIMAL |
| Buffers.DefaultBufferInfo | src/memory/memory.h:312-318 | a new buffer's create info is zeroed with EXCLUSIVE sharing and no queue families; size and usage are left to the caller |
| Buffers.FitsAsWrittenAdmitsOverrun | src/memory/buffer.cpp:154 | the bounds test as written, evaluated in 64-bit unsigned arithmetic, lets a 2-byte copy at offset 2^64-1 into a 16-byte buffer through, while the intended test refuses it |
| Buffers.FitsAgreesWithoutWrap | src/memory/buffer.cpp:154 | the test as written and the intended test agree whenever the sum does not wrap, and the intended one never admits more |
| Buffers.Written | src/memory/buffer.cpp:165 | the memcpy replaces exactly the bytes from dstOffset for the length of the source and keeps every other byte |
| Buffers.WrittenSameBytes | src/memory/buffer.cpp:165 | copying the bytes already there changes nothing |
| Buffers.DumpFromShape | src/memory/buffer.cpp:136-148 | once a name has been printed the dump ends with ")"; before that it prints nothing unless a later bit is set |
| Buffers.UsageDumpShape | src/memory/buffer.cpp:136-148 | the usage dump is empty exactly when no usage bit below bit 31 is set, and is otherwise enclosed in " (" and ")" |
| Buffers.DumpUsage | src/memory/buffer.cpp:135-148 | the bit loop builds exactly the usage dump (the bit-name suffix of the warning) |
| Buffers.Buffer.constructor | src/memory/memory.h:312-318 | a new buffer has the default create info, no handle and fresh memory on its device |
| Buffers.Buffer.ValidateBufferCreateInfo | src/memory/buffer.cpp:22-34 | 1 exactly when size or usage is zero, and then the info is unchanged; otherwise the queue families are recorded and a non-empty list makes sharing CONCURRENT |
| Buffers.Buffer.CtorWith | src/memory/buffer.cpp:36-56 | validation failure and driver failure each return 1; otherwise the result of allocating through the requirements |
| Buffers.Buffer.CtorError | src/memory/buffer.cpp:36-56 | 0 exactly when the info is complete, the driver creates the buffer and the allocation succeeds with props as the required flags |
| Buffers.Buffer.CtorErrorUsage | src/memory/buffer.cpp:58-71 | the same with a VMA usage instead of required flags |
| Buffers.Buffer.CtorDeviceLocal | src/memory/memory.h:348-352 | TRANSFER_DST is added to the caller's usage before creating device-local memory |
| Buffers.Buffer.CtorHost | src/memory/memory.h:354-368 | TRANSFER_SRC and TRANSFER_DST are added to the caller's usage before creating host-visible (and coherent) memory |
| Buffers.Buffer.BindMemory | src/memory/buffer.cpp:74-116 | a nonzero offset returns 1 before the driver is called; otherwise the bind result decides 0 or 1 |
| Buffers.Buffer.Reset | src/memory/buffer.cpp:118-125 | returns 0 with no buffer handle; the build without VMA also releases the device memory and its size |
| Buffers.Buffer.CopyFromHost | src/memory/buffer.cpp:127-168 | without the transfer-source bit, 1 and the usage dump as warning; 0 exactly when the bit is set, the bytes fit and the memory maps, and then the buffer holds the bytes written at dstOffset; on 1 the contents are unchanged |
| Buffers.Buffer.CopyTo | src/memory/memory.h:399-412 | when the source does not fit at dstOffset, 1 and nothing recorded; otherwise one region from the start of src to dstOffset, src.info.size bytes long, is recorded |
| Buffers.Buffer.CopyViaPool | src/memory/buffer.cpp:10-20 | a larger source or a temporary command buffer that cannot be made ready returns 1; otherwise the copy is recorded on it |
| Buffers.UniformBuffer.constructor | src/memory/memory.h:626 | a uniform buffer and its stage start with default create infos and no cached mapping |
| Buffers.UniformBuffer.CtorError | src/memory/memory.h:630-635 | both buffers get nBytes and UNIFORM usage; the four steps run in order until one fails, and 0 exactly when all succeed |
| Buffers.UniformBuffer.Copy | src/memory/memory.h:639-646 | the bytes are staged first; a refused stage returns 1 with nothing recorded; otherwise the outcome is CopyViaPool's for the whole stage: 1 with nothing recorded when the stage is larger than this buffer or the SmartCommandBuffer is not ready, else the pending barriers are flushed and, unless that flush fails with 1, one copy of the whole stage to offset 0 is recorded and 0 returned |
| Buffers.UniformBuffer.CopyAndKeepMmap | src/memory/buffer.cpp:170-199 | like copy, but the stage is mapped only when no mapping is cached yet, and that mapping is kept for later calls; the return code and the recorded commands are stated as for copy, with a cached mapping counting as a successful map |
| Memory.FirstQualifyingFrom | src/memory/memory.cpp:342-351 | the least memory type from i on that the requirement bits allow and that has every requested property, or -1 when there is none |
| Memory.MemoryTypeIndex | src/memory/memory.cpp:342-351 | indexOf: -1 exactly when no type below memoryTypeCount qualifies; otherwise the least qualifying index |
| Memory.MemoryTypeIndexFewerProps | src/memory/memory.cpp:353-356 | asking for a subset of the property flags never fails where the full set succeeds, and never lands on a later type |
| Memory.ImageAspectFor | src/memory/memory.cpp:302-313 | the aspect is kept only for a multiplane format created with the DISJOINT flag, and cleared otherwise |
| Memory.Retarget | src/memory/memory.cpp:232-234 | the ranges handed to the driver keep their offsets and sizes and all name this allocation |
| Memory.RetargetIdempotent | src/memory/memory.cpp:232-234 | retargeting twice is retargeting once |
| Memory.RetargetKeepsOwnRanges | src/memory/memory.cpp:219-234 | ranges that already name this allocation, as makeRange builds them, are flushed as given |
| Memory.DeviceMemory.constructor | src/memory/memory.h:63-71 | new device memory belongs to its device and has no allocation, mapping or contents |
| Memory.DeviceMemory.Alloc | src/memory/memory.cpp:28-108 | 0 exactly when the allocator exists or can be made, the request names a usage or required flags and exactly one of a buffer and an image, and VMA allocates; the allocation is kept only then |
| Memory.DeviceMemory.AllocDirect | src/memory/memory.cpp:192-205 | no qualifying memory type returns 1 with nothing allocated; otherwise the size is recorded and the driver's answer decides |
| Memory.DeviceMemory.MmapVma | src/memory/memory.cpp:121-137 | VMA maps the whole allocation, so on success the pointer returned is advanced by the offset |
| Memory.DeviceMemory.MmapDirect | src/memory/memory.cpp:207-217 | the driver applies the offset, and on success the pointer is remembered as mapped |
| Memory.DeviceMemory.Munmap | src/memory/memory.cpp:254-257 | nothing is mapped afterwards |
| Memory.DeviceMemory.MakeRange | src/memory/memory.cpp:219-225 | a fresh range over this memory at the given offset and size, which retargeting leaves as it is |
| Memory.DeviceMemory.Flush | src/memory/memory.cpp:227-242 | an empty list returns 1 and sends nothing; otherwise every range is pointed at this memory and sent, and the driver's answer decides |
| Memory.MemoryRequirements.constructor | src/memory/memory.h:485-495 | cleared requirements name no buffer and no image |
| Memory.MemoryRequirements.Request | src/memory/memory.cpp:81 | the VMA request carries the buffer, image, usage and required flags of the requirements |
| Memory.MemoryRequirements.GetImage | src/memory/memory.cpp:260-276 | records the image and clears the buffer and create info; a nonzero aspect then returns 1 |
| Memory.MemoryRequirements.GetImageOf | src/memory/memory.cpp:302-313 | returns 1 exactly when a nonzero aspect survives, which needs a multiplane format with the DISJOINT flag |
| Memory.MemoryRequirements.GetBuffer | src/memory/memory.cpp:315-321 | records the buffer, clears the image and create info, and returns 0 |
| Memory.MemoryRequirements.IndexOf | src/memory/memory.cpp:342-351 | the loop computes MemoryTypeIndex |
| Memory.MemoryRequirements.FindVkalloc | src/memory/memory.cpp:353-367 | on success the allocate info names the memory type indexOf chooses and the required size; when none qualifies, 1 and the allocate info unchanged |
| Images.DefaultImageInfo | src/memory/memory.h:169-188 | The constructor's create info: a zeroed struct made a 2D, one-level, one-layer, one-sample, OPTIMAL, EXCLUSIVE image that starts PREINITIALIZED, with extent, format and usage still zero |
| Images.DefaultImageInfoIncomplete | src/memory/image.cpp:9-14 | An image straight from its constructor fails validateImageCreateInfo until the caller sets extent, format and usage |
| Images.AllAspects | src/memory/image.cpp:161-184 | getAllAspects has each aspect bit exactly when the format has that aspect (color, depth, stencil), METADATA exactly when a sparse flag is set, PLANE_0/1 for more than one plane, PLANE_2 for more than two, and no other bit |
| Images.Subresource | src/memory/memory.h:255-262 | getSubresource carries every aspect of the image and the requested mip level and array layer |
| Images.SubresourceRange | src/memory/memory.h:267-275 | getSubresourceRange starts at level 0 and layer 0 and spans all mip levels and all array layers of every aspect |
| Images.SubresourceLayers | src/memory/memory.h:280-287 | getSubresourceLayers names one mip level and all array layers of every aspect |
| Images.SubresourceRangeCoversLevels | src/memory/memory.h:264-287 | The whole-image range covers the layers of a mip level exactly when that level exists, and contains a single subresource exactly when its level and layer are in bounds |
| Images.MipRow | src/memory/image.cpp:37-40 | The inner loop's subresources: one per mip level, in order, for one array layer |
| Images.SubresourcesLayerMajor | src/memory/image.cpp:36-41 | The nested loops query layers times mips subresources; entry layer*mips+m is mip level m of that array layer |
| Images.SubresourcesLength | src/memory/image.cpp:36-41 | The nested loops query exactly layers times mips subresources |
| Images.QueryAll | src/memory/image.cpp:38-39 | One driver answer per queried subresource, in the order queried |
| Images.QueryAllSnoc | src/memory/image.cpp:38-39 | Querying one more subresource appends exactly its answer |
| Images.MipRowSnoc | src/memory/image.cpp:37 | Advancing the mip counter appends the next subresource of the row |
| Images.QueryAspect | src/memory/image.cpp:34-59 | One aspect's nested loops return the driver's answers for that aspect's subresources in array-layer-major order |
| Images.Image.constructor | src/memory/memory.h:169-188 | A new image holds the default create info, is PREINITIALIZED, owns no handle, and has empty layout lists and an unallocated memory on the same device |
| Images.Image.ValidateImageCreateInfo | src/memory/image.cpp:9-21 | Returns 0 exactly when extent width, height, depth, format, usage, mipLevels and arrayLayers are all nonzero, else 1 |
| Images.Image.GetSubresourceLayouts | src/memory/image.cpp:23-62 | Returns 0; a non-LINEAR image gains no layouts, a LINEAR one gains, per aspect its format has, the layouts of all its subresources, and aspects it lacks gain nothing |
| Images.Image.CtorWith | src/memory/image.cpp:64-105 | Fails without touching the driver on incomplete info, fails when vkCreateImage fails, otherwise adopts the new handle and initial layout, then fails exactly when allocation fails and otherwise queries the layouts; a failure appends no layouts |
| Images.Image.CtorError | src/memory/image.cpp:64-89 | ctorError(props) succeeds exactly when the info is complete, the image is created and memory with the required flags props is allocated |
| Images.Image.CtorErrorUsage | src/memory/image.cpp:91-105 | ctorError(usage) succeeds exactly when the info is complete, the image is created and memory for that VMA usage is allocated |
| Images.Image.CtorDeviceLocal | src/memory/memory.h:212-214 | ctorDeviceLocal is ctorError with DEVICE_LOCAL required |
| Images.Image.CtorHost | src/memory/memory.h:219-235 | ctorHostVisible and ctorHostCoherent switch to LINEAR tiling, add both transfer usage bits to the usage already set, and request host-visible memory that is host-coherent too for the coherent form |
| Images.Image.BindMemory | src/memory/image.cpp:108-150 | The VMA build refuses a nonzero offset before calling the driver; otherwise the result is 0 exactly when the bind succeeds |
| Images.Image.Reset | src/memory/image.cpp:152-159 | Always 0 and releases the image; only the build without VMA also releases the device memory and zeroes its size |
| Structs.ZeroQueueFamily | src/language/supported_queues.cpp:13 | reset zeroes every field of a family, so no flags, no queues and support UNDEFINED |
| Structs.SetSurfaceSupport | src/language/structs.h:269-272 | setSurfaceSupport changes the reported support to the new value and leaves the family's properties alone |
| Structs.SetSurfaceSupportLastWins | src/language/structs.h:269-272 | The second of two setSurfaceSupport calls wins, and restoring the old value restores the family |
| Structs.IsGraphicsIgnoresSupport | src/language/structs.h:274-276 | isGraphics holds exactly when queueFlags has the graphics bit, and setting surface support does not change it |
| Structs.FormatProperties.constructor | src/language/structs.h:149 | A new FormatProperties records its format and has every feature mask reset to zero |
| Structs.FormatProperties.GetProperties | src/language/reflectionmap.cpp:545-560 | getProperties returns 0 on both API paths and leaves exactly the driver's answer for the format |
| Swapchain.MinRequestedImages | src/language/swapchain.cpp:20-36 | One image more than the minimum, wrapping to 0 at the uint32 limit, capped by maxImageCount unless that is 0 (no maximum) |
| Swapchain.MinRequestedImagesAtLeastMinimum | src/language/swapchain.cpp:20-36 | When the minimum is below the uint32 limit and no larger than a nonzero maximum, the request is at least the minimum |
| Swapchain.SurfaceExtent2D | src/language/swapchain.cpp:38-59 | The surface's current extent when its width is not UINT32_MAX; otherwise fatal exactly when the window is minimized, and else an extent within the min and max image extents (the exact clamped value is SurfaceExtentClamps) |
| Swapchain.SurfaceExtentClamps | src/language/swapchain.cpp:46-58 | Without a current extent and on a window that is not minimized, each dimension of the request above the maximum becomes the maximum, below the minimum becomes the minimum, and in between is kept |
| Swapchain.SurfaceExtentKeepsFittingRequest | src/language/swapchain.cpp:47-58 | A request already inside the permitted extents is returned unchanged |
| Swapchain.SurfaceExtentIdempotent | src/language/swapchain.cpp:38-59 | Choosing again from a chosen extent gives the same extent |
| Swapchain.SharingFor | src/language/swapchain.cpp:88-112 | EXCLUSIVE with no family list exactly when PRESENT and GRAPHICS share a family, else CONCURRENT over both families, PRESENT first |
| Swapchain.SharingConcurrentDistinct | src/language/swapchain.cpp:88-112 | CONCURRENT sharing names two distinct families and does not depend on which is PRESENT and which GRAPHICS |
| Devices.SurfaceFormatFor | src/language/device.cpp:15-36 | No choice for an empty list; B8G8R8A8_UNORM in the offered colour space when the only entry is UNDEFINED; otherwise the first entry, which is always offered |
| Devices.PreferredPresentMode | src/language/device.cpp:38-94 | None exactly when the list is empty, holds RANGE_SIZE or MAX_ENUM, or has no known mode; otherwise an offered mode ranked at least as high as every offered mode under MAILBOX, IMMEDIATE, FIFO_RELAXED, FIFO |
| Devices.PreferredPresentModeIgnoresOrder | src/language/device.cpp:48-92 | Two lists offering the same modes, in any order or repetition, give the same choice |
| Devices.Device.constructor | src/language/device.cpp:204-211 | The create info is zeroed, then names the surface, one array layer, COLOR_ATTACHMENT usage, OPAQUE composite alpha and clipping; no swapchain, lists or extensions yet |
| Devices.Device.InitSurfaceFormat | src/language/device.cpp:15-36 | Returns 1 on an empty list and changes nothing; otherwise writes the chosen format and colour space and returns 0 |
| Devices.Device.InitPresentMode | src/language/device.cpp:38-94 | Returns 1 with no mode written when no preferred mode exists; otherwise writes the preferred mode and returns 0 |
| Devices.Device.InitSurfaceFormatAndPresentMode | src/language/device.cpp:98-129 | 1 when a query fails; 0 without choosing when a list is empty; otherwise the chosen format and colour space are written, then the preferred mode, failing with 1 when there is none |
| Devices.Device.ResetSwapChain | src/language/swapchain.cpp:69-140 | 1 with nothing changed when the capability query fails; fatal on a minimized window; otherwise records the clamped extent, transform and image count, passes the old swapchain and the sharing for the two families, and installs the new swapchain, returning 0 only when creation, the image query and the framebuffer update all succeed |
| Choose.Enabled | src/language/choose.cpp:20-39 | The names chooseExtensions appends: required names, never debug_report, that some found extension carries, no more than required |
| Choose.EnabledComplete | src/language/choose.cpp:20-39 | Every required name other than debug_report that was found is enabled |
| Choose.EnabledAllFound | src/language/choose.cpp:20-39 | When all required names were found and debug_report is not among them, exactly the required list is enabled, in order |
| Choose.ChooseExtensions | src/language/choose.cpp:13-42 | Appends debug_report and then the enabled names; returns 1 exactly when some required name other than debug_report was not found, else 0 |
| Choose.InstanceExtensionChooser.constructor | src/language/choose.cpp:57-68 | The chooser copies the instance's required extensions and has chosen nothing |
| Choose.InstanceExtensionChooser.ChooseFrom | src/language/choose.cpp:46-55 | 1 with nothing chosen when the enumeration fails; otherwise chooseExtensions over the found list |
| Choose.FirstSupported | src/language/choose.cpp:81-91 | The first index whose features satisfy the request, or the list length when none does |
| Choose.FirstSupportedIsLeast | src/language/choose.cpp:81-91 | Any index with the first-match properties is FirstSupported |
| Choose.ChooseFormat | src/language/choose.cpp:72-117 | The first format whose LINEAR or OPTIMAL features hold every requested bit, or UNDEFINED when there is none or the tiling is a placeholder; a defined result is offered and satisfies the request |
| Choose.IsExtensionAvailable | src/language/choose.cpp:119-126 | 1 exactly when some available extension has the name, else 0 |
| Queues.Padded | src/language/supported_queues.cpp:32-36 | The family list after enumeration: as many entries as the first count, the reported ones first and zeroed families after, all with support UNDEFINED |
| Queues.PaddedEntry | src/language/supported_queues.cpp:32-36 | Each entry of the enumerated list has support UNDEFINED |
| Queues.GetQueueFamilies | src/language/supported_queues.cpp:21-98 | 1 without change on a zero first count; fatal when the second count exceeds the first; otherwise 0 with qfams set to the padded list |
| Queues.MapQueueFamilyProperties | src/language/supported_queues.cpp:46-58 | qfams becomes one fresh family per enumerated entry, holding that entry's properties and support UNDEFINED |
| Queues.WithTransfer | src/language/supported_queues.cpp:139-147 | GRAPHICS or COMPUTE flags gain TRANSFER; other flags are unchanged, and no bit besides TRANSFER ever changes |
| Queues.WithTransferIdempotent | src/language/supported_queues.cpp:139-147 | Normalising the flags twice is the same as once |
| Queues.Classified | src/language/supported_queues.cpp:138-165 | A family after the loop body: TRANSFER normalised, queue count kept, support PRESENT when the driver says so and NONE otherwise |
| Queues.ClassifiedAll | src/language/supported_queues.cpp:138-165 | Every family classified in place, in order |
| Queues.FirstQueryFailure | src/language/supported_queues.cpp:151-159 | The first family whose support query fails, or the family count when none does or there is no surface |
| Queues.PartlyClassified | src/language/supported_queues.cpp:138-165 | The family list after the first i loop passes: those i families classified, the rest as enumerated |
| Queues.ClassifyAt | src/language/supported_queues.cpp:139-163 | One loop pass on family i: the query fails exactly when there is a surface and the driver gives no answer; PRESENT exactly when the driver says the family presents; only family i changes |
| Queues.AnyPresentsStep | src/language/supported_queues.cpp:137-163 | Some family among the first i + 1 presents exactly when one among the first i does or family i does |
| Queues.ClassifyQueueFamilies | src/language/supported_queues.cpp:137-165 | Families before the first failed query are classified, the failing one is normalised and NONE and it returns INITIALIZATION_FAILED; without a failure all are classified and onePresent holds exactly when some family is PRESENT |
| Queues.RequireSwapchainExtension | src/language/supported_queues.cpp:182-204 | When VK_KHR_swapchain is available it is appended once to requiredExtensions; otherwise DEVICE_LOST with nothing appended |
| Queues.SetEach | src/language/supported_queues.cpp:117-130 | Setting a list of feature names succeeds exactly when every name is a settable Bool32 field |
| Queues.EnableWidelySupported | src/language/supported_queues.cpp:111-130 | The seven widely supported features are set in order; INITIALIZATION_FAILED exactly when one cannot be set |
| Queues.ProbeQueueFamilies | src/language/supported_queues.cpp:100-165 | INCOMPLETE with nothing changed below minApiVersion; success only when every feature was set, enumeration succeeded and all families were classified, onePresent telling whether one is PRESENT; it succeeds exactly when the API version, the feature names, both enumeration counts and every support query allow it (ProbeSucceeds), and then onePresent holds exactly when the driver reported a presenting family |
| Queues.FinishSupportedQueues | src/language/supported_queues.cpp:166-218 | INITIALIZATION_FAILED when the extension query fails; SUCCESS with requiredExtensions unchanged when no family presents; DEVICE_LOST when VK_KHR_swapchain is missing or a surface list is empty; with the extension, INITIALIZATION_FAILED when a surface query fails, and for two non-empty lists SUCCESS exactly when a usable present mode is found, INITIALIZATION_FAILED otherwise; on success with a presenting family VK_KHR_swapchain was appended and both lists are non-empty; the surface handle is kept |
| Queues.InitSupportedQueues | src/language/supported_queues.cpp:100-218 | On success the features were set, the families classified and the extensions recorded; with a presenting family VK_KHR_swapchain was required and both surface lists are non-empty, otherwise requiredExtensions is unchanged; results are SUCCESS, INCOMPLETE, INITIALIZATION_FAILED or DEVICE_LOST. Once the probe succeeds: INITIALIZATION_FAILED when the extension query fails; SUCCESS when no family presents; DEVICE_LOST when a family presents and VK_KHR_swapchain is missing, or the surface format or present-mode list is empty; with the extension, INITIALIZATION_FAILED when a surface query fails, and for two non-empty lists SUCCESS exactly when a usable present mode is found, INITIALIZATION_FAILED otherwise |
| Reflection.VolcanoReflectionMap.constructor | src/language/structs.h:82 | A new registry has no fields and no stored values |
| Reflection.VolcanoReflectionMap.GetField | src/language/reflectionmap.cpp:9-12 | getField is null exactly when the name is not registered, else the registered pointer |
| Reflection.VolcanoReflectionMap.Get | src/language/reflectionmap.cpp:16-23 | 0 with the member's value exactly when the name is registered with an accessible pointer; otherwise 1 and the caller's variable is unchanged |
| Reflection.VolcanoReflectionMap.Set | src/language/reflectionmap.cpp:27-34 | 0 exactly when the name is registered with an accessible pointer, and then only the pointed-to member changes; otherwise 1 and no change |
| Reflection.VolcanoReflectionMap.AddField | src/language/reflectionmap.cpp:38-48 | 1 with the existing entry untouched exactly when the name is taken; otherwise 0 and a scalar pointer to the member is registered under the name |
| Reflection.VolcanoReflectionMap.AddArrayField | src/language/reflectionmap.cpp:52-63 | As addField, registering an array pointer of the given length |
| Reflection.Register | src/language/reflectionmap.cpp:122-215 | The ADD_FIELD sequence never removes or changes an entry registered before it |
| Reflection.RegisterDistinct | src/language/reflectionmap.cpp:122-215 | With distinct, not yet registered names every addField succeeds and each name points to its own member |
| Reflection.RegisterFailsOnRepeat | src/language/reflectionmap.cpp:122-123 | Registration fails only because a name repeats or was registered before |
| Reflection.FeatureChain | src/language/reflectionmap.cpp:231-256 | No chain below Vulkan 1.1; otherwise variablePointer, multiview, drm, shaderDraw, storage16Bit, then blendOpAdvanced and descriptorIndexing each exactly when its extension is available, in that order |
| Reflection.Filled | src/language/reflectionmap.cpp:233-255 | The driver writes every registered member of "features" and of the structs on the chain, and nothing of any other struct |
| Reflection.DeviceFeatures.constructor | src/language/reflectionmap.cpp:119-218 | A new DeviceFeatures holds the full registry, zeroed values and no chain |
| Reflection.DeviceFeatures.RegisterAll | src/language/reflectionmap.cpp:122-218 | The constructor body leaves the registry Register builds from the empty one over the member list, with no stored values and no chain, whether or not an addField failed |
| Reflection.DeviceFeatures.AddFields | src/language/reflectionmap.cpp:122-123 | The registration loop's registry and success flag are those of Register, stopping at the first failure |
| Reflection.DeviceFeatures.Reset | src/language/reflectionmap.cpp:220-229 | reset zeroes every feature struct and removes the chain, keeping the registry |
| Reflection.DeviceFeatures.GetFeatures | src/language/reflectionmap.cpp:231-256 | Returns 0; the chain is FeatureChain for the API version and extensions, and the stored values are exactly what the driver wrote for the linked structs |
| Reflection.DeviceFeatures.GetBool | src/language/structs.h:60-62 | DeviceFeatures get behaves as the registry's get for the name |
| Reflection.DeviceFeatures.SetBool | src/language/structs.h:66-68 | DeviceFeatures set behaves as the registry's set for the name |
| Reflection.ImageFormatResult | src/language/reflectionmap.cpp:597-649 | The 1.0 path returns the driver's result; on the 1.1 path a VK_SUCCESS with all-zero limits becomes VALIDATION_FAILED, any other result is returned as it is |
| Reflection.ImageFormatProperties.constructor | src/language/reflectionmap.cpp:579-589 | A new ImageFormatProperties has zero limits and no chain |
| Reflection.ImageFormatProperties.GetProperties | src/language/reflectionmap.cpp:591-651 | The result is ImageFormatResult of the driver's answer; no chain below 1.1, otherwise ycbcrConversion, externalImage when external memory is requested, and amdLODGather when its extension is available |
| Reflection.ImageFormatProperties.GetPropertiesFor | src/language/structs.h:216-222 | The create-info form queries with the create info's format, type, tiling, usage and flags unchanged |
| Science.MipChainLevels | src/science/science.cpp:9-29 | Region m of addSrc's chain copies colour level m of the source into colour level m of the destination at zero offsets; level 0 copies the whole extent and the depth never changes |
| Science.MipChainHalves | src/science/science.cpp:26-28 | Each level's width and height are half, rounded down, of the level above |
| Science.ImageCopies.constructor | src/science/science.h:33-34 | A new ImageCopies holds no regions |
| Science.ImageCopies.AddSrcAtMipLevel | src/science/science.cpp:17-29 | Appends exactly one region: colour aspect, source level m, destination level 0, zero offsets, source extent with width and height shifted right by m |
| Science.ImageCopies.AddSrc | src/science/science.cpp:9-15 | Appends one region per mip level of the source, in increasing level order, each copying level m to level m |
| Science.DtorChainOrder | src/science/science.cpp:31-52 | With auto-submit the destructor calls end, submit, unborrow and the queue wait in that order; without it only unborrow, and that only when ctorError succeeded |
| Science.SmartCommandBuffer.constructor | src/science/science.h:206-207 | A new buffer keeps its pool queue index with neither flag set |
| Science.SmartCommandBuffer.Move | src/science/science.h:209-213 | The move constructor carries over the command buffer, poolQindex, ctorErrorSuccess and wantAutoSubmit |
| Science.SmartCommandBuffer.CtorError | src/science/science.h:226-238 | Holds the borrowed handle; returns 0, and sets ctorErrorSuccess, exactly when the borrow gave a handle and beginOneTimeUse succeeded |
| Science.SmartCommandBuffer.AutoSubmit | src/science/science.h:244-252 | Returns 1 unless ctorError succeeded; otherwise sets wantAutoSubmit and returns 0 |
| Science.SmartCommandBuffer.Destroy | src/science/science.cpp:31-52 | Makes the destructor's calls in order up to the first failure, which ends the process; the handle is nulled exactly when every call before the queue wait succeeded |
| Science.Pipeline.constructor | src/command/command.h:209 | A new pipeline holds the given blend states and attachments and no vertex input |
| Science.RenderPass.constructor | src/command/command.h:258 | A new render pass holds no pipelines |
| Science.RenderPass.AddPipeline | src/command/command.h:260-264 | addPipeline appends one new pipeline and returns it |
| Science.PipeBuilder.constructor | src/science/science.h:267-268 | A new builder refers to its render pass and has no pipeline and no vertex inputs |
| Science.PipeBuilder.AddPipelineOnce | src/science/science.h:280-284 | Adds a pipeline to the render pass only when there is none yet; a second call changes nothing |
| Science.PipeBuilder.Info | src/science/science.h:287-290 | info returns the builder's pipeline, making it first when there is none |
| Science.PipeBuilder.AddDepthImage | src/science/science.h:293-296 | Makes the pipeline once, then returns 0 exactly when the pipeline's addDepthImage succeeds |
| Science.PipeBuilder.AddVertexInputBySize | src/science/science.h:333-351 | Appends one binding with stride nBytes (as uint32_t) and rate VERTEX, appends all attributes, and sets both pipeline counts to the new list lengths; returns 0. The pipeline is made and added to the render pass only when there is none yet, and its blend states and attachments are untouched |
| Science.PipeBuilder.AlphaBlendWithPreviousPass | src/science/science.cpp:54-74 | Blend state 0 becomes enabled alpha (fatal when there is none), every attachment loads instead of clearing, and the result is 1 exactly when a depth format is set and adding the depth image fails. The pipeline is made and added to the render pass only when there is none yet; the vertex lists and the pipeline's vertex counts are untouched |
| Science.FramebufStepsGrow | src/science/science.h:115-120 | Rebuilding one more framebuf extends the calls made so far, and stays a prefix of the whole loop |
| Science.ListenerRowGrow | src/science/science.h:122-126 | Calling a listener for one more framebuf extends its calls made so far, and stays a prefix of its whole row |
| Science.ListenerStepsPrefix | src/science/science.h:121-127 | The calls to the first listeners are a prefix of the calls to all listeners |
| Science.CommandPoolContainer.constructor | src/science/science.h:73-75 | The pool is for the GRAPHICS queue family; no render pass and no listeners yet |
| Science.CommandPoolContainer.OnResized | src/science/science.h:100-129 | Makes, in order, the render pass call when there is no pass, the device wait, the swapchain reset, every framebuf rebuild and every listener for every framebuf, until one fails; 0 exactly when all succeed; the reset fails also when its capability query fails or the window is minimized; once the pass exists the old extent goes to prevSize, and the extent left installed is calculateSurfaceExtent2D of the capabilities and newSize when the device wait succeeds and the reset gets a usable extent, newSize otherwise |
| Science.WithCapabilities | src/language/swapchain.cpp:69-79 | The combined outcome differs from the given one only at the swapchain reset, which fails when the capability query fails or calculateSurfaceExtent2D is fatal |
| Science.CommandPoolContainer.RebuildAndNotify | src/science/science.h:115-127 | The two loops of onResized together return 0 exactly when every framebuf rebuild and every listener call succeeds |
| Science.CommandPoolContainer.RebuildFramebufs | src/science/science.h:115-120 | Framebufs are rebuilt in order until one fails; 0 exactly when all succeed |
| Science.CommandPoolContainer.NotifyListener | src/science/science.h:122-126 | One listener is called for every framebuf in order until a call fails; 0 exactly when all succeed |
| Science.CommandPoolContainer.NotifyListeners | src/science/science.h:121-127 | Every listener, in order, for every framebuf, until a call fails; 0 exactly when all succeed |
| WinPatch.LiteralFilterLines | src/gn/winpatch.py:85-89 | A literal-pattern filter gives one output line per input line; a line without the pattern is copied and a line starting with it starts with the replacement instead |
| WinPatch.HelperFilterRewritesDeclaration | src/gn/winpatch.py:99-103 | The static GetPhysDevFeatureString declaration becomes inline, whatever follows it on the line |
| WinPatch.GlfwFilterRewritesGuard | src/gn/winpatch.py:85-89 | The WINVER guard becomes a DWM_BB_ENABLE guard, with the text around it kept |
| WinPatch.UtilsFilterIdempotent | src/gn/winpatch.py:105-108 | A rewritten include no longer matches, so running utilsFilter twice is running it once |
| WinPatch.UtilsFilterAnchored | src/gn/winpatch.py:105-108 | Only a match at the start of the line is rewritten; a line not starting with '#' is kept |
| WinPatch.UtilsFilterWildcard | src/gn/winpatch.py:106 | The unescaped '.' matches any character, so "vulkan/vulkanXh" is rewritten too |
| WinPatch.WindefFilterAppend | src/gn/winpatch.py:110-115 | windefFilter works line by line: the output of two parts is the outputs of each part in order |
| WinPatch.WindefFilterRemoveInserted | src/gn/winpatch.py:110-115 | Every input line is output in order; dropping the inserted lines gives back an input that had none of them |
| WinPatch.RemoveLineAppend | src/gn/winpatch.py:110-115 | Dropping a line from two parts drops it from each part |
| WinPatch.WindefFilterNoMatch | src/gn/winpatch.py:114-115 | A file that never mentions vkGetPhysicalDeviceFormatProperties2 is left as it is |
| WinPatch.SpirvLoopBody | src/gn/winpatch.py:52-83 | One pass of the loop body yields the lines and next flags of the functional step |
| WinPatch.SpirvCommonFilter | src/gn/winpatch.py:46-83 | spirvCommonFilter yields exactly the lines its step function gives from the initial flags |
| WinPatch.SpirvPatchedCopies | src/gn/winpatch.py:53-54 | Once already_patched is set every later line is copied unchanged |
| WinPatch.SpirvNoAnchorCopies | src/gn/winpatch.py:46-83 | A file with none of the three anchor lines is copied unchanged |
| WinPatch.SpirvAfterIncludeVector | src/gn/winpatch.py:55-63 | A blank line right after "#include <vector>" gets the three-line Android include block in front; any other line there sets already_patched and the rest is copied |
| WinPatch.SpirvReportAndAbort | src/gn/winpatch.py:64-71 | Inside report_and_abort the brace gets the Android assert and keeps the flag, so a following "#ifdef NDEBUG" becomes "#elif defined(NDEBUG)" |
| WinPatch.SpirvNdebugNeedsFlag | src/gn/winpatch.py:70-71 | Without the report_and_abort flag, "#ifdef NDEBUG" is copied |
| WinPatch.SpirvConvertToString | src/gn/winpatch.py:72-78 | In convert_to_string, after the brace, the to_string line becomes the three ostringstream lines |
| SdkInfo.RemoveDots | src/gn/toolchain/mac/sdk_info.py:23 | The result holds no '.', is no longer than the input, and equals an input that had none |
| SdkInfo.FormatVersionShape | src/gn/toolchain/mac/sdk_info.py:21-25 | FormatVersion has no dots and length max(4, digits); without a leading sign it is the dot-free version right-padded to three characters with zeros in front |
| SdkInfo.FormatVersionExamples | src/gn/toolchain/mac/sdk_info.py:21-25 | "7.2", "7.1.1" and "8" are formatted as "0720", "0711" and "0800" |
| SdkInfo.FormatVersionXcode10 | src/gn/toolchain/mac/sdk_info.py:21-25 | As written, Xcode 10.0 is formatted "0100", which sorts before "0720", so its separate build query is skipped |
| SdkInfo.FormatVersionFixedValue | src/gn/toolchain/mac/sdk_info.py:21-25 | The corrected format spells 100 major + 10 minor + patch in four digits |
| SdkInfo.SdkBuildFixedChoice | src/gn/toolchain/mac/sdk_info.py:51-55 | With the corrected format the separate build query is used exactly from Xcode 7.2 on, Xcode 10 included |
| SdkInfo.FormatVersionFixedXcode10 | src/gn/toolchain/mac/sdk_info.py:21-25 | The corrected format gives "1000" for Xcode 10.0 and still "0720" for 7.2 |
| SdkInfo.DigitsOrder | src/gn/toolchain/mac/sdk_info.py:51 | For digit strings of one length, Python's string comparison is the numeric comparison |
| SdkInfo.FilledFromParts | src/gn/toolchain/mac/sdk_info.py:71-74 | Once the machine and Xcode queries succeed, the dictionary is theirs plus the SDK fields, or a raise when an SDK query fails |
| SdkInfo.FilledXcode10SkipsBuildQuery | src/gn/toolchain/mac/sdk_info.py:21-32 | As written, on Xcode 10.0 the filled settings hold the version "0100" and take the SDK version for sdk_build, skipping the separate build query |
| SdkInfo.FilledKeySet | src/gn/toolchain/mac/sdk_info.py:28-55 | A successful fill holds exactly the seven setting names |
| SdkInfo.SortedKeysStrictlySorted | src/gn/toolchain/mac/sdk_info.py:76 | The seven names in report order are strictly increasing under Python's order |
| SdkInfo.KeysDistinct | src/gn/toolchain/mac/sdk_info.py:31-55 | The seven setting names are pairwise different |
| SdkInfo.FillOrderKeys | src/gn/toolchain/mac/sdk_info.py:71-74 | The keys in fill order are the report keys, each once |
| SdkInfo.SortReportKeys | src/gn/toolchain/mac/sdk_info.py:76 | sorted() over the filled keys gives exactly the report order |
| SdkInfo.RunReport | src/gn/toolchain/mac/sdk_info.py:65-77 | A successful run prints one key="value" line per setting, keys strictly increasing, and nothing else |
| SdkInfo.LinesShape | src/gn/toolchain/mac/sdk_info.py:76-77 | The printed line for a key is key="value", one per key in order |
| SdkInfo.RunUsage | src/gn/toolchain/mac/sdk_info.py:65-69 | Exit status 1 with nothing printed exactly when there is not exactly one positional argument |
| SdkInfo.FilledSdkBuild | src/gn/toolchain/mac/sdk_info.py:51-55 | sdk_build is the separate query's answer from Xcode 7.2 on, and the SDK version before |
| SdkInfo.Settings.constructor | src/gn/toolchain/mac/sdk_info.py:71 | The settings dictionary starts empty |
| SdkInfo.Settings.Set | src/gn/toolchain/mac/sdk_info.py:31-55 | settings[key] = value maps the key to the value and keeps first-insertion order of keys |
| SdkInfo.FillMachineOSBuild | src/gn/toolchain/mac/sdk_info.py:35-38 | Succeeds exactly when the sw_vers query does, storing its stripped output under machine_os_build |
| SdkInfo.FillXcodeVersion | src/gn/toolchain/mac/sdk_info.py:28-32 | Succeeds exactly when xcodebuild answers with a word on its first and last lines, storing the version as FormatVersion writes it (dots dropped, zero-padded) and the build |
| SdkInfo.FillSDKPathAndVersion | src/gn/toolchain/mac/sdk_info.py:41-55 | Succeeds exactly when the queries it runs succeed, storing the stripped SDK path, version, platform path and build |
| SdkInfo.FillFirst | src/gn/toolchain/mac/sdk_info.py:71-73 | The machine and Xcode fills on an empty dictionary give its first three keys |
| SdkInfo.FillAll | src/gn/toolchain/mac/sdk_info.py:71-74 | The three fills succeed exactly when Filled does, leaving each of the seven keys once |
| SdkInfo.PrintSettings | src/gn/toolchain/mac/sdk_info.py:76-77 | The print loop prints one key="value" line per key, in order |
| SdkInfo.PrintSorted | src/gn/toolchain/mac/sdk_info.py:76-77 | The sorted print loop prints the settings in report order |
| SdkInfo.SdkInfoMain | src/gn/toolchain/mac/sdk_info.py:58-77 | DEVELOPER_DIR is set only for a non-empty --developer_dir, and the exit and output are those of Run |
| MidlWrapper.SplitOnceShape | src/gn/toolchain/win/midl_wrapper.py:14 | split('=', 1) fails exactly when the item has no '='; otherwise the key holds no '=' and the item is key '=' value |
| MidlWrapper.SplitOnceOf | src/gn/toolchain/win/midl_wrapper.py:14 | A key without '=' and any value, '=' included, split back into themselves |
| MidlWrapper.DictNone | src/gn/toolchain/win/midl_wrapper.py:14-15 | dict() raises exactly when some item has no '=' |
| MidlWrapper.DictKeys | src/gn/toolchain/win/midl_wrapper.py:14-15 | The dictionary's keys are exactly the items' keys |
| MidlWrapper.DictLaterWins | src/gn/toolchain/win/midl_wrapper.py:15 | A key's value comes from the last item with that key |
| MidlWrapper.GetEnvShortRaises | src/gn/toolchain/win/midl_wrapper.py:13-15 | A block of at most two characters leaves one empty item, and dict() raises |
| MidlWrapper.DictEntries | src/gn/toolchain/win/midl_wrapper.py:14-15 | dict() over name=value entries is the map of the pairs, later names overriding earlier ones |
| MidlWrapper.GetEnvBlock | src/gn/toolchain/win/midl_wrapper.py:8-15 | GetEnv reads back the environment block of any non-empty list of pairs whose names hold neither '=' nor NUL and whose values hold no NUL |
| MidlWrapper.MidlArgsShape | src/gn/toolchain/win/midl_wrapper.py:21-28 | The command line is midl /nologo, the flags unchanged, the six options each followed by its value, and the idl file last |
| MidlWrapper.BasenameShape | src/gn/toolchain/win/midl_wrapper.py:39-40 | The base name is the separator-free tail, starting right after a separator unless it is the whole path |
| MidlWrapper.BasenameAfterSep | src/gn/toolchain/win/midl_wrapper.py:39-40 | A separator-free name after a directory ending in a separator is the base name |
| MidlWrapper.FilteredMember | src/gn/toolchain/win/midl_wrapper.py:41-43 | A line is printed exactly when it is an output line with neither prefix and not the base name of a Processing line |
| MidlWrapper.FilteredAppend | src/gn/toolchain/win/midl_wrapper.py:41-43 | Printed lines keep their order, part by part |
| MidlWrapper.FilteredAllKept | src/gn/toolchain/win/midl_wrapper.py:41-43 | Output with nothing to filter is printed unchanged |
| MidlWrapper.PairDropped | src/gn/toolchain/win/midl_wrapper.py:33-43 | The pair "Processing dir\name" then "name" prints nothing |
| MidlWrapper.PrintFiltered | src/gn/toolchain/win/midl_wrapper.py:41-43 | The print loop prints exactly the filtered lines |
| MidlWrapper.MidlExit | src/gn/toolchain/win/midl_wrapper.py:17-47 | The script exits with the compiler's return code exactly when it has eight arguments and a readable environment block; otherwise it raises having run and printed nothing |
| MidlWrapper.MidlCommand | src/gn/toolchain/win/midl_wrapper.py:21-31 | The compiler runs with the block's dictionary as environment and the built command line |
| MidlWrapper.MidlPrinted | src/gn/toolchain/win/midl_wrapper.py:37-43 | A line is printed exactly when the compiler printed it, it has neither prefix and no prefixed line has it as base name |
| MidlWrapper.MidlMain | src/gn/toolchain/win/midl_wrapper.py:17-47 | The script's exit, command and printed lines are those of Midl |
| Text.ReplaceAllAbsent | src/gn/winpatch.py:88 | re.sub with a literal pattern leaves a line without the pattern as it is |
| Text.ReplaceAllSelf | src/gn/winpatch.py:102 | Replacing a literal pattern by itself changes nothing |
| Text.ReplaceAllAtFirst | src/gn/winpatch.py:102 | The text before the first occurrence survives and the occurrence becomes the replacement |
| Text.SplitPiecesFree | src/gn/toolchain/win/midl_wrapper.py:13 | No piece of split('\0') holds a NUL |
| Text.SplitJoin | src/gn/toolchain/win/midl_wrapper.py:13 | Splitting undoes joining when no piece holds the separator |
| Text.SplitLinesJoin | src/gn/toolchain/win/midl_wrapper.py:37 | Lines written one per line come back from splitlines |
| Text.LessTotal | src/gn/toolchain/mac/sdk_info.py:51 | Python's string order is a strict total order |
| Text.StripIdempotent | src/gn/toolchain/mac/sdk_info.py:38 | Stripping twice is stripping once |
| Text.LastWordShape | src/gn/toolchain/mac/sdk_info.py:31-32 | split()[-1] finds a word exactly when there is a non-blank, and the word is a non-empty run of non-blanks |
| Text.SortSorted | src/gn/toolchain/mac/sdk_info.py:76 | sorted() returns a sorted permutation of its input |
| Text.StrictlySortedUnique | src/gn/toolchain/mac/sdk_info.py:76 | A set of strings has exactly one strictly sorted listing |
| VkTypes.AttemptedShape | src/science/science.h:100-129 | A chain of calls with early returns reaches a prefix in which every step but the last succeeded, and the whole chain exactly when all succeed |
| VkTypes.AttemptedAppend | src/science/science.h:100-129 | Steps that all succeed are passed through and the chain goes on after them |
| VkTypes.AttemptedFailsEarly | src/science/science.h:100-129 | A failure among the first steps hides every later step |

## Left out

- Vulkan and VMA calls (`vkCmd*`, `vkCreate*`, `vkQueue*`, `vkMap*`, `vma*`): these are foreign calls. A call's result is passed in as a parameter, and its effect is an entry in a ghost log of recorded commands.
- Handle lifetimes managed by `VkPtr` are foreign bookkeeping. Handles are plain numbers, and 0 means null.
- The recursive mutexes, lock guards and the `try_lock` in the `DeviceMemory` move constructor: the model is single-threaded.
- Floating point is not modelled:
  - `Device::aspectRatio`;
  - sampler LOD and anisotropy defaults;
  - clear colours;
  - blend constants, depth bias and line width;
  - queue priorities.
- `trimSrcStage`, `trimDstStage`, `barrier(Image&, layout)` and `Image::makeTransition` have no bodies in the repository. They are uninterpreted function parameters.
- `FormatIsColor`, `FormatHasDepth`, `FormatHasStencil`, `FormatPlaneCount` and `FormatIsMultiplane` come from vk_format_utils, which is not part of this model. They are predicate parameters.
- reflect::Pointer's typed accessors are not part of this model. An accessor is taken to succeed exactly when the stored scalar has the requested kind.
- `Pipeline::addDepthImage` is not part of this model. Its result is an oracle.
- `gliFilter` and `sampleFilter` in `winpatch.py` are not modelled, because they rely on regular expressions with capture groups.
- `FileEditor` file reading, file writing and change detection in `winpatch.py` are file I/O.
- In `sdk_info.py` and `midl_wrapper.py`, subprocess output, environment variables and the return codes are parameters.
- `Popen(shell=True)` quoting is not modelled.
- argparse parsing is reduced to the positional-argument count and the `--developer_dir` value. The usage text argparse prints is left out.
- Python `splitlines` is modelled as a split at `'\n'` only, and `strip`/`split()` treat only the ASCII whitespace as blank (space, tab, line feed, vertical tab, form feed, carriage return and U+001C to U+001F). Python's non-ASCII Unicode spaces, such as U+0085 and U+00A0, are not modelled.
- Text-mode newline translation is not modelled.
- `ntpath.basename` drive handling is not modelled: the model splits only at the path separators.
- `SdkInfo.Settings`: the distinctness of its key list is not part of `Valid`. The map is the dictionary, and the key list only records insertion order.
- `src/language/log.cpp` is output-sink I/O. Only `logF` ending the process is modelled.
- `src/language/VkEnum.cpp` is a two-call driver enumeration. Its TRANSFER normalisation is modelled through `supported_queues.cpp`.
- `src/language/language.cpp` is driver orchestration for instance creation, and it does not match `language.h`.
- The free `initSupportedQueues` in `src/language/device.cpp:131-202` is stale: it uses members the headers do not declare. The `Instance` version in `supported_queues.cpp` is modelled instead.
- `src/gn/vendor/skia/skiaglue.h` holds only declarations over the skia codec.
- `command.h` and `language.h` are read for types only. The exception is `RenderPass::addPipeline` and the `Pipeline` constructor, which the science builders call.
- `FormatProperties::getProperties` always returns 0, so the failure branch of `chooseFormat` cannot be taken. `Choose.ChooseFormat` is modelled without it.
- `DeviceFeatures::getFeatures` always returns 0, so `initSupportedQueues`' check of its result is not a branch of the model.
- The `androidHardware` entry of the `ImageFormatProperties` chain exists only when `VK_HEADER_VERSION > 75`, and it is left out. The model follows the non-Android build, in which the Vulkan 1.1 path is also taken.
- `PhysicalDeviceProperties` and `DeviceMemoryProperties` (`getProperties`, `reset`) are only driver-filled structs. Their contents are parameters.
- Reflection.DeviceFeatures.constructor: the 87 names of the feature registry sit behind a ghost function. Their pairwise distinctness is not proved. `Reflection.RegisterDistinct` proves the general statement that distinct names all register.
- Queues.WithTransfer: it does not state that flags which already hold TRANSFER are returned unchanged. `Queues.WithTransferIdempotent` states the weaker idempotence.
- Buffers.DumpUsage: models only the bit-name suffix of the copyFromHost warning; the leading "usage = 0x" and the mask in hexadecimal are part of the log call, which is not modelled.
- `Instance::initSupportedQueues` is split into `Queues.ProbeQueueFamilies`, `Queues.FinishSupportedQueues` and `Queues.InitSupportedQueues`, which keeps each proof small.
- `calculateSurfaceTransform` returns the surface's current transform, and the model writes that value directly inside `Devices.Device.ResetSwapChain`.
- `acquireNextImage` and the present semaphores are not modelled: they are driver calls with no logic of their own.
- Devices.Device.ResetSwapChain: `getSwapchainImages` and `addOrUpdateFramebufs` are boolean oracles.
- Descriptors.DescriptorSet.WriteImages: uses the intended bounds check `Descriptors.WriteCheck`, so binding == the binding count returns 1. As written the guard lets it through to `types.at`, which throws and ends the process; `Descriptors.WriteCheckAsWritten` models that and the Findings table records it.
- Descriptors.DescriptorSet.WriteBufferInfos: the same intended bounds check in place of the guard as written, for the same reason.
- Descriptors.DescriptorSet.WriteTexelViews: the same intended bounds check in place of the guard as written, for the same reason.
- Buffers.Buffer.CopyFromHost: tests `dstOffset + len > size` without the unsigned 64-bit wrap-around of the source (`Buffers.Fits`). The wrapping test as written is `Buffers.FitsAsWritten`, recorded in the Findings table.
- Buffers.Buffer.CopyTo: the same non-wrapping bounds test in place of the wrapping one, for the same reason.
- Buffers.UniformBuffer.CopyAndKeepMmap: the same non-wrapping bounds test in place of the wrapping one, for the same reason.
- Science.CommandPoolContainer.OnResized: on a minimized window resetSwapChain ends the process through `logF`; the model shows that as a failed reset returning 1. The steps of resetSwapChain after the extent are one oracle here; `Devices.Device.ResetSwapChain` models them in full.
- The other `ImageCopies` constructors are not modelled: count, range, copy, and `ImageCopies(src, dst)`, which calls the undefined `add`. `addSingleMipLevel` is declared but never defined, so it is not modelled either.

## Findings

| source | as written | input that shows it | evidently intended | confidence | as-written member | corrected member |
|---|---|---|---|---|---|---|
| src/memory/buffer.cpp:154 | `dstOffset + len > info.size` is computed in 64-bit unsigned arithmetic and can wrap. The same test appears at buffer.cpp:182 and memory.h:401. | dstOffset 2^64-1, len 2, size 16: the sum wraps to 1, so the copy is accepted | reject every copy that does not end inside the buffer | not executed | Buffers.FitsAsWrittenAdmitsOverrun | Buffers.FitsAgreesWithoutWrap |
| src/memory/descriptor.cpp:104 | the guard is `binding > types.size()`. The same guard appears at lines 137 and 170. | binding 1 of a set whose layout has one binding passes the guard, then `types.at(1)` throws and ends the process | reject `binding >= types.size()` with the error code 1 | not executed | Descriptors.WriteCheckAsWrittenExitsAtEnd | Descriptors.WriteCheckAgrees |
| src/gn/toolchain/mac/sdk_info.py:21-25 | `FormatVersion` strips the dots and pads to four characters, so the major version is not aligned | Xcode "10.0" gives "0100", which compares below "0720", so Xcode 10 skips the separate build query | a four-digit code with the major version in the first two digits, so "10.0" gives "1000" | not executed | SdkInfo.FilledXcode10SkipsBuildQuery | SdkInfo.SdkBuildFixedChoice |

Where the model uses each corrected definition:
- `Buffers.Fits` in every copy;
- `Descriptors.WriteCheck` in every descriptor write;
- `SdkInfo.FormatVersionFixed` only in `SdkInfo.SdkBuildFixedChoice`. The filled settings (`SdkInfo.Filled`, `SdkInfo.FillXcodeVersion` and the members built on them) follow the script as written, with `SdkInfo.FormatVersion`.
