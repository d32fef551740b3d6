// Shared vocabulary of the model: Vulkan handles, fixed-width integers,
// result codes and the small value structs that several layers pass around.
// Handles are opaque numbers in which 0 stands for VK_NULL_HANDLE.

module Wrappers {
  datatype Option<T> = None | Some(value: T)
}

module VkTypes {

  /** Fixed-width unsigned integers of the C++ source. */
  const U32_LIMIT: int := 0x1_0000_0000
  const U64_LIMIT: int := 0x1_0000_0000_0000_0000
  const UINT32_MAX: int := 0xFFFF_FFFF
  type u16 = x: int | 0 <= x < 0x1_0000
  type u32 = x: int | 0 <= x < U32_LIMIT
  type u64 = x: int | 0 <= x < U64_LIMIT

  /** A Vulkan flags word (VkFlags is a 32-bit mask). */
  type Flags = bv32

  /** An opaque Vulkan handle; NULL_HANDLE is VK_NULL_HANDLE. */
  type Handle = nat
  const NULL_HANDLE: Handle := 0

  /** VkResult values used by the model. */
  const VK_SUCCESS: int := 0
  const VK_INCOMPLETE: int := 5
  const VK_ERROR_INITIALIZATION_FAILED: int := -3
  const VK_ERROR_DEVICE_LOST: int := -4
  const VK_ERROR_VALIDATION_FAILED_EXT: int := -1000011001

  /** VkStructureType values checked by the barrier code. */
  const STYPE_BUFFER_MEMORY_BARRIER: int := 44
  const STYPE_IMAGE_MEMORY_BARRIER: int := 45
  const STYPE_MEMORY_BARRIER: int := 46

  /** VkPipelineStageFlagBits used as BarrierSet defaults. */
  const STAGE_TOP_OF_PIPE: Flags := 0x1
  const STAGE_ALL_COMMANDS: Flags := 0x10000

  /** VkFormat values the model names. */
  const FORMAT_UNDEFINED: int := 0
  const FORMAT_B8G8R8A8_UNORM: int := 44

  /** VkImageLayout values the model names. */
  const LAYOUT_UNDEFINED: int := 0
  const LAYOUT_TRANSFER_SRC_OPTIMAL: int := 6
  const LAYOUT_TRANSFER_DST_OPTIMAL: int := 7
  const LAYOUT_SHADER_READ_ONLY_OPTIMAL: int := 5
  const LAYOUT_PREINITIALIZED: int := 8

  /** VkImageTiling. */
  const TILING_OPTIMAL: int := 0
  const TILING_LINEAR: int := 1

  /** VkSharingMode. */
  const SHARING_EXCLUSIVE: int := 0
  const SHARING_CONCURRENT: int := 1

  /** VkImageAspectFlagBits. */
  const ASPECT_COLOR: Flags := 0x1
  const ASPECT_DEPTH: Flags := 0x2
  const ASPECT_STENCIL: Flags := 0x4
  const ASPECT_METADATA: Flags := 0x8
  const ASPECT_PLANE_0: Flags := 0x10
  const ASPECT_PLANE_1: Flags := 0x20
  const ASPECT_PLANE_2: Flags := 0x40

  /** Usage bits: the TRANSFER_SRC and TRANSFER_DST bits have the same value
    * for images and buffers. */
  const USAGE_TRANSFER_SRC: Flags := 0x1
  const USAGE_TRANSFER_DST: Flags := 0x2
  const IMAGE_USAGE_SAMPLED: Flags := 0x4
  const IMAGE_USAGE_COLOR_ATTACHMENT: Flags := 0x10
  const BUFFER_USAGE_UNIFORM_BUFFER: Flags := 0x10

  datatype Extent2D = Extent2D(width: u32, height: u32)
  datatype Extent3D = Extent3D(width: u32, height: u32, depth: u32)
  datatype Offset3D = Offset3D(x: int, y: int, z: int)

  datatype ImageSubresourceRange = ImageSubresourceRange(
    aspectMask: Flags, baseMipLevel: u32, levelCount: u32,
    baseArrayLayer: u32, layerCount: u32)

  datatype ImageSubresourceLayers = ImageSubresourceLayers(
    aspectMask: Flags, mipLevel: u32, baseArrayLayer: u32, layerCount: u32)

  /** VkMemoryPropertyFlagBits. */
  const MEMORY_PROPERTY_DEVICE_LOCAL: Flags := 0x1
  const MEMORY_PROPERTY_HOST_VISIBLE: Flags := 0x2
  const MEMORY_PROPERTY_HOST_COHERENT: Flags := 0x4

  /** VkQueueFlagBits. */
  const QUEUE_GRAPHICS: Flags := 0x1
  const QUEUE_COMPUTE: Flags := 0x2
  const QUEUE_TRANSFER: Flags := 0x4

  /** VkImageCreateInfo, with pQueueFamilyIndices held as a sequence. */
  datatype ImageCreateInfo = ImageCreateInfo(
    flags: Flags, imageType: int, format: int, extent: Extent3D,
    mipLevels: u32, arrayLayers: u32, samples: Flags, tiling: int,
    usage: Flags, sharingMode: int, queueFamilyIndices: seq<u32>,
    initialLayout: int)

  /** VkDescriptorImageInfo and VkDescriptorBufferInfo. */
  datatype DescriptorImageInfo = DescriptorImageInfo(sampler: Handle, imageView: Handle, imageLayout: int)
  datatype DescriptorBufferInfo = DescriptorBufferInfo(buffer: Handle, offset: u64, range: u64)

  /** The outcome of a call that may reach logF, which logs and ends the
    * process instead of returning. */
  datatype Status = Returned(code: int) | Exited

  /** The steps a chain of calls joined by || (or a sequence of early
    * returns) reaches: every step up to and including the first one that
    * fails. */
  function Attempted<T>(chain: seq<T>, ok: T -> bool): (a: seq<T>)
    ensures |a| <= |chain|
  {
    if chain == [] then []
    else if !ok(chain[0]) then [chain[0]]
    else [chain[0]] + Attempted(chain[1..], ok)
  }

  /** What a chain reaches is a prefix of it in which every step but the
    * last succeeds; it stops short only at a failure, and it is the whole
    * chain, ending in success, exactly when every step succeeds. */
  lemma {:induction false} AttemptedShape<T>(chain: seq<T>, ok: T -> bool)
    ensures var a := Attempted(chain, ok);
      a == chain[..|a|] &&
      (forall k :: 0 <= k < |a| - 1 ==> ok(a[k])) &&
      (|a| < |chain| ==> a != [] && !ok(a[|a| - 1])) &&
      (a == chain && (a == [] || ok(a[|a| - 1])) <==> AllOk(chain, ok))
    decreases |chain|
  {
    if chain != [] {
      AttemptedShape(chain[1..], ok);
      var a := Attempted(chain, ok);
      if ok(chain[0]) {
        var b := Attempted(chain[1..], ok);
        assert a == [chain[0]] + b;
        assert chain == [chain[0]] + chain[1..];
        forall k | 0 <= k < |a| - 1 ensures ok(a[k]) {
          if k > 0 {
            assert a[k] == b[k - 1];
          }
        }
        if AllOk(chain, ok) {
          assert AllOk(chain[1..], ok) by {
            forall k | 0 <= k < |chain| - 1 ensures ok(chain[1..][k]) {
              assert chain[1..][k] == chain[k + 1];
            }
          }
        }
        if AllOk(chain[1..], ok) {
          forall k | 0 <= k < |chain| ensures ok(chain[k]) {
            if k > 0 {
              assert chain[k] == chain[1..][k - 1];
            }
          }
        }
      }
    }
  }

  /** A chain succeeds when every step in it does. */
  predicate AllOk<T>(chain: seq<T>, ok: T -> bool) {
    forall k :: 0 <= k < |chain| ==> ok(chain[k])
  }

  /** Once a step is known to fail, no later step of the chain is reached. */
  lemma {:induction false} AttemptedStopsAtFailure<T>(chain: seq<T>, ok: T -> bool, k: nat)
    requires k < |chain| && !ok(chain[k])
    ensures |Attempted(chain, ok)| <= k + 1
    decreases k
  {
    if k > 0 && ok(chain[0]) {
      AttemptedStopsAtFailure(chain[1..], ok, k - 1);
    }
  }

  /** One step, then the rest of the chain. */
  lemma AttemptedCons<T>(x: T, rest: seq<T>, ok: T -> bool)
    ensures Attempted([x] + rest, ok) == if ok(x) then [x] + Attempted(rest, ok) else [x]
  {
    assert ([x] + rest)[0] == x;
    assert ([x] + rest)[1..] == rest;
  }

  /** Steps that all succeed are passed through; the chain goes on after
    * them. */
  lemma {:induction false} AttemptedAppend<T>(p: seq<T>, q: seq<T>, ok: T -> bool)
    requires AllOk(p, ok)
    ensures Attempted(p + q, ok) == p + Attempted(q, ok)
    decreases |p|
  {
    if p != [] {
      var x, tail := p[0], p[1..];
      assert p == [x] + tail;
      assert ok(x);
      assert AllOk(tail, ok) by {
        forall k | 0 <= k < |tail| ensures ok(tail[k]) {
          assert tail[k] == p[k + 1];
        }
      }
      AttemptedAppend(tail, q, ok);
      assert (p + q)[0] == x && (p + q)[1..] == tail + q;
      assert Attempted(p + q, ok) == [x] + Attempted(tail + q, ok);
      assert [x] + (tail + Attempted(q, ok)) == p + Attempted(q, ok);
    } else {
      assert p + q == q;
    }
  }

  /** A failure among the first steps hides every later step. */
  lemma {:induction false} AttemptedFailsEarly<T>(p: seq<T>, q: seq<T>, ok: T -> bool)
    requires !AllOk(p, ok)
    ensures Attempted(p + q, ok) == Attempted(p, ok)
    decreases |p|
  {
    var x, tail := p[0], p[1..];
    assert p == [x] + tail;
    assert p + q == [x] + (tail + q);
    AttemptedCons(x, tail + q, ok);
    AttemptedCons(x, tail, ok);
    if ok(x) {
      AllOkAppend([x], tail, ok);
      AttemptedFailsEarly(tail, q, ok);
    }
  }

  lemma AllOkAppend<T>(p: seq<T>, q: seq<T>, ok: T -> bool)
    ensures AllOk(p + q, ok) <==> AllOk(p, ok) && AllOk(q, ok)
  {
    if AllOk(p, ok) && AllOk(q, ok) {
      forall k | 0 <= k < |p + q| ensures ok((p + q)[k]) {
        if k >= |p| {
          assert (p + q)[k] == q[k - |p|];
        }
      }
    }
    if AllOk(p + q, ok) {
      forall k | 0 <= k < |q| ensures ok(q[k]) {
        assert q[k] == (p + q)[k + |p|];
      }
      forall k | 0 <= k < |p| ensures ok(p[k]) {
        assert p[k] == (p + q)[k];
      }
    }
  }

  /** a is an initial part of b. */
  ghost predicate IsPrefix<T>(a: seq<T>, b: seq<T>) {
    |a| <= |b| && b[..|a|] == a
  }

  lemma IsPrefixTrans<T>(a: seq<T>, b: seq<T>, c: seq<T>)
    requires IsPrefix(a, b) && IsPrefix(b, c)
    ensures IsPrefix(a, c)
  {
    assert c[..|a|] == c[..|b|][..|a|];
  }

  lemma IsPrefixAppend<T>(p: seq<T>, a: seq<T>, b: seq<T>)
    requires IsPrefix(a, b)
    ensures IsPrefix(p + a, p + b)
  {
    assert (p + b)[..|p + a|] == p + b[..|a|];
  }

  /** A chain whose steps up to x all succeed, and x fails, reaches exactly
    * those steps and x. */
  lemma AttemptedAtFailure<T>(chain: seq<T>, done: seq<T>, x: T, ok: T -> bool)
    requires IsPrefix(done + [x], chain) && AllOk(done, ok) && !ok(x)
    ensures Attempted(chain, ok) == done + [x]
    ensures !AllOk(chain, ok)
  {
    var rest := chain[|done| + 1..];
    assert chain == done + ([x] + rest) by {
      assert chain == chain[..|done| + 1] + rest;
      assert chain[..|done| + 1] == done + [x];
    }
    AttemptedAppend(done, [x] + rest, ok);
    AttemptedCons(x, rest, ok);
    assert chain[|done|] == x;
  }

  /** A chain whose steps all succeed is reached in full. */
  lemma AttemptedAllOk<T>(chain: seq<T>, ok: T -> bool)
    requires AllOk(chain, ok)
    ensures Attempted(chain, ok) == chain
  {
    AttemptedAppend(chain, [], ok);
    assert chain + [] == chain;
  }

  /** True when every bit of `want` is set in `have`. */
  predicate Contains(have: Flags, want: Flags) {
    have & want == want
  }
}
