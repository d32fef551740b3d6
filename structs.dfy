// The small structs of src/language/structs.h whose accessors carry logic:
// the SurfaceSupport classification of a queue family, and FormatProperties,
// whose format is fixed at construction.

module Structs {
  import opened VkTypes

  /** SurfaceSupport: what vkGetPhysicalDeviceSurfaceSupportKHR reported for
    * a queue family. GRAPHICS is only used to request a queue, never stored
    * in a QueueFamilyProperties. */
  const SUPPORT_UNDEFINED: int := 0
  const SUPPORT_NONE: int := 1
  const SUPPORT_PRESENT: int := 2
  const SUPPORT_GRAPHICS: int := 0x1000

  /** VkQueueFamilyProperties, as the driver reports it. */
  datatype VkQueueFamilyProperties = VkQueueFamilyProperties(
    queueFlags: Flags, queueCount: u32, timestampValidBits: u32,
    minImageTransferGranularity: Extent3D)

  /** QueueFamilyProperties: the driver's VkQueueFamilyProperties plus the
    * surface support volcano records per family. */
  datatype QueueFamilyProperties = QueueFamilyProperties(
    queueFamilyProperties: VkQueueFamilyProperties, surfaceSupport: int)

  /** The constructor's reset: everything zero, support UNDEFINED. */
  function ZeroQueueFamily(): (q: QueueFamilyProperties)
    ensures q.queueFamilyProperties.queueFlags == 0 && q.queueFamilyProperties.queueCount == 0
    ensures q.queueFamilyProperties.timestampValidBits == 0
    ensures q.queueFamilyProperties.minImageTransferGranularity == Extent3D(0, 0, 0)
    ensures q.surfaceSupport == SUPPORT_UNDEFINED
  {
    QueueFamilyProperties(VkQueueFamilyProperties(0, 0, 0, Extent3D(0, 0, 0)), SUPPORT_UNDEFINED)
  }

  function SurfaceSupportOf(q: QueueFamilyProperties): int {
    q.surfaceSupport
  }

  /** setSurfaceSupport replaces the recorded support and nothing else. */
  function SetSurfaceSupport(q: QueueFamilyProperties, s: int): (r: QueueFamilyProperties)
    ensures SurfaceSupportOf(r) == s
    ensures r.queueFamilyProperties == q.queueFamilyProperties
  {
    q.(surfaceSupport := s)
  }

  /** Setting the support twice keeps only the second value, and setting it
    * back to what it was restores the family. */
  lemma SetSurfaceSupportLastWins(q: QueueFamilyProperties, s: int, t: int)
    ensures SetSurfaceSupport(SetSurfaceSupport(q, s), t) == SetSurfaceSupport(q, t)
    ensures SetSurfaceSupport(SetSurfaceSupport(q, s), SurfaceSupportOf(q)) == q
  {
  }

  /** isGraphics: the family's queueFlags has VK_QUEUE_GRAPHICS_BIT. */
  predicate IsGraphics(q: QueueFamilyProperties) {
    q.queueFamilyProperties.queueFlags & QUEUE_GRAPHICS != 0
  }

  /** Recording surface support does not change whether a family is a
    * graphics family. */
  lemma IsGraphicsIgnoresSupport(q: QueueFamilyProperties, s: int)
    ensures IsGraphics(SetSurfaceSupport(q, s)) <==> IsGraphics(q)
    ensures IsGraphics(q) <==> Contains(q.queueFamilyProperties.queueFlags, QUEUE_GRAPHICS)
  {
  }

  /** The three feature masks of VkFormatProperties. */
  datatype FormatFeatures = FormatFeatures(linearTilingFeatures: Flags, optimalTilingFeatures: Flags, bufferFeatures: Flags)

  /** FormatProperties: the properties of one format, which is fixed when the
    * object is built. */
  class FormatProperties {
    const format: int
    var features: FormatFeatures

    constructor(format: int)
      ensures this.format == format
      ensures features == FormatFeatures(0, 0, 0)
    {
      this.format := format;
      features := FormatFeatures(0, 0, 0);
    }

    /** getProperties: reset, then let the driver fill the masks for
      * `format`; the driver's answer is the parameter. Both API paths return
      * 0, so the call cannot fail. */
    method GetProperties(reported: FormatFeatures) returns (r: int)
      modifies this`features
      ensures r == 0
      ensures features == reported
    {
      features := FormatFeatures(0, 0, 0);
      features := reported;
      r := 0;
    }
  }
}
