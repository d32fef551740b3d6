// The pure negotiation rules of Device::resetSwapChain: how many swapchain
// images to ask for, which extent to use, and how the PRESENT and GRAPHICS
// queue families share the images (VkSurfaceCapabilitiesKHR and
// VkSwapchainCreateInfoKHR, Window System Integration chapter of the Vulkan
// specification).

module Swapchain {
  import opened VkTypes

  datatype SurfaceCapabilities = SurfaceCapabilities(
    minImageCount: u32, maxImageCount: u32,
    currentExtent: Extent2D, minImageExtent: Extent2D, maxImageExtent: Extent2D,
    maxImageArrayLayers: u32, supportedTransforms: Flags, currentTransform: Flags,
    supportedCompositeAlpha: Flags, supportedUsageFlags: Flags)

  /** calculateMinRequestedImages: one image more than the minimum (the
    * uint32_t increment wraps), capped by maxImageCount unless that is 0,
    * which means there is no maximum. */
  function MinRequestedImages(scap: SurfaceCapabilities): (n: u32)
    ensures scap.maxImageCount > 0 ==> n <= scap.maxImageCount
    ensures scap.minImageCount < UINT32_MAX && scap.maxImageCount == 0 ==> n == scap.minImageCount + 1
    ensures scap.minImageCount < UINT32_MAX && scap.maxImageCount > scap.minImageCount ==>
      n == scap.minImageCount + 1
    ensures scap.minImageCount < UINT32_MAX && 0 < scap.maxImageCount <= scap.minImageCount ==>
      n == scap.maxImageCount
    ensures scap.minImageCount == UINT32_MAX ==> n == 0
  {
    var imageCount := (scap.minImageCount + 1) % U32_LIMIT;
    if scap.maxImageCount > 0 && imageCount > scap.maxImageCount then scap.maxImageCount else imageCount
  }

  /** The request is at least the minimum whenever the surface can give it. */
  lemma MinRequestedImagesAtLeastMinimum(scap: SurfaceCapabilities)
    requires scap.minImageCount < UINT32_MAX
    requires scap.maxImageCount == 0 || scap.minImageCount <= scap.maxImageCount
    ensures scap.minImageCount <= MinRequestedImages(scap)
  {
  }

  /** The outcome of a computation that may call logF, which logs and ends
    * the process. */
  datatype ExtentChoice = Chosen(extent: Extent2D) | Fatal

  function Max(a: u32, b: u32): u32 { if a < b then b else a }
  function Min(a: u32, b: u32): u32 { if a < b then a else b }

  predicate InRange(lo: Extent2D, hi: Extent2D, e: Extent2D) {
    lo.width <= e.width <= hi.width && lo.height <= e.height <= hi.height
  }

  /** A zero or inverted maximum extent means the window is minimized. */
  predicate Minimized(scap: SurfaceCapabilities) {
    var lo, hi := scap.minImageExtent, scap.maxImageExtent;
    hi.width == 0 || hi.height == 0 || hi.width < lo.width || hi.height < lo.height
  }

  /** calculateSurfaceExtent2D: the surface's own extent when it has one
    * (width != UINT32_MAX); otherwise the request clamped into
    * [minImageExtent, maxImageExtent], per dimension. */
  function SurfaceExtent2D(scap: SurfaceCapabilities, request: Extent2D): (r: ExtentChoice)
    ensures scap.currentExtent.width != UINT32_MAX ==> r == Chosen(scap.currentExtent)
    ensures scap.currentExtent.width == UINT32_MAX ==> (r.Fatal? <==> Minimized(scap))
    ensures scap.currentExtent.width == UINT32_MAX && r.Chosen? ==>
      InRange(scap.minImageExtent, scap.maxImageExtent, r.extent)
  {
    var lo, hi := scap.minImageExtent, scap.maxImageExtent;
    if scap.currentExtent.width != UINT32_MAX then Chosen(scap.currentExtent)
    else if Minimized(scap) then Fatal
    else Chosen(Extent2D(Max(lo.width, Min(hi.width, request.width)),
                         Max(lo.height, Min(hi.height, request.height))))
  }

  /** Each dimension of the request is clamped on its own: one above the
    * maximum becomes the maximum, one below the minimum becomes the minimum,
    * and one in between is kept. */
  lemma SurfaceExtentClamps(scap: SurfaceCapabilities, request: Extent2D)
    requires scap.currentExtent.width == UINT32_MAX && !Minimized(scap)
    ensures var e := SurfaceExtent2D(scap, request).extent;
      var lo, hi := scap.minImageExtent, scap.maxImageExtent;
      (request.width > hi.width ==> e.width == hi.width) &&
      (request.width < lo.width ==> e.width == lo.width) &&
      (lo.width <= request.width <= hi.width ==> e.width == request.width) &&
      (request.height > hi.height ==> e.height == hi.height) &&
      (request.height < lo.height ==> e.height == lo.height) &&
      (lo.height <= request.height <= hi.height ==> e.height == request.height)
  {
  }

  /** A request the surface can honour is returned unchanged. */
  lemma SurfaceExtentKeepsFittingRequest(scap: SurfaceCapabilities, request: Extent2D)
    requires scap.currentExtent.width == UINT32_MAX
    requires InRange(scap.minImageExtent, scap.maxImageExtent, request)
    requires scap.maxImageExtent.width > 0 && scap.maxImageExtent.height > 0
    ensures SurfaceExtent2D(scap, request) == Chosen(request)
  {
  }

  /** Choosing again from a chosen extent changes nothing, so a resize to
    * the current size is stable. */
  lemma SurfaceExtentIdempotent(scap: SurfaceCapabilities, request: Extent2D)
    requires SurfaceExtent2D(scap, request).Chosen?
    ensures SurfaceExtent2D(scap, SurfaceExtent2D(scap, request).extent) == SurfaceExtent2D(scap, request)
  {
    if scap.currentExtent.width == UINT32_MAX {
      SurfaceExtentKeepsFittingRequest(scap, SurfaceExtent2D(scap, request).extent);
    }
  }

  /** How the swapchain images are shared between the PRESENT and GRAPHICS
    * queue families. */
  datatype Sharing = Sharing(imageSharingMode: int, queueFamilyIndices: seq<u32>)

  function SharingFor(presentFamily: u32, graphicsFamily: u32): (s: Sharing)
    ensures s.imageSharingMode == SHARING_EXCLUSIVE <==> presentFamily == graphicsFamily
    ensures s.imageSharingMode in {SHARING_EXCLUSIVE, SHARING_CONCURRENT}
    ensures s.imageSharingMode == SHARING_EXCLUSIVE ==> s.queueFamilyIndices == []
    ensures s.imageSharingMode == SHARING_CONCURRENT ==> s.queueFamilyIndices == [presentFamily, graphicsFamily]
  {
    if presentFamily == graphicsFamily then Sharing(SHARING_EXCLUSIVE, [])
    else Sharing(SHARING_CONCURRENT, [presentFamily, graphicsFamily])
  }

  /** CONCURRENT sharing always names two distinct families; the decision
    * does not depend on which family is PRESENT and which GRAPHICS. */
  lemma SharingConcurrentDistinct(p: u32, g: u32)
    requires SharingFor(p, g).imageSharingMode == SHARING_CONCURRENT
    ensures |SharingFor(p, g).queueFamilyIndices| == 2
    ensures SharingFor(p, g).queueFamilyIndices[0] != SharingFor(p, g).queueFamilyIndices[1]
    ensures SharingFor(g, p).imageSharingMode == SHARING_CONCURRENT
  {
  }
}
