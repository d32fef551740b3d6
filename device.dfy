// The Device of src/language/device.cpp and the swapchain bookkeeping of
// Device::resetSwapChain (src/language/swapchain.cpp): the create-info
// defaults, the default surface format, the present-mode preference, and
// what resetSwapChain hands to vkCreateSwapchainKHR.

module Devices {
  import opened VkTypes
  import opened Wrappers
  import opened Structs
  import opened Swapchain
  import Reflection

  /** VkPresentModeKHR. RANGE_SIZE and MAX_ENUM are placeholders no driver
    * may report. */
  const PRESENT_MODE_IMMEDIATE: int := 0
  const PRESENT_MODE_MAILBOX: int := 1
  const PRESENT_MODE_FIFO: int := 2
  const PRESENT_MODE_FIFO_RELAXED: int := 3
  const PRESENT_MODE_RANGE_SIZE: int := 4
  const PRESENT_MODE_MAX_ENUM: int := 0x7FFF_FFFF

  const COMPOSITE_ALPHA_OPAQUE: Flags := 0x1

  datatype SurfaceFormat = SurfaceFormat(format: int, colorSpace: int)

  /** VkSwapchainCreateInfoKHR; pQueueFamilyIndices is held as a sequence. */
  datatype SwapchainCreateInfo = SwapchainCreateInfo(
    surface: Handle, minImageCount: u32, imageFormat: int, imageColorSpace: int,
    imageExtent: Extent2D, imageArrayLayers: u32, imageUsage: Flags,
    imageSharingMode: int, queueFamilyIndices: seq<u32>, preTransform: Flags,
    compositeAlpha: Flags, presentMode: int, clipped: bool, oldSwapchain: Handle)

  /** A single UNDEFINED entry means the surface lets the application choose. */
  predicate LeavesFormatOpen(formats: seq<SurfaceFormat>) {
    |formats| == 1 && formats[0].format == FORMAT_UNDEFINED
  }

  /** initSurfaceFormat's choice: nothing for an empty list; B8G8R8A8_UNORM
    * in the offered colour space when the surface leaves the format open;
    * otherwise the first entry. */
  function SurfaceFormatFor(formats: seq<SurfaceFormat>): (c: Option<SurfaceFormat>)
    ensures c.None? <==> formats == []
    ensures c.Some? ==> c.value.colorSpace == formats[0].colorSpace
    ensures LeavesFormatOpen(formats) ==> c == Some(SurfaceFormat(FORMAT_B8G8R8A8_UNORM, formats[0].colorSpace))
    ensures c.Some? && !LeavesFormatOpen(formats) ==> c.value == formats[0] && c.value in formats
  {
    if formats == [] then None
    else if LeavesFormatOpen(formats) then Some(SurfaceFormat(FORMAT_B8G8R8A8_UNORM, formats[0].colorSpace))
    else Some(formats[0])
  }

  /** A present mode that makes initPresentMode fail outright. */
  predicate InvalidPresentMode(m: int) {
    m == PRESENT_MODE_RANGE_SIZE || m == PRESENT_MODE_MAX_ENUM
  }

  /** The preference MAILBOX > IMMEDIATE > FIFO_RELAXED > FIFO; other values
    * are ignored (rank 0). */
  function PresentModeRank(m: int): nat {
    if m == PRESENT_MODE_MAILBOX then 4
    else if m == PRESENT_MODE_IMMEDIATE then 3
    else if m == PRESENT_MODE_FIFO_RELAXED then 2
    else if m == PRESENT_MODE_FIFO then 1
    else 0
  }

  /** initPresentMode's choice: the best-ranked mode offered, or None when
    * the list is empty, holds a placeholder value, or offers no known mode. */
  function PreferredPresentMode(modes: seq<int>): (p: Option<int>)
    ensures p.None? <==>
      (exists i :: 0 <= i < |modes| && InvalidPresentMode(modes[i])) ||
      (forall i :: 0 <= i < |modes| ==> PresentModeRank(modes[i]) == 0)
    ensures p.Some? ==> p.value in modes && PresentModeRank(p.value) > 0
    ensures p.Some? ==> forall i :: 0 <= i < |modes| ==> PresentModeRank(modes[i]) <= PresentModeRank(p.value)
  {
    if exists i :: 0 <= i < |modes| && InvalidPresentMode(modes[i]) then None
    else if PRESENT_MODE_MAILBOX in modes then Some(PRESENT_MODE_MAILBOX)
    else if PRESENT_MODE_IMMEDIATE in modes then Some(PRESENT_MODE_IMMEDIATE)
    else if PRESENT_MODE_FIFO_RELAXED in modes then Some(PRESENT_MODE_FIFO_RELAXED)
    else if PRESENT_MODE_FIFO in modes then Some(PRESENT_MODE_FIFO)
    else None
  }

  /** The choice depends only on which modes are offered, not on their order
    * or repetition. */
  lemma PreferredPresentModeIgnoresOrder(a: seq<int>, b: seq<int>)
    requires forall m :: m in a <==> m in b
    ensures PreferredPresentMode(a) == PreferredPresentMode(b)
  {
    if exists i :: 0 <= i < |a| && InvalidPresentMode(a[i]) {
      var i :| 0 <= i < |a| && InvalidPresentMode(a[i]);
      assert a[i] in b;
    } else if exists i :: 0 <= i < |b| && InvalidPresentMode(b[i]) {
      var i :| 0 <= i < |b| && InvalidPresentMode(b[i]);
      assert b[i] in a;
    }
  }

  class Device {
    var swapChainInfo: SwapchainCreateInfo
    var swapChain: Handle
    var surfaceFormats: seq<SurfaceFormat>
    var presentModes: seq<int>
    /** Names of availableExtensions (VkExtensionProperties::extensionName). */
    var availableExtensions: seq<string>
    var requiredExtensions: seq<string>
    var qfams: seq<QueueFamilyProperties>
    /** physProp.properties.apiVersion. */
    var physApiVersion: u32
    /** apiVersionInUse(): the lowest version of the instance and devices,
      * computed outside this model. */
    var apiVersionInUse: u32
    const availableFeatures: Reflection.DeviceFeatures
    const enabledFeatures: Reflection.DeviceFeatures

    /** The two feature sets are separate objects with separate registries. */
    predicate Valid()
      reads this, availableFeatures, enabledFeatures
    {
      availableFeatures != enabledFeatures && availableFeatures.reflect != enabledFeatures.reflect
    }

    /** Device::Device: a zeroed create-info naming `surface`, with one array
      * layer, COLOR_ATTACHMENT usage, OPAQUE composite alpha and clipping. */
    constructor(surface: Handle)
      ensures Valid() && fresh(availableFeatures) && fresh(enabledFeatures)
      ensures fresh(availableFeatures.reflect) && fresh(enabledFeatures.reflect)
      ensures swapChainInfo == SwapchainCreateInfo(surface, 0, FORMAT_UNDEFINED, 0, Extent2D(0, 0), 1,
                                                   IMAGE_USAGE_COLOR_ATTACHMENT, SHARING_EXCLUSIVE, [], 0,
                                                   COMPOSITE_ALPHA_OPAQUE, PRESENT_MODE_IMMEDIATE, true, NULL_HANDLE)
      ensures swapChain == NULL_HANDLE
      ensures surfaceFormats == [] && presentModes == [] && qfams == []
      ensures availableExtensions == [] && requiredExtensions == []
    {
      var info := SwapchainCreateInfo(0, 0, 0, 0, Extent2D(0, 0), 0, 0, 0, [], 0, 0, 0, false, 0);
      info := info.(surface := surface);
      info := info.(imageArrayLayers := 1);
      info := info.(imageUsage := IMAGE_USAGE_COLOR_ATTACHMENT);
      info := info.(compositeAlpha := COMPOSITE_ALPHA_OPAQUE);
      info := info.(clipped := true);
      swapChainInfo := info;
      swapChain := NULL_HANDLE;
      surfaceFormats := [];
      presentModes := [];
      availableExtensions := [];
      requiredExtensions := [];
      qfams := [];
      physApiVersion := 0;
      apiVersionInUse := 0;
      var available := NewFeatures();
      var enabled := NewFeatures();
      availableFeatures := available;
      enabledFeatures := enabled;
    }

    /** A default-constructed DeviceFeatures member. What its registry holds
      * is stated by the DeviceFeatures constructor; the Device constructor
      * relies only on the objects being new. */
    static method NewFeatures() returns (f: Reflection.DeviceFeatures)
      ensures fresh(f) && fresh(f.reflect)
    {
      f := new Reflection.DeviceFeatures();
    }

    /** initSurfaceFormat: 1 on an empty list; otherwise the chosen format
      * and colour space are written into swapChainInfo. */
    method InitSurfaceFormat() returns (r: int)
      modifies this`swapChainInfo
      ensures var c := SurfaceFormatFor(surfaceFormats);
        (c.None? ==> r == 1 && swapChainInfo == old(swapChainInfo)) &&
        (c.Some? ==>
           r == 0 &&
           swapChainInfo == old(swapChainInfo).(imageFormat := c.value.format, imageColorSpace := c.value.colorSpace))
    {
      if |surfaceFormats| == 0 {
        return 1;
      }
      if |surfaceFormats| == 1 && surfaceFormats[0].format == FORMAT_UNDEFINED {
        swapChainInfo := swapChainInfo.(imageFormat := FORMAT_B8G8R8A8_UNORM);
        swapChainInfo := swapChainInfo.(imageColorSpace := surfaceFormats[0].colorSpace);
        return 0;
      }
      swapChainInfo := swapChainInfo.(imageFormat := surfaceFormats[0].format);
      swapChainInfo := swapChainInfo.(imageColorSpace := surfaceFormats[0].colorSpace);
      return 0;
    }

    /** initPresentMode: scan the offered modes once, failing at a
      * placeholder value, then write the preferred mode. A missing FIFO only
      * warns. */
    method InitPresentMode() returns (r: int)
      modifies this`swapChainInfo
      ensures var p := PreferredPresentMode(presentModes);
        (p.None? ==> r == 1 && swapChainInfo == old(swapChainInfo)) &&
        (p.Some? ==> r == 0 && swapChainInfo == old(swapChainInfo).(presentMode := p.value))
    {
      if |presentModes| == 0 {
        return 1;
      }
      var haveMailbox, haveImmediate, haveFIFO, haveFIFOrelaxed := false, false, false, false;
      var i := 0;
      while i < |presentModes|
        invariant 0 <= i <= |presentModes|
        invariant forall j :: 0 <= j < i ==> !InvalidPresentMode(presentModes[j])
        invariant haveMailbox <==> PRESENT_MODE_MAILBOX in presentModes[..i]
        invariant haveImmediate <==> PRESENT_MODE_IMMEDIATE in presentModes[..i]
        invariant haveFIFO <==> PRESENT_MODE_FIFO in presentModes[..i]
        invariant haveFIFOrelaxed <==> PRESENT_MODE_FIFO_RELAXED in presentModes[..i]
      {
        var m := presentModes[i];
        assert presentModes[..i + 1] == presentModes[..i] + [m];
        if m == PRESENT_MODE_MAILBOX {
          haveMailbox := true;
        } else if m == PRESENT_MODE_IMMEDIATE {
          haveImmediate := true;
        } else if m == PRESENT_MODE_FIFO {
          haveFIFO := true;
        } else if m == PRESENT_MODE_FIFO_RELAXED {
          haveFIFOrelaxed := true;
        } else if InvalidPresentMode(m) {
          return 1;
        }
        i := i + 1;
      }
      assert presentModes[..i] == presentModes;
      if haveMailbox {
        swapChainInfo := swapChainInfo.(presentMode := PRESENT_MODE_MAILBOX);
      } else if haveImmediate {
        swapChainInfo := swapChainInfo.(presentMode := PRESENT_MODE_IMMEDIATE);
      } else if haveFIFOrelaxed {
        swapChainInfo := swapChainInfo.(presentMode := PRESENT_MODE_FIFO_RELAXED);
      } else if haveFIFO {
        swapChainInfo := swapChainInfo.(presentMode := PRESENT_MODE_FIFO);
      } else {
        return 1;
      }
      return 0;
    }

    /** initSurfaceFormatAndPresentMode: `formats` and `modes` are the
      * driver's lists (None when a query failed). Empty lists return 0
      * without choosing anything. */
    method InitSurfaceFormatAndPresentMode(formats: Option<seq<SurfaceFormat>>, modes: Option<seq<int>>)
      returns (r: int)
      modifies this`surfaceFormats, this`presentModes, this`swapChainInfo
      ensures formats.None? ==> r == 1 && unchanged(this)
      ensures formats.Some? ==> surfaceFormats == formats.value
      ensures formats.Some? && modes.None? ==>
        r == 1 && presentModes == old(presentModes) && swapChainInfo == old(swapChainInfo)
      ensures formats.Some? && modes.Some? ==> presentModes == modes.value
      ensures formats.Some? && modes.Some? && (formats.value == [] || modes.value == []) ==>
        r == 0 && swapChainInfo == old(swapChainInfo)
      ensures formats.Some? && modes.Some? && formats.value != [] && modes.value != [] ==>
        var c := SurfaceFormatFor(formats.value);
        var p := PreferredPresentMode(modes.value);
        var chosen := old(swapChainInfo).(imageFormat := c.value.format, imageColorSpace := c.value.colorSpace);
        (p.None? ==> r == 1 && swapChainInfo == chosen) &&
        (p.Some? ==> r == 0 && swapChainInfo == chosen.(presentMode := p.value))
    {
      if formats.None? {
        return 1;
      }
      surfaceFormats := formats.value;
      if modes.None? {
        return 1;
      }
      presentModes := modes.value;
      if |surfaceFormats| == 0 || |presentModes| == 0 {
        return 0;
      }
      r := InitSurfaceFormat();
      if r != 0 {
        return r;
      }
      r := InitPresentMode();
      if r != 0 {
        return r;
      }
      return 0;
    }

    /** resetSwapChain. `caps` is the surface-capabilities query (None when
      * it failed), presentFamily and graphicsFamily are getQfamI's size_t
      * results (cast to uint32_t), `created` is vkCreateSwapchainKHR's new
      * handle (None on failure), and imagesOk / framebufsOk stand for the
      * image query and addOrUpdateFramebufs. `scci` is the create info
      * passed to the driver. */
    method ResetSwapChain(caps: Option<SurfaceCapabilities>, presentFamily: u64, graphicsFamily: u64,
                          created: Option<Handle>, imagesOk: bool, framebufsOk: bool)
      returns (r: Status, scci: SwapchainCreateInfo)
      modifies this`swapChainInfo, this`swapChain
      ensures caps.None? ==> r == Returned(1) && unchanged(this)
      ensures caps.Some? && SurfaceExtent2D(caps.value, old(swapChainInfo.imageExtent)).Fatal? ==>
        r == Exited && unchanged(this)
      ensures caps.Some? && SurfaceExtent2D(caps.value, old(swapChainInfo.imageExtent)).Chosen? ==>
        var e := SurfaceExtent2D(caps.value, old(swapChainInfo.imageExtent)).extent;
        var sharing := SharingFor(presentFamily % U32_LIMIT, graphicsFamily % U32_LIMIT);
        swapChainInfo == old(swapChainInfo).(imageExtent := e, preTransform := caps.value.currentTransform,
                                             minImageCount := MinRequestedImages(caps.value)) &&
        scci == swapChainInfo.(oldSwapchain := old(swapChain), imageSharingMode := sharing.imageSharingMode,
                               queueFamilyIndices := sharing.queueFamilyIndices) &&
        (created.None? ==> r == Returned(1) && swapChain == old(swapChain)) &&
        (created.Some? ==> swapChain == created.value &&
                           r == Returned(if imagesOk && framebufsOk then 0 else 1))
    {
      scci := swapChainInfo;
      if caps.None? {
        return Returned(1), scci;
      }
      var scap := caps.value;
      var extent := SurfaceExtent2D(scap, swapChainInfo.imageExtent);
      if extent.Fatal? {
        return Exited, scci;
      }
      swapChainInfo := swapChainInfo.(imageExtent := extent.extent);
      swapChainInfo := swapChainInfo.(preTransform := scap.currentTransform);
      swapChainInfo := swapChainInfo.(minImageCount := MinRequestedImages(scap));

      scci := swapChainInfo;
      scci := scci.(oldSwapchain := NULL_HANDLE);
      if swapChain != NULL_HANDLE {
        scci := scci.(oldSwapchain := swapChain);
      }
      var presentI: u32 := presentFamily % U32_LIMIT;
      var graphicsI: u32 := graphicsFamily % U32_LIMIT;
      if presentI == graphicsI {
        scci := scci.(imageSharingMode := SHARING_EXCLUSIVE, queueFamilyIndices := []);
      } else {
        scci := scci.(imageSharingMode := SHARING_CONCURRENT, queueFamilyIndices := [presentI, graphicsI]);
      }
      assert scci == swapChainInfo.(oldSwapchain := swapChain,
                                    imageSharingMode := SharingFor(presentI, graphicsI).imageSharingMode,
                                    queueFamilyIndices := SharingFor(presentI, graphicsI).queueFamilyIndices);
      if created.None? {
        return Returned(1), scci;
      }
      swapChain := created.value;
      if !imagesOk {
        return Returned(1), scci;
      }
      if !framebufsOk {
        return Returned(1), scci;
      }
      return Returned(0), scci;
    }
  }
}
