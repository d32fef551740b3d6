// Instance::initSupportedQueues and the queue-family enumeration of
// src/language/supported_queues.cpp: copying the driver's queue families
// into Device::qfams, forcing TRANSFER on for GRAPHICS and COMPUTE families
// (VkQueueFlagBits, chapter 4 of the Vulkan specification), recording which
// families can present, and requiring the swapchain extension.

module Queues {
  import opened VkTypes
  import opened Wrappers
  import opened Structs
  import opened Devices
  import Reflection

  const SWAPCHAIN_EXTENSION: string := "VK_KHR_swapchain"

  /** The features initSupportedQueues enables on every device. */
  const WIDELY_SUPPORTED: seq<string> := [
    "inheritedQueries", "robustBufferAccess", "samplerAnisotropy",
    "occlusionQueryPrecise", "textureCompressionETC2",
    "textureCompressionASTC_LDR", "textureCompressionBC"]

  const VK_TRUE: int := 1

  /** The family list templGetQueueFamilies leaves: `count` zero-initialised
    * entries (the size of the first query), of which the first |reported|
    * hold what the driver wrote. */
  function Padded(count: nat, reported: seq<VkQueueFamilyProperties>): (q: seq<QueueFamilyProperties>)
    ensures |q| == count
    ensures forall i :: 0 <= i < count ==> q[i].surfaceSupport == SUPPORT_UNDEFINED
    ensures forall i :: 0 <= i < count && i < |reported| ==> q[i].queueFamilyProperties == reported[i]
    ensures forall i :: |reported| <= i < count ==> q[i] == ZeroQueueFamily()
  {
    seq(count, i requires 0 <= i < count => PaddedEntry(i, reported))
  }

  function PaddedEntry(i: nat, reported: seq<VkQueueFamilyProperties>): (q: QueueFamilyProperties)
    ensures q.surfaceSupport == SUPPORT_UNDEFINED
  {
    if i < |reported| then QueueFamilyProperties(reported[i], SUPPORT_UNDEFINED) else ZeroQueueFamily()
  }

  /** templGetQueueFamilies with mapQueueFamiliyProperties; the 1.0 and 1.1
    * entry points behave alike here. `firstCount` is the count the first
    * driver call reports and `reported` what the second call writes (its
    * length is the second count). A second count larger than the first
    * reaches logF. */
  method GetQueueFamilies(dev: Device, firstCount: u32, reported: seq<VkQueueFamilyProperties>)
    returns (r: Status)
    modifies dev`qfams
    ensures firstCount == 0 ==> r == Returned(1) && dev.qfams == old(dev.qfams)
    ensures firstCount > 0 && |reported| > firstCount ==> r == Exited && dev.qfams == old(dev.qfams)
    ensures 0 < firstCount && |reported| <= firstCount ==>
      r == Returned(0) && dev.qfams == Padded(firstCount, reported)
  {
    if firstCount == 0 {
      return Returned(1);
    }
    var qfp := seq(firstCount, i requires 0 <= i < firstCount =>
      if i < |reported| then reported[i] else ZeroQueueFamily().queueFamilyProperties);
    if |reported| > |qfp| {
      return Exited;
    }
    MapQueueFamilyProperties(dev, qfp);
    assert qfp == seq(firstCount, i requires 0 <= i < firstCount =>
      if i < |reported| then reported[i] else ZeroQueueFamily().queueFamilyProperties);
    assert forall i :: 0 <= i < firstCount ==> dev.qfams[i] == Padded(firstCount, reported)[i];
    return Returned(0);
  }

  /** mapQueueFamiliyProperties after the enumeration: qfams is cleared,
    * resized to |v| fresh entries, and entry i receives v[i]. */
  method MapQueueFamilyProperties(dev: Device, v: seq<VkQueueFamilyProperties>)
    modifies dev`qfams
    ensures |dev.qfams| == |v|
    ensures forall i :: 0 <= i < |v| ==> dev.qfams[i] == QueueFamilyProperties(v[i], SUPPORT_UNDEFINED)
  {
    dev.qfams := [];
    dev.qfams := seq(|v|, i => ZeroQueueFamily());
    var i := 0;
    while i < |v|
      invariant 0 <= i <= |v| && |dev.qfams| == |v|
      invariant forall j :: 0 <= j < i ==> dev.qfams[j] == QueueFamilyProperties(v[j], SUPPORT_UNDEFINED)
      invariant forall j :: i <= j < |v| ==> dev.qfams[j] == ZeroQueueFamily()
    {
      dev.qfams := dev.qfams[i := dev.qfams[i].(queueFamilyProperties := v[i])];
      i := i + 1;
    }
  }

  /** GRAPHICS or COMPUTE imply TRANSFER, so TRANSFER is set for them. */
  function WithTransfer(flags: Flags): (f: Flags)
    ensures flags & (QUEUE_GRAPHICS | QUEUE_COMPUTE) != 0 ==> Contains(f, QUEUE_TRANSFER)
    ensures flags & (QUEUE_GRAPHICS | QUEUE_COMPUTE) == 0 ==> f == flags
    ensures f & !QUEUE_TRANSFER == flags & !QUEUE_TRANSFER
  {
    if flags & (QUEUE_GRAPHICS | QUEUE_COMPUTE) != 0 then flags | QUEUE_TRANSFER else flags
  }

  lemma WithTransferIdempotent(flags: Flags)
    ensures WithTransfer(WithTransfer(flags)) == WithTransfer(flags)
  {
  }

  function Transferred(q: QueueFamilyProperties): QueueFamilyProperties {
    q.(queueFamilyProperties := q.queueFamilyProperties.(queueFlags := WithTransfer(q.queueFamilyProperties.queueFlags)))
  }

  /** A family after the loop body: TRANSFER normalised, support NONE, and
    * PRESENT when the driver said so. */
  function Classified(q: QueueFamilyProperties, present: bool): (c: QueueFamilyProperties)
    ensures c.surfaceSupport == (if present then SUPPORT_PRESENT else SUPPORT_NONE)
    ensures c.queueFamilyProperties.queueFlags == WithTransfer(q.queueFamilyProperties.queueFlags)
    ensures c.queueFamilyProperties.queueCount == q.queueFamilyProperties.queueCount
  {
    SetSurfaceSupport(SetSurfaceSupport(Transferred(q), SUPPORT_NONE),
                      if present then SUPPORT_PRESENT else SUPPORT_NONE)
  }

  /** Every family classified, family i presenting when Presents(...) holds. */
  function ClassifiedAll(qs: seq<QueueFamilyProperties>, surface: Handle, support: nat -> Option<bool>): (c: seq<QueueFamilyProperties>)
    ensures |c| == |qs|
    ensures forall i :: 0 <= i < |qs| ==> c[i] == Classified(qs[i], Presents(surface, support, i))
  {
    seq(|qs|, i requires 0 <= i < |qs| => Classified(qs[i], Presents(surface, support, i)))
  }

  /** The first family, from `i` on, whose support query fails; `n` when none
    * does. Without a surface nothing is queried. */
  function FirstQueryFailure(i: nat, n: nat, surface: Handle, support: nat -> Option<bool>): (k: nat)
    requires i <= n
    ensures i <= k <= n
    ensures k < n ==> surface != NULL_HANDLE && support(k).None?
    ensures forall j :: i <= j < k ==> surface == NULL_HANDLE || support(j).Some?
    decreases n - i
  {
    if i == n then n
    else if surface != NULL_HANDLE && support(i).None? then i
    else FirstQueryFailure(i + 1, n, surface, support)
  }

  predicate Presents(surface: Handle, support: nat -> Option<bool>, i: nat) {
    surface != NULL_HANDLE && support(i) == Some(true)
  }

  /** The qfams loop of initSupportedQueues. `support(i)` is the driver's
    * vkGetPhysicalDeviceSurfaceSupportKHR answer for family i (None when the
    * query fails). The loop stops at the first failed query, leaving that
    * family normalised and NONE and the later ones untouched. */
  method ClassifyQueueFamilies(dev: Device, support: nat -> Option<bool>) returns (r: int, onePresent: bool)
    modifies dev`qfams
    ensures var n, s := |old(dev.qfams)|, dev.swapChainInfo.surface;
      var k := FirstQueryFailure(0, n, s, support);
      |dev.qfams| == n &&
      (forall i :: 0 <= i < k ==> dev.qfams[i] == Classified(old(dev.qfams)[i], Presents(s, support, i))) &&
      (k < n ==> r == VK_ERROR_INITIALIZATION_FAILED &&
                 dev.qfams[k] == Classified(old(dev.qfams)[k], false) &&
                 forall i :: k < i < n ==> dev.qfams[i] == old(dev.qfams)[i]) &&
      (k == n ==> r == VK_SUCCESS && dev.qfams == ClassifiedAll(old(dev.qfams), s, support) &&
                  (onePresent <==> exists i :: 0 <= i < n && dev.qfams[i].surfaceSupport == SUPPORT_PRESENT))
  {
    ghost var q0 := dev.qfams;
    var n := |dev.qfams|;
    var s := dev.swapChainInfo.surface;
    onePresent := false;
    var i := 0;
    while i < n
      invariant 0 <= i <= n
      invariant FirstQueryFailure(0, n, s, support) == FirstQueryFailure(i, n, s, support)
      invariant dev.qfams == PartlyClassified(q0, i, s, support)
      invariant onePresent <==> AnyPresents(i, s, support)
    {
      var failed, present := ClassifyAt(dev, i, s, support);
      if failed {
        assert FirstQueryFailure(i, n, s, support) == i;
        return VK_ERROR_INITIALIZATION_FAILED, onePresent;
      }
      onePresent := onePresent || present;
      PartlyClassifiedStep(q0, i, s, support);
      AnyPresentsStep(i, s, support);
      i := i + 1;
    }
    assert dev.qfams == ClassifiedAll(q0, s, support);
    return VK_SUCCESS, onePresent;
  }

  /** The families after the qfams loop has classified the first i. */
  function PartlyClassified(q0: seq<QueueFamilyProperties>, i: nat, s: Handle, support: nat -> Option<bool>)
    : (c: seq<QueueFamilyProperties>)
    requires i <= |q0|
    ensures |c| == |q0|
    ensures forall j :: 0 <= j < i ==> c[j] == Classified(q0[j], Presents(s, support, j))
    ensures forall j :: i <= j < |q0| ==> c[j] == q0[j]
  {
    seq(|q0|, j requires 0 <= j < |q0| => if j < i then Classified(q0[j], Presents(s, support, j)) else q0[j])
  }

  lemma PartlyClassifiedStep(q0: seq<QueueFamilyProperties>, i: nat, s: Handle, support: nat -> Option<bool>)
    requires i < |q0|
    ensures PartlyClassified(q0, i, s, support)[i := Classified(q0[i], Presents(s, support, i))] ==
            PartlyClassified(q0, i + 1, s, support)
  {
  }

  lemma AnyPresentsStep(i: nat, s: Handle, support: nat -> Option<bool>)
    ensures AnyPresents(i + 1, s, support) <==> AnyPresents(i, s, support) || Presents(s, support, i)
  {
    if Presents(s, support, i) {
      assert 0 <= i < i + 1 && Presents(s, support, i);
    }
  }

  /** One pass of the qfams loop body on family i: TRANSFER normalised and
    * support NONE, then PRESENT when the support query says so. `failed`
    * tells that the query ran and failed. */
  method ClassifyAt(dev: Device, i: nat, s: Handle, support: nat -> Option<bool>) returns (failed: bool, present: bool)
    requires i < |dev.qfams|
    modifies dev`qfams
    ensures failed <==> s != NULL_HANDLE && support(i).None?
    ensures present <==> Presents(s, support, i)
    ensures dev.qfams == old(dev.qfams)[i := Classified(old(dev.qfams)[i], present)]
  {
    var q := dev.qfams[i];
    q := q.(queueFamilyProperties := q.queueFamilyProperties.(queueFlags := WithTransfer(q.queueFamilyProperties.queueFlags)));
    q := SetSurfaceSupport(q, SUPPORT_NONE);
    assert q == SetSurfaceSupport(Transferred(old(dev.qfams)[i]), SUPPORT_NONE);
    dev.qfams := dev.qfams[i := q];
    failed, present := false, false;
    if s != NULL_HANDLE {
      var v := support(i);
      if v.None? {
        return true, false;
      }
      if v.value {
        present := true;
        dev.qfams := dev.qfams[i := SetSurfaceSupport(dev.qfams[i], SUPPORT_PRESENT)];
      }
    }
  }

  /** The swapchain-extension check: a present-capable device must offer
    * VK_KHR_swapchain, which is then appended to requiredExtensions once. */
  method RequireSwapchainExtension(dev: Device) returns (r: int)
    modifies dev`requiredExtensions
    ensures SWAPCHAIN_EXTENSION in dev.availableExtensions ==>
      r == VK_SUCCESS && dev.requiredExtensions == old(dev.requiredExtensions) + [SWAPCHAIN_EXTENSION]
    ensures SWAPCHAIN_EXTENSION !in dev.availableExtensions ==>
      r == VK_ERROR_DEVICE_LOST && dev.requiredExtensions == old(dev.requiredExtensions)
  {
    var j := 0;
    while j < |dev.availableExtensions|
      invariant 0 <= j <= |dev.availableExtensions|
      invariant SWAPCHAIN_EXTENSION !in dev.availableExtensions[..j]
      invariant dev.requiredExtensions == old(dev.requiredExtensions)
    {
      if dev.availableExtensions[j] == SWAPCHAIN_EXTENSION {
        dev.requiredExtensions := dev.requiredExtensions + [SWAPCHAIN_EXTENSION];
        break;
      }
      j := j + 1;
    }
    if j >= |dev.availableExtensions| {
      assert dev.availableExtensions[..j] == dev.availableExtensions;
      return VK_ERROR_DEVICE_LOST;
    }
    return VK_SUCCESS;
  }

  /** What setting each name to `value` in turn does to a feature registry:
    * whether all calls succeeded and the storage afterwards. It stops at the
    * first name that fails. */
  function SetEach(fields: map<string, Reflection.Pointer>, memory: map<Reflection.FieldRef, int>,
                   names: seq<string>, value: int): (r: (bool, map<Reflection.FieldRef, int>))
    ensures r.0 <==> forall i :: 0 <= i < |names| ==>
      names[i] in fields && Reflection.Accessible(fields[names[i]], Reflection.Bool32)
    decreases |names|
  {
    if names == [] then (true, memory)
    else if names[0] !in fields || !Reflection.Accessible(fields[names[0]], Reflection.Bool32) then (false, memory)
    else
      var rest := SetEach(fields, memory[fields[names[0]].target := value], names[1..], value);
      assert forall i :: 1 <= i < |names| ==> names[i] == names[1..][i - 1];
      rest
  }

  /** Enable the widely supported features in enabledFeatures, stopping at
    * the first name the registry cannot set. */
  method EnableWidelySupported(features: Reflection.DeviceFeatures) returns (r: int)
    modifies features.reflect`memory
    ensures var e := SetEach(features.reflect.fields, old(features.reflect.memory), WIDELY_SUPPORTED, VK_TRUE);
      features.reflect.memory == e.1 &&
      (e.0 ==> r == VK_SUCCESS) && (!e.0 ==> r == VK_ERROR_INITIALIZATION_FAILED)
  {
    var names := WIDELY_SUPPORTED;
    var i := 0;
    while i < |names|
      invariant 0 <= i <= |names|
      invariant SetEach(features.reflect.fields, features.reflect.memory, names[i..], VK_TRUE) ==
                SetEach(features.reflect.fields, old(features.reflect.memory), names, VK_TRUE)
    {
      var s := features.SetBool(names[i], VK_TRUE);
      if s != 0 {
        return VK_ERROR_INITIALIZATION_FAILED;
      }
      assert names[i..][1..] == names[i + 1..];
      i := i + 1;
    }
    return VK_SUCCESS;
  }

  /** Whether the first half of initSupportedQueues gets through: the
    * device is new enough, every widely supported feature can be set, the
    * queue-family enumeration is well formed, and no support query fails. */
  predicate ProbeSucceeds(minApiVersion: int, dev: Device, firstCount: u32, reported: seq<VkQueueFamilyProperties>,
                          support: nat -> Option<bool>)
    reads dev, dev.enabledFeatures, dev.enabledFeatures.reflect
  {
    dev.physApiVersion >= minApiVersion &&
    SetEach(dev.enabledFeatures.reflect.fields, dev.enabledFeatures.reflect.memory, WIDELY_SUPPORTED, VK_TRUE).0 &&
    0 < firstCount && |reported| <= firstCount &&
    FirstQueryFailure(0, firstCount as nat, dev.swapChainInfo.surface, support) == firstCount as nat
  }

  /** Some of the first n families can present. */
  predicate AnyPresents(n: nat, surface: Handle, support: nat -> Option<bool>) {
    exists i :: 0 <= i < n && Presents(surface, support, i)
  }

  /** The first half of initSupportedQueues: the API-version gate, the
    * feature query, the widely supported features, the queue-family
    * enumeration and the per-family classification. `onePresent` tells
    * whether some family can present. */
  method ProbeQueueFamilies(minApiVersion: int, dev: Device,
                            reportedFeatures: Reflection.FieldRef -> int,
                            firstCount: u32, reported: seq<VkQueueFamilyProperties>,
                            support: nat -> Option<bool>)
    returns (r: Status, onePresent: bool)
    requires dev.Valid()
    modifies dev`qfams, dev.availableFeatures, dev.availableFeatures.reflect, dev.enabledFeatures.reflect
    ensures dev.physApiVersion < minApiVersion ==>
      r == Returned(VK_INCOMPLETE) && unchanged(dev, dev.availableFeatures, dev.availableFeatures.reflect, dev.enabledFeatures.reflect)
    ensures dev.physApiVersion >= minApiVersion ==>
      dev.availableFeatures.chain == Reflection.FeatureChain(dev.apiVersionInUse, dev.availableExtensions)
    ensures r == Returned(VK_SUCCESS) ==>
      SetEach(old(dev.enabledFeatures.reflect.fields), old(dev.enabledFeatures.reflect.memory), WIDELY_SUPPORTED, VK_TRUE).0 &&
      0 < firstCount && |reported| <= firstCount &&
      dev.qfams == ClassifiedAll(Padded(firstCount, reported), dev.swapChainInfo.surface, support) &&
      (onePresent <==> exists i :: 0 <= i < |dev.qfams| && dev.qfams[i].surfaceSupport == SUPPORT_PRESENT)
    ensures r.Returned? ==> r.code in {VK_SUCCESS, VK_INCOMPLETE, VK_ERROR_INITIALIZATION_FAILED}
    ensures r == Returned(VK_SUCCESS) <==> old(ProbeSucceeds(minApiVersion, dev, firstCount, reported, support))
    ensures r == Returned(VK_SUCCESS) ==> (onePresent <==> AnyPresents(firstCount as nat, dev.swapChainInfo.surface, support))
    ensures dev.swapChainInfo == old(dev.swapChainInfo)
  {
    if dev.physApiVersion < minApiVersion {
      return Returned(VK_INCOMPLETE), false;
    }
    var f := dev.availableFeatures.GetFeatures(dev.apiVersionInUse, dev.availableExtensions, reportedFeatures);
    var e := EnableWidelySupported(dev.enabledFeatures);
    if e != VK_SUCCESS {
      return Returned(VK_ERROR_INITIALIZATION_FAILED), false;
    }
    var g := GetQueueFamilies(dev, firstCount, reported);
    if g.Exited? {
      return Exited, false;
    }
    if g.code != 0 {
      return Returned(VK_ERROR_INITIALIZATION_FAILED), false;
    }
    var c;
    c, onePresent := ClassifyQueueFamilies(dev, support);
    if c != VK_SUCCESS {
      return Returned(c), onePresent;
    }
    return Returned(VK_SUCCESS), onePresent;
  }

  /** The part of the queue set-up that follows a successful probe: the
      device's extensions, then, when some family presents, the swapchain
      extension and the surface's formats and present modes. */
  method FinishSupportedQueues(dev: Device, onePresent: bool,
                               deviceExtensions: Option<seq<string>>,
                               formats: Option<seq<SurfaceFormat>>, modes: Option<seq<int>>)
    returns (r: Status)
    modifies dev`availableExtensions, dev`requiredExtensions, dev`surfaceFormats, dev`presentModes, dev`swapChainInfo
    ensures dev.swapChainInfo.surface == old(dev.swapChainInfo.surface)
    ensures r.Returned? && r.code in {VK_SUCCESS, VK_ERROR_INITIALIZATION_FAILED, VK_ERROR_DEVICE_LOST}
    ensures deviceExtensions.None? ==> r == Returned(VK_ERROR_INITIALIZATION_FAILED)
    ensures r == Returned(VK_SUCCESS) ==> deviceExtensions == Some(dev.availableExtensions)
    ensures deviceExtensions.Some? && !onePresent ==>
      r == Returned(VK_SUCCESS) && dev.requiredExtensions == old(dev.requiredExtensions)
    ensures deviceExtensions.Some? && onePresent && SWAPCHAIN_EXTENSION !in deviceExtensions.value ==>
      r == Returned(VK_ERROR_DEVICE_LOST)
    ensures deviceExtensions.Some? && onePresent && SWAPCHAIN_EXTENSION in deviceExtensions.value &&
            formats.Some? && modes.Some? && (formats.value == [] || modes.value == []) ==>
      r == Returned(VK_ERROR_DEVICE_LOST)
    ensures deviceExtensions.Some? && onePresent && SWAPCHAIN_EXTENSION in deviceExtensions.value &&
            (formats.None? || modes.None?) ==>
      r == Returned(VK_ERROR_INITIALIZATION_FAILED)
    ensures deviceExtensions.Some? && onePresent && SWAPCHAIN_EXTENSION in deviceExtensions.value &&
            formats.Some? && modes.Some? && formats.value != [] && modes.value != [] ==>
      r == (if PreferredPresentMode(modes.value).Some? then Returned(VK_SUCCESS)
            else Returned(VK_ERROR_INITIALIZATION_FAILED))
    ensures onePresent && r == Returned(VK_SUCCESS) ==>
      dev.requiredExtensions == old(dev.requiredExtensions) + [SWAPCHAIN_EXTENSION] &&
      dev.surfaceFormats != [] && dev.presentModes != []
  {
    if deviceExtensions.None? {
      return Returned(VK_ERROR_INITIALIZATION_FAILED);
    }
    dev.availableExtensions := deviceExtensions.value;
    if !onePresent {
      return Returned(VK_SUCCESS);
    }
    var x := RequireSwapchainExtension(dev);
    if x != VK_SUCCESS {
      return Returned(VK_ERROR_DEVICE_LOST);
    }
    var s := dev.InitSurfaceFormatAndPresentMode(formats, modes);
    if s != 0 {
      return Returned(VK_ERROR_INITIALIZATION_FAILED);
    }
    if |dev.surfaceFormats| == 0 || |dev.presentModes| == 0 {
      return Returned(VK_ERROR_DEVICE_LOST);
    }
    return Returned(VK_SUCCESS);
  }

  /** Instance::initSupportedQueues. The driver's answers are parameters:
    * `reportedFeatures` is what the feature queries write, `firstCount` and
    * `reported` the two queue-family enumeration calls, `support` the
    * per-family surface-support query, `deviceExtensions` the extension
    * enumeration, and `formats` / `modes` the surface-format and
    * present-mode queries (None when a call fails). */
  method InitSupportedQueues(minApiVersion: int, dev: Device,
                             reportedFeatures: Reflection.FieldRef -> int,
                             firstCount: u32, reported: seq<VkQueueFamilyProperties>,
                             support: nat -> Option<bool>,
                             deviceExtensions: Option<seq<string>>,
                             formats: Option<seq<SurfaceFormat>>, modes: Option<seq<int>>)
    returns (r: Status)
    requires dev.Valid()
    modifies dev, dev.availableFeatures, dev.availableFeatures.reflect, dev.enabledFeatures.reflect
    ensures dev.physApiVersion < minApiVersion ==>
      r == Returned(VK_INCOMPLETE) && unchanged(dev, dev.availableFeatures, dev.availableFeatures.reflect, dev.enabledFeatures.reflect)
    ensures r == Returned(VK_SUCCESS) ==>
      SetEach(old(dev.enabledFeatures.reflect.fields), old(dev.enabledFeatures.reflect.memory), WIDELY_SUPPORTED, VK_TRUE).0 &&
      dev.qfams == ClassifiedAll(Padded(firstCount, reported), dev.swapChainInfo.surface, support) &&
      deviceExtensions == Some(dev.availableExtensions)
    ensures r == Returned(VK_SUCCESS) && (exists i :: 0 <= i < |dev.qfams| && dev.qfams[i].surfaceSupport == SUPPORT_PRESENT) ==>
      dev.requiredExtensions == old(dev.requiredExtensions) + [SWAPCHAIN_EXTENSION] &&
      dev.surfaceFormats != [] && dev.presentModes != []
    ensures r == Returned(VK_SUCCESS) && (forall i :: 0 <= i < |dev.qfams| ==> dev.qfams[i].surfaceSupport != SUPPORT_PRESENT) ==>
      dev.requiredExtensions == old(dev.requiredExtensions)
    ensures r.Returned? ==> r.code in {VK_SUCCESS, VK_INCOMPLETE, VK_ERROR_INITIALIZATION_FAILED, VK_ERROR_DEVICE_LOST}
    // once the probe succeeds, the outcome in terms of the driver's answers
    ensures var probed, surface := old(ProbeSucceeds(minApiVersion, dev, firstCount, reported, support)),
                                   old(dev.swapChainInfo.surface);
      (!probed ==> r != Returned(VK_SUCCESS) && r != Returned(VK_ERROR_DEVICE_LOST)) &&
      (probed && deviceExtensions.None? ==> r == Returned(VK_ERROR_INITIALIZATION_FAILED)) &&
      (probed && deviceExtensions.Some? && !AnyPresents(firstCount as nat, surface, support) ==>
         r == Returned(VK_SUCCESS)) &&
      (probed && deviceExtensions.Some? && AnyPresents(firstCount as nat, surface, support) ==>
         (SWAPCHAIN_EXTENSION !in deviceExtensions.value ==> r == Returned(VK_ERROR_DEVICE_LOST)) &&
         (SWAPCHAIN_EXTENSION in deviceExtensions.value ==>
            ((formats.None? || modes.None?) ==> r == Returned(VK_ERROR_INITIALIZATION_FAILED)) &&
            (formats.Some? && modes.Some? ==>
               ((formats.value == [] || modes.value == []) ==> r == Returned(VK_ERROR_DEVICE_LOST)) &&
               (formats.value != [] && modes.value != [] ==>
                  r == (if PreferredPresentMode(modes.value).Some? then Returned(VK_SUCCESS)
                        else Returned(VK_ERROR_INITIALIZATION_FAILED))))))
  {
    var p, onePresent := ProbeQueueFamilies(minApiVersion, dev, reportedFeatures, firstCount, reported, support);
    if p != Returned(VK_SUCCESS) {
      return p;
    }
    r := FinishSupportedQueues(dev, onePresent, deviceExtensions, formats, modes);
  }
}
