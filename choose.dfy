// The selection searches of src/language/choose.cpp: which instance
// extensions to enable, which format to use for a tiling, and whether the
// device offers an extension.

module Choose {
  import opened VkTypes
  import opened Wrappers
  import opened Structs

  const DEBUG_REPORT_EXTENSION: string := "VK_EXT_debug_report"

  /** The required names chooseExtensions appends after debug_report: those
    * that are not debug_report and that the driver reported, in the order of
    * `required`. */
  function Enabled(required: seq<string>, found: seq<string>): (e: seq<string>)
    ensures |e| <= |required|
    ensures forall i :: 0 <= i < |e| ==> e[i] in found && e[i] != DEBUG_REPORT_EXTENSION && e[i] in required
    decreases |required|
  {
    if required == [] then []
    else
      var last := required[|required| - 1];
      Enabled(required[..|required| - 1], found) +
        (if last != DEBUG_REPORT_EXTENSION && last in found then [last] else [])
  }

  /** Every required name other than debug_report was reported. */
  predicate AllFound(required: seq<string>, found: seq<string>) {
    forall i :: 0 <= i < |required| && required[i] != DEBUG_REPORT_EXTENSION ==> required[i] in found
  }

  /** Nothing reported and required is dropped. */
  lemma {:induction false} EnabledComplete(required: seq<string>, found: seq<string>, name: string)
    requires name in required && name in found && name != DEBUG_REPORT_EXTENSION
    ensures name in Enabled(required, found)
    decreases |required|
  {
    var last := required[|required| - 1];
    if name != last {
      assert name in required[..|required| - 1] by {
        var i :| 0 <= i < |required| && required[i] == name;
        assert i < |required| - 1;
        assert required[..|required| - 1][i] == name;
      }
      EnabledComplete(required[..|required| - 1], found, name);
    }
  }

  /** When everything required was found and debug_report is not among the
    * required names, exactly the required list is enabled, in order. */
  lemma {:induction false} EnabledAllFound(required: seq<string>, found: seq<string>)
    requires AllFound(required, found)
    requires DEBUG_REPORT_EXTENSION !in required
    ensures Enabled(required, found) == required
    decreases |required|
  {
    if required != [] {
      var init := required[..|required| - 1];
      assert AllFound(init, found) by {
        forall i | 0 <= i < |init| && init[i] != DEBUG_REPORT_EXTENSION
          ensures init[i] in found
        {
          assert init[i] == required[i];
        }
      }
      assert required[|required| - 1] in found;
      EnabledAllFound(init, found);
      assert init + [required[|required| - 1]] == required;
    }
  }

  /** chooseExtensions: always enable debug_report first, then every other
    * required name that was found; report 1 if any required name (other than
    * debug_report) is missing, still processing the rest. */
  method ChooseExtensions(required: seq<string>, found: seq<string>, chosen: seq<string>)
    returns (r: int, chosenAfter: seq<string>)
    ensures chosenAfter == chosen + [DEBUG_REPORT_EXTENSION] + Enabled(required, found)
    ensures r == 0 || r == 1
    ensures r == 1 <==> !AllFound(required, found)
  {
    chosenAfter := chosen + [DEBUG_REPORT_EXTENSION];
    r := 0;
    var i := 0;
    while i < |required|
      invariant 0 <= i <= |required|
      invariant chosenAfter == chosen + [DEBUG_REPORT_EXTENSION] + Enabled(required[..i], found)
      invariant r == 0 || r == 1
      invariant r == 1 <==> !AllFound(required[..i], found)
    {
      var req := required[i];
      assert required[..i + 1][..i] == required[..i];
      if req == DEBUG_REPORT_EXTENSION {
        i := i + 1;
        continue;
      }
      var ok := false;
      var j := 0;
      while j < |found|
        invariant 0 <= j <= |found|
        invariant !ok ==> req !in found[..j]
        invariant ok ==> req in found
        invariant chosenAfter == chosen + [DEBUG_REPORT_EXTENSION] + Enabled(required[..i], found) + (if ok then [req] else [])
      {
        if req == found[j] {
          chosenAfter := chosenAfter + [req];
          ok := true;
          break;
        }
        j := j + 1;
      }
      assert !ok ==> found[..j] == found;
      if !ok {
        r := 1;
      }
      i := i + 1;
    }
    assert required[..i] == required;
  }

  /** InstanceExtensionChooser: the instance's required names and the names
    * chosen so far. */
  class InstanceExtensionChooser {
    var required: seq<string>
    var chosen: seq<string>

    constructor(instanceRequired: seq<string>)
      ensures required == instanceRequired && chosen == []
    {
      required := instanceRequired;
      chosen := [];
    }

    /** choose: `found` is the driver's extension list, None when the
      * enumeration failed. */
    method ChooseFrom(found: Option<seq<string>>) returns (r: int)
      modifies this`chosen
      ensures found.None? ==> r == 1 && chosen == old(chosen)
      ensures found.Some? ==> chosen == old(chosen) + [DEBUG_REPORT_EXTENSION] + Enabled(required, found.value)
      ensures found.Some? ==> (r == 1 <==> !AllFound(required, found.value)) && (r == 0 || r == 1)
    {
      if found.None? {
        return 1;
      }
      r, chosen := ChooseExtensions(required, found.value, chosen);
    }
  }

  /** Whether the features of one format satisfy `flags` for `tiling`. Only
    * LINEAR and OPTIMAL tiling have features. */
  predicate Supports(tiling: int, flags: Flags, f: FormatFeatures) {
    (tiling == TILING_LINEAR && Contains(f.linearTilingFeatures, flags)) ||
    (tiling == TILING_OPTIMAL && Contains(f.optimalTilingFeatures, flags))
  }

  /** Index of the first format whose features satisfy the request, or |fmts|. */
  function FirstSupported(tiling: int, flags: Flags, fmts: seq<int>, features: int -> FormatFeatures): (k: nat)
    ensures k <= |fmts|
    ensures k < |fmts| ==> Supports(tiling, flags, features(fmts[k]))
    ensures forall j :: 0 <= j < k ==> !Supports(tiling, flags, features(fmts[j]))
    decreases |fmts|
  {
    if fmts == [] then 0
    else if Supports(tiling, flags, features(fmts[0])) then 0
    else 1 + FirstSupported(tiling, flags, fmts[1..], features)
  }

  /** Device::chooseFormat: the first format of `fmts` whose features for
    * `tiling` contain every bit of `flags`, or UNDEFINED when there is none
    * or the tiling is neither LINEAR nor OPTIMAL. `features` is what the
    * driver reports for each format. */
  method ChooseFormat(tiling: int, flags: Flags, fmts: seq<int>, features: int -> FormatFeatures)
    returns (format: int)
    ensures var k := FirstSupported(tiling, flags, fmts, features);
      format == (if k < |fmts| then fmts[k] else FORMAT_UNDEFINED)
    ensures format != FORMAT_UNDEFINED ==> format in fmts && Supports(tiling, flags, features(format))
  {
    if tiling != TILING_LINEAR && tiling != TILING_OPTIMAL {
      return FORMAT_UNDEFINED;
    }
    var i := 0;
    while i < |fmts|
      invariant 0 <= i <= |fmts|
      invariant forall j :: 0 <= j < i ==> !Supports(tiling, flags, features(fmts[j]))
    {
      var props := new FormatProperties(fmts[i]);
      var _ := props.GetProperties(features(fmts[i]));
      if Supports(tiling, flags, props.features) {
        FirstSupportedIsLeast(tiling, flags, fmts, features, i);
        return fmts[i];
      }
      i := i + 1;
    }
    FirstSupportedIsLeast(tiling, flags, fmts, features, i);
    return FORMAT_UNDEFINED;
  }

  /** FirstSupported is the only index with its two properties. */
  lemma FirstSupportedIsLeast(tiling: int, flags: Flags, fmts: seq<int>, features: int -> FormatFeatures, i: nat)
    requires i <= |fmts|
    requires i < |fmts| ==> Supports(tiling, flags, features(fmts[i]))
    requires forall j :: 0 <= j < i ==> !Supports(tiling, flags, features(fmts[j]))
    ensures FirstSupported(tiling, flags, fmts, features) == i
  {
  }

  /** Device::isExtensionAvailable over the device's availableExtensions:
    * 1 iff some name equals `name` exactly. */
  method IsExtensionAvailable(available: seq<string>, name: string) returns (r: int)
    ensures r == 0 || r == 1
    ensures r == 1 <==> name in available
  {
    var i := 0;
    while i < |available|
      invariant 0 <= i <= |available|
      invariant name !in available[..i]
    {
      if available[i] == name {
        return 1;
      }
      i := i + 1;
    }
    assert available[..i] == available;
    return 0;
  }
}
