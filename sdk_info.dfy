// sdk_info.py: prints the build machine's OS build, the Xcode version and
// build, and the SDK path, version, platform path and build for one platform,
// as key="value" lines in sorted key order. The outputs of xcodebuild,
// sw_vers and xcrun are parameters.

module SdkInfo {
  import opened Text
  import opened Wrappers

  function RemoveDots(s: string): (t: string)
    ensures Free(t, '.') && |t| <= |s|
    ensures Free(s, '.') ==> t == s
  {
    if s == [] then ""
    else if s[0] == '.' then RemoveDots(s[1..])
    else [s[0]] + RemoveDots(s[1..])
  }

  function Zeros(n: nat): (z: string)
    ensures |z| == n && forall k :: 0 <= k < n ==> z[k] == '0'
  {
    seq(n, _ => '0')
  }

  /** str.zfill(width): zeros on the left up to width, after a leading sign. */
  function ZFill(s: string, width: nat): string {
    if |s| >= width then s
    else if s != [] && (s[0] == '+' || s[0] == '-') then [s[0]] + Zeros(width - |s|) + s[1..]
    else Zeros(width - |s|) + s
  }

  /** FormatVersion as written: drop the dots, pad with '0' on the right to
    * three characters ('0' * a negative count is ""), then zfill(4). */
  function FormatVersion(version: string): string {
    var v := RemoveDots(version);
    var padded := v + Zeros(if |v| < 3 then 3 - |v| else 0);
    ZFill(padded, 4)
  }

  function Max(a: nat, b: nat): nat { if a < b then b else a }

  /** The result has no dots and length max(4, digits); without a leading
    * sign it is the dot-free version, right-padded to three characters, with
    * zeros in front. */
  lemma FormatVersionShape(version: string)
    ensures var v := RemoveDots(version); var f := FormatVersion(version);
      Free(f, '.') && |f| == Max(4, |v|) &&
      (v == [] || (v[0] != '+' && v[0] != '-') ==>
        f == Zeros(|f| - Max(3, |v|)) + v + Zeros(Max(3, |v|) - |v|))
  {
    var v := RemoveDots(version);
    var padded := v + Zeros(if |v| < 3 then 3 - |v| else 0);
    var f := FormatVersion(version);
    assert Free(padded, '.');
    if |padded| < 4 && v != [] && (v[0] == '+' || v[0] == '-') {
      assert f == [padded[0]] + Zeros(4 - |padded|) + padded[1..];
      forall k | 0 <= k < |f| ensures f[k] != '.' {
        if k == 0 {
        } else if k <= 4 - |padded| {
        } else {
          assert f[k] == padded[k - (4 - |padded|)];
        }
      }
    } else if |padded| >= 4 {
      assert f == padded;
      assert Zeros(0) + v + Zeros(Max(3, |v|) - |v|) == padded;
    } else {
      assert f == Zeros(4 - |padded|) + padded;
    }
  }

  lemma FormatVersionExamples()
    ensures FormatVersion("7.2") == "0720"
    ensures FormatVersion("7.1.1") == "0711"
    ensures FormatVersion("8") == "0800"
  {
    FormatVersionTwoDigits();
    FormatVersionThreeDigits();
    FormatVersionOneDigit();
  }

  lemma FormatVersionTwoDigits() ensures FormatVersion("7.2") == "0720" {
    assert RemoveDots("7.2") == "72";
    assert Zeros(1) == "0";
  }

  lemma FormatVersionThreeDigits() ensures FormatVersion("7.1.1") == "0711" {
    assert RemoveDots("7.1.1") == "711";
  }

  lemma FormatVersionOneDigit() ensures FormatVersion("8") == "0800" {
    assert RemoveDots("8") == "8";
    assert Zeros(1) == "0" && Zeros(2) == "00";
  }

  /** Python's a >= b on str. */
  predicate AtLeast(a: string, b: string) {
    !Less(a, b)
  }

  const FIRST_BUILD_QUERY_XCODE: string := "0720"

  /** The sdk_build choice: the separate --show-sdk-build-version query from
    * Xcode 7.2 on, otherwise the SDK version again. */
  function SdkBuild(xcodeVersion: string, sdkVersion: string, sdkBuildVersion: string): string {
    if AtLeast(xcodeVersion, FIRST_BUILD_QUERY_XCODE) then sdkBuildVersion else sdkVersion
  }

  /** Xcode 10.0 is formatted as "0100", which sorts before "0720": the
    * script takes Xcode 10 for a version older than 7.2. */
  lemma FormatVersionXcode10()
    ensures FormatVersion("10.0") == "0100"
    ensures SdkBuild(FormatVersion("10.0"), "12.0", "16A360") == "12.0"
  {
    assert RemoveDots("10.0") == "100";
    assert Less("0100", "0720") by {
      assert "0100"[1..] == "100" && "0720"[1..] == "720";
    }
  }

  // The evidently intended format, DTXcode's XYZZ layout: the major version
  // right-aligned in two digits, then one digit each for minor and patch,
  // parts missing from the version counting as "0".

  function PartOr(pieces: seq<string>, i: nat): string {
    if i < |pieces| then pieces[i] else "0"
  }

  function Pad2(s: string): string {
    if |s| >= 2 then s else Zeros(2 - |s|) + s
  }

  function FormatVersionFixed(version: string): string {
    var pieces := Split(version, '.');
    Pad2(pieces[0]) + PartOr(pieces, 1) + PartOr(pieces, 2)
  }

  predicate IsDigit(c: char) { '0' <= c <= '9' }

  predicate IsDigits(s: string) {
    forall k :: 0 <= k < |s| ==> IsDigit(s[k])
  }

  function Pow10(n: nat): (p: nat)
    ensures p >= 1
  {
    if n == 0 then 1 else 10 * Pow10(n - 1)
  }

  /** The number a string of decimal digits spells. */
  function DigitsValue(s: string): nat
    requires IsDigits(s)
  {
    if s == [] then 0 else (s[0] as int - '0' as int) * Pow10(|s| - 1) + DigitsValue(s[1..])
  }

  lemma {:induction false} DigitsValueBound(s: string)
    requires IsDigits(s)
    ensures DigitsValue(s) < Pow10(|s|)
    decreases |s|
  {
    if s != [] {
      var p := Pow10(|s| - 1);
      var d := s[0] as int - '0' as int;
      DigitsValueBound(s[1..]);
      MulLe(d, 9, p);
      assert Pow10(|s|) == 10 * p;
      assert DigitsValue(s) == d * p + DigitsValue(s[1..]);
    }
  }

  lemma MulLe(a: int, b: int, p: int)
    requires a <= b && p >= 0
    ensures a * p <= b * p
  {
  }

  lemma MulSucc(a: int, p: int)
    ensures (a + 1) * p == a * p + p
  {
  }

  /** For digit strings of one length, Python's string order is the
    * numeric order. */
  lemma {:induction false} DigitsOrder(a: string, b: string)
    requires IsDigits(a) && IsDigits(b) && |a| == |b|
    ensures Less(a, b) <==> DigitsValue(a) < DigitsValue(b)
    decreases |a|
  {
    if a != [] {
      var p := Pow10(|a| - 1);
      var da, db := a[0] as int - '0' as int, b[0] as int - '0' as int;
      DigitsValueBound(a[1..]);
      DigitsValueBound(b[1..]);
      assert DigitsValue(a) == da * p + DigitsValue(a[1..]);
      assert DigitsValue(b) == db * p + DigitsValue(b[1..]);
      if a[0] == b[0] {
        DigitsOrder(a[1..], b[1..]);
      } else if da < db {
        MulLe(da + 1, db, p);
        MulSucc(da, p);
      } else {
        MulLe(db + 1, da, p);
        MulSucc(db, p);
      }
    }
  }

  /** A version "X.Y" or "X.Y.Z" with a one- or two-digit major version and
    * one-digit minor and patch versions. */
  predicate WellFormed(version: string) {
    var pieces := Split(version, '.');
    2 <= |pieces| <= 3 && (forall i :: 0 <= i < |pieces| ==> IsDigits(pieces[i])) &&
    1 <= |pieces[0]| <= 2 && |pieces[1]| == 1 && (|pieces| == 3 ==> |pieces[2]| == 1)
  }

  function Major(version: string): nat requires WellFormed(version) { DigitsValue(Split(version, '.')[0]) }
  function Minor(version: string): nat requires WellFormed(version) { DigitsValue(Split(version, '.')[1]) }
  function Patch(version: string): nat
    requires WellFormed(version)
  {
    var pieces := Split(version, '.');
    if |pieces| == 3 then DigitsValue(pieces[2]) else 0
  }

  /** The fixed format spells 100 * major + 10 * minor + patch in four
    * digits. */
  lemma FormatVersionFixedValue(version: string)
    requires WellFormed(version)
    ensures var f := FormatVersionFixed(version);
      |f| == 4 && IsDigits(f) && DigitsValue(f) == 100 * Major(version) + 10 * Minor(version) + Patch(version)
  {
    var pieces := Split(version, '.');
    var m := Pad2(pieces[0]);
    assert IsDigits(m) && |m| == 2 && DigitsValue(m) == DigitsValue(pieces[0]) by {
      if |pieces[0]| == 1 {
        assert m == "0" + pieces[0];
        assert m[1..] == pieces[0];
      }
    }
    var y, z := PartOr(pieces, 1), PartOr(pieces, 2);
    var f := m + y + z;
    assert |y| == 1 && |z| == 1 && IsDigits(y) && IsDigits(z);
    assert IsDigits(f);
    assert f[0] == m[0] && f[1] == m[1] && f[2] == y[0] && f[3] == z[0];
    DigitsValueFour(f);
    DigitsValueTwo(m);
    assert y == [y[0]] && z == [z[0]];
    DigitsValueOne(y);
    DigitsValueOne(z);
    assert DigitsValue(y) == Minor(version);
    assert DigitsValue(z) == Patch(version);
  }

  lemma DigitsValueOne(s: string)
    requires IsDigits(s) && |s| == 1
    ensures DigitsValue(s) == s[0] as int - '0' as int
  {
    assert s[1..] == [];
  }

  lemma DigitsValueTwo(s: string)
    requires IsDigits(s) && |s| == 2
    ensures DigitsValue(s) == 10 * (s[0] as int - '0' as int) + (s[1] as int - '0' as int)
  {
    assert Pow10(1) == 10;
    DigitsValueOne(s[1..]);
  }

  lemma DigitsValueFour(s: string)
    requires IsDigits(s) && |s| == 4
    ensures DigitsValue(s) == 1000 * (s[0] as int - '0' as int) + 100 * (s[1] as int - '0' as int)
                            + 10 * (s[2] as int - '0' as int) + (s[3] as int - '0' as int)
  {
    assert Pow10(2) == 100 && Pow10(3) == 1000;
    assert s[1..][1..] == s[2..] && s[1..][0] == s[1] && s[2..][0] == s[2];
    DigitsValueTwo(s[2..]);
  }

  /** With the fixed format, the separate build query is used exactly from
    * Xcode 7.2 on, Xcode 10 included. */
  lemma SdkBuildFixedChoice(version: string, sdkVersion: string, sdkBuildVersion: string)
    requires WellFormed(version)
    ensures SdkBuild(FormatVersionFixed(version), sdkVersion, sdkBuildVersion) ==
      if 100 * Major(version) + 10 * Minor(version) + Patch(version) >= 720 then sdkBuildVersion else sdkVersion
  {
    FormatVersionFixedValue(version);
    var t := FIRST_BUILD_QUERY_XCODE;
    assert IsDigits(t);
    assert DigitsValue(t) == 720 by {
      assert t[1..] == "720" && t[2..] == "20" && t[3..] == "0";
    }
    DigitsOrder(FormatVersionFixed(version), t);
  }

  lemma FormatVersionFixedXcode10()
    ensures FormatVersionFixed("10.0") == "1000"
    ensures FormatVersionFixed("7.2") == "0720"
  {
    assert "10.0" == "10" + ['.'] + "0";
    SplitPrefix("10", "0", '.');
    SplitFree("0", '.');
    assert "7.2" == "7" + ['.'] + "2";
    SplitPrefix("7", "2", '.');
    SplitFree("2", '.');
  }

  // The settings and the script's main body.

  /** The decoded standard output of each command the script may run for
    * the requested platform, under the environment the script leaves; None
    * where the command fails and check_output raises. */
  datatype Outputs = Outputs(
    swVersBuildVersion: Option<string>,   // sw_vers -buildVersion
    xcodebuildVersion: Option<string>,    // xcodebuild -version
    sdkPath: Option<string>,              // xcrun -sdk <platform> --show-sdk-path
    sdkVersion: Option<string>,           // xcrun -sdk <platform> --show-sdk-version
    sdkPlatformPath: Option<string>,      // xcrun -sdk <platform> --show-sdk-platform-path
    sdkBuildVersion: Option<string>)      // xcrun -sdk <platform> --show-sdk-build-version

  const MACHINE_OS_BUILD: string := "machine_os_build"
  const XCODE_VERSION: string := "xcode_version"
  const XCODE_BUILD: string := "xcode_build"
  const SDK_PATH: string := "sdk_path"
  const SDK_VERSION: string := "sdk_version"
  const SDK_PLATFORM_PATH: string := "sdk_platform_path"
  const SDK_BUILD: string := "sdk_build"
  const DEVELOPER_DIR: string := "DEVELOPER_DIR"

  /** The keys in the order the Fill functions add them. */
  const FILL_ORDER: seq<string> :=
    [MACHINE_OS_BUILD, XCODE_VERSION, XCODE_BUILD, SDK_PATH, SDK_VERSION, SDK_PLATFORM_PATH, SDK_BUILD]

  /** The same keys in Python's str order. */
  const SORTED_KEYS: seq<string> :=
    [MACHINE_OS_BUILD, SDK_BUILD, SDK_PATH, SDK_PLATFORM_PATH, SDK_VERSION, XCODE_BUILD, XCODE_VERSION]

  /** Version (formatted) and build from the output of xcodebuild -version:
    * the last word of its first line and of its last line. */
  function XcodeFields(out: string): Option<(string, string)> {
    var lines := SplitLines(out);
    if lines == [] then None
    else match (LastWord(lines[0]), LastWord(lines[|lines| - 1]))
      case (Some(v), Some(b)) => Some((FormatVersion(v), b))
      case _ => None
  }

  /** What FillSDKPathAndVersion stores. */
  datatype SdkFields = SdkFields(path: string, version: string, platformPath: string, build: string)

  /** The SDK settings; the build is queried separately from Xcode 7.2 on
    * and is the SDK version before. None where a query that runs fails. */
  function SdkSettings(xcodeVersion: string, o: Outputs): Option<SdkFields> {
    if o.sdkPath.None? || o.sdkVersion.None? || o.sdkPlatformPath.None? then None
    else if AtLeast(xcodeVersion, FIRST_BUILD_QUERY_XCODE) then
      if o.sdkBuildVersion.None? then None
      else Some(SdkFields(Strip(o.sdkPath.value), Strip(o.sdkVersion.value), Strip(o.sdkPlatformPath.value), Strip(o.sdkBuildVersion.value)))
    else Some(SdkFields(Strip(o.sdkPath.value), Strip(o.sdkVersion.value), Strip(o.sdkPlatformPath.value), Strip(o.sdkVersion.value)))
  }

  function WithSdk(values: map<string, string>, f: SdkFields): map<string, string> {
    values[SDK_PATH := f.path][SDK_VERSION := f.version][SDK_PLATFORM_PATH := f.platformPath][SDK_BUILD := f.build]
  }

  /** The settings dictionary once the three Fill functions have run; None
    * where one of them raises. */
  function Filled(o: Outputs): Option<map<string, string>> {
    if o.swVersBuildVersion.None? || o.xcodebuildVersion.None? || XcodeFields(o.xcodebuildVersion.value).None? then None
    else
      var (xv, xb) := XcodeFields(o.xcodebuildVersion.value).value;
      match SdkSettings(xv, o)
        case None => None
        case Some(f) => Some(WithSdk(map[MACHINE_OS_BUILD := Strip(o.swVersBuildVersion.value)][XCODE_VERSION := xv][XCODE_BUILD := xb], f))
  }

  function SettingLine(key: string, value: string): string {
    key + "=\"" + value + "\""
  }

  /** One key="value" line for each key of ks, in order. */
  function Lines(ks: seq<string>, m: map<string, string>): seq<string>
    requires forall i :: 0 <= i < |ks| ==> ks[i] in m
  {
    if ks == [] then [] else [SettingLine(ks[0], m[ks[0]])] + Lines(ks[1..], m)
  }

  /** The environment after --developer_dir: set only for a non-empty value. */
  function Environ(developerDir: Option<string>, environ: map<string, string>): map<string, string> {
    if developerDir.Some? && developerDir.value != "" then environ[DEVELOPER_DIR := developerDir.value] else environ
  }

  /** Filled once the machine and Xcode queries have succeeded. */
  /** Without the sw_vers output or a usable xcodebuild output there is
    * nothing to report. */
  lemma FilledNeedsFirst(o: Outputs)
    requires !(o.swVersBuildVersion.Some? && o.xcodebuildVersion.Some? && XcodeFields(o.xcodebuildVersion.value).Some?)
    ensures Filled(o).None?
  {
  }

  lemma FilledFromParts(o: Outputs)
    requires o.swVersBuildVersion.Some? && o.xcodebuildVersion.Some?
    requires XcodeFields(o.xcodebuildVersion.value).Some?
    ensures var xv := FirstSettings(o)[XCODE_VERSION];
      Filled(o) == if SdkSettings(xv, o).None? then None else Some(WithSdk(FirstSettings(o), SdkSettings(xv, o).value))
  {
  }

  /** As written, a machine on Xcode 10.0 records the version "0100" and takes
    * the SDK version for the SDK build, without the separate build query. */
  lemma FilledXcode10SkipsBuildQuery(o: Outputs)
    requires o.swVersBuildVersion.Some? && o.xcodebuildVersion.Some?
    requires var lines := SplitLines(o.xcodebuildVersion.value);
      lines != [] && LastWord(lines[0]) == Some("10.0") && LastWord(lines[|lines| - 1]).Some?
    requires o.sdkPath.Some? && o.sdkVersion.Some? && o.sdkPlatformPath.Some?
    ensures Filled(o).Some?
    ensures Filled(o).value[XCODE_VERSION] == "0100" && Filled(o).value[SDK_BUILD] == Strip(o.sdkVersion.value)
  {
    FormatVersionXcode10();
    assert !AtLeast(FormatVersion("10.0"), FIRST_BUILD_QUERY_XCODE);
    KeysDistinct();
  }

  /** The settings of a successful fill hold exactly the seven keys. */
  lemma FilledKeySet(o: Outputs)
    requires Filled(o).Some?
    ensures forall k :: k in Filled(o).value <==> k in SORTED_KEYS
  {
  }

  /** What the script does with its positional arguments: the usage error
    * unless there is exactly one (the platform), otherwise one line per
    * setting in sorted key order. */
  function Run(unknownArgs: seq<string>, o: Outputs): (ScriptExit, seq<string>) {
    if |unknownArgs| != 1 then (ExitCode(1), [])
    else match Filled(o)
      case None => (Raised, [])
      case Some(m) => FilledKeySet(o); (ExitCode(0), Lines(SORTED_KEYS, m))
  }

  /** Less decided at the first position where the two strings differ. */
  lemma {:induction false} LessAt(a: string, b: string, k: nat)
    requires k < |a| && k < |b| && a[k] < b[k]
    requires forall j :: 0 <= j < k ==> a[j] == b[j]
    ensures Less(a, b)
    decreases k
  {
    if k > 0 {
      assert a[0] == b[0];
      LessAt(a[1..], b[1..], k - 1);
    }
  }

  lemma {:induction false} ChainStrictlySorted(s: seq<string>)
    requires forall i :: 0 <= i < |s| - 1 ==> Less(s[i], s[i + 1])
    ensures StrictlySorted(s)
    decreases |s|
  {
    if |s| > 1 {
      ChainStrictlySorted(s[1..]);
      forall j | 1 < j < |s| ensures Less(s[0], s[j]) {
        assert s[1..][0] == s[1] && s[1..][j - 1] == s[j];
        LessTrans(s[0], s[1], s[j]);
      }
      forall i, j | 0 <= i < j < |s| ensures Less(s[i], s[j]) {
        if i > 0 {
          assert s[1..][i - 1] == s[i] && s[1..][j - 1] == s[j];
        }
      }
    }
  }

  lemma LessMachineSdkBuild() ensures Less(MACHINE_OS_BUILD, SDK_BUILD) {
    assert MACHINE_OS_BUILD[0] == 'm' && SDK_BUILD[0] == 's';
  }

  lemma LessSdkBuildPath() ensures Less(SDK_BUILD, SDK_PATH) {
    LessAt(SDK_BUILD, SDK_PATH, 4);
  }

  lemma LessSdkPathPlatform() ensures Less(SDK_PATH, SDK_PLATFORM_PATH) {
    LessAt(SDK_PATH, SDK_PLATFORM_PATH, 5);
  }

  lemma LessSdkPlatformVersion() ensures Less(SDK_PLATFORM_PATH, SDK_VERSION) {
    LessAt(SDK_PLATFORM_PATH, SDK_VERSION, 4);
  }

  lemma LessSdkXcode() ensures Less(SDK_VERSION, XCODE_BUILD) {
    assert SDK_VERSION[0] == 's' && XCODE_BUILD[0] == 'x';
  }

  lemma LessXcodeBuildVersion() ensures Less(XCODE_BUILD, XCODE_VERSION) {
    LessAt(XCODE_BUILD, XCODE_VERSION, 6);
  }

  /** Neighbouring report keys are in increasing order. */
  lemma SortedKeysChain()
    ensures forall i :: 0 <= i < |SORTED_KEYS| - 1 ==> Less(SORTED_KEYS[i], SORTED_KEYS[i + 1])
  {
    LessMachineSdkBuild();
    LessSdkBuildPath();
    LessSdkPathPlatform();
    LessSdkPlatformVersion();
    LessSdkXcode();
    LessXcodeBuildVersion();
    ChainOfSeven(MACHINE_OS_BUILD, SDK_BUILD, SDK_PATH, SDK_PLATFORM_PATH, SDK_VERSION, XCODE_BUILD, XCODE_VERSION);
  }

  lemma ChainOfSeven(a: string, b: string, c: string, d: string, e: string, f: string, g: string)
    requires Less(a, b) && Less(b, c) && Less(c, d) && Less(d, e) && Less(e, f) && Less(f, g)
    ensures var s := [a, b, c, d, e, f, g];
      forall i :: 0 <= i < |s| - 1 ==> Less(s[i], s[i + 1])
  {
    var s := [a, b, c, d, e, f, g];
    forall i | 0 <= i < |s| - 1 ensures Less(s[i], s[i + 1]) {
      assert i == 0 || i == 1 || i == 2 || i == 3 || i == 4 || i == 5;
    }
  }

  /** The report lists its keys in strictly increasing order. */
  lemma SortedKeysStrictlySorted()
    ensures StrictlySorted(SORTED_KEYS)
  {
    SortedKeysChain();
    ChainStrictlySorted(SORTED_KEYS);
  }

  /** The seven setting names are pairwise different. */
  lemma KeysDistinct()
    ensures MACHINE_OS_BUILD != XCODE_VERSION && MACHINE_OS_BUILD != XCODE_BUILD && MACHINE_OS_BUILD != SDK_PATH
    ensures MACHINE_OS_BUILD != SDK_VERSION && MACHINE_OS_BUILD != SDK_PLATFORM_PATH && MACHINE_OS_BUILD != SDK_BUILD
    ensures XCODE_VERSION != XCODE_BUILD && XCODE_VERSION != SDK_PATH && XCODE_VERSION != SDK_VERSION
    ensures XCODE_VERSION != SDK_PLATFORM_PATH && XCODE_VERSION != SDK_BUILD
    ensures XCODE_BUILD != SDK_PATH && XCODE_BUILD != SDK_VERSION && XCODE_BUILD != SDK_PLATFORM_PATH && XCODE_BUILD != SDK_BUILD
    ensures SDK_PATH != SDK_VERSION && SDK_PATH != SDK_PLATFORM_PATH && SDK_PATH != SDK_BUILD
    ensures SDK_VERSION != SDK_PLATFORM_PATH && SDK_VERSION != SDK_BUILD && SDK_PLATFORM_PATH != SDK_BUILD
  {
    assert XCODE_BUILD[0] != SDK_VERSION[0];
    assert SDK_PATH[4] != SDK_VERSION[4] && SDK_PATH[4] != SDK_BUILD[4];
    assert SDK_VERSION[4] != SDK_BUILD[4] && SDK_PLATFORM_PATH[4] != SDK_BUILD[4];
  }

  lemma FillOrderDistinct()
    ensures Distinct(FILL_ORDER)
  {
    KeysDistinct();
  }

  /** sorted() over the filled keys gives SORTED_KEYS. */
  /** The keys in fill order are the report keys, each once. */
  lemma FillOrderKeys(ks: seq<string>)
    requires ks == FILL_ORDER
    ensures Distinct(ks) && forall k :: k in ks <==> k in SORTED_KEYS
  {
    FillOrderDistinct();
  }

  /** sorted() over distinct keys that are the report keys gives
    * SORTED_KEYS. */
  lemma SortReportKeys(ks: seq<string>)
    requires Distinct(ks) && forall k :: k in ks <==> k in SORTED_KEYS
    ensures Sort(ks) == SORTED_KEYS
  {
    SortDistinct(ks);
    SortedKeysStrictlySorted();
    var r := Sort(ks);
    forall x ensures x in r <==> x in SORTED_KEYS {
      assert x in ks <==> x in SORTED_KEYS;
    }
    StrictlySortedUnique(r, SORTED_KEYS);
  }

  /** A successful run prints every setting exactly once, keys in strictly
    * increasing order, and nothing but the settings. */
  lemma RunReport(unknownArgs: seq<string>, o: Outputs)
    requires |unknownArgs| == 1 && Filled(o).Some?
    ensures var m := Filled(o).value; var (exit, printed) := Run(unknownArgs, o);
      exit == ExitCode(0) && |printed| == |SORTED_KEYS| &&
      (forall k :: k in m <==> k in SORTED_KEYS) && StrictlySorted(SORTED_KEYS) &&
      forall i :: 0 <= i < |printed| ==> printed[i] == SettingLine(SORTED_KEYS[i], m[SORTED_KEYS[i]])
  {
    var m := Filled(o).value;
    SortedKeysStrictlySorted();
    LinesShape(SORTED_KEYS, m);
  }

  lemma {:induction false} LinesShape(ks: seq<string>, m: map<string, string>)
    requires forall i :: 0 <= i < |ks| ==> ks[i] in m
    ensures |Lines(ks, m)| == |ks|
    ensures forall i :: 0 <= i < |ks| ==> Lines(ks, m)[i] == SettingLine(ks[i], m[ks[i]])
    decreases |ks|
  {
    if ks != [] {
      LinesShape(ks[1..], m);
    }
  }

  /** The usage error: exit status 1 and nothing on standard output. */
  lemma RunUsage(unknownArgs: seq<string>, o: Outputs)
    ensures Run(unknownArgs, o).0 == ExitCode(1) <==> |unknownArgs| != 1
    ensures |unknownArgs| != 1 ==> Run(unknownArgs, o).1 == []
  {
  }

  /** The SDK build is the separate query's answer from Xcode 7.2 on and the
    * SDK version before. */
  lemma FilledSdkBuild(o: Outputs)
    requires Filled(o).Some?
    ensures var m := Filled(o).value;
      m[SDK_BUILD] == if AtLeast(m[XCODE_VERSION], FIRST_BUILD_QUERY_XCODE)
        then Strip(o.sdkBuildVersion.value) else m[SDK_VERSION]
  {
    KeysDistinct();
  }

  /** A dictionary; keys remembers insertion order, as Python's dict does. */
  class Settings {
    var keys: seq<string>
    var values: map<string, string>

    ghost predicate Valid()
      reads this
    {
      forall k :: k in values <==> k in keys
    }

    constructor()
      ensures Valid() && keys == [] && values == map[]
    {
      keys := [];
      values := map[];
    }

    /** settings[key] = value. */
    method Set(key: string, value: string)
      requires Valid()
      modifies this
      ensures Valid() && values == old(values)[key := value]
      ensures keys == if key in old(values) then old(keys) else old(keys) + [key]
    {
      if key !in values {
        keys := keys + [key];
      }
      values := values[key := value];
    }

    /** settings[key] = value for a key not yet present. */
    method Add(key: string, value: string)
      requires Valid() && key !in values
      modifies this
      ensures Valid() && values == old(values)[key := value] && keys == old(keys) + [key]
    {
      Set(key, value);
    }
  }

  method FillMachineOSBuild(settings: Settings, o: Outputs) returns (ok: bool)
    requires settings.Valid() && MACHINE_OS_BUILD !in settings.values
    modifies settings
    ensures settings.Valid() && (ok <==> o.swVersBuildVersion.Some?)
    ensures ok ==> settings.values == old(settings.values)[MACHINE_OS_BUILD := Strip(o.swVersBuildVersion.value)]
    ensures ok ==> settings.keys == old(settings.keys) + [MACHINE_OS_BUILD]
  {
    if o.swVersBuildVersion.None? {
      return false;
    }
    settings.Add(MACHINE_OS_BUILD, Strip(o.swVersBuildVersion.value));
    ok := true;
  }

  method FillXcodeVersion(settings: Settings, o: Outputs) returns (ok: bool)
    requires settings.Valid()
    requires XCODE_VERSION !in settings.values && XCODE_BUILD !in settings.values
    modifies settings
    ensures settings.Valid()
    ensures ok <==> o.xcodebuildVersion.Some? && XcodeFields(o.xcodebuildVersion.value).Some?
    ensures ok ==> var (v, b) := XcodeFields(o.xcodebuildVersion.value).value;
      settings.values == old(settings.values)[XCODE_VERSION := v][XCODE_BUILD := b] &&
      settings.keys == old(settings.keys) + [XCODE_VERSION, XCODE_BUILD]
  {
    if o.xcodebuildVersion.None? {
      return false;
    }
    var out := o.xcodebuildVersion.value;
    var lines := SplitLines(out);
    if lines == [] {
      assert XcodeFields(out).None?;
      return false;
    }
    var version := LastWord(lines[0]);
    if version.None? {
      assert XcodeFields(out).None?;
      return false;
    }
    var v := FormatVersion(version.value);
    settings.Add(XCODE_VERSION, v);
    var build := LastWord(lines[|lines| - 1]);
    if build.None? {
      assert XcodeFields(out).None?;
      return false;
    }
    assert XcodeFields(out) == Some((v, build.value));
    assert XCODE_BUILD !in settings.values by {
      KeysDistinct();
    }
    settings.Add(XCODE_BUILD, build.value);
    ok := true;
  }

  method FillSDKPathAndVersion(settings: Settings, xcodeVersion: string, o: Outputs) returns (ok: bool)
    requires settings.Valid()
    requires SDK_PATH !in settings.values && SDK_VERSION !in settings.values
    requires SDK_PLATFORM_PATH !in settings.values && SDK_BUILD !in settings.values
    modifies settings
    ensures settings.Valid()
    ensures ok <==> SdkSettings(xcodeVersion, o).Some?
    ensures ok ==>
      settings.values == WithSdk(old(settings.values), SdkSettings(xcodeVersion, o).value) &&
      settings.keys == old(settings.keys) + [SDK_PATH, SDK_VERSION, SDK_PLATFORM_PATH, SDK_BUILD]
  {
    assert SDK_PATH != SDK_VERSION && SDK_PATH != SDK_PLATFORM_PATH && SDK_PATH != SDK_BUILD &&
      SDK_VERSION != SDK_PLATFORM_PATH && SDK_VERSION != SDK_BUILD && SDK_PLATFORM_PATH != SDK_BUILD by {
      KeysDistinct();
    }
    ghost var start := settings.values;
    if o.sdkPath.None? {
      assert SdkSettings(xcodeVersion, o).None?;
      return false;
    }
    var path := Strip(o.sdkPath.value);
    settings.Add(SDK_PATH, path);
    assert settings.values == start[SDK_PATH := path] && settings.keys == old(settings.keys) + [SDK_PATH];
    if o.sdkVersion.None? {
      assert SdkSettings(xcodeVersion, o).None?;
      return false;
    }
    var version := Strip(o.sdkVersion.value);
    settings.Add(SDK_VERSION, version);
    assert settings.values == start[SDK_PATH := path][SDK_VERSION := version];
    assert settings.keys == old(settings.keys) + [SDK_PATH, SDK_VERSION];
    if o.sdkPlatformPath.None? {
      assert SdkSettings(xcodeVersion, o).None?;
      return false;
    }
    var platformPath := Strip(o.sdkPlatformPath.value);
    settings.Add(SDK_PLATFORM_PATH, platformPath);
    assert settings.values == start[SDK_PATH := path][SDK_VERSION := version][SDK_PLATFORM_PATH := platformPath];
    assert settings.keys == old(settings.keys) + [SDK_PATH, SDK_VERSION, SDK_PLATFORM_PATH];
    var build;
    if AtLeast(xcodeVersion, FIRST_BUILD_QUERY_XCODE) {
      if o.sdkBuildVersion.None? {
        assert SdkSettings(xcodeVersion, o).None?;
        return false;
      }
      build := Strip(o.sdkBuildVersion.value);
    } else {
      assert settings.values[SDK_VERSION] == version;
      build := settings.values[SDK_VERSION];
    }
    settings.Add(SDK_BUILD, build);
    assert SdkSettings(xcodeVersion, o) == Some(SdkFields(path, version, platformPath, build));
    assert settings.values == WithSdk(start, SdkFields(path, version, platformPath, build));
    ok := true;
  }

  /** The settings the machine and Xcode queries give. */
  function FirstSettings(o: Outputs): map<string, string>
    requires o.swVersBuildVersion.Some? && o.xcodebuildVersion.Some?
    requires XcodeFields(o.xcodebuildVersion.value).Some?
  {
    var xf := XcodeFields(o.xcodebuildVersion.value).value;
    map[MACHINE_OS_BUILD := Strip(o.swVersBuildVersion.value)][XCODE_VERSION := xf.0][XCODE_BUILD := xf.1]
  }

  /** FillMachineOSBuild and FillXcodeVersion on a fresh dictionary. */
  method FillFirst(o: Outputs) returns (settings: Settings, ok: bool)
    ensures fresh(settings) && settings.Valid()
    ensures ok <==> o.swVersBuildVersion.Some? && o.xcodebuildVersion.Some? && XcodeFields(o.xcodebuildVersion.value).Some?
    ensures ok ==> settings.values == FirstSettings(o) && settings.keys == [MACHINE_OS_BUILD, XCODE_VERSION, XCODE_BUILD]
  {
    settings := new Settings();
    ok := FillMachineOSBuild(settings, o);
    if !ok {
      return;
    }
    assert XCODE_VERSION !in settings.values && XCODE_BUILD !in settings.values by {
      KeysDistinct();
    }
    ok := FillXcodeVersion(settings, o);
  }

  /** The three Fill calls of the main block on a fresh dictionary. */
  method FillAll(o: Outputs) returns (settings: Settings, ok: bool)
    ensures settings.Valid() && (ok <==> Filled(o).Some?)
    ensures ok ==> settings.values == Filled(o).value
    ensures ok ==> Distinct(settings.keys) && forall k :: k in settings.keys <==> k in SORTED_KEYS
  {
    settings, ok := FillFirst(o);
    if !ok {
      FilledNeedsFirst(o);
      return;
    }
    ghost var first := FirstSettings(o);
    var xv := settings.values[XCODE_VERSION];
    assert xv == first[XCODE_VERSION];
    assert SDK_PATH !in first && SDK_VERSION !in first && SDK_PLATFORM_PATH !in first && SDK_BUILD !in first by {
      KeysDistinct();
    }
    FilledFromParts(o);
    ok := FillSDKPathAndVersion(settings, xv, o);
    if ok {
      assert settings.keys == FILL_ORDER;
      FillOrderKeys(settings.keys);
    }
  }

  /** The print loop: one key="value" line per key of ks, in order. */
  method PrintSettings(ks: seq<string>, values: map<string, string>) returns (printed: seq<string>)
    requires forall i :: 0 <= i < |ks| ==> ks[i] in values
    ensures printed == Lines(ks, values)
  {
    printed := [];
    var i := 0;
    while i < |ks|
      invariant 0 <= i <= |ks|
      invariant printed + Lines(ks[i..], values) == Lines(ks, values)
    {
      assert ks[i..][1..] == ks[i + 1..];
      printed := printed + [SettingLine(ks[i], values[ks[i]])];
      i := i + 1;
    }
  }

  /** for key in sorted(settings): print the key="value" line. */
  method PrintSorted(settings: Settings) returns (printed: seq<string>)
    requires Distinct(settings.keys) && forall k :: k in settings.keys <==> k in SORTED_KEYS
    requires forall k :: k in SORTED_KEYS ==> k in settings.values
    ensures printed == Lines(SORTED_KEYS, settings.values)
  {
    var ks := Sort(settings.keys);
    SortReportKeys(settings.keys);
    printed := PrintSettings(ks, settings.values);
  }

  /** The script's main block: the new environment, how it ends and the lines
    * it prints. */
  method SdkInfoMain(developerDir: Option<string>, unknownArgs: seq<string>, environ: map<string, string>, o: Outputs)
    returns (exit: ScriptExit, env: map<string, string>, printed: seq<string>)
    ensures env == Environ(developerDir, environ)
    ensures (exit, printed) == Run(unknownArgs, o)
  {
    env := environ;
    if developerDir.Some? && developerDir.value != "" {
      env := env[DEVELOPER_DIR := developerDir.value];
    }
    if |unknownArgs| != 1 {
      return ExitCode(1), env, [];
    }
    var settings, ok := FillAll(o);
    if !ok {
      return Raised, env, [];
    }
    printed := PrintSorted(settings);
    exit := ExitCode(0);
  }
}
