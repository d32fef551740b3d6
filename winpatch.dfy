// The line filters winpatch.py runs over vendored sources before a Windows
// build. Each filter maps the lines of a file (without their line endings)
// to the lines written back.

module WinPatch {
  import opened Text

  function MapLines(lines: seq<string>, f: string -> string): seq<string> {
    seq(|lines|, i requires 0 <= i < |lines| => f(lines[i]))
  }

  /** A filter that replaces every occurrence of a fixed text in each line. */
  function LiteralFilter(lines: seq<string>, p: string, r: string): seq<string>
    requires p != []
  {
    MapLines(lines, line => ReplaceAll(line, p, r))
  }

  /** One output line per input line; lines without the pattern are copied,
    * and a line that starts with it starts with the replacement instead. */
  lemma LiteralFilterLines(lines: seq<string>, p: string, r: string)
    requires p != []
    ensures |LiteralFilter(lines, p, r)| == |lines|
    ensures forall i :: 0 <= i < |lines| && !HasSubstring(lines[i], p) ==>
      LiteralFilter(lines, p, r)[i] == lines[i]
    ensures forall i :: 0 <= i < |lines| && StartsWith(lines[i], p) ==>
      LiteralFilter(lines, p, r)[i] == r + ReplaceAll(lines[i][|p|..], p, r)
  {
    forall i | 0 <= i < |lines| && !HasSubstring(lines[i], p)
      ensures LiteralFilter(lines, p, r)[i] == lines[i]
    {
      ReplaceAllAbsent(lines[i], p, r);
    }
  }

  const GLFW_PATTERN: string := "#if WINVER < 0x0600"
  const GLFW_REPLACEMENT: string := "#ifndef DWM_BB_ENABLE"
  const HELPER_PATTERN: string := "static const char * GetPhysDevFeatureString"
  const HELPER_REPLACEMENT: string := "inline const char * GetPhysDevFeatureString"

  function GlfwFilter(lines: seq<string>): seq<string> {
    LiteralFilter(lines, GLFW_PATTERN, GLFW_REPLACEMENT)
  }

  function HelperFilter(lines: seq<string>): seq<string> {
    LiteralFilter(lines, HELPER_PATTERN, HELPER_REPLACEMENT)
  }

  /** The declaration helper_file_generator.py emits becomes inline, whatever
    * follows it on the line. */
  lemma HelperFilterRewritesDeclaration(post: string)
    ensures HelperFilter([HELPER_PATTERN + post])
         == [HELPER_REPLACEMENT + ReplaceAll(post, HELPER_PATTERN, HELPER_REPLACEMENT)]
  {
    var p := HELPER_PATTERN;
    ShortHasNoSubstring(p[..|p| - 1], p);
    assert "" + p[..|p| - 1] == p[..|p| - 1];
    ReplaceAllAtFirst("", p, HELPER_REPLACEMENT, post);
    assert "" + p + post == p + post;
  }

  /** The WINVER guard of win32_platform.h becomes a DWM_BB_ENABLE guard. */
  lemma GlfwFilterRewritesGuard(pre: string, post: string)
    requires !HasSubstring(pre + GLFW_PATTERN[..|GLFW_PATTERN| - 1], GLFW_PATTERN)
    ensures GlfwFilter([pre + GLFW_PATTERN + post])
         == [pre + GLFW_REPLACEMENT + ReplaceAll(post, GLFW_PATTERN, GLFW_REPLACEMENT)]
  {
    ReplaceAllAtFirst(pre, GLFW_PATTERN, GLFW_REPLACEMENT, post);
  }

  // utilsFilter: re.compile("^#include \"vulkan/vulkan.h\""), where '.' is a
  // regular-expression wildcard and '^' anchors the match at the line start.

  const UTILS_PATTERN: string := "#include \"vulkan/vulkan.h\""
  const UTILS_WILDCARD: nat := 23
  const UTILS_REPLACEMENT: string := "#include <vulkan/vulkan.h>"

  /** The line starts with the pattern, any character but a newline standing
    * in for the '.'. */
  predicate UtilsMatch(line: string) {
    |line| >= |UTILS_PATTERN| &&
    (forall k :: 0 <= k < |UTILS_PATTERN| && k != UTILS_WILDCARD ==> line[k] == UTILS_PATTERN[k]) &&
    line[UTILS_WILDCARD] != '\n'
  }

  function UtilsLine(line: string): string {
    if UtilsMatch(line) then UTILS_REPLACEMENT + line[|UTILS_PATTERN|..] else line
  }

  function UtilsFilter(lines: seq<string>): seq<string> {
    MapLines(lines, UtilsLine)
  }

  /** A rewritten include no longer matches, so running the filter twice
    * is the same as running it once. */
  lemma UtilsFilterIdempotent(lines: seq<string>)
    ensures UtilsFilter(UtilsFilter(lines)) == UtilsFilter(lines)
  {
    forall i | 0 <= i < |lines|
      ensures UtilsLine(UtilsLine(lines[i])) == UtilsLine(lines[i])
    {
      var once := UtilsLine(lines[i]);
      if UtilsMatch(lines[i]) {
        assert once[9] == '<' && UTILS_PATTERN[9] == '"';
      }
    }
  }

  /** Only a match at the start of the line is rewritten: the include of a
    * line with anything before it is kept. */
  lemma UtilsFilterAnchored(line: string)
    requires line != [] && line[0] != '#'
    ensures UtilsFilter([line]) == [line]
  {
    assert !UtilsMatch(line) by {
      assert UTILS_PATTERN[0] == '#';
    }
    assert UtilsFilter([line]) == [UtilsLine(line)];
  }

  /** The '.' accepts any character: "vulkan/vulkanXh" is rewritten too. */
  lemma UtilsFilterWildcard()
    ensures UtilsFilter(["#include \"vulkan/vulkanXh\""]) == [UTILS_REPLACEMENT]
  {
    var line := "#include \"vulkan/vulkanXh\"";
    assert UtilsMatch(line);
    assert line[|UTILS_PATTERN|..] == [];
    assert UtilsLine(line) == UTILS_REPLACEMENT + [] == UTILS_REPLACEMENT;
    assert UtilsFilter([line]) == [UtilsLine(line)];
  }

  // windefFilter

  const DEF_MATCH: string := "vkGetPhysicalDeviceFormatProperties2"
  const DEF_INSERT: string := "   vkGetPhysicalDeviceImageFormatProperties2"

  /** What windefFilter yields for one line: the line, and DEF_INSERT after
    * it when it mentions DEF_MATCH. */
  function WindefLine(line: string): seq<string> {
    [line] + (if HasSubstring(line, DEF_MATCH) then [DEF_INSERT] else [])
  }

  /** Every line, each one that mentions DEF_MATCH followed by DEF_INSERT. */
  function WindefFilter(lines: seq<string>): seq<string> {
    if lines == [] then []
    else WindefLine(lines[0]) + WindefFilter(lines[1..])
  }

  /** The filter works line by line. */
  lemma {:induction false} WindefFilterAppend(a: seq<string>, b: seq<string>)
    ensures WindefFilter(a + b) == WindefFilter(a) + WindefFilter(b)
    decreases |a|
  {
    if a != [] {
      assert (a + b)[0] == a[0] && (a + b)[1..] == a[1..] + b;
      WindefFilterAppend(a[1..], b);
    } else {
      assert a + b == b;
    }
  }

  function RemoveLine(lines: seq<string>, x: string): seq<string> {
    if lines == [] then []
    else (if lines[0] == x then [] else [lines[0]]) + RemoveLine(lines[1..], x)
  }

  /** Dropping the inserted lines gives back the input, when the input had
    * none of them. */
  lemma {:induction false} WindefFilterRemoveInserted(lines: seq<string>)
    requires forall i :: 0 <= i < |lines| ==> lines[i] != DEF_INSERT
    ensures RemoveLine(WindefFilter(lines), DEF_INSERT) == lines
    decreases |lines|
  {
    if lines != [] {
      WindefFilterRemoveInserted(lines[1..]);
      RemoveLineAppend(WindefLine(lines[0]), WindefFilter(lines[1..]), DEF_INSERT);
      WindefLineRemoveInserted(lines[0]);
      assert lines == [lines[0]] + lines[1..];
    }
  }

  lemma WindefLineRemoveInserted(line: string)
    requires line != DEF_INSERT
    ensures RemoveLine(WindefLine(line), DEF_INSERT) == [line]
  {
    var h := WindefLine(line);
    assert h[0] == line;
    if HasSubstring(line, DEF_MATCH) {
      assert h[1..] == [DEF_INSERT];
      assert RemoveLine([DEF_INSERT], DEF_INSERT) == [];
    } else {
      assert h[1..] == [];
    }
  }

  lemma {:induction false} RemoveLineAppend(a: seq<string>, b: seq<string>, x: string)
    ensures RemoveLine(a + b, x) == RemoveLine(a, x) + RemoveLine(b, x)
    decreases |a|
  {
    if a != [] {
      assert (a + b)[0] == a[0] && (a + b)[1..] == a[1..] + b;
      RemoveLineAppend(a[1..], b, x);
    } else {
      assert a + b == b;
    }
  }

  /** A file that never mentions DEF_MATCH is left as it is. */
  lemma {:induction false} WindefFilterNoMatch(lines: seq<string>)
    requires forall i :: 0 <= i < |lines| ==> !HasSubstring(lines[i], DEF_MATCH)
    ensures WindefFilter(lines) == lines
    decreases |lines|
  {
    if lines != [] {
      WindefFilterNoMatch(lines[1..]);
      assert lines == [lines[0]] + lines[1..];
    }
  }

  // spirvCommonFilter

  const INCLUDE_VECTOR: string := "#include <vector>"
  const REPORT_AND_ABORT: string := "    report_and_abort(const std::string &msg)"
  const CONVERT_TO_STRING: string := "inline std::string convert_to_string(T &&t)"
  const CONVERT_TARGET: string := "\treturn std::to_string(std::forward<T>(t));"
  const NDEBUG_LINE: string := "#ifdef NDEBUG"
  const ELIF_NDEBUG: string := "#elif defined(NDEBUG)"
  const ANDROID_IFDEF: string := "#ifdef __ANDROID__"
  const ANDROID_LOG_ASSERT: string := "\t__android_log_assert(__FILE__, \"volcano\", \"spirv_cross error: %s\\n\", msg.c_str());"
  const ANDROID_INCLUDE: seq<string> := [ANDROID_IFDEF, "#include <android/log.h>", "#endif"]
  const CONVERTER: seq<string> := ["\tstd::ostringstream converter;", "\tconverter << std::forward<T>(t);", "\treturn converter.str();"]

  /** The filter's four flags. */
  datatype SpirvState = SpirvState(alreadyPatched: bool, includeVector: bool, reportAndAbort: bool, convertToString: bool)

  const SPIRV_START := SpirvState(false, false, false, false)

  datatype SpirvOut = SpirvOut(next: SpirvState, out: seq<string>)

  /** The flags the end of the loop body computes from the line just read. */
  function After(st: SpirvState, line: string): SpirvState {
    st.(includeVector := line == INCLUDE_VECTOR, reportAndAbort := line == REPORT_AND_ABORT,
        convertToString := line == CONVERT_TO_STRING)
  }

  /** One pass of the loop body: the lines it yields and the next flags.
    * The two `continue` branches skip the flag update. */
  function SpirvStep(st: SpirvState, line: string): SpirvOut {
    if st.alreadyPatched then SpirvOut(After(st, line), [line])
    else if st.includeVector then
      if line == "" then SpirvOut(After(st, line), ANDROID_INCLUDE + [line])
      else SpirvOut(After(st.(alreadyPatched := true), line), [line])
    else if line == "{" && st.reportAndAbort then SpirvOut(st, [line, ANDROID_IFDEF, ANDROID_LOG_ASSERT])
    else if line == NDEBUG_LINE && st.reportAndAbort then SpirvOut(After(st, line), [ELIF_NDEBUG])
    else if line == "{" && st.convertToString then SpirvOut(st, [line])
    else if line == CONVERT_TARGET && st.convertToString then SpirvOut(After(st, line), CONVERTER)
    else SpirvOut(After(st, line), [line])
  }

  /** The lines the filter yields for `lines`, starting from flags st. */
  function SpirvFrom(st: SpirvState, lines: seq<string>): seq<string>
    decreases |lines|
  {
    if lines == [] then []
    else var s := SpirvStep(st, lines[0]); s.out + SpirvFrom(s.next, lines[1..])
  }

  /** One pass of the generator's loop body over the flags. */
  method SpirvLoopBody(st: SpirvState, line: string) returns (next: SpirvState, yielded: seq<string>)
    ensures SpirvOut(next, yielded) == SpirvStep(st, line)
  {
    next := st;
    if st.alreadyPatched {
      yielded := [line];
    } else if st.includeVector {
      if line == "" {
        yielded := ANDROID_INCLUDE + [line];
      } else {
        next := next.(alreadyPatched := true);
        yielded := [line];
      }
    } else if line == "{" && st.reportAndAbort {
      // continue: the flags are not updated
      return st, [line, ANDROID_IFDEF, ANDROID_LOG_ASSERT];
    } else if line == NDEBUG_LINE && st.reportAndAbort {
      yielded := [ELIF_NDEBUG];
    } else if line == "{" && st.convertToString {
      // continue: the flags are not updated
      return st, [line];
    } else if line == CONVERT_TARGET && st.convertToString {
      yielded := CONVERTER;
    } else {
      yielded := [line];
    }
    next := next.(includeVector := line == INCLUDE_VECTOR, reportAndAbort := line == REPORT_AND_ABORT,
                  convertToString := line == CONVERT_TO_STRING);
  }

  /** spirvCommonFilter(srcFile), as the generator's loop. */
  method SpirvCommonFilter(lines: seq<string>) returns (out: seq<string>)
    ensures out == SpirvFrom(SPIRV_START, lines)
  {
    var st := SPIRV_START;
    out := [];
    var i := 0;
    while i < |lines|
      invariant 0 <= i <= |lines|
      invariant out + SpirvFrom(st, lines[i..]) == SpirvFrom(SPIRV_START, lines)
    {
      var next, yielded := SpirvLoopBody(st, lines[i]);
      assert lines[i..] == [lines[i]] + lines[i + 1..];
      assert out + SpirvFrom(st, lines[i..]) == (out + yielded) + SpirvFrom(next, lines[i + 1..]);
      out := out + yielded;
      st := next;
      i := i + 1;
    }
  }

  /** Once already_patched is set every later line is copied unchanged. */
  lemma {:induction false} SpirvPatchedCopies(st: SpirvState, lines: seq<string>)
    requires st.alreadyPatched
    ensures SpirvFrom(st, lines) == lines
    decreases |lines|
  {
    if lines != [] {
      SpirvPatchedCopies(After(st, lines[0]), lines[1..]);
      assert lines == [lines[0]] + lines[1..];
    }
  }

  predicate IsAnchor(line: string) {
    line == INCLUDE_VECTOR || line == REPORT_AND_ABORT || line == CONVERT_TO_STRING
  }

  /** A file with none of the three anchor lines is copied unchanged. */
  lemma {:induction false} SpirvNoAnchorCopies(lines: seq<string>)
    requires forall i :: 0 <= i < |lines| ==> !IsAnchor(lines[i])
    ensures SpirvFrom(SPIRV_START, lines) == lines
    decreases |lines|
  {
    if lines != [] {
      assert After(SPIRV_START, lines[0]) == SPIRV_START;
      SpirvNoAnchorCopies(lines[1..]);
      assert lines == [lines[0]] + lines[1..];
    }
  }

  /** A blank line right after "#include <vector>" gets the Android include
    * block in front of it; any other line there marks the file as already
    * patched and the rest is copied. */
  lemma SpirvAfterIncludeVector(pre: SpirvState, line: string, rest: seq<string>)
    requires !pre.alreadyPatched
    ensures var st := After(pre, INCLUDE_VECTOR);
      (line == "" ==>
        SpirvFrom(st, [line] + rest) == ANDROID_INCLUDE + [""] + SpirvFrom(After(st, ""), rest)) &&
      (line != "" ==> SpirvFrom(st, [line] + rest) == [line] + rest)
  {
    var st := After(pre, INCLUDE_VECTOR);
    assert ([line] + rest)[0] == line && ([line] + rest)[1..] == rest;
    if line != "" {
      SpirvPatchedCopies(After(st.(alreadyPatched := true), line), rest);
    }
  }

  /** Inside report_and_abort the opening brace gets the Android assert and
    * keeps the flag, so the "#ifdef NDEBUG" that follows becomes an #elif. */
  lemma SpirvReportAndAbort(pre: SpirvState, rest: seq<string>)
    requires !pre.alreadyPatched
    ensures var st := After(pre, REPORT_AND_ABORT);
      SpirvFrom(st, ["{", NDEBUG_LINE] + rest)
        == ["{", ANDROID_IFDEF, ANDROID_LOG_ASSERT, ELIF_NDEBUG] + SpirvFrom(After(st, NDEBUG_LINE), rest)
  {
    var st := After(pre, REPORT_AND_ABORT);
    assert (["{", NDEBUG_LINE] + rest)[1..] == [NDEBUG_LINE] + rest;
    assert ([NDEBUG_LINE] + rest)[1..] == rest;
  }

  /** Without the flag, "#ifdef NDEBUG" is copied. */
  lemma SpirvNdebugNeedsFlag(st: SpirvState, rest: seq<string>)
    requires !st.reportAndAbort
    ensures SpirvFrom(st, [NDEBUG_LINE] + rest)[0] == NDEBUG_LINE
  {
    assert ([NDEBUG_LINE] + rest)[1..] == rest;
  }

  /** In convert_to_string, after the brace, the to_string line becomes the
    * three ostringstream lines. */
  lemma SpirvConvertToString(pre: SpirvState, rest: seq<string>)
    requires !pre.alreadyPatched
    ensures var st := After(pre, CONVERT_TO_STRING);
      SpirvFrom(st, ["{", CONVERT_TARGET] + rest) == ["{"] + CONVERTER + SpirvFrom(After(st, CONVERT_TARGET), rest)
  {
    assert (["{", CONVERT_TARGET] + rest)[1..] == [CONVERT_TARGET] + rest;
    assert ([CONVERT_TARGET] + rest)[1..] == rest;
  }
}
