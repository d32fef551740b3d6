// midl_wrapper.py: runs the MIDL compiler under a saved environment block
// and prints its output without the "Processing <file>" lines and the
// bare file names that follow them. The contents of the environment file,
// the compiler's combined output and its return code are parameters.

module MidlWrapper {
  import opened Text
  import opened Wrappers

  // ---------------------------------------------------------------------
  // GetEnv

  /** s[:-2] on a str: everything but the last two characters ("" when
    * there are fewer). */
  function DropLast2(s: string): string {
    if |s| >= 2 then s[..|s| - 2] else ""
  }

  /** item.split('=', 1): the text before the first '=' and everything after
    * it; None when the item has no '=' (a one-element list, which dict()
    * refuses). */
  function SplitOnce(item: string): Option<(string, string)>
    decreases |item|
  {
    if item == [] then None
    else if item[0] == '=' then Some(("", item[1..]))
    else match SplitOnce(item[1..])
      case None => None
      case Some(kv) => Some(([item[0]] + kv.0, kv.1))
  }

  /** dict(kvs) over the split items, left to right: a later item overrides
    * an earlier one with the same key; None (ValueError) when some item
    * has no '='. */
  function Dict(items: seq<string>): Option<map<string, string>>
    decreases |items|
  {
    if items == [] then Some(map[])
    else match Dict(items[..|items| - 1])
      case None => None
      case Some(m) =>
        match SplitOnce(items[|items| - 1])
          case None => None
          case Some(kv) => Some(m[kv.0 := kv.1])
  }

  /** GetEnv: a saved environment block (entries separated by NUL, two NULs
    * at the end) as a dictionary, or None when it cannot be parsed. */
  function GetEnv(contents: string): Option<map<string, string>> {
    Dict(Split(DropLast2(contents), '\0'))
  }

  /** SplitOnce finds the first '=': the key holds none and the item is
    * key '=' value; None exactly when there is no '=' at all. */
  lemma {:induction false} SplitOnceShape(item: string)
    ensures SplitOnce(item).None? <==> Free(item, '=')
    ensures SplitOnce(item).Some? ==>
      Free(SplitOnce(item).value.0, '=') &&
      item == SplitOnce(item).value.0 + "=" + SplitOnce(item).value.1
    decreases |item|
  {
    if item != [] && item[0] != '=' {
      SplitOnceShape(item[1..]);
      if SplitOnce(item[1..]).None? {
        assert Free(item, '=') by {
          forall k | 0 <= k < |item| ensures item[k] != '=' {
            if k > 0 {
              assert item[k] == item[1..][k - 1];
            }
          }
        }
      } else {
        var kv := SplitOnce(item[1..]).value;
        assert item == [item[0]] + item[1..];
      }
    } else if item != [] {
      assert item == "" + "=" + item[1..];
    }
  }

  /** The inverse direction: a key without '=' comes back whole, and the
    * value may hold further '=' characters. */
  lemma {:induction false} SplitOnceOf(k: string, v: string)
    requires Free(k, '=')
    ensures SplitOnce(k + "=" + v) == Some((k, v))
    decreases |k|
  {
    var item := k + "=" + v;
    if k == [] {
      assert item[0] == '=' && item[1..] == v;
    } else {
      assert item[0] == k[0] && item[1..] == k[1..] + "=" + v;
      SplitOnceOf(k[1..], v);
      assert [k[0]] + k[1..] == k;
    }
  }

  /** dict() raises exactly when some item has no '='. */
  lemma {:induction false} DictNone(items: seq<string>)
    ensures Dict(items).None? <==> exists i :: 0 <= i < |items| && Free(items[i], '=')
    decreases |items|
  {
    if items != [] {
      var n := |items|;
      var init := items[..n - 1];
      DictNone(init);
      SplitOnceShape(items[n - 1]);
      if Dict(init).None? {
        var i :| 0 <= i < |init| && Free(init[i], '=');
        assert items[i] == init[i];
      } else if SplitOnce(items[n - 1]).Some? {
        forall i | 0 <= i < n ensures !Free(items[i], '=') {
          if i < n - 1 {
            assert items[i] == init[i];
          }
        }
      }
    }
  }

  /** The keys of dict() are the keys of the items. */
  lemma {:induction false} DictKeys(items: seq<string>, k: string)
    requires Dict(items).Some?
    ensures k in Dict(items).value <==>
      exists i :: 0 <= i < |items| && SplitOnce(items[i]).Some? && SplitOnce(items[i]).value.0 == k
    decreases |items|
  {
    if items != [] {
      var n := |items|;
      var init := items[..n - 1];
      DictKeys(init, k);
      if k !in Dict(items).value {
        forall i | 0 <= i < n && SplitOnce(items[i]).Some?
          ensures SplitOnce(items[i]).value.0 != k
        {
          if i < n - 1 {
            assert items[i] == init[i];
          }
        }
      } else if k != SplitOnce(items[n - 1]).value.0 {
        var i :| 0 <= i < |init| && SplitOnce(init[i]).Some? && SplitOnce(init[i]).value.0 == k;
        assert items[i] == init[i];
      }
    }
  }

  /** Later items win: the value of a key is the one of the last item that
    * has that key. */
  lemma {:induction false} DictLaterWins(items: seq<string>, k: string)
    requires Dict(items).Some? && k in Dict(items).value
    ensures exists i :: 0 <= i < |items| && SplitOnce(items[i]) == Some((k, Dict(items).value[k])) &&
                        (forall j :: i < j < |items| ==> SplitOnce(items[j]).Some? && SplitOnce(items[j]).value.0 != k)
    decreases |items|
  {
    var n := |items|;
    var init := items[..n - 1];
    var m := Dict(items).value;
    var kv := SplitOnce(items[n - 1]).value;
    if kv.0 == k {
      assert SplitOnce(items[n - 1]) == Some((k, m[k]));
    } else {
      DictLaterWins(init, k);
      var i :| 0 <= i < |init| && SplitOnce(init[i]) == Some((k, Dict(init).value[k])) &&
        forall j :: i < j < |init| ==> SplitOnce(init[j]).Some? && SplitOnce(init[j]).value.0 != k;
      assert items[i] == init[i];
      forall j | i < j < n ensures SplitOnce(items[j]).Some? && SplitOnce(items[j]).value.0 != k {
        if j < n - 1 {
          assert items[j] == init[j];
        }
      }
    }
  }

  /** An environment block is too short to hold an entry: dict() raises. */
  lemma GetEnvShortRaises(contents: string)
    requires |contents| <= 2
    ensures GetEnv(contents) == None
  {
    assert DropLast2(contents) == "";
    assert Split("", '\0') == [""];
    assert Free("", '=');
    DictNone([""]);
  }

  // The encoder the parser is the inverse of.

  function Entry(kv: (string, string)): string {
    kv.0 + "=" + kv.1
  }

  function Entries(pairs: seq<(string, string)>): seq<string> {
    seq(|pairs|, i requires 0 <= i < |pairs| => Entry(pairs[i]))
  }

  /** An environment block as the process that saved it writes one: each
    * name=value entry followed by a NUL, and one NUL more at the end. */
  function EnvBlock(pairs: seq<(string, string)>): string {
    Join(Entries(pairs), '\0') + "\0\0"
  }

  /** dict(pairs): the pairs applied left to right. */
  function ToMap(pairs: seq<(string, string)>): map<string, string>
    decreases |pairs|
  {
    if pairs == [] then map[]
    else ToMap(pairs[..|pairs| - 1])[pairs[|pairs| - 1].0 := pairs[|pairs| - 1].1]
  }

  lemma {:induction false} DictEntries(pairs: seq<(string, string)>)
    requires forall i :: 0 <= i < |pairs| ==> Free(pairs[i].0, '=')
    ensures Dict(Entries(pairs)) == Some(ToMap(pairs))
    decreases |pairs|
  {
    if pairs != [] {
      var n := |pairs|;
      assert Entries(pairs)[..n - 1] == Entries(pairs[..n - 1]);
      DictEntries(pairs[..n - 1]);
      SplitOnceOf(pairs[n - 1].0, pairs[n - 1].1);
    }
  }

  /** GetEnv reads back every block of at least one entry whose names hold
    * neither '=' nor NUL and whose values hold no NUL (they may hold '='):
    * the dictionary of the entries, a later name overriding an earlier one. */
  lemma GetEnvBlock(pairs: seq<(string, string)>)
    requires |pairs| >= 1
    requires forall i :: 0 <= i < |pairs| ==> Free(pairs[i].0, '=') && Free(pairs[i].0, '\0') && Free(pairs[i].1, '\0')
    ensures GetEnv(EnvBlock(pairs)) == Some(ToMap(pairs))
  {
    var es := Entries(pairs);
    var j := Join(es, '\0');
    assert DropLast2(j + "\0\0") == j by {
      assert (j + "\0\0")[..|j|] == j;
    }
    forall i | 0 <= i < |es| ensures Free(es[i], '\0') {
      var e := es[i];
      assert e == pairs[i].0 + "=" + pairs[i].1;
      forall c | 0 <= c < |e| ensures e[c] != '\0' {
        if c < |pairs[i].0| {
          assert e[c] == pairs[i].0[c];
        } else if c > |pairs[i].0| {
          assert e[c] == pairs[i].1[c - |pairs[i].0| - 1];
        }
      }
    }
    SplitJoin(es, '\0');
    DictEntries(pairs);
  }

  // ---------------------------------------------------------------------
  // The MIDL command line

  /** args: 'midl', '/nologo', the extra flags, the six output options with
    * their values, and the .idl file last. */
  function MidlArgs(flags: seq<string>, outdir: string, tlb: string, h: string, dlldata: string,
                    iid: string, proxy: string, idl: string): seq<string>
  {
    ["midl", "/nologo"] + flags +
    ["/out", outdir, "/tlb", tlb, "/h", h, "/dlldata", dlldata, "/iid", iid, "/proxy", proxy, idl]
  }

  const OPTIONS: seq<string> := ["/out", "/tlb", "/h", "/dlldata", "/iid", "/proxy"]

  /** The command line in order: the fixed head, the flags unchanged, then
    * each option name directly followed by its value, and the .idl file as
    * the last argument. */
  lemma MidlArgsShape(flags: seq<string>, outdir: string, tlb: string, h: string, dlldata: string,
                      iid: string, proxy: string, idl: string)
    ensures var args := MidlArgs(flags, outdir, tlb, h, dlldata, iid, proxy, idl);
      var values := [outdir, tlb, h, dlldata, iid, proxy];
      var f := |flags|;
      |args| == f + 15 &&
      args[..2] == ["midl", "/nologo"] &&
      args[2..2 + f] == flags &&
      (forall j :: 0 <= j < 6 ==> args[2 + f + 2 * j] == OPTIONS[j] && args[3 + f + 2 * j] == values[j]) &&
      args[|args| - 1] == idl
  {
    var args := MidlArgs(flags, outdir, tlb, h, dlldata, iid, proxy, idl);
    var values := [outdir, tlb, h, dlldata, iid, proxy];
    var tail := ["/out", outdir, "/tlb", tlb, "/h", h, "/dlldata", dlldata, "/iid", iid, "/proxy", proxy, idl];
    var f := |flags|;
    assert args == ["midl", "/nologo"] + flags + tail;
    assert args[..2] == ["midl", "/nologo"];
    assert args[2..2 + f] == flags;
    forall j | 0 <= j < 6
      ensures args[2 + f + 2 * j] == OPTIONS[j] && args[3 + f + 2 * j] == values[j]
    {
      assert args[2 + f + 2 * j] == tail[2 * j];
      assert args[3 + f + 2 * j] == tail[2 * j + 1];
      assert tail[2 * j] == OPTIONS[j] && tail[2 * j + 1] == values[j] by {
        assert j == 0 || j == 1 || j == 2 || j == 3 || j == 4 || j == 5;
      }
    }
  }

  // ---------------------------------------------------------------------
  // Filtering the compiler's output

  const PROCESSING: string := "Processing "
  const PROCESSING_64: string := "64 bit Processing "

  /** line.startswith(prefixes). */
  predicate Prefixed(line: string) {
    StartsWith(line, PROCESSING) || StartsWith(line, PROCESSING_64)
  }

  predicate IsSep(c: char) {
    c == '\\' || c == '/'
  }

  /** os.path.basename on Windows: what follows the last '\' or '/'. A line
    * that starts with one of the prefixes has no drive or UNC part, so the
    * drive split ntpath does first leaves it whole. */
  function Basename(p: string): string
    decreases |p|
  {
    if p == [] || IsSep(p[|p| - 1]) then ""
    else Basename(p[..|p| - 1]) + [p[|p| - 1]]
  }

  /** The base name is the separator-free tail of the path, and it starts
    * right after a separator unless it is the whole path. */
  lemma {:induction false} BasenameShape(p: string)
    ensures var b := Basename(p);
      |b| <= |p| && p[|p| - |b|..] == b &&
      (forall k :: 0 <= k < |b| ==> !IsSep(b[k])) &&
      (|b| < |p| ==> IsSep(p[|p| - |b| - 1]))
    decreases |p|
  {
    if p != [] && !IsSep(p[|p| - 1]) {
      var q := p[..|p| - 1];
      BasenameShape(q);
      var bq := Basename(q);
      assert p[|p| - |bq| - 1..] == q[|q| - |bq|..] + [p[|p| - 1]];
      if |bq| < |q| {
        assert p[|p| - |bq| - 2] == q[|q| - |bq| - 1];
      }
    }
  }

  /** A separator-free name after a directory that ends in a separator is
    * the base name. */
  lemma {:induction false} BasenameAfterSep(dir: string, name: string)
    requires dir != [] && IsSep(dir[|dir| - 1])
    requires forall k :: 0 <= k < |name| ==> !IsSep(name[k])
    ensures Basename(dir + name) == name
    decreases |name|
  {
    var p := dir + name;
    if name == [] {
      assert p == dir;
    } else {
      var n := |name|;
      assert p[..|p| - 1] == dir + name[..n - 1];
      BasenameAfterSep(dir, name[..n - 1]);
      assert name[..n - 1] + [name[n - 1]] == name;
    }
  }

  /** processing: the base names of the lines that start with a prefix. */
  function Processing(lines: seq<string>): set<string> {
    set i | 0 <= i < |lines| && Prefixed(lines[i]) :: Basename(lines[i])
  }

  /** The test of the print loop. */
  predicate Keep(line: string, processing: set<string>) {
    !Prefixed(line) && line !in processing
  }

  /** The lines the print loop prints, in their order. */
  function Filtered(lines: seq<string>, processing: set<string>): seq<string>
    decreases |lines|
  {
    if lines == [] then []
    else (if Keep(lines[0], processing) then [lines[0]] else []) + Filtered(lines[1..], processing)
  }

  /** A line is printed exactly when it is an output line that passes the
    * test. */
  lemma {:induction false} FilteredMember(lines: seq<string>, processing: set<string>, x: string)
    ensures x in Filtered(lines, processing) <==> x in lines && Keep(x, processing)
    decreases |lines|
  {
    if lines != [] {
      FilteredMember(lines[1..], processing, x);
      assert x in lines <==> x == lines[0] || x in lines[1..] by {
        assert lines == [lines[0]] + lines[1..];
      }
    }
  }

  /** Filtering keeps the order: the lines of two parts are printed part by
    * part. */
  lemma {:induction false} FilteredAppend(a: seq<string>, b: seq<string>, processing: set<string>)
    ensures Filtered(a + b, processing) == Filtered(a, processing) + Filtered(b, processing)
    decreases |a|
  {
    if a != [] {
      assert (a + b)[1..] == a[1..] + b;
      FilteredAppend(a[1..], b, processing);
    } else {
      assert a + b == b;
    }
  }

  /** Output with nothing to filter is printed unchanged. */
  lemma {:induction false} FilteredAllKept(lines: seq<string>, processing: set<string>)
    requires forall i :: 0 <= i < |lines| ==> Keep(lines[i], processing)
    ensures Filtered(lines, processing) == lines
    decreases |lines|
  {
    if lines != [] {
      FilteredAllKept(lines[1..], processing);
    }
  }

  /** The pair the script is written for: "Processing <dir>\<name>" followed
    * by "<name>" prints nothing. */
  lemma PairDropped(prefix: string, dir: string, name: string, rest: seq<string>)
    requires prefix == PROCESSING || prefix == PROCESSING_64
    requires dir != [] && IsSep(dir[|dir| - 1])
    requires forall k :: 0 <= k < |name| ==> !IsSep(name[k])
    requires !Prefixed(name)
    ensures var lines := [prefix + dir + name, name] + rest;
      Filtered(lines, Processing(lines)) == Filtered(rest, Processing(lines))
  {
    var lines := [prefix + dir + name, name] + rest;
    var p := Processing(lines);
    var first := prefix + dir + name;
    assert first[..|prefix|] == prefix;
    assert Prefixed(first);
    assert first == prefix + (dir + name);
    assert prefix + dir != [] && IsSep((prefix + dir)[|prefix + dir| - 1]);
    BasenameAfterSep(prefix + dir, name);
    assert first == (prefix + dir) + name;
    assert Basename(lines[0]) == name;
    assert name in p;
    assert lines[1..][1..] == rest;
  }

  /** for line in lines: print it if it passes the test. */
  method PrintFiltered(lines: seq<string>, processing: set<string>) returns (printed: seq<string>)
    ensures printed == Filtered(lines, processing)
  {
    printed := [];
    var i := 0;
    while i < |lines|
      invariant 0 <= i <= |lines|
      invariant printed + Filtered(lines[i..], processing) == Filtered(lines, processing)
    {
      assert lines[i..][1..] == lines[i + 1..];
      var line := lines[i];
      if !Prefixed(line) && line !in processing {
        printed := printed + [line];
      }
      i := i + 1;
    }
  }

  // ---------------------------------------------------------------------
  // main

  /** What the compiler is started with. */
  datatype Command = Command(args: seq<string>, env: map<string, string>)

  /** How a run ends, what it starts and what it prints. */
  datatype Outcome = Outcome(exit: ScriptExit, command: Option<Command>, printed: seq<string>)

  /** sys.exit(main(*argv)) for argv = sys.argv[1:]: arch, outdir, tlb, h,
    * dlldata, iid, proxy, idl, then the flags. archFile is the content of
    * the file named arch (None when it cannot be read); out is the
    * compiler's combined output and returncode its exit status. */
  function Midl(argv: seq<string>, archFile: Option<string>, out: string, returncode: int): Outcome {
    if |argv| < 8 then Outcome(Raised, None, [])
    else if archFile.None? then Outcome(Raised, None, [])
    else match GetEnv(archFile.value)
      case None => Outcome(Raised, None, [])
      case Some(env) =>
        var lines := SplitLines(out);
        Outcome(ExitCode(returncode),
                Some(Command(MidlArgs(argv[8..], argv[1], argv[2], argv[3], argv[4], argv[5], argv[6], argv[7]), env)),
                Filtered(lines, Processing(lines)))
  }

  /** The script ends with the compiler's return code exactly when it gets
    * its eight arguments and a readable environment block; otherwise it
    * raises before starting anything and prints nothing. */
  lemma MidlExit(argv: seq<string>, archFile: Option<string>, out: string, returncode: int)
    ensures var r := Midl(argv, archFile, out, returncode);
      (r.exit == ExitCode(returncode) <==> r.command.Some?) &&
      (r.command.Some? <==> |argv| >= 8 && archFile.Some? && GetEnv(archFile.value).Some?) &&
      (r.command.None? ==> r.exit == Raised && r.printed == [])
  {
  }

  /** The compiler gets the block's dictionary as its environment and a
    * command line with the flags in order after the head and the .idl file
    * last. */
  lemma MidlCommand(argv: seq<string>, archFile: Option<string>, out: string, returncode: int)
    requires Midl(argv, archFile, out, returncode).command.Some?
    ensures var c := Midl(argv, archFile, out, returncode).command.value;
      c.env == GetEnv(archFile.value).value &&
      c.args[..2] == ["midl", "/nologo"] &&
      c.args[2..|argv| - 6] == argv[8..] &&
      c.args[|c.args| - 1] == argv[7]
  {
    MidlArgsShape(argv[8..], argv[1], argv[2], argv[3], argv[4], argv[5], argv[6], argv[7]);
  }

  /** A line is printed exactly when the compiler printed it, it starts with
    * neither prefix and no prefixed line has it as base name. */
  lemma MidlPrinted(argv: seq<string>, archFile: Option<string>, out: string, returncode: int, x: string)
    requires Midl(argv, archFile, out, returncode).command.Some?
    ensures var lines := SplitLines(out);
      x in Midl(argv, archFile, out, returncode).printed <==>
        x in lines && !Prefixed(x) &&
        forall i :: 0 <= i < |lines| && Prefixed(lines[i]) ==> Basename(lines[i]) != x
  {
    var lines := SplitLines(out);
    FilteredMember(lines, Processing(lines), x);
  }

  /** The script: build the command line, read the environment, run the
    * compiler, collect the base names of the prefixed lines and print the
    * rest. */
  method MidlMain(argv: seq<string>, archFile: Option<string>, out: string, returncode: int)
    returns (exit: ScriptExit, command: Option<Command>, printed: seq<string>)
    ensures Outcome(exit, command, printed) == Midl(argv, archFile, out, returncode)
  {
    if |argv| < 8 {
      return Raised, None, [];
    }
    var args := MidlArgs(argv[8..], argv[1], argv[2], argv[3], argv[4], argv[5], argv[6], argv[7]);
    if archFile.None? {
      return Raised, None, [];
    }
    var env := GetEnv(archFile.value);
    if env.None? {
      return Raised, None, [];
    }
    command := Some(Command(args, env.value));
    var lines := SplitLines(out);
    var processing := Processing(lines);
    printed := PrintFiltered(lines, processing);
    exit := ExitCode(returncode);
  }
}
