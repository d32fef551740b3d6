// String vocabulary shared by the build scripts: prefixes, substrings,
// literal replacement as re.sub does it for a pattern without special
// characters, splitting and joining on one separator, whitespace handling,
// Python's ordering of str values and sorted() over it.

module Text {
  import Wrappers

  /** How a script ends: sys.exit(code) (returning from main is code 0), or
    * an exception nobody catches. */
  datatype ScriptExit = ExitCode(code: int) | Raised

  predicate StartsWith(s: string, p: string) {
    |p| <= |s| && s[..|p|] == p
  }

  /** p occurs somewhere in s. */
  predicate HasSubstring(s: string, p: string)
    decreases |s|
  {
    StartsWith(s, p) || (s != [] && HasSubstring(s[1..], p))
  }

  /** A string shorter than p cannot hold it. */
  lemma {:induction false} ShortHasNoSubstring(s: string, p: string)
    requires |s| < |p|
    ensures !HasSubstring(s, p)
    decreases |s|
  {
    if s != [] {
      ShortHasNoSubstring(s[1..], p);
    }
  }

  /** re.sub(p, r, s) for a pattern p that matches only itself: scanning from
    * the left, each occurrence is replaced and scanning resumes after it. */
  function ReplaceAll(s: string, p: string, r: string): string
    requires p != []
    decreases |s|
  {
    if |s| < |p| then s
    else if s[..|p|] == p then r + ReplaceAll(s[|p|..], p, r)
    else [s[0]] + ReplaceAll(s[1..], p, r)
  }

  /** A line without the pattern is left as it is. */
  lemma {:induction false} ReplaceAllAbsent(s: string, p: string, r: string)
    requires p != [] && !HasSubstring(s, p)
    ensures ReplaceAll(s, p, r) == s
    decreases |s|
  {
    if |s| >= |p| {
      ReplaceAllAbsent(s[1..], p, r);
      assert s == [s[0]] + s[1..];
    }
  }

  /** Replacing the pattern by itself changes nothing. */
  lemma {:induction false} ReplaceAllSelf(s: string, p: string)
    requires p != []
    ensures ReplaceAll(s, p, p) == s
    decreases |s|
  {
    if |s| >= |p| {
      if s[..|p|] == p {
        ReplaceAllSelf(s[|p|..], p);
        assert s == s[..|p|] + s[|p|..];
      } else {
        ReplaceAllSelf(s[1..], p);
        assert s == [s[0]] + s[1..];
      }
    }
  }

  /** The text before the first occurrence survives, and the occurrence
    * itself becomes the replacement. */
  lemma {:induction false} ReplaceAllAtFirst(pre: string, p: string, r: string, post: string)
    requires p != [] && !HasSubstring(pre + p[..|p| - 1], p)
    ensures ReplaceAll(pre + p + post, p, r) == pre + r + ReplaceAll(post, p, r)
    decreases |pre|
  {
    var s := pre + p + post;
    if pre == [] {
      assert s[..|p|] == p;
      assert s[|p|..] == post;
    } else {
      var t := pre + p[..|p| - 1];
      assert !StartsWith(t, p) && !HasSubstring(t[1..], p);
      assert s[..|t|] == t;
      assert s[..|p|] == t[..|p|];
      assert t[1..] == pre[1..] + p[..|p| - 1];
      assert s[1..] == pre[1..] + p + post;
      ReplaceAllAtFirst(pre[1..], p, r, post);
      assert [s[0]] + (pre[1..] + r + ReplaceAll(post, p, r)) == pre + r + ReplaceAll(post, p, r);
    }
  }

  /** s.split(c): the pieces between the separators (one piece when c does not
    * occur, so "" splits into [""]). */
  function Split(s: string, c: char): (pieces: seq<string>)
    ensures |pieces| >= 1
    decreases |s|
  {
    if s == [] then [""]
    else if s[0] == c then [""] + Split(s[1..], c)
    else var rest := Split(s[1..], c); [[s[0]] + rest[0]] + rest[1..]
  }

  /** No piece holds the separator. */
  lemma {:induction false} SplitPiecesFree(s: string, c: char)
    ensures forall i :: 0 <= i < |Split(s, c)| ==> Free(Split(s, c)[i], c)
    decreases |s|
  {
    if s != [] {
      SplitPiecesFree(s[1..], c);
    }
  }

  /** c.join(pieces). */
  function Join(pieces: seq<string>, c: char): string {
    if pieces == [] then ""
    else if |pieces| == 1 then pieces[0]
    else pieces[0] + [c] + Join(pieces[1..], c)
  }

  predicate Free(s: string, c: char) {
    forall k :: 0 <= k < |s| ==> s[k] != c
  }

  lemma {:induction false} SplitPrefix(x: string, rest: string, c: char)
    requires Free(x, c)
    ensures Split(x + [c] + rest, c) == [x] + Split(rest, c)
    decreases |x|
  {
    var s := x + [c] + rest;
    if x == [] {
      assert s == [c] + rest;
      assert s[1..] == rest;
    } else {
      assert s[0] == x[0] && s[1..] == x[1..] + [c] + rest;
      SplitPrefix(x[1..], rest, c);
      assert [x[0]] + x[1..] == x;
    }
  }

  lemma {:induction false} SplitFree(x: string, c: char)
    requires Free(x, c)
    ensures Split(x, c) == [x]
    decreases |x|
  {
    if x != [] {
      SplitFree(x[1..], c);
      assert [x[0]] + x[1..] == x;
    }
  }

  /** Splitting undoes joining when no piece holds the separator. */
  lemma {:induction false} SplitJoin(pieces: seq<string>, c: char)
    requires |pieces| >= 1
    requires forall i :: 0 <= i < |pieces| ==> Free(pieces[i], c)
    ensures Split(Join(pieces, c), c) == pieces
    decreases |pieces|
  {
    if |pieces| == 1 {
      SplitFree(pieces[0], c);
    } else {
      SplitJoin(pieces[1..], c);
      SplitPrefix(pieces[0], Join(pieces[1..], c), c);
      assert pieces == [pieces[0]] + pieces[1..];
    }
  }

  /** Python's < on str: by code point at the first difference, and a proper
    * prefix comes first. */
  predicate Less(a: string, b: string)
    decreases |a|
  {
    if a == [] then b != []
    else if b == [] then false
    else if a[0] != b[0] then a[0] < b[0]
    else Less(a[1..], b[1..])
  }

  /** Less is a strict total order. */
  lemma {:induction false} LessTotal(a: string, b: string)
    ensures a == b || Less(a, b) || Less(b, a)
    ensures !(Less(a, b) && Less(b, a))
    ensures !Less(a, a)
    decreases |a|
  {
    if a != [] && b != [] {
      LessTotal(a[1..], b[1..]);
      if a[0] == b[0] && a[1..] == b[1..] {
        assert a == [a[0]] + a[1..] && b == [b[0]] + b[1..];
      }
    } else if a != [] {
      LessTotal(a[1..], a[1..]);
    }
  }

  lemma {:induction false} LessTrans(a: string, b: string, c: string)
    requires Less(a, b) && Less(b, c)
    ensures Less(a, c)
    decreases |a|
  {
    if a != [] && a[0] == b[0] && b[0] == c[0] {
      LessTrans(a[1..], b[1..], c[1..]);
    }
  }

  /** Joining one more piece puts a separator before it. */
  lemma {:induction false} JoinSnoc(pieces: seq<string>, x: string, c: char)
    requires |pieces| >= 1
    ensures Join(pieces + [x], c) == Join(pieces, c) + [c] + x
    decreases |pieces|
  {
    if |pieces| > 1 {
      assert (pieces + [x])[1..] == pieces[1..] + [x];
      JoinSnoc(pieces[1..], x, c);
    }
  }

  /** str.splitlines() for text whose only line boundary is '\n': the pieces
    * between newlines, with no empty piece for a final newline. */
  function SplitLines(s: string): seq<string> {
    if s == [] then []
    else
      var p := Split(s, '\n');
      if p[|p| - 1] == "" then p[..|p| - 1] else p
  }

  /** No line holds a newline. */
  lemma SplitLinesFree(s: string)
    ensures forall i :: 0 <= i < |SplitLines(s)| ==> Free(SplitLines(s)[i], '\n')
  {
    SplitPiecesFree(s, '\n');
  }

  /** Lines written out one per line come back from SplitLines. */
  lemma SplitLinesJoin(lines: seq<string>)
    requires |lines| >= 1
    requires forall i :: 0 <= i < |lines| ==> Free(lines[i], '\n')
    ensures SplitLines(Join(lines, '\n') + "\n") == lines
  {
    JoinSnoc(lines, "", '\n');
    assert Join(lines, '\n') + "\n" == Join(lines + [""], '\n');
    SplitJoin(lines + [""], '\n');
    assert (lines + [""])[..|lines|] == lines;
  }

  /** The characters str.split() and str.strip() treat as whitespace, in
    * the ASCII range: space, tab, line feed, vertical tab, form feed,
    * carriage return and the four separators U+001C to U+001F. */
  predicate IsSpace(c: char) {
    c == ' ' || c == '\t' || c == '\n' || c == '\r' || c as int == 11 || c as int == 12 || 28 <= c as int <= 31
  }

  function TrimLeft(s: string): string
    decreases |s|
  {
    if s != [] && IsSpace(s[0]) then TrimLeft(s[1..]) else s
  }

  /** TrimLeft drops exactly the leading whitespace. */
  lemma {:induction false} TrimLeftShape(s: string)
    ensures var r := TrimLeft(s);
      |r| <= |s| && r == s[|s| - |r|..] && (r == [] || !IsSpace(r[0])) &&
      forall k :: 0 <= k < |s| - |r| ==> IsSpace(s[k])
    decreases |s|
  {
    if s != [] && IsSpace(s[0]) {
      TrimLeftShape(s[1..]);
    }
  }

  function TrimRight(s: string): string
    decreases |s|
  {
    if s != [] && IsSpace(s[|s| - 1]) then TrimRight(s[..|s| - 1]) else s
  }

  /** TrimRight drops exactly the trailing whitespace. */
  lemma {:induction false} TrimRightShape(s: string)
    ensures var r := TrimRight(s);
      |r| <= |s| && r == s[..|r|] && (r == [] || !IsSpace(r[|r| - 1])) &&
      forall k :: |r| <= k < |s| ==> IsSpace(s[k])
    decreases |s|
  {
    if s != [] && IsSpace(s[|s| - 1]) {
      TrimRightShape(s[..|s| - 1]);
    }
  }

  /** str.strip(). */
  function Strip(s: string): string {
    TrimRight(TrimLeft(s))
  }

  /** Stripping twice is stripping once. */
  lemma StripIdempotent(s: string)
    ensures Strip(Strip(s)) == Strip(s)
  {
    var t := Strip(s);
    TrimLeftShape(s);
    TrimRightShape(TrimLeft(s));
    assert TrimLeft(t) == t;
    assert TrimRight(t) == t;
  }

  /** The trailing run of non-whitespace characters of s. */
  function LastRun(s: string): (w: string)
    ensures |w| <= |s|
    decreases |s|
  {
    if s == [] || IsSpace(s[|s| - 1]) then ""
    else LastRun(s[..|s| - 1]) + [s[|s| - 1]]
  }

  lemma {:induction false} LastRunShape(s: string)
    ensures var w := LastRun(s);
      w == s[|s| - |w|..] && (forall k :: 0 <= k < |w| ==> !IsSpace(w[k])) &&
      (|w| == |s| || IsSpace(s[|s| - |w| - 1]))
    decreases |s|
  {
    if s != [] && !IsSpace(s[|s| - 1]) {
      var w := LastRun(s[..|s| - 1]);
      LastRunShape(s[..|s| - 1]);
      assert s[..|s| - 1][|s| - 1 - |w|..] == s[|s| - 1 - |w|..|s| - 1];
    }
  }

  /** s.split()[-1]; None where split() gives no words and indexing raises
    * IndexError. */
  function LastWord(s: string): Wrappers.Option<string> {
    var t := TrimRight(s);
    if t == [] then Wrappers.None else Wrappers.Some(LastRun(t))
  }

  /** A word is found exactly when s holds a non-blank, and it is a
    * non-empty run of non-blanks. */
  lemma LastWordShape(s: string)
    ensures LastWord(s).Some? <==> exists k :: 0 <= k < |s| && !IsSpace(s[k])
    ensures LastWord(s).Some? ==>
      (LastWord(s).value != [] && forall k :: 0 <= k < |LastWord(s).value| ==> !IsSpace(LastWord(s).value[k]))
  {
    var t := TrimRight(s);
    TrimRightShape(s);
    if t != [] {
      assert !IsSpace(t[|t| - 1]) && t[|t| - 1] == s[|t| - 1];
      LastRunShape(t);
    }
  }

  /** The last word after a blank is found again. */
  lemma LastWordAfterBlank(pre: string, w: string)
    requires w != [] && forall k :: 0 <= k < |w| ==> !IsSpace(w[k])
    ensures LastWord(pre + " " + w) == Wrappers.Some(w)
  {
    var s := pre + " " + w;
    assert TrimRight(s) == s;
    var r := LastRun(s);
    LastRunShape(s);
    if |r| > |w| {
      assert IsSpace(s[|s| - |w| - 1]);
      assert false;
    } else if |r| < |w| {
      assert false;
    }
    assert r == s[|s| - |w|..] == w;
  }

  // sorted() on str values, as a stable insertion sort.

  /** a comes no later than b under Python's order. */
  predicate NotAfter(a: string, b: string) {
    !Less(b, a)
  }

  predicate Sorted(s: seq<string>) {
    forall i, j :: 0 <= i < j < |s| ==> NotAfter(s[i], s[j])
  }

  predicate StrictlySorted(s: seq<string>) {
    forall i, j :: 0 <= i < j < |s| ==> Less(s[i], s[j])
  }

  predicate Distinct(s: seq<string>) {
    forall i, j :: 0 <= i < j < |s| ==> s[i] != s[j]
  }

  lemma NotAfterTrans(a: string, b: string, c: string)
    requires NotAfter(a, b) && NotAfter(b, c)
    ensures NotAfter(a, c)
  {
    LessTotal(a, b);
    LessTotal(b, c);
    LessTotal(a, c);
    if Less(c, a) {
      if a == b {
      } else if b == c {
      } else {
        LessTrans(a, b, c);
      }
    }
  }

  /** x inserted before the first element it does not come after. */
  function Insert(x: string, s: seq<string>): seq<string> {
    if s == [] then [x]
    else if NotAfter(x, s[0]) then [x] + s
    else [s[0]] + Insert(x, s[1..])
  }

  /** Insertion adds exactly x. */
  lemma {:induction false} InsertPerm(x: string, s: seq<string>)
    ensures multiset(Insert(x, s)) == multiset(s) + multiset{x}
    decreases |s|
  {
    if s != [] && !NotAfter(x, s[0]) {
      InsertPerm(x, s[1..]);
      assert s == [s[0]] + s[1..];
    }
  }

  /** A sorted list stays sorted under a head that comes before all of it. */
  lemma ConsSorted(h: string, rest: seq<string>)
    requires Sorted(rest) && forall j :: 0 <= j < |rest| ==> NotAfter(h, rest[j])
    ensures Sorted([h] + rest)
  {
    var r := [h] + rest;
    forall i, j | 0 <= i < j < |r| ensures NotAfter(r[i], r[j]) {
      if i > 0 {
        assert r[i] == rest[i - 1] && r[j] == rest[j - 1];
      } else {
        assert r[j] == rest[j - 1];
      }
    }
  }

  /** Insertion keeps a sorted list sorted. */
  lemma {:induction false} InsertSorted(x: string, s: seq<string>)
    requires Sorted(s)
    ensures Sorted(Insert(x, s))
    decreases |s|
  {
    if s == [] {
    } else if NotAfter(x, s[0]) {
      forall j | 0 < j < |s| ensures NotAfter(x, s[j]) {
        NotAfterTrans(x, s[0], s[j]);
      }
      ConsSorted(x, s);
    } else {
      var rest := Insert(x, s[1..]);
      InsertSorted(x, s[1..]);
      InsertPerm(x, s[1..]);
      assert NotAfter(s[0], x) by { LessTotal(s[0], x); }
      forall j | 0 <= j < |rest| ensures NotAfter(s[0], rest[j]) {
        assert rest[j] in multiset(rest);
        if rest[j] != x {
          assert rest[j] in multiset(s[1..]);
          var k :| 0 <= k < |s[1..]| && s[1..][k] == rest[j];
          assert s[k + 1] == rest[j];
        }
      }
      ConsSorted(s[0], rest);
    }
  }

  /** sorted(s). */
  function Sort(s: seq<string>): seq<string> {
    if s == [] then [] else Insert(s[0], Sort(s[1..]))
  }

  /** sorted() returns a sorted permutation of its input. */
  lemma SortSorted(s: seq<string>)
    ensures multiset(Sort(s)) == multiset(s) && Sorted(Sort(s))
  {
    SortPerm(s);
    SortIsSorted(s);
  }

  lemma {:induction false} SortPerm(s: seq<string>)
    ensures multiset(Sort(s)) == multiset(s)
    decreases |s|
  {
    if s != [] {
      var t := Sort(s[1..]);
      assert Sort(s) == Insert(s[0], t);
      SortPerm(s[1..]);
      InsertPerm(s[0], t);
      assert multiset(s) == multiset(s[1..]) + multiset{s[0]} by {
        assert s == [s[0]] + s[1..];
      }
    }
  }

  lemma {:induction false} SortIsSorted(s: seq<string>)
    ensures Sorted(Sort(s))
    decreases |s|
  {
    if s != [] {
      SortIsSorted(s[1..]);
      InsertSorted(s[0], Sort(s[1..]));
    }
  }

  /** Sorting distinct keys orders them strictly. */
  lemma SortDistinct(s: seq<string>)
    requires Distinct(s)
    ensures StrictlySorted(Sort(s)) && |Sort(s)| == |s| && (forall x :: x in Sort(s) <==> x in s)
  {
    var r := Sort(s);
    SortSorted(s);
    assert |r| == |multiset(r)| == |multiset(s)| == |s|;
    forall x ensures x in r <==> x in s {
      assert x in r <==> x in multiset(r);
      assert x in s <==> x in multiset(s);
    }
    PermutationDistinct(s, r);
    forall i, j | 0 <= i < j < |r| ensures Less(r[i], r[j]) {
      LessTotal(r[i], r[j]);
    }
  }

  /** A permutation of distinct values holds distinct values. */
  lemma PermutationDistinct(s: seq<string>, r: seq<string>)
    requires Distinct(s) && multiset(r) == multiset(s)
    ensures Distinct(r)
  {
    forall i, j | 0 <= i < j < |r| ensures r[i] != r[j] {
      if r[i] == r[j] {
        assert r == r[..j] + [r[j]] + r[j + 1..];
        assert r[i] in r[..j];
        assert multiset(r)[r[i]] >= 2;
        DistinctAtMostOnce(s, r[i]);
        assert false;
      }
    }
  }

  lemma {:induction false} DistinctAtMostOnce(s: seq<string>, x: string)
    requires Distinct(s)
    ensures multiset(s)[x] <= 1
    decreases |s|
  {
    if s != [] {
      assert s == [s[0]] + s[1..];
      assert Distinct(s[1..]);
      DistinctAtMostOnce(s[1..], x);
      if s[0] == x {
        assert x !in s[1..];
      }
    }
  }

  /** A set of strings has exactly one strictly sorted listing. */
  lemma {:induction false} StrictlySortedUnique(a: seq<string>, b: seq<string>)
    requires StrictlySorted(a) && StrictlySorted(b)
    requires forall x :: x in a <==> x in b
    ensures a == b
    decreases |a|
  {
    SameElementsEmpty(a, b);
    if a != [] {
      assert a[0] in b && b[0] in a;
      var i :| 0 <= i < |b| && b[i] == a[0];
      var j :| 0 <= j < |a| && a[j] == b[0];
      if a[0] != b[0] {
        assert i > 0 && j > 0;
        assert Less(b[0], a[0]) && Less(a[0], b[0]);
        LessTotal(a[0], b[0]);
      }
      forall x ensures x in a[1..] <==> x in b[1..] {
        if x in a[1..] {
          var k :| 1 <= k < |a| && a[k] == x;
          LessTotal(a[0], x);
          assert x in b;
          var m :| 0 <= m < |b| && b[m] == x;
          assert m != 0 && b[1..][m - 1] == x;
        }
        if x in b[1..] {
          var k :| 1 <= k < |b| && b[k] == x;
          LessTotal(b[0], x);
          assert x in a;
          var m :| 0 <= m < |a| && a[m] == x;
          assert m != 0 && a[1..][m - 1] == x;
        }
      }
      StrictlySortedUnique(a[1..], b[1..]);
      assert a == [a[0]] + a[1..] && b == [b[0]] + b[1..];
    }
  }

  lemma SameElementsEmpty(a: seq<string>, b: seq<string>)
    requires forall x :: x in a <==> x in b
    ensures a == [] <==> b == []
  {
    if a != [] {
      assert a[0] in b;
    }
    if b != [] {
      assert b[0] in a;
    }
  }
}
