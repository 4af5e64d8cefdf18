/** The parts of Python's posixpath the browsers rely on: join, split, abspath, relpath, and the
    ancestor-list loop shared by both browsers' `_gen_pathbox_path_list`. Paths are strings and the
    separator is always '/'. */
module PosixPath {
  import opened Store

  predicate IsAbs(p: string) {
    |p| > 0 && p[0] == '/'
  }

  /** `posixpath.join(a, b)`: an absolute `b` replaces `a`; otherwise one '/' is put between them
      unless `a` is empty or already ends with '/'. */
  function Join(a: string, b: string): (r: string)
    ensures IsAbs(b) ==> r == b
    ensures !IsAbs(b) ==> |r| >= |a| + |b| && r[..|a|] == a && r[|r| - |b|..] == b
    ensures !IsAbs(b) && a != "" && a[|a| - 1] != '/' ==> r == a + "/" + b
    ensures IsAbs(a) ==> IsAbs(r)
  {
    if IsAbs(b) then b
    else if a == "" || a[|a| - 1] == '/' then a + b
    else a + "/" + b
  }

  /** A component: what can stand between two separators of a normalised path. */
  predicate IsName(c: string) {
    c != "" && c != "." && c != ".." && '/' !in c
  }

  /** `s.split('/')`. */
  function Segments(s: string): (r: seq<string>)
    ensures |r| >= 1
  {
    if s == [] then [""]
    else
      var t := Segments(s[1..]);
      if s[0] == '/' then [""] + t else [[s[0]] + t[0]] + t[1..]
  }

  /** `'/'.join(cs)`. */
  function JoinAll(cs: seq<string>): string {
    if |cs| == 0 then ""
    else if |cs| == 1 then cs[0]
    else cs[0] + "/" + JoinAll(cs[1..])
  }

  lemma {:induction false} SegmentsPrepend(c: char, s: string)
    requires c != '/'
    ensures Segments([c] + s) == [[c] + Segments(s)[0]] + Segments(s)[1..]
  {
    assert ([c] + s)[1..] == s;
  }

  lemma {:induction false} SegmentsAppendName(a: string, s: string)
    requires '/' !in a
    ensures Segments(a + s) == [a + Segments(s)[0]] + Segments(s)[1..]
    decreases |a|
  {
    if a != [] {
      SegmentsAppendName(a[1..], s);
      assert a + s == [a[0]] + (a[1..] + s);
      SegmentsPrepend(a[0], a[1..] + s);
      assert [a[0]] + (a[1..] + Segments(s)[0]) == a + Segments(s)[0];
    } else {
      assert a + s == s;
      assert a + Segments(s)[0] == Segments(s)[0];
    }
  }

  /** Splitting undoes joining: `'/'.join(cs).split('/') == cs` whenever no part holds a '/'. */
  lemma {:induction false} SegmentsOfJoinAll(cs: seq<string>)
    requires |cs| >= 1
    requires forall i :: 0 <= i < |cs| ==> '/' !in cs[i]
    ensures Segments(JoinAll(cs)) == cs
  {
    if |cs| == 1 {
      SegmentsAppendName(cs[0], "");
      assert cs[0] + "" == cs[0];
    } else {
      var rest := "/" + JoinAll(cs[1..]);
      SegmentsOfJoinAll(cs[1..]);
      assert rest[1..] == JoinAll(cs[1..]);
      assert Segments(rest) == [""] + cs[1..];
      assert JoinAll(cs) == cs[0] + rest;
      SegmentsAppendName(cs[0], rest);
      assert cs[0] + "" == cs[0];
      assert [cs[0]] + cs[1..] == cs;
    }
  }

  /** No part of a split holds the separator. */
  lemma {:induction false} SegmentsNoSlash(s: string)
    ensures forall i :: 0 <= i < |Segments(s)| ==> '/' !in Segments(s)[i]
  {
    if s != [] {
      SegmentsNoSlash(s[1..]);
    }
  }

  /** The component stack `abspath` keeps: empty parts and '.' are dropped and '..' removes the
      previous component (at the root it is dropped). */
  function Collapse(stack: seq<string>, parts: seq<string>): (r: seq<string>)
    decreases |parts|
  {
    if parts == [] then stack
    else if parts[0] == "" || parts[0] == "." then Collapse(stack, parts[1..])
    else if parts[0] == ".." then Collapse(if stack == [] then [] else stack[..|stack| - 1], parts[1..])
    else Collapse(stack + [parts[0]], parts[1..])
  }

  /** Collapsing parts without separators leaves only proper component names. */
  lemma {:induction false} CollapseNames(stack: seq<string>, parts: seq<string>)
    requires forall i :: 0 <= i < |stack| ==> IsName(stack[i])
    requires forall i :: 0 <= i < |parts| ==> '/' !in parts[i]
    ensures forall i :: 0 <= i < |Collapse(stack, parts)| ==> IsName(Collapse(stack, parts)[i])
    decreases |parts|
  {
    if parts != [] {
      var next := if parts[0] == "" || parts[0] == "." then stack
        else if parts[0] == ".." then (if stack == [] then [] else stack[..|stack| - 1])
        else stack + [parts[0]];
      CollapseNames(next, parts[1..]);
    }
  }

  /** The path `abspath` normalises: `p` itself when absolute, else `p` joined to the working
      directory `cwd`. */
  function FullPath(p: string, cwd: string): string {
    if IsAbs(p) then p else Join(cwd, p)
  }

  /** `[x for x in abspath(p).split('/') if x]`; a relative `p` is taken from the working directory `cwd`. */
  function AbsParts(p: string, cwd: string): (r: seq<string>)
    ensures forall i :: 0 <= i < |r| ==> IsName(r[i])
  {
    var full := FullPath(p, cwd);
    SegmentsNoSlash(full);
    CollapseNames([], Segments(full));
    Collapse([], Segments(full))
  }

  /** A path that starts with exactly two slashes, which POSIX leaves implementation-defined and
      `normpath` therefore keeps. */
  predicate TwoSlashes(s: string) {
    |s| >= 2 && s[0] == '/' && s[1] == '/' && (|s| == 2 || s[2] != '/')
  }

  /** The leading slashes of `abspath(p)`: "//" when the full path starts with exactly two, else "/". */
  function RootOf(p: string, cwd: string): (r: string)
    ensures r == "/" || r == "//"
  {
    if TwoSlashes(FullPath(p, cwd)) then "//" else "/"
  }

  /** `posixpath.abspath(p)`: absolute, starting with two slashes exactly when the full path does,
      and built from the normalised components. */
  function AbsPath(p: string, cwd: string): (r: string)
    ensures IsAbs(r)
    ensures TwoSlashes(r) <==> TwoSlashes(FullPath(p, cwd))
  {
    var cs := AbsParts(p, cwd);
    if cs == [] then RootOf(p, cwd)
    else
      JoinAllShape(cs);
      RootOf(p, cwd) + JoinAll(cs)
  }

  /** Collapsing proper names only pushes them. */
  lemma {:induction false} CollapseOfNames(stack: seq<string>, cs: seq<string>)
    requires forall i :: 0 <= i < |cs| ==> IsName(cs[i])
    ensures Collapse(stack, cs) == stack + cs
    decreases |cs|
  {
    if cs != [] {
      CollapseOfNames(stack + [cs[0]], cs[1..]);
      assert stack + [cs[0]] + cs[1..] == stack + cs;
    }
  }

  /** `n` empty parts. */
  function Blanks(n: nat): (r: seq<string>)
    ensures |r| == n
  {
    if n == 0 then [] else [""] + Blanks(n - 1)
  }

  /** How many empty parts splitting `root + '/'.join(cs)` starts with. */
  function BlankCount(root: string, cs: seq<string>): nat {
    (if root == "/" then 1 else 2) + (if cs == [] then 1 else 0)
  }

  lemma JoinAllBlanks(cs: seq<string>)
    requires cs != []
    ensures JoinAll([""] + cs) == "/" + JoinAll(cs)
  {
    assert ([""] + cs)[1..] == cs;
  }

  /** A root of one or two slashes followed by names splits into empty parts, then the names. */
  lemma RootedSegments(root: string, cs: seq<string>)
    requires root == "/" || root == "//"
    requires forall i :: 0 <= i < |cs| ==> IsName(cs[i])
    ensures Segments(root + JoinAll(cs)) == Blanks(BlankCount(root, cs)) + cs
  {
    var parts := Blanks(BlankCount(root, cs)) + cs;
    if cs == [] {
      assert parts == Blanks(BlankCount(root, cs));
      if root == "/" {
        assert JoinAll(parts) == "" + "/" + JoinAll([""]);
      } else {
        assert parts[1..] == ["", ""];
        assert JoinAll(parts) == "" + "/" + JoinAll(["", ""]);
      }
    } else if root == "/" {
      assert parts == [""] + cs;
      JoinAllBlanks(cs);
    } else {
      assert Blanks(2) == ["", ""];
      assert parts == [""] + ([""] + cs);
      JoinAllBlanks(cs);
      JoinAllBlanks([""] + cs);
    }
    assert JoinAll(parts) == root + JoinAll(cs);
    SegmentsOfJoinAll(parts);
  }

  /** Empty parts are dropped by the collapse. */
  lemma {:induction false} CollapseBlanks(n: nat, cs: seq<string>)
    ensures Collapse([], Blanks(n) + cs) == Collapse([], cs)
  {
    if n > 0 {
      assert (Blanks(n) + cs)[1..] == Blanks(n - 1) + cs;
      CollapseBlanks(n - 1, cs);
    } else {
      assert Blanks(n) + cs == cs;
    }
  }

  /** `abspath` is idempotent: normalising a normalised path changes nothing. */
  lemma AbsPathIdempotent(p: string, cwd: string)
    ensures AbsParts(AbsPath(p, cwd), cwd) == AbsParts(p, cwd)
    ensures AbsPath(AbsPath(p, cwd), cwd) == AbsPath(p, cwd)
  {
    var cs := AbsParts(p, cwd);
    var a := AbsPath(p, cwd);
    assert a == RootOf(p, cwd) + JoinAll(cs);
    assert FullPath(a, cwd) == a;
    RootedSegments(RootOf(p, cwd), cs);
    CollapseBlanks(BlankCount(RootOf(p, cwd), cs), cs);
    CollapseOfNames([], cs);
    assert [] + cs == cs;
  }

  /** Length of the longest common prefix of two component lists. */
  function CommonPrefix(s: seq<string>, t: seq<string>): (n: nat)
    ensures n <= |s| && n <= |t|
    ensures s[..n] == t[..n]
    ensures n < |s| && n < |t| ==> s[n] != t[n]
  {
    if s == [] || t == [] || s[0] != t[0] then 0
    else
      var k := CommonPrefix(s[1..], t[1..]);
      assert s[..k + 1] == [s[0]] + s[1..][..k];
      assert t[..k + 1] == [t[0]] + t[1..][..k];
      k + 1
  }

  function Parents(n: nat): (r: seq<string>)
    ensures |r| == n && forall i :: 0 <= i < n ==> r[i] == ".."
  {
    if n == 0 then [] else Parents(n - 1) + [".."]
  }

  /** `os.path.relpath(path, start)`: ValueError for an empty `path`; "." when both name the same
      directory; otherwise '..' once per component of `start` below the common prefix, then the rest
      of `path`. */
  function RelPath(path: string, start: string, cwd: string): (r: Result<string>)
    ensures path == "" <==> r == Err(ValueError)
  {
    if path == "" then Err(ValueError)
    else
      var s := AbsParts(start, cwd);
      var t := AbsParts(path, cwd);
      var i := CommonPrefix(s, t);
      var rel := Parents(|s| - i) + t[i..];
      if rel == [] then Ok(".") else Ok(JoinAll(rel))
  }

  /** relpath answers "." exactly when both paths name the same directory. */
  lemma RelPathSame(path: string, start: string, cwd: string)
    requires path != ""
    ensures RelPath(path, start, cwd) == Ok(".") <==> AbsParts(path, cwd) == AbsParts(start, cwd)
  {
    var s := AbsParts(start, cwd);
    var t := AbsParts(path, cwd);
    var i := CommonPrefix(s, t);
    var rel := Parents(|s| - i) + t[i..];
    assert s == t ==> i == |s|;
    if rel == [] {
      assert s == s[..i] && t == t[..i];
    } else {
      // a non-empty relative path never joins to "."
      assert rel[0] == (if |s| - i > 0 then ".." else t[i]);
      JoinAllNotDot(rel);
    }
  }

  /** A path below `start`, naming its components followed by `cs`, is `'/'.join(cs)` relative to it. */
  lemma RelPathBelow(path: string, start: string, cwd: string, cs: seq<string>)
    requires path != "" && cs != []
    requires AbsParts(path, cwd) == AbsParts(start, cwd) + cs
    ensures RelPath(path, start, cwd) == Ok(JoinAll(cs))
  {
    var s := AbsParts(start, cwd);
    var t := AbsParts(path, cwd);
    var i := CommonPrefix(s, t);
    assert forall j :: 0 <= j < |s| ==> t[j] == s[j];
    assert i == |s|;
    assert Parents(|s| - i) + t[i..] == cs;
  }

  /** A path `n` levels above `start`, naming a leading run of its components, is `n` times ".."
      relative to it. */
  lemma RelPathAbove(path: string, start: string, cwd: string, ds: seq<string>)
    requires path != "" && ds != []
    requires AbsParts(start, cwd) == AbsParts(path, cwd) + ds
    ensures RelPath(path, start, cwd) == Ok(JoinAll(Parents(|ds|)))
  {
    var s := AbsParts(start, cwd);
    var t := AbsParts(path, cwd);
    var i := CommonPrefix(s, t);
    assert forall j :: 0 <= j < |t| ==> s[j] == t[j];
    assert i == |t|;
    assert Parents(|s| - i) + t[i..] == Parents(|ds|);
  }

  /** The parent of the start's directory is ".." relative to it. */
  lemma RelPathToParent(path: string, start: string, cwd: string)
    requires path != "" && AbsParts(start, cwd) != []
    requires AbsParts(path, cwd) == AbsParts(start, cwd)[..|AbsParts(start, cwd)| - 1]
    ensures RelPath(path, start, cwd) == Ok("..")
  {
    var s := AbsParts(start, cwd);
    assert s == AbsParts(path, cwd) + [s[|s| - 1]];
    RelPathAbove(path, start, cwd, [s[|s| - 1]]);
    assert Parents(1) == [".."];
  }

  lemma JoinAllNotDot(cs: seq<string>)
    requires |cs| >= 1 && (IsName(cs[0]) || cs[0] == "..")
    ensures JoinAll(cs) != "."
  {
    if |cs| > 1 {
      assert JoinAll(cs)[..|cs[0]|] == cs[0];
    }
  }

  // ---- os.path.split and the ancestor list ----

  /** Index of the last '/' in `p`, or -1. */
  function LastSlash(p: string): (i: int)
    ensures -1 <= i < |p|
    ensures i >= 0 ==> p[i] == '/'
    ensures forall j :: i < j < |p| ==> p[j] != '/'
  {
    if p == [] then -1
    else if p[|p| - 1] == '/' then |p| - 1
    else LastSlash(p[..|p| - 1])
  }

  predicate AllSlashes(s: string) {
    s == [] || (s[0] == '/' && AllSlashes(s[1..]))
  }

  /** `s.rstrip('/')`. */
  function RStripSlashes(s: string): (r: string)
    ensures |r| <= |s| && r == s[..|r|]
    ensures r == [] || r[|r| - 1] != '/'
  {
    if s == [] || s[|s| - 1] != '/' then s
    else
      var r := RStripSlashes(s[..|s| - 1]);
      assert s[..|s| - 1][..|r|] == s[..|r|];
      r
  }

  /** `os.path.split(p)[0]`: everything up to the last '/', with trailing slashes removed unless the
      head consists of slashes only. The head is always a prefix of `p`. */
  function Head(p: string): (h: string)
    ensures |h| <= |p| && h == p[..|h|]
  {
    var head := p[..LastSlash(p) + 1];
    if head != "" && !AllSlashes(head) then RStripSlashes(head) else head
  }

  lemma HeadShrinks(p: string)
    ensures Head(p) != p ==> |Head(p)| < |p|
  {
  }

  /** The ancestor chain reached by splitting `p` until the head stops changing, outermost first:
      the value both `_gen_pathbox_path_list` loops compute. */
  function Chain(p: string): (r: seq<string>)
    ensures |r| >= 1 && r[|r| - 1] == p
    decreases |p|
  {
    HeadShrinks(p);
    if Head(p) == p then [p] else Chain(Head(p)) + [p]
  }

  function Reversed(s: seq<string>): (r: seq<string>)
    ensures |r| == |s|
    ensures forall i :: 0 <= i < |s| ==> r[i] == s[|s| - 1 - i]
  {
    if s == [] then [] else Reversed(s[1..]) + [s[0]]
  }

  lemma {:induction false} ReversedSnoc(s: seq<string>, x: string)
    ensures Reversed(s + [x]) == [x] + Reversed(s)
  {
    if s != [] {
      assert (s + [x])[1..] == s[1..] + [x];
      ReversedSnoc(s[1..], x);
    }
  }

  /** What is still to be collected while `_gen_pathbox_path_list` loops: nothing once the split
      stopped changing the path, else the whole chain of the current path. */
  function Pending(tmppath: string, tmppathOld: string): seq<string> {
    if tmppath == tmppathOld then [] else Chain(tmppath)
  }

  /** One split step of the loop keeps "pending + collected so far, reversed" fixed. */
  lemma SplitStep(t: string, collected: seq<string>)
    ensures Pending(Head(t), t) + Reversed(collected + [t]) == Chain(t) + Reversed(collected)
    ensures Head(t) != t ==> |Head(t)| < |t|
  {
    HeadShrinks(t);
    ReversedSnoc(collected, t);
  }

  /** The loop of `_gen_pathbox_path_list` from the point where `tmppath` is known: drop one trailing
      '/', then split repeatedly, collecting each path before it is split, and reverse the list. */
  method AncestorList(path: string) returns (pathList: seq<string>)
    requires path != ""
    ensures pathList == Chain(if path[|path| - 1] == '/' then path[..|path| - 1] else path)
  {
    var collected: seq<string> := [];
    var tmppath := path;
    if tmppath[|tmppath| - 1] == '/' {
      tmppath := tmppath[..|tmppath| - 1];
    }
    ghost var start := tmppath;
    var tmppathOld := tmppath + "/";
    while tmppath != tmppathOld
      invariant Chain(start) == Pending(tmppath, tmppathOld) + Reversed(collected)
      decreases |tmppath| + (if tmppath == tmppathOld then 0 else 1)
    {
      SplitStep(tmppath, collected);
      tmppathOld := tmppath;
      tmppath := Head(tmppath);
      collected := collected + [tmppathOld];
    }
    pathList := Reversed(collected);
  }

  lemma {:induction false} JoinAllSnoc(cs: seq<string>)
    requires |cs| >= 2
    ensures JoinAll(cs) == JoinAll(cs[..|cs| - 1]) + "/" + cs[|cs| - 1]
  {
    if |cs| > 2 {
      JoinAllSnoc(cs[1..]);
      assert cs[1..][..|cs| - 2] == cs[..|cs| - 1][1..];
    }
  }

  lemma {:induction false} JoinAllShape(cs: seq<string>)
    requires |cs| >= 1 && forall i :: 0 <= i < |cs| ==> IsName(cs[i])
    ensures |JoinAll(cs)| > 0 && JoinAll(cs)[|JoinAll(cs)| - 1] != '/' && JoinAll(cs)[0] != '/'
  {
    if |cs| >= 2 {
      JoinAllSnoc(cs);
      JoinAllShape(cs[1..]);
    }
  }

  lemma LastSlashAfter(a: string, c: string)
    requires '/' !in c
    ensures LastSlash(a + "/" + c) == |a|
    decreases |c|
  {
    if c != [] {
      var p := a + "/" + c;
      assert p[..|p| - 1] == a + "/" + c[..|c| - 1];
      LastSlashAfter(a, c[..|c| - 1]);
    } else {
      assert (a + "/" + c)[|a|] == '/';
    }
  }

  lemma RootedSnoc(root: string, cs: seq<string>)
    requires |cs| >= 2
    ensures root + JoinAll(cs) == (root + JoinAll(cs[..|cs| - 1])) + "/" + cs[|cs| - 1]
  {
    JoinAllSnoc(cs);
  }

  lemma RStripOne(x: string)
    requires x != [] && x[|x| - 1] != '/'
    ensures RStripSlashes(x + "/") == x
  {
    assert (x + "/")[..|x|] == x;
  }

  lemma {:induction false} NotAllSlashes(s: string, i: nat)
    requires i < |s| && s[i] != '/'
    ensures !AllSlashes(s)
  {
    if i > 0 {
      NotAllSlashes(s[1..], i - 1);
    }
  }

  /** A root of one or two slashes is its own head. */
  lemma {:induction false} HeadOfRoot(root: string)
    requires root == "/" || root == "//"
    ensures Head(root) == root
  {
    assert "/"[1..] == "" && AllSlashes("/");
    assert "//"[1..] == "/" && AllSlashes("//");
    assert root[..|root|] == root;
  }

  lemma {:induction false} HeadOfSingle(root: string, p: string, c: string)
    requires root == "/" || root == "//"
    requires IsName(c) && p == root + c
    ensures Head(p) == root
  {
    var lead := root[..|root| - 1];
    LastSlashAfter(lead, c);
    assert lead + "/" + c == p;
    assert p[..|root|] == root;
    assert AllSlashes(root[1..]);
  }

  lemma {:induction false} HeadOfLonger(p: string, init: string, c: string)
    requires |init| >= 1 && init[|init| - 1] != '/'
    requires IsName(c) && p == init + "/" + c
    ensures Head(p) == init
  {
    LastSlashAfter(init, c);
    var head := p[..|init| + 1];
    assert head == init + "/";
    NotAllSlashes(head, |init| - 1);
    RStripOne(init);
  }

  lemma {:induction false} HeadOfOneName(root: string, cs: seq<string>)
    requires root == "/" || root == "//"
    requires |cs| == 1 && IsName(cs[0])
    ensures Head(root + JoinAll(cs)) == root + JoinAll(cs[..|cs| - 1])
  {
    assert JoinAll(cs) == cs[0];
    assert cs[..0] == [];
    HeadOfSingle(root, root + cs[0], cs[0]);
  }

  /** The parent of a path with at least two components ends in a name, not in a '/'. */
  lemma {:induction false} FrontShape(root: string, cs: seq<string>)
    requires |cs| >= 2 && forall i :: 0 <= i < |cs| ==> IsName(cs[i])
    ensures var init := root + JoinAll(cs[..|cs| - 1]); |init| >= 1 && init[|init| - 1] != '/'
  {
    var front := cs[..|cs| - 1];
    assert forall i :: 0 <= i < |front| ==> front[i] == cs[i];
    JoinAllShape(front);
    var j := JoinAll(front);
    assert (root + j)[|root + j| - 1] == j[|j| - 1];
  }

  lemma {:induction false} HeadOfManyNames(root: string, cs: seq<string>)
    requires root == "/" || root == "//"
    requires |cs| >= 2 && forall i :: 0 <= i < |cs| ==> IsName(cs[i])
    ensures Head(root + JoinAll(cs)) == root + JoinAll(cs[..|cs| - 1])
  {
    var last := cs[|cs| - 1];
    var init := root + JoinAll(cs[..|cs| - 1]);
    var p := root + JoinAll(cs);
    FrontShape(root, cs);
    RootedSnoc(root, cs);
    assert IsName(last) && p == init + "/" + last;
    HeadOfLonger(p, init, last);
  }

  /** Splitting a normalised absolute path with at least two components drops the last one; with one
      component the head is the root. */
  lemma {:induction false} HeadOfAbsolute(root: string, cs: seq<string>)
    requires root == "/" || root == "//"
    requires |cs| >= 1 && forall i :: 0 <= i < |cs| ==> IsName(cs[i])
    ensures Head(root + JoinAll(cs)) == root + JoinAll(cs[..|cs| - 1])
  {
    if |cs| == 1 {
      HeadOfOneName(root, cs);
    } else {
      HeadOfManyNames(root, cs);
    }
  }

  /** One step of the chain of a normalised absolute path: the chain of its parent, then itself. */
  lemma {:induction false} ChainOfAbsoluteStep(root: string, cs: seq<string>)
    requires root == "/" || root == "//"
    requires |cs| >= 1 && forall i :: 0 <= i < |cs| ==> IsName(cs[i])
    ensures Chain(root + JoinAll(cs)) == Chain(root + JoinAll(cs[..|cs| - 1])) + [root + JoinAll(cs)]
  {
    HeadOfAbsolute(root, cs);
    JoinAllShape(cs);
    if |cs| >= 2 {
      JoinAllSnoc(cs);
    }
    assert |Head(root + JoinAll(cs))| < |root + JoinAll(cs)|;
  }

  /** The root followed by the path of every leading run of components. */
  function Prefixes(root: string, cs: seq<string>): (r: seq<string>)
    ensures |r| == |cs| + 1
  {
    if cs == [] then [root] else Prefixes(root, cs[..|cs| - 1]) + [root + JoinAll(cs)]
  }

  lemma {:induction false} PrefixesAt(root: string, cs: seq<string>)
    ensures forall k :: 0 <= k <= |cs| ==> Prefixes(root, cs)[k] == root + JoinAll(cs[..k])
  {
    if cs != [] {
      var init := cs[..|cs| - 1];
      PrefixesAt(root, init);
      forall k | 0 <= k <= |cs|
        ensures Prefixes(root, cs)[k] == root + JoinAll(cs[..k])
      {
        if k < |cs| {
          assert cs[..k] == init[..k];
        } else {
          assert cs[..k] == cs;
        }
      }
    } else {
      assert JoinAll(cs[..0]) == "";
    }
  }

  /** The ancestor chain of a normalised absolute path is the root followed by every prefix of its
      components: "/a/b" gives ["/", "/a", "/a/b"] and "//a/b" gives ["//", "//a", "//a/b"]. */
  lemma {:induction false} ChainOfAbsolute(root: string, cs: seq<string>)
    requires root == "/" || root == "//"
    requires forall i :: 0 <= i < |cs| ==> IsName(cs[i])
    ensures Chain(root + JoinAll(cs)) == Prefixes(root, cs)
  {
    if cs == [] {
      HeadOfRoot(root);
      assert root + JoinAll(cs) == root;
    } else {
      ChainOfAbsoluteStep(root, cs);
      ChainOfAbsolute(root, cs[..|cs| - 1]);
    }
  }

  /** What the ancestor loop yields for a normalised absolute path with leading slashes `root` and
      components `cs`. At the root the trailing '/' is cut first, so "/" gives [""] and "//" gives ["/"]. */
  function Ancestors(root: string, cs: seq<string>): seq<string> {
    if cs == [] then [if root == "//" then "/" else ""] else Prefixes(root, cs)
  }

  /** The ancestor loop run on `abspath(p)` yields every ancestor of the normalised path, from the
      root of one or two slashes down, and [""] at "/". */
  lemma AncestorsOfAbsPath(p: string, cwd: string)
    ensures var a := AbsPath(p, cwd);
      Chain(if a[|a| - 1] == '/' then a[..|a| - 1] else a) == Ancestors(RootOf(p, cwd), AbsParts(p, cwd))
  {
    var cs := AbsParts(p, cwd);
    var root := RootOf(p, cwd);
    var a := AbsPath(p, cwd);
    if cs == [] {
      assert a == root;
      if root == "/" {
        ChainOfRoot();
      } else {
        assert a[..|a| - 1] == "/";
        HeadOfRoot("/");
      }
    } else {
      assert a == root + JoinAll(cs);
      JoinAllShape(cs);
      ChainOfAbsolute(root, cs);
    }
  }

  /** At the root, the trailing '/' is dropped first, so the chain is the empty path alone. */
  lemma ChainOfRoot()
    ensures Chain("") == [""]
  {
    assert Head("") == "";
  }
}
