/** The part of Node's POSIX `path` module the build helpers use: `join`, `resolve`
    (against a given working directory), `basename`, `dirname` and `extname`, each
    following the scanning rules of Node's implementation. */
module NodePath {
  import opened Strings

  /** A segment that normalisation keeps as it is: non-empty, not `.` or `..`, no `/`. */
  predicate IsName(s: string) {
    s != "" && s != "." && s != ".." && '/' !in s
  }

  predicate AllNames(segs: seq<string>) {
    forall i :: 0 <= i < |segs| ==> IsName(segs[i])
  }

  predicate SlashFree(segs: seq<string>) {
    forall i :: 0 <= i < |segs| ==> '/' !in segs[i]
  }

  /** The segments between the slashes of `p`, empty ones included. */
  function Split(p: string): (segs: seq<string>)
    ensures |segs| >= 1
    decreases |p|
  {
    var k := LastIndexOf(p, '/');
    if k < 0 then [p] else Split(p[..k]) + [p[k + 1..]]
  }

  /** One step of `normalizeString`: an empty or `.` segment vanishes; `..` removes
      the previous segment, or is kept when there is none and the path may climb
      above its start; any other segment is appended. */
  function NormalizeStep(acc: seq<string>, seg: string, allowAboveRoot: bool): seq<string> {
    if seg == "" || seg == "." then acc
    else if seg == ".." then
      (if |acc| > 0 && acc[|acc| - 1] != ".." then acc[..|acc| - 1]
       else if allowAboveRoot then acc + [".."] else acc)
    else acc + [seg]
  }

  /** `normalizeString` over the segments, left to right, starting from `acc`. */
  function NormalizeFrom(acc: seq<string>, segs: seq<string>, allowAboveRoot: bool): seq<string> {
    if segs == [] then acc
    else NormalizeStep(NormalizeFrom(acc, segs[..|segs| - 1], allowAboveRoot), segs[|segs| - 1], allowAboveRoot)
  }

  function NormalizeString(p: string, allowAboveRoot: bool): string {
    Join(NormalizeFrom([], Split(p), allowAboveRoot), "/")
  }

  /** `path.normalize(p)`: keeps a leading and a trailing slash. */
  function Normalize(p: string): string {
    if p == "" then "."
    else
      var isAbsolute := p[0] == '/';
      var trailing := p[|p| - 1] == '/';
      var body := NormalizeString(p, !isAbsolute);
      var lead := if isAbsolute then "/" else "";
      var tail := if trailing then "/" else "";
      if body != "" then lead + body + tail
      else if isAbsolute then "/"
      else if trailing then "./"
      else "."
  }

  /** The non-empty arguments of `path.join`, in order. */
  function NonEmpty(parts: seq<string>): (r: seq<string>)
    ensures forall i :: 0 <= i < |r| ==> r[i] != ""
  {
    if parts == [] then []
    else
      var last := parts[|parts| - 1];
      NonEmpty(parts[..|parts| - 1]) + (if last == "" then [] else [last])
  }

  /** `path.join(...parts)` */
  function JoinPaths(parts: seq<string>): string {
    var kept := NonEmpty(parts);
    if kept == [] then "." else Normalize(Join(kept, "/"))
  }

  /** `path.resolve(p)` with `cwd` (absolute) as the working directory: an absolute
      result without a trailing slash. */
  function Resolve(cwd: string, p: string): (r: string)
    ensures StartsWith(r, "/")
  {
    var full := if StartsWith(p, "/") then p else cwd + "/" + p;
    "/" + NormalizeString(full, false)
  }

  function StripTrailingSlashes(p: string): (q: string)
    ensures |q| <= |p| && q == p[..|q|]
    ensures q != "" ==> q[|q| - 1] != '/'
  {
    if p != "" && p[|p| - 1] == '/' then StripTrailingSlashes(p[..|p| - 1]) else p
  }

  lemma AfterLastSlash(q: string, k: int)
    requires k == LastIndexOf(q, '/')
    ensures '/' !in q[k + 1..]
  {
    var t := q[k + 1..];
    forall j | 0 <= j < |t|
      ensures t[j] != '/'
    {
      assert t[j] == q[k + 1 + j];
    }
  }

  /** `path.basename(p)`: the last segment, trailing slashes ignored. */
  function Basename(p: string): (b: string)
    ensures '/' !in b
  {
    var q := StripTrailingSlashes(p);
    var k := LastIndexOf(q, '/');
    AfterLastSlash(q, k);
    q[k + 1..]
  }

  /** `path.basename(p, ext)`: the base with one trailing `ext` removed, unless the
      base is exactly `ext`; a path equal to `ext` gives `''`. */
  function BasenameExt(p: string, ext: string): string {
    if ext == "" || |ext| > |p| then Basename(p)
    else if ext == p then ""
    else
      var b := Basename(p);
      if EndsWith(b, ext) && b != ext then b[..|b| - |ext|] else b
  }

  /** The scan of `path.dirname`, from index `i` down to 1: the index of the last slash
      that has a non-slash after it, or -1. */
  function DirnameEnd(p: string, i: int, matchedSlash: bool): (e: int)
    requires 0 <= i < |p|
    ensures -1 <= e <= i
    decreases i
  {
    if i < 1 then -1
    else if p[i] == '/' then (if !matchedSlash then i else DirnameEnd(p, i - 1, matchedSlash))
    else DirnameEnd(p, i - 1, false)
  }

  /** `path.dirname(p)` */
  function Dirname(p: string): string {
    if p == "" then "."
    else
      var hasRoot := p[0] == '/';
      var end := DirnameEnd(p, |p| - 1, true);
      if end == -1 then (if hasRoot then "/" else ".")
      else if hasRoot && end == 1 then "//"
      else p[..end]
  }

  /** `path.extname(p)`: from the last `.` of the base, unless the base has no `.`,
      starts with its only relevant `.`, or is `..`. */
  function Extname(p: string): (e: string)
    ensures e == "" || e[0] == '.'
  {
    var b := Basename(p);
    var d := LastIndexOf(b, '.');
    if d <= 0 || b == ".." then "" else b[d..]
  }

  // ---------------------------------------------------------------- clean paths

  /** The segments of a path made of name segments: absolute ones start with an empty
      segment, and the root is two empty segments. */
  function Segments(absolute: bool, names: seq<string>): seq<string> {
    if absolute && names == [] then ["", ""]
    else (if absolute then [""] else []) + names
  }

  /** A path made of name segments: `/a/b`, `a/b`, or `/`. */
  function PathOf(absolute: bool, names: seq<string>): string {
    Join(Segments(absolute, names), "/")
  }

  /** The last `c` in `a + [c] + b`, when `b` has none, is the one between them. */
  lemma LastIndexAfter(a: string, c: char, b: string)
    requires c !in b
    ensures LastIndexOf(a + [c] + b, c) == |a|
    ensures (a + [c] + b)[..|a|] == a && (a + [c] + b)[|a| + 1..] == b
  {
    var p := a + [c] + b;
    var k := LastIndexOf(p, c);
    assert p[|a|] == c;
    assert k >= |a|;
    assert k <= |a|;
    assert p[..|a|] == a;
    assert p[|a| + 1..] == b;
  }

  lemma LastSlashAfter(a: string, b: string)
    requires '/' !in b
    ensures LastIndexOf(a + "/" + b, '/') == |a|
    ensures (a + "/" + b)[..|a|] == a && (a + "/" + b)[|a| + 1..] == b
  {
    LastIndexAfter(a, '/', b);
  }

  lemma LastSlashNone(s: string)
    requires '/' !in s
    ensures LastIndexOf(s, '/') == -1
  {
    forall j | 0 <= j < |s|
      ensures s[j] != '/'
    {
      assert s[j] in s;
    }
  }

  /** Splitting a join of slash-free segments gives the segments back. */
  lemma {:induction false} SplitJoin(segs: seq<string>)
    requires |segs| >= 1 && SlashFree(segs)
    ensures Split(Join(segs, "/")) == segs
  {
    if |segs| == 1 {
      LastSlashNone(segs[0]);
    } else {
      var init, last := segs[..|segs| - 1], segs[|segs| - 1];
      var j := Join(init, "/");
      assert Join(segs, "/") == j + "/" + last;
      assert SlashFree(init) by {
        forall i | 0 <= i < |init| ensures '/' !in init[i] { assert init[i] == segs[i]; }
      }
      LastSlashAfter(j, last);
      assert Split(j + "/" + last) == Split(j) + [last];
      SplitJoin(init);
      assert segs == init + [last];
    }
  }

  /** Name segments pass through normalisation unchanged. */
  lemma {:induction false} NormalizeFromNames(acc: seq<string>, segs: seq<string>, allowAboveRoot: bool)
    requires AllNames(segs)
    ensures NormalizeFrom(acc, segs, allowAboveRoot) == acc + segs
  {
    if segs != [] {
      NormalizeFromNames(acc, segs[..|segs| - 1], allowAboveRoot);
      assert acc + segs[..|segs| - 1] + [segs[|segs| - 1]] == acc + segs;
    }
  }

  /** Normalisation works segment by segment, left to right. */
  lemma {:induction false} NormalizeFromAppend(acc: seq<string>, x: seq<string>, y: seq<string>, allowAboveRoot: bool)
    ensures NormalizeFrom(acc, x + y, allowAboveRoot) ==
      NormalizeFrom(NormalizeFrom(acc, x, allowAboveRoot), y, allowAboveRoot)
  {
    if y == [] {
      assert x + y == x;
    } else {
      assert (x + y)[..|x + y| - 1] == x + y[..|y| - 1];
      NormalizeFromAppend(acc, x, y[..|y| - 1], allowAboveRoot);
    }
  }

  /** The segments of a clean path normalise to its names. */
  lemma SegmentsNormalize(absolute: bool, names: seq<string>, acc: seq<string>, allowAboveRoot: bool)
    requires AllNames(names)
    ensures NormalizeFrom(acc, Segments(absolute, names), allowAboveRoot) == acc + names
  {
    var segs := Segments(absolute, names);
    if absolute && names == [] {
      assert segs == ["", ""];
      assert segs[..1] == [""];
      assert segs[..1][..0] == [];
      assert NormalizeFrom(acc, [""], allowAboveRoot) == acc;
    } else if absolute {
      NormalizeFromAppend(acc, [""], names, allowAboveRoot);
      assert [""][..0] == [];
      NormalizeFromNames(acc, names, allowAboveRoot);
    } else {
      assert segs == names;
      NormalizeFromNames(acc, names, allowAboveRoot);
    }
  }

  lemma SegmentsSlashFree(absolute: bool, names: seq<string>)
    requires AllNames(names) && (absolute || names != [])
    ensures SlashFree(Segments(absolute, names)) && |Segments(absolute, names)| >= 1
  {
    var segs := Segments(absolute, names);
    forall i | 0 <= i < |segs|
      ensures '/' !in segs[i]
    {
      if absolute && names == [] {
        assert segs == ["", ""];
      } else if absolute && i > 0 {
        assert segs[i] == names[i - 1];
      } else if absolute {
        assert segs[i] == "";
      } else {
        assert segs[i] == names[i];
      }
    }
  }

  /** An absolute clean path starts with a slash, a relative one does not, and neither
      ends with a slash unless it is the root. */
  lemma PathOfShape(absolute: bool, names: seq<string>)
    requires AllNames(names) && (absolute || names != [])
    ensures var p := PathOf(absolute, names);
      p != "" && (p[0] == '/' <==> absolute) &&
      (names != [] ==> p[|p| - 1] != '/' && EndsWith(p, names[|names| - 1])) &&
      (absolute ==> p == "/" + Join(names, "/") || (names == [] && p == "/"))
      && (!absolute ==> p == Join(names, "/"))
  {
    if absolute && names == [] {
      RootShape();
    } else if absolute {
      AbsoluteShape(names);
    } else {
      RelativeShape(names);
    }
  }

  lemma RootShape()
    ensures PathOf(true, []) == "/"
  {
    var segs := Segments(true, []);
    assert segs == ["", ""];
    assert segs[..1] == [""];
    assert Join([""], "/") == "";
  }

  lemma AbsoluteShape(names: seq<string>)
    requires AllNames(names) && names != []
    ensures var p := PathOf(true, names);
      p == "/" + Join(names, "/") && p[0] == '/' &&
      p[|p| - 1] != '/' && EndsWith(p, names[|names| - 1])
  {
    AbsoluteJoin(names);
    JoinEnds(names, "/");
    EndsWithName("/", Join(names, "/"), names[|names| - 1]);
  }

  lemma AbsoluteJoin(names: seq<string>)
    requires names != []
    ensures PathOf(true, names) == "/" + Join(names, "/")
  {
    assert Segments(true, names) == [""] + names;
    JoinAppend([""], names, "/");
    assert Join([""], "/") == "";
    EmptyThenSlash(Join(names, "/"));
  }

  lemma EmptyThenSlash(j: string)
    ensures "" + "/" + j == "/" + j
  {
  }

  lemma RelativeShape(names: seq<string>)
    requires AllNames(names) && names != []
    ensures var p := PathOf(false, names);
      p == Join(names, "/") && p != "" && p[0] != '/' &&
      p[|p| - 1] != '/' && EndsWith(p, names[|names| - 1])
  {
    assert Segments(false, names) == names;
    JoinEnds(names, "/");
    var j := Join(names, "/");
    assert j[0] == names[0][0] && names[0][0] in names[0];
    EndsWithName("", j, names[|names| - 1]);
    assert "" + j == j;
  }

  /** Text ending in a name ends in a character other than a slash, whatever precedes it. */
  lemma EndsWithName(pre: string, s: string, n: string)
    requires EndsWith(s, n) && n != "" && '/' !in n
    ensures var p := pre + s; p != "" && p[|p| - 1] != '/' && EndsWith(p, n)
  {
    var p := pre + s;
    assert p[|p| - |n|..] == s[|s| - |n|..];
    assert p[|p| - 1] == n[|n| - 1];
    assert n[|n| - 1] in n;
  }

  lemma NamesAppend(a: seq<string>, b: seq<string>)
    requires AllNames(a) && AllNames(b)
    ensures AllNames(a + b)
  {
    forall i | 0 <= i < |a + b|
      ensures IsName((a + b)[i])
    {
      if i < |a| {
        assert (a + b)[i] == a[i];
      } else {
        assert (a + b)[i] == b[i - |a|];
      }
    }
  }

  lemma SlashFreeAppend(a: seq<string>, b: seq<string>)
    requires SlashFree(a) && SlashFree(b)
    ensures SlashFree(a + b)
  {
    forall i | 0 <= i < |a + b|
      ensures '/' !in (a + b)[i]
    {
      if i < |a| {
        assert (a + b)[i] == a[i];
      } else {
        assert (a + b)[i] == b[i - |a|];
      }
    }
  }

  /** The segments of two clean paths, one after the other, normalise to all their names. */
  lemma NormalizeStringClean(absA: bool, a: seq<string>, leadB: bool, b: seq<string>, allowAboveRoot: bool)
    requires AllNames(a) && AllNames(b) && b != [] && (absA || a != [])
    ensures SlashFree(Segments(absA, a) + Segments(leadB, b))
    ensures NormalizeString(Join(Segments(absA, a) + Segments(leadB, b), "/"), allowAboveRoot) == Join(a + b, "/")
  {
    var sa := Segments(absA, a);
    var sb := Segments(leadB, b);
    SegmentsSlashFree(absA, a);
    SegmentsSlashFree(leadB, b);
    SlashFreeAppend(sa, sb);
    SplitJoin(sa + sb);
    NormalizeFromAppend([], sa, sb, allowAboveRoot);
    SegmentsNormalize(absA, a, [], allowAboveRoot);
    assert [] + a == a;
    SegmentsNormalize(leadB, b, a, allowAboveRoot);
  }

  /** Normalising a path with no trailing slash and a non-empty normal form. */
  lemma NormalizeNoTrailing(p: string, body: string)
    requires p != "" && p[|p| - 1] != '/'
    requires NormalizeString(p, p[0] != '/') == body && body != ""
    ensures Normalize(p) == (if p[0] == '/' then "/" else "") + body
  {
  }

  /** `path.join` of two clean paths is their concatenation with one slash between
      them: a leading slash on the second is absorbed, and the first decides whether
      the result is absolute. */
  lemma JoinClean(absA: bool, a: seq<string>, leadB: bool, b: seq<string>)
    requires AllNames(a) && AllNames(b) && b != [] && (absA || a != [])
    ensures JoinPaths([PathOf(absA, a), PathOf(leadB, b)]) == PathOf(absA, a + b)
  {
    var pa := PathOf(absA, a);
    var pb := PathOf(leadB, b);
    PathOfShape(absA, a);
    PathOfShape(leadB, b);
    JoinTwo(pa, pb);
    var joined := pa + "/" + pb;
    JoinedSegments(absA, a, leadB, b);
    var body := Join(a + b, "/");
    NormalizeStringClean(absA, a, leadB, b, !absA);
    assert PathOf(absA, a + b) == (if absA then "/" else "") + body && body != "" by {
      NamesAppend(a, b);
      PathOfShape(absA, a + b);
    }
    NormalizeNoTrailing(joined, body);
  }

  /** `path.join` of two non-empty parts normalises them joined by one slash. */
  lemma JoinTwo(pa: string, pb: string)
    requires pa != "" && pb != ""
    ensures JoinPaths([pa, pb]) == Normalize(pa + "/" + pb)
    ensures var j := pa + "/" + pb; j[0] == pa[0] && j[|j| - 1] == pb[|pb| - 1]
  {
    assert [pa, pb][..1] == [pa];
    assert [pa][..0] == [];
    assert NonEmpty([pa]) == [pa];
    assert NonEmpty([pa, pb]) == [pa, pb];
    assert Join([pa], "/") == pa;
  }

  /** Two clean paths joined by a slash are the join of their segments. */
  lemma JoinedSegments(absA: bool, a: seq<string>, leadB: bool, b: seq<string>)
    requires AllNames(a) && AllNames(b) && b != [] && (absA || a != [])
    ensures PathOf(absA, a) + "/" + PathOf(leadB, b) == Join(Segments(absA, a) + Segments(leadB, b), "/")
  {
    var sa := Segments(absA, a);
    var sb := Segments(leadB, b);
    SegmentsSlashFree(absA, a);
    SegmentsSlashFree(leadB, b);
    JoinAppend(sa, sb, "/");
  }

  /** Resolving a clean absolute path leaves it as it is. */
  lemma ResolveAbsolute(cwd: string, b: seq<string>)
    requires AllNames(b) && b != []
    ensures Resolve(cwd, PathOf(true, b)) == PathOf(true, b)
  {
    var p := PathOf(true, b);
    PathOfShape(true, b);
    assert p[..1] == "/";
    SegmentsSlashFree(true, b);
    SplitJoin(Segments(true, b));
    SegmentsNormalize(true, b, [], false);
    assert [] + b == b;
    assert NormalizeString(p, false) == Join(b, "/");
  }

  /** Resolving a clean relative path against a clean working directory appends it. */
  lemma ResolveRelative(cwd: seq<string>, b: seq<string>)
    requires AllNames(cwd) && AllNames(b) && b != []
    ensures Resolve(PathOf(true, cwd), PathOf(false, b)) == PathOf(true, cwd + b)
  {
    var pc, pb := PathOf(true, cwd), PathOf(false, b);
    RelativeShape(b);
    assert !StartsWith(pb, "/") by { assert pb[..1][0] == pb[0]; }
    var full := pc + "/" + pb;
    assert Resolve(pc, pb) == "/" + NormalizeString(full, false);
    JoinedSegments(true, cwd, false, b);
    NormalizeStringClean(true, cwd, false, b, false);
    AbsoluteJoin(cwd + b);
  }

  /** A single name below the root. */
  lemma RootChild(n: string)
    ensures PathOf(true, [n]) == "/" + n
  {
    assert Segments(true, [n]) == ["", n];
    assert ["", n][..1] == [""];
    assert Join([""], "/") == "";
  }

  /** Appending a name to a clean path adds one slash and the name. */
  lemma PathOfAppend(absolute: bool, a: seq<string>, n: string)
    requires AllNames(a) && IsName(n) && (absolute || a != [])
    ensures PathOf(absolute, a + [n]) ==
      (if absolute && a == [] then "/" + n else PathOf(absolute, a) + "/" + n)
  {
    if absolute && a == [] {
      assert Segments(true, [n]) == ["", n];
      assert ["", n][..1] == [""];
      assert Join([""], "/") == "";
    } else {
      assert Segments(absolute, a + [n]) == Segments(absolute, a) + [n];
      SegmentsSlashFree(absolute, a);
      JoinAppend(Segments(absolute, a), [n], "/");
    }
  }

  /** The scan of `dirname` stops at the last slash once it has passed a non-slash. */
  lemma {:induction false} DirnameScan(p: string, i: int, k: int, matchedSlash: bool)
    requires 1 <= k < i < |p| && p[k] == '/'
    requires forall j :: k < j <= i ==> p[j] != '/'
    ensures DirnameEnd(p, i, matchedSlash) == k
    decreases i
  {
    if i - 1 > k {
      DirnameScan(p, i - 1, k, false);
    }
  }

  /** The scan of `dirname` finds nothing when no slash follows index 0. */
  lemma {:induction false} DirnameScanNone(p: string, i: int, matchedSlash: bool)
    requires 0 <= i < |p|
    requires forall j :: 1 <= j <= i ==> p[j] != '/'
    ensures DirnameEnd(p, i, matchedSlash) == -1
    decreases i
  {
    if i >= 1 {
      DirnameScanNone(p, i - 1, false);
    }
  }

  /** The base of a clean path is its last name. */
  lemma BasenameClean(absolute: bool, a: seq<string>, n: string)
    requires AllNames(a) && IsName(n) && (absolute || a != [])
    ensures Basename(PathOf(absolute, a + [n])) == n
  {
    PathOfAppend(absolute, a, n);
    var pre := if absolute && a == [] then "" else PathOf(absolute, a);
    var p := pre + "/" + n;
    assert PathOf(absolute, a + [n]) == p;
    assert p[|p| - 1] == n[|n| - 1];
    assert n[|n| - 1] in n;
    assert StripTrailingSlashes(p) == p;
    LastSlashAfter(pre, n);
  }

  /** `dirname('/' + n)` is the root. */
  lemma DirnameOfRootChild(n: string)
    requires '/' !in n
    ensures Dirname("/" + n) == "/"
  {
    var p := "/" + n;
    forall j | 1 <= j <= |p| - 1
      ensures p[j] != '/'
    {
      assert p[j] == n[j - 1];
      assert n[j - 1] in n;
    }
    DirnameScanNone(p, |p| - 1, true);
  }

  /** `dirname(pre + '/' + n)` is `pre` for a slash-free, non-empty `n` and a `pre`
      other than `''` or `/`. */
  lemma DirnameOfChild(pre: string, n: string)
    requires '/' !in n && n != ""
    requires pre != "" && pre != "/"
    ensures Dirname(pre + "/" + n) == pre
  {
    var p := pre + "/" + n;
    forall j | |pre| < j <= |p| - 1
      ensures p[j] != '/'
    {
      assert p[j] == n[j - |pre| - 1];
      assert n[j - |pre| - 1] in n;
    }
    assert p[|pre|] == '/';
    if |pre| >= 1 {
      DirnameScan(p, |p| - 1, |pre|, true);
    }
    assert p[..|pre|] == pre;
    assert p[0] == pre[0];
  }

  /** The directory of a clean path is the path without its last name. */
  lemma DirnameClean(absolute: bool, a: seq<string>, n: string)
    requires AllNames(a) && IsName(n) && (absolute || a != [])
    ensures Dirname(PathOf(absolute, a + [n])) == PathOf(absolute, a)
  {
    PathOfAppend(absolute, a, n);
    if absolute && a == [] {
      DirnameOfRootChild(n);
      assert Segments(true, []) == ["", ""];
      assert ["", ""][..1] == [""];
      assert Join([""], "/") == "";
    } else {
      var pa := PathOf(absolute, a);
      PathOfShape(absolute, a);
      assert pa != "/" by {
        if absolute {
          JoinEnds(a, "/");
        }
      }
      DirnameOfChild(pa, n);
    }
  }

  /** The last dot of `stem + "." + x`, when `x` has none, is the one after `stem`. */
  lemma NameDot(stem: string, x: string)
    requires '.' !in x
    ensures LastIndexOf(stem + "." + x, '.') == |stem|
    ensures (stem + "." + x)[|stem|..] == "." + x
  {
    LastIndexAfter(stem, '.', x);
  }

  /** The extension of a clean path is its last name's part from the last dot, when
      something precedes that dot. */
  lemma ExtnameClean(absolute: bool, a: seq<string>, stem: string, x: string)
    requires AllNames(a) && IsName(stem + "." + x) && (absolute || a != [])
    requires stem != "" && '.' !in x
    ensures Extname(PathOf(absolute, a + [stem + "." + x])) == "." + x
  {
    var n := stem + "." + x;
    BasenameClean(absolute, a, n);
    ExtnameOfBase(PathOf(absolute, a + [n]), stem, x);
  }

  /** The extension of any path whose base is `stem.x`, with no dot in `x`. */
  lemma ExtnameOfBase(p: string, stem: string, x: string)
    requires Basename(p) == stem + "." + x && stem + "." + x != ".."
    requires stem != "" && '.' !in x
    ensures Extname(p) == "." + x
  {
    NameDot(stem, x);
  }

  /** Without a dot after its first character, a last name has no extension. */
  lemma ExtnameNone(absolute: bool, a: seq<string>, n: string)
    requires AllNames(a) && IsName(n) && (absolute || a != [])
    requires '.' !in n[1..]
    ensures Extname(PathOf(absolute, a + [n])) == ""
  {
    BasenameClean(absolute, a, n);
    forall j | 0 < j < |n|
      ensures n[j] != '.'
    {
      assert n[j] == n[1..][j - 1];
      assert n[1..][j - 1] in n[1..];
    }
  }

  /** The last name of a clean path is shorter than the path. */
  lemma LastNameShorter(a: seq<string>, n: string)
    requires AllNames(a) && IsName(n)
    ensures |n| < |PathOf(true, a + [n])|
  {
    PathOfAppend(true, a, n);
  }

  /** `path.basename(p, ext)` of an absolute clean path whose last name `n` is
      `stem + ext` drops the `ext`. */
  lemma BasenameExtClean(a: seq<string>, n: string, stem: string, ext: string)
    requires AllNames(a) && IsName(n) && n == stem + ext && stem != "" && ext != ""
    ensures BasenameExt(PathOf(true, a + [n]), ext) == stem
  {
    BasenameClean(true, a, n);
    LastNameShorter(a, n);
    BasenameExtOfBase(PathOf(true, a + [n]), stem, ext);
  }

  /** A path longer than its base `stem.x`, with no dot in `x`, has the extension `.x`,
      and dropping that extension leaves `stem`. */
  lemma StripExtensionOfBase(p: string, stem: string, x: string)
    requires Basename(p) == stem + "." + x && |stem + "." + x| < |p|
    requires stem != "" && '.' !in x && stem + "." + x != ".."
    ensures Extname(p) == "." + x && BasenameExt(p, Extname(p)) == stem
  {
    ExtnameOfBase(p, stem, x);
    assert stem + "." + x == stem + ("." + x);
    BasenameExtOfBase(p, stem, "." + x);
  }

  /** `path.basename(p, ext)` of any path longer than its base `stem + ext`. */
  lemma BasenameExtOfBase(p: string, stem: string, ext: string)
    requires Basename(p) == stem + ext && |stem + ext| < |p| && stem != "" && ext != ""
    ensures BasenameExt(p, ext) == stem
  {
    EndsWithAppend(stem, ext);
  }

  /** An absolute clean path whose last name does not end in `ext` keeps that name. */
  lemma BasenameExtKeep(a: seq<string>, n: string, ext: string)
    requires AllNames(a) && IsName(n) && !EndsWith(n, ext) && '/' !in ext
    ensures BasenameExt(PathOf(true, a + [n]), ext) == n
  {
    var p := PathOf(true, a + [n]);
    assert Basename(p) == n by { BasenameClean(true, a, n); }
    assert '/' in p by {
      PathOfAppend(true, a, n);
      assert p[|p| - |n| - 1] == '/';
    }
  }
}
