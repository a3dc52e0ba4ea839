/** Recognisers for the path regular expressions of the navigation matchers:
    `^\/(about|articles)\/([\w-]+\/)?` (full-page, no end anchor) and
    `^\/(?:about|articles)\/([\w-]+\/)?$` (navigation, anchored). Each recogniser
    follows the regular expression piece by piece; the lemmas give the plain reading. */
module Patterns {
  import opened Wrappers
  import opened Strings

  /** The greedy run `[\w-]*` at the start of `s`: its length. */
  function SegmentRun(s: string): (n: nat)
    ensures n <= |s|
    ensures forall i :: 0 <= i < n ==> IsSegmentChar(s[i])
    ensures n < |s| ==> !IsSegmentChar(s[n])
  {
    if s == [] || !IsSegmentChar(s[0]) then 0 else 1 + SegmentRun(s[1..])
  }

  /** `^\/(about|articles)\/`: the text after the matched prefix, if it matches. */
  function MatchSection(p: string): Option<string>
  {
    if StartsWith(p, "/about/") then Some(p[7..])
    else if StartsWith(p, "/articles/") then Some(p[10..])
    else None
  }

  /** The optional group `([\w-]+\/)?`, taken greedily: the text after it. No other
      split is possible, because `/` is not in `[\w-]`. */
  function SkipOptionalSegment(r: string): string
  {
    var n := SegmentRun(r);
    if 0 < n < |r| && r[n] == '/' then r[n + 1..] else r
  }

  /** The plain reading of `([\w-]+\/)?$`: nothing, or one segment and its slash. */
  predicate IsOptionalSegment(r: string) {
    r == [] || (|r| >= 2 && r[|r| - 1] == '/' && forall i :: 0 <= i < |r| - 1 ==> IsSegmentChar(r[i]))
  }

  /** The path part of the full-page matcher: `/`, or a match of the unanchored pattern. */
  predicate FullPagePath(p: string) {
    p == "/" || MatchSection(p).Some?
  }

  /** The path part of the navigation matcher: `/`, or a match of the anchored pattern. */
  predicate NavigationPath(p: string) {
    p == "/" || (MatchSection(p).Some? && SkipOptionalSegment(MatchSection(p).value) == [])
  }

  /** The anchored optional group consumes the whole rest exactly when the rest is
      empty or one `[\w-]+` segment followed by a single slash. */
  lemma OptionalSegmentAnchored(r: string)
    ensures SkipOptionalSegment(r) == [] <==> IsOptionalSegment(r)
  {
    var n := SegmentRun(r);
    if IsOptionalSegment(r) && r != [] {
      assert !IsSegmentChar(r[|r| - 1]);
      assert n == |r| - 1;
    }
  }

  /** Without an end anchor the optional group always succeeds, so the full-page
      pattern is a prefix test. */
  lemma FullPagePathSpec(p: string)
    ensures FullPagePath(p) <==> p == "/" || StartsWith(p, "/about/") || StartsWith(p, "/articles/")
  {
  }

  /** The navigation pattern accepts `/`, and otherwise exactly `/about/` or `/articles/`
      followed by nothing or by one `[\w-]+/` segment. */
  lemma NavigationPathSpec(p: string)
    ensures NavigationPath(p) <==>
      p == "/" ||
      (StartsWith(p, "/about/") && IsOptionalSegment(p[7..])) ||
      (StartsWith(p, "/articles/") && IsOptionalSegment(p[10..]))
  {
    if StartsWith(p, "/about/") {
      assert p[2] == 'b';
      assert !StartsWith(p, "/articles/") by { assert "/articles/"[2] == 'r'; }
      OptionalSegmentAnchored(p[7..]);
    } else if StartsWith(p, "/articles/") {
      OptionalSegmentAnchored(p[10..]);
    }
  }

  /** Every path the navigation pattern accepts, the full-page pattern accepts too. */
  lemma NavigationPathIsFullPagePath(p: string)
    requires NavigationPath(p)
    ensures FullPagePath(p)
  {
  }

  /** The section roots are navigation paths. */
  lemma NavigationPathAcceptsRoots()
    ensures NavigationPath("/") && NavigationPath("/about/") && NavigationPath("/articles/")
  {
    NavigationPathSpec("/about/");
    assert "/about/"[7..] == [];
    NavigationPathSpec("/articles/");
    assert "/articles/"[10..] == [];
  }

  predicate IsSegment(seg: string) {
    seg != [] && forall i :: 0 <= i < |seg| ==> IsSegmentChar(seg[i])
  }

  predicate IsSection(section: string) {
    section == "about" || section == "articles"
  }

  lemma SectionPrefix(section: string, rest: string)
    requires IsSection(section)
    ensures var p := "/" + section + "/" + rest;
      (section == "about" ==> StartsWith(p, "/about/") && p[7..] == rest) &&
      (section == "articles" ==> StartsWith(p, "/articles/") && p[10..] == rest)
  {
    var p := "/" + section + "/" + rest;
    assert p == ("/" + section + "/") + rest;
  }

  /** A section followed by one `[\w-]+` segment and its slash is a navigation path. */
  lemma SegmentPathAccepted(section: string, seg: string)
    requires IsSection(section) && IsSegment(seg)
    ensures NavigationPath("/" + section + "/" + seg + "/")
  {
    var p := "/" + section + "/" + seg + "/";
    assert p == "/" + section + "/" + (seg + "/");
    SectionPrefix(section, seg + "/");
    NavigationPathSpec(p);
    assert IsOptionalSegment(seg + "/");
  }

  /** A segment without its trailing slash is rejected by the anchored pattern, though the
      unanchored full-page pattern accepts it. */
  lemma MissingSlashRejected(section: string, seg: string)
    requires IsSection(section) && IsSegment(seg)
    ensures !NavigationPath("/" + section + "/" + seg)
    ensures FullPagePath("/" + section + "/" + seg)
  {
    var p := "/" + section + "/" + seg;
    SectionPrefix(section, seg);
    NavigationPathSpec(p);
    assert !IsOptionalSegment(seg) by {
      assert IsSegmentChar(seg[|seg| - 1]);
    }
  }

  /** Two nested segments are rejected by the anchored pattern, though the unanchored
      full-page pattern accepts them. */
  lemma NestedSegmentsRejected(section: string, seg1: string, seg2: string)
    requires IsSection(section) && IsSegment(seg1) && IsSegment(seg2)
    ensures !NavigationPath("/" + section + "/" + seg1 + "/" + seg2 + "/")
    ensures FullPagePath("/" + section + "/" + seg1 + "/" + seg2 + "/")
  {
    var rest := seg1 + "/" + seg2 + "/";
    var p := "/" + section + "/" + seg1 + "/" + seg2 + "/";
    assert p == "/" + section + "/" + rest;
    SectionPrefix(section, rest);
    NavigationPathSpec(p);
    assert !IsOptionalSegment(rest) by {
      assert rest[|seg1|] == '/';
      assert |seg1| < |rest| - 1;
    }
  }
}
