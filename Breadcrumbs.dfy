/** The breadcrumb trail of the app shell (components/layout/breadcrumbs.tsx):
    the path is split on "/", empty parts are dropped, each remaining segment
    gets a label, and crumb i links to the path made of the first i + 1
    segments. The current path (Next.js usePathname) is an input. */
module Breadcrumbs {
  import opened Text

  /** The labels of the app's top-level sections. */
  const LabelMap: map<string, string> := map[
    "dashboard" := "Dashboard",
    "accounts" := "Accounts",
    "pipeline" := "Pipeline",
    "team" := "Team",
    "playbooks" := "Playbooks",
    "resume" := "Resume",
    "demo-notes" := "Demo Notes"]

  /** segmentLabel: a section's label; a long unknown segment (an account id) shortened to
      "Account " and its first eight characters; any other segment with its dashes made spaces. */
  function SegmentLabel(segment: string): (r: string)
    ensures segment in LabelMap ==> r == LabelMap[segment]
    ensures segment !in LabelMap && |segment| > 20 ==> r == "Account " + segment[..8]
    ensures segment !in LabelMap && |segment| <= 20 ==>
      && |r| == |segment| && '-' !in r
      && (forall i :: 0 <= i < |segment| && segment[i] == '-' ==> r[i] == ' ')
      && (forall i :: 0 <= i < |segment| && segment[i] != '-' ==> r[i] == segment[i])
  {
    if segment in LabelMap then LabelMap[segment]
    else if |segment| > 20 then "Account " + Slice(segment, 0, 8)
    else ReplaceChar(segment, '-', ' ')
  }

  lemma SegmentLabelExamples()
    ensures SegmentLabel("demo-notes") == "Demo Notes"
    ensures SegmentLabel("q3-review") == "q3 review"
    ensures SegmentLabel("cm1234567890abcdefghijkl") == "Account cm123456"
  {
    assert "demo-notes" in LabelMap;
    assert SegmentLabel("q3-review") == ReplaceChar("q3-review", '-', ' ');
  }

  /** filter(Boolean) on strings: the non-empty parts, in order. */
  function NonEmptyParts(parts: seq<string>): (r: seq<string>)
    ensures |r| <= |parts|
    ensures forall i :: 0 <= i < |r| ==> r[i] != "" && r[i] in parts
    ensures forall i :: 0 <= i < |parts| && parts[i] != "" ==> parts[i] in r
  {
    if |parts| == 0 then []
    else (if parts[0] == "" then [] else [parts[0]]) + NonEmptyParts(parts[1..])
  }

  /** The filter keeps the order: filtering a concatenation filters each part. */
  lemma {:induction false} NonEmptyPartsAppend(a: seq<string>, b: seq<string>)
    ensures NonEmptyParts(a + b) == NonEmptyParts(a) + NonEmptyParts(b)
  {
    if |a| == 0 {
      assert a + b == b;
    } else {
      assert (a + b)[0] == a[0];
      assert (a + b)[1..] == a[1..] + b;
      NonEmptyPartsAppend(a[1..], b);
    }
  }

  /** The path's segments: the non-empty parts between slashes. */
  function Segments(pathname: string): (segments: seq<string>)
    ensures forall i :: 0 <= i < |segments| ==> segments[i] != "" && '/' !in segments[i]
  {
    NonEmptyParts(SplitOn(pathname, '/'))
  }

  /** The link of each crumb: "/" and the first i + 1 segments joined by "/". */
  function Hrefs(segments: seq<string>): (hrefs: seq<string>)
    ensures |hrefs| == |segments|
  {
    seq(|segments|, i requires 0 <= i < |segments| => Href(segments, i))
  }

  function Href(segments: seq<string>, i: nat): string
    requires i < |segments|
  {
    "/" + Join(segments[..i + 1], '/')
  }

  /** Each link is the previous one followed by "/" and the next segment, so it is a proper
      prefix of every later link. */
  lemma HrefsExtend(segments: seq<string>, i: nat)
    requires i + 1 < |segments|
    ensures Hrefs(segments)[i + 1] == Hrefs(segments)[i] + "/" + segments[i + 1]
    ensures StartsWith(Hrefs(segments)[i + 1], Hrefs(segments)[i])
    ensures |Hrefs(segments)[i + 1]| > |Hrefs(segments)[i]|
  {
    assert segments[..i + 2] == segments[..i + 1] + [segments[i + 1]];
    JoinSnoc(segments[..i + 1], segments[i + 1], '/');
    var h := Hrefs(segments)[i];
    assert (h + "/" + segments[i + 1])[..|h|] == h;
  }

  /** Splitting a string that holds no separator gives the string itself. */
  lemma {:induction false} SplitOnNoSeparator(x: string, sep: char)
    requires sep !in x
    ensures SplitOn(x, sep) == [x]
  {
    if |x| > 0 {
      SplitOnNoSeparator(x[1..], sep);
      assert [x[0]] + x[1..] == x;
    }
  }

  /** Splitting at a first separator gives the part before it and the pieces of the rest. */
  lemma {:induction false} SplitOnFirst(x: string, y: string, sep: char)
    requires sep !in x
    ensures SplitOn(x + [sep] + y, sep) == [x] + SplitOn(y, sep)
  {
    var s := x + [sep] + y;
    if |x| == 0 {
      assert s[1..] == y;
    } else {
      assert s[1..] == x[1..] + [sep] + y;
      SplitOnFirst(x[1..], y, sep);
      assert [x[0]] + x[1..] == x;
    }
  }

  /** A separator between two strings splits the pieces of the one from the pieces of the other. */
  lemma {:induction false} SplitOnConcat(x: string, y: string, sep: char)
    ensures SplitOn(x + [sep] + y, sep) == SplitOn(x, sep) + SplitOn(y, sep)
  {
    var s := x + [sep] + y;
    if |x| == 0 {
      assert s[1..] == y;
    } else {
      assert s[1..] == x[1..] + [sep] + y;
      SplitOnConcat(x[1..], y, sep);
    }
  }

  /** Splitting what a join produced gives back the parts, when no part holds the separator. */
  lemma {:induction false} SplitJoin(parts: seq<string>, sep: char)
    requires |parts| >= 1
    requires forall i :: 0 <= i < |parts| ==> sep !in parts[i]
    ensures SplitOn(Join(parts, sep), sep) == parts
  {
    if |parts| == 1 {
      SplitOnNoSeparator(parts[0], sep);
    } else {
      SplitJoin(parts[1..], sep);
      SplitOnFirst(parts[0], Join(parts[1..], sep), sep);
    }
  }

  lemma {:induction false} NonEmptyPartsKeepsNonEmpty(parts: seq<string>)
    requires forall i :: 0 <= i < |parts| ==> parts[i] != ""
    ensures NonEmptyParts(parts) == parts
  {
    if |parts| > 0 {
      NonEmptyPartsKeepsNonEmpty(parts[1..]);
    }
  }

  /** Splitting "/a/b/c" gives an empty first part and then the segments. */
  lemma PathSplit(segments: seq<string>)
    requires |segments| >= 1
    requires forall i :: 0 <= i < |segments| ==> '/' !in segments[i]
    ensures SplitOn("/" + Join(segments, '/'), '/') == [""] + segments
  {
    SplitJoin(segments, '/');
    SplitOnFirst("", Join(segments, '/'), '/');
    assert "/" + Join(segments, '/') == "" + ['/'] + Join(segments, '/');
  }

  /** The path "/a/b/c" of non-empty, slash-free segments has exactly those segments. */
  lemma SegmentsOfPath(segments: seq<string>)
    requires |segments| >= 1
    requires forall i :: 0 <= i < |segments| ==> segments[i] != "" && '/' !in segments[i]
    ensures Segments("/" + Join(segments, '/')) == segments
  {
    var parts := [""] + segments;
    PathSplit(segments);
    assert parts[0] == "" && parts[1..] == segments;
    assert NonEmptyParts(parts) == NonEmptyParts(segments);
    NonEmptyPartsKeepsNonEmpty(segments);
  }

  /** The segments of two paths joined by a slash are the segments of the one, then of the other. */
  lemma SegmentsConcat(x: string, y: string)
    ensures Segments(x + "/" + y) == Segments(x) + Segments(y)
  {
    assert x + "/" + y == x + ['/'] + y;
    SplitOnConcat(x, y, '/');
    NonEmptyPartsAppend(SplitOn(x, '/'), SplitOn(y, '/'));
  }

  /** The empty path has no segments. */
  lemma SegmentsOfEmpty()
    ensures Segments("") == []
  {
    assert SplitOn("", '/') == [""];
    assert NonEmptyParts([""]) == NonEmptyParts([]);
  }

  /** The root path has no segments. */
  lemma SegmentsOfRoot()
    ensures Segments("/") == []
  {
    SegmentsConcat("", "");
    assert "" + "/" + "" == "/";
    SegmentsOfEmpty();
  }

  /** A trailing slash adds no segment. */
  lemma SegmentsTrailingSlash(path: string)
    ensures Segments(path + "/") == Segments(path)
  {
    SegmentsConcat(path, "");
    assert path + "/" + "" == path + "/";
    SegmentsOfEmpty();
  }

  /** A leading slash adds no segment. */
  lemma SegmentsLeadingSlash(path: string)
    ensures Segments("/" + path) == Segments(path)
  {
    SegmentsConcat("", path);
    assert "" + "/" + path == "/" + path;
    SegmentsOfEmpty();
  }

  /** A doubled slash counts as one. */
  lemma SegmentsDoubledSlash(x: string, y: string)
    ensures Segments(x + "//" + y) == Segments(x + "/" + y)
  {
    var tail := "/" + y;
    SegmentsConcat(x, tail);
    assert x + "/" + tail == x + "//" + y;
    SegmentsLeadingSlash(y);
    SegmentsConcat(x, y);
  }

  /** The last crumb links back to the path itself. */
  lemma LastHrefIsPath(segments: seq<string>)
    requires |segments| >= 1
    ensures Hrefs(segments)[|segments| - 1] == "/" + Join(segments, '/')
  {
    var n := |segments|;
    assert segments[..n] == segments;
    assert Hrefs(segments)[n - 1] == Href(segments, n - 1);
  }
}
