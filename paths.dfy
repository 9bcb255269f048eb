/** The path joins of the current version: `str(PurePosixPath(base) / seg)`.
    The model keeps the parts of pathlib's normalisation that the tool's own
    strings exercise (trailing slashes of the base, a "." segment, an empty
    base) and treats every other character as plain text. */
module Paths {
  import opened Strings

  /** `p` without its trailing slashes. */
  function StripTrailingSlashes(p: string): (r: string)
    ensures |r| <= |p| && r == p[..|r|]
    ensures r == [] || r[|r| - 1] != '/'
  {
    if p != [] && p[|p| - 1] == '/' then StripTrailingSlashes(p[..|p| - 1]) else p
  }

  /** `str(PurePosixPath(base) / seg)`. An empty base is the current directory,
      so the segment stands alone; a "." segment adds nothing; a base made of
      slashes only is the root. */
  function Join(base: string, seg: string): string {
    var b := StripTrailingSlashes(base);
    if seg == "." then
      (if base == "" then "." else if b == "" then "/" else b)
    else if base == "" then seg
    else b + "/" + seg
  }

  /** A plain segment: what the lookup tables hold (non-empty, not ".", no
      slash at either end). */
  predicate PlainSegment(seg: string) {
    seg != "" && seg != "." && seg[0] != '/' && seg[|seg| - 1] != '/'
  }

  /** Joining a plain segment: the result ends with "/" and the segment
      (or is the segment, for an empty base), keeps the base's name in front,
      and has no trailing slash. */
  lemma JoinPlain(base: string, seg: string)
    requires PlainSegment(seg)
    ensures EndsWith(Join(base, seg), seg)
    ensures Join(base, seg)[|Join(base, seg)| - 1] != '/'
    ensures base != "" ==> EndsWith(Join(base, seg), "/" + seg)
    ensures base != "" ==> Join(base, seg) == StripTrailingSlashes(base) + "/" + seg
  {
    var r := Join(base, seg);
    if base == "" {
      assert r == seg;
      EndsWithConcat("", seg);
    } else {
      var b := StripTrailingSlashes(base);
      JoinUnderBase(base, seg);
      EndsWithConcat(b + "/", seg);
      EndsWithConcat(b, "/" + seg);
    }
    LastOfSuffix(r, seg);
  }

  /** Under a non-empty base, a segment other than "." follows the base's
      name and one slash. */
  lemma JoinUnderBase(base: string, seg: string)
    requires base != "" && seg != "."
    ensures Join(base, seg) == StripTrailingSlashes(base) + "/" + seg
    ensures Join(base, seg) == StripTrailingSlashes(base) + ("/" + seg)
  {
  }

  /** A concatenation ends with its second part. */
  lemma EndsWithConcat(a: string, b: string)
    ensures EndsWith(a + b, b)
  {
    assert (a + b)[|a + b| - |b|..] == b;
  }

  /** A text ending with a non-empty suffix ends with the suffix's last
      character. */
  lemma LastOfSuffix(s: string, suffix: string)
    requires suffix != [] && EndsWith(s, suffix)
    ensures s[|s| - 1] == suffix[|suffix| - 1]
  {
    assert s[|s| - 1] == s[|s| - |suffix|..][|suffix| - 1];
  }

  /** Joining a plain segment gives a non-empty path in normal form (no
      trailing slash). */
  lemma JoinNormal(base: string, seg: string)
    requires PlainSegment(seg)
    ensures Join(base, seg) != "" && StripTrailingSlashes(Join(base, seg)) == Join(base, seg)
  {
    JoinPlain(base, seg);
  }

  /** A "." segment leaves a base that is already in normal form unchanged. */
  lemma JoinDot(base: string)
    requires base != "" && StripTrailingSlashes(base) == base
    ensures Join(base, ".") == base
  {
  }

  /** `PurePosixPath(base) / segs[0] / segs[1] / ...`, left to right. */
  function JoinAll(base: string, segs: seq<string>): string
    decreases |segs|
  {
    if segs == [] then base else Join(JoinAll(base, segs[..|segs| - 1]), segs[|segs| - 1])
  }

  /** The textual layout of a path: the base without its trailing slashes,
      then each segment after one slash. */
  function Layout(base: string, segs: seq<string>): string
    decreases |segs|
  {
    if segs == [] then StripTrailingSlashes(base)
    else Layout(base, segs[..|segs| - 1]) + "/" + segs[|segs| - 1]
  }

  predicate AllPlain(segs: seq<string>) {
    forall i :: 0 <= i < |segs| ==> PlainSegment(segs[i])
  }

  /** Joining plain segments under a non-empty base yields exactly their
      layout, a non-empty path with no trailing slash. */
  lemma {:induction false} JoinAllLayout(base: string, segs: seq<string>)
    requires base != "" && segs != [] && AllPlain(segs)
    ensures JoinAll(base, segs) == Layout(base, segs)
    ensures JoinAll(base, segs) != "" && StripTrailingSlashes(JoinAll(base, segs)) == JoinAll(base, segs)
  {
    var init, last := segs[..|segs| - 1], segs[|segs| - 1];
    assert PlainSegment(last);
    if init == [] {
      JoinUnderBase(base, last);
      JoinNormal(base, last);
    } else {
      assert AllPlain(init) by {
        forall i | 0 <= i < |init| ensures PlainSegment(init[i]) {
          assert init[i] == segs[i];
        }
      }
      JoinAllLayout(base, init);
      JoinUnderBase(JoinAll(base, init), last);
      JoinNormal(JoinAll(base, init), last);
    }
  }

  /** A layout is the stripped base, a slash and the segments joined by
      slashes. */
  lemma {:induction false} LayoutJoinWith(base: string, segs: seq<string>)
    requires segs != []
    ensures Layout(base, segs) == StripTrailingSlashes(base) + "/" + JoinWith(segs, "/")
    decreases |segs|
  {
    var init, last := segs[..|segs| - 1], segs[|segs| - 1];
    if init == [] {
      assert segs == [last];
    } else {
      LayoutJoinWith(base, init);
      JoinWithSnoc(init, last, "/");
      assert init + [last] == segs;
    }
  }
}
