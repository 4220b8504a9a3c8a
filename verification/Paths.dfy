/** Slash-separated paths, and the normal form of relative ones. */
module Paths {

  function Slashed(s: string): (r: string)
    ensures |r| == |s| && '\\' !in r
    ensures forall i | 0 <= i < |s| :: r[i] == if s[i] == '\\' then '/' else s[i]
  {
    if s == "" then "" else [if s[0] == '\\' then '/' else s[0]] + Slashed(s[1..])
  }

  lemma {:induction false} SlashedTwice(s: string)
    requires '\\' !in s
    ensures Slashed(s) == s
    decreases |s|
  {
    if s != "" {
      SlashedTwice(s[1..]);
    }
  }

  /** The first segment ends at the first slash, or with the path. */
  function SegmentEnd(s: string): (k: nat)
    ensures k <= |s| && (k < |s| ==> s[k] == '/') && '/' !in s[..k]
  {
    if s == "" || s[0] == '/' then 0 else 1 + SegmentEnd(s[1..])
  }

  /** The pieces between the slashes; always at least one. */
  function Segments(s: string): (segments: seq<string>)
    ensures segments != [] && forall i | 0 <= i < |segments| :: '/' !in segments[i]
  {
    var k := SegmentEnd(s);
    if k == |s| then [s] else [s[..k]] + Segments(s[k + 1..])
  }

  function Joined(segments: seq<string>): string {
    if segments == [] then ""
    else if |segments| == 1 then segments[0]
    else segments[0] + "/" + Joined(segments[1..])
  }

  lemma {:induction false} SegmentEndOf(s: string, rest: string)
    requires '/' !in s
    ensures SegmentEnd(s) == |s| && SegmentEnd(s + "/" + rest) == |s|
    decreases |s|
  {
    if s != "" {
      assert (s + "/" + rest)[1..] == s[1..] + "/" + rest;
      SegmentEndOf(s[1..], rest);
    }
  }

  lemma FirstSegment(s: string, rest: string)
    requires '/' !in s
    ensures Segments(s + "/" + rest) == [s] + Segments(rest) && Segments(s) == [s]
  {
    SegmentEndOf(s, rest);
    var all := s + "/" + rest;
    assert all[..|s|] == s && all[|s| + 1..] == rest;
  }

  ghost predicate Plain(segments: seq<string>) {
    forall i | 0 <= i < |segments| :: '/' !in segments[i]
  }

  lemma {:induction false} SegmentsOfJoined(segments: seq<string>)
    requires segments != [] && Plain(segments)
    ensures Segments(Joined(segments)) == segments
    decreases |segments|
  {
    if |segments| == 1 {
      FirstSegment(segments[0], "");
      assert segments == [segments[0]];
    } else {
      var rest := segments[1..];
      SegmentsOfJoined(rest);
      FirstSegment(segments[0], Joined(rest));
      assert segments == [segments[0]] + rest;
    }
  }

  lemma {:induction false} JoinedThenSlash(segments: seq<string>)
    requires segments != []
    ensures Joined(segments + [""]) == Joined(segments) + "/"
    decreases |segments|
  {
    var all := segments + [""];
    if |segments| == 1 {
      assert all[1..] == [""];
      assert Joined(all) == segments[0] + "/" + "";
    } else {
      assert all[1..] == segments[1..] + [""];
      JoinedThenSlash(segments[1..]);
      assert Joined(all) == segments[0] + "/" + (Joined(segments[1..]) + "/");
    }
  }

  // ----- the normal form of a relative path -----

  function Step(done: seq<string>, segment: string): seq<string> {
    if segment in {"", "."} then done
    else if segment == ".." && done != [] && done[|done| - 1] != ".." then done[..|done| - 1]
    else done + [segment]
  }

  function Resolve(segments: seq<string>): seq<string> {
    if segments == [] then []
    else Step(Resolve(segments[..|segments| - 1]), segments[|segments| - 1])
  }

  /** No empty or dot segment, and `..` only in front. */
  predicate Resolved(segments: seq<string>) {
    && (forall i | 0 <= i < |segments| :: segments[i] !in {"", "."} && '/' !in segments[i])
    && (forall i | 0 < i < |segments| :: segments[i] == ".." ==> segments[i - 1] == "..")
  }

  function Normalize(s: string): string {
    var body := Joined(Resolve(Segments(s)));
    var trailing := s != "" && s[|s| - 1] == '/';
    if body == "" then (if trailing then "./" else ".") else if trailing then body + "/" else body
  }

  lemma {:induction false} ResolveResolves(segments: seq<string>)
    requires Plain(segments)
    ensures Resolved(Resolve(segments))
    decreases |segments|
  {
    if segments != [] {
      ResolveResolves(segments[..|segments| - 1]);
    }
  }

  lemma {:induction false} ResolvedStays(segments: seq<string>)
    requires Resolved(segments)
    ensures Resolve(segments) == segments
    decreases |segments|
  {
    if segments != [] {
      var n := |segments| - 1;
      ResolvedStays(segments[..n]);
      assert segments == segments[..n] + [segments[n]];
      if segments[n] == ".." && n > 0 {
        assert segments[n - 1] == "..";
      }
    }
  }

  lemma {:induction false} JoinedIsLong(segments: seq<string>)
    requires segments != [] && Resolved(segments)
    ensures Joined(segments) != "" && Joined(segments)[|Joined(segments)| - 1] != '/'
    decreases |segments|
  {
    if |segments| > 1 {
      assert Resolved(segments[1..]) by {
        forall i | 0 < i < |segments[1..]| && segments[1..][i] == ".." ensures segments[1..][i - 1] == ".." {
          assert segments[i + 1] == ".." && segments[i] == "..";
        }
      }
      JoinedIsLong(segments[1..]);
    }
  }

  lemma ResolvedIsNormal(segments: seq<string>)
    requires segments != [] && Resolved(segments)
    ensures Normalize(Joined(segments)) == Joined(segments)
  {
    JoinedIsLong(segments);
    SegmentsOfJoined(segments);
    ResolvedStays(segments);
  }

  lemma ResolvedAndSlashIsNormal(segments: seq<string>)
    requires segments != [] && Resolved(segments)
    ensures Normalize(Joined(segments) + "/") == Joined(segments) + "/"
  {
    JoinedIsLong(segments);
    JoinedThenSlash(segments);
    SegmentsOfJoined(segments + [""]);
    TrailingIsDropped(segments);
    ResolvedStays(segments);
  }

  /** Normalizing twice is normalizing once. */
  lemma NormalizeIsIdempotent(s: string)
    ensures Normalize(Normalize(s)) == Normalize(s)
  {
    var segments := Resolve(Segments(s));
    ResolveResolves(Segments(s));
    if segments == [] {
      DotIsNormal();
    } else {
      JoinedIsLong(segments);
      ResolvedIsNormal(segments);
      ResolvedAndSlashIsNormal(segments);
    }
  }

  lemma TrailingIsDropped(segments: seq<string>)
    ensures Resolve(segments + [""]) == Resolve(segments)
  {
    var all := segments + [""];
    assert all[..|all| - 1] == segments && all[|all| - 1] == "";
  }

  lemma DotIsNormal()
    ensures Normalize(".") == "." && Normalize("./") == "./"
  {
    FirstSegment(".", "");
    assert "." + "/" + "" == "./";
    assert Segments("") == [""];
    assert [".", ""][..1] == ["."] && ["."][..0] == [];
    assert Resolve(["."]) == [] && Resolve([".", ""]) == [];
  }

  /** A normal path has no backslash when the path had none. */
  lemma {:induction false} JoinedKeepsChars(segments: seq<string>, c: char)
    requires c != '/' && forall i | 0 <= i < |segments| :: c !in segments[i]
    ensures c !in Joined(segments)
    decreases |segments|
  {
    if |segments| > 1 {
      JoinedKeepsChars(segments[1..], c);
    }
  }

  lemma {:induction false} SegmentsKeepChars(s: string, c: char)
    requires c !in s
    ensures forall i | 0 <= i < |Segments(s)| :: c !in Segments(s)[i]
    decreases |s|
  {
    var k := SegmentEnd(s);
    if k < |s| {
      SegmentsKeepChars(s[k + 1..], c);
    }
  }

  lemma {:induction false} ResolveKeepsChars(segments: seq<string>, c: char)
    requires forall i | 0 <= i < |segments| :: c !in segments[i]
    ensures forall i | 0 <= i < |Resolve(segments)| :: c !in Resolve(segments)[i]
    decreases |segments|
  {
    if segments != [] {
      ResolveKeepsChars(segments[..|segments| - 1], c);
    }
  }

  lemma NormalizeKeepsChars(s: string, c: char)
    requires c !in s && c != '/' && c != '.'
    ensures c !in Normalize(s)
  {
    SegmentsKeepChars(s, c);
    ResolveKeepsChars(Segments(s), c);
    JoinedKeepsChars(Resolve(Segments(s)), c);
  }
}
