/** Matching of frontend path templates against declared routes (`check_frontend_api_contracts.py`). */
module Routes {
  import opened Text
  import opened RoutePatterns

  // --------------------------------------------------------------- segments

  predicate EndsWith(s: string, suffix: string) {
    |suffix| <= |s| && s[|s| - |suffix|..] == suffix
  }

  /** `{name}` */
  predicate IsTemplated(segment: string) {
    StartsWith(segment, "{") && EndsWith(segment, "}")
  }

  /** `{name:path}` */
  predicate IsCatchAll(segment: string) {
    IsTemplated(segment) && |segment| >= 2 && EndsWith(segment[1..|segment| - 1], ":path")
  }

  /** `[p for p in path.split("/") if p]` */
  function Segments(path: string): seq<string> {
    SegmentsFrom([], path)
  }

  function SegmentsFrom(current: string, path: string): seq<string>
    decreases path
  {
    var done := if current == [] then [] else [current];
    if path == [] then done
    else if path[0] == '/' then done + SegmentsFrom([], path[1..])
    else SegmentsFrom(current + [path[0]], path[1..])
  }

  /** The part of a template that a segment is. */
  function PartOf(segment: string): Part {
    if IsCatchAll(segment) then CatchAll
    else if IsTemplated(segment) then Parameter
    else Literal(segment)
  }

  function PartsOf(segments: seq<string>): (parts: Template)
    ensures |parts| == |segments|
    ensures forall i | 0 <= i < |parts| :: parts[i] == PartOf(segments[i])
  {
    seq(|segments|, i requires 0 <= i < |segments| => PartOf(segments[i]))
  }

  function TemplateOf(path: string): Template {
    PartsOf(Segments(path))
  }

  lemma {:induction false} SegmentsAreReal(current: string, path: string)
    requires '/' !in current
    ensures RealPath(SegmentsFrom(current, path))
    decreases path
  {
    if path != [] {
      if path[0] == '/' {
        SegmentsAreReal([], path[1..]);
      } else {
        SegmentsAreReal(current + [path[0]], path[1..]);
      }
    }
  }

  /** The literals of a parsed template are segments of a path. */
  lemma TemplatesAreReal(path: string)
    ensures RealTemplate(TemplateOf(path))
  {
    SegmentsAreReal([], path);
  }

  // --------------------------------------------------------------- matching

  /** `path_matches` */
  method PathMatches(frontPath: string, backendPath: string) returns (matched: bool)
    ensures matched == Matches(TemplateOf(frontPath), TemplateOf(backendPath))
  {
    if frontPath == backendPath {
      MatchesItself(TemplateOf(frontPath));
      return true;
    }
    matched := TemplatesMatch(TemplateOf(frontPath), TemplateOf(backendPath));
  }

  lemma CatchAllSample()
    ensures PartOf("{p:path}") == CatchAll
  {
    assert "{p:path}"[1..7] == "p:path" && "p:path"[1..] == ":path" && "{p:path}"[7..] == "}";
  }

  lemma ParameterSample()
    ensures PartOf("{p}") == Parameter
  {
    assert |"{p}"[1..2]| == 1 && "{p}"[2..] == "}";
  }

  // ------------------------------------------------------------ missing refs

  function Missing(declared: seq<string>, refs: seq<string>): seq<string> {
    if refs == [] then []
    else
      var rest := Missing(declared, refs[1..]);
      if AnyMatches(declared, refs[0]) then rest else [refs[0]] + rest
  }

  predicate AnyMatches(declared: seq<string>, path: string) {
    declared != []
    && (Matches(TemplateOf(path), TemplateOf(declared[0])) || AnyMatches(declared[1..], path))
  }

  /** `any(path_matches(...))` */
  method FindMatch(declared: seq<string>, path: string) returns (found: bool)
    ensures found == AnyMatches(declared, path)
  {
    for j := 0 to |declared|
      invariant AnyMatches(declared[j..], path) == AnyMatches(declared, path)
    {
      assert declared[j..][1..] == declared[j + 1..];
      var matched := PathMatches(path, declared[j]);
      if matched {
        return true;
      }
    }
    return false;
  }

  /** The loop of `run` over the relevant references. */
  method CollectMissing(declared: seq<string>, refs: seq<string>) returns (missing: seq<string>)
    ensures missing == Missing(declared, refs)
  {
    missing := [];
    for i := 0 to |refs|
      invariant missing + Missing(declared, refs[i..]) == Missing(declared, refs)
    {
      assert refs[i..][1..] == refs[i + 1..];
      var found := FindMatch(declared, refs[i]);
      if !found {
        missing := missing + [refs[i]];
      }
    }
    assert refs[|refs|..] == [];
  }

  lemma {:induction false} AnyMatchesIff(declared: seq<string>, path: string)
    ensures AnyMatches(declared, path) <==>
            exists i | 0 <= i < |declared| :: Matches(TemplateOf(path), TemplateOf(declared[i]))
  {
    if declared != [] {
      AnyMatchesIff(declared[1..], path);
      assert forall i | 0 < i < |declared| :: declared[i] == declared[1..][i - 1];
      assert forall i | 0 <= i < |declared| - 1 :: declared[1..][i] == declared[i + 1];
    }
  }

  /** A reference is reported missing exactly when no declared route shares a concrete path with it,
      provided it is rightly judged against each of them. */
  lemma MissingIff(declared: seq<string>, refs: seq<string>, path: string)
    requires path in refs
    requires forall i | 0 <= i < |declared| :: RightlyJudged(TemplateOf(path), TemplateOf(declared[i]))
    ensures path in Missing(declared, refs) <==>
            !exists i | 0 <= i < |declared| :: Compatible(TemplateOf(path), TemplateOf(declared[i]))
  {
    MissingMember(declared, refs, path);
    AnyMatchesIff(declared, path);
    forall i | 0 <= i < |declared|
      ensures Matches(TemplateOf(path), TemplateOf(declared[i])) <==>
              Compatible(TemplateOf(path), TemplateOf(declared[i]))
    {
      TemplatesAreReal(path);
      TemplatesAreReal(declared[i]);
      RightIff(TemplateOf(path), TemplateOf(declared[i]));
    }
  }

  lemma {:induction false} MissingMember(declared: seq<string>, refs: seq<string>, path: string)
    ensures path in Missing(declared, refs) <==> path in refs && !AnyMatches(declared, path)
  {
    if refs != [] {
      MissingMember(declared, refs[1..], path);
      assert refs == [refs[0]] + refs[1..];
    }
  }

  // ------------------------------------------------- segments as they are written

  function Slashes(n: nat): string {
    if n == 0 then "" else "/" + Slashes(n - 1)
  }

  /** The text of some segments with that many slashes before each and after the last. */
  function Written(segments: seq<string>, gaps: seq<nat>): string
    requires |gaps| == |segments| + 1
    decreases segments
  {
    if segments == [] then Slashes(gaps[0])
    else Slashes(gaps[0]) + (segments[0] + Written(segments[1..], gaps[1..]))
  }

  /** At least one slash separates two segments. */
  predicate Separates(gaps: seq<nat>, segments: seq<string>) {
    |gaps| == |segments| + 1 && forall i | 0 < i < |segments| :: gaps[i] > 0
  }

  lemma {:induction false} SlashesSkipped(n: nat, rest: string)
    ensures SegmentsFrom([], Slashes(n) + rest) == SegmentsFrom([], rest)
  {
    if n == 0 {
      assert Slashes(0) + rest == rest;
    } else {
      var text := Slashes(n) + rest;
      assert text[0] == '/' && text[1..] == Slashes(n - 1) + rest;
      SlashesSkipped(n - 1, rest);
    }
  }

  lemma {:induction false} SegmentTaken(current: string, segment: string, rest: string)
    requires '/' !in segment
    ensures SegmentsFrom(current, segment + rest) == SegmentsFrom(current + segment, rest)
    decreases segment
  {
    if segment == [] {
      assert segment + rest == rest && current + segment == current;
    } else {
      var text := segment + rest;
      assert text[0] == segment[0] && text[1..] == segment[1..] + rest;
      assert current + [segment[0]] + segment[1..] == current + segment;
      SegmentTaken(current + [segment[0]], segment[1..], rest);
    }
  }

  lemma SegmentEnds(segment: string, rest: string)
    requires segment != [] && (rest == [] || rest[0] == '/')
    ensures SegmentsFrom(segment, rest) == [segment] + SegmentsFrom([], rest)
  {
    if rest != [] {
      assert SegmentsFrom([], rest) == [] + SegmentsFrom([], rest[1..]);
    }
  }

  lemma WrittenStarts(segments: seq<string>, gaps: seq<nat>)
    requires |gaps| == |segments| + 1 && (gaps[0] > 0 || segments == [])
    ensures Written(segments, gaps) == [] || Written(segments, gaps)[0] == '/'
  {
  }

  /** Whatever the slashes around them, written segments are read back. */
  lemma {:induction false} WrittenIsRead(segments: seq<string>, gaps: seq<nat>)
    requires RealPath(segments) && Separates(gaps, segments)
    ensures Segments(Written(segments, gaps)) == segments
    decreases segments
  {
    if segments == [] {
      assert Slashes(gaps[0]) + [] == Slashes(gaps[0]);
      SlashesSkipped(gaps[0], []);
    } else {
      var rest := Written(segments[1..], gaps[1..]);
      assert RealSegment(segments[0]);
      SlashesSkipped(gaps[0], segments[0] + rest);
      SegmentTaken([], segments[0], rest);
      assert [] + segments[0] == segments[0];
      WrittenStarts(segments[1..], gaps[1..]);
      SegmentEnds(segments[0], rest);
      WrittenIsRead(segments[1..], gaps[1..]);
    }
  }

  lemma OneMoreSlash(segments: seq<string>, gaps: seq<nat>)
    requires Separates(gaps, segments)
    ensures Separates(gaps[0 := gaps[0] + 1], segments)
    ensures Written(segments, gaps[0 := gaps[0] + 1]) == ['/'] + Written(segments, gaps)
  {
    assert gaps[0 := gaps[0] + 1][1..] == gaps[1..];
  }

  lemma OneMoreSegment(segment: string, segments: seq<string>, gaps: seq<nat>)
    requires Separates(gaps, segments) && (segments != [] ==> gaps[0] > 0)
    ensures Separates([0] + gaps, [segment] + segments)
    ensures Written([segment] + segments, [0] + gaps) == segment + Written(segments, gaps)
  {
    var all, more := [segment] + segments, [0] + gaps;
    assert all[1..] == segments && more[1..] == gaps;
    assert Written(all, more) == Slashes(0) + (segment + Written(segments, gaps));
  }

  /** Every path is the text of its segments. */
  lemma {:induction false} ReadIsWritten(current: string, path: string) returns (gaps: seq<nat>)
    requires '/' !in current
    ensures var segments := SegmentsFrom(current, path);
            Separates(gaps, segments) && Written(segments, gaps) == current + path
    decreases path
  {
    if path == [] {
      gaps := [0];
      assert current + path == current;
      if current != [] {
        OneMoreSegment(current, [], [0]);
        gaps := [0] + [0];
        assert [current] + [] == [current];
        assert current + Written([], [0]) == current;
      }
    } else if path[0] == '/' {
      var segments := SegmentsFrom([], path[1..]);
      gaps := ReadIsWritten([], path[1..]);
      OneMoreSlash(segments, gaps);
      gaps := gaps[0 := gaps[0] + 1];
      assert path == ['/'] + path[1..] && [] + path[1..] == path[1..];
      assert Written(segments, gaps) == path;
      if current == [] {
        assert [] + segments == segments && current + path == path;
      } else {
        OneMoreSegment(current, segments, gaps);
        gaps := [0] + gaps;
      }
    } else {
      gaps := ReadIsWritten(current + [path[0]], path[1..]);
      assert current + [path[0]] + path[1..] == current + path;
    }
  }

  /** The segments of a path are the only non-empty texts without slash that make it up, in order, with
      slashes between them. */
  lemma SegmentsIff(path: string, segments: seq<string>)
    ensures Segments(path) == segments <==>
            RealPath(segments) && exists gaps :: Separates(gaps, segments) && Written(segments, gaps) == path
  {
    SegmentsAreReal([], path);
    if Segments(path) == segments {
      var gaps := ReadIsWritten([], path);
      assert [] + path == path;
    }
    if gaps :| RealPath(segments) && Separates(gaps, segments) && Written(segments, gaps) == path {
      WrittenIsRead(segments, gaps);
    }
  }

  /** A segment in braces is a parameter, or a catch-all when its name ends with `:path`. */
  lemma PartIff(segment: string)
    ensures PartOf(segment).CatchAll? <==> exists name: string :: segment == "{" + name + ":path}"
    ensures PartOf(segment).Parameter? <==>
            (exists name: string :: segment == "{" + name + "}") && !PartOf(segment).CatchAll?
    ensures PartOf(segment).Literal? ==> PartOf(segment).text == segment
  {
    if IsTemplated(segment) {
      TemplatedText(segment);
    }
    forall name: string | segment == "{" + name + ":path}" ensures IsCatchAll(segment) {
      CatchAllText(name);
    }
    forall name: string | segment == "{" + name + "}" ensures IsTemplated(segment) {
      assert segment[|segment| - 1..] == "}";
    }
    if IsCatchAll(segment) {
      var inner := segment[1..|segment| - 1];
      var name := inner[..|inner| - 5];
      assert inner == name + ":path";
      assert segment == "{" + inner + "}";
      assert "{" + (name + ":path") + "}" == "{" + name + ":path}";
      assert segment == "{" + name + ":path}";
    }
  }

  lemma TemplatedText(segment: string)
    requires IsTemplated(segment)
    ensures |segment| >= 2 && segment == "{" + segment[1..|segment| - 1] + "}"
  {
    assert segment[0] == '{' && segment[|segment| - 1] == '}';
  }

  lemma CatchAllText(name: string)
    ensures IsCatchAll("{" + name + ":path}")
  {
    var segment := "{" + name + ":path}";
    assert segment[|segment| - 1..] == "}";
    assert segment[1..|segment| - 1] == name + ":path";
    assert (name + ":path")[|name|..] == ":path";
  }
}
