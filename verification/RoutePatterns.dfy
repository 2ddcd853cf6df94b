/** Path templates as lists of literals, parameters and catch-alls: when the matcher of
    `check_frontend_api_contracts.py` is right about two of them. */
module RoutePatterns {
  datatype Part = Literal(text: string) | Parameter | CatchAll

  type Template = seq<Part>

  // --------------------------------------------------------------- matching

  /** Two parts that one segment can stand for, catch-alls aside. */
  predicate Fit(a: Part, b: Part) {
    a.Parameter? || b.Parameter? || a == b
  }

  /** `path_matches` on templates: two indices advance together. */
  predicate Matches(front: Template, back: Template) {
    if front == [] && back == [] then true
    else if front == [] then back == [CatchAll]
    else if back == [] then front == [CatchAll]
    else if back[0].CatchAll? || front[0].CatchAll? then true
    else Fit(front[0], back[0]) && Matches(front[1..], back[1..])
  }

  lemma MatchStep(front: Template, back: Template, i: nat)
    requires i < |front| && i < |back|
    ensures Matches(front[i..], back[i..]) <==>
            if back[i].CatchAll? || front[i].CatchAll? then true
            else Fit(front[i], back[i]) && Matches(front[i + 1..], back[i + 1..])
  {
    assert front[i..][1..] == front[i + 1..] && back[i..][1..] == back[i + 1..];
  }

  lemma MatchEnd(front: Template, back: Template, i: nat)
    requires i <= |front| && i <= |back| && (i == |front| || i == |back|)
    ensures Matches(front[i..], back[i..]) <==>
            || (i == |front| && i == |back|)
            || (i == |back| - 1 && back[i].CatchAll?)
            || (i == |front| - 1 && front[i].CatchAll?)
  {
    if i < |back| {
      assert back[i..] == [back[i]] + back[i + 1..];
    } else if i < |front| {
      assert front[i..] == [front[i]] + front[i + 1..];
    }
  }

  /** The loop of `path_matches`. */
  method TemplatesMatch(front: Template, back: Template) returns (matched: bool)
    ensures matched == Matches(front, back)
  {
    var i, j := 0, 0;
    assert front[0..] == front && back[0..] == back;
    while i < |front| && j < |back|
      invariant 0 <= i <= |front| && 0 <= j <= |back| && i == j
      invariant Matches(front[i..], back[j..]) == Matches(front, back)
    {
      MatchStep(front, back, i);
      if back[j].CatchAll? || front[i].CatchAll? {
        return true;
      }
      if !(back[j].Parameter? || front[i].Parameter?) && front[i] != back[j] {
        return false;
      }
      i := i + 1;
      j := j + 1;
    }
    MatchEnd(front, back, i);
    if i == |front| && j == |back| {
      return true;
    }
    if j == |back| - 1 && back[j].CatchAll? {
      return true;
    }
    if i == |front| - 1 && front[i].CatchAll? {
      return true;
    }
    return false;
  }

  lemma {:induction false} MatchesItself(parts: Template)
    ensures Matches(parts, parts)
  {
    if parts != [] {
      MatchesItself(parts[1..]);
    }
  }

  lemma {:induction false} MatchesSymmetric(front: Template, back: Template)
    ensures Matches(front, back) == Matches(back, front)
  {
    if front != [] && back != [] {
      MatchesSymmetric(front[1..], back[1..]);
    }
  }

  // ---------------------------------------------------------- concrete paths

  /** What a segment of a path can be. */
  predicate RealSegment(segment: string) {
    segment != [] && '/' !in segment
  }

  predicate RealPath(path: seq<string>) {
    forall i | 0 <= i < |path| :: RealSegment(path[i])
  }

  predicate RealTemplate(parts: Template) {
    forall i | 0 <= i < |parts| :: parts[i].Literal? ==> RealSegment(parts[i].text)
  }

  predicate Stands(segment: string, part: Part) {
    part.Parameter? || part == Literal(segment)
  }

  /** A concrete path is an instance of a template: a literal stands for itself, a parameter for one
      segment, a catch-all for any number of segments. */
  ghost predicate Instance(path: seq<string>, parts: Template)
    decreases |parts|
  {
    if parts == [] then path == []
    else if parts[0].CatchAll? then exists n: nat :: n <= |path| && Instance(path[n..], parts[1..])
    else path != [] && Stands(path[0], parts[0]) && Instance(path[1..], parts[1..])
  }

  ghost predicate Shared(path: seq<string>, front: Template, back: Template) {
    RealPath(path) && Instance(path, front) && Instance(path, back)
  }

  /** Some concrete path fits both templates. */
  ghost predicate Compatible(front: Template, back: Template) {
    exists path: seq<string> :: Shared(path, front, back)
  }

  predicate HasCatchAll(parts: Template) {
    CatchAll in parts
  }

  predicate AllCatchAlls(parts: Template) {
    forall i | 0 <= i < |parts| :: parts[i] == CatchAll
  }

  predicate CatchAllOnlyLast(parts: Template) {
    forall i | 0 <= i < |parts| - 1 :: parts[i] != CatchAll
  }

  predicate AtMostOneCatchAll(parts: Template) {
    forall i, j | 0 <= i < j < |parts| :: !(parts[i] == CatchAll && parts[j] == CatchAll)
  }

  function SomeSegment(part: Part): string {
    if part.Literal? then part.text else "a"
  }

  /** A segment for two parts that fit. */
  function CommonSegment(a: Part, b: Part): string {
    if a.Literal? then a.text else SomeSegment(b)
  }

  // ------------------------------------------------------- building instances

  lemma EmptyInstance()
    ensures Instance([], [])
  {
  }

  lemma PrependSegment(segment: string, path: seq<string>, parts: Template)
    requires parts != [] && !parts[0].CatchAll? && Stands(segment, parts[0]) && Instance(path, parts[1..])
    ensures Instance([segment] + path, parts)
  {
    assert ([segment] + path)[1..] == path;
  }

  /** A leading catch-all takes whatever is put in front. */
  lemma Absorb(more: seq<string>, path: seq<string>, parts: Template, n: nat)
    requires parts != [] && parts[0].CatchAll? && n <= |path| && Instance(path[n..], parts[1..])
    ensures Instance(more + path, parts)
  {
    assert (more + path)[|more| + n..] == path[n..];
  }

  lemma AbsorbFront(more: seq<string>, path: seq<string>, parts: Template)
    requires parts != [] && parts[0].CatchAll? && Instance(path, parts)
    ensures Instance(more + path, parts)
  {
    var n: nat :| n <= |path| && Instance(path[n..], parts[1..]);
    Absorb(more, path, parts, n);
  }

  lemma ConsTemplate(front: Template, back: Template)
    requires front != []
    ensures (front + back)[1..] == front[1..] + back && (front + back)[0] == front[0]
  {
  }

  lemma ConsInstance(path: seq<string>, parts: Template)
    requires parts != [] && !parts[0].CatchAll? && path != []
    requires Stands(path[0], parts[0]) && Instance(path[1..], parts[1..])
    ensures Instance(path, parts)
  {
  }

  lemma CatchAllTakes(path: seq<string>, parts: Template, n: nat)
    requires parts != [] && parts[0].CatchAll? && n <= |path| && Instance(path[n..], parts[1..])
    ensures Instance(path, parts)
  {
  }

  /** Instances can be put one after the other. */
  lemma {:induction false} Joined(a: seq<string>, front: Template, b: seq<string>, back: Template)
    requires Instance(a, front) && Instance(b, back)
    ensures Instance(a + b, front + back)
  {
    if front == [] {
      assert a + b == b && front + back == back;
    } else {
      ConsTemplate(front, back);
      if front[0].CatchAll? {
        var n: nat :| n <= |a| && Instance(a[n..], front[1..]);
        Joined(a[n..], front[1..], b, back);
        assert (a + b)[n..] == a[n..] + b;
      } else {
        Joined(a[1..], front[1..], b, back);
        assert (a + b)[1..] == a[1..] + b;
      }
    }
  }

  /** Every template has an instance. */
  lemma {:induction false} SomeInstance(parts: Template) returns (path: seq<string>)
    requires RealTemplate(parts)
    ensures RealPath(path) && Instance(path, parts)
  {
    path := [];
    if parts != [] {
      var rest := SomeInstance(parts[1..]);
      if parts[0].CatchAll? {
        path := rest;
        assert path[0..] == rest;
      } else {
        path := [SomeSegment(parts[0])] + rest;
        PrependSegment(SomeSegment(parts[0]), rest, parts);
      }
    }
  }

  lemma CatchAllAlone(path: seq<string>)
    ensures Instance(path, [CatchAll])
  {
    assert path[|path|..] == [] && [CatchAll][1..] == [];
    EmptyInstance();
    assert Instance(path[|path|..], [CatchAll][1..]);
  }

  /** A trailing catch-all takes whatever is put behind. */
  lemma AbsorbEnd(path: seq<string>, more: seq<string>, parts: Template)
    requires Instance(path, parts)
    ensures Instance(path + more, parts + [CatchAll])
  {
    CatchAllAlone(more);
    Joined(path, parts, more, [CatchAll]);
  }

  lemma OneSegment(segment: string, part: Part)
    requires !part.CatchAll? && Stands(segment, part)
    ensures Instance([segment], [part])
  {
    EmptyInstance();
    assert [segment][1..] == [] && [part][1..] == [];
  }

  // ------------------------------------------------------ taking instances apart

  lemma SingleInstance(path: seq<string>, part: Part)
    requires !part.CatchAll? && Instance(path, [part])
    ensures |path| == 1 && Stands(path[0], part)
  {
    assert [part][1..] == [];
  }

  lemma InitOfTail<T>(s: seq<T>, m: nat)
    requires m < |s|
    ensures s[m..][..|s| - m - 1] == s[..|s| - 1][m..] && s[m..][|s| - m - 1] == s[|s| - 1]
  {
  }

  /** A last part that is not a catch-all stands for the last segment. */
  lemma {:induction false} LastSegment(path: seq<string>, parts: Template)
    requires parts != [] && !parts[|parts| - 1].CatchAll? && Instance(path, parts)
    ensures path != [] && Stands(path[|path| - 1], parts[|parts| - 1])
    ensures Instance(path[..|path| - 1], parts[..|parts| - 1])
  {
    if |parts| == 1 {
      assert parts == [parts[0]];
      SingleInstance(path, parts[0]);
    } else {
      InitOfTail(parts, 1);
      if parts[0].CatchAll? {
        var m: nat :| m <= |path| && Instance(path[m..], parts[1..]);
        LastSegment(path[m..], parts[1..]);
        InitOfTail(path, m);
        CatchAllTakes(path[..|path| - 1], parts[..|parts| - 1], m);
      } else {
        LastSegment(path[1..], parts[1..]);
        InitOfTail(path, 1);
        ConsInstance(path[..|path| - 1], parts[..|parts| - 1]);
      }
    }
  }

  /** Without catch-alls an instance has the length of the template. */
  lemma {:induction false} InstanceLength(path: seq<string>, parts: Template)
    requires !HasCatchAll(parts) && Instance(path, parts)
    ensures |path| == |parts|
  {
    if parts != [] {
      assert parts[0] in parts;
      InstanceLength(path[1..], parts[1..]);
    }
  }

  lemma {:induction false} OnlyCatchAlls(parts: Template)
    ensures Instance([], parts) <==> AllCatchAlls(parts)
  {
    if parts == [] {
      EmptyInstance();
    } else {
      var none: seq<string> := [];
      OnlyCatchAlls(parts[1..]);
      assert none[0..] == none;
      if Instance(none, parts) {
        assert forall i | 0 < i < |parts| :: parts[i] == parts[1..][i - 1];
      }
      if AllCatchAlls(parts) {
        assert AllCatchAlls(parts[1..]);
      }
    }
  }

  // ------------------------------------------------------------------ the walk

  predicate Stopped(front: Template, back: Template) {
    front == [] || back == [] || front[0].CatchAll? || back[0].CatchAll? || !Fit(front[0], back[0])
  }

  /** What is left of both templates where the two indices stop. */
  function Walk(front: Template, back: Template): (rest: (Template, Template))
    ensures Stopped(rest.0, rest.1)
  {
    if Stopped(front, back) then (front, back) else Walk(front[1..], back[1..])
  }

  /** The walk meets a catch-all while both templates go on. */
  predicate AtCatchAll(front: Template, back: Template) {
    front != [] && back != [] && (front[0].CatchAll? || back[0].CatchAll?)
  }

  lemma {:induction false} WalkShape(front: Template, back: Template)
    ensures RealTemplate(front) && RealTemplate(back) ==>
              RealTemplate(Walk(front, back).0) && RealTemplate(Walk(front, back).1)
    ensures AtMostOneCatchAll(front) && AtMostOneCatchAll(back) ==>
              AtMostOneCatchAll(Walk(front, back).0) && AtMostOneCatchAll(Walk(front, back).1)
    ensures CatchAllOnlyLast(front) && CatchAllOnlyLast(back) ==>
              CatchAllOnlyLast(Walk(front, back).0) && CatchAllOnlyLast(Walk(front, back).1)
  {
    if !Stopped(front, back) {
      WalkShape(front[1..], back[1..]);
    }
  }

  lemma SharedTail(path: seq<string>, front: Template, back: Template)
    requires !Stopped(front, back) && Shared(path, front, back)
    ensures Compatible(front[1..], back[1..])
  {
    assert Shared(path[1..], front[1..], back[1..]);
  }

  lemma CommonStands(a: Part, b: Part)
    requires Fit(a, b) && !a.CatchAll? && !b.CatchAll?
    requires a.Literal? ==> RealSegment(a.text)
    requires b.Literal? ==> RealSegment(b.text)
    ensures Stands(CommonSegment(a, b), a) && Stands(CommonSegment(a, b), b) && RealSegment(CommonSegment(a, b))
  {
    assert RealSegment("a") by {
      assert "a"[0] != '/';
    }
  }

  lemma CompatibleStep(front: Template, back: Template)
    requires RealTemplate(front) && RealTemplate(back) && !Stopped(front, back)
    ensures Compatible(front, back) <==> Compatible(front[1..], back[1..])
  {
    if Compatible(front, back) {
      var path :| Shared(path, front, back);
      SharedTail(path, front, back);
    }
    if Compatible(front[1..], back[1..]) {
      var path :| Shared(path, front[1..], back[1..]);
      var segment := CommonSegment(front[0], back[0]);
      CommonStands(front[0], back[0]);
      PrependSegment(segment, path, front);
      PrependSegment(segment, path, back);
      assert Shared([segment] + path, front, back);
    }
  }

  lemma {:induction false} WalkKeeps(front: Template, back: Template)
    requires RealTemplate(front) && RealTemplate(back)
    ensures Matches(Walk(front, back).0, Walk(front, back).1) == Matches(front, back)
    ensures Compatible(Walk(front, back).0, Walk(front, back).1) == Compatible(front, back)
  {
    if !Stopped(front, back) {
      CompatibleStep(front, back);
      WalkKeeps(front[1..], back[1..]);
    }
  }

  // ---------------------------------------------------------- templates that end

  /** The empty template shares a path exactly with templates of catch-alls. */
  lemma CompatibleWithNothing(parts: Template)
    ensures Compatible([], parts) <==> AllCatchAlls(parts)
    ensures Compatible(parts, []) <==> AllCatchAlls(parts)
  {
    var none: seq<string> := [];
    OnlyCatchAlls(parts);
    EmptyInstance();
    if AllCatchAlls(parts) {
      assert Shared(none, [], parts) && Shared(none, parts, []);
    }
    forall path | Shared(path, [], parts) || Shared(path, parts, []) ensures path == none {
    }
  }

  /** One template ends, the other has at least two segments left, and all of them are catch-alls. */
  predicate TailOfCatchAlls(front: Template, back: Template) {
    var rest := Walk(front, back);
    || (rest.0 == [] && |rest.1| >= 2 && AllCatchAlls(rest.1))
    || (rest.1 == [] && |rest.0| >= 2 && AllCatchAlls(rest.0))
  }

  lemma HeadsFit(front: Template, back: Template)
    requires front != [] && back != [] && !front[0].CatchAll? && !back[0].CatchAll? && Compatible(front, back)
    ensures Fit(front[0], back[0])
  {
    var path :| Shared(path, front, back);
    assert Stands(path[0], front[0]) && Stands(path[0], back[0]);
  }

  lemma EndedIff(parts: Template)
    ensures Matches([], parts) <==> AllCatchAlls(parts) && |parts| < 2
    ensures Matches(parts, []) <==> AllCatchAlls(parts) && |parts| < 2
  {
    if AllCatchAlls(parts) && |parts| == 1 {
      assert parts == [CatchAll];
    }
  }

  /** Templates that share a path are reported as not matching exactly when one ends before two or
      more catch-alls of the other. */
  lemma MissedIff(front: Template, back: Template)
    requires RealTemplate(front) && RealTemplate(back)
    ensures !Matches(front, back) && Compatible(front, back) <==> TailOfCatchAlls(front, back)
  {
    WalkKeeps(front, back);
    var f, b := Walk(front, back).0, Walk(front, back).1;
    if f == [] {
      CompatibleWithNothing(b);
      EndedIff(b);
    } else if b == [] {
      CompatibleWithNothing(f);
      EndedIff(f);
    } else if !AtCatchAll(f, b) && Compatible(f, b) {
      HeadsFit(f, b);
    }
  }

  // --------------------------------------------------- templates with catch-alls

  predicate EndsStopped(front: Template, back: Template) {
    front == [] || back == [] || front[|front| - 1].CatchAll? || back[|back| - 1].CatchAll?
  }

  /** Walking from the end, the parts fit pairwise until one template ends or a catch-all is met. */
  predicate EndsFit(front: Template, back: Template) {
    EndsStopped(front, back)
    || (Fit(front[|front| - 1], back[|back| - 1])
        && EndsFit(front[..|front| - 1], back[..|back| - 1]))
  }

  /** A list without catch-alls is one of those that `parts` can be expanded to. */
  ghost predicate Expands(parts: Template, fixed: Template)
    decreases |parts|
  {
    if parts == [] then fixed == []
    else if parts[0].CatchAll? then exists n: nat :: n <= |fixed| && Expands(parts[1..], fixed[n..])
    else fixed != [] && Fit(parts[0], fixed[0]) && Expands(parts[1..], fixed[1..])
  }

  /** When templates share a path, one of which starts with a catch-all. */
  ghost predicate Meets(front: Template, back: Template) {
    if HasCatchAll(front) && HasCatchAll(back) then EndsFit(front, back)
    else if HasCatchAll(front) then Expands(front, back)
    else Expands(back, front)
  }

  lemma {:induction false} SharedEndsFit(path: seq<string>, front: Template, back: Template)
    requires Instance(path, front) && Instance(path, back)
    ensures EndsFit(front, back)
  {
    if !EndsStopped(front, back) {
      LastSegment(path, front);
      LastSegment(path, back);
      SharedEndsFit(path[..|path| - 1], front[..|front| - 1], back[..|back| - 1]);
    }
  }

  /** A common segment put behind. */
  lemma AppendCommon(path: seq<string>, front: Template, back: Template)
    requires RealTemplate(front) && RealTemplate(back) && !EndsStopped(front, back)
    requires Fit(front[|front| - 1], back[|back| - 1])
    requires Shared(path, front[..|front| - 1], back[..|back| - 1])
    ensures Compatible(front, back)
  {
    var a, b := front[|front| - 1], back[|back| - 1];
    var segment := CommonSegment(a, b);
    CommonStands(a, b);
    OneSegment(segment, a);
    OneSegment(segment, b);
    Joined(path, front[..|front| - 1], [segment], [a]);
    Joined(path, back[..|back| - 1], [segment], [b]);
    assert front == front[..|front| - 1] + [a] && back == back[..|back| - 1] + [b];
    assert Shared(path + [segment], front, back);
  }

  /** `front` starts with a catch-all, `back` ends with one. */
  lemma BackOpen(front: Template, back: Template)
    requires RealTemplate(front) && RealTemplate(back)
    requires front != [] && front[0].CatchAll? && back != [] && back[|back| - 1].CatchAll?
    ensures Compatible(front, back)
  {
    var init := back[..|back| - 1];
    assert back == init + [CatchAll];
    var x := SomeInstance(init);
    var r := SomeInstance(front);
    AbsorbFront(x, r, front);
    AbsorbEnd(x, r, init);
    assert Shared(x + r, front, back);
  }

  /** `front` starts and ends with a catch-all, `back` has one somewhere. */
  lemma FrontOpen(front: Template, back: Template, b1: Template, b2: Template)
    requires RealTemplate(front) && RealTemplate(b1) && RealTemplate(b2)
    requires front != [] && front[0].CatchAll? && front[|front| - 1].CatchAll? && back == b1 + [CatchAll] + b2
    ensures Compatible(front, back)
  {
    var init := front[..|front| - 1];
    assert front == init + [CatchAll];
    var x := SomeInstance(b1);
    var r := SomeInstance(init);
    var y := SomeInstance(b2);
    AbsorbEnd(x, r, b1);
    Joined(x + r, b1 + [CatchAll], y, b2);
    if init == [] {
      CatchAllAlone(x + r + y);
      assert front == [CatchAll];
    } else {
      AbsorbFront(x, r, init);
      AbsorbEnd(x + r, y, init);
    }
    assert Shared(x + r + y, front, back);
  }

  /** Two templates with catch-alls, one of which is the first segment, share a path when their ends fit. */
  lemma {:induction false} EndsMeet(front: Template, back: Template)
    requires RealTemplate(front) && RealTemplate(back)
    requires front != [] && front[0].CatchAll? && HasCatchAll(back) && EndsFit(front, back)
    ensures Compatible(front, back)
  {
    if back[|back| - 1].CatchAll? {
      BackOpen(front, back);
    } else if front[|front| - 1].CatchAll? {
      var k: nat :| k < |back| && back[k] == CatchAll;
      assert back == back[..k] + [CatchAll] + back[k + 1..];
      FrontOpen(front, back, back[..k], back[k + 1..]);
    } else {
      var k: nat :| k < |back| && back[k] == CatchAll;
      assert back[..|back| - 1][k] == CatchAll;
      EndsMeet(front[..|front| - 1], back[..|back| - 1]);
      var path :| Shared(path, front[..|front| - 1], back[..|back| - 1]);
      AppendCommon(path, front, back);
    }
  }

  lemma {:induction false} ExpandsTo(parts: Template, fixed: Template, path: seq<string>)
    requires !HasCatchAll(fixed) && Instance(path, parts) && Instance(path, fixed)
    ensures Expands(parts, fixed)
  {
    if parts != [] {
      if parts[0].CatchAll? {
        var n: nat :| n <= |path| && Instance(path[n..], parts[1..]);
        InstanceLength(path, fixed);
        InstanceDrop(path, fixed, n);
        ExpandsTo(parts[1..], fixed[n..], path[n..]);
      } else {
        assert fixed != [] && fixed[0] in fixed;
        assert Stands(path[0], fixed[0]) && Stands(path[0], parts[0]);
        ExpandsTo(parts[1..], fixed[1..], path[1..]);
      }
    }
  }

  lemma {:induction false} InstanceDrop(path: seq<string>, fixed: Template, n: nat)
    requires !HasCatchAll(fixed) && Instance(path, fixed) && n <= |path| == |fixed|
    ensures Instance(path[n..], fixed[n..])
  {
    if n == 0 {
      assert path[0..] == path && fixed[0..] == fixed;
    } else {
      assert fixed[0] in fixed;
      InstanceDrop(path[1..], fixed[1..], n - 1);
      assert path[1..][n - 1..] == path[n..] && fixed[1..][n - 1..] == fixed[n..];
    }
  }

  lemma {:induction false} ExpansionPath(parts: Template, fixed: Template) returns (path: seq<string>)
    requires RealTemplate(parts) && RealTemplate(fixed) && !HasCatchAll(fixed) && Expands(parts, fixed)
    ensures Shared(path, parts, fixed)
  {
    path := [];
    if parts == [] {
      EmptyInstance();
    } else if parts[0].CatchAll? {
      var n: nat :| n <= |fixed| && Expands(parts[1..], fixed[n..]);
      var rest := ExpansionPath(parts[1..], fixed[n..]);
      var more := SomeInstance(fixed[..n]);
      path := more + rest;
      assert rest[0..] == rest;
      Absorb(more, rest, parts, 0);
      Joined(more, fixed[..n], rest, fixed[n..]);
      assert fixed == fixed[..n] + fixed[n..];
    } else {
      assert fixed[0] in fixed;
      var rest := ExpansionPath(parts[1..], fixed[1..]);
      var segment := CommonSegment(parts[0], fixed[0]);
      CommonStands(parts[0], fixed[0]);
      path := [segment] + rest;
      PrependSegment(segment, rest, parts);
      PrependSegment(segment, rest, fixed);
    }
  }

  /** Against a template without catch-alls, sharing a path is being expandable to it. */
  lemma ExpandsIffCompatible(parts: Template, fixed: Template)
    requires RealTemplate(parts) && RealTemplate(fixed) && !HasCatchAll(fixed)
    ensures Expands(parts, fixed) <==> Compatible(parts, fixed)
  {
    if Expands(parts, fixed) {
      var path := ExpansionPath(parts, fixed);
    }
    if Compatible(parts, fixed) {
      var path :| Shared(path, parts, fixed);
      ExpandsTo(parts, fixed, path);
    }
  }

  lemma CompatibleSymmetric(front: Template, back: Template)
    ensures Compatible(front, back) == Compatible(back, front)
  {
    if Compatible(front, back) {
      var path :| Shared(path, front, back);
      assert Shared(path, back, front);
    }
    if Compatible(back, front) {
      var path :| Shared(path, back, front);
      assert Shared(path, front, back);
    }
  }

  lemma {:induction false} EndsFitSymmetric(front: Template, back: Template)
    ensures EndsFit(front, back) == EndsFit(back, front)
  {
    if !EndsStopped(front, back) {
      EndsFitSymmetric(front[..|front| - 1], back[..|back| - 1]);
    }
  }

  lemma BothMeet(front: Template, back: Template)
    requires RealTemplate(front) && RealTemplate(back) && AtCatchAll(front, back)
    requires HasCatchAll(front) && HasCatchAll(back)
    ensures EndsFit(front, back) <==> Compatible(front, back)
  {
    if Compatible(front, back) {
      var path :| Shared(path, front, back);
      SharedEndsFit(path, front, back);
    }
    if EndsFit(front, back) {
      CompatibleSymmetric(front, back);
      EndsFitSymmetric(front, back);
      if front[0].CatchAll? {
        EndsMeet(front, back);
      } else {
        EndsMeet(back, front);
      }
    }
  }

  /** Where the walk stands at a catch-all, sharing a path is a matter of what is left. */
  lemma MeetsIffCompatible(front: Template, back: Template)
    requires RealTemplate(front) && RealTemplate(back) && AtCatchAll(front, back)
    ensures Meets(front, back) <==> Compatible(front, back)
  {
    CompatibleSymmetric(front, back);
    if HasCatchAll(front) && HasCatchAll(back) {
      BothMeet(front, back);
    } else if HasCatchAll(front) {
      ExpandsIffCompatible(front, back);
    } else {
      ExpandsIffCompatible(back, front);
    }
  }

  /** Templates that share no path are reported as matching exactly when the walk meets a catch-all and
      what is left cannot meet. */
  lemma OverreportedIff(front: Template, back: Template)
    requires RealTemplate(front) && RealTemplate(back)
    ensures Matches(front, back) && !Compatible(front, back) <==>
            AtCatchAll(Walk(front, back).0, Walk(front, back).1) && !Meets(Walk(front, back).0, Walk(front, back).1)
  {
    WalkKeeps(front, back);
    WalkShape(front, back);
    var f, b := Walk(front, back).0, Walk(front, back).1;
    if AtCatchAll(f, b) {
      MeetsIffCompatible(f, b);
    } else if f == [] {
      CompatibleWithNothing(b);
      EndedIff(b);
    } else if b == [] {
      CompatibleWithNothing(f);
      EndedIff(f);
    }
  }

  /** Neither error is made: the templates do not end in front of catch-alls, and what is left where
      the walk meets a catch-all meets. */
  ghost predicate RightlyJudged(front: Template, back: Template) {
    var rest := Walk(front, back);
    !TailOfCatchAlls(front, back) && (AtCatchAll(rest.0, rest.1) ==> Meets(rest.0, rest.1))
  }

  /** `path_matches` says whether two templates share a path exactly when they are rightly judged,
      whatever catch-alls they have. */
  lemma RightIff(front: Template, back: Template)
    requires RealTemplate(front) && RealTemplate(back)
    ensures (Matches(front, back) <==> Compatible(front, back)) <==> RightlyJudged(front, back)
  {
    MissedIff(front, back);
    OverreportedIff(front, back);
  }

  // ------------------------------------------------------- one catch-all each

  lemma {:induction false} CatchAllFirst(s: Template, fixed: Template)
    requires RealTemplate(s) && RealTemplate(fixed) && !HasCatchAll(s) && !HasCatchAll(fixed)
    requires |s| <= |fixed| && EndsFit([CatchAll] + s, fixed)
    ensures Compatible([CatchAll] + s, fixed)
  {
    var front := [CatchAll] + s;
    if s == [] {
      assert front == [CatchAll];
      var path := SomeInstance(fixed);
      CatchAllAlone(path);
      assert Shared(path, front, fixed);
    } else {
      var init, rest := s[..|s| - 1], fixed[..|fixed| - 1];
      assert front[..|front| - 1] == [CatchAll] + init && front[|front| - 1] == s[|s| - 1];
      assert s[|s| - 1] in s && fixed[|fixed| - 1] in fixed;
      CatchAllFirst(init, rest);
      var path :| Shared(path, [CatchAll] + init, rest);
      AppendCommon(path, front, fixed);
    }
  }

  lemma NoneLeft(parts: Template)
    requires parts != [] && parts[0].CatchAll? && AtMostOneCatchAll(parts)
    ensures parts == [CatchAll] + parts[1..] && !HasCatchAll(parts[1..])
  {
    assert forall i | 0 <= i < |parts| - 1 :: parts[1..][i] == parts[i + 1];
  }

  lemma {:induction false} AtLeastParts(path: seq<string>, parts: Template)
    requires Instance(path, parts) && AtMostOneCatchAll(parts)
    ensures |parts| <= |path| + 1
  {
    if parts != [] {
      if parts[0].CatchAll? {
        var n: nat :| n <= |path| && Instance(path[n..], parts[1..]);
        NoneLeft(parts);
        InstanceLength(path[n..], parts[1..]);
      } else {
        AtLeastParts(path[1..], parts[1..]);
      }
    }
  }

  lemma ExpandsFar(parts: Template, fixed: Template)
    requires AtMostOneCatchAll(parts) && !HasCatchAll(fixed) && Compatible(parts, fixed)
    ensures |parts| - 1 <= |fixed| && EndsFit(parts, fixed)
  {
    var path :| Shared(path, parts, fixed);
    SharedEndsFit(path, parts, fixed);
    InstanceLength(path, fixed);
    AtLeastParts(path, parts);
  }

  /** With a single catch-all, in front, there is one way to expand. */
  lemma ExpandsOne(parts: Template, fixed: Template)
    requires RealTemplate(parts) && RealTemplate(fixed)
    requires parts != [] && parts[0].CatchAll? && AtMostOneCatchAll(parts) && !HasCatchAll(fixed)
    ensures Expands(parts, fixed) <==> |parts| - 1 <= |fixed| && EndsFit(parts, fixed)
  {
    ExpandsIffCompatible(parts, fixed);
    if Compatible(parts, fixed) {
      ExpandsFar(parts, fixed);
    }
    if |parts| - 1 <= |fixed| && EndsFit(parts, fixed) {
      NoneLeft(parts);
      CatchAllFirst(parts[1..], fixed);
    }
  }

  lemma NoTail(front: Template, back: Template)
    requires AtMostOneCatchAll(front) && AtMostOneCatchAll(back)
    ensures !TailOfCatchAlls(front, back)
  {
    WalkShape(front, back);
    var f, b := Walk(front, back).0, Walk(front, back).1;
    assert |f| >= 2 ==> !(f[0] == CatchAll && f[1] == CatchAll);
    assert |b| >= 2 ==> !(b[0] == CatchAll && b[1] == CatchAll);
  }

  /** At a catch-all, with at most one in each template, meeting is fitting ends and enough segments. */
  lemma MeetsOne(front: Template, back: Template)
    requires RealTemplate(front) && RealTemplate(back) && AtCatchAll(front, back)
    requires AtMostOneCatchAll(front) && AtMostOneCatchAll(back)
    ensures Meets(front, back) <==>
            && EndsFit(front, back)
            && (HasCatchAll(back) || |front| - 1 <= |back|)
            && (HasCatchAll(front) || |back| - 1 <= |front|)
  {
    EndsFitSymmetric(front, back);
    assert front[0] in front && back[0] in back;
    if !HasCatchAll(back) {
      ExpandsOne(front, back);
    } else if !HasCatchAll(front) {
      ExpandsOne(back, front);
    }
  }

  /** With at most one catch-all in each template the answer is wrong exactly when the walk meets a
      catch-all and, from the end, a pair of parts does not fit, or a template without a catch-all is
      shorter than the other's end. It is then always a match that no path fits. */
  lemma OneCatchAllEach(front: Template, back: Template)
    requires RealTemplate(front) && RealTemplate(back)
    requires AtMostOneCatchAll(front) && AtMostOneCatchAll(back)
    ensures Compatible(front, back) ==> Matches(front, back)
    ensures Matches(front, back) && !Compatible(front, back) <==>
            var f, b := Walk(front, back).0, Walk(front, back).1;
            && AtCatchAll(f, b)
            && (|| !EndsFit(f, b)
                || (!HasCatchAll(b) && |b| < |f| - 1)
                || (!HasCatchAll(f) && |f| < |b| - 1))
  {
    var f, b := Walk(front, back).0, Walk(front, back).1;
    NoTail(front, back);
    WalkShape(front, back);
    MissedIff(front, back);
    OverreportedIff(front, back);
    if AtCatchAll(f, b) {
      MeetsOne(f, b);
    }
  }

  lemma LastEndsFit(front: Template, back: Template)
    requires AtCatchAll(front, back) && CatchAllOnlyLast(front) && CatchAllOnlyLast(back)
    ensures EndsFit(front, back) && (front == [CatchAll] || back == [CatchAll])
  {
    if front[0].CatchAll? {
      assert front == [CatchAll];
    } else {
      assert back == [CatchAll];
    }
  }

  /** With catch-alls only in last position the answer is always right. */
  lemma TrailingJudged(front: Template, back: Template)
    requires RealTemplate(front) && RealTemplate(back)
    requires CatchAllOnlyLast(front) && CatchAllOnlyLast(back)
    ensures RightlyJudged(front, back)
  {
    NoTail(front, back);
    WalkShape(front, back);
    var f, b := Walk(front, back).0, Walk(front, back).1;
    if AtCatchAll(f, b) {
      LastEndsFit(f, b);
      MeetsOne(f, b);
    }
  }

  // ------------------------------------------------------------- the two errors

  lemma Lone(path: seq<string>, text: string)
    requires Instance(path, [Literal(text)])
    ensures path == [text]
  {
    SingleInstance(path, Literal(text));
  }

  /** A catch-all followed by the literal `a` matches every other literal `b`, although no path fits both. */
  lemma LeadingCatchAllMisjudged(a: string, b: string)
    requires a != b
    ensures Matches([CatchAll, Literal(a)], [Literal(b)]) && !Compatible([CatchAll, Literal(a)], [Literal(b)])
  {
    var front := [CatchAll, Literal(a)];
    if Compatible(front, [Literal(b)]) {
      var path :| Shared(path, front, [Literal(b)]);
      Lone(path, b);
      LastSegment(path, front);
    }
  }

  /** The same with `a` on both sides is judged rightly. */
  lemma LeadingCatchAllJudged(a: string, b: string)
    requires RealSegment(a) && RealSegment(b)
    ensures RightlyJudged([CatchAll, Literal(a)], [Literal(b), Literal(a)])
  {
    var front, back := [CatchAll, Literal(a)], [Literal(b), Literal(a)];
    assert front[0] in front && !HasCatchAll(back) && EndsStopped(front[..1], back[..1]);
    assert EndsFit(front, back);
    NoTail(front, back);
    MeetsOne(front, back);
    assert Walk(front, back) == (front, back);
    assert Meets(front, back);
    assert !TailOfCatchAlls(front, back);
    assert RightlyJudged(front, back);
  }

  /** The literal `a` does not match `a` followed by two catch-alls, although the path `a` fits both. */
  lemma TwoCatchAllsMisjudged(a: string)
    requires RealSegment(a)
    ensures !Matches([Literal(a)], [Literal(a), CatchAll, CatchAll])
    ensures Compatible([Literal(a)], [Literal(a), CatchAll, CatchAll])
  {
    var front, back := [Literal(a)], [Literal(a), CatchAll, CatchAll];
    assert front[1..] == [] && back[1..] == [CatchAll, CatchAll];
    assert Walk(front[1..], back[1..]) == (front[1..], back[1..]);
    assert TailOfCatchAlls(front, back);
    MissedIff(front, back);
  }
}
