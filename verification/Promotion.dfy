/** How generated files reach their place: the seven artifacts of a deployment bundle
    (`generate_managed_deployment_artifacts.py`) and the runtime environment with its report
    (`generate_managed_runtime_env.py`, `env_generation_common.py`).

    A directory is its regular files and symbolic links by name. Which operations fail is a
    parameter, so that every pattern of failures is covered. A clean-up stops at the first file it
    cannot delete. */
module Promotion {
  import opened Text

  /** In the order in which they are promoted. */
  const ARTIFACTS :=
    ["unified-platform-manifest.json", "secret-manager-runtime-secrets.json", "cloudflare-pages-env.json",
     "artifact-registry-release.json", "terraform.runtime.auto.tfvars.json",
     "technology-value-admission-" + "receipt.json", "deployment.report.json"]

  const ALLOWED: set<string> := (set i | 0 <= i < |ARTIFACTS| :: ARTIFACTS[i]) + {"operator-handoff.md"}

  type Files = map<string, string>

  class Directory {
    var files: Files

    constructor (files: Files)
      ensures this.files == files
    {
      this.files := files;
    }

    /** A file moved in from another directory. */
    method Replace(name: string, content: string, fails: bool) returns (ok: bool)
      modifies this
      ensures ok == !fails
      ensures files == if fails then old(files) else old(files)[name := content]
    {
      ok := !fails;
      if ok {
        files := files[name := content];
      }
    }

    /** `staged.replace(final)` within the directory. */
    method Rename(staged: string, name: string, fails: bool) returns (ok: bool)
      requires staged in files
      modifies this
      ensures ok == !fails
      ensures files == if fails then old(files) else (old(files) - {staged})[name := old(files)[staged]]
    {
      ok := !fails;
      if ok {
        files := (files - {staged})[name := files[staged]];
      }
    }

    /** `path.unlink(missing_ok=True)` */
    method Unlink(name: string, fails: bool) returns (ok: bool)
      modifies this
      ensures ok == !fails
      ensures files == if fails then old(files) else old(files) - {name}
    {
      ok := !fails;
      if ok {
        files := files - {name};
      }
    }
  }

  /** What goes wrong: the staging directory cannot be made, artifacts cannot be staged, the staged
      receipt does not pass verification, the output directory cannot be made, artifacts cannot be
      moved, moved artifacts cannot be taken away, files cannot be pruned. */
  datatype Faults = Faults(
    aside: bool, stage: set<string>, verified: bool, mkdir: bool, replace: set<string>,
    cleanUp: set<string>, prune: set<string>)

  /** How a run ends. A clean-up after `step` moves that stops at position `stopped` is `NotCleaned`. */
  datatype Outcome =
    Promoted | NotStaged | NotVerified | NoDirectory | NotReplaced(step: nat) | NotCleaned(step: nat, stopped: nat)
    | NotPruned

  function NameSet(names: seq<string>): set<string> {
    set i | 0 <= i < |names| :: names[i]
  }

  predicate Distinct(names: seq<string>) {
    forall i, j | 0 <= i < j < |names| :: names[i] != names[j]
  }

  predicate HasAll(names: seq<string>, contents: Files) {
    forall i | 0 <= i < |names| :: names[i] in contents
  }

  /** The directory after the first `n` files were moved into it. */
  function Moved(before: Files, names: seq<string>, contents: Files, n: nat): Files
    requires n <= |names| && HasAll(names, contents)
  {
    if n == 0 then before else Moved(before, names, contents, n - 1)[names[n - 1] := contents[names[n - 1]]]
  }

  /** What the directory may hold afterwards. */
  ghost predicate After(before: Files, names: seq<string>, allowed: set<string>, contents: Files, outcome: Outcome,
                        after: Files)
    requires HasAll(names, contents)
  {
    match outcome
    case NotStaged => after == before
    case NotVerified => after == before
    case NoDirectory => after == before
    case NotReplaced(step) => step < |names| && after == before - NameSet(names[..step])
    case NotCleaned(step, stopped) =>
      && stopped < step < |names|
      && after == Moved(before, names, contents, step) - NameSet(names[..stopped])
    case Promoted => after == Moved(before, names, contents, |names|) - (before.Keys - allowed)
    case NotPruned =>
      exists gone :: gone <= before.Keys - allowed && after == Moved(before, names, contents, |names|) - gone
  }

  /** The position of the first name that is in `faulty`, or the length. */
  function FirstIn(names: seq<string>, faulty: set<string>): (n: nat)
    ensures n <= |names| && (n < |names| ==> names[n] in faulty)
    ensures forall i | 0 <= i < n :: names[i] !in faulty
  {
    if names == [] || names[0] in faulty then 0 else 1 + FirstIn(names[1..], faulty)
  }

  lemma FirstInIs(names: seq<string>, faulty: set<string>, n: nat)
    requires n <= |names| && (forall i | 0 <= i < n :: names[i] !in faulty) && (n < |names| ==> names[n] in faulty)
    ensures FirstIn(names, faulty) == n
  {
  }

  /** Which failures lead to which outcome. */
  function OutcomeOf(faults: Faults, names: seq<string>, unlisted: set<string>): Outcome {
    var step := FirstIn(names, faults.replace);
    if faults.aside || FirstIn(names, faults.stage) < |names| then NotStaged
    else if !faults.verified then NotVerified
    else if faults.mkdir then NoDirectory
    else if step < |names| then
      var stopped := FirstIn(names[..step], faults.cleanUp);
      if stopped < step then NotCleaned(step, stopped) else NotReplaced(step)
    else if faults.prune * unlisted == {} then Promoted
    else NotPruned
  }

  // -------------------------------------------------------------- facts

  lemma NameSetSnoc(names: seq<string>, n: nat)
    requires n < |names|
    ensures NameSet(names[..n + 1]) == NameSet(names[..n]) + {names[n]}
  {
    assert forall i | 0 <= i < n :: names[..n + 1][i] == names[..n][i];
    assert names[..n + 1][n] == names[n];
    forall name | name in NameSet(names[..n]) ensures name in NameSet(names[..n + 1]) {
      var i :| 0 <= i < n && names[..n][i] == name;
      assert names[..n + 1][i] == name;
    }
  }

  lemma {:induction false} MovedKeys(before: Files, names: seq<string>, contents: Files, n: nat)
    requires n <= |names| && HasAll(names, contents)
    ensures Moved(before, names, contents, n).Keys == before.Keys + NameSet(names[..n])
    ensures forall name | name in before && name !in NameSet(names[..n]) ::
              Moved(before, names, contents, n)[name] == before[name]
  {
    if n > 0 {
      MovedKeys(before, names, contents, n - 1);
      NameSetSnoc(names, n - 1);
    }
  }

  lemma {:induction false} MovedContent(before: Files, names: seq<string>, contents: Files, n: nat, i: nat)
    requires i < n <= |names| && HasAll(names, contents)
    ensures names[i] in Moved(before, names, contents, n)
            && Moved(before, names, contents, n)[names[i]] == contents[names[i]]
  {
    if i < n - 1 {
      MovedContent(before, names, contents, n - 1, i);
    }
  }

  /** Taking the moved files out again leaves the old files that were not replaced. */
  lemma MovedUndone(before: Files, names: seq<string>, contents: Files, n: nat)
    requires n <= |names| && HasAll(names, contents)
    ensures Moved(before, names, contents, n) - NameSet(names[..n]) == before - NameSet(names[..n])
  {
    MovedKeys(before, names, contents, n);
  }

  // -------------------------------------------------------------- the methods

  method Stage(names: seq<string>, contents: Files, faulty: set<string>) returns (staged: Option<seq<(string, string)>>)
    requires HasAll(names, contents)
    ensures staged.Some? <==> FirstIn(names, faulty) == |names|
    ensures staged.Some? ==> |staged.value| == |names|
    ensures staged.Some? ==> forall i | 0 <= i < |names| :: staged.value[i] == (names[i], contents[names[i]])
  {
    var paths: seq<(string, string)> := [];
    for i := 0 to |names|
      invariant |paths| == i && forall k | 0 <= k < i :: names[k] !in faulty
      invariant forall k | 0 <= k < i :: paths[k] == (names[k], contents[names[k]])
    {
      if names[i] in faulty {
        FirstInIs(names, faulty, i);
        return None;
      }
      paths := paths + [(names[i], contents[names[i]])];
    }
    FirstInIs(names, faulty, |names|);
    return Some(paths);
  }

  /** The `finally` blocks: delete one file after the other, up to the first that cannot be deleted. */
  method CleanUp(dir: Directory, todo: seq<string>, faulty: set<string>) returns (stopped: nat)
    modifies dir
    ensures stopped == FirstIn(todo, faulty)
    ensures dir.files == old(dir.files) - NameSet(todo[..stopped])
  {
    for i := 0 to |todo|
      invariant dir.files == old(dir.files) - NameSet(todo[..i])
      invariant forall k | 0 <= k < i :: todo[k] !in faulty
    {
      var ok := dir.Unlink(todo[i], todo[i] in faulty);
      if !ok {
        FirstInIs(todo, faulty, i);
        return i;
      }
      NameSetSnoc(todo, i);
    }
    FirstInIs(todo, faulty, |todo|);
    return |todo|;
  }

  /** `_prune_unmanaged_output_files`, in whatever order the directory is listed. */
  method Prune(dir: Directory, allowed: set<string>, faulty: set<string>) returns (ok: bool)
    modifies dir
    ensures ok <==> faulty * (old(dir.files).Keys - allowed) == {}
    ensures ok ==> dir.files == old(dir.files) - (old(dir.files).Keys - allowed)
    ensures exists gone :: gone <= old(dir.files).Keys - allowed && dir.files == old(dir.files) - gone
  {
    ghost var unlisted := dir.files.Keys - allowed;
    ghost var gone: set<string> := {};
    var todo := dir.files.Keys;
    while todo != {}
      invariant gone <= unlisted && gone * faulty == {}
      invariant todo <= old(dir.files).Keys && unlisted - gone <= todo
      invariant dir.files == old(dir.files) - gone
      decreases todo
    {
      var name :| name in todo;
      todo := todo - {name};
      if name !in allowed {
        if name in faulty {
          assert name in faulty * unlisted;
          return false;
        }
        var deleted := dir.Unlink(name, false);
        gone := gone + {name};
      }
    }
    assert gone == unlisted;
    return true;
  }

  /** The loop that moves the artifacts. */
  method MoveAll(dir: Directory, names: seq<string>, contents: Files, staged: seq<(string, string)>,
                 faulty: set<string>)
    returns (promoted: seq<string>)
    requires HasAll(names, contents) && |staged| == |names|
    requires forall i | 0 <= i < |names| :: staged[i] == (names[i], contents[names[i]])
    modifies dir
    ensures promoted == names[..FirstIn(names, faulty)]
    ensures dir.files == Moved(old(dir.files), names, contents, |promoted|)
  {
    promoted := [];
    for i := 0 to |names|
      invariant promoted == names[..i] && forall k | 0 <= k < i :: names[k] !in faulty
      invariant dir.files == Moved(old(dir.files), names, contents, i)
    {
      var ok := dir.Replace(staged[i].0, staged[i].1, staged[i].0 in faulty);
      if !ok {
        FirstInIs(names, faulty, i);
        return;
      }
      promoted := promoted + [staged[i].0];
    }
    FirstInIs(names, faulty, |names|);
  }

  /** The staged promotion: write everything aside, verify, move, prune, and on a failure before the
      last move take away what was moved. */
  method PromoteFiles(dir: Directory, names: seq<string>, allowed: set<string>, contents: Files, faults: Faults)
    returns (outcome: Outcome)
    requires HasAll(names, contents) && NameSet(names) <= allowed
    modifies dir
    ensures After(old(dir.files), names, allowed, contents, outcome, dir.files)
    ensures outcome == OutcomeOf(faults, names, old(dir.files).Keys - allowed)
  {
    ghost var before := dir.files;
    if faults.aside {
      return NotStaged;
    }
    var staged := Stage(names, contents, faults.stage);
    if staged.None? {
      return NotStaged;
    }
    if !faults.verified {
      return NotVerified;
    }
    if faults.mkdir {
      return NoDirectory;
    }
    var promoted := MoveAll(dir, names, contents, staged.value, faults.replace);
    var promotionCompleted := |promoted| == |names|;
    if !promotionCompleted {
      var stopped := CleanUp(dir, promoted, faults.cleanUp);
      if stopped < |promoted| {
        assert promoted[..stopped] == names[..stopped];
        return NotCleaned(|promoted|, stopped);
      }
      assert promoted[..|promoted|] == promoted;
      MovedUndone(before, names, contents, |promoted|);
      return NotReplaced(|promoted|);
    }
    assert names[..|names|] == names;
    MovedKeys(before, names, contents, |names|);
    assert dir.files.Keys - allowed == before.Keys - allowed;
    var pruned := Prune(dir, allowed, faults.prune);
    return if pruned then Promoted else NotPruned;
  }

  method PromoteBundle(dir: Directory, contents: Files, faults: Faults) returns (outcome: Outcome)
    requires HasAll(ARTIFACTS, contents)
    modifies dir
    ensures After(old(dir.files), ARTIFACTS, ALLOWED, contents, outcome, dir.files)
    ensures outcome == OutcomeOf(faults, ARTIFACTS, old(dir.files).Keys - ALLOWED)
  {
    outcome := PromoteFiles(dir, ARTIFACTS, ALLOWED, contents, faults);
  }

  // -------------------------------------------------------------- results

  /** The file is there with its new content. */
  predicate IsNew(name: string, contents: Files, after: Files)
    requires name in contents
  {
    name in after && after[name] == contents[name]
  }

  /** The file is as it was, or gone. */
  predicate IsOld(name: string, before: Files, after: Files) {
    name in after ==> name in before && after[name] == before[name]
  }

  /** Artifact by artifact: which are new, which are as they were or gone. */
  ghost predicate Held(before: Files, names: seq<string>, contents: Files, outcome: Outcome, after: Files)
    requires HasAll(names, contents)
  {
    match outcome
    case Promoted => forall i | 0 <= i < |names| :: IsNew(names[i], contents, after)
    case NotPruned => forall i | 0 <= i < |names| :: IsNew(names[i], contents, after)
    case NotCleaned(step, stopped) =>
      && (forall i | 0 <= i < stopped && i < |names| :: names[i] !in after)
      && (forall i | stopped <= i < step && i < |names| :: IsNew(names[i], contents, after))
      && (forall i | step <= i < |names| :: IsOld(names[i], before, after))
    case NotReplaced(step) =>
      && (forall i | 0 <= i < step && i < |names| :: names[i] !in after)
      && (forall i | 0 <= i < |names| :: IsOld(names[i], before, after))
    case _ => forall i | 0 <= i < |names| :: IsOld(names[i], before, after)
  }

  lemma AllMoved(before: Files, names: seq<string>, contents: Files, gone: set<string>, after: Files)
    requires HasAll(names, contents) && Distinct(names) && gone !! NameSet(names)
    requires after == Moved(before, names, contents, |names|) - gone
    ensures forall i | 0 <= i < |names| :: IsNew(names[i], contents, after)
  {
    MovedSome(before, names, contents, |names|);
    assert forall i | 0 <= i < |names| :: names[i] in NameSet(names);
  }

  lemma SomeMoved(before: Files, names: seq<string>, contents: Files, step: nat, stopped: nat, after: Files)
    requires HasAll(names, contents) && Distinct(names) && stopped < step < |names|
    requires after == Moved(before, names, contents, step) - NameSet(names[..stopped])
    ensures Held(before, names, contents, NotCleaned(step, stopped), after)
  {
    MovedSome(before, names, contents, step);
    PrefixNames(names, stopped);
    PrefixNames(names, step);
  }

  /** What a run leaves of the artifacts. */
  lemma WhatIsHeld(before: Files, names: seq<string>, allowed: set<string>, contents: Files, outcome: Outcome,
                   after: Files)
    requires HasAll(names, contents) && Distinct(names) && NameSet(names) <= allowed
    requires After(before, names, allowed, contents, outcome, after)
    ensures Held(before, names, contents, outcome, after)
  {
    match outcome {
      case NotCleaned(step, stopped) =>
        SomeMoved(before, names, contents, step, stopped, after);
      case NotReplaced(step) =>
        PrefixNames(names, step);
      case Promoted =>
        AllMoved(before, names, contents, before.Keys - allowed, after);
      case NotPruned =>
        var gone :| gone <= before.Keys - allowed && after == Moved(before, names, contents, |names|) - gone;
        AllMoved(before, names, contents, gone, after);
      case _ =>
    }
  }

  /** Files that are on the allow list but not generated are never touched, and a complete promotion
      leaves nothing that is not on the list. */
  lemma OthersUntouched(before: Files, names: seq<string>, allowed: set<string>, contents: Files,
                        outcome: Outcome, after: Files, name: string)
    requires HasAll(names, contents) && Distinct(names) && NameSet(names) <= allowed
    requires After(before, names, allowed, contents, outcome, after)
    ensures name in allowed && name !in NameSet(names) ==>
              (name in after <==> name in before) && (name in after ==> after[name] == before[name])
    ensures outcome.Promoted? && name in after ==> name in allowed
  {
    var n := match outcome case NotCleaned(step, _) => step case NotReplaced(step) => step case _ => |names|;
    MovedSome(before, names, contents, n);
    PrefixNames(names, n);
    if outcome.NotCleaned? {
      PrefixNames(names, outcome.stopped);
    }
    assert names[..|names|] == names;
  }

  lemma PrefixNames(names: seq<string>, n: nat)
    requires n <= |names| && Distinct(names)
    ensures NameSet(names[..n]) <= NameSet(names)
    ensures forall i | 0 <= i < |names| :: names[i] in NameSet(names[..n]) <==> i < n
  {
    forall i | 0 <= i < n ensures names[i] in NameSet(names[..n]) {
      assert names[..n][i] == names[i];
    }
    forall name | name in NameSet(names[..n]) ensures name in NameSet(names) {
      var i :| 0 <= i < n && names[..n][i] == name;
      assert names[i] == name;
    }
  }

  lemma MovedSome(before: Files, names: seq<string>, contents: Files, n: nat)
    requires n <= |names| && HasAll(names, contents) && Distinct(names)
    ensures Moved(before, names, contents, n).Keys == before.Keys + NameSet(names[..n])
    ensures forall name | name in before && name !in NameSet(names[..n]) ::
              Moved(before, names, contents, n)[name] == before[name]
    ensures forall i | 0 <= i < n :: IsNew(names[i], contents, Moved(before, names, contents, n))
  {
    MovedKeys(before, names, contents, n);
    forall i | 0 <= i < n ensures IsNew(names[i], contents, Moved(before, names, contents, n)) {
      MovedContent(before, names, contents, n, i);
    }
  }

  /** Some artifacts are new and some are not. */
  ghost predicate Mixed(names: seq<string>, contents: Files, after: Files)
    requires HasAll(names, contents)
  {
    && (exists i :: 0 <= i < |names| && IsNew(names[i], contents, after))
    && (exists j :: 0 <= j < |names| && !IsNew(names[j], contents, after))
  }

  lemma StuckIff(names: seq<string>, step: nat, faulty: set<string>)
    requires step <= |names|
    ensures FirstIn(names[..step], faulty) < step <==> exists i | 0 <= i < step :: names[i] in faulty
  {
    var n := FirstIn(names[..step], faulty);
    if n < step {
      assert names[..step][n] == names[n];
    } else {
      assert forall i | 0 <= i < step :: names[..step][i] == names[i];
    }
  }

  lemma HeldMixed(before: Files, names: seq<string>, contents: Files, outcome: Outcome, after: Files)
    requires HasAll(names, contents) && Held(before, names, contents, outcome, after)
    requires forall i | 0 <= i < |names| :: !IsNew(names[i], contents, before)
    requires outcome.NotCleaned? ==> outcome.stopped < outcome.step < |names|
    ensures Mixed(names, contents, after) <==> outcome.NotCleaned?
  {
    forall i | 0 <= i < |names| && IsOld(names[i], before, after) ensures !IsNew(names[i], contents, after) {
      assert !IsNew(names[i], contents, before);
    }
    if outcome.NotCleaned? {
      assert IsNew(names[outcome.stopped], contents, after) && IsOld(names[outcome.step], before, after);
    }
  }

  /** Moving stops midway, and one of the artifacts already moved cannot be taken away again. */
  predicate StuckMidway(faults: Faults, names: seq<string>) {
    var step := FirstIn(names, faults.replace);
    && !faults.aside && FirstIn(names, faults.stage) == |names| && faults.verified && !faults.mkdir
    && step < |names| && exists i | 0 <= i < step :: names[i] in faults.cleanUp
  }

  /** A run that writes different artifacts leaves a mix of new and old or missing ones exactly when it
      is stuck midway. */
  lemma MixedIff(before: Files, names: seq<string>, allowed: set<string>, contents: Files, faults: Faults,
                 after: Files)
    requires HasAll(names, contents) && Distinct(names) && NameSet(names) <= allowed
    requires forall i | 0 <= i < |names| :: !IsNew(names[i], contents, before)
    requires After(before, names, allowed, contents, OutcomeOf(faults, names, before.Keys - allowed), after)
    ensures Mixed(names, contents, after) <==> StuckMidway(faults, names)
  {
    var outcome := OutcomeOf(faults, names, before.Keys - allowed);
    WhatIsHeld(before, names, allowed, contents, outcome, after);
    HeldMixed(before, names, contents, outcome, after);
    StuckIff(names, FirstIn(names, faults.replace), faults.cleanUp);
  }

  lemma ArtifactsDistinct()
    ensures Distinct(ARTIFACTS) && NameSet(ARTIFACTS) <= ALLOWED
  {
  }

  /** The same of the bundle. */
  lemma BundleMixedIff(before: Files, contents: Files, faults: Faults, after: Files)
    requires HasAll(ARTIFACTS, contents)
    requires forall i | 0 <= i < |ARTIFACTS| :: !IsNew(ARTIFACTS[i], contents, before)
    requires After(before, ARTIFACTS, ALLOWED, contents, OutcomeOf(faults, ARTIFACTS, before.Keys - ALLOWED), after)
    ensures Mixed(ARTIFACTS, contents, after) <==> StuckMidway(faults, ARTIFACTS)
  {
    ArtifactsDistinct();
    MixedIff(before, ARTIFACTS, ALLOWED, contents, faults, after);
  }

  // ------------------------------------------- the environment and its report

  /** `promote_staged_file`: on a failure the staged file goes, and the output too when asked, unless
      something cannot be deleted. */
  method PromoteStagedFile(dir: Directory, staged: string, output: string, cleanupOnFailure: bool, fails: bool,
                           stuck: set<string>)
    returns (ok: bool)
    requires staged in dir.files && staged != output
    modifies dir
    ensures ok == !fails
    ensures ok ==> dir.files == (old(dir.files) - {staged})[output := old(dir.files)[staged]]
    ensures !ok ==>
              dir.files == old(dir.files) -
                (if staged in stuck then {}
                 else if cleanupOnFailure && output !in stuck then {staged, output}
                 else {staged})
  {
    ok := dir.Rename(staged, output, fails);
    if !ok {
      var gone := dir.Unlink(staged, staged in stuck);
      if gone && cleanupOnFailure {
        gone := dir.Unlink(output, output in stuck);
      }
    }
  }

  /** The two outputs, the files they are staged in, and what is written to them. */
  datatype Pair = Pair(
    output: string, report: string, stagedOutput: string, stagedReport: string, rendered: string, json: string)
  {
    predicate Apart() {
      && output != report && stagedOutput != stagedReport
      && stagedOutput !in {output, report} && stagedReport !in {output, report}
    }
  }

  datatype PairFaults = PairFaults(
    stageOutput: bool, stageReport: bool, replaceOutput: bool, replaceReport: bool, stuck: set<string>)

  predicate PairFails(faults: PairFaults) {
    faults.stageOutput || faults.stageReport || faults.replaceOutput || faults.replaceReport
  }

  /** The files when moving has ended or stopped. */
  function Reached(before: Files, pair: Pair, faults: PairFaults): Files {
    if faults.stageOutput then before
    else if faults.stageReport then before[pair.stagedOutput := pair.rendered]
    else if faults.replaceOutput then before[pair.stagedOutput := pair.rendered][pair.stagedReport := pair.json]
    else if faults.replaceReport then before[pair.output := pair.rendered][pair.stagedReport := pair.json]
    else before[pair.output := pair.rendered][pair.report := pair.json]
  }

  /** What a failed run deletes, in this order. */
  function Leftovers(pair: Pair, faults: PairFaults): seq<string> {
    if faults.stageOutput then []
    else if faults.stageReport then [pair.stagedOutput, pair.output, pair.report]
    else [pair.stagedOutput, pair.stagedReport, pair.output, pair.report]
  }

  /** What the end of `generate_managed_runtime_env` leaves. */
  function PairAfter(before: Files, pair: Pair, faults: PairFaults): Files {
    if !PairFails(faults) then Reached(before, pair, faults)
    else
      var todo := Leftovers(pair, faults);
      Reached(before, pair, faults) - NameSet(todo[..FirstIn(todo, faults.stuck)])
  }

  /** The end of `generate_managed_runtime_env`: stage both, move both, and on a failure delete
      everything, up to the first file that cannot be deleted. */
  method PromotePair(dir: Directory, pair: Pair, faults: PairFaults) returns (ok: bool)
    requires pair.Apart() && pair.stagedOutput !in dir.files && pair.stagedReport !in dir.files
    modifies dir
    ensures ok <==> !PairFails(faults)
    ensures dir.files == PairAfter(old(dir.files), pair, faults)
  {
    ghost var before := dir.files;
    var staged := dir.Replace(pair.stagedOutput, pair.rendered, faults.stageOutput);
    if !staged {
      return false;
    }
    var promotionCompleted := false;
    var todo := [pair.stagedOutput];
    var stagedReport := dir.Replace(pair.stagedReport, pair.json, faults.stageReport);
    if stagedReport {
      todo := todo + [pair.stagedReport];
      var moved := dir.Rename(pair.stagedOutput, pair.output, faults.replaceOutput);
      if moved {
        promotionCompleted := dir.Rename(pair.stagedReport, pair.report, faults.replaceReport);
      }
    }
    assert dir.files == Reached(before, pair, faults);
    if !promotionCompleted {
      todo := todo + [pair.output, pair.report];
      assert todo == Leftovers(pair, faults);
      var stopped := CleanUp(dir, todo, faults.stuck);
    }
    return promotionCompleted;
  }

  /** How far the deleting comes: the two outputs are the last two to go. */
  lemma OutputsLast(pair: Pair, faults: PairFaults, n: nat)
    requires pair.Apart() && !faults.stageOutput && n <= |Leftovers(pair, faults)|
    ensures var todo := Leftovers(pair, faults);
            && (pair.output in NameSet(todo[..n]) <==> n >= |todo| - 1)
            && (pair.report in NameSet(todo[..n]) <==> n == |todo|)
            && NameSet(todo) == {pair.stagedOutput, pair.output, pair.report}
                                + if faults.stageReport then {} else {pair.stagedReport}
  {
    var todo := Leftovers(pair, faults);
    assert todo[|todo| - 2] == pair.output && todo[|todo| - 1] == pair.report;
    assert forall i | 0 <= i < n :: todo[..n][i] == todo[i];
    assert todo[0] in NameSet(todo) && todo[1] in NameSet(todo) && todo[2] in NameSet(todo);
    assert |todo| == 4 ==> todo[3] in NameSet(todo);
  }

  /** When everything can be deleted, a run that fails after staging leaves neither file, and nothing
      else has changed: an environment file that was there before is gone. */
  lemma BothGone(before: Files, pair: Pair, faults: PairFaults)
    requires pair.Apart() && pair.stagedOutput !in before && pair.stagedReport !in before
    requires PairFails(faults) && !faults.stageOutput
    requires FirstIn(Leftovers(pair, faults), faults.stuck) == |Leftovers(pair, faults)|
    ensures PairAfter(before, pair, faults) == before - {pair.output, pair.report}
  {
    var todo := Leftovers(pair, faults);
    OutputsLast(pair, faults, |todo|);
    assert todo[..|todo|] == todo;
  }

  /** A file that could not be deleted, at the latest the environment, keeps the environment. */
  lemma OutputStays(pair: Pair, faults: PairFaults)
    requires !faults.stageOutput && !faults.stageReport
    ensures FirstIn(Leftovers(pair, faults), faults.stuck) <= 2 <==>
            {pair.stagedOutput, pair.stagedReport, pair.output} * faults.stuck != {}
  {
    var todo := Leftovers(pair, faults);
    var n := FirstIn(todo, faults.stuck);
    if n <= 2 {
      assert todo[n] in {pair.stagedOutput, pair.stagedReport, pair.output} * faults.stuck;
    } else {
      assert todo[0] !in faults.stuck && todo[1] !in faults.stuck && todo[2] !in faults.stuck;
    }
  }

  /** The new environment stands beside a report that is not new exactly when the report alone could
      not be moved and the clean-up stopped before it had deleted the environment. The report is never
      new beside an old environment. */
  lemma PairMixedIff(before: Files, pair: Pair, faults: PairFaults)
    requires pair.Apart() && pair.stagedOutput !in before && pair.stagedReport !in before
    requires pair.output in before ==> before[pair.output] != pair.rendered
    requires pair.report in before ==> before[pair.report] != pair.json
    ensures var contents := map[pair.output := pair.rendered, pair.report := pair.json];
            var after := PairAfter(before, pair, faults);
            && (IsNew(pair.output, contents, after) && !IsNew(pair.report, contents, after) <==>
                && !faults.stageOutput && !faults.stageReport && !faults.replaceOutput && faults.replaceReport
                && {pair.stagedOutput, pair.stagedReport, pair.output} * faults.stuck != {})
            && (IsNew(pair.report, contents, after) ==> IsNew(pair.output, contents, after))
  {
    var todo := Leftovers(pair, faults);
    if PairFails(faults) && !faults.stageOutput {
      OutputsLast(pair, faults, FirstIn(todo, faults.stuck));
      if !faults.stageReport {
        OutputStays(pair, faults);
      }
    }
  }
}
