/** Many runs of `cla_assistant.py` against one repository.

    GitHub is a store of blobs named by their sha: a sha always stands for the same content, a file
    is a sha, and a write is accepted only when the sha it supplies is the file's, or when it supplies
    none and there is no file. Only runs write the signature file. A schedule is any list of actions
    of any number of runs; an action that is not possible where it stands leaves the world as it is. */
module ClaProtocol {
  import opened JsonValue
  import opened Text
  import opened ClaRegister
  import opened ClaReview

  datatype Config = Config(fold: Fold, show: Json -> string, allowlist: seq<string>)

  /** What a file holds: JSON, or bytes that `json.loads` rejects. */
  datatype Blob = Parsed(payload: Json) | Unreadable

  datatype Phase =
    | Started
    | BranchMissing
    | BranchKnown
    | Loaded(signatures: seq<Entry>, sha: Option<string>)
    | Recorded(signatures: seq<Entry>)
    | Evaluated(author: string, commits: seq<Json>, state: State)
    | Finished
    | Aborted

  /** `signing` is the entry to record when the event is a comment with the exact phrase. */
  datatype Run = Run(signing: Option<Entry>, phase: Phase)

  datatype Status = Status(id: nat, author: string, commits: seq<Json>, success: bool)

  /** `accepted` lists the entries of the writes that were accepted, `posted` the commit statuses. */
  datatype World = World(
    blobs: map<string, Blob>, branch: bool, file: Option<string>, runs: map<nat, Run>,
    accepted: seq<Entry>, posted: seq<Status>)

  datatype Action =
    | Start(id: nat, signing: Option<Entry>)
    | CheckBranch(id: nat)
    | CreateBranch(id: nat, seed: Option<string>) // the branch starts with the default branch's file
    | Load(id: nat)
    | Write(id: nat, sha: string, answered: bool) // an unanswered write takes effect, but the run fails
    | ListCommits(id: nat, author: string, commits: seq<Json>)
    | PostStatus(id: nat)
    | Fail(id: nat)

  function Move(w: World, id: nat, phase: Phase): World
    requires id in w.runs
  {
    w.(runs := w.runs[id := w.runs[id].(phase := phase)])
  }

  // --------------------------------------------------------------- the steps

  /** The first half of `_ensure_signature_branch`. */
  function DoCheckBranch(w: World, id: nat): World
    requires id in w.runs
  {
    if w.runs[id].phase != Started then w
    else Move(w, id, if w.branch then BranchKnown else BranchMissing)
  }

  /** The second half: creating a branch that exists by now is refused. */
  function DoCreateBranch(w: World, id: nat, seed: Option<string>): World
    requires id in w.runs
  {
    if w.runs[id].phase != BranchMissing || (seed.Some? && seed.value !in w.blobs) then w
    else if w.branch then Move(w, id, Aborted)
    else Move(w.(branch := true, file := seed), id, BranchKnown)
  }

  /** `_load_signatures` */
  function DoLoad(c: Config, w: World, id: nat): World
    requires id in w.runs
  {
    if w.runs[id].phase != BranchKnown then w
    else if w.file.None? then Move(w, id, Loaded([], None))
    else if w.file.value in w.blobs && w.blobs[w.file.value].Parsed? then
      Move(w, id, Loaded(Normalize(c.fold, c.show, w.blobs[w.file.value].payload), w.file))
    else Move(w, id, Aborted)
  }

  /** The signing part of `run`: the write is accepted when the loaded sha is still the file's. */
  function DoWrite(c: Config, w: World, id: nat, sha: string, answered: bool): World
    requires id in w.runs
  {
    var run := w.runs[id];
    if !run.phase.Loaded? || run.signing.None? then w
    else
      var updated := Upsert(c.fold, run.phase.signatures, run.signing.value);
      var content := Parsed(Serialize(updated));
      if !w.branch || run.phase.sha != w.file then Move(w, id, Aborted)
      else if sha == "" || (sha in w.blobs && w.blobs[sha] != content) then w // not a sha of this content
      else
        var stored := w.(blobs := w.blobs[sha := content], file := Some(sha),
                         accepted := w.accepted + [run.signing.value]);
        Move(stored, id, if answered then Recorded(updated) else Aborted)
  }

  function DoListCommits(c: Config, w: World, id: nat, author: string, commits: seq<Json>): World
    requires id in w.runs
  {
    var run := w.runs[id];
    if run.phase.Recorded? || (run.phase.Loaded? && run.signing.None?) then
      var authors := SortedKeys(CommitAuthors(c.show, commits));
      var required := CollectRequired(c.fold, author, authors, c.allowlist);
      Move(w, id, Evaluated(author, commits, Evaluate(c.fold, required, run.phase.signatures)))
    else w
  }

  function DoPostStatus(w: World, id: nat): World
    requires id in w.runs
  {
    var phase := w.runs[id].phase;
    if !phase.Evaluated? then w
    else
      var status := Status(id, phase.author, phase.commits, phase.state.IsSatisfied());
      Move(w.(posted := w.posted + [status]), id, Finished)
  }

  function Next(c: Config, w: World, a: Action): World {
    if a.Start? then
      if a.id in w.runs then w else w.(runs := w.runs[a.id := Run(a.signing, Started)])
    else if a.id !in w.runs then w
    else
      match a
      case CheckBranch(id) => DoCheckBranch(w, id)
      case CreateBranch(id, seed) => DoCreateBranch(w, id, seed)
      case Load(id) => DoLoad(c, w, id)
      case Write(id, sha, answered) => DoWrite(c, w, id, sha, answered)
      case ListCommits(id, author, commits) => DoListCommits(c, w, id, author, commits)
      case PostStatus(id) => DoPostStatus(w, id)
      case Fail(id) => Move(w, id, Aborted)
  }

  function Play(c: Config, w: World, schedule: seq<Action>): World
    decreases schedule
  {
    if schedule == [] then w else Play(c, Next(c, w, schedule[0]), schedule[1..])
  }

  /** Nothing has run yet; the branch and its file may exist already and hold anything. */
  ghost predicate Initial(w: World) {
    && w.runs == map[] && w.accepted == [] && w.posted == []
    && (w.file.Some? ==> w.branch && w.file.value in w.blobs)
  }

  /** Every signing comes from a comment: a trimmed login, integer ids and a date that is not blank. */
  predicate FromComments(schedule: seq<Action>) {
    forall i | 0 <= i < |schedule| :: FromComment(schedule[i])
  }

  predicate FromComment(a: Action) {
    a.Start? && a.signing.Some? ==> Signable(a.signing.value) && Dated(a.signing.value)
  }

  // --------------------------------------------------------------- the meaning

  /** The register as the next run to load it would see it. */
  function FileRegister(c: Config, w: World): seq<Entry> {
    if w.file.Some? && w.file.value in w.blobs && w.blobs[w.file.value].Parsed? then
      Normalize(c.fold, c.show, w.blobs[w.file.value].payload)
    else []
  }

  function FileSigners(c: Config, w: World): set<string> {
    Signers(c.fold, FileRegister(c, w))
  }

  /** Everyone who has to sign for this pull request is in the file. */
  ghost predicate Covered(c: Config, signers: set<string>, author: string, commits: seq<Json>) {
    forall login | login == Strip(author) || login in CommitAuthors(c.show, commits) ::
      login == "" || Allowed(c.fold, login, c.allowlist) || c.fold(login) in signers
  }

  // --------------------------------------------------------------- invariant

  ghost predicate RunOk(c: Config, w: World, run: Run) {
    && (run.signing.Some? ==> Signable(run.signing.value) && Dated(run.signing.value))
    && PhaseOk(c, w.blobs, FileSigners(c, w), run.phase)
  }

  ghost predicate PhaseOk(c: Config, blobs: map<string, Blob>, signers: set<string>, phase: Phase) {
    match phase
    case Loaded(signatures, sha) =>
      && Signers(c.fold, signatures) <= signers
      && (sha.None? ==> signatures == [])
      && (sha.Some? ==> && sha.value in blobs && blobs[sha.value].Parsed?
                        && signatures == Normalize(c.fold, c.show, blobs[sha.value].payload))
    case Recorded(signatures) => Signers(c.fold, signatures) <= signers
    case Evaluated(author, commits, state) => state.IsSatisfied() ==> Covered(c, signers, author, commits)
    case _ => true
  }

  ghost predicate Inv(c: Config, w: World) {
    && (w.file.Some? ==> w.branch && w.file.value in w.blobs)
    && (forall id | id in w.runs :: RunOk(c, w, w.runs[id]))
    && (forall i | 0 <= i < |w.accepted| :: Key(c.fold, w.accepted[i]) in FileSigners(c, w))
    && (forall i | 0 <= i < |w.posted| ::
          w.posted[i].success ==> Covered(c, FileSigners(c, w), w.posted[i].author, w.posted[i].commits))
  }

  /** What a step may do to the store: keep every blob and lose no signer. */
  ghost predicate Grows(c: Config, w: World, next: World) {
    && (forall sha | sha in w.blobs :: sha in next.blobs && next.blobs[sha] == w.blobs[sha])
    && FileSigners(c, w) <= FileSigners(c, next)
  }

  lemma CoveredGrows(c: Config, a: set<string>, b: set<string>, author: string, commits: seq<Json>)
    requires a <= b && Covered(c, a, author, commits)
    ensures Covered(c, b, author, commits)
  {
  }

  lemma RunOkGrows(c: Config, w: World, next: World, run: Run)
    requires RunOk(c, w, run) && Grows(c, w, next)
    ensures RunOk(c, next, run)
  {
    if run.phase.Evaluated? && run.phase.state.IsSatisfied() {
      CoveredGrows(c, FileSigners(c, w), FileSigners(c, next), run.phase.author, run.phase.commits);
    }
  }

  /** A step that moves one run, and adds neither a write nor a status, keeps the invariant. */
  lemma MoveKeeps(c: Config, w: World, next: World, id: nat)
    requires Inv(c, w) && Grows(c, w, next)
    requires next.file.Some? ==> next.branch && next.file.value in next.blobs
    requires next.runs.Keys == w.runs.Keys + {id} && RunOk(c, next, next.runs[id])
    requires forall other | other in w.runs && other != id :: next.runs[other] == w.runs[other]
    requires forall i | 0 <= i < |next.accepted| ::
               next.accepted[i] in w.accepted || Key(c.fold, next.accepted[i]) in FileSigners(c, next)
    requires forall i | 0 <= i < |next.posted| ::
               next.posted[i] in w.posted ||
               (next.posted[i].success ==> Covered(c, FileSigners(c, next), next.posted[i].author,
                                                   next.posted[i].commits))
    ensures Inv(c, next)
  {
    forall other | other in next.runs ensures RunOk(c, next, next.runs[other]) {
      if other != id {
        RunOkGrows(c, w, next, w.runs[other]);
      }
    }
    forall i | 0 <= i < |next.posted| && next.posted[i].success
      ensures Covered(c, FileSigners(c, next), next.posted[i].author, next.posted[i].commits)
    {
      if next.posted[i] in w.posted {
        var k :| 0 <= k < |w.posted| && w.posted[k] == next.posted[i];
        CoveredGrows(c, FileSigners(c, w), FileSigners(c, next), next.posted[i].author, next.posted[i].commits);
      }
    }
  }

  lemma LoadKeeps(c: Config, w: World, id: nat)
    requires Inv(c, w) && id in w.runs
    ensures Inv(c, DoLoad(c, w, id)) && Grows(c, w, DoLoad(c, w, id))
  {
    assert RunOk(c, w, w.runs[id]);
    var next := DoLoad(c, w, id);
    assert FileRegister(c, next) == FileRegister(c, w);
    if next != w {
      MoveKeeps(c, w, next, id);
    }
  }

  lemma CreateBranchKeeps(c: Config, w: World, id: nat, seed: Option<string>)
    requires Inv(c, w) && id in w.runs
    ensures Inv(c, DoCreateBranch(w, id, seed)) && Grows(c, w, DoCreateBranch(w, id, seed))
  {
    assert RunOk(c, w, w.runs[id]);
    var next := DoCreateBranch(w, id, seed);
    if next != w {
      if w.branch {
        assert FileRegister(c, next) == FileRegister(c, w);
      } else {
        assert FileSigners(c, w) == {};
      }
      MoveKeeps(c, w, next, id);
    }
  }

  /** A run whose sha is still the file's has loaded the register as it is. */
  lemma LoadedIsCurrent(c: Config, w: World, run: Run)
    requires RunOk(c, w, run) && run.phase.Loaded? && run.phase.sha == w.file
    ensures run.phase.signatures == FileRegister(c, w) && AllReadable(run.phase.signatures)
  {
    if w.file.Some? {
      NormalizedShape(c.fold, c.show, w.blobs[w.file.value].payload);
    }
  }

  lemma StoredRegister(c: Config, next: World, sha: string, register: seq<Entry>, entry: Entry)
    requires AllReadable(register) && Signable(entry) && Dated(entry)
    requires next.file == Some(sha) && sha in next.blobs
    requires next.blobs[sha] == Parsed(Serialize(Upsert(c.fold, register, entry)))
    ensures FileRegister(c, next) == Upsert(c.fold, register, Settled(entry))
    ensures FileSigners(c, next) == Signers(c.fold, register) + {Key(c.fold, entry)}
    ensures Signers(c.fold, Upsert(c.fold, register, entry)) == FileSigners(c, next)
  {
    SigningReadBack(c.fold, c.show, register, entry);
    UpsertSigners(c.fold, register, Settled(entry));
    UpsertSigners(c.fold, register, entry);
  }

  predicate Accepts(c: Config, w: World, id: nat, sha: string)
    requires id in w.runs
  {
    var run := w.runs[id];
    && run.phase.Loaded? && run.signing.Some? && sha != ""
    && (sha in w.blobs ==> w.blobs[sha] == Parsed(Serialize(Upsert(c.fold, run.phase.signatures, run.signing.value))))
    && w.branch && run.phase.sha == w.file
  }

  /** An accepted write leaves the register as the signing run would have made it of the register
      that was there, so it holds the signers of the file it replaces and the new one. */
  lemma WriteAdds(c: Config, w: World, id: nat, sha: string, answered: bool)
    requires Inv(c, w) && id in w.runs && Accepts(c, w, id, sha)
    ensures var next, entry := DoWrite(c, w, id, sha, answered), w.runs[id].signing.value;
            && FileRegister(c, next) == Upsert(c.fold, FileRegister(c, w), Settled(entry))
            && FileSigners(c, next) == FileSigners(c, w) + {Key(c.fold, entry)}
            && next.accepted == w.accepted + [entry]
            && (answered ==> next.runs[id].phase.Recorded?
                             && Signers(c.fold, next.runs[id].phase.signatures) == FileSigners(c, next))
  {
    var run := w.runs[id];
    assert RunOk(c, w, run);
    LoadedIsCurrent(c, w, run);
    StoredRegister(c, DoWrite(c, w, id, sha, answered), sha, run.phase.signatures, run.signing.value);
  }

  lemma WriteKeeps(c: Config, w: World, id: nat, sha: string, answered: bool)
    requires Inv(c, w) && id in w.runs
    ensures Inv(c, DoWrite(c, w, id, sha, answered)) && Grows(c, w, DoWrite(c, w, id, sha, answered))
  {
    assert RunOk(c, w, w.runs[id]);
    var next := DoWrite(c, w, id, sha, answered);
    if Accepts(c, w, id, sha) {
      AcceptedKeeps(c, w, id, sha, answered);
    } else if next != w {
      assert FileRegister(c, next) == FileRegister(c, w);
      MoveKeeps(c, w, next, id);
    }
  }

  lemma AcceptedGrows(c: Config, w: World, id: nat, sha: string, answered: bool)
    requires Inv(c, w) && id in w.runs && Accepts(c, w, id, sha)
    ensures var next := DoWrite(c, w, id, sha, answered);
            && Grows(c, w, next) && RunOk(c, next, next.runs[id])
            && next.file == Some(sha) && sha in next.blobs && next.branch && next.posted == w.posted
            && next.runs == w.runs[id := next.runs[id]]
  {
    assert RunOk(c, w, w.runs[id]);
    WriteAdds(c, w, id, sha, answered);
  }

  lemma AcceptedKeeps(c: Config, w: World, id: nat, sha: string, answered: bool)
    requires Inv(c, w) && id in w.runs && Accepts(c, w, id, sha)
    ensures Inv(c, DoWrite(c, w, id, sha, answered)) && Grows(c, w, DoWrite(c, w, id, sha, answered))
  {
    var next := DoWrite(c, w, id, sha, answered);
    WriteAdds(c, w, id, sha, answered);
    AcceptedGrows(c, w, id, sha, answered);
    MoveKeeps(c, w, next, id);
  }

  /** An evaluation is satisfied exactly when the register covers the pull request it was made for. */
  lemma SatisfiedIffCovered(c: Config, register: seq<Entry>, author: string, commits: seq<Json>)
    ensures var authors := SortedKeys(CommitAuthors(c.show, commits));
            Evaluate(c.fold, CollectRequired(c.fold, author, authors, c.allowlist), register).IsSatisfied() <==>
            Covered(c, Signers(c.fold, register), author, commits)
  {
    var authors := SortedKeys(CommitAuthors(c.show, commits));
    var required := CollectRequired(c.fold, author, authors, c.allowlist);
    SatisfiedIff(c.fold, required, register);
    forall login ensures login in required <==> Owes(c, author, commits, login) {
      RequiredIff(c, author, commits, login);
    }
  }

  /** Whose signature the pull request needs. */
  ghost predicate Owes(c: Config, author: string, commits: seq<Json>, login: string) {
    && (login == Strip(author) || login in CommitAuthors(c.show, commits))
    && login != "" && !Allowed(c.fold, login, c.allowlist)
  }

  lemma RequiredIff(c: Config, author: string, commits: seq<Json>, login: string)
    ensures login in CollectRequired(c.fold, author, SortedKeys(CommitAuthors(c.show, commits)), c.allowlist) <==>
            Owes(c, author, commits, login)
  {
    var authors := SortedKeys(CommitAuthors(c.show, commits));
    RequiredExactly(c.fold, author, authors, c.allowlist);
    if login in CommitAuthors(c.show, commits) {
      CommitLoginTrimmed(c.show, commits, login);
      assert login in authors;
    }
    if i :| 0 <= i < |authors| && Strip(authors[i]) == login {
      assert authors[i] in CommitAuthors(c.show, commits);
      CommitLoginTrimmed(c.show, commits, authors[i]);
    }
  }

  lemma CommitLoginTrimmed(show: Json -> string, commits: seq<Json>, login: string)
    requires login in CommitAuthors(show, commits)
    ensures Strip(login) == login
  {
    var i :| 0 <= i < |commits| && CommitLogin(show, commits[i]) == login;
    var fields := Field(commits[i].fields, "author").fields;
    var j := Field(fields, "login");
    StripTwice(if j.JStr? then j.s else show(j));
  }

  lemma ListCommitsKeeps(c: Config, w: World, id: nat, author: string, commits: seq<Json>)
    requires Inv(c, w) && id in w.runs
    ensures Inv(c, DoListCommits(c, w, id, author, commits)) && Grows(c, w, DoListCommits(c, w, id, author, commits))
  {
    var run := w.runs[id];
    assert RunOk(c, w, run);
    var next := DoListCommits(c, w, id, author, commits);
    assert FileRegister(c, next) == FileRegister(c, w);
    if next != w {
      if next.runs[id].phase.state.IsSatisfied() {
        SatisfiedIffCovered(c, run.phase.signatures, author, commits);
        CoveredGrows(c, Signers(c.fold, run.phase.signatures), FileSigners(c, w), author, commits);
      }
      MoveKeeps(c, w, next, id);
    }
  }

  lemma PostStatusKeeps(c: Config, w: World, id: nat)
    requires Inv(c, w) && id in w.runs
    ensures Inv(c, DoPostStatus(w, id)) && Grows(c, w, DoPostStatus(w, id))
  {
    assert RunOk(c, w, w.runs[id]);
    var next := DoPostStatus(w, id);
    assert FileRegister(c, next) == FileRegister(c, w);
    if next != w {
      MoveKeeps(c, w, next, id);
    }
  }

  lemma CheckBranchKeeps(c: Config, w: World, id: nat)
    requires Inv(c, w) && id in w.runs
    ensures Inv(c, DoCheckBranch(w, id)) && Grows(c, w, DoCheckBranch(w, id))
  {
    assert RunOk(c, w, w.runs[id]);
    var next := DoCheckBranch(w, id);
    assert FileRegister(c, next) == FileRegister(c, w);
    if next != w {
      MoveKeeps(c, w, next, id);
    }
  }

  lemma FailKeeps(c: Config, w: World, id: nat)
    requires Inv(c, w) && id in w.runs
    ensures Inv(c, Move(w, id, Aborted)) && Grows(c, w, Move(w, id, Aborted))
  {
    assert RunOk(c, w, w.runs[id]);
    assert FileRegister(c, Move(w, id, Aborted)) == FileRegister(c, w);
    MoveKeeps(c, w, Move(w, id, Aborted), id);
  }

  lemma StartKeeps(c: Config, w: World, a: Action)
    requires Inv(c, w) && FromComment(a) && (a.Start? || a.id !in w.runs)
    ensures Inv(c, Next(c, w, a)) && Grows(c, w, Next(c, w, a))
  {
    var next := Next(c, w, a);
    assert FileRegister(c, next) == FileRegister(c, w);
    if next != w {
      MoveKeeps(c, w, next, a.id);
    }
  }

  lemma StepKeeps(c: Config, w: World, a: Action)
    requires Inv(c, w) && FromComment(a)
    ensures Inv(c, Next(c, w, a)) && Grows(c, w, Next(c, w, a))
  {
    if a.Start? || a.id !in w.runs {
      StartKeeps(c, w, a);
    } else {
      match a
      case CheckBranch(id) => CheckBranchKeeps(c, w, id);
      case CreateBranch(id, seed) => CreateBranchKeeps(c, w, id, seed);
      case Load(id) => LoadKeeps(c, w, id);
      case Write(id, sha, answered) => WriteKeeps(c, w, id, sha, answered);
      case ListCommits(id, author, commits) => ListCommitsKeeps(c, w, id, author, commits);
      case PostStatus(id) => PostStatusKeeps(c, w, id);
      case Fail(id) => FailKeeps(c, w, id);
    }
  }

  lemma {:induction false} PlayKeeps(c: Config, w: World, schedule: seq<Action>)
    requires Inv(c, w) && FromComments(schedule)
    ensures Inv(c, Play(c, w, schedule)) && Grows(c, w, Play(c, w, schedule))
    decreases schedule
  {
    if schedule != [] {
      assert FromComment(schedule[0]);
      StepKeeps(c, w, schedule[0]);
      assert forall i | 0 <= i < |schedule| - 1 :: schedule[1..][i] == schedule[i + 1];
      PlayKeeps(c, Next(c, w, schedule[0]), schedule[1..]);
    }
  }

  lemma InitialInv(c: Config, w: World)
    requires Initial(w)
    ensures Inv(c, w)
  {
  }

  // ------------------------------------------------------------ main results

  lemma {:induction false} PlaySplit(c: Config, w: World, before: seq<Action>, after: seq<Action>)
    ensures Play(c, w, before + after) == Play(c, Play(c, w, before), after)
    decreases before
  {
    if before == [] {
      assert before + after == after;
    } else {
      assert (before + after)[1..] == before[1..] + after;
      PlaySplit(c, Next(c, w, before[0]), before[1..], after);
    }
  }

  lemma FromCommentsSplit(before: seq<Action>, after: seq<Action>)
    requires FromComments(before + after)
    ensures FromComments(before) && FromComments(after)
  {
    var all := before + after;
    assert forall i | 0 <= i < |before| :: all[i] == before[i];
    assert forall i | 0 <= i < |after| :: all[|before| + i] == after[i];
  }

  /** However the runs interleave, a signer whose write was accepted is in the file then and in every
      later state, and so is everyone who was in the file before. */
  lemma NoLostSignature(c: Config, start: World, before: seq<Action>, after: seq<Action>)
    requires Initial(start) && FromComments(before + after)
    ensures var w, later := Play(c, start, before), Play(c, start, before + after);
            && FileSigners(c, w) <= FileSigners(c, later)
            && forall i | 0 <= i < |w.accepted| :: Key(c.fold, w.accepted[i]) in FileSigners(c, later)
  {
    InitialInv(c, start);
    PlaySplit(c, start, before, after);
    FromCommentsSplit(before, after);
    PlayKeeps(c, start, before);
    PlayKeeps(c, Play(c, start, before), after);
  }

  /** A posted success is true and stays true: every author of the pull request and of its commits
      whom the allow list does not name is in the file then and in every later state. */
  lemma SuccessStaysSound(c: Config, start: World, before: seq<Action>, after: seq<Action>, k: nat)
    requires Initial(start) && FromComments(before + after)
    requires k < |Play(c, start, before).posted| && Play(c, start, before).posted[k].success
    ensures var status := Play(c, start, before).posted[k];
            && Covered(c, FileSigners(c, Play(c, start, before)), status.author, status.commits)
            && Covered(c, FileSigners(c, Play(c, start, before + after)), status.author, status.commits)
  {
    InitialInv(c, start);
    PlaySplit(c, start, before, after);
    FromCommentsSplit(before, after);
    PlayKeeps(c, start, before);
    var w, later := Play(c, start, before), Play(c, start, before + after);
    PlayKeeps(c, w, after);
    CoveredGrows(c, FileSigners(c, w), FileSigners(c, later), w.posted[k].author, w.posted[k].commits);
  }

  function SettleAll(entries: seq<Entry>): seq<Entry> {
    if entries == [] then [] else [Settled(entries[0])] + SettleAll(entries[1..])
  }

  /** Once the branch exists, a step either leaves the register alone or is one accepted signing. */
  lemma StepLinearizes(c: Config, w: World, a: Action)
    requires Inv(c, w) && FromComment(a) && w.branch
    ensures var next := Next(c, w, a);
            && next.branch
            && (|| (next.accepted == w.accepted && FileRegister(c, next) == FileRegister(c, w))
                || (exists entry ::
                      && next.accepted == w.accepted + [entry]
                      && FileRegister(c, next) == Upsert(c.fold, FileRegister(c, w), Settled(entry))))
  {
    if a.Write? && a.id in w.runs && Accepts(c, w, a.id, a.sha) {
      WriteAdds(c, w, a.id, a.sha, a.answered);
    } else {
      assert Next(c, w, a).blobs == w.blobs && Next(c, w, a).file == w.file;
    }
  }

  lemma HistoryCons(fold: Fold, register: seq<Entry>, past: seq<Entry>, entry: Entry, all: seq<Entry>)
    requires past + [entry] <= all
    ensures past <= all
    ensures UpsertAll(fold, register, SettleAll(all[|past|..])) ==
            UpsertAll(fold, Upsert(fold, register, Settled(entry)), SettleAll(all[|past + [entry]|..]))
  {
    var rest := all[|past + [entry]|..];
    assert all[|past|] == (past + [entry])[|past|];
    assert forall i | 0 <= i < |past| :: all[i] == (past + [entry])[i];
    assert all[|past|..] == [entry] + rest;
    assert ([entry] + rest)[1..] == rest;
    assert ([Settled(entry)] + SettleAll(rest))[1..] == SettleAll(rest);
  }

  /** The interleaving is equivalent to a sequential history: the register is what the accepted
      signings make of the first one, applied one after the other in the order of acceptance. */
  lemma {:induction false} Linearizes(c: Config, w: World, schedule: seq<Action>)
    requires Inv(c, w) && FromComments(schedule) && w.branch
    ensures var end := Play(c, w, schedule);
            && w.accepted <= end.accepted
            && FileRegister(c, end) ==
               UpsertAll(c.fold, FileRegister(c, w), SettleAll(end.accepted[|w.accepted|..]))
    decreases schedule
  {
    if schedule != [] {
      assert FromComment(schedule[0]);
      var next := Next(c, w, schedule[0]);
      var end := Play(c, w, schedule);
      StepKeeps(c, w, schedule[0]);
      StepLinearizes(c, w, schedule[0]);
      assert forall i | 0 <= i < |schedule| - 1 :: schedule[1..][i] == schedule[i + 1];
      Linearizes(c, next, schedule[1..]);
      if next.accepted != w.accepted {
        var entry :| next.accepted == w.accepted + [entry]
                     && FileRegister(c, next) == Upsert(c.fold, FileRegister(c, w), Settled(entry));
        HistoryCons(c.fold, FileRegister(c, w), w.accepted, entry, end.accepted);
      }
    }
  }

  /** The files a schedule may create the branch with hold canonical registers, if any. */
  ghost predicate SeedsCanonical(c: Config, blobs: map<string, Blob>, schedule: seq<Action>) {
    forall i | 0 <= i < |schedule| :: SeedCanonical(c, blobs, schedule[i])
  }

  ghost predicate SeedCanonical(c: Config, blobs: map<string, Blob>, a: Action) {
    a.CreateBranch? && a.seed.Some? && a.seed.value in blobs && blobs[a.seed.value].Parsed? ==>
      Canonical(c.fold, Normalize(c.fold, c.show, blobs[a.seed.value].payload))
  }

  /** Before the branch exists there is no file, no write is accepted and the blobs stay. */
  lemma NoBranchStep(c: Config, w: World, a: Action)
    requires Inv(c, w) && !w.branch && SeedCanonical(c, w.blobs, a)
    ensures Next(c, w, a).blobs == w.blobs && Canonical(c.fold, FileRegister(c, Next(c, w, a)))
  {
  }

  lemma BranchStep(c: Config, w: World, a: Action)
    requires Inv(c, w) && FromComment(a) && w.branch && Canonical(c.fold, FileRegister(c, w))
    ensures Next(c, w, a).branch && Canonical(c.fold, FileRegister(c, Next(c, w, a)))
  {
    var next := Next(c, w, a);
    StepLinearizes(c, w, a);
    if next.accepted != w.accepted {
      var entry :| next.accepted == w.accepted + [entry]
                   && FileRegister(c, next) == Upsert(c.fold, FileRegister(c, w), Settled(entry));
      UpsertSigners(c.fold, FileRegister(c, w), Settled(entry));
    }
  }

  /** A canonical register stays canonical under every schedule, also one that first creates the branch
      from a file whose register is canonical. */
  lemma {:induction false} FileStaysCanonical(c: Config, w: World, schedule: seq<Action>)
    requires Inv(c, w) && FromComments(schedule) && Canonical(c.fold, FileRegister(c, w))
    requires w.branch || SeedsCanonical(c, w.blobs, schedule)
    ensures Canonical(c.fold, FileRegister(c, Play(c, w, schedule)))
    decreases schedule
  {
    if schedule != [] {
      assert FromComment(schedule[0]);
      StepKeeps(c, w, schedule[0]);
      if w.branch {
        BranchStep(c, w, schedule[0]);
      } else {
        assert SeedCanonical(c, w.blobs, schedule[0]);
        NoBranchStep(c, w, schedule[0]);
      }
      assert forall i | 0 <= i < |schedule| - 1 :: schedule[1..][i] == schedule[i + 1];
      FileStaysCanonical(c, Next(c, w, schedule[0]), schedule[1..]);
    }
  }

  /** A file that cannot be read is never written over. */
  lemma {:induction false} UnreadableStays(c: Config, w: World, schedule: seq<Action>)
    requires Inv(c, w) && FromComments(schedule) && w.file.Some? && w.blobs[w.file.value].Unreadable?
    ensures var end := Play(c, w, schedule);
            end.file == w.file && end.accepted == w.accepted && w.file.value in end.blobs
            && end.blobs[w.file.value].Unreadable?
    decreases schedule
  {
    if schedule != [] {
      var a := schedule[0];
      assert FromComment(a);
      StepKeeps(c, w, a);
      if a.id in w.runs {
        assert RunOk(c, w, w.runs[a.id]);
      }
      assert forall i | 0 <= i < |schedule| - 1 :: schedule[1..][i] == schedule[i + 1];
      UnreadableStays(c, Next(c, w, a), schedule[1..]);
    }
  }

  /** Of two signings that loaded the same version only one is recorded: the other run fails, and its
      signer has to comment again. Only a first write that changes nothing lets both through. */
  lemma RacingWrite(c: Config, w: World, first: nat, second: nat, sha: string, other: string, answered: bool)
    requires Inv(c, w) && first in w.runs && second in w.runs && first != second
    requires Accepts(c, w, first, sha) && Accepts(c, w, second, other)
    ensures var stored := DoWrite(c, w, first, sha, answered);
            var end := DoWrite(c, stored, second, other, true);
            if Some(sha) != w.file then
              end.file == Some(sha) && end.accepted == stored.accepted && end.runs[second].phase == Aborted
            else FileRegister(c, stored) == FileRegister(c, w)
  {
    var stored := DoWrite(c, w, first, sha, answered);
    if Some(sha) == w.file {
      assert RunOk(c, w, w.runs[first]);
      assert stored.blobs[sha] == w.blobs[sha];
    }
  }
}
