/** Which verdict a run of `cla_assistant.py` posts, whatever the other runs do meanwhile. */
module ClaStatus {
  import opened JsonValue
  import opened Text
  import opened ClaRegister
  import opened ClaReview
  import opened ClaProtocol

  /** The world after the first `n` actions. */
  function After(c: Config, start: World, schedule: seq<Action>, n: nat): World
    requires n <= |schedule|
  {
    Play(c, start, schedule[..n])
  }

  /** In this step the run gets the register it will judge by: it loads the file and has nothing to
      sign, or its own write of the file is accepted and answered. */
  ghost predicate GetsRegister(c: Config, w: World, a: Action, id: nat) {
    var next := Next(c, w, a);
    && id in w.runs && id in next.runs
    && (|| (a == Load(id) && w.runs[id].signing.None? && w.runs[id].phase.BranchKnown?
            && next.runs[id].phase.Loaded?)
        || (a.Write? && a.id == id && a.answered && w.runs[id].signing.Some?
            && next.accepted == w.accepted + [w.runs[id].signing.value]))
  }

  /** Action `n` gave the run a register with these signers: those of the file right after it. */
  ghost predicate Saw(c: Config, start: World, schedule: seq<Action>, n: nat, id: nat, signers: set<string>)
    requires n < |schedule|
  {
    && GetsRegister(c, After(c, start, schedule, n), schedule[n], id)
    && FileSigners(c, After(c, start, schedule, n + 1)) == signers
  }

  ghost predicate HasSeen(c: Config, start: World, schedule: seq<Action>, k: nat, id: nat, signers: set<string>)
    requires k <= |schedule|
  {
    exists n: nat | n < k :: Saw(c, start, schedule, n, id, signers)
  }

  /** The verdict of a run on an author and commits: it got its register, then listed these commits, and
      finds everyone covered exactly when the file right after it got the register covers them. */
  ghost predicate Judged(c: Config, start: World, schedule: seq<Action>, n: nat, m: nat, id: nat,
                         author: string, commits: seq<Json>, verdict: bool)
    requires n < m < |schedule|
  {
    && GetsRegister(c, After(c, start, schedule, n), schedule[n], id)
    && schedule[m] == ListCommits(id, author, commits)
    && (verdict <==> Covered(c, FileSigners(c, After(c, start, schedule, n + 1)), author, commits))
  }

  ghost predicate HasJudged(c: Config, start: World, schedule: seq<Action>, k: nat, id: nat,
                            author: string, commits: seq<Json>, verdict: bool)
    requires k <= |schedule|
  {
    exists n: nat, m: nat | n < m < k :: Judged(c, start, schedule, n, m, id, author, commits, verdict)
  }

  // --------------------------------------------------------------- invariant

  /** What the phase of a run says about the actions so far. */
  ghost predicate Told(c: Config, start: World, schedule: seq<Action>, k: nat, id: nat, run: Run)
    requires k <= |schedule|
  {
    match run.phase
    case Loaded(signatures, _) =>
      run.signing.None? ==> HasSeen(c, start, schedule, k, id, Signers(c.fold, signatures))
    case Recorded(signatures) => HasSeen(c, start, schedule, k, id, Signers(c.fold, signatures))
    case Evaluated(author, commits, state) =>
      HasJudged(c, start, schedule, k, id, author, commits, state.IsSatisfied())
    case _ => true
  }

  ghost predicate Account(c: Config, start: World, schedule: seq<Action>, k: nat)
    requires k <= |schedule|
  {
    var w := After(c, start, schedule, k);
    && (forall id | id in w.runs :: Told(c, start, schedule, k, id, w.runs[id]))
    && (forall i | 0 <= i < |w.posted| :: Posted(c, start, schedule, k, w.posted[i]))
  }

  ghost predicate Posted(c: Config, start: World, schedule: seq<Action>, k: nat, s: Status)
    requires k <= |schedule|
  {
    HasJudged(c, start, schedule, k, s.id, s.author, s.commits, s.success)
  }

  lemma Step(c: Config, start: World, schedule: seq<Action>, k: nat)
    requires k < |schedule|
    ensures After(c, start, schedule, k + 1) == Next(c, After(c, start, schedule, k), schedule[k])
  {
    assert schedule[..k + 1] == schedule[..k] + [schedule[k]];
    PlaySplit(c, start, schedule[..k], [schedule[k]]);
    assert [schedule[k]][1..] == [];
  }

  lemma AfterInv(c: Config, start: World, schedule: seq<Action>, k: nat)
    requires Initial(start) && FromComments(schedule) && k <= |schedule|
    ensures Inv(c, After(c, start, schedule, k))
  {
    InitialInv(c, start);
    assert schedule == schedule[..k] + schedule[k..];
    FromCommentsSplit(schedule[..k], schedule[k..]);
    PlayKeeps(c, start, schedule[..k]);
  }

  lemma SeenStays(c: Config, start: World, schedule: seq<Action>, k: nat, id: nat, signers: set<string>)
    requires k < |schedule| && HasSeen(c, start, schedule, k, id, signers)
    ensures HasSeen(c, start, schedule, k + 1, id, signers)
  {
  }

  lemma JudgedStays(c: Config, start: World, schedule: seq<Action>, k: nat, id: nat, author: string,
                    commits: seq<Json>, verdict: bool)
    requires k < |schedule| && HasJudged(c, start, schedule, k, id, author, commits, verdict)
    ensures HasJudged(c, start, schedule, k + 1, id, author, commits, verdict)
  {
  }

  lemma ToldStays(c: Config, start: World, schedule: seq<Action>, k: nat, id: nat, run: Run)
    requires k < |schedule| && Told(c, start, schedule, k, id, run)
    ensures Told(c, start, schedule, k + 1, id, run)
  {
    match run.phase
    case Loaded(signatures, _) =>
      if run.signing.None? {
        SeenStays(c, start, schedule, k, id, Signers(c.fold, signatures));
      }
    case Recorded(signatures) => SeenStays(c, start, schedule, k, id, Signers(c.fold, signatures));
    case Evaluated(author, commits, state) =>
      JudgedStays(c, start, schedule, k, id, author, commits, state.IsSatisfied());
    case _ =>
  }

  /** A load shows the run the signers of the file. */
  lemma LoadSees(c: Config, w: World, id: nat)
    requires Inv(c, w) && id in w.runs && w.runs[id].phase.BranchKnown?
    ensures var next := DoLoad(c, w, id);
            && FileSigners(c, next) == FileSigners(c, w)
            && (next.runs[id].phase.Loaded? ==>
                Signers(c.fold, next.runs[id].phase.signatures) == FileSigners(c, next))
  {
    assert FileRegister(c, DoLoad(c, w, id)) == FileRegister(c, w);
  }

  lemma LoadTold(c: Config, start: World, schedule: seq<Action>, k: nat, id: nat)
    requires k < |schedule| && schedule[k] == Load(id)
    requires Inv(c, After(c, start, schedule, k)) && Account(c, start, schedule, k)
    requires id in After(c, start, schedule, k).runs
    ensures var next := After(c, start, schedule, k + 1);
            id in next.runs && Told(c, start, schedule, k + 1, id, next.runs[id])
  {
    var w, next := After(c, start, schedule, k), After(c, start, schedule, k + 1);
    Step(c, start, schedule, k);
    assert Told(c, start, schedule, k, id, w.runs[id]);
    if w.runs[id].phase.BranchKnown? {
      LoadSees(c, w, id);
      if next.runs[id].phase.Loaded? && w.runs[id].signing.None? {
        assert Saw(c, start, schedule, k, id, Signers(c.fold, next.runs[id].phase.signatures));
      }
    } else {
      ToldStays(c, start, schedule, k, id, w.runs[id]);
    }
  }

  lemma WriteTold(c: Config, start: World, schedule: seq<Action>, k: nat, id: nat)
    requires k < |schedule| && schedule[k].Write? && schedule[k].id == id
    requires Inv(c, After(c, start, schedule, k)) && Account(c, start, schedule, k)
    requires id in After(c, start, schedule, k).runs
    ensures var next := After(c, start, schedule, k + 1);
            id in next.runs && Told(c, start, schedule, k + 1, id, next.runs[id])
  {
    var w, next, a := After(c, start, schedule, k), After(c, start, schedule, k + 1), schedule[k];
    Step(c, start, schedule, k);
    assert Told(c, start, schedule, k, id, w.runs[id]);
    if Accepts(c, w, id, a.sha) {
      WriteAdds(c, w, id, a.sha, a.answered);
      if a.answered {
        assert Saw(c, start, schedule, k, id, Signers(c.fold, next.runs[id].phase.signatures));
      }
    } else if next == w {
      ToldStays(c, start, schedule, k, id, w.runs[id]);
    }
  }

  lemma ListTold(c: Config, start: World, schedule: seq<Action>, k: nat, id: nat)
    requires k < |schedule| && schedule[k].ListCommits? && schedule[k].id == id
    requires Account(c, start, schedule, k) && id in After(c, start, schedule, k).runs
    ensures var next := After(c, start, schedule, k + 1);
            id in next.runs && Told(c, start, schedule, k + 1, id, next.runs[id])
  {
    var w, a := After(c, start, schedule, k), schedule[k];
    var run := w.runs[id];
    Step(c, start, schedule, k);
    assert Told(c, start, schedule, k, id, run);
    if run.phase.Recorded? || (run.phase.Loaded? && run.signing.None?) {
      var signers := Signers(c.fold, run.phase.signatures);
      var n: nat :| n < k && Saw(c, start, schedule, n, id, signers);
      SatisfiedIffCovered(c, run.phase.signatures, a.author, a.commits);
      var verdict := After(c, start, schedule, k + 1).runs[id].phase.state.IsSatisfied();
      assert Judged(c, start, schedule, n, k, id, a.author, a.commits, verdict);
    } else {
      ToldStays(c, start, schedule, k, id, run);
    }
  }

  /** The run that an action is about. */
  lemma ActorTold(c: Config, start: World, schedule: seq<Action>, k: nat, id: nat)
    requires k < |schedule| && schedule[k].id == id
    requires Inv(c, After(c, start, schedule, k)) && Account(c, start, schedule, k)
    requires id in After(c, start, schedule, k + 1).runs
    ensures Told(c, start, schedule, k + 1, id, After(c, start, schedule, k + 1).runs[id])
  {
    var w := After(c, start, schedule, k);
    Step(c, start, schedule, k);
    if id in w.runs {
      assert Told(c, start, schedule, k, id, w.runs[id]);
      match schedule[k]
      case Load(_) => LoadTold(c, start, schedule, k, id);
      case Write(_, _, _) => WriteTold(c, start, schedule, k, id);
      case ListCommits(_, _, _) => ListTold(c, start, schedule, k, id);
      case _ =>
        if After(c, start, schedule, k + 1) == w {
          ToldStays(c, start, schedule, k, id, w.runs[id]);
        }
    }
  }

  lemma OthersStay(c: Config, w: World, a: Action, id: nat)
    requires id != a.id && id in Next(c, w, a).runs
    ensures id in w.runs && Next(c, w, a).runs[id] == w.runs[id]
  {
  }

  /** A step adds at most one status, which tells what its run has evaluated. */
  lemma StatusStep(c: Config, w: World, a: Action)
    ensures var next := Next(c, w, a);
            || next.posted == w.posted
            || (&& a.id in w.runs && w.runs[a.id].phase.Evaluated?
                && next.posted == w.posted + [Status(a.id, w.runs[a.id].phase.author, w.runs[a.id].phase.commits,
                                                     w.runs[a.id].phase.state.IsSatisfied())])
  {
  }

  lemma PostedTold(c: Config, start: World, schedule: seq<Action>, k: nat, i: nat)
    requires k < |schedule| && Account(c, start, schedule, k)
    requires i < |After(c, start, schedule, k + 1).posted|
    ensures Posted(c, start, schedule, k + 1, After(c, start, schedule, k + 1).posted[i])
  {
    var w, a := After(c, start, schedule, k), schedule[k];
    var s := After(c, start, schedule, k + 1).posted[i];
    Step(c, start, schedule, k);
    StatusStep(c, w, a);
    if i < |w.posted| {
      assert Posted(c, start, schedule, k, w.posted[i]);
    } else {
      assert Told(c, start, schedule, k, a.id, w.runs[a.id]);
    }
    JudgedStays(c, start, schedule, k, s.id, s.author, s.commits, s.success);
  }

  lemma RunsTold(c: Config, start: World, schedule: seq<Action>, k: nat, id: nat)
    requires k < |schedule| && Inv(c, After(c, start, schedule, k)) && Account(c, start, schedule, k)
    requires id in After(c, start, schedule, k + 1).runs
    ensures Told(c, start, schedule, k + 1, id, After(c, start, schedule, k + 1).runs[id])
  {
    var w := After(c, start, schedule, k);
    if id == schedule[k].id {
      ActorTold(c, start, schedule, k, id);
    } else {
      Step(c, start, schedule, k);
      OthersStay(c, w, schedule[k], id);
      assert Told(c, start, schedule, k, id, w.runs[id]);
      ToldStays(c, start, schedule, k, id, w.runs[id]);
    }
  }

  lemma {:induction false} AccountKept(c: Config, start: World, schedule: seq<Action>, k: nat)
    requires Initial(start) && FromComments(schedule) && k <= |schedule|
    ensures Account(c, start, schedule, k)
  {
    if k == 0 {
      assert schedule[..0] == [];
    } else {
      var next := After(c, start, schedule, k);
      AccountKept(c, start, schedule, k - 1);
      AfterInv(c, start, schedule, k - 1);
      forall id | id in next.runs ensures Told(c, start, schedule, k, id, next.runs[id]) {
        RunsTold(c, start, schedule, k - 1, id);
      }
      forall i | 0 <= i < |next.posted| ensures Posted(c, start, schedule, k, next.posted[i]) {
        PostedTold(c, start, schedule, k - 1, i);
      }
    }
  }

  // ------------------------------------------------------------ main results

  /** However the runs interleave, a posted status is a success if and only if everyone who has to sign
      was in the file right after the run that posted it loaded it or had its own signing recorded. */
  lemma StatusIsVerdict(c: Config, start: World, schedule: seq<Action>, k: nat)
    requires Initial(start) && FromComments(schedule) && k < |Play(c, start, schedule).posted|
    ensures var s := Play(c, start, schedule).posted[k];
            exists n: nat, m: nat | n < m < |schedule| ::
              && GetsRegister(c, After(c, start, schedule, n), schedule[n], s.id)
              && schedule[m] == ListCommits(s.id, s.author, s.commits)
              && (s.success <==> Covered(c, FileSigners(c, After(c, start, schedule, n + 1)), s.author, s.commits))
  {
    var end := After(c, start, schedule, |schedule|);
    assert schedule[..|schedule|] == schedule;
    AccountKept(c, start, schedule, |schedule|);
    var s := end.posted[k];
    assert Posted(c, start, schedule, |schedule|, s);
    var n: nat, m: nat :| n < m < |schedule| && Judged(c, start, schedule, n, m, s.id, s.author, s.commits, s.success);
  }

  lemma PlayCons(c: Config, w: World, a: Action, rest: seq<Action>)
    ensures Play(c, w, [a] + rest) == Play(c, Next(c, w, a), rest)
  {
    assert ([a] + rest)[1..] == rest;
  }

  ghost predicate Fresh(w: World, id: nat) {
    && id !in w.runs && w.branch
    && (w.file.Some? ==> w.file.value in w.blobs && w.blobs[w.file.value].Parsed?)
  }

  /** The world once a run that nobody disturbs has loaded the file. */
  function LoadedBy(c: Config, w: World, id: nat, signing: Option<Entry>): World {
    w.(runs := w.runs[id := Run(signing, Loaded(FileRegister(c, w), w.file))])
  }

  lemma PutTwice(runs: map<nat, Run>, id: nat, a: Run, b: Run)
    ensures runs[id := a][id := b] == runs[id := b]
  {
  }

  lemma TwoSteps(c: Config, w: World, id: nat, signing: Option<Entry>)
    requires Fresh(w, id)
    ensures Next(c, Next(c, w, Start(id, signing)), CheckBranch(id)) ==
            w.(runs := w.runs[id := Run(signing, BranchKnown)])
  {
    PutTwice(w.runs, id, Run(signing, Started), Run(signing, BranchKnown));
  }

  lemma ThreeSteps(c: Config, w: World, id: nat, signing: Option<Entry>)
    requires Fresh(w, id)
    ensures Next(c, Next(c, Next(c, w, Start(id, signing)), CheckBranch(id)), Load(id)) == LoadedBy(c, w, id, signing)
  {
    TwoSteps(c, w, id, signing);
    PutTwice(w.runs, id, Run(signing, BranchKnown), Run(signing, Loaded(FileRegister(c, w), w.file)));
  }

  lemma PlayThree(c: Config, w: World, x: Action, y: Action, z: Action, rest: seq<Action>)
    ensures Play(c, w, [x, y, z] + rest) == Play(c, Next(c, Next(c, Next(c, w, x), y), z), rest)
  {
    PlaySplit(c, w, [x, y, z], rest);
    assert [x, y, z][1..] == [y, z];
    PlayTwo(c, Next(c, w, x), y, z);
  }

  lemma PlayTwo(c: Config, w: World, x: Action, y: Action)
    ensures Play(c, w, [x, y]) == Next(c, Next(c, w, x), y)
  {
    assert [x, y][1..] == [y];
    assert [y][1..] == [];
    assert Play(c, Next(c, w, x), [y]) == Play(c, Next(c, Next(c, w, x), y), []);
  }

  lemma PlayFive(c: Config, w: World, x: Action, y: Action, z: Action, u: Action, v: Action)
    ensures Play(c, w, [x, y, z, u, v]) == Play(c, Next(c, Next(c, Next(c, w, x), y), z), [u, v])
  {
    assert [x, y, z, u, v] == [x, y, z] + [u, v];
    PlayThree(c, w, x, y, z, [u, v]);
  }

  lemma PlaySix(c: Config, w: World, x: Action, y: Action, z: Action, t: Action, u: Action, v: Action)
    ensures Play(c, w, [x, y, z, t, u, v]) == Play(c, Next(c, Next(c, Next(c, Next(c, w, x), y), z), t), [u, v])
  {
    assert [x, y, z, t, u, v] == [x, y, z] + ([t] + [u, v]);
    PlayThree(c, w, x, y, z, [t] + [u, v]);
    PlayCons(c, Next(c, Next(c, Next(c, w, x), y), z), t, [u, v]);
  }

  /** A run that has its register lists the commits and posts what they and the register make. */
  lemma UntilPosted(c: Config, w: World, id: nat, author: string, commits: seq<Json>)
    requires id in w.runs && (w.runs[id].phase.Recorded? || w.runs[id].phase.Loaded?)
    requires w.runs[id].phase.Loaded? ==> w.runs[id].signing.None?
    ensures var end := Next(c, Next(c, w, ListCommits(id, author, commits)), PostStatus(id));
            var covered := Covered(c, Signers(c.fold, w.runs[id].phase.signatures), author, commits);
            end.posted == w.posted + [Status(id, author, commits, covered)] && end.file == w.file
  {
    SatisfiedIffCovered(c, w.runs[id].phase.signatures, author, commits);
  }

  /** A run without a signing that nobody disturbs posts a success exactly when the file covers everyone. */
  lemma UndisturbedRun(c: Config, w: World, id: nat, author: string, commits: seq<Json>)
    requires Inv(c, w) && Fresh(w, id)
    ensures Play(c, w, [Start(id, None), CheckBranch(id), Load(id), ListCommits(id, author, commits),
                        PostStatus(id)]).posted ==
            w.posted + [Status(id, author, commits, Covered(c, FileSigners(c, w), author, commits))]
  {
    var loaded := LoadedBy(c, w, id, None);
    PlayFive(c, w, Start(id, None), CheckBranch(id), Load(id), ListCommits(id, author, commits), PostStatus(id));
    ThreeSteps(c, w, id, None);
    PlayTwo(c, loaded, ListCommits(id, author, commits), PostStatus(id));
    UntilPosted(c, loaded, id, author, commits);
  }

  /** What a run finds that creates the branch: the file of the default branch, if there is one. */
  function Created(w: World, seed: Option<string>): World {
    w.(branch := true, file := seed)
  }

  ghost predicate NoBranch(w: World, id: nat, seed: Option<string>) {
    && id !in w.runs && !w.branch
    && (seed.Some? ==> seed.value in w.blobs && w.blobs[seed.value].Parsed?)
  }

  lemma FourSteps(c: Config, w: World, id: nat, seed: Option<string>)
    requires NoBranch(w, id, seed)
    ensures Next(c, Next(c, Next(c, Next(c, w, Start(id, None)), CheckBranch(id)), CreateBranch(id, seed)), Load(id)) ==
            LoadedBy(c, Created(w, seed), id, None)
  {
    PutTwice(w.runs, id, Run(None, Started), Run(None, BranchMissing));
    PutTwice(w.runs, id, Run(None, BranchMissing), Run(None, BranchKnown));
    PutTwice(w.runs, id, Run(None, BranchKnown),
             Run(None, Loaded(FileRegister(c, Created(w, seed)), Created(w, seed).file)));
  }

  /** The first run of all creates the branch and posts a success exactly when the file it starts with
      covers everyone. */
  lemma FirstRun(c: Config, w: World, id: nat, seed: Option<string>, author: string, commits: seq<Json>)
    requires NoBranch(w, id, seed)
    ensures var end := Play(c, w, [Start(id, None), CheckBranch(id), CreateBranch(id, seed), Load(id),
                                   ListCommits(id, author, commits), PostStatus(id)]);
            var signers := FileSigners(c, Created(w, seed));
            && end.posted == w.posted + [Status(id, author, commits, Covered(c, signers, author, commits))]
            && end.file == seed
  {
    var loaded := LoadedBy(c, Created(w, seed), id, None);
    PlaySix(c, w, Start(id, None), CheckBranch(id), CreateBranch(id, seed), Load(id),
            ListCommits(id, author, commits), PostStatus(id));
    FourSteps(c, w, id, seed);
    PlayTwo(c, loaded, ListCommits(id, author, commits), PostStatus(id));
    UntilPosted(c, loaded, id, author, commits);
  }

  /** The accepted write of a run that has just loaded the file. */
  lemma OwnWrite(c: Config, w: World, id: nat, entry: Entry, sha: string)
    requires Inv(c, w) && Fresh(w, id) && Signable(entry) && Dated(entry) && sha != "" && sha !in w.blobs
    ensures var stored := Next(c, LoadedBy(c, w, id, Some(entry)), Write(id, sha, true));
            && id in stored.runs && stored.runs[id].phase.Recorded?
            && Signers(c.fold, stored.runs[id].phase.signatures) == FileSigners(c, w) + {c.fold(entry.name)}
            && stored.posted == w.posted && stored.file == Some(sha)
  {
    var loaded := LoadedBy(c, w, id, Some(entry));
    LoadedInv(c, w, id, entry);
    assert Accepts(c, loaded, id, sha);
    assert Next(c, loaded, Write(id, sha, true)) == DoWrite(c, loaded, id, sha, true);
    WriteAdds(c, loaded, id, sha, true);
  }

  /** A run whose own signing is accepted posts a success exactly when the file and its signer together
      cover everyone; the file then holds them. */
  lemma UndisturbedSigning(c: Config, w: World, id: nat, entry: Entry, sha: string, author: string,
                           commits: seq<Json>)
    requires Inv(c, w) && Fresh(w, id) && Signable(entry) && Dated(entry) && sha != "" && sha !in w.blobs
    ensures var end := Play(c, w, [Start(id, Some(entry)), CheckBranch(id), Load(id), Write(id, sha, true),
                                   ListCommits(id, author, commits), PostStatus(id)]);
            var signers := FileSigners(c, w) + {c.fold(entry.name)};
            && end.posted == w.posted + [Status(id, author, commits, Covered(c, signers, author, commits))]
            && end.file == Some(sha)
  {
    var stored := Next(c, LoadedBy(c, w, id, Some(entry)), Write(id, sha, true));
    PlaySix(c, w, Start(id, Some(entry)), CheckBranch(id), Load(id), Write(id, sha, true),
            ListCommits(id, author, commits), PostStatus(id));
    ThreeSteps(c, w, id, Some(entry));
    OwnWrite(c, w, id, entry, sha);
    PlayTwo(c, stored, ListCommits(id, author, commits), PostStatus(id));
    UntilPosted(c, stored, id, author, commits);
  }

  lemma LoadedInv(c: Config, w: World, id: nat, entry: Entry)
    requires Inv(c, w) && Fresh(w, id) && Signable(entry) && Dated(entry)
    ensures Inv(c, LoadedBy(c, w, id, Some(entry)))
    ensures FileSigners(c, LoadedBy(c, w, id, Some(entry))) == FileSigners(c, w)
  {
    var loaded := LoadedBy(c, w, id, Some(entry));
    assert FileRegister(c, loaded) == FileRegister(c, w);
    MoveKeeps(c, w, loaded, id);
  }
}
