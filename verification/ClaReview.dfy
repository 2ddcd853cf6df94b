/** What one workflow run decides about a pull request (`cla_assistant.py`): who has to sign, who
    has, and which comment is kept up to date. */
module ClaReview {
  import opened JsonValue
  import opened Text
  import opened ClaRegister

  // -------------------------------------------------------------- paged lists

  const PAGE_SIZE := 100

  function Min(a: nat, b: nat): nat {
    if a <= b then a else b
  }

  /** What the API answers for `per_page=100&page=n`, pages counted from one. */
  function Page(all: seq<Json>, n: nat): seq<Json>
    requires n > 0
  {
    all[Min(PAGE_SIZE * (n - 1), |all|)..Min(PAGE_SIZE * n, |all|)]
  }

  /** The loop of `list_pull_request_commits` and `list_issue_comments`: it ends, and no item is
      missed or read twice, whatever the length of the list. */
  method ListAll(all: seq<Json>) returns (items: seq<Json>)
    ensures items == all
  {
    items := [];
    var page := 1;
    while true
      invariant page > 0 && PAGE_SIZE * (page - 1) <= |all|
      invariant items == all[..PAGE_SIZE * (page - 1)]
      decreases |all| - |items|
    {
      var batch := Page(all, page);
      if batch == [] {
        break;
      }
      items := items + batch;
      if |batch| < PAGE_SIZE {
        break;
      }
      page := page + 1;
    }
  }

  // ---------------------------------------------------------- required signers

  /** The login of the GitHub account a commit is attributed to, or nothing. */
  function CommitLogin(show: Json -> string, commit: Json): string {
    if commit.JObj? && Field(commit.fields, "author").JObj? then
      TextField(show, Field(commit.fields, "author").fields, "login")
    else ""
  }

  /** `_extract_commit_authors` */
  function CommitAuthors(show: Json -> string, commits: seq<Json>): set<string> {
    set i | 0 <= i < |commits| && CommitLogin(show, commits[i]) != "" :: CommitLogin(show, commits[i])
  }

  method ExtractCommitAuthors(show: Json -> string, commits: seq<Json>) returns (sorted: seq<string>)
    ensures IsSorted(sorted)
    ensures forall login :: login in sorted <==> login in CommitAuthors(show, commits)
  {
    var authors: set<string> := {};
    for i := 0 to |commits|
      invariant forall k | 0 <= k < i :: CommitLogin(show, commits[k]) == "" || CommitLogin(show, commits[k]) in authors
      invariant authors <= CommitAuthors(show, commits)
    {
      var login := CommitLogin(show, commits[i]);
      if login != "" {
        authors := authors + {login};
      }
    }
    sorted := SortedKeys(authors);
    SortedKeysSorted(authors);
  }

  /** `_collect_required_signers` */
  function CollectRequired(fold: Fold, author: string, commitAuthors: seq<string>, allowlist: seq<string>)
    : seq<string>
  {
    var allow := set i | 0 <= i < |allowlist| :: fold(allowlist[i]);
    var unique := {Strip(author)}
      + set i | 0 <= i < |commitAuthors| && Strip(commitAuthors[i]) != "" :: Strip(commitAuthors[i]);
    SortedKeys(set login | login in unique && login != "" && fold(login) !in allow)
  }

  predicate Allowed(fold: Fold, login: string, allowlist: seq<string>) {
    exists i | 0 <= i < |allowlist| :: fold(allowlist[i]) == fold(login)
  }

  /** Every author of the pull request or of one of its commits has to sign, once, unless the
      allow list names them under any spelling; nobody else has to. */
  lemma RequiredExactly(fold: Fold, author: string, commitAuthors: seq<string>, allowlist: seq<string>)
    ensures var required := CollectRequired(fold, author, commitAuthors, allowlist);
            && IsSorted(required)
            && forall login :: login in required <==>
                 && login != "" && !Allowed(fold, login, allowlist)
                 && (login == Strip(author) || exists i | 0 <= i < |commitAuthors| :: Strip(commitAuthors[i]) == login)
  {
    var allow := set i | 0 <= i < |allowlist| :: fold(allowlist[i]);
    var unique := {Strip(author)}
      + set i | 0 <= i < |commitAuthors| && Strip(commitAuthors[i]) != "" :: Strip(commitAuthors[i]);
    SortedKeysSorted(set login | login in unique && login != "" && fold(login) !in allow);
  }

  // -------------------------------------------------------------- signed or not

  function SignedRequired(fold: Fold, required: seq<string>, signed: set<string>): seq<string> {
    if required == [] then []
    else
      var rest := SignedRequired(fold, required[1..], signed);
      if fold(required[0]) in signed then [required[0]] + rest else rest
  }

  function Missing(fold: Fold, required: seq<string>, signed: set<string>): seq<string> {
    if required == [] then []
    else
      var rest := Missing(fold, required[1..], signed);
      if fold(required[0]) !in signed then [required[0]] + rest else rest
  }

  datatype State = State(required: seq<string>, signedRequired: seq<string>, missing: seq<string>) {
    predicate IsSatisfied() {
      missing == []
    }
  }

  /** `_evaluate_cla_state` */
  function Evaluate(fold: Fold, required: seq<string>, register: seq<Entry>): State {
    State(required, SignedRequired(fold, required, Signers(fold, register)),
          Missing(fold, required, Signers(fold, register)))
  }

  /** Signed and missing split the required signers between them. */
  lemma {:induction false} EvaluatePartitions(fold: Fold, required: seq<string>, signed: set<string>)
    ensures multiset(SignedRequired(fold, required, signed)) + multiset(Missing(fold, required, signed)) ==
            multiset(required)
    ensures forall s | s in SignedRequired(fold, required, signed) :: fold(s) in signed
    ensures forall s | s in Missing(fold, required, signed) :: fold(s) !in signed
  {
    if required != [] {
      EvaluatePartitions(fold, required[1..], signed);
      assert required == [required[0]] + required[1..];
    }
  }

  lemma {:induction false} MissingIff(fold: Fold, required: seq<string>, signed: set<string>, login: string)
    ensures login in Missing(fold, required, signed) <==> login in required && fold(login) !in signed
  {
    if required != [] {
      MissingIff(fold, required[1..], signed, login);
    }
  }

  /** The check passes exactly when every required signer is in the register under some spelling. */
  lemma SatisfiedIff(fold: Fold, required: seq<string>, register: seq<Entry>)
    ensures Evaluate(fold, required, register).IsSatisfied() <==>
            forall s | s in required :: fold(s) in Signers(fold, register)
  {
    var signed := Signers(fold, register);
    forall s ensures s in Missing(fold, required, signed) <==> s in required && fold(s) !in signed {
      MissingIff(fold, required, signed, s);
    }
    if Missing(fold, required, signed) != [] {
      assert Missing(fold, required, signed)[0] in required;
    }
  }

  function Except(fold: Fold, logins: seq<string>, key: string): seq<string> {
    if logins == [] then []
    else
      var rest := Except(fold, logins[1..], key);
      if fold(logins[0]) == key then rest else [logins[0]] + rest
  }

  lemma {:induction false} MissingWithout(fold: Fold, required: seq<string>, signed: set<string>, key: string)
    ensures Missing(fold, required, signed + {key}) == Except(fold, Missing(fold, required, signed), key)
  {
    if required != [] {
      MissingWithout(fold, required[1..], signed, key);
    }
  }

  /** A signing takes the spellings of its own name off the missing list and leaves the others, in
      order. */
  lemma SigningRemovesExactly(fold: Fold, required: seq<string>, register: seq<Entry>, entry: Entry)
    ensures Evaluate(fold, required, Upsert(fold, register, entry)).missing ==
            Except(fold, Evaluate(fold, required, register).missing, Key(fold, entry))
  {
    UpsertSigners(fold, register, entry);
    MissingWithout(fold, required, Signers(fold, register), Key(fold, entry));
  }

  // ------------------------------------------------------------- the comment

  const COMMENT_MARKER := "<!-- valdrics-cla-assistant -->"

  function RawText(show: Json -> string, item: map<string, Json>, key: string): string {
    var j := Field(item, key);
    if !Truthy(j) then "" else if j.JStr? then j.s else show(j)
  }

  function Mentions(logins: seq<string>): string {
    if logins == [] then ""
    else if |logins| == 1 then "@" + logins[0]
    else "@" + logins[0] + ", " + Mentions(logins[1..])
  }

  /** `_build_comment_body` */
  function CommentBody(state: State, phrase: string, documentUrl: string): string {
    COMMENT_MARKER + "\n" +
    if state.IsSatisfied() then
      "CLA requirements satisfied.\n\n" + "Signed contributors: " +
      (if state.required != [] then Mentions(state.required)
       else "No external signers required " + "for this pull request.")
    else
      "Thank you for the contribution. " + "Please review [`CLA.md`](" + documentUrl + ") "
      + "and sign by commenting exactly:\n`" + phrase + "`\n\nMissing signatures: " + Mentions(state.missing)
  }

  predicate IsBotComment(show: Json -> string, comment: Json) {
    && comment.JObj?
    && Contains(RawText(show, comment.fields, "body"), COMMENT_MARKER)
    && IsInt(Field(comment.fields, "id"))
  }

  function FirstBot(show: Json -> string, comments: seq<Json>): (n: nat)
    ensures n <= |comments|
    ensures forall i | 0 <= i < n :: !IsBotComment(show, comments[i])
    ensures n < |comments| ==> IsBotComment(show, comments[n])
  {
    if comments == [] || IsBotComment(show, comments[0]) then 0
    else
      var n := FirstBot(show, comments[1..]);
      assert forall i | 0 < i < |comments| :: comments[i] == comments[1..][i - 1];
      n + 1
  }

  /** `_find_existing_comment_id` */
  method FindExistingCommentId(show: Json -> string, comments: seq<Json>) returns (id: Option<Json>)
    ensures var n := FirstBot(show, comments);
            id == if n < |comments| then Some(Field(comments[n].fields, "id")) else None
  {
    for i := 0 to |comments|
      invariant forall k | 0 <= k < i :: !IsBotComment(show, comments[k])
    {
      var comment := comments[i];
      if comment.JObj? {
        var body := RawText(show, comment.fields, "body");
        if Contains(body, COMMENT_MARKER) {
          var commentId := Field(comment.fields, "id");
          if IsInt(commentId) {
            return Some(commentId);
          }
        }
      }
    }
    return None;
  }

  /** The comment list after the run has created or updated its comment; `id` is the number GitHub
      gives a new one. */
  function SyncComment(show: Json -> string, comments: seq<Json>, body: string, id: int): seq<Json> {
    var n := FirstBot(show, comments);
    if n == |comments| then comments + [JObj(map["id" := JInt(id), "body" := JStr(body)])]
    else comments[n := JObj(comments[n].fields["body" := JStr(body)])]
  }

  /** The pull request keeps one comment of the assistant: a run writes its text into the first
      comment that carries the marker, the next run finds that one again, and no other changes. */
  lemma CommentStaysInPlace(show: Json -> string, comments: seq<Json>, state: State, phrase: string, url: string,
                            id: int)
    ensures var body := CommentBody(state, phrase, url);
            var n, after := FirstBot(show, comments), SyncComment(show, comments, body, id);
            && n < |after| && FirstBot(show, after) == n
            && RawText(show, after[n].fields, "body") == body
            && (n < |comments| ==> Field(after[n].fields, "id") == Field(comments[n].fields, "id"))
            && |after| == (if n < |comments| then |comments| else |comments| + 1)
            && forall i | 0 <= i < |comments| && i != n :: after[i] == comments[i]
  {
    var body := CommentBody(state, phrase, url);
    var n, after := FirstBot(show, comments), SyncComment(show, comments, body, id);
    BodyMarked(state, phrase, url);
    WrittenIsFound(show, comments, body, id);
  }

  lemma BodyMarked(state: State, phrase: string, url: string)
    ensures var body := CommentBody(state, phrase, url); body != "" && Contains(body, COMMENT_MARKER)
  {
    assert COMMENT_MARKER <= CommentBody(state, phrase, url);
  }

  lemma WrittenIsFound(show: Json -> string, comments: seq<Json>, body: string, id: int)
    requires body != "" && Contains(body, COMMENT_MARKER)
    ensures var n, after := FirstBot(show, comments), SyncComment(show, comments, body, id);
            n < |after| && after[n].JObj? && RawText(show, after[n].fields, "body") == body
            && FirstBot(show, after) == n
  {
    var n, after := FirstBot(show, comments), SyncComment(show, comments, body, id);
    assert IsBotComment(show, after[n]);
    assert forall i | 0 <= i < n :: after[i] == comments[i];
  }
}
