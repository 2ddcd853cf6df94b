/** The register and the commits of a pull request, entry by entry and in terms of the JSON they are
    read from. */
module ClaEntries {
  import opened JsonValue
  import opened Text
  import opened ClaRegister
  import opened ClaReview

  // ------------------------------------------------------------- the register

  /** The text of a field that holds one, without the white space around it. */
  predicate HasText(show: Json -> string, item: map<string, Json>, key: string, text: string) {
    && key in item && text != ""
    && match item[key]
       case JStr(s) => Strip(s) == text
       case JNull => false
       case other => Truthy(other) && Strip(show(other)) == text
  }

  /** An optional number: an integer, or nothing when the field is missing or holds anything else. */
  predicate HasNumber(item: map<string, Json>, key: string, number: Option<Json>) {
    if key in item && (item[key].JInt? || item[key].JBool?) then number == Some(item[key]) else number == None
  }

  /** An item of the file that stands for the entry. */
  predicate Records(show: Json -> string, item: Json, entry: Entry) {
    && item.JObj?
    && HasText(show, item.fields, "name", entry.name)
    && HasText(show, item.fields, "created_at", entry.createdAt)
    && HasNumber(item.fields, "id", entry.id)
    && HasNumber(item.fields, "comment_id", entry.commentId)
    && HasNumber(item.fields, "repoId", entry.repoId)
    && HasNumber(item.fields, "pullRequestNo", entry.pullRequest)
  }

  lemma TextIff(show: Json -> string, item: map<string, Json>, key: string, text: string)
    ensures HasText(show, item, key, text) <==> text != "" && TextField(show, item, key) == text
  {
    StripOfTrimmed("");
  }

  lemma ReadIff(show: Json -> string, item: Json, entry: Entry)
    ensures ReadEntry(show, item) == Some(entry) <==> Records(show, item, entry)
  {
    if item.JObj? {
      TextIff(show, item.fields, "name", entry.name);
      TextIff(show, item.fields, "created_at", entry.createdAt);
    }
  }

  /** How many of the items stand for the entry. */
  function Recorded(show: Json -> string, items: seq<Json>, entry: Entry): nat {
    if items == [] then 0
    else (if Records(show, items[0], entry) then 1 else 0) + Recorded(show, items[1..], entry)
  }

  lemma {:induction false} ReadCount(show: Json -> string, items: seq<Json>, entry: Entry)
    ensures multiset(ReadEntries(show, items))[entry] == Recorded(show, items, entry)
  {
    if items != [] {
      ReadIff(show, items[0], entry);
      ReadCount(show, items[1..], entry);
    }
  }

  lemma {:induction false} InsertMultiset(fold: Fold, register: seq<Entry>, entry: Entry)
    ensures multiset(Insert(fold, register, entry)) == multiset(register) + multiset{entry}
  {
    if register != [] {
      assert register == [register[0]] + register[1..];
      if Leq(Key(fold, register[0]), Key(fold, entry)) {
        InsertMultiset(fold, register[1..], entry);
      }
    }
  }

  lemma {:induction false} SortMultiset(fold: Fold, entries: seq<Entry>)
    ensures multiset(Sort(fold, entries)) == multiset(entries)
  {
    if entries != [] {
      var front, last := entries[..|entries| - 1], entries[|entries| - 1];
      SortMultiset(fold, front);
      InsertMultiset(fold, Sort(fold, front), last);
      assert entries == front + [last];
    }
  }

  /** The register that is read holds exactly what the items of `signedContributors` stand for, as often
      as they do, in the order of the folded names. */
  lemma RegisterRead(fold: Fold, show: Json -> string, file: map<string, Json>, entry: Entry)
    ensures var register := Normalize(fold, show, JObj(file));
            && multiset(register)[entry] ==
               (if "signedContributors" in file && file["signedContributors"].JList?
                then Recorded(show, file["signedContributors"].items, entry) else 0)
            && forall i, j | 0 <= i < j < |register| :: Leq(fold(register[i].name), fold(register[j].name))
  {
    if "signedContributors" in file && file["signedContributors"].JList? {
      var entries := ReadEntries(show, file["signedContributors"].items);
      ReadCount(show, file["signedContributors"].items, entry);
      SortMultiset(fold, entries);
      SortSorted(fold, entries);
    }
  }

  lemma {:induction false} WithoutCount(fold: Fold, register: seq<Entry>, key: string, entry: Entry)
    ensures multiset(Without(fold, register, key))[entry] ==
            if fold(entry.name) == key then 0 else multiset(register)[entry]
  {
    if register != [] {
      WithoutCount(fold, register[1..], key, entry);
      assert register == [register[0]] + register[1..];
    }
  }

  /** A signing replaces the entries under its own folded name by one, and keeps every other as often as
      it was there. */
  lemma UpsertCount(fold: Fold, register: seq<Entry>, signing: Entry, entry: Entry)
    ensures multiset(Upsert(fold, register, signing))[entry] ==
            if entry == signing then 1
            else if fold(entry.name) == fold(signing.name) then 0
            else multiset(register)[entry]
  {
    var others := Without(fold, register, Key(fold, signing));
    WithoutCount(fold, register, Key(fold, signing), entry);
    SortMultiset(fold, others + [signing]);
  }

  // -------------------------------------------------------------- the commits

  /** A commit that GitHub attributes to the account with this login. */
  predicate Authored(show: Json -> string, commit: Json, login: string) {
    && commit.JObj? && "author" in commit.fields && commit.fields["author"].JObj?
    && HasText(show, commit.fields["author"].fields, "login", login)
  }

  lemma LoginIff(show: Json -> string, commit: Json, login: string)
    ensures login != "" && CommitLogin(show, commit) == login <==> Authored(show, commit, login)
  {
    if commit.JObj? && "author" in commit.fields && commit.fields["author"].JObj? {
      TextIff(show, commit.fields["author"].fields, "login", login);
    }
  }

  /** The commit authors are exactly the accounts that some commit is attributed to. */
  lemma AuthorsIff(show: Json -> string, commits: seq<Json>, login: string)
    ensures login in CommitAuthors(show, commits) <==>
            exists i | 0 <= i < |commits| :: Authored(show, commits[i], login)
  {
    if login in CommitAuthors(show, commits) {
      var i :| 0 <= i < |commits| && CommitLogin(show, commits[i]) != "" && CommitLogin(show, commits[i]) == login;
      LoginIff(show, commits[i], login);
    }
    if i :| 0 <= i < |commits| && Authored(show, commits[i], login) {
      LoginIff(show, commits[i], login);
    }
  }

  // -------------------------------------------------------------- the comment

  lemma {:induction false} ContainsLeft(s: string, t: string, needle: string)
    requires Contains(s, needle)
    ensures Contains(s + t, needle)
    decreases s
  {
    if needle <= s {
      assert needle <= s + t;
    } else {
      ContainsLeft(s[1..], t, needle);
      assert (s + t)[1..] == s[1..] + t;
    }
  }

  lemma {:induction false} ContainsRight(s: string, t: string, needle: string)
    requires Contains(t, needle)
    ensures Contains(s + t, needle)
    decreases s
  {
    if s == "" {
      assert s + t == t;
    } else {
      ContainsRight(s[1..], t, needle);
      assert (s + t)[1..] == s[1..] + t;
    }
  }

  lemma {:induction false} MentionsEach(logins: seq<string>, i: nat)
    requires i < |logins|
    ensures Contains(Mentions(logins), "@" + logins[i])
  {
    if i == 0 {
      assert "@" + logins[0] <= Mentions(logins);
    } else {
      MentionsEach(logins[1..], i - 1);
      ContainsRight("@" + logins[0] + ", ", Mentions(logins[1..]), "@" + logins[i]);
    }
  }

  /** A text made of these parts shows each of the given ones. */
  lemma PartsShown(head: string, a: string, url: string, b: string, phrase: string, d: string, logins: seq<string>,
                   i: nat)
    requires i < |logins|
    ensures var text := head + (a + url + b + phrase + d + Mentions(logins));
            Contains(text, "@" + logins[i]) && Contains(text, phrase) && Contains(text, url)
  {
    var mentions := Mentions(logins);
    MentionsEach(logins, i);
    ContainsRight(a + url + b + phrase + d, mentions, "@" + logins[i]);
    ContainsRight(head, a + url + b + phrase + d + mentions, "@" + logins[i]);
    ContainsRight(a + url + b, phrase, phrase);
    ContainsLeft(a + url + b + phrase, d, phrase);
    ContainsLeft(a + url + b + phrase + d, mentions, phrase);
    ContainsRight(head, a + url + b + phrase + d + mentions, phrase);
    ContainsRight(a, url, url);
    ContainsLeft(a + url, b, url);
    ContainsLeft(a + url + b, phrase, url);
    ContainsLeft(a + url + b + phrase, d, url);
    ContainsLeft(a + url + b + phrase + d, mentions, url);
    ContainsRight(head, a + url + b + phrase + d + mentions, url);
  }

  const INTRODUCTION := "Thank you for the contribution. " + "Please review [`CLA.md`]("
  const INSTRUCTION := ") " + "and sign by commenting exactly:\n`"
  const LISTING := "`\n\nMissing signatures: "

  lemma PendingBody(state: State, phrase: string, url: string)
    requires state.missing != []
    ensures CommentBody(state, phrase, url) ==
            (COMMENT_MARKER + "\n") +
            (INTRODUCTION + url + INSTRUCTION + phrase + LISTING + Mentions(state.missing))
  {
  }

  /** While signatures are missing the comment mentions every missing signer, the phrase to write and
      the address of the document. */
  lemma PendingMentions(state: State, phrase: string, url: string, i: nat)
    requires i < |state.missing|
    ensures var body := CommentBody(state, phrase, url);
            Contains(body, "@" + state.missing[i]) && Contains(body, phrase) && Contains(body, url)
  {
    PendingBody(state, phrase, url);
    PartsShown(COMMENT_MARKER + "\n", INTRODUCTION, url, INSTRUCTION, phrase, LISTING, state.missing, i);
  }

  /** Once nobody is missing the comment mentions everyone who had to sign. */
  lemma SatisfiedMentions(state: State, phrase: string, url: string, i: nat)
    requires state.missing == [] && i < |state.required|
    ensures Contains(CommentBody(state, phrase, url), "@" + state.required[i])
  {
    var start := "CLA requirements satisfied.\n\n" + "Signed contributors: ";
    MentionsEach(state.required, i);
    ContainsRight(start, Mentions(state.required), "@" + state.required[i]);
    ContainsRight(COMMENT_MARKER + "\n", start + Mentions(state.required), "@" + state.required[i]);
  }
}
