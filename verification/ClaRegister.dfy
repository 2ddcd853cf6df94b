/** The CLA signature register (`cla_assistant.py`): a list of entries sorted by case-folded name,
    kept as JSON. `fold` stands for `str.casefold` and `show` for `str` of a JSON value that is not
    a string; nothing is assumed about either. */
module ClaRegister {
  import opened JsonValue
  import opened Text

  /** The fields of an entry are kept as JSON numbers, as they were read. */
  datatype Entry = Entry(
    name: string, id: Option<Json>, commentId: Option<Json>, createdAt: string,
    repoId: Option<Json>, pullRequest: Option<Json>)

  type Fold = string -> string

  // ---------------------------------------------------------------- reading

  function IntField(item: map<string, Json>, key: string): Option<Json> {
    if IsInt(Field(item, key)) then Some(Field(item, key)) else None
  }

  function ReadEntry(show: Json -> string, item: Json): Option<Entry> {
    if !item.JObj? then None
    else
      var name, createdAt := TextField(show, item.fields, "name"), TextField(show, item.fields, "created_at");
      if name == "" || createdAt == "" then None
      else Some(Entry(name, IntField(item.fields, "id"), IntField(item.fields, "comment_id"), createdAt,
                      IntField(item.fields, "repoId"), IntField(item.fields, "pullRequestNo")))
  }

  function ReadEntries(show: Json -> string, items: seq<Json>): seq<Entry> {
    if items == [] then []
    else
      var rest := ReadEntries(show, items[1..]);
      match ReadEntry(show, items[0])
      case None => rest
      case Some(entry) => [entry] + rest
  }

  /** `_normalize_signatures` */
  function Normalize(fold: Fold, show: Json -> string, payload: Json): seq<Entry> {
    if payload.JObj? && Field(payload.fields, "signedContributors").JList? then
      Sort(fold, ReadEntries(show, Field(payload.fields, "signedContributors").items))
    else []
  }

  lemma ReadStep(show: Json -> string, items: seq<Json>, i: nat)
    requires i < |items|
    ensures ReadEntries(show, items[i..]) ==
            var rest := ReadEntries(show, items[i + 1..]);
            var entry := ReadEntry(show, items[i]);
            if entry.Some? then [entry.value] + rest else rest
  {
    assert items[i..][1..] == items[i + 1..];
  }

  method NormalizeSignatures(fold: Fold, show: Json -> string, payload: Json) returns (register: seq<Entry>)
    ensures register == Normalize(fold, show, payload)
  {
    if !payload.JObj? {
      return [];
    }
    var contributors := Field(payload.fields, "signedContributors");
    if !contributors.JList? {
      return [];
    }
    var items := contributors.items;
    var normalized: seq<Entry> := [];
    ghost var left := ReadEntries(show, items);
    assert items[0..] == items;
    for i := 0 to |items|
      invariant left == ReadEntries(show, items[i..]) && normalized + left == ReadEntries(show, items)
    {
      ReadStep(show, items, i);
      left := ReadEntries(show, items[i + 1..]);
      var entry := ReadEntry(show, items[i]);
      if entry.Some? {
        normalized := normalized + [entry.value];
      }
    }
    assert items[|items|..] == [] && left == [];
    assert normalized + left == normalized;
    register := Sort(fold, normalized);
  }

  // ---------------------------------------------------------------- writing

  function Put(payload: map<string, Json>, key: string, value: Option<Json>): map<string, Json> {
    if value.Some? then payload[key := value.value] else payload
  }

  function ToPayload(entry: Entry): Json {
    var texts := map["name" := JStr(entry.name), "created_at" := JStr(entry.createdAt)];
    var ids := Put(Put(texts, "id", entry.id), "comment_id", entry.commentId);
    JObj(Put(Put(ids, "repoId", entry.repoId), "pullRequestNo", entry.pullRequest))
  }

  /** The value `_serialize_signatures` prints; JSON text is taken to carry it unchanged. */
  function Serialize(register: seq<Entry>): Json {
    JObj(map["signedContributors" := JList(Payloads(register))])
  }

  function Payloads(register: seq<Entry>): seq<Json> {
    if register == [] then [] else [ToPayload(register[0])] + Payloads(register[1..])
  }

  // ---------------------------------------------------------------- sorting

  function Key(fold: Fold, entry: Entry): string {
    fold(entry.name)
  }

  /** Insert after the entries whose key is not greater. */
  function Insert(fold: Fold, register: seq<Entry>, entry: Entry): seq<Entry> {
    if register == [] then [entry]
    else if Leq(Key(fold, register[0]), Key(fold, entry)) then
      [register[0]] + Insert(fold, register[1..], entry)
    else [entry] + register
  }

  /** The stable `sorted(entries, key=casefolded name)`. */
  function Sort(fold: Fold, entries: seq<Entry>): seq<Entry> {
    if entries == [] then []
    else Insert(fold, Sort(fold, entries[..|entries| - 1]), entries[|entries| - 1])
  }

  ghost predicate Sorted(fold: Fold, register: seq<Entry>) {
    forall i, j | 0 <= i < j < |register| :: Leq(Key(fold, register[i]), Key(fold, register[j]))
  }

  /** Sorted, with at most one entry per case-folded name. */
  ghost predicate Canonical(fold: Fold, register: seq<Entry>) {
    forall i, j | 0 <= i < j < |register| :: Less(Key(fold, register[i]), Key(fold, register[j]))
  }

  function Without(fold: Fold, register: seq<Entry>, key: string): seq<Entry> {
    if register == [] then []
    else
      var rest := Without(fold, register[1..], key);
      if Key(fold, register[0]) != key then [register[0]] + rest else rest
  }

  /** `_upsert_signature` */
  function Upsert(fold: Fold, register: seq<Entry>, entry: Entry): seq<Entry> {
    Sort(fold, Without(fold, register, Key(fold, entry)) + [entry])
  }

  function Signers(fold: Fold, register: seq<Entry>): set<string> {
    set i | 0 <= i < |register| :: Key(fold, register[i])
  }

  lemma SignersCons(fold: Fold, entry: Entry, rest: seq<Entry>)
    ensures Signers(fold, [entry] + rest) == {Key(fold, entry)} + Signers(fold, rest)
  {
    var all := [entry] + rest;
    assert all[0] == entry;
    assert forall i | 0 <= i < |rest| :: all[i + 1] == rest[i];
    forall k | k in Signers(fold, rest) ensures k in Signers(fold, all) {
      var i :| 0 <= i < |rest| && Key(fold, rest[i]) == k;
      assert Key(fold, all[i + 1]) == k;
    }
  }

  lemma {:induction false} InsertSigners(fold: Fold, register: seq<Entry>, entry: Entry)
    ensures Signers(fold, Insert(fold, register, entry)) == Signers(fold, register) + {Key(fold, entry)}
    ensures |Insert(fold, register, entry)| == |register| + 1
  {
    if register == [] {
      SignersCons(fold, entry, []);
    } else {
      assert register == [register[0]] + register[1..];
      SignersCons(fold, register[0], register[1..]);
      if Leq(Key(fold, register[0]), Key(fold, entry)) {
        InsertSigners(fold, register[1..], entry);
        SignersCons(fold, register[0], Insert(fold, register[1..], entry));
      } else {
        SignersCons(fold, entry, register);
      }
    }
  }

  lemma SignerIn(fold: Fold, register: seq<Entry>, i: nat)
    requires i < |register|
    ensures Key(fold, register[i]) in Signers(fold, register)
  {
  }

  /** A register headed by a key that is not above any other stays sorted. */
  lemma SortedCons(fold: Fold, entry: Entry, rest: seq<Entry>)
    requires Sorted(fold, rest)
    requires forall k | k in Signers(fold, rest) :: Leq(Key(fold, entry), k)
    ensures Sorted(fold, [entry] + rest)
  {
    var all := [entry] + rest;
    forall i, j | 0 <= i < j < |all| ensures Leq(Key(fold, all[i]), Key(fold, all[j])) {
      assert all[j] == rest[j - 1];
      SignerIn(fold, rest, j - 1);
      if i > 0 {
        assert all[i] == rest[i - 1];
      }
    }
  }

  lemma SortedHead(fold: Fold, register: seq<Entry>)
    requires Sorted(fold, register) && register != []
    ensures Sorted(fold, register[1..])
    ensures forall k | k in Signers(fold, register[1..]) :: Leq(Key(fold, register[0]), k)
  {
    assert forall i | 0 <= i < |register| - 1 :: register[1..][i] == register[i + 1];
  }

  lemma {:induction false} InsertSorted(fold: Fold, register: seq<Entry>, entry: Entry)
    requires Sorted(fold, register)
    ensures Sorted(fold, Insert(fold, register, entry))
  {
    if register != [] {
      var head, rest := register[0], register[1..];
      SortedHead(fold, register);
      if Leq(Key(fold, head), Key(fold, entry)) {
        InsertSorted(fold, rest, entry);
        InsertSigners(fold, rest, entry);
        SortedCons(fold, head, Insert(fold, rest, entry));
      } else {
        LeqTotal(Key(fold, head), Key(fold, entry));
        assert register == [head] + rest;
        SignersCons(fold, head, rest);
        forall k | k in Signers(fold, register) ensures Leq(Key(fold, entry), k) {
          if k != Key(fold, head) {
            LeqTransitive(Key(fold, entry), Key(fold, head), k);
          }
        }
        SortedCons(fold, entry, register);
      }
    }
  }

  lemma {:induction false} SortSorted(fold: Fold, entries: seq<Entry>)
    ensures Sorted(fold, Sort(fold, entries))
    ensures Signers(fold, Sort(fold, entries)) == Signers(fold, entries)
    ensures |Sort(fold, entries)| == |entries|
  {
    if entries != [] {
      var front, last := entries[..|entries| - 1], entries[|entries| - 1];
      SortSorted(fold, front);
      InsertSorted(fold, Sort(fold, front), last);
      InsertSigners(fold, Sort(fold, front), last);
      SignersSnoc(fold, front, last);
      assert entries == front + [last];
    }
  }

  lemma SignersSnoc(fold: Fold, front: seq<Entry>, last: Entry)
    ensures Signers(fold, front + [last]) == Signers(fold, front) + {Key(fold, last)}
  {
    var all := front + [last];
    assert all[|front|] == last;
    assert forall i | 0 <= i < |front| :: all[i] == front[i];
    SignerIn(fold, all, |front|);
    forall k | k in Signers(fold, front) ensures k in Signers(fold, all) {
      var i :| 0 <= i < |front| && Key(fold, front[i]) == k;
      SignerIn(fold, all, i);
    }
  }

  lemma {:induction false} InsertLast(fold: Fold, register: seq<Entry>, entry: Entry)
    requires forall k | k in Signers(fold, register) :: Leq(k, Key(fold, entry))
    ensures Insert(fold, register, entry) == register + [entry]
  {
    if register != [] {
      assert register == [register[0]] + register[1..];
      SignersCons(fold, register[0], register[1..]);
      InsertLast(fold, register[1..], entry);
    }
  }

  /** Sorting a sorted register changes nothing: the sort is stable. */
  lemma {:induction false} SortIdentity(fold: Fold, register: seq<Entry>)
    requires Sorted(fold, register)
    ensures Sort(fold, register) == register
  {
    if register != [] {
      var front, last := register[..|register| - 1], register[|register| - 1];
      SortIdentity(fold, front);
      assert forall i | 0 <= i < |front| :: front[i] == register[i];
      InsertLast(fold, front, last);
      assert front + [last] == register;
    }
  }

  // ----------------------------------------------------------------- upsert

  lemma {:induction false} WithoutSigners(fold: Fold, register: seq<Entry>, key: string)
    ensures Signers(fold, Without(fold, register, key)) == Signers(fold, register) - {key}
  {
    if register != [] {
      var head, rest := register[0], register[1..];
      assert register == [head] + rest;
      SignersCons(fold, head, rest);
      WithoutSigners(fold, rest, key);
      SignersCons(fold, head, Without(fold, rest, key));
    }
  }

  lemma {:induction false} WithoutSorted(fold: Fold, register: seq<Entry>, key: string)
    requires Sorted(fold, register)
    ensures Sorted(fold, Without(fold, register, key))
  {
    if register != [] {
      SortedHead(fold, register);
      WithoutSorted(fold, register[1..], key);
      WithoutSigners(fold, register[1..], key);
      SortedCons(fold, register[0], Without(fold, register[1..], key));
    }
  }

  lemma {:induction false} WithoutCanonical(fold: Fold, register: seq<Entry>, key: string)
    requires Canonical(fold, register)
    ensures Canonical(fold, Without(fold, register, key))
  {
    if register != [] {
      CanonicalHead(fold, register);
      WithoutCanonical(fold, register[1..], key);
      WithoutSigners(fold, register[1..], key);
      CanonicalCons(fold, register[0], Without(fold, register[1..], key));
    }
  }

  lemma CanonicalHead(fold: Fold, register: seq<Entry>)
    requires Canonical(fold, register) && register != []
    ensures Canonical(fold, register[1..])
    ensures forall k | k in Signers(fold, register[1..]) :: Less(Key(fold, register[0]), k)
  {
    assert forall i | 0 <= i < |register| - 1 :: register[1..][i] == register[i + 1];
  }

  lemma CanonicalCons(fold: Fold, entry: Entry, rest: seq<Entry>)
    requires Canonical(fold, rest)
    requires forall k | k in Signers(fold, rest) :: Less(Key(fold, entry), k)
    ensures Canonical(fold, [entry] + rest)
  {
    var all := [entry] + rest;
    forall i, j | 0 <= i < j < |all| ensures Less(Key(fold, all[i]), Key(fold, all[j])) {
      assert all[j] == rest[j - 1];
      SignerIn(fold, rest, j - 1);
      if i > 0 {
        assert all[i] == rest[i - 1];
      }
    }
  }

  lemma {:induction false} InsertCanonical(fold: Fold, register: seq<Entry>, entry: Entry)
    requires Canonical(fold, register) && Key(fold, entry) !in Signers(fold, register)
    ensures Canonical(fold, Insert(fold, register, entry))
  {
    if register != [] {
      var head, rest := register[0], register[1..];
      CanonicalHead(fold, register);
      assert register == [head] + rest;
      SignersCons(fold, head, rest);
      if Leq(Key(fold, head), Key(fold, entry)) {
        InsertCanonical(fold, rest, entry);
        InsertSigners(fold, rest, entry);
        CanonicalCons(fold, head, Insert(fold, rest, entry));
      } else {
        LeqTotal(Key(fold, head), Key(fold, entry));
        forall k | k in Signers(fold, register) ensures Less(Key(fold, entry), k) {
          if k != Key(fold, head) {
            LeqTransitive(Key(fold, entry), Key(fold, head), k);
          }
        }
        CanonicalCons(fold, entry, register);
      }
    }
  }

  lemma UpsertIsInsert(fold: Fold, register: seq<Entry>, entry: Entry)
    ensures Upsert(fold, register, entry) ==
            Insert(fold, Sort(fold, Without(fold, register, Key(fold, entry))), entry)
  {
    SortSnoc(fold, Without(fold, register, Key(fold, entry)), entry);
  }

  /** An upsert adds exactly the signer, whatever the register was, and keeps a canonical register
      canonical. */
  lemma UpsertSigners(fold: Fold, register: seq<Entry>, entry: Entry)
    ensures var updated := Upsert(fold, register, entry);
            && Signers(fold, updated) == Signers(fold, register) + {Key(fold, entry)}
            && Sorted(fold, updated)
            && (Canonical(fold, register) ==> Canonical(fold, updated))
  {
    var others := Without(fold, register, Key(fold, entry));
    UpsertIsInsert(fold, register, entry);
    WithoutSigners(fold, register, Key(fold, entry));
    SortSorted(fold, others);
    InsertSigners(fold, Sort(fold, others), entry);
    InsertSorted(fold, Sort(fold, others), entry);
    if Canonical(fold, register) {
      WithoutCanonical(fold, register, Key(fold, entry));
      SortIdentity(fold, others);
      InsertCanonical(fold, others, entry);
    }
  }

  function UpsertAll(fold: Fold, register: seq<Entry>, entries: seq<Entry>): seq<Entry>
    decreases entries
  {
    if entries == [] then register
    else UpsertAll(fold, Upsert(fold, register, entries[0]), entries[1..])
  }

  /** Whatever sequence of signings is applied, a canonical register stays canonical and its signers
      are the old ones and the new ones. */
  lemma {:induction false} RegisterStaysCanonical(fold: Fold, register: seq<Entry>, entries: seq<Entry>)
    ensures Signers(fold, UpsertAll(fold, register, entries)) == Signers(fold, register) + Signers(fold, entries)
    ensures Canonical(fold, register) ==> Canonical(fold, UpsertAll(fold, register, entries))
    decreases entries
  {
    if entries != [] {
      var first, rest := entries[0], entries[1..];
      UpsertSigners(fold, register, first);
      RegisterStaysCanonical(fold, Upsert(fold, register, first), rest);
      assert entries == [first] + rest;
      SignersCons(fold, first, rest);
    }
  }

  // ---------------------------------------------------------- commutation

  lemma InsertFirst(fold: Fold, register: seq<Entry>, entry: Entry)
    requires forall k | k in Signers(fold, register) :: !Leq(k, Key(fold, entry))
    ensures Insert(fold, register, entry) == [entry] + register
  {
    if register != [] {
      SignerIn(fold, register, 0);
    }
  }

  lemma AboveHead(fold: Fold, register: seq<Entry>, entry: Entry)
    requires Sorted(fold, register) && register != [] && !Leq(Key(fold, register[0]), Key(fold, entry))
    ensures forall k | k in Signers(fold, register) :: !Leq(k, Key(fold, entry))
  {
    SortedHead(fold, register);
    assert register == [register[0]] + register[1..];
    SignersCons(fold, register[0], register[1..]);
    LeqReflexive(Key(fold, register[0]));
    forall k | k in Signers(fold, register) ensures !Leq(k, Key(fold, entry)) {
      if Leq(k, Key(fold, entry)) {
        LeqTransitive(Key(fold, register[0]), k, Key(fold, entry));
        assert false;
      }
    }
  }

  lemma {:induction false} WithoutInsert(fold: Fold, register: seq<Entry>, entry: Entry, key: string)
    requires Sorted(fold, register)
    ensures Without(fold, Insert(fold, register, entry), key) ==
            if key == Key(fold, entry) then Without(fold, register, key)
            else Insert(fold, Without(fold, register, key), entry)
  {
    if register != [] {
      var head, rest := register[0], register[1..];
      SortedHead(fold, register);
      if Leq(Key(fold, head), Key(fold, entry)) {
        WithoutInsert(fold, rest, entry, key);
        assert ([head] + Insert(fold, rest, entry))[1..] == Insert(fold, rest, entry);
      } else {
        AboveHead(fold, register, entry);
        WithoutSorted(fold, register, key);
        WithoutSigners(fold, register, key);
        InsertFirst(fold, Without(fold, register, key), entry);
        assert ([entry] + register)[1..] == register;
      }
    }
  }

  lemma {:induction false} WithoutSnoc(fold: Fold, front: seq<Entry>, last: Entry, key: string)
    ensures Without(fold, front + [last], key) ==
            if Key(fold, last) == key then Without(fold, front, key) else Without(fold, front, key) + [last]
  {
    if front != [] {
      assert (front + [last])[1..] == front[1..] + [last];
      WithoutSnoc(fold, front[1..], last, key);
    }
  }

  lemma SortSnoc(fold: Fold, front: seq<Entry>, last: Entry)
    ensures Sort(fold, front + [last]) == Insert(fold, Sort(fold, front), last)
  {
    assert (front + [last])[..|front|] == front;
  }

  lemma {:induction false} WithoutSort(fold: Fold, entries: seq<Entry>, key: string)
    ensures Without(fold, Sort(fold, entries), key) == Sort(fold, Without(fold, entries, key))
  {
    if entries != [] {
      var front, last := entries[..|entries| - 1], entries[|entries| - 1];
      assert entries == front + [last];
      WithoutSort(fold, front, key);
      WithoutSnoc(fold, front, last, key);
      SortSorted(fold, front);
      WithoutInsert(fold, Sort(fold, front), last, key);
      SortSnoc(fold, Without(fold, front, key), last);
    }
  }

  lemma {:induction false} WithoutCommutes(fold: Fold, entries: seq<Entry>, a: string, b: string)
    ensures Without(fold, Without(fold, entries, a), b) == Without(fold, Without(fold, entries, b), a)
  {
    if entries != [] {
      WithoutCommutes(fold, entries[1..], a, b);
    }
  }

  lemma {:induction false} InsertCommutes(fold: Fold, register: seq<Entry>, a: Entry, b: Entry)
    requires Sorted(fold, register) && Key(fold, a) != Key(fold, b)
    ensures Insert(fold, Insert(fold, register, a), b) == Insert(fold, Insert(fold, register, b), a)
  {
    var ka, kb := Key(fold, a), Key(fold, b);
    LeqTotal(ka, kb);
    if Leq(ka, kb) && Leq(kb, ka) {
      LeqAntisymmetric(ka, kb);
    }
    if register != [] {
      var head, rest := register[0], register[1..];
      var kh := Key(fold, head);
      SortedHead(fold, register);
      LeqTotal(kh, ka);
      LeqTotal(kh, kb);
      assert ([a] + register)[1..] == register && ([b] + register)[1..] == register;
      if Leq(kh, ka) && Leq(kh, kb) {
        InsertCommutes(fold, rest, a, b);
        InsertUnderHead(fold, head, rest, a, b);
        InsertUnderHead(fold, head, rest, b, a);
      } else if Leq(kh, ka) {
        InsertAround(fold, head, rest, a, b);
      } else if Leq(kh, kb) {
        InsertAround(fold, head, rest, b, a);
      } else {
        InsertBefore(fold, register, a, b);
        InsertBefore(fold, register, b, a);
      }
    }
  }

  lemma InsertUnderHead(fold: Fold, head: Entry, rest: seq<Entry>, a: Entry, b: Entry)
    requires Leq(Key(fold, head), Key(fold, a)) && Leq(Key(fold, head), Key(fold, b))
    ensures Insert(fold, Insert(fold, [head] + rest, a), b) ==
            [head] + Insert(fold, Insert(fold, rest, a), b)
  {
    assert ([head] + rest)[1..] == rest;
    assert ([head] + Insert(fold, rest, a))[1..] == Insert(fold, rest, a);
  }

  lemma InsertAround(fold: Fold, head: Entry, rest: seq<Entry>, above: Entry, below: Entry)
    requires Leq(Key(fold, head), Key(fold, above)) && !Leq(Key(fold, head), Key(fold, below))
    ensures Insert(fold, Insert(fold, [head] + rest, above), below) ==
            Insert(fold, Insert(fold, [head] + rest, below), above)
  {
    var register := [head] + rest;
    assert register[1..] == rest;
    LeqTotal(Key(fold, head), Key(fold, below));
    LeqTransitive(Key(fold, below), Key(fold, head), Key(fold, above));
    assert ([below] + register)[1..] == register;
    assert ([head] + Insert(fold, rest, above))[0] == head;
  }

  lemma InsertBefore(fold: Fold, register: seq<Entry>, a: Entry, b: Entry)
    requires register != []
    requires !Leq(Key(fold, register[0]), Key(fold, a)) && !Leq(Key(fold, register[0]), Key(fold, b))
    ensures Insert(fold, Insert(fold, register, a), b) ==
            if Leq(Key(fold, a), Key(fold, b)) then [a, b] + register else [b, a] + register
  {
    assert ([a] + register)[1..] == register;
    assert Insert(fold, register, a) == [a] + register;
    assert Insert(fold, register, b) == [b] + register;
  }

  /** What two upserts leave when the second signer is not the first one. */
  lemma UpsertTwice(fold: Fold, register: seq<Entry>, a: Entry, b: Entry)
    requires Key(fold, a) != Key(fold, b)
    ensures Upsert(fold, Upsert(fold, register, a), b) ==
            Insert(fold, Insert(fold, Sort(fold, Without(fold, Without(fold, register, Key(fold, a)), Key(fold, b))),
                                a), b)
  {
    var ka, kb := Key(fold, a), Key(fold, b);
    var others := Without(fold, register, ka);
    var first := Insert(fold, Sort(fold, others), a);
    UpsertIsInsert(fold, register, a);
    UpsertIsInsert(fold, first, b);
    SortSorted(fold, others);
    WithoutInsert(fold, Sort(fold, others), a, kb);
    WithoutSort(fold, others, kb);
    var both := Sort(fold, Without(fold, others, kb));
    SortSorted(fold, Without(fold, others, kb));
    InsertSorted(fold, both, a);
    SortIdentity(fold, Insert(fold, both, a));
  }

  /** Two signers may sign in either order: the register is the same, whatever it was before. */
  lemma UpsertsCommute(fold: Fold, register: seq<Entry>, a: Entry, b: Entry)
    requires Key(fold, a) != Key(fold, b)
    ensures Upsert(fold, Upsert(fold, register, a), b) == Upsert(fold, Upsert(fold, register, b), a)
  {
    var ka, kb := Key(fold, a), Key(fold, b);
    UpsertTwice(fold, register, a, b);
    UpsertTwice(fold, register, b, a);
    WithoutCommutes(fold, register, ka, kb);
    var others := Without(fold, Without(fold, register, ka), kb);
    SortSorted(fold, others);
    InsertCommutes(fold, Sort(fold, others), a, b);
  }

  lemma {:induction false} WithoutTwice(fold: Fold, entries: seq<Entry>, key: string)
    ensures Without(fold, Without(fold, entries, key), key) == Without(fold, entries, key)
  {
    if entries != [] {
      WithoutTwice(fold, entries[1..], key);
    }
  }

  /** Signing again replaces the signer's own entry and nothing else. */
  lemma UpsertReplaces(fold: Fold, register: seq<Entry>, a: Entry, b: Entry)
    requires Key(fold, a) == Key(fold, b)
    ensures Upsert(fold, Upsert(fold, register, a), b) == Upsert(fold, register, b)
  {
    var others := Without(fold, register, Key(fold, a));
    var first := Insert(fold, Sort(fold, others), a);
    UpsertIsInsert(fold, register, a);
    UpsertIsInsert(fold, register, b);
    UpsertIsInsert(fold, first, b);
    SortSorted(fold, others);
    WithoutInsert(fold, Sort(fold, others), a, Key(fold, b));
    WithoutSort(fold, others, Key(fold, b));
    WithoutTwice(fold, register, Key(fold, b));
    SortIdentity(fold, Sort(fold, others));
  }

  // ------------------------------------------------------------- round trip

  predicate OptionalInt(value: Option<Json>) {
    value.None? || IsInt(value.value)
  }

  /** The entries that come back from the file as they were written. */
  predicate Readable(entry: Entry) {
    && entry.name != "" && Trimmed(entry.name)
    && entry.createdAt != "" && Trimmed(entry.createdAt)
    && OptionalInt(entry.id) && OptionalInt(entry.commentId)
    && OptionalInt(entry.repoId) && OptionalInt(entry.pullRequest)
  }

  predicate AllReadable(register: seq<Entry>) {
    forall i | 0 <= i < |register| :: Readable(register[i])
  }

  function KeepInt(value: Option<Json>): Option<Json> {
    if OptionalInt(value) then value else None
  }

  function Written(value: Option<Json>): Json {
    if value.Some? then value.value else JNull
  }

  lemma PayloadFields(entry: Entry)
    ensures var fields := ToPayload(entry).fields;
            && Field(fields, "name") == JStr(entry.name)
            && Field(fields, "created_at") == JStr(entry.createdAt)
            && Field(fields, "id") == Written(entry.id)
            && Field(fields, "comment_id") == Written(entry.commentId)
            && Field(fields, "repoId") == Written(entry.repoId)
            && Field(fields, "pullRequestNo") == Written(entry.pullRequest)
  {
  }

  /** What one written entry is read back as: name and date trimmed, and nothing at all when one of
      them is blank. */
  lemma EntryReadBack(show: Json -> string, entry: Entry)
    ensures ReadEntry(show, ToPayload(entry)) ==
            if Strip(entry.name) == "" || Strip(entry.createdAt) == "" then None
            else Some(Entry(Strip(entry.name), KeepInt(entry.id), KeepInt(entry.commentId),
                            Strip(entry.createdAt), KeepInt(entry.repoId), KeepInt(entry.pullRequest)))
  {
    PayloadFields(entry);
  }

  lemma ReadEntryReadable(show: Json -> string, item: Json)
    ensures ReadEntry(show, item).Some? ==> Readable(ReadEntry(show, item).value)
  {
    if item.JObj? {
      var name, date := Field(item.fields, "name"), Field(item.fields, "created_at");
      StripTwice(if name.JStr? then name.s else show(name));
      StripTwice(if date.JStr? then date.s else show(date));
    }
  }

  lemma {:induction false} ReadEntriesReadable(show: Json -> string, items: seq<Json>)
    ensures AllReadable(ReadEntries(show, items))
  {
    if items != [] {
      ReadEntryReadable(show, items[0]);
      ReadEntriesReadable(show, items[1..]);
    }
  }

  lemma {:induction false} InsertReadable(fold: Fold, register: seq<Entry>, entry: Entry)
    requires AllReadable(register) && Readable(entry)
    ensures AllReadable(Insert(fold, register, entry))
  {
    if register != [] {
      assert forall i | 0 <= i < |register| - 1 :: register[1..][i] == register[i + 1];
      InsertReadable(fold, register[1..], entry);
    }
  }

  lemma {:induction false} SortReadable(fold: Fold, entries: seq<Entry>)
    requires AllReadable(entries)
    ensures AllReadable(Sort(fold, entries))
  {
    if entries != [] {
      var front := entries[..|entries| - 1];
      assert forall i | 0 <= i < |front| :: front[i] == entries[i];
      SortReadable(fold, front);
      InsertReadable(fold, Sort(fold, front), entries[|entries| - 1]);
    }
  }

  /** Every register that is read is sorted and readable again. */
  lemma NormalizedShape(fold: Fold, show: Json -> string, payload: Json)
    ensures Sorted(fold, Normalize(fold, show, payload))
    ensures AllReadable(Normalize(fold, show, payload))
  {
    if payload.JObj? && Field(payload.fields, "signedContributors").JList? {
      var entries := ReadEntries(show, Field(payload.fields, "signedContributors").items);
      ReadEntriesReadable(show, Field(payload.fields, "signedContributors").items);
      SortSorted(fold, entries);
      SortReadable(fold, entries);
    }
  }

  lemma {:induction false} PayloadsReadBack(show: Json -> string, register: seq<Entry>)
    requires AllReadable(register)
    ensures ReadEntries(show, Payloads(register)) == register
  {
    if register != [] {
      var entry, rest := register[0], register[1..];
      EntryReadBack(show, entry);
      StripOfTrimmed(entry.name);
      StripOfTrimmed(entry.createdAt);
      assert Readable(entry);
      assert forall i | 0 <= i < |rest| :: rest[i] == register[i + 1];
      PayloadsReadBack(show, rest);
      assert ([ToPayload(entry)] + Payloads(rest))[1..] == Payloads(rest);
      assert [entry] + rest == register;
    }
  }

  /** Reading a written register gives the register back exactly when it is sorted and readable. */
  lemma RegisterRoundTrip(fold: Fold, show: Json -> string, register: seq<Entry>)
    ensures Normalize(fold, show, Serialize(register)) == register <==>
            Sorted(fold, register) && AllReadable(register)
  {
    NormalizedShape(fold, show, Serialize(register));
    if Sorted(fold, register) && AllReadable(register) {
      PayloadsReadBack(show, register);
      SortIdentity(fold, register);
    }
  }

  // ------------------------------------------------ one signing, read back

  /** What `run` passes on as the new entry: a trimmed, non-empty login and integer ids. */
  predicate Signable(entry: Entry) {
    && entry.name != "" && Trimmed(entry.name)
    && OptionalInt(entry.id) && OptionalInt(entry.commentId)
    && OptionalInt(entry.repoId) && OptionalInt(entry.pullRequest)
  }

  predicate Dated(entry: Entry) {
    Strip(entry.createdAt) != ""
  }

  function Settled(entry: Entry): Entry {
    entry.(createdAt := Strip(entry.createdAt))
  }

  lemma {:induction false} InsertReadBack(fold: Fold, show: Json -> string, register: seq<Entry>, entry: Entry)
    requires AllReadable(register) && Signable(entry)
    ensures ReadEntries(show, Payloads(Insert(fold, register, entry))) ==
            if Dated(entry) then Insert(fold, register, Settled(entry)) else register
  {
    EntryReadBack(show, entry);
    StripOfTrimmed(entry.name);
    PayloadsReadBack(show, register);
    if register == [] || !Leq(Key(fold, register[0]), Key(fold, entry)) {
      PayloadsCons(show, entry, register);
    } else {
      var head, rest := register[0], register[1..];
      assert forall i | 0 <= i < |rest| :: rest[i] == register[i + 1];
      assert Readable(head);
      EntryReadBack(show, head);
      StripOfTrimmed(head.name);
      StripOfTrimmed(head.createdAt);
      InsertReadBack(fold, show, rest, entry);
      PayloadsCons(show, head, Insert(fold, rest, entry));
      assert [head] + rest == register;
    }
  }

  lemma PayloadsCons(show: Json -> string, entry: Entry, rest: seq<Entry>)
    ensures ReadEntries(show, Payloads([entry] + rest)) ==
            var tail := ReadEntries(show, Payloads(rest));
            var head := ReadEntry(show, ToPayload(entry));
            if head.Some? then [head.value] + tail else tail
  {
    assert ([entry] + rest)[1..] == rest;
    assert Payloads([entry] + rest) == [ToPayload(entry)] + Payloads(rest);
    assert ([ToPayload(entry)] + Payloads(rest))[1..] == Payloads(rest);
  }

  lemma {:induction false} WithoutReadable(fold: Fold, register: seq<Entry>, key: string)
    requires AllReadable(register)
    ensures AllReadable(Without(fold, register, key))
  {
    if register != [] {
      assert forall i | 0 <= i < |register| - 1 :: register[1..][i] == register[i + 1];
      WithoutReadable(fold, register[1..], key);
    }
  }

  /** The file written by a signing run is read back as the upsert of the dated entry; a signing
      whose date is blank erases the signer instead. */
  lemma SigningReadBack(fold: Fold, show: Json -> string, register: seq<Entry>, entry: Entry)
    requires AllReadable(register) && Signable(entry)
    ensures Normalize(fold, show, Serialize(Upsert(fold, register, entry))) ==
            if Dated(entry) then Upsert(fold, register, Settled(entry))
            else Sort(fold, Without(fold, register, Key(fold, entry)))
  {
    var others := Without(fold, register, Key(fold, entry));
    var sorted := Sort(fold, others);
    UpsertIsInsert(fold, register, entry);
    UpsertIsInsert(fold, register, Settled(entry));
    WithoutReadable(fold, register, Key(fold, entry));
    SortReadable(fold, others);
    SortSorted(fold, others);
    InsertReadBack(fold, show, sorted, entry);
    InsertSorted(fold, sorted, Settled(entry));
    SortIdentity(fold, Insert(fold, sorted, Settled(entry)));
    SortIdentity(fold, sorted);
  }

  /** The signer is in the file afterwards exactly when the signing carries a date. */
  lemma SignedIffDated(fold: Fold, show: Json -> string, register: seq<Entry>, entry: Entry)
    requires AllReadable(register) && Signable(entry)
    ensures var written := Serialize(Upsert(fold, register, entry));
            Signers(fold, Normalize(fold, show, written)) ==
            if Dated(entry) then Signers(fold, register) + {Key(fold, entry)}
            else Signers(fold, register) - {Key(fold, entry)}
  {
    SigningReadBack(fold, show, register, entry);
    UpsertSigners(fold, register, Settled(entry));
    WithoutSigners(fold, register, Key(fold, entry));
    SortSorted(fold, Without(fold, register, Key(fold, entry)));
  }
}
