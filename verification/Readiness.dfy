/** What still keeps a deployment bundle from being ready (`generate_managed_deployment_artifacts.py`,
    `managed_deployment_contract.py`). */
module Readiness {
  import opened JsonValue
  import opened ManagedContract
  import opened Text

  // ------------------------------------------------ unresolved strings in JSON

  function Decimal(n: nat): string {
    if n < 10 then [('0' as int + n) as char] else Decimal(n / 10) + [('0' as int + n % 10) as char]
  }

  function ChildOfObject(path: string, key: string): string {
    if path != "" then path + "." + key else key
  }

  function ChildOfList(path: string, index: nat): string {
    path + "[" + Decimal(index) + "]"
  }

  /** `set(_json_placeholder_blockers(payload, path=path))`; every caller makes a set of the list. */
  function Blockers(payload: Json, path: string): set<string>
    decreases payload
  {
    match payload
    case JObj(fields) => set key, b | key in fields && b in Blockers(fields[key], ChildOfObject(path, key)) :: b
    case JList(items) => set i, b | 0 <= i < |items| && b in Blockers(items[i], ChildOfList(path, i)) :: b
    case JStr(s) => if Unresolved(s) then {if path != "" then path else "<root>"} else {}
    case _ => {}
  }

  datatype Step = Key(key: string) | Index(index: nat)

  /** The value found by following the steps into the payload. */
  function At(payload: Json, steps: seq<Step>): Option<Json>
    decreases steps
  {
    if steps == [] then Some(payload)
    else
      match steps[0]
      case Key(key) =>
        if payload.JObj? && key in payload.fields then At(payload.fields[key], steps[1..]) else None
      case Index(index) =>
        if payload.JList? && index < |payload.items| then At(payload.items[index], steps[1..]) else None
  }

  ghost predicate UnresolvedLeaf(payload: Json, steps: seq<Step>) {
    var leaf := At(payload, steps);
    leaf.Some? && leaf.value.JStr? && Unresolved(leaf.value.s)
  }

  lemma {:induction false} LeafBlocks(payload: Json, path: string, steps: seq<Step>)
    requires UnresolvedLeaf(payload, steps)
    ensures Blockers(payload, path) != {}
    decreases steps
  {
    if steps != [] {
      match steps[0]
      case Key(key) =>
        LeafBlocks(payload.fields[key], ChildOfObject(path, key), steps[1..]);
        var b :| b in Blockers(payload.fields[key], ChildOfObject(path, key));
        assert b in Blockers(payload, path);
      case Index(index) =>
        LeafBlocks(payload.items[index], ChildOfList(path, index), steps[1..]);
        var b :| b in Blockers(payload.items[index], ChildOfList(path, index));
        assert b in Blockers(payload, path);
    }
  }

  lemma {:induction false} BlockerHasLeaf(payload: Json, path: string) returns (steps: seq<Step>)
    requires Blockers(payload, path) != {}
    ensures UnresolvedLeaf(payload, steps)
    decreases payload
  {
    steps := [];
    match payload
    case JObj(fields) =>
      var b :| b in Blockers(payload, path);
      var key :| key in fields && b in Blockers(fields[key], ChildOfObject(path, key));
      var rest := BlockerHasLeaf(fields[key], ChildOfObject(path, key));
      steps := [Key(key)] + rest;
      assert steps[1..] == rest;
    case JList(items) =>
      var b :| b in Blockers(payload, path);
      var i :| 0 <= i < |items| && b in Blockers(items[i], ChildOfList(path, i));
      var rest := BlockerHasLeaf(items[i], ChildOfList(path, i));
      steps := [Index(i)] + rest;
      assert steps[1..] == rest;
    case _ =>
  }

  /** However deeply a payload is nested, it has no blockers exactly when no string anywhere in it is
      blank or holds a placeholder. */
  lemma BlockersIff(payload: Json, path: string)
    ensures Blockers(payload, path) == {} <==> forall steps :: !UnresolvedLeaf(payload, steps)
  {
    if Blockers(payload, path) == {} {
      forall steps ensures !UnresolvedLeaf(payload, steps) {
        if UnresolvedLeaf(payload, steps) {
          LeafBlocks(payload, path, steps);
        }
      }
    } else {
      var steps := BlockerHasLeaf(payload, path);
    }
  }

  /** The text of the way to a value: keys joined by dots, indices in brackets. */
  function Named(path: string, steps: seq<Step>): string
    decreases steps
  {
    if steps == [] then (if path == "" then "<root>" else path)
    else
      match steps[0]
      case Key(key) => Named(if path == "" then key else path + ("." + key), steps[1..])
      case Index(index) => Named(path + ("[" + Decimal(index) + "]"), steps[1..])
  }

  function Number(digits: string): nat
    requires forall i | 0 <= i < |digits| :: '0' <= digits[i] <= '9'
  {
    if digits == "" then 0
    else 10 * Number(digits[..|digits| - 1]) + (digits[|digits| - 1] as int - '0' as int)
  }

  /** An index is written in decimal digits, without leading zeros. */
  lemma {:induction false} DecimalRead(n: nat)
    ensures var text := Decimal(n);
            && text != "" && (forall i | 0 <= i < |text| :: '0' <= text[i] <= '9')
            && Number(text) == n && (text[0] == '0' ==> n == 0)
  {
    var text := Decimal(n);
    if n < 10 {
      assert text[..0] == "";
    } else {
      DecimalRead(n / 10);
      assert text[..|text| - 1] == Decimal(n / 10);
    }
  }

  lemma {:induction false} LeafNamed(payload: Json, path: string, steps: seq<Step>)
    requires UnresolvedLeaf(payload, steps)
    ensures Named(path, steps) in Blockers(payload, path)
    decreases steps
  {
    if steps != [] {
      match steps[0]
      case Key(key) =>
        assert path + ("." + key) == path + "." + key;
        LeafNamed(payload.fields[key], ChildOfObject(path, key), steps[1..]);
      case Index(index) =>
        assert path + ("[" + Decimal(index) + "]") == path + "[" + Decimal(index) + "]";
        LeafNamed(payload.items[index], ChildOfList(path, index), steps[1..]);
    }
  }

  lemma KeyStep(payload: Json, path: string, key: string, rest: seq<Step>)
    requires payload.JObj? && key in payload.fields && UnresolvedLeaf(payload.fields[key], rest)
    ensures UnresolvedLeaf(payload, [Key(key)] + rest)
    ensures Named(path, [Key(key)] + rest) == Named(ChildOfObject(path, key), rest)
  {
    var steps := [Key(key)] + rest;
    assert steps[1..] == rest && path + ("." + key) == path + "." + key;
  }

  lemma IndexStep(payload: Json, path: string, i: nat, rest: seq<Step>)
    requires payload.JList? && i < |payload.items| && UnresolvedLeaf(payload.items[i], rest)
    ensures UnresolvedLeaf(payload, [Index(i)] + rest)
    ensures Named(path, [Index(i)] + rest) == Named(ChildOfList(path, i), rest)
  {
    var steps := [Index(i)] + rest;
    assert steps[1..] == rest && path + ("[" + Decimal(i) + "]") == path + "[" + Decimal(i) + "]";
  }

  lemma {:induction false} BlockerNamed(payload: Json, path: string, b: string) returns (steps: seq<Step>)
    requires b in Blockers(payload, path)
    ensures UnresolvedLeaf(payload, steps) && b == Named(path, steps)
    decreases payload
  {
    steps := [];
    match payload
    case JObj(fields) =>
      var key :| key in fields && b in Blockers(fields[key], ChildOfObject(path, key));
      var rest := BlockerNamed(fields[key], ChildOfObject(path, key), b);
      KeyStep(payload, path, key, rest);
      steps := [Key(key)] + rest;
    case JList(items) =>
      var i :| 0 <= i < |items| && b in Blockers(items[i], ChildOfList(path, i));
      var rest := BlockerNamed(items[i], ChildOfList(path, i), b);
      IndexStep(payload, path, i, rest);
      steps := [Index(i)] + rest;
    case _ =>
  }

  /** The blockers are the texts of the ways to the strings that are blank or hold a placeholder. */
  lemma BlockersNamed(payload: Json, b: string)
    ensures b in Blockers(payload, "") <==> exists steps :: UnresolvedLeaf(payload, steps) && b == Named("", steps)
  {
    if b in Blockers(payload, "") {
      var steps := BlockerNamed(payload, "", b);
    }
    if steps :| UnresolvedLeaf(payload, steps) && b == Named("", steps) {
      LeafNamed(payload, "", steps);
    }
  }

  // ------------------------------------------------------------ terraform inputs

  const TERRAFORM_INPUTS :=
    ["gcp_project_id", "gcp_region", "cloudflare_account_id", "cloudflare_zone_id",
     "cloudflare_pages_project_name", "cloudflare_pages_" + "production_branch", "supabase_organization_id",
     "supabase_project_ref", "supabase_project_name", "supabase_region"]

  function Upper(s: string): string {
    if s == [] then []
    else [if 'a' <= s[0] <= 'z' then s[0] - 'a' + 'A' else s[0]] + Upper(s[1..])
  }

  /** `_resolved_or_placeholder` */
  function ResolvedOrPlaceholder(value: string, name: string): string {
    if Strip(value) != "" then Strip(value) else PLACEHOLDER_PREFIX + name
  }

  /** The strings of an environment, as JSON. */
  function EnvJson(values: map<string, string>): Json {
    JObj(map key | key in values :: JStr(values[key]))
  }

  /** The inputs every bundle has, resolved or as placeholders. */
  function InputFields(inputs: map<string, string>): map<string, Json> {
    map key | key in TERRAFORM_INPUTS :: JStr(ResolvedOrPlaceholder(Get(inputs, key, ""), Upper(key)))
  }

  function Environments(plain: map<string, string>, secret: map<string, string>): map<string, Json> {
    map["runtime_plain_env" := EnvJson(plain), "runtime_secret_env" := EnvJson(secret)]
  }

  /** The variables handed to Terraform: the inputs, the two environments, and other strings. */
  function TerraformPayload(inputs: map<string, string>, others: map<string, string>,
                            plain: map<string, string>, secret: map<string, string>): map<string, Json>
  {
    EnvJson(others).fields + InputFields(inputs) + Environments(plain, secret)
  }

  function TextOf(j: Json): string {
    if j.JStr? then j.s else ""
  }

  /** `_terraform_remaining_inputs`, for payloads whose inputs are strings. */
  function RemainingInputs(payload: map<string, Json>, keys: seq<string>): set<string> {
    set i | 0 <= i < |keys| && Unresolved(TextOf(Field(payload, keys[i]))) :: keys[i]
  }

  /** `_placeholder_keys` */
  function PlaceholderKeys(payload: map<string, string>): set<string> {
    set key | key in payload && (Strip(payload[key]) == "" || ContainsPlaceholder(payload[key])) :: key
  }

  lemma {:induction false} Occurrence(s: string, needle: string) returns (k: nat)
    requires Contains(s, needle)
    ensures k + |needle| <= |s| && s[k..k + |needle|] == needle
  {
    k := 0;
    if needle <= s {
      assert s[..|needle|] == needle;
    } else {
      var rest := Occurrence(s[1..], needle);
      k := rest + 1;
      assert s[1..][rest..rest + |needle|] == s[k..k + |needle|];
    }
  }

  lemma {:induction false} OccurrenceContains(s: string, needle: string, k: nat)
    requires k + |needle| <= |s| && s[k..k + |needle|] == needle
    ensures Contains(s, needle)
  {
    if k == 0 {
      assert s[..|needle|] == needle;
    } else {
      assert s[1..][k - 1..k - 1 + |needle|] == s[k..k + |needle|];
      OccurrenceContains(s[1..], needle, k - 1);
    }
  }

  lemma SliceOfSlice(s: string, a: nat, b: nat, i: nat, j: nat)
    requires a <= b <= |s| && i <= j <= b - a
    ensures s[a..b][i..j] == s[a + i..a + j]
  {
    assert forall k | 0 <= k < j - i :: s[a..b][i..j][k] == s[a + i..a + j][k];
  }

  /** Whether a text holds a placeholder does not depend on the white space around it. */
  lemma PlaceholderStripped(value: string)
    ensures ContainsPlaceholder(Strip(value)) <==> ContainsPlaceholder(value)
    ensures ContainsPlaceholder(value) ==> Strip(value) != ""
  {
    var a, b := StripSlice(value);
    var n := |PLACEHOLDER_PREFIX|;
    if ContainsPlaceholder(Strip(value)) {
      var k := Occurrence(Strip(value), PLACEHOLDER_PREFIX);
      SliceOfSlice(value, a, b, k, k + n);
      OccurrenceContains(value, PLACEHOLDER_PREFIX, a + k);
    }
    if ContainsPlaceholder(value) {
      var k := Occurrence(value, PLACEHOLDER_PREFIX);
      assert value[k] == value[k..k + n][0] == 'R' && value[k + n - 1] == value[k..k + n][n - 1] == '_';
      SliceOfSlice(value, a, b, k - a, k - a + n);
      OccurrenceContains(value[a..b], PLACEHOLDER_PREFIX, k - a);
    }
  }

  lemma EnvBlocked(fields: map<string, Json>, env: string, values: map<string, string>, key: string)
    requires env != "" && env in fields && fields[env] == EnvJson(values) && key in PlaceholderKeys(values)
    ensures env + "." + key in Blockers(JObj(fields), "")
  {
    PlaceholderStripped(values[key]);
    var inner := EnvJson(values);
    assert inner.fields[key] == JStr(values[key]);
    assert ChildOfObject("", env) == env && ChildOfObject(env, key) == env + "." + key;
    assert env + "." + key in Blockers(inner.fields[key], ChildOfObject(env, key));
    assert env + "." + key in Blockers(inner, ChildOfObject("", env));
  }

  lemma FieldBlocked(fields: map<string, Json>, key: string)
    requires key != "" && key in fields && fields[key].JStr? && Unresolved(fields[key].s)
    ensures key in Blockers(JObj(fields), "")
  {
    assert ChildOfObject("", key) == key;
    assert key in Blockers(fields[key], ChildOfObject("", key));
  }

  lemma InputNames(key: string)
    requires key in TERRAFORM_INPUTS
    ensures key != "" && key != "runtime_plain_env" && key != "runtime_secret_env"
  {
    var i :| 0 <= i < |TERRAFORM_INPUTS| && TERRAFORM_INPUTS[i] == key;
    assert TERRAFORM_INPUTS[i][0] != 'r';
  }

  lemma MiddleField(first: map<string, Json>, middle: map<string, Json>, last: map<string, Json>, key: string)
    requires key in middle && key !in last
    ensures key in first + middle + last && (first + middle + last)[key] == middle[key]
  {
  }

  lemma InputInPayload(inputs: map<string, string>, others: map<string, string>, plain: map<string, string>,
                       secret: map<string, string>, key: string)
    requires key in TERRAFORM_INPUTS
    ensures var payload := TerraformPayload(inputs, others, plain, secret);
            key in payload && payload[key] == JStr(ResolvedOrPlaceholder(Get(inputs, key, ""), Upper(key)))
  {
    InputNames(key);
    NotAnEnvironment(plain, secret, key);
    MiddleField(EnvJson(others).fields, InputFields(inputs), Environments(plain, secret), key);
    InputField(inputs, key);
  }

  lemma NotAnEnvironment(plain: map<string, string>, secret: map<string, string>, key: string)
    requires key != "runtime_plain_env" && key != "runtime_secret_env"
    ensures key !in Environments(plain, secret)
  {
  }

  lemma InputField(inputs: map<string, string>, key: string)
    requires key in TERRAFORM_INPUTS
    ensures key in InputFields(inputs)
    ensures InputFields(inputs)[key] == JStr(ResolvedOrPlaceholder(Get(inputs, key, ""), Upper(key)))
  {
    var fields := InputFields(inputs);
    assert key in fields;
  }

  lemma PlaceholderUnresolved(name: string)
    ensures Unresolved(PLACEHOLDER_PREFIX + name)
  {
    var value := PLACEHOLDER_PREFIX + name;
    assert value[0..|PLACEHOLDER_PREFIX|] == PLACEHOLDER_PREFIX;
    OccurrenceContains(value, PLACEHOLDER_PREFIX, 0);
    PlaceholderStripped(value);
  }

  /** Every input still to be supplied, every secret and every plain value without a real value is
      named among the value blockers, so a bundle that is ready for Terraform has none of them. An
      input that was not given counts, because its placeholder does. */
  lemma ReadyForTerraform(inputs: map<string, string>, others: map<string, string>, plain: map<string, string>,
                          secret: map<string, string>)
    ensures var payload := TerraformPayload(inputs, others, plain, secret);
            var blockers := Blockers(JObj(payload), "");
            && RemainingInputs(payload, TERRAFORM_INPUTS) <= blockers
            && (forall key | key in TERRAFORM_INPUTS && Strip(Get(inputs, key, "")) == "" :: key in blockers)
            && (forall key | key in PlaceholderKeys(secret) :: "runtime_secret_env" + "." + key in blockers)
            && (forall key | key in PlaceholderKeys(plain) :: "runtime_plain_env" + "." + key in blockers)
  {
    var payload := TerraformPayload(inputs, others, plain, secret);
    forall key | key in TERRAFORM_INPUTS
      ensures Unresolved(TextOf(Field(payload, key))) ==> key in Blockers(JObj(payload), "")
      ensures Strip(Get(inputs, key, "")) == "" ==> key in Blockers(JObj(payload), "")
    {
      InputNames(key);
      InputInPayload(inputs, others, plain, secret, key);
      PlaceholderUnresolved(Upper(key));
      if Unresolved(TextOf(Field(payload, key))) {
        FieldBlocked(payload, key);
      }
    }
    forall key | key in PlaceholderKeys(secret)
      ensures "runtime_secret_env" + "." + key in Blockers(JObj(payload), "")
    {
      EnvBlocked(payload, "runtime_secret_env", secret, key);
    }
    forall key | key in PlaceholderKeys(plain) ensures "runtime_plain_env" + "." + key in Blockers(JObj(payload), "") {
      EnvBlocked(payload, "runtime_plain_env", plain, key);
    }
  }

  lemma FieldsClean(fields: map<string, Json>)
    ensures Blockers(JObj(fields), "") == {} <==>
            forall key | key in fields :: Blockers(fields[key], ChildOfObject("", key)) == {}
  {
    forall key | key in fields && Blockers(fields[key], ChildOfObject("", key)) != {}
      ensures Blockers(JObj(fields), "") != {}
    {
      var b :| b in Blockers(fields[key], ChildOfObject("", key));
      assert b in Blockers(JObj(fields), "");
    }
  }

  lemma EnvClean(values: map<string, string>, path: string)
    ensures Blockers(EnvJson(values), path) == {} <==> PlaceholderKeys(values) == {}
  {
    var fields := EnvJson(values).fields;
    forall key | key in values
      ensures key in PlaceholderKeys(values) <==> Blockers(fields[key], ChildOfObject(path, key)) != {}
    {
      PlaceholderStripped(values[key]);
      assert Unresolved(values[key]) ==>
          (if ChildOfObject(path, key) != "" then ChildOfObject(path, key) else "<root>")
            in Blockers(fields[key], ChildOfObject(path, key));
    }
    if Blockers(EnvJson(values), path) != {} {
      var b :| b in Blockers(EnvJson(values), path);
      var key :| key in fields && b in Blockers(fields[key], ChildOfObject(path, key));
      assert key in PlaceholderKeys(values);
    }
    if PlaceholderKeys(values) != {} {
      var key :| key in PlaceholderKeys(values);
      var b :| b in Blockers(fields[key], ChildOfObject(path, key));
      assert b in Blockers(EnvJson(values), path);
    }
  }

  lemma TextClean(s: string, path: string)
    ensures Blockers(JStr(s), path) == {} <==> !Unresolved(s)
  {
  }

  lemma GivenInput(value: string, name: string)
    ensures Unresolved(ResolvedOrPlaceholder(value, name)) <==> Unresolved(value)
  {
    StripTwice(value);
    PlaceholderUnresolved(name);
  }

  const ENVIRONMENTS := {"runtime_plain_env", "runtime_secret_env"}

  lemma EnvFields(plain: map<string, string>, secret: map<string, string>)
    ensures Environments(plain, secret).Keys == ENVIRONMENTS
    ensures Environments(plain, secret)["runtime_plain_env"] == EnvJson(plain)
    ensures Environments(plain, secret)["runtime_secret_env"] == EnvJson(secret)
  {
  }

  lemma Layers(first: map<string, Json>, middle: map<string, Json>, last: map<string, Json>, key: string)
    ensures var all := first + middle + last;
            && (key in all <==> key in last || key in middle || key in first)
            && (key in last ==> all[key] == last[key])
            && (key in middle && key !in last ==> all[key] == middle[key])
            && (key in first && key !in middle && key !in last ==> all[key] == first[key])
  {
  }

  predicate IsField(others: map<string, string>, key: string) {
    key in ENVIRONMENTS || key in TERRAFORM_INPUTS || key in others
  }

  /** What a field was made from has a real value. */
  predicate FieldGiven(inputs: map<string, string>, others: map<string, string>, plain: map<string, string>,
                       secret: map<string, string>, key: string)
  {
    if key in ENVIRONMENTS then PlaceholderKeys(if key == "runtime_plain_env" then plain else secret) == {}
    else !Unresolved(if key in TERRAFORM_INPUTS then Get(inputs, key, "") else Get(others, key, ""))
  }

  lemma EnvironmentReady(plain: map<string, string>, secret: map<string, string>, key: string, path: string)
    requires key in ENVIRONMENTS
    ensures key in Environments(plain, secret)
    ensures Blockers(Environments(plain, secret)[key], path) == {} <==>
            PlaceholderKeys(if key == "runtime_plain_env" then plain else secret) == {}
  {
    EnvFields(plain, secret);
    EnvClean(plain, path);
    EnvClean(secret, path);
  }

  lemma InputReady(inputs: map<string, string>, key: string, path: string)
    requires key in TERRAFORM_INPUTS
    ensures key in InputFields(inputs)
    ensures Blockers(InputFields(inputs)[key], path) == {} <==> !Unresolved(Get(inputs, key, ""))
  {
    InputField(inputs, key);
    TextClean(ResolvedOrPlaceholder(Get(inputs, key, ""), Upper(key)), path);
    GivenInput(Get(inputs, key, ""), Upper(key));
  }

  /** A field of the variables has no blockers exactly when what it was made from has a real value. */
  lemma FieldReady(inputs: map<string, string>, others: map<string, string>, plain: map<string, string>,
                   secret: map<string, string>, key: string)
    ensures var payload := TerraformPayload(inputs, others, plain, secret);
            && (key in payload <==> IsField(others, key))
            && (key in payload ==>
                  (Blockers(payload[key], ChildOfObject("", key)) == {} <==>
                   FieldGiven(inputs, others, plain, secret, key)))
  {
    var path := ChildOfObject("", key);
    Layers(EnvJson(others).fields, InputFields(inputs), Environments(plain, secret), key);
    EnvFields(plain, secret);
    if key in ENVIRONMENTS {
      EnvironmentReady(plain, secret, key, path);
    } else if key in TERRAFORM_INPUTS {
      InputReady(inputs, key, path);
    } else if key in others {
      TextClean(others[key], path);
    }
  }

  lemma InputsAreNotEnvironments()
    ensures forall key | key in TERRAFORM_INPUTS :: key !in ENVIRONMENTS
  {
    forall key | key in TERRAFORM_INPUTS ensures key !in ENVIRONMENTS {
      InputNames(key);
    }
  }

  lemma AllGiven(inputs: map<string, string>, others: map<string, string>, plain: map<string, string>,
                 secret: map<string, string>)
    ensures (forall key | IsField(others, key) :: FieldGiven(inputs, others, plain, secret, key)) <==>
            && (forall key | key in TERRAFORM_INPUTS :: !Unresolved(Get(inputs, key, "")))
            && (forall key | key in others && key !in TERRAFORM_INPUTS && key !in ENVIRONMENTS ::
                  !Unresolved(others[key]))
            && PlaceholderKeys(plain) == {} && PlaceholderKeys(secret) == {}
  {
    InputsAreNotEnvironments();
    if forall key | IsField(others, key) :: FieldGiven(inputs, others, plain, secret, key) {
      assert IsField(others, "runtime_plain_env") && IsField(others, "runtime_secret_env");
      forall key | key in TERRAFORM_INPUTS ensures !Unresolved(Get(inputs, key, "")) {
        assert IsField(others, key);
      }
      forall key | key in others && key !in TERRAFORM_INPUTS && key !in ENVIRONMENTS
        ensures !Unresolved(others[key])
      {
        assert IsField(others, key);
      }
    }
  }

  /** A bundle is ready for Terraform exactly when every input was given a real value, every other
      string has one, and neither environment has a blank value or a placeholder. */
  lemma ReadyIff(inputs: map<string, string>, others: map<string, string>, plain: map<string, string>,
                 secret: map<string, string>)
    ensures Blockers(JObj(TerraformPayload(inputs, others, plain, secret)), "") == {} <==>
            && (forall key | key in TERRAFORM_INPUTS :: !Unresolved(Get(inputs, key, "")))
            && (forall key | key in others && key !in TERRAFORM_INPUTS && key !in ENVIRONMENTS ::
                  !Unresolved(others[key]))
            && PlaceholderKeys(plain) == {} && PlaceholderKeys(secret) == {}
  {
    var payload := TerraformPayload(inputs, others, plain, secret);
    FieldsClean(payload);
    forall key
      ensures key in payload <==> IsField(others, key)
      ensures key in payload ==>
                (Blockers(payload[key], ChildOfObject("", key)) == {} <==>
                 FieldGiven(inputs, others, plain, secret, key))
    {
      FieldReady(inputs, others, plain, secret, key);
    }
    AllGiven(inputs, others, plain, secret);
  }

  // ---------------------------------------------------------- runtime blockers

  predicate Skipped(values: map<string, string>, key: string) {
    IsTruthy(Get(values, "PAYSTACK_ACTIVATION_PENDING", "")) && key in PAYSTACK_KEYS
  }

  /** A required key the operator still has to supply. */
  predicate IsOpen(values: map<string, string>, key: string) {
    !Skipped(values, key) && Unresolved(Get(values, key, ""))
  }

  /** A required key without a real value, or the key of the selected provider. */
  predicate IsUnresolved(values: map<string, string>, keys: seq<string>, provider: string, key: string) {
    (key in keys && IsOpen(values, key)) || (key == provider && Unresolved(Get(values, provider, "")))
  }

  method OpenKeys(values: map<string, string>, keys: seq<string>) returns (found: set<string>)
    ensures forall key :: key in found <==> key in keys && IsOpen(values, key)
  {
    found := {};
    for i := 0 to |keys|
      invariant forall k | 0 <= k < i && IsOpen(values, keys[k]) :: keys[k] in found
      invariant forall key | key in found :: key in keys && IsOpen(values, key)
    {
      if IsOpen(values, keys[i]) {
        found := found + {keys[i]};
      }
    }
  }

  /** The unresolved keys, in order. */
  function UnresolvedKeys(values: map<string, string>, keys: seq<string>): Result<seq<string>> {
    var provider :- SelectedProviderKey(values);
    Success(SortedKeys(set key | key in keys + [provider] && IsUnresolved(values, keys, provider, key)))
  }

  lemma UnresolvedSet(values: map<string, string>, keys: seq<string>, provider: string, unresolved: set<string>)
    requires forall key :: key in unresolved <==> IsUnresolved(values, keys, provider, key)
    ensures unresolved == set key | key in keys + [provider] && IsUnresolved(values, keys, provider, key)
  {
    forall key | key in unresolved ensures key in keys + [provider] {
      assert key in keys || key == provider;
    }
  }

  method IdentifyRuntimeUnresolvedKeys(values: map<string, string>, keys: seq<string>) returns (r: Result<seq<string>>)
    ensures r == UnresolvedKeys(values, keys)
    ensures r.Success? ==> IsSorted(r.value)
    ensures r.Success? ==>
              forall key :: key in r.value <==> IsUnresolved(values, keys, SelectedProviderKey(values).value, key)
  {
    var unresolved := OpenKeys(values, keys);
    var provider :- SelectedProviderKey(values);
    if Unresolved(Get(values, provider, "")) {
      unresolved := unresolved + {provider};
    }
    SortedKeysSorted(unresolved);
    UnresolvedSet(values, keys, provider, unresolved);
    return Success(SortedKeys(unresolved));
  }

  /** The checks of single values: public URLs, proxy ranges, key lengths and key prefixes. */
  datatype Checks = Checks(isPublicUrl: string -> bool, areCidrs: string -> bool)

  predicate WellFormed(checks: Checks, key: string, value: string) {
    if key == "API_URL" || key == "FRONTEND_URL" then checks.isPublicUrl(value)
    else if key == "TRUSTED_PROXY_CIDRS" then checks.areCidrs(value)
    else if key == "ADMIN_API_KEY" || key == "INTERNAL_METRICS_AUTH_TOKEN" then |value| >= 32
    else if key == "PAYSTACK_SECRET_KEY" then StartsWith(value, "sk_")
    else if key == "PAYSTACK_PUBLIC_KEY" then StartsWith(value, "pk_")
    else true
  }

  /** A key that has a real value of the wrong form. */
  predicate IsMalformed(checks: Checks, values: map<string, string>, key: string) {
    var value := Get(values, key, "");
    !Unresolved(value) && !WellFormed(checks, key, Strip(value))
  }

  const CHECKED_KEYS :=
    ["API_URL", "FRONTEND_URL", "TRUSTED_PROXY_CIDRS", "ADMIN_API_KEY", "INTERNAL_METRICS_AUTH_TOKEN",
     "PAYSTACK_SECRET_KEY", "PAYSTACK_PUBLIC_KEY"]

  method MalformedKeys(checks: Checks, values: map<string, string>, keys: seq<string>) returns (found: set<string>)
    ensures forall key :: key in found <==> key in keys && IsMalformed(checks, values, key)
  {
    found := {};
    for i := 0 to |keys|
      invariant forall k | 0 <= k < i && IsMalformed(checks, values, keys[k]) :: keys[k] in found
      invariant forall key | key in found :: key in keys && IsMalformed(checks, values, key)
    {
      if IsMalformed(checks, values, keys[i]) {
        found := found + {keys[i]};
      }
    }
  }

  predicate IsBlocker(checks: Checks, values: map<string, string>, provider: string, key: string) {
    || IsUnresolved(values, OPERATOR_INPUT_KEYS, provider, key)
    || (key in CHECKED_KEYS && IsMalformed(checks, values, key))
  }

  /** The blockers, in order. */
  function BlockerKeys(checks: Checks, values: map<string, string>): Result<seq<string>> {
    var provider :- SelectedProviderKey(values);
    Success(SortedKeys(set key | key in OPERATOR_INPUT_KEYS + CHECKED_KEYS + [provider]
                                 && IsBlocker(checks, values, provider, key)))
  }

  lemma BlockerSet(checks: Checks, values: map<string, string>, provider: string, blockers: set<string>)
    requires forall key :: key in blockers <==> IsBlocker(checks, values, provider, key)
    ensures blockers == set key | key in OPERATOR_INPUT_KEYS + CHECKED_KEYS + [provider]
                                  && IsBlocker(checks, values, provider, key)
  {
    var all := OPERATOR_INPUT_KEYS + CHECKED_KEYS + [provider];
    forall key | key in blockers ensures key in all {
      assert key in OPERATOR_INPUT_KEYS || key in CHECKED_KEYS || key == provider;
    }
  }

  /** `_runtime_blockers`: the unresolved keys of the runtime contract, all of them, and the keys whose
      values have the wrong form. */
  method RuntimeBlockers(checks: Checks, values: map<string, string>) returns (r: Result<seq<string>>)
    ensures r == BlockerKeys(checks, values)
    ensures r.Success? ==> IsSorted(r.value)
    ensures r.Success? ==>
              forall key :: key in r.value <==> IsBlocker(checks, values, SelectedProviderKey(values).value, key)
  {
    var unresolved := OpenKeys(values, OPERATOR_INPUT_KEYS);
    var malformed := MalformedKeys(checks, values, CHECKED_KEYS);
    var blockers := unresolved + malformed;
    var provider :- SelectedProviderKey(values);
    if Unresolved(Get(values, provider, "")) {
      blockers := blockers + {provider};
    }
    SortedKeysSorted(blockers);
    BlockerSet(checks, values, provider, blockers);
    return Success(SortedKeys(blockers));
  }

  lemma MembersOf(names: set<string>)
    ensures forall key :: key in SortedKeys(names) <==> key in names
  {
  }

  lemma UnresolvedMembers(values: map<string, string>, provider: string)
    requires SelectedProviderKey(values) == Success(provider)
    ensures UnresolvedKeys(values, OPERATOR_INPUT_KEYS).Success?
    ensures forall key :: key in UnresolvedKeys(values, OPERATOR_INPUT_KEYS).value <==>
                          IsUnresolved(values, OPERATOR_INPUT_KEYS, provider, key)
  {
    var keys := OPERATOR_INPUT_KEYS + [provider];
    assert forall key :: IsUnresolved(values, OPERATOR_INPUT_KEYS, provider, key) ==> key in keys;
    MembersOf(set key | key in keys && IsUnresolved(values, OPERATOR_INPUT_KEYS, provider, key));
  }

  lemma BlockerMembers(checks: Checks, values: map<string, string>, provider: string)
    requires SelectedProviderKey(values) == Success(provider)
    ensures BlockerKeys(checks, values).Success?
    ensures forall key :: key in BlockerKeys(checks, values).value <==> IsBlocker(checks, values, provider, key)
  {
    var keys := OPERATOR_INPUT_KEYS + CHECKED_KEYS + [provider];
    assert forall key :: IsBlocker(checks, values, provider, key) ==> key in keys;
    MembersOf(set key | key in keys && IsBlocker(checks, values, provider, key));
  }

  /** The two lists that are reported for the same values: they exist together, every unresolved key of
      the runtime contract is a deployment blocker, and the blockers that are added are exactly the
      keys whose value is real but of the wrong form, so no key is reported for two reasons. */
  lemma BlockersExtendContract(checks: Checks, values: map<string, string>)
    ensures var unresolved, blockers := UnresolvedKeys(values, OPERATOR_INPUT_KEYS), BlockerKeys(checks, values);
            && (unresolved.Success? <==> blockers.Success?)
            && (unresolved.Success? ==>
                  forall key ::
                    && (key in unresolved.value ==> key in blockers.value)
                    && (key in blockers.value && key !in unresolved.value <==>
                        key in CHECKED_KEYS && IsMalformed(checks, values, key)))
  {
    if SelectedProviderKey(values).Success? {
      var provider := SelectedProviderKey(values).value;
      UnresolvedMembers(values, provider);
      BlockerMembers(checks, values, provider);
    }
  }

  // ---------------------------------------------- what is reported, key by key

  /** A text with something in it and no placeholder. */
  predicate IsReal(values: map<string, string>, key: string) {
    var value := Strip(Get(values, key, ""));
    value != "" && !Contains(value, "REPLACE_WITH_")
  }

  predicate PendingSaid(values: map<string, string>) {
    Lower(Strip(Get(values, "PAYSTACK_ACTIVATION_PENDING", ""))) in {"1", "true", "yes", "on"}
  }

  function ProviderSaid(values: map<string, string>): string {
    Lower(Strip(Get(values, "LLM_PROVIDER", "groq")))
  }

  predicate IsKeyOf(provider: string, key: string) {
    || (provider == "groq" && key == "GROQ_API_KEY")
    || (provider == "openai" && key == "OPENAI_API_KEY")
    || (provider == "claude" && key == "CLAUDE_API_KEY")
    || (provider == "google" && key == "GOOGLE_API_KEY")
  }

  const REQUIRED :=
    ["API_URL", "FRONTEND_URL", "DATABASE_URL", "GCP_PROJECT_ID", "GCP_REGION", "GCP_CLOUD_TASKS_QUEUE",
     "GCP_CLOUD_TASKS_INVOKER_SERVICE_ACCOUNT_EMAIL", "GCP_CLOUD_RUN_SERVICE_NAME", "GCP_CLOUD_RUN_BATCH_JOB_NAME",
     "GCP_INTERNAL_ALLOWED_SERVICE_ACCOUNTS", "SUPABASE_JWT_SECRET", "PAYSTACK_SECRET_KEY", "PAYSTACK_PUBLIC_KEY",
     "TRUSTED_PROXY_CIDRS"]

  /** A required key without a real value, Paystack keys only when their activation is not pending. */
  predicate IsMissing(values: map<string, string>, key: string) {
    && key in REQUIRED && !IsReal(values, key)
    && (key == "PAYSTACK_SECRET_KEY" || key == "PAYSTACK_PUBLIC_KEY" ==> !PendingSaid(values))
  }

  /** A value of the wrong form. */
  predicate IsWrong(checks: Checks, key: string, value: string) {
    || ((key == "API_URL" || key == "FRONTEND_URL") && !checks.isPublicUrl(value))
    || (key == "TRUSTED_PROXY_CIDRS" && !checks.areCidrs(value))
    || ((key == "ADMIN_API_KEY" || key == "INTERNAL_METRICS_AUTH_TOKEN") && |value| < 32)
    || (key == "PAYSTACK_SECRET_KEY" && !("sk_" <= value))
    || (key == "PAYSTACK_PUBLIC_KEY" && !("pk_" <= value))
  }

  lemma RealIff(values: map<string, string>, key: string)
    ensures Unresolved(Get(values, key, "")) <==> !IsReal(values, key)
  {
  }

  lemma MissingOf(values: map<string, string>, key: string)
    ensures key in OPERATOR_INPUT_KEYS && IsOpen(values, key) <==> IsMissing(values, key)
  {
    assert OPERATOR_INPUT_KEYS == REQUIRED;
    RealIff(values, key);
  }

  lemma WrongOf(checks: Checks, values: map<string, string>, key: string)
    ensures key in CHECKED_KEYS && IsMalformed(checks, values, key) <==>
            IsReal(values, key) && IsWrong(checks, key, Strip(Get(values, key, "")))
  {
    RealIff(values, key);
  }

  lemma ProviderOf(values: map<string, string>)
    ensures var r := SelectedProviderKey(values);
            && (r.Success? <==> ProviderSaid(values) in {"groq", "openai", "claude", "google"})
            && (r.Success? ==> forall key :: key == r.value <==> IsKeyOf(ProviderSaid(values), key))
  {
  }

  /** A deployment is blocked by exactly these keys: required ones without a real value, that of the
      selected provider when it has none, and those whose value has the wrong form. */
  lemma KeysReported(checks: Checks, values: map<string, string>)
    ensures var r := BlockerKeys(checks, values);
            && (r.Success? <==> ProviderSaid(values) in {"groq", "openai", "claude", "google"})
            && (r.Success? ==> forall key :: key in r.value <==>
                  || IsMissing(values, key)
                  || (IsKeyOf(ProviderSaid(values), key) && !IsReal(values, key))
                  || (IsReal(values, key) && IsWrong(checks, key, Strip(Get(values, key, "")))))
  {
    ProviderOf(values);
    if SelectedProviderKey(values).Success? {
      var provider := SelectedProviderKey(values).value;
      BlockerMembers(checks, values, provider);
      forall key
        ensures IsBlocker(checks, values, provider, key) <==>
                || IsMissing(values, key)
                || (IsKeyOf(ProviderSaid(values), key) && !IsReal(values, key))
                || (IsReal(values, key) && IsWrong(checks, key, Strip(Get(values, key, ""))))
      {
        MissingOf(values, key);
        WrongOf(checks, values, key);
        RealIff(values, key);
      }
    }
  }
}
