/** A library that meets every law the generator's theorems ask for, with the overrides that are the
    same in every run, and two regenerations that lose an existing value. */
module RuntimeSample {
  import opened Text
  import opened ManagedContract
  import opened RuntimeEnv
  import EnvFile
  import Shlex

  // ------------------------------------------------------ lists as JSON-like text

  predicate Escaped(c: char) {
    c == '\\' || c == '"' || IsLineBreak(c)
  }

  /** The letter that stands for an escaped character after a backslash. */
  function Letter(c: char): char
    requires Escaped(c)
  {
    if c == '\\' || c == '"' then c
    else if c as int < 31 then (c as int + 96) as char
    else if c as int == 0x85 then 'x'
    else if c as int == 0x2028 then 'y'
    else 'z'
  }

  function Back(letter: char): char {
    if 'j' <= letter <= 'm' || '|' <= letter <= '~' then (letter as int - 96) as char
    else if letter == 'x' then 0x85 as char
    else if letter == 'y' then 0x2028 as char
    else if letter == 'z' then 0x2029 as char
    else letter
  }

  function EscapeOne(c: char): string {
    if Escaped(c) then ['\\', Letter(c)] else [c]
  }

  function Escape(s: string): string {
    if s == "" then "" else EscapeOne(s[0]) + Escape(s[1..])
  }

  function DumpItems(items: seq<string>): string {
    if items == [] then "]" else "\"" + Escape(items[0]) + "\"" + DumpItems(items[1..])
  }

  function Dump(items: seq<string>): string {
    "[" + DumpItems(items)
  }

  /** The text up to the closing quote and what follows it. */
  function ReadItem(text: string): (r: Option<(string, string)>)
    ensures r.Some? ==> |r.value.1| < |text|
  {
    if text == "" then None
    else if text[0] == '"' then Some(("", text[1..]))
    else if text[0] == '\\' then
      if |text| == 1 then None else Front(Back(text[1]), ReadItem(text[2..]))
    else Front(text[0], ReadItem(text[1..]))
  }

  function Front(c: char, rest: Option<(string, string)>): (r: Option<(string, string)>)
    ensures r.Some? <==> rest.Some?
    ensures r.Some? ==> r.value.1 == rest.value.1
  {
    if rest.None? then None else Some(([c] + rest.value.0, rest.value.1))
  }

  function ReadItems(text: string): Option<seq<string>>
    decreases |text|
  {
    if text == "]" then Some([])
    else if text == "" || text[0] != '"' then None
    else
      var item := ReadItem(text[1..]);
      if item.None? then None
      else
        var rest := ReadItems(item.value.1);
        if rest.None? then None else Some([item.value.0] + rest.value)
  }

  function Load(text: string): Option<seq<string>> {
    if text != "" && text[0] == '[' then ReadItems(text[1..]) else None
  }

  lemma EscapedOneRead(c: char, rest: string)
    ensures ReadItem(EscapeOne(c) + rest) == Front(c, ReadItem(rest))
  {
    var text := EscapeOne(c) + rest;
    if Escaped(c) {
      assert text[2..] == rest;
      assert Back(Letter(c)) == c;
    } else {
      assert text[1..] == rest;
    }
  }

  lemma {:induction false} EscapedRead(s: string, rest: string)
    ensures ReadItem(Escape(s) + "\"" + rest) == Some((s, rest))
  {
    if s == "" {
      var text := Escape(s) + "\"" + rest;
      assert text[0] == '"' && text[1..] == rest;
    } else {
      EscapedRead(s[1..], rest);
      assert Escape(s) + "\"" + rest == EscapeOne(s[0]) + (Escape(s[1..]) + "\"" + rest);
      EscapedOneRead(s[0], Escape(s[1..]) + "\"" + rest);
      assert [s[0]] + s[1..] == s;
    }
  }

  lemma ItemThenRest(item: string, rest: string, items: seq<string>)
    requires ReadItems(rest) == Some(items)
    ensures ReadItems("\"" + Escape(item) + "\"" + rest) == Some([item] + items)
  {
    var text := "\"" + Escape(item) + "\"" + rest;
    EscapedRead(item, rest);
    assert text[1..] == Escape(item) + "\"" + rest;
    assert |text| > 1;
  }

  lemma {:induction false} ItemsRead(items: seq<string>)
    ensures ReadItems(DumpItems(items)) == Some(items)
  {
    if items != [] {
      ItemsRead(items[1..]);
      ItemThenRest(items[0], DumpItems(items[1..]), items[1..]);
      assert [items[0]] + items[1..] == items;
    }
  }

  lemma {:induction false} EscapeLine(s: string)
    ensures OneLine(Escape(s))
  {
    if s != "" {
      EscapeLine(s[1..]);
      OneLineConcat(EscapeOne(s[0]), Escape(s[1..]));
    }
  }

  lemma {:induction false} ItemsLine(items: seq<string>)
    ensures OneLine(DumpItems(items)) && DumpItems(items) != ""
    ensures DumpItems(items)[|DumpItems(items)| - 1] == ']'
  {
    if items != [] {
      EscapeLine(items[0]);
      ItemsLine(items[1..]);
    }
  }

  /** Lists read back, from one trimmed line of text. */
  lemma DumpReads(items: seq<string>)
    ensures Load(Dump(items)) == Some(items)
    ensures Dump(items) != "" && Trimmed(Dump(items)) && OneLine(Dump(items))
  {
    var text := Dump(items);
    ItemsRead(items);
    ItemsLine(items);
    assert text[1..] == DumpItems(items);
    assert text[|text| - 1] == ']';
  }

  lemma {:induction false} EscapeKeeps(s: string)
    requires forall i | 0 <= i < |s| :: !Escaped(s[i])
    ensures Escape(s) == s
  {
    if s != "" {
      EscapeKeeps(s[1..]);
    }
  }

  lemma DumpOne(item: string)
    requires Escape(item) == item
    ensures Dump([item]) == "[\"" + item + "\"]"
  {
    assert [item][1..] == [];
    assert DumpItems([]) == "]";
    assert DumpItems([item]) == "\"" + item + "\"" + "]";
  }

  lemma {:induction false} ContainsMiddle(before: string, needle: string, after: string)
    ensures Contains(before + needle + after, needle)
  {
    var text := before + needle + after;
    if before == "" {
      assert text == needle + after;
    } else {
      ContainsMiddle(before[1..], needle, after);
      assert text[1..] == before[1..] + needle + after;
    }
  }

  lemma DefaultCidrPlain()
    ensures forall i | 0 <= i < |DEFAULT_CIDR| :: !Escaped(DEFAULT_CIDR[i])
  {
  }

  lemma DefaultCidrParts()
    ensures DEFAULT_CIDR == PLACEHOLDER_PREFIX + "TRUSTED_PROXY_CIDR"
  {
  }

  lemma PrefixShows(item: string, rest: string)
    requires item == PLACEHOLDER_PREFIX + rest && Escape(item) == item
    ensures ContainsPlaceholder(Dump([item]))
  {
    DumpOne(item);
    assert Dump([item]) == "[\"" + PLACEHOLDER_PREFIX + (rest + "\"]");
    ContainsMiddle("[\"", PLACEHOLDER_PREFIX, rest + "\"]");
  }

  /** A placeholder stays visible in the printed list. */
  lemma PlaceholderShows()
    ensures ContainsPlaceholder(Dump([DEFAULT_CIDR]))
  {
    DefaultCidrPlain();
    EscapeKeeps(DEFAULT_CIDR);
    DefaultCidrParts();
    PrefixShows(DEFAULT_CIDR, "TRUSTED_PROXY_CIDR");
  }

  // -------------------------------------------------------------- the library

  /** Every URL and every CIDR counts as valid here. */
  function Sample(constants: map<string, string>): Library {
    Library(Dump, Load, (url: string) => true, (cidr: string) => true, constants)
  }

  /** The laws of the theorems are met by a library with any constants that can be printed. */
  lemma SampleLawful(constants: map<string, string>)
    requires EnvFile.Carries(constants)
    ensures Lawful(Sample(constants))
  {
    forall items: seq<string> ensures DumpsOk(Sample(constants), items) {
      DumpReads(items);
    }
    PlaceholderShows();
  }

  /** Three of the settings that are printed blank in every run. */
  const CONSTANTS := map["JIRA_EMAIL" := "", "JIRA_API_TOKEN" := "", "JIRA_PROJECT_KEY" := ""]

  lemma ConstantNames()
    ensures IsEnvName("JIRA_EMAIL") && IsEnvName("JIRA_API_TOKEN") && IsEnvName("JIRA_PROJECT_KEY")
  {
  }

  lemma ConstantsCarried()
    ensures EnvFile.Carries(CONSTANTS)
  {
    ConstantNames();
    NamesAreKeys(CONSTANTS);
  }

  // ------------------------------------------------ regenerations that lose a value

  lemma OneLineFile(line: string)
    requires OneLine(line) && line != "" && EnvFile.ParseLine(line).Success?
    ensures EnvFile.ParseText(line) == EnvFile.ParseLine(line)
  {
    SplitOne(line);
    var values := EnvFile.ParseLine(line).value;
    assert [line][1..] == [] && EnvFile.ParseLines([]) == Success(map[]);
    assert values + map[] == values;
  }

  /** A file of one entry. */
  lemma OneEntry(key: string, value: string)
    requires EnvFile.KeyOk(key) && Shlex.AllSafe(value) && OneLine(value) && value != ""
    ensures EnvFile.ParseText(key + "=" + value) == Success(map[key := value])
  {
    var line := key + "=" + value;
    assert line == EnvFile.Entry(key, value);
    EnvFile.EntryRoundTrip(key, value);
    OneLineConcat(key, "=");
    OneLineConcat(key + "=", value);
    OneLineFile(line);
  }

  lemma EnvironmentKept(environment: string)
    requires environment in SUPPORTED_ENVIRONMENTS
    ensures Lower(Strip(environment)) == environment
  {
    StripOfTrimmed(environment);
    LowerKeeps(environment);
  }

  lemma DefaultProvider(values: map<string, string>)
    requires Existing(values, "LLM_PROVIDER") == None
    ensures ResolveLlm(values, NoArgs).Success?
  {
    ProviderAgain(DEFAULT_LLM_PROVIDER);
  }

  /** The keys whose existing values can make a run fail. */
  const RISKY := {
    "API_URL", "FRONTEND_URL", "PAYSTACK_SECRET_KEY", "PAYSTACK_PUBLIC_KEY",
    "PAYSTACK_ACTIVATION_PENDING", "LLM_PROVIDER"
  }

  lemma Absent(key: string, value: string, other: string)
    requires other != key
    ensures Existing(map[key := value], other) == None
  {
  }

  lemma RiskyAbsent(key: string, value: string)
    requires key !in RISKY
    ensures var values := map[key := value];
            && Existing(values, "API_URL") == None && Existing(values, "FRONTEND_URL") == None
            && Existing(values, "PAYSTACK_SECRET_KEY") == None && Existing(values, "PAYSTACK_PUBLIC_KEY") == None
            && Existing(values, "PAYSTACK_ACTIVATION_PENDING") == None && Existing(values, "LLM_PROVIDER") == None
  {
    Absent(key, value, "API_URL");
    Absent(key, value, "FRONTEND_URL");
    Absent(key, value, "PAYSTACK_SECRET_KEY");
    Absent(key, value, "PAYSTACK_PUBLIC_KEY");
    Absent(key, value, "PAYSTACK_ACTIVATION_PENDING");
    Absent(key, value, "LLM_PROVIDER");
  }

  lemma Resolves(lib: Library, environment: string, key: string, value: string, generated: Secrets)
    requires key !in RISKY && ExistingCidrs(lib, map[key := value]) == None
    ensures Resolve(lib, environment, map[key := value], NoArgs, generated).Success?
  {
    RiskyAbsent(key, value);
    DefaultProvider(map[key := value]);
  }

  /** A value that the printer would write without quotes. */
  predicate PlainValue(value: string) {
    value != "" && Shlex.AllSafe(value) && OneLine(value)
  }

  /** A run on a file of one entry succeeds, when the entry cannot make it fail. */
  lemma Succeeds(lib: Library, template: string, environment: string, key: string, value: string,
                 generated: Secrets)
    requires environment in SUPPORTED_ENVIRONMENTS && EnvFile.KeyOk(key) && PlainValue(value)
    requires key !in RISKY && ExistingCidrs(lib, map[key := value]) == None
    ensures EnvFile.ParseText(key + "=" + value) == Success(map[key := value])
    ensures Generate(lib, template, environment, Some(key + "=" + value), NoArgs, generated).Success?
  {
    EnvironmentKept(environment);
    OneEntry(key, value);
    Resolves(lib, environment, key, value, generated);
  }

  lemma RiskyUrls(lib: Library)
    ensures "API_URL" in Urls(lib, BLANK) && "FRONTEND_URL" in Urls(lib, BLANK)
  {
  }

  lemma RiskyGcp(lib: Library)
    ensures "TRUSTED_PROXY_CIDRS" in Gcp(lib, BLANK)
  {
  }

  lemma RiskyProviders(v: ProviderValues)
    ensures "PAYSTACK_SECRET_KEY" in Providers(v) && "PAYSTACK_PUBLIC_KEY" in Providers(v)
    ensures "PAYSTACK_ACTIVATION_PENDING" in Providers(v) && "LLM_PROVIDER" in Providers(v)
  {
  }

  lemma RiskyComputed(lib: Library)
    ensures RISKY + {"TRUSTED_PROXY_CIDRS"} <= ComputedKeys(lib)
  {
    RiskyUrls(lib);
    RiskyGcp(lib);
    RiskyProviders(ProviderValuesOf(BLANK.paystack, BLANK.llm));
  }

  /** From a file that gives `key` the value `value`, a run without arguments succeeds and prints
      `printed` for the key. */
  predicate Becomes(lib: Library, template: string, environment: string, key: string, value: string,
                    generated: Secrets, printed: string)
  {
    var next := Generate(lib, template, environment, Some(key + "=" + value), NoArgs, generated);
    && EnvFile.ParseText(key + "=" + value) == Success(map[key := value])
    && next.Success?
    && EnvFile.ParseText(next.value).Success?
    && Get(EnvFile.ParseText(next.value).value, key, "") == printed
  }

  /** Whatever constant a library prints, a file that gives the key another value is a file for which a
      run succeeds and the value is lost. */
  lemma ConstantOverwrites(lib: Library, template: string, environment: string, key: string, value: string,
                           generated: Secrets)
    requires Lawful(lib) && GeneratedOk(generated) && environment in SUPPORTED_ENVIRONMENTS
    requires key in lib.constants && key !in ComputedKeys(lib) && PlainValue(value)
    ensures Becomes(lib, template, environment, key, value, generated, lib.constants[key])
  {
    RiskyComputed(lib);
    Absent(key, value, "TRUSTED_PROXY_CIDRS");
    Succeeds(lib, template, environment, key, value, generated);
    ExistingValuesPreserved(lib, template, environment, key + "=" + value, generated);
  }

  /** A CIDR entry that is not a JSON list, valid or not, is replaced by the placeholder list. */
  lemma BareCidrReplaced(lib: Library, template: string, environment: string, value: string, generated: Secrets)
    requires Lawful(lib) && GeneratedOk(generated) && environment in SUPPORTED_ENVIRONMENTS
    requires PlainValue(value) && Trimmed(value) && lib.loads(value) == None
    ensures Becomes(lib, template, environment, "TRUSTED_PROXY_CIDRS", value, generated, lib.dumps([DEFAULT_CIDR]))
  {
    var key := "TRUSTED_PROXY_CIDRS";
    GcpShortNames();
    NamesAreKeys(map[key := value]);
    assert key in map[key := value];
    StripOfTrimmed(value);
    Succeeds(lib, template, environment, key, value, generated);
    UnreadableCidrsReplaced(lib, template, environment, key + "=" + value, generated);
  }

  predicate NotJ(key: string) {
    key != "" && key[0] != 'J'
  }

  lemma UrlsNotJ(lib: Library)
    ensures forall k | k in Urls(lib, BLANK) :: NotJ(k)
  {
  }

  lemma GcpNotJ(lib: Library)
    ensures forall k | k in Gcp(lib, BLANK) :: NotJ(k)
  {
  }

  lemma OthersNotJ(s: Secrets, v: ProviderValues)
    ensures forall k | k in Internal(s) :: NotJ(k)
    ensures forall k | k in Providers(v) :: NotJ(k)
  {
  }

  lemma ComputedNotJ(lib: Library, key: string)
    requires !NotJ(key)
    ensures key !in ComputedKeys(lib)
  {
    UrlsNotJ(lib);
    GcpNotJ(lib);
    OthersNotJ(BLANK.secrets, ProviderValuesOf(BLANK.paystack, BLANK.llm));
  }

  lemma TokenIsConstant()
    ensures "JIRA_API_TOKEN" in CONSTANTS && CONSTANTS["JIRA_API_TOKEN"] == ""
    ensures !NotJ("JIRA_API_TOKEN") && PlainValue("abc")
  {
  }

  lemma NetworkIsPlain()
    ensures PlainValue("10.0.0.0/8") && Trimmed("10.0.0.0/8") && Load("10.0.0.0/8") == None
  {
  }

  /** A token is lost: the generator prints the Jira settings blank in every run. */
  lemma TokenLost(generated: Secrets)
    requires GeneratedOk(generated)
    ensures Becomes(Sample(CONSTANTS), "", "staging", "JIRA_API_TOKEN", "abc", generated, "")
  {
    var lib := Sample(CONSTANTS);
    ConstantsCarried();
    SampleLawful(CONSTANTS);
    TokenIsConstant();
    ComputedNotJ(lib, "JIRA_API_TOKEN");
    ConstantOverwrites(lib, "", "staging", "JIRA_API_TOKEN", "abc", generated);
  }

  /** A valid network is lost, because it is not written as a JSON list. */
  lemma CidrLost(generated: Secrets)
    requires GeneratedOk(generated)
    ensures Becomes(Sample(CONSTANTS), "", "staging", "TRUSTED_PROXY_CIDRS", "10.0.0.0/8", generated,
                    Dump([DEFAULT_CIDR]))
  {
    var lib := Sample(CONSTANTS);
    ConstantsCarried();
    SampleLawful(CONSTANTS);
    NetworkIsPlain();
    BareCidrReplaced(lib, "", "staging", "10.0.0.0/8", generated);
  }
}
