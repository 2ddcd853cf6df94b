/** What the command line of the generator does: which text is printed for every key, told from the
    arguments, the existing file and the fresh secrets, and when a run fails. */
module RuntimeArguments {
  import opened Text
  import opened ManagedContract
  import opened RuntimeEnv
  import EnvFile
  import EnvPrinting

  // ----------------------------------------------------- given, existing, default

  predicate IsGiven(arg: Option<string>) {
    arg.Some? && arg.value != ""
  }

  /** The argument as it was given, else the existing text without the white space around it. */
  function Wanted(arg: Option<string>, before: map<string, string>, key: string): string {
    if IsGiven(arg) then arg.value else Strip(Get(before, key, ""))
  }

  /** The key is printed with what is wanted for it, or with its default. */
  predicate Prints(after: map<string, string>, key: string, wanted: string, default: string) {
    Get(after, key, "") == if wanted != "" then wanted else default
  }

  predicate UrlsPrinted(lib: Library, environment: string, before: map<string, string>, args: Args,
                        after: map<string, string>)
  {
    && Get(after, "ENVIRONMENT", "") == environment
    && Prints(after, "API_URL", Strip(Wanted(args.apiUrl, before, "API_URL")), DEFAULT_API_URL)
    && Prints(after, "FRONTEND_URL", Strip(Wanted(args.frontendUrl, before, "FRONTEND_URL")), DEFAULT_FRONTEND_URL)
    && Get(after, "CORS_ORIGINS", "") == lib.dumps([Get(after, "FRONTEND_URL", "")])
    && Prints(after, "DATABASE_URL", Wanted(args.database, before, "DATABASE_URL"), DEFAULT_DATABASE_URL)
    && Prints(after, "SUPABASE_URL", Wanted(args.supabaseUrl, before, "SUPABASE_URL"), DEFAULT_SUPABASE_URL)
    && Prints(after, "SUPABASE_ANON_KEY", Wanted(args.anonKey, before, "SUPABASE_ANON_KEY"), DEFAULT_ANON_KEY)
    && Prints(after, "SUPABASE_JWT_SECRET", Wanted(args.jwtSecret, before, "SUPABASE_JWT_SECRET"),
              DEFAULT_JWT_SECRET)
  }

  /** A list of accounts is printed as JSON, when it is not empty. */
  function WantedAccounts(lib: Library, args: Args, before: map<string, string>): string {
    if args.accounts.Some? && args.accounts.value != [] then lib.dumps(args.accounts.value)
    else Strip(Get(before, "GCP_INTERNAL_ALLOWED_" + "SERVICE_ACCOUNTS", ""))
  }

  function StripEach(items: seq<string>): seq<string> {
    seq(|items|, i requires 0 <= i < |items| => Strip(items[i]))
  }

  /** The networks asked for, else those of the existing text when it is a list without placeholder. */
  function WantedCidrs(lib: Library, args: Args, before: map<string, string>): seq<string> {
    var text := Strip(Get(before, "TRUSTED_PROXY_CIDRS", ""));
    if args.cidrs.Some? then args.cidrs.value
    else if text == "" || ContainsPlaceholder(text) || lib.loads(text).None? then []
    else lib.loads(text).value
  }

  predicate GcpPrinted(lib: Library, before: map<string, string>, args: Args, after: map<string, string>) {
    && Prints(after, "GCP_PROJECT_ID", Wanted(args.project, before, "GCP_PROJECT_ID"), DEFAULT_PROJECT)
    && Prints(after, "GCP_REGION", Wanted(args.region, before, "GCP_REGION"), DEFAULT_REGION)
    && Prints(after, "GCP_CLOUD_TASKS_QUEUE", Wanted(args.queue, before, "GCP_CLOUD_TASKS_QUEUE"), DEFAULT_QUEUE)
    && Prints(after, "GCP_CLOUD_TASKS_" + "INVOKER_SERVICE_ACCOUNT_EMAIL",
              Wanted(args.invoker, before, "GCP_CLOUD_TASKS_" + "INVOKER_SERVICE_ACCOUNT_EMAIL"), DEFAULT_INVOKER)
    && Prints(after, "GCP_CLOUD_RUN_SERVICE_NAME", Wanted(args.service, before, "GCP_CLOUD_RUN_SERVICE_NAME"),
              DEFAULT_SERVICE)
    && Prints(after, "GCP_CLOUD_RUN_BATCH_JOB_NAME", Wanted(args.batchJob, before, "GCP_CLOUD_RUN_BATCH_JOB_NAME"),
              DEFAULT_BATCH_JOB)
    && Prints(after, "GCP_INTERNAL_ALLOWED_" + "SERVICE_ACCOUNTS", WantedAccounts(lib, args, before),
              lib.dumps([DEFAULT_INVOKER, DEFAULT_SCHEDULER]))
    && Get(after, "TRUSTED_PROXY_CIDRS", "") ==
       lib.dumps(if WantedCidrs(lib, args, before) == [] then [DEFAULT_CIDR]
                 else StripEach(WantedCidrs(lib, args, before)))
  }

  /** An internal secret is the existing one, or the fresh one of its own name. */
  predicate SecretsPrinted(before: map<string, string>, generated: Secrets, after: map<string, string>) {
    && Prints(after, "CSRF_SECRET_KEY", Strip(Get(before, "CSRF_SECRET_KEY", "")), generated.csrf)
    && Prints(after, "ENCRYPTION_KEY", Strip(Get(before, "ENCRYPTION_KEY", "")), generated.encryption)
    && Prints(after, "KDF_SALT", Strip(Get(before, "KDF_SALT", "")), generated.kdfSalt)
    && Prints(after, "ADMIN_API_KEY", Strip(Get(before, "ADMIN_API_KEY", "")), generated.admin)
    && Prints(after, "INTERNAL_METRICS_AUTH_TOKEN", Strip(Get(before, "INTERNAL_METRICS_AUTH_TOKEN", "")),
              generated.metrics)
    && Prints(after, "ENFORCEMENT_APPROVAL_TOKEN_SECRET",
              Strip(Get(before, "ENFORCEMENT_APPROVAL_TOKEN_SECRET", "")), generated.approval)
    && Prints(after, "ENFORCEMENT_EXPORT_SIGNING_SECRET",
              Strip(Get(before, "ENFORCEMENT_EXPORT_SIGNING_SECRET", "")), generated.signing)
  }

  /** A key that starts with the prefix of live keys and shows no placeholder. */
  predicate Live(key: string, prefix: string) {
    key != "" && prefix <= key && !ContainsPlaceholder(key)
  }

  const YES := {"1", "true", "yes", "on"}
  const NO := {"0", "false", "no", "off"}

  /** Whether activation is pending: as the existing file says, else in production without two live keys. */
  predicate PendingWanted(environment: string, before: map<string, string>, args: Args) {
    var word := Lower(Strip(Get(before, "PAYSTACK_ACTIVATION_PENDING", "")));
    var secret := Strip(Wanted(args.paystackSecret, before, "PAYSTACK_SECRET_KEY"));
    var public := Strip(Wanted(args.paystackPublic, before, "PAYSTACK_PUBLIC_KEY"));
    if word in YES then true
    else if word in NO then false
    else environment == "production" && !(Live(secret, "sk_live_") && Live(public, "pk_live_"))
  }

  /** While activation is pending only a live key is printed, otherwise any key or the default. */
  predicate PaystackPrints(after: map<string, string>, key: string, wanted: string, prefix: string,
                           pending: bool, default: string)
  {
    Get(after, key, "") ==
    if pending then (if Live(wanted, prefix) then wanted else "")
    else if wanted != "" then wanted else default
  }

  predicate PaystackPrinted(environment: string, before: map<string, string>, args: Args,
                            after: map<string, string>)
  {
    var pending := PendingWanted(environment, before, args);
    && Get(after, "PAYSTACK_ACTIVATION_PENDING", "") == (if pending then "true" else "false")
    && PaystackPrints(after, "PAYSTACK_SECRET_KEY", Strip(Wanted(args.paystackSecret, before, "PAYSTACK_SECRET_KEY")),
                      "sk_live_", pending, DEFAULT_PAYSTACK_SECRET)
    && PaystackPrints(after, "PAYSTACK_PUBLIC_KEY", Strip(Wanted(args.paystackPublic, before, "PAYSTACK_PUBLIC_KEY")),
                      "pk_live_", pending, DEFAULT_PAYSTACK_PUBLIC)
  }

  /** The provider asked for; one that is only white space counts as none. */
  function WantedProvider(before: map<string, string>, args: Args): string {
    var text := Lower(Strip(Wanted(args.provider, before, "LLM_PROVIDER")));
    if text != "" then text else "groq"
  }

  /** The key of the wanted provider is printed under that provider's name, every other is blank. */
  predicate LlmPrints(after: map<string, string>, key: string, name: string, selected: string,
                      before: map<string, string>, args: Args)
  {
    if name == selected then Prints(after, key, Wanted(args.llmKey, before, key), PLACEHOLDER_PREFIX + key)
    else Get(after, key, "") == ""
  }

  predicate LlmPrinted(before: map<string, string>, args: Args, after: map<string, string>) {
    var selected := WantedProvider(before, args);
    && Get(after, "LLM_PROVIDER", "") == selected
    && LlmPrints(after, "GROQ_API_KEY", "groq", selected, before, args)
    && LlmPrints(after, "OPENAI_API_KEY", "openai", selected, before, args)
    && LlmPrints(after, "CLAUDE_API_KEY", "claude", selected, before, args)
    && LlmPrints(after, "GOOGLE_API_KEY", "google", selected, before, args)
  }

  /** The text of every key that a run computes. */
  predicate EverythingPrinted(lib: Library, environment: string, before: map<string, string>, args: Args,
                              generated: Secrets, after: map<string, string>)
  {
    && UrlsPrinted(lib, environment, before, args, after)
    && GcpPrinted(lib, before, args, after)
    && SecretsPrinted(before, generated, after)
    && PaystackPrinted(environment, before, args, after)
    && LlmPrinted(before, args, after)
  }

  // ------------------------------------------------------------------ proofs

  lemma PickPrints(arg: Option<string>, before: map<string, string>, key: string, default: string,
                   after: map<string, string>)
    requires Get(after, key, "") == Pick(arg, before, key, default)
    ensures Prints(after, key, Wanted(arg, before, key), default)
  {
  }

  lemma UrlPrints(lib: Library, arg: Option<string>, before: map<string, string>, key: string, default: string,
                  after: map<string, string>)
    requires PublicUrl(lib, Or(arg, Existing(before, key))).Success?
    requires Get(after, key, "") == OrElse(PublicUrl(lib, Or(arg, Existing(before, key))).value, default)
    ensures Prints(after, key, Strip(Wanted(arg, before, key)), default)
  {
    StripTwice(Get(before, key, ""));
    StripOfTrimmed("");
  }

  lemma PublicUrlsPrint(lib: Library, environment: string, before: map<string, string>, args: Args,
                        generated: Secrets, r: Resolved, after: map<string, string>)
    requires Resolve(lib, environment, before, args, generated) == Success(r) && ReadsUrls(after, r)
    ensures Prints(after, "API_URL", Strip(Wanted(args.apiUrl, before, "API_URL")), DEFAULT_API_URL)
    ensures Prints(after, "FRONTEND_URL", Strip(Wanted(args.frontendUrl, before, "FRONTEND_URL")),
                   DEFAULT_FRONTEND_URL)
    ensures r.environment == environment
  {
    UrlPrints(lib, args.apiUrl, before, "API_URL", DEFAULT_API_URL, after);
    UrlPrints(lib, args.frontendUrl, before, "FRONTEND_URL", DEFAULT_FRONTEND_URL, after);
  }

  lemma AllUrlsPrint(lib: Library, environment: string, before: map<string, string>, args: Args,
                     generated: Secrets, r: Resolved, after: map<string, string>)
    requires Resolve(lib, environment, before, args, generated) == Success(r)
    requires ReadsUrls(after, r) && ReadsOrigin(lib, after, r)
    ensures UrlsPrinted(lib, environment, before, args, after)
  {
    PublicUrlsPrint(lib, environment, before, args, generated, r, after);
    ResolveParts(lib, environment, before, args, generated, r);
    PickPrints(args.database, before, "DATABASE_URL", DEFAULT_DATABASE_URL, after);
    PickPrints(args.supabaseUrl, before, "SUPABASE_URL", DEFAULT_SUPABASE_URL, after);
    PickPrints(args.anonKey, before, "SUPABASE_ANON_KEY", DEFAULT_ANON_KEY, after);
    PickPrints(args.jwtSecret, before, "SUPABASE_JWT_SECRET", DEFAULT_JWT_SECRET, after);
  }

  lemma {:induction false} NormalizedStrips(lib: Library, cidrs: seq<string>)
    requires NormalizeCidrs(lib, cidrs).Success?
    ensures NormalizeCidrs(lib, cidrs).value == StripEach(cidrs)
  {
    if cidrs != [] {
      NormalizedStrips(lib, cidrs[1..]);
      assert StripEach(cidrs) == [Strip(cidrs[0])] + StripEach(cidrs[1..]);
    }
  }

  lemma CidrsPrint(lib: Library, before: map<string, string>, args: Args, cidrs: seq<string>)
    requires ResolveCidrs(lib, before, args) == Success(cidrs)
    ensures RenderCidrs(lib, cidrs) ==
            lib.dumps(if WantedCidrs(lib, args, before) == [] then [DEFAULT_CIDR]
                      else StripEach(WantedCidrs(lib, args, before)))
  {
    var given := if args.cidrs.Some? then args.cidrs else ExistingCidrs(lib, before);
    if given.Some? {
      NormalizedStrips(lib, given.value);
      assert given.value == WantedCidrs(lib, args, before);
    }
  }

  lemma AccountsPrint(lib: Library, before: map<string, string>, args: Args, after: map<string, string>)
    requires Lawful(lib)
    requires Get(after, ACCOUNTS_KEY, "") == ResolvePassed(lib, before, args).accounts
    ensures Prints(after, ACCOUNTS_KEY, WantedAccounts(lib, args, before),
                   lib.dumps([DEFAULT_INVOKER, DEFAULT_SCHEDULER]))
  {
    if args.accounts.Some? && args.accounts.value != [] {
      assert DumpsOk(lib, args.accounts.value);
    }
  }

  lemma AllGcpPrints(lib: Library, before: map<string, string>, args: Args, r: Resolved, after: map<string, string>)
    requires Lawful(lib) && ResolvePassed(lib, before, args) == r.passed && ReadsGcp(lib, after, r)
    requires ResolveCidrs(lib, before, args) == Success(r.cidrs)
    ensures GcpPrinted(lib, before, args, after)
  {
    PickPrints(args.project, before, "GCP_PROJECT_ID", DEFAULT_PROJECT, after);
    PickPrints(args.region, before, "GCP_REGION", DEFAULT_REGION, after);
    PickPrints(args.queue, before, "GCP_CLOUD_TASKS_QUEUE", DEFAULT_QUEUE, after);
    PickPrints(args.invoker, before, INVOKER_KEY, DEFAULT_INVOKER, after);
    PickPrints(args.service, before, "GCP_CLOUD_RUN_SERVICE_NAME", DEFAULT_SERVICE, after);
    PickPrints(args.batchJob, before, "GCP_CLOUD_RUN_BATCH_JOB_NAME", DEFAULT_BATCH_JOB, after);
    AccountsPrint(lib, before, args, after);
    CidrsPrint(lib, before, args, r.cidrs);
  }

  lemma AllSecretsPrint(before: map<string, string>, generated: Secrets, after: map<string, string>)
    requires ReadsInternal(after, ResolveSecrets(before, generated))
    ensures SecretsPrinted(before, generated, after)
  {
    PickPrints(None, before, "CSRF_SECRET_KEY", generated.csrf, after);
    PickPrints(None, before, "ENCRYPTION_KEY", generated.encryption, after);
    PickPrints(None, before, "KDF_SALT", generated.kdfSalt, after);
    PickPrints(None, before, "ADMIN_API_KEY", generated.admin, after);
    PickPrints(None, before, "INTERNAL_METRICS_AUTH_TOKEN", generated.metrics, after);
    PickPrints(None, before, "ENFORCEMENT_APPROVAL_TOKEN_SECRET", generated.approval, after);
    PickPrints(None, before, "ENFORCEMENT_EXPORT_SIGNING_SECRET", generated.signing, after);
  }

  /** A raw Paystack key, as it is wanted. */
  lemma RawKey(arg: Option<string>, before: map<string, string>, key: string, prefix: string)
    ensures var raw := Or(arg, Existing(before, key));
            var wanted := Strip(Wanted(arg, before, key));
            && (IsLiveKey(raw, prefix) <==> Live(wanted, prefix))
            && (raw.Some? ==> Strip(raw.value) == wanted)
            && (raw.None? ==> wanted == "")
  {
    StripTwice(Get(before, key, ""));
    StripOfTrimmed("");
  }

  lemma KeyPrints(raw: Option<string>, wanted: string, environment: string, prefix: string, pending: bool,
                  default: string)
    requires PaystackKey(raw, environment, prefix, !pending).Success?
    requires raw.Some? ==> Strip(raw.value) == wanted
    requires raw.None? ==> wanted == ""
    requires Strip(wanted) == wanted
    ensures PaystackValue(PaystackKey(raw, environment, prefix, !pending).value, pending, prefix, default) ==
            if pending then (if Live(wanted, prefix) then wanted else "")
            else if wanted != "" then wanted else default
  {
  }

  lemma StatedPending(text: string)
    requires OptionalBool(if Strip(text) == "" then None else Some(Strip(text))).Success?
    ensures var stated := OptionalBool(if Strip(text) == "" then None else Some(Strip(text))).value;
            var word := Lower(Strip(text));
            && (stated == Some(true) <==> word in YES)
            && (stated == Some(false) <==> word in NO)
  {
    StripTwice(text);
  }

  lemma AllPaystackPrints(environment: string, before: map<string, string>, args: Args, p: Paystack, llm: Llm,
                          after: map<string, string>)
    requires ResolvePaystack(environment, before, args) == Success(p)
    requires ReadsProviders(after, ProviderValuesOf(p, llm))
    ensures PaystackPrinted(environment, before, args, after)
  {
    var secret := Or(args.paystackSecret, Existing(before, "PAYSTACK_SECRET_KEY"));
    var public := Or(args.paystackPublic, Existing(before, "PAYSTACK_PUBLIC_KEY"));
    var wantedSecret := Wanted(args.paystackSecret, before, "PAYSTACK_SECRET_KEY");
    var wantedPublic := Wanted(args.paystackPublic, before, "PAYSTACK_PUBLIC_KEY");
    RawKey(args.paystackSecret, before, "PAYSTACK_SECRET_KEY", "sk_live_");
    RawKey(args.paystackPublic, before, "PAYSTACK_PUBLIC_KEY", "pk_live_");
    StatedPending(Get(before, "PAYSTACK_ACTIVATION_PENDING", ""));
    StripTwice(wantedSecret);
    StripTwice(wantedPublic);
    KeyPrints(secret, Strip(wantedSecret), environment, "sk_live_", p.pending, DEFAULT_PAYSTACK_SECRET);
    KeyPrints(public, Strip(wantedPublic), environment, "pk_live_", p.pending, DEFAULT_PAYSTACK_PUBLIC);
  }

  /** The provider text of the generator, as it is wanted or blank. */
  lemma ProviderText(before: map<string, string>, args: Args)
    ensures var wanted := Wanted(args.provider, before, "LLM_PROVIDER");
            Lower(Strip(Pick(args.provider, before, "LLM_PROVIDER", "groq"))) ==
            Lower(Strip(if wanted != "" then wanted else "groq"))
  {
  }

  lemma ProviderWanted(before: map<string, string>, args: Args)
    ensures var text := Lower(Strip(Pick(args.provider, before, "LLM_PROVIDER", "groq")));
            (if text != "" then text else "groq") == WantedProvider(before, args)
  {
    ProviderText(before, args);
    ProviderAgain("groq");
    StripOfTrimmed("");
  }

  lemma OneLlmPrints(before: map<string, string>, args: Args, p: Paystack, name: string, after: map<string, string>)
    requires ProviderKey(name).Some? && ResolveLlm(before, args).Success?
    requires ReadsProviders(after, ProviderValuesOf(p, ResolveLlm(before, args).value))
    ensures LlmPrints(after, ProviderKey(name).value, name, WantedProvider(before, args), before, args)
  {
    var llm := ResolveLlm(before, args).value;
    var key := ProviderKey(name).value;
    ProviderWanted(before, args);
    LlmKeyPrinted(after, p, llm, name);
    if name == llm.provider {
      PickPrints(args.llmKey, before, key, PLACEHOLDER_PREFIX + key, after);
    }
  }

  lemma AllLlmPrints(before: map<string, string>, args: Args, p: Paystack, after: map<string, string>)
    requires ResolveLlm(before, args).Success?
    requires ReadsProviders(after, ProviderValuesOf(p, ResolveLlm(before, args).value))
    ensures LlmPrinted(before, args, after)
  {
    ProviderWanted(before, args);
    OneLlmPrints(before, args, p, "groq", after);
    OneLlmPrints(before, args, p, "openai", after);
    OneLlmPrints(before, args, p, "claude", after);
    OneLlmPrints(before, args, p, "google", after);
  }

  lemma ResolvedPrints(lib: Library, environment: string, before: map<string, string>, args: Args,
                       generated: Secrets, r: Resolved, after: map<string, string>)
    requires Lawful(lib)
    requires Resolve(lib, environment, before, args, generated) == Success(r) && Reads(lib, after, r)
    ensures EverythingPrinted(lib, environment, before, args, generated, after)
  {
    AllUrlsPrint(lib, environment, before, args, generated, r, after);
    ResolveParts(lib, environment, before, args, generated, r);
    AllGcpPrints(lib, before, args, r, after);
    AllSecretsPrint(before, generated, after);
    AllPaystackPrints(environment, before, args, r.paystack, r.llm, after);
    AllLlmPrints(before, args, r.paystack, after);
  }

  /** What a run prints, key by key: an argument that is given is the value under its own key, whatever
      the existing file says; without one it is the existing value, and without that the default. */
  lemma ArgumentsPrinted(lib: Library, template: string, environment: string, existing: Option<string>,
                         args: Args, generated: Secrets)
    requires Lawful(lib) && ArgsOneLine(args) && GeneratedOk(generated)
    requires Generate(lib, template, environment, existing, args, generated).Success?
    ensures var text := Generate(lib, template, environment, existing, args, generated).value;
            var before, after := ExistingValues(existing), EnvFile.ParseText(text);
            && before.Success? && after.Success?
            && EverythingPrinted(lib, Lower(Strip(environment)), before.value, args, generated, after.value)
  {
    var values, r := Printed(lib, template, environment, existing, args, generated);
    var lines := EnvFile.TemplateMap(SplitLines(template));
    ResolvedPrints(lib, Lower(Strip(environment)), values, args, generated, r, lines + Overrides(lib, r));
  }

  // ----------------------------------------------------------- every other key

  predicate IsUrlKey(key: string) {
    || key == "ENVIRONMENT" || key == "API_URL" || key == "FRONTEND_URL" || key == "CORS_ORIGINS"
    || key == "DATABASE_URL" || key == "SUPABASE_URL" || key == "SUPABASE_ANON_KEY" || key == "SUPABASE_JWT_SECRET"
  }

  predicate IsGcpKey(key: string) {
    || key == "GCP_PROJECT_ID" || key == "GCP_REGION" || key == "GCP_CLOUD_TASKS_QUEUE"
    || key == "GCP_CLOUD_TASKS_" + "INVOKER_SERVICE_ACCOUNT_EMAIL" || key == "GCP_CLOUD_RUN_SERVICE_NAME"
    || key == "GCP_CLOUD_RUN_BATCH_JOB_NAME" || key == "GCP_INTERNAL_ALLOWED_" + "SERVICE_ACCOUNTS"
    || key == "TRUSTED_PROXY_CIDRS"
  }

  predicate IsSecretKey(key: string) {
    || key == "CSRF_SECRET_KEY" || key == "ENCRYPTION_KEY" || key == "KDF_SALT" || key == "ADMIN_API_KEY"
    || key == "INTERNAL_METRICS_AUTH_TOKEN" || key == "ENFORCEMENT_APPROVAL_TOKEN_SECRET"
    || key == "ENFORCEMENT_EXPORT_SIGNING_SECRET"
  }

  predicate IsProviderKey(key: string) {
    || key == "PAYSTACK_SECRET_KEY" || key == "PAYSTACK_PUBLIC_KEY" || key == "PAYSTACK_ACTIVATION_PENDING"
    || key == "LLM_PROVIDER" || key == "GROQ_API_KEY" || key == "OPENAI_API_KEY" || key == "CLAUDE_API_KEY"
    || key == "GOOGLE_API_KEY"
  }

  /** The keys whose text a run computes. */
  predicate IsComputed(key: string) {
    IsUrlKey(key) || IsGcpKey(key) || IsSecretKey(key) || IsProviderKey(key)
  }

  /** A key that no run computes is printed with its constant, else as the last line of the template that
      assigns it says, else not at all. */
  ghost predicate OtherPrinted(lib: Library, template: seq<string>, after: map<string, string>, key: string) {
    if key in lib.constants then key in after && after[key] == lib.constants[key]
    else if EnvPrinting.Mentioned(template, key) then
      key in after && EnvPrinting.LastAssigned(template, key, after[key])
    else key !in after
  }

  lemma UrlKeysOnly(lib: Library, r: Resolved, key: string)
    ensures key in Urls(lib, r) ==> IsUrlKey(key)
  {
  }

  lemma GcpKeysOnly(lib: Library, r: Resolved, key: string)
    ensures key in Gcp(lib, r) ==> IsGcpKey(key)
  {
  }

  lemma SecretKeysOnly(s: Secrets, key: string)
    ensures key in Internal(s) ==> IsSecretKey(key)
  {
  }

  lemma ProviderKeysOnly(v: ProviderValues, key: string)
    ensures key in Providers(v) ==> IsProviderKey(key)
  {
  }

  lemma LayersWithout(template: map<string, string>, base: map<string, string>, a: map<string, string>,
                      b: map<string, string>, c: map<string, string>, d: map<string, string>, key: string)
    requires key !in a && key !in b && key !in c && key !in d
    ensures var after := template + (base + a + b + c + d);
            && (key in after <==> key in base || key in template)
            && (key in base ==> after[key] == base[key])
            && (key in template && key !in base ==> after[key] == template[key])
  {
  }

  lemma OtherIsPrinted(lib: Library, template: seq<string>, r: Resolved, key: string)
    requires !IsComputed(key)
    ensures OtherPrinted(lib, template, EnvFile.TemplateMap(template) + Overrides(lib, r), key)
  {
    var v := ProviderValuesOf(r.paystack, r.llm);
    UrlKeysOnly(lib, r, key);
    GcpKeysOnly(lib, r, key);
    SecretKeysOnly(r.secrets, key);
    ProviderKeysOnly(v, key);
    LayersWithout(EnvFile.TemplateMap(template), lib.constants, Urls(lib, r), Gcp(lib, r), Internal(r.secrets),
                  Providers(v), key);
    EnvPrinting.TemplateSays(template, key);
  }

  /** What a run prints of every other key. */
  lemma OthersPrinted(lib: Library, template: string, environment: string, existing: Option<string>,
                      args: Args, generated: Secrets, key: string)
    requires Lawful(lib) && ArgsOneLine(args) && GeneratedOk(generated) && !IsComputed(key)
    requires Generate(lib, template, environment, existing, args, generated).Success?
    ensures var after := EnvFile.ParseText(Generate(lib, template, environment, existing, args, generated).value);
            after.Success? && OtherPrinted(lib, SplitLines(template), after.value, key)
  {
    var values, r := Printed(lib, template, environment, existing, args, generated);
    OtherIsPrinted(lib, SplitLines(template), r, key);
  }

  // ------------------------------------------------------- when a run succeeds

  predicate UrlAccepted(lib: Library, arg: Option<string>, before: map<string, string>, key: string) {
    var wanted := Strip(Wanted(arg, before, key));
    && (IsGiven(arg) ==> wanted != "")
    && (wanted != "" ==> lib.isPublicUrl(wanted))
  }

  predicate CidrsAccepted(lib: Library, items: seq<string>) {
    forall i | 0 <= i < |items| :: Strip(items[i]) != "" && lib.isCidr(Strip(items[i]))
  }

  /** A given key is not blank, and in production any key that has to be live has the live prefix. */
  predicate KeyAccepted(environment: string, arg: Option<string>, before: map<string, string>, key: string,
                        prefix: string, pending: bool)
  {
    var wanted := Strip(Wanted(arg, before, key));
    && (IsGiven(arg) ==> wanted != "")
    && (wanted != "" && !pending && environment == "production" ==> prefix <= wanted)
  }

  predicate PaystackAccepted(environment: string, before: map<string, string>, args: Args) {
    var word := Lower(Strip(Get(before, "PAYSTACK_ACTIVATION_PENDING", "")));
    var pending := PendingWanted(environment, before, args);
    && (word == "" || word in YES || word in NO)
    && KeyAccepted(environment, args.paystackSecret, before, "PAYSTACK_SECRET_KEY", "sk_live_", pending)
    && KeyAccepted(environment, args.paystackPublic, before, "PAYSTACK_PUBLIC_KEY", "pk_live_", pending)
  }

  predicate InputsAccepted(lib: Library, environment: string, before: map<string, string>, args: Args) {
    && CidrsAccepted(lib, WantedCidrs(lib, args, before))
    && UrlAccepted(lib, args.apiUrl, before, "API_URL")
    && UrlAccepted(lib, args.frontendUrl, before, "FRONTEND_URL")
    && PaystackAccepted(environment, before, args)
    && WantedProvider(before, args) in {"groq", "openai", "claude", "google"}
  }

  lemma {:induction false} NormalizedIff(lib: Library, items: seq<string>)
    ensures NormalizeCidrs(lib, items).Success? <==> CidrsAccepted(lib, items)
  {
    if items != [] {
      NormalizedIff(lib, items[1..]);
      assert items == [items[0]] + items[1..];
    }
  }

  lemma CidrsIff(lib: Library, before: map<string, string>, args: Args)
    ensures ResolveCidrs(lib, before, args).Success? <==> CidrsAccepted(lib, WantedCidrs(lib, args, before))
  {
    NormalizedIff(lib, WantedCidrs(lib, args, before));
  }

  lemma UrlIff(lib: Library, arg: Option<string>, before: map<string, string>, key: string)
    ensures PublicUrl(lib, Or(arg, Existing(before, key))).Success? <==> UrlAccepted(lib, arg, before, key)
  {
    StripTwice(Get(before, key, ""));
    StripOfTrimmed("");
  }

  lemma KeyIff(environment: string, arg: Option<string>, before: map<string, string>, key: string,
               prefix: string, pending: bool)
    ensures PaystackKey(Or(arg, Existing(before, key)), environment, prefix, !pending).Success? <==>
            KeyAccepted(environment, arg, before, key, prefix, pending)
  {
    StripTwice(Get(before, key, ""));
    StripOfTrimmed("");
  }

  lemma StatedIff(text: string)
    ensures var word := Lower(Strip(text));
            OptionalBool(if Strip(text) == "" then None else Some(Strip(text))).Success? <==>
            word == "" || word in YES || word in NO
  {
    StripTwice(text);
  }

  lemma PaystackIff(environment: string, before: map<string, string>, args: Args)
    ensures ResolvePaystack(environment, before, args).Success? <==> PaystackAccepted(environment, before, args)
  {
    var text := Get(before, "PAYSTACK_ACTIVATION_PENDING", "");
    var pending := PendingWanted(environment, before, args);
    StatedIff(text);
    if OptionalBool(Existing(before, "PAYSTACK_ACTIVATION_PENDING")).Success? {
      StatedPending(text);
      RawKey(args.paystackSecret, before, "PAYSTACK_SECRET_KEY", "sk_live_");
      RawKey(args.paystackPublic, before, "PAYSTACK_PUBLIC_KEY", "pk_live_");
      KeyIff(environment, args.paystackSecret, before, "PAYSTACK_SECRET_KEY", "sk_live_", pending);
      KeyIff(environment, args.paystackPublic, before, "PAYSTACK_PUBLIC_KEY", "pk_live_", pending);
    }
  }

  lemma LlmIff(before: map<string, string>, args: Args)
    ensures ResolveLlm(before, args).Success? <==>
            WantedProvider(before, args) in {"groq", "openai", "claude", "google"}
  {
    ProviderWanted(before, args);
  }

  lemma ResolvedIff(lib: Library, environment: string, before: map<string, string>, args: Args, generated: Secrets)
    ensures Resolve(lib, environment, before, args, generated).Success? <==>
            InputsAccepted(lib, environment, before, args)
  {
    CidrsIff(lib, before, args);
    UrlIff(lib, args.apiUrl, before, "API_URL");
    UrlIff(lib, args.frontendUrl, before, "FRONTEND_URL");
    PaystackIff(environment, before, args);
    LlmIff(before, args);
  }

  lemma GenerateIff(lib: Library, template: string, environment: string, existing: Option<string>,
                    args: Args, generated: Secrets)
    ensures Generate(lib, template, environment, existing, args, generated).Success? <==>
            && Lower(Strip(environment)) in {"staging", "production"}
            && ExistingValues(existing).Success?
            && Resolve(lib, Lower(Strip(environment)), ExistingValues(existing).value, args, generated).Success?
  {
  }

  /** A run succeeds exactly when the environment is known, the existing file can be read, and what is
      wanted for the networks, the URLs, the Paystack keys and the provider is acceptable. */
  lemma SucceedsIff(lib: Library, template: string, environment: string, existing: Option<string>,
                    args: Args, generated: Secrets)
    ensures var name := Lower(Strip(environment));
            Generate(lib, template, environment, existing, args, generated).Success? <==>
            && name in {"staging", "production"}
            && (existing.Some? ==> EnvFile.ParseText(existing.value).Success?)
            && InputsAccepted(lib, name,
                              if existing.Some? then EnvFile.ParseText(existing.value).value else map[], args)
  {
    var name := Lower(Strip(environment));
    GenerateIff(lib, template, environment, existing, args, generated);
    if name in {"staging", "production"} && ExistingValues(existing).Success? {
      ResolvedIff(lib, name, ExistingValues(existing).value, args, generated);
    }
  }
}
