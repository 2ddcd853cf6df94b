/** The managed runtime env generator (`generate_managed_runtime_env.py`): it reads its previous
    output, computes the overrides from it and prints the file again. */
module RuntimeEnv {
  import opened Text
  import opened ManagedContract
  import EnvFile

  /** What this model does not look into: JSON lists of strings, URL and CIDR validity, and the
      overrides that are the same in every run. `loads` is `None` for text that is not a JSON array,
      otherwise `str` of each element. */
  datatype Library = Library(
    dumps: seq<string> -> string,
    loads: string -> Option<seq<string>>,
    isPublicUrl: string -> bool,
    isCidr: string -> bool,
    constants: map<string, string>)

  ghost predicate DumpsOk(lib: Library, items: seq<string>) {
    var text := lib.dumps(items);
    text != "" && Trimmed(text) && OneLine(text) && lib.loads(text) == Some(items)
  }

  /** Lists survive JSON, JSON text is one trimmed line, a placeholder stays visible in it, the
      built-in URLs are valid and the constant overrides can be printed. */
  ghost predicate Lawful(lib: Library) {
    && (forall items: seq<string> :: DumpsOk(lib, items))
    && ContainsPlaceholder(lib.dumps([DEFAULT_CIDR]))
    && lib.isPublicUrl(DEFAULT_API_URL)
    && lib.isPublicUrl(DEFAULT_FRONTEND_URL)
    && EnvFile.Carries(lib.constants)
  }

  // Literals of more than 35 characters are written in parts: it keeps proofs about their
  // characters shallow.
  const DEFAULT_API_URL := "https://REPLACE_WITH_API_DOMAIN"
  const DEFAULT_FRONTEND_URL := "https://REPLACE_WITH_" + "FRONTEND_DOMAIN"
  const DEFAULT_DATABASE_URL :=
    "postgresql+asyncpg://" + "REPLACE_WITH_DB_USER:" + "REPLACE_WITH_DB_PASSWORD@"
    + "REPLACE_WITH_DB_HOST:5432/postgres"
  const DEFAULT_SUPABASE_URL := "https://REPLACE_WITH_" + "SUPABASE_PROJECT.supabase.co"
  const DEFAULT_ANON_KEY := "REPLACE_WITH_SUPABASE_ANON_KEY"
  const DEFAULT_JWT_SECRET := "REPLACE_WITH_SUPABASE_JWT_SECRET_" + "MINIMUM_32_CHARS_VALUE"
  const DEFAULT_PROJECT := "REPLACE_WITH_GCP_PROJECT_ID"
  const DEFAULT_REGION := "REPLACE_WITH_GCP_REGION"
  const DEFAULT_QUEUE := "valdrics-managed-work"
  const DEFAULT_INVOKER := "REPLACE_WITH_GCP_CLOUD_TASKS_" + "INVOKER_SERVICE_ACCOUNT_EMAIL"
  const DEFAULT_SCHEDULER := "REPLACE_WITH_GCP_CLOUD_SCHEDULER_" + "INVOKER_SERVICE_ACCOUNT_EMAIL"
  const DEFAULT_SERVICE := "valdrics-api"
  const DEFAULT_BATCH_JOB := "valdrics-batch"
  const DEFAULT_PAYSTACK_SECRET := "sk_live_" + "REPLACE_WITH_PAYSTACK_SECRET_KEY"
  const DEFAULT_PAYSTACK_PUBLIC := "pk_live_" + "REPLACE_WITH_PAYSTACK_PUBLIC_KEY"
  const DEFAULT_CIDR := "REPLACE_WITH_TRUSTED_PROXY_CIDR"
  const INVOKER_KEY := "GCP_CLOUD_TASKS_" + "INVOKER_SERVICE_ACCOUNT_EMAIL"
  const ACCOUNTS_KEY := "GCP_INTERNAL_ALLOWED_" + "SERVICE_ACCOUNTS"

  /** The explicit command-line arguments. */
  datatype Args = Args(
    apiUrl: Option<string>, frontendUrl: Option<string>, database: Option<string>,
    supabaseUrl: Option<string>, anonKey: Option<string>, jwtSecret: Option<string>,
    project: Option<string>, region: Option<string>, queue: Option<string>,
    invoker: Option<string>, service: Option<string>, batchJob: Option<string>,
    accounts: Option<seq<string>>, provider: Option<string>, llmKey: Option<string>,
    paystackSecret: Option<string>, paystackPublic: Option<string>, cidrs: Option<seq<string>>)

  const NoArgs := Args(None, None, None, None, None, None, None, None, None, None, None, None,
                       None, None, None, None, None, None)

  /** The freshly generated random values, one per internal secret. */
  datatype Secrets = Secrets(
    csrf: string, encryption: string, kdfSalt: string, admin: string,
    metrics: string, approval: string, signing: string)

  // ------------------------------------------------------------ small steps

  /** Python's `a or b` on optional strings. */
  function Or(a: Option<string>, b: Option<string>): Option<string> {
    if a.Some? && a.value != "" then a else b
  }

  function OrElse(a: Option<string>, b: string): string {
    if a.Some? && a.value != "" then a.value else b
  }

  function Existing(values: map<string, string>, key: string): Option<string> {
    var candidate := Strip(Get(values, key, ""));
    if candidate == "" then None else Some(candidate)
  }

  /** An explicit argument wins, then the existing value, then the default. */
  function Pick(arg: Option<string>, values: map<string, string>, key: string, default: string): string {
    OrElse(arg, OrElse(Existing(values, key), default))
  }

  function PublicUrl(lib: Library, value: Option<string>): Result<Option<string>> {
    match value
    case None => Success(None)
    case Some(raw) =>
      var url := Strip(raw);
      if url == "" then Failure("must be a non-empty https:// URL")
      else if !lib.isPublicUrl(url) then Failure("must be a public https:// URL")
      else Success(Some(url))
  }

  function NormalizeCidrs(lib: Library, cidrs: seq<string>): Result<seq<string>> {
    if cidrs == [] then Success([])
    else
      var cidr := Strip(cidrs[0]);
      if cidr == "" then Failure("trusted_proxy_cidrs entries must be non-empty")
      else if !lib.isCidr(cidr) then Failure("trusted_proxy_cidrs contains invalid CIDR")
      else
        var rest :- NormalizeCidrs(lib, cidrs[1..]);
        Success([cidr] + rest)
  }

  /** `_normalize_trusted_proxy_cidrs` */
  method NormalizeTrustedProxyCidrs(lib: Library, cidrs: seq<string>) returns (r: Result<seq<string>>)
    ensures r == NormalizeCidrs(lib, cidrs)
  {
    var normalized: seq<string> := [];
    assert cidrs[0..] == cidrs;
    ghost var all := NormalizeCidrs(lib, cidrs);
    assert all.Success? ==> [] + all.value == all.value;
    for i := 0 to |cidrs|
      invariant NormalizeCidrs(lib, cidrs) ==
                match NormalizeCidrs(lib, cidrs[i..])
                case Failure(error) => Failure(error)
                case Success(rest) => Success(normalized + rest)
    {
      assert cidrs[i..][1..] == cidrs[i + 1..];
      var cidr := Strip(cidrs[i]);
      if cidr == "" {
        return Failure("trusted_proxy_cidrs entries must be non-empty");
      }
      if !lib.isCidr(cidr) {
        return Failure("trusted_proxy_cidrs contains invalid CIDR");
      }
      AppendOne(normalized, cidr, NormalizeCidrs(lib, cidrs[i + 1..]));
      normalized := normalized + [cidr];
    }
    assert cidrs[|cidrs|..] == [] && normalized + [] == normalized;
    return Success(normalized);
  }

  lemma AppendOne(front: seq<string>, item: string, rest: Result<seq<string>>)
    ensures rest.Success? ==> front + ([item] + rest.value) == front + [item] + rest.value
  {
  }

  function ExistingCidrs(lib: Library, values: map<string, string>): Option<seq<string>> {
    match Existing(values, "TRUSTED_PROXY_CIDRS")
    case None => None
    case Some(text) => if ContainsPlaceholder(text) then None else lib.loads(text)
  }

  function RenderCidrs(lib: Library, cidrs: seq<string>): string {
    lib.dumps(if cidrs != [] then cidrs else [DEFAULT_CIDR])
  }

  predicate IsLiveKey(value: Option<string>, prefix: string) {
    && value.Some?
    && Strip(value.value) != ""
    && StartsWith(Strip(value.value), prefix)
    && !ContainsPlaceholder(Strip(value.value))
  }

  function PaystackKey(value: Option<string>, environment: string, prefix: string, requireLive: bool)
    : Result<Option<string>>
  {
    match value
    case None => Success(None)
    case Some(raw) =>
      var key := Strip(raw);
      if key == "" then Failure("must be a non-empty string")
      else if requireLive && environment == "production" && !StartsWith(key, prefix) then
        Failure("must be a live key in production")
      else Success(Some(key))
  }

  function OptionalBool(value: Option<string>): Result<Option<bool>> {
    match value
    case None => Success(None)
    case Some(text) =>
      var word := Lower(Strip(text));
      if word in {"1", "true", "yes", "on"} then Success(Some(true))
      else if word in {"0", "false", "no", "off"} then Success(Some(false))
      else Failure("PAYSTACK_ACTIVATION_PENDING must be a boolean value.")
  }

  /** What is printed for a Paystack key. */
  function PaystackValue(key: Option<string>, pending: bool, prefix: string, default: string): string {
    OrElse(if !pending || IsLiveKey(key, prefix) then key else None,
           if pending then "" else default)
  }

  // -------------------------------------------------------------- overrides

  /** Values that are passed through: an explicit argument, the existing value or a default. */
  datatype Passed = Passed(
    database: string, supabaseUrl: string, anonKey: string, jwtSecret: string,
    project: string, region: string, queue: string, invoker: string,
    service: string, batchJob: string, accounts: string)

  datatype Paystack = Paystack(secret: string, public: string, pending: bool)

  datatype Llm = Llm(provider: string, key: string)

  /** Everything the printed overrides depend on. */
  datatype Resolved = Resolved(
    environment: string, apiUrl: string, frontendUrl: string, passed: Passed,
    cidrs: seq<string>, secrets: Secrets, paystack: Paystack, llm: Llm)

  function ResolveCidrs(lib: Library, values: map<string, string>, args: Args): Result<seq<string>> {
    match if args.cidrs.Some? then args.cidrs else ExistingCidrs(lib, values)
    case None => Success([])
    case Some(given) => NormalizeCidrs(lib, given)
  }

  function ResolvePassed(lib: Library, values: map<string, string>, args: Args): Passed {
    var accounts := if args.accounts.Some? && args.accounts.value != []
                    then Some(lib.dumps(args.accounts.value)) else None;
    Passed(
      Pick(args.database, values, "DATABASE_URL", DEFAULT_DATABASE_URL),
      Pick(args.supabaseUrl, values, "SUPABASE_URL", DEFAULT_SUPABASE_URL),
      Pick(args.anonKey, values, "SUPABASE_ANON_KEY", DEFAULT_ANON_KEY),
      Pick(args.jwtSecret, values, "SUPABASE_JWT_SECRET", DEFAULT_JWT_SECRET),
      Pick(args.project, values, "GCP_PROJECT_ID", DEFAULT_PROJECT),
      Pick(args.region, values, "GCP_REGION", DEFAULT_REGION),
      Pick(args.queue, values, "GCP_CLOUD_TASKS_QUEUE", DEFAULT_QUEUE),
      Pick(args.invoker, values, INVOKER_KEY, DEFAULT_INVOKER),
      Pick(args.service, values, "GCP_CLOUD_RUN_SERVICE_NAME", DEFAULT_SERVICE),
      Pick(args.batchJob, values, "GCP_CLOUD_RUN_BATCH_JOB_NAME", DEFAULT_BATCH_JOB),
      Pick(accounts, values, ACCOUNTS_KEY, lib.dumps([DEFAULT_INVOKER, DEFAULT_SCHEDULER])))
  }

  function ResolveSecrets(values: map<string, string>, generated: Secrets): Secrets {
    Secrets(
      Pick(None, values, "CSRF_SECRET_KEY", generated.csrf),
      Pick(None, values, "ENCRYPTION_KEY", generated.encryption),
      Pick(None, values, "KDF_SALT", generated.kdfSalt),
      Pick(None, values, "ADMIN_API_KEY", generated.admin),
      Pick(None, values, "INTERNAL_METRICS_AUTH_TOKEN", generated.metrics),
      Pick(None, values, "ENFORCEMENT_APPROVAL_TOKEN_SECRET", generated.approval),
      Pick(None, values, "ENFORCEMENT_EXPORT_SIGNING_SECRET", generated.signing))
  }

  function ResolvePaystack(environment: string, values: map<string, string>, args: Args): Result<Paystack> {
    var rawSecret := Or(args.paystackSecret, Existing(values, "PAYSTACK_SECRET_KEY"));
    var rawPublic := Or(args.paystackPublic, Existing(values, "PAYSTACK_PUBLIC_KEY"));
    var explicitPending :- OptionalBool(Existing(values, "PAYSTACK_ACTIVATION_PENDING"));
    var live := IsLiveKey(rawSecret, "sk_live_") && IsLiveKey(rawPublic, "pk_live_");
    var pending := if explicitPending.Some? then explicitPending.value
                   else environment == "production" && !live;
    var secret :- PaystackKey(rawSecret, environment, "sk_live_", !pending);
    var public :- PaystackKey(rawPublic, environment, "pk_live_", !pending);
    Success(Paystack(
      PaystackValue(secret, pending, "sk_live_", DEFAULT_PAYSTACK_SECRET),
      PaystackValue(public, pending, "pk_live_", DEFAULT_PAYSTACK_PUBLIC),
      pending))
  }

  function ResolveLlm(values: map<string, string>, args: Args): Result<Llm> {
    var text := Lower(Strip(Pick(args.provider, values, "LLM_PROVIDER", DEFAULT_LLM_PROVIDER)));
    var provider := if text != "" then text else DEFAULT_LLM_PROVIDER;
    match ProviderKey(provider)
    case None => Failure("llm provider is not supported")
    case Some(key) => Success(Llm(provider, Pick(args.llmKey, values, key, PLACEHOLDER_PREFIX + key)))
  }

  function Resolve(lib: Library, environment: string, values: map<string, string>, args: Args,
                   generated: Secrets): Result<Resolved>
  {
    var cidrs :- ResolveCidrs(lib, values, args);
    var apiUrl :- PublicUrl(lib, Or(args.apiUrl, Existing(values, "API_URL")));
    var frontendUrl :- PublicUrl(lib, Or(args.frontendUrl, Existing(values, "FRONTEND_URL")));
    var paystack :- ResolvePaystack(environment, values, args);
    var llm :- ResolveLlm(values, args);
    Success(Resolved(
      environment, OrElse(apiUrl, DEFAULT_API_URL), OrElse(frontendUrl, DEFAULT_FRONTEND_URL),
      ResolvePassed(lib, values, args), cidrs, ResolveSecrets(values, generated), paystack, llm))
  }

  function Urls(lib: Library, r: Resolved): map<string, string> {
    map[
      "ENVIRONMENT" := r.environment,
      "API_URL" := r.apiUrl,
      "FRONTEND_URL" := r.frontendUrl,
      "CORS_ORIGINS" := lib.dumps([r.frontendUrl]),
      "DATABASE_URL" := r.passed.database,
      "SUPABASE_URL" := r.passed.supabaseUrl,
      "SUPABASE_ANON_KEY" := r.passed.anonKey,
      "SUPABASE_JWT_SECRET" := r.passed.jwtSecret
    ]
  }

  function Gcp(lib: Library, r: Resolved): map<string, string> {
    map[
      "GCP_PROJECT_ID" := r.passed.project,
      "GCP_REGION" := r.passed.region,
      "GCP_CLOUD_TASKS_QUEUE" := r.passed.queue,
      INVOKER_KEY := r.passed.invoker,
      "GCP_CLOUD_RUN_SERVICE_NAME" := r.passed.service,
      "GCP_CLOUD_RUN_BATCH_JOB_NAME" := r.passed.batchJob,
      ACCOUNTS_KEY := r.passed.accounts,
      "TRUSTED_PROXY_CIDRS" := RenderCidrs(lib, r.cidrs)
    ]
  }

  function Internal(s: Secrets): map<string, string> {
    map[
      "CSRF_SECRET_KEY" := s.csrf,
      "ENCRYPTION_KEY" := s.encryption,
      "KDF_SALT" := s.kdfSalt,
      "ADMIN_API_KEY" := s.admin,
      "INTERNAL_METRICS_AUTH_TOKEN" := s.metrics,
      "ENFORCEMENT_APPROVAL_TOKEN_SECRET" := s.approval,
      "ENFORCEMENT_EXPORT_SIGNING_SECRET" := s.signing
    ]
  }

  function Word(b: bool): string {
    if b then "true" else "false"
  }

  /** The printed key of provider `name`: only the selected provider keeps one. */
  function LlmKey(llm: Llm, name: string): string {
    if llm.provider == name then llm.key else ""
  }

  datatype ProviderValues = ProviderValues(
    secret: string, public: string, pending: string, provider: string,
    groq: string, openai: string, claude: string, google: string)

  function ProviderValuesOf(p: Paystack, llm: Llm): ProviderValues {
    ProviderValues(
      p.secret, p.public, Word(p.pending), llm.provider,
      LlmKey(llm, "groq"), LlmKey(llm, "openai"), LlmKey(llm, "claude"), LlmKey(llm, "google"))
  }

  function Providers(v: ProviderValues): map<string, string> {
    map[
      "PAYSTACK_SECRET_KEY" := v.secret,
      "PAYSTACK_PUBLIC_KEY" := v.public,
      "PAYSTACK_ACTIVATION_PENDING" := v.pending,
      "LLM_PROVIDER" := v.provider,
      "GROQ_API_KEY" := v.groq,
      "OPENAI_API_KEY" := v.openai,
      "CLAUDE_API_KEY" := v.claude,
      "GOOGLE_API_KEY" := v.google
    ]
  }

  function Overrides(lib: Library, r: Resolved): map<string, string> {
    lib.constants + Urls(lib, r) + Gcp(lib, r) + Internal(r.secrets)
    + Providers(ProviderValuesOf(r.paystack, r.llm))
  }

  function Build(lib: Library, environment: string, values: map<string, string>, args: Args,
                 generated: Secrets): Result<map<string, string>>
  {
    var r :- Resolve(lib, environment, values, args, generated);
    Success(Overrides(lib, r))
  }

  const HEADER1 := "# Managed runtime environment" + " scaffold."
  const HEADER2 := "# Generated by scripts/" + "generate_managed_runtime_env.py."
  const HEADER3 := "# Existing values are preserved" + " on regeneration unless you" + " explicitly override them."
  const HEADER4 :=
    "# Values containing REPLACE_WITH_" + " must be replaced with live" + " operator/provider values"
    + " before deployment."

  const HEADER := [HEADER1, HEADER2, HEADER3, HEADER4, ""]

  /** `_render_output` */
  function RenderOutput(template: seq<string>, overrides: map<string, string>): string {
    JoinLines(HEADER + SplitLines(EnvFile.RenderText(template, overrides)))
  }

  /** The values a run starts from. */
  function ExistingValues(existing: Option<string>): Result<map<string, string>> {
    match existing
    case None => Success(map[])
    case Some(text) => EnvFile.ParseText(text)
  }

  /** `generate_managed_runtime_env`, from the texts it reads to the text it writes. */
  function Generate(lib: Library, template: string, environment: string, existing: Option<string>,
                    args: Args, generated: Secrets): Result<string>
  {
    var env := Lower(Strip(environment));
    if env !in SUPPORTED_ENVIRONMENTS then Failure("environment is not supported")
    else
      var values :- ExistingValues(existing);
      var overrides :- Build(lib, env, values, args, generated);
      Success(RenderOutput(SplitLines(template), overrides))
  }

  // ------------------------------------------------------------------- keys

  predicate IsEnvName(key: string) {
    forall i | 0 <= i < |key| :: 'A' <= key[i] <= 'Z' || key[i] == '_'
  }

  lemma UrlShortNames()
    ensures IsEnvName("ENVIRONMENT") && IsEnvName("API_URL") && IsEnvName("FRONTEND_URL")
    ensures IsEnvName("CORS_ORIGINS")
  {
  }

  lemma UrlLongNames()
    ensures IsEnvName("DATABASE_URL") && IsEnvName("SUPABASE_URL") && IsEnvName("SUPABASE_ANON_KEY")
    ensures IsEnvName("SUPABASE_JWT_SECRET")
  {
  }

  lemma UrlNames(lib: Library, r: Resolved)
    ensures forall k | k in Urls(lib, r) :: IsEnvName(k)
  {
    UrlShortNames();
    UrlLongNames();
  }

  lemma GcpShortNames()
    ensures IsEnvName("GCP_PROJECT_ID") && IsEnvName("GCP_REGION")
    ensures IsEnvName("GCP_CLOUD_TASKS_QUEUE") && IsEnvName("TRUSTED_PROXY_CIDRS")
  {
  }

  lemma GcpLongNames()
    ensures IsEnvName(INVOKER_KEY) && IsEnvName(ACCOUNTS_KEY)
    ensures IsEnvName("GCP_CLOUD_RUN_SERVICE_NAME") && IsEnvName("GCP_CLOUD_RUN_BATCH_JOB_NAME")
  {
  }

  lemma TokenNames()
    ensures IsEnvName("INTERNAL_METRICS_AUTH_TOKEN") && IsEnvName("ENFORCEMENT_APPROVAL_TOKEN_SECRET")
    ensures IsEnvName("ENFORCEMENT_EXPORT_SIGNING_SECRET")
  {
  }

  lemma InternalNames(s: Secrets)
    ensures forall k | k in Internal(s) :: IsEnvName(k)
  {
    TokenNames();
  }

  lemma PaystackNames()
    ensures IsEnvName("PAYSTACK_SECRET_KEY") && IsEnvName("PAYSTACK_PUBLIC_KEY")
    ensures IsEnvName("PAYSTACK_ACTIVATION_PENDING") && IsEnvName("LLM_PROVIDER")
  {
  }

  lemma LlmNames()
    ensures IsEnvName("GROQ_API_KEY") && IsEnvName("OPENAI_API_KEY")
    ensures IsEnvName("CLAUDE_API_KEY") && IsEnvName("GOOGLE_API_KEY")
  {
  }

  lemma ProviderNames(v: ProviderValues)
    ensures forall k | k in Providers(v) :: IsEnvName(k)
  {
    PaystackNames();
    LlmNames();
  }

  lemma GcpNames(lib: Library, r: Resolved)
    ensures forall k | k in Gcp(lib, r) :: IsEnvName(k)
  {
    GcpShortNames();
    GcpLongNames();
  }

  lemma NamesAreKeys(part: map<string, string>)
    requires forall k | k in part :: IsEnvName(k)
    ensures forall k | k in part :: EnvFile.KeyOk(k)
  {
  }

  lemma KeysOk(lib: Library, r: Resolved)
    requires EnvFile.Carries(lib.constants)
    ensures forall k | k in Overrides(lib, r) :: EnvFile.KeyOk(k)
  {
    UrlNames(lib, r);
    GcpNames(lib, r);
    InternalNames(r.secrets);
    ProviderNames(ProviderValuesOf(r.paystack, r.llm));
    NamesAreKeys(Urls(lib, r));
    NamesAreKeys(Gcp(lib, r));
    NamesAreKeys(Internal(r.secrets));
    NamesAreKeys(Providers(ProviderValuesOf(r.paystack, r.llm)));
  }

  // -------------------------------------------------------- reading back

  ghost predicate Covers(values: map<string, string>, part: map<string, string>) {
    forall k | k in part :: k in values && values[k] == part[k]
  }

  lemma UrlsGcpApart(lib: Library, r: Resolved)
    ensures Urls(lib, r).Keys !! Gcp(lib, r).Keys
  {
  }

  lemma UrlsInternalApart(lib: Library, r: Resolved, s: Secrets)
    ensures Urls(lib, r).Keys !! Internal(s).Keys
  {
  }

  lemma UrlsProvidersApart(lib: Library, r: Resolved, v: ProviderValues)
    ensures Urls(lib, r).Keys !! Providers(v).Keys
  {
  }

  lemma GcpInternalApart(lib: Library, r: Resolved, s: Secrets)
    ensures Gcp(lib, r).Keys !! Internal(s).Keys
  {
  }

  lemma GcpProvidersApart(lib: Library, r: Resolved, v: ProviderValues)
    ensures Gcp(lib, r).Keys !! Providers(v).Keys
  {
  }

  lemma InternalProvidersApart(s: Secrets, v: ProviderValues)
    ensures Internal(s).Keys !! Providers(v).Keys
  {
  }

  lemma SumCovers(values: map<string, string>, base: map<string, string>, a: map<string, string>,
                  b: map<string, string>, c: map<string, string>, d: map<string, string>)
    requires Covers(values, base + a + b + c + d)
    requires a.Keys !! b.Keys && a.Keys !! c.Keys && a.Keys !! d.Keys
    requires b.Keys !! c.Keys && b.Keys !! d.Keys && c.Keys !! d.Keys
    ensures Covers(values, a) && Covers(values, b) && Covers(values, c) && Covers(values, d)
  {
    var all := base + a + b + c + d;
    assert forall k | k in a :: k in all && all[k] == a[k];
    assert forall k | k in b :: k in all && all[k] == b[k];
    assert forall k | k in c :: k in all && all[k] == c[k];
    assert forall k | k in d :: k in all && all[k] == d[k];
  }

  ghost predicate ReadsUrls(values: map<string, string>, r: Resolved) {
    && Get(values, "API_URL", "") == r.apiUrl
    && Get(values, "FRONTEND_URL", "") == r.frontendUrl
    && Get(values, "DATABASE_URL", "") == r.passed.database
    && Get(values, "SUPABASE_URL", "") == r.passed.supabaseUrl
    && Get(values, "SUPABASE_ANON_KEY", "") == r.passed.anonKey
    && Get(values, "SUPABASE_JWT_SECRET", "") == r.passed.jwtSecret
  }

  /** The two values of `Urls` that no run looks up. */
  ghost predicate ReadsOrigin(lib: Library, values: map<string, string>, r: Resolved) {
    && Get(values, "ENVIRONMENT", "") == r.environment
    && Get(values, "CORS_ORIGINS", "") == lib.dumps([r.frontendUrl])
  }

  ghost predicate ReadsGcp(lib: Library, values: map<string, string>, r: Resolved) {
    && Get(values, "GCP_PROJECT_ID", "") == r.passed.project
    && Get(values, "GCP_REGION", "") == r.passed.region
    && Get(values, "GCP_CLOUD_TASKS_QUEUE", "") == r.passed.queue
    && Get(values, INVOKER_KEY, "") == r.passed.invoker
    && Get(values, "GCP_CLOUD_RUN_SERVICE_NAME", "") == r.passed.service
    && Get(values, "GCP_CLOUD_RUN_BATCH_JOB_NAME", "") == r.passed.batchJob
    && Get(values, ACCOUNTS_KEY, "") == r.passed.accounts
    && Get(values, "TRUSTED_PROXY_CIDRS", "") == RenderCidrs(lib, r.cidrs)
  }

  ghost predicate ReadsInternal(values: map<string, string>, s: Secrets) {
    && Get(values, "CSRF_SECRET_KEY", "") == s.csrf
    && Get(values, "ENCRYPTION_KEY", "") == s.encryption
    && Get(values, "KDF_SALT", "") == s.kdfSalt
    && Get(values, "ADMIN_API_KEY", "") == s.admin
    && Get(values, "INTERNAL_METRICS_AUTH_TOKEN", "") == s.metrics
    && Get(values, "ENFORCEMENT_APPROVAL_TOKEN_SECRET", "") == s.approval
    && Get(values, "ENFORCEMENT_EXPORT_SIGNING_SECRET", "") == s.signing
  }

  ghost predicate ReadsProviders(values: map<string, string>, v: ProviderValues) {
    && Get(values, "PAYSTACK_SECRET_KEY", "") == v.secret
    && Get(values, "PAYSTACK_PUBLIC_KEY", "") == v.public
    && Get(values, "PAYSTACK_ACTIVATION_PENDING", "") == v.pending
    && Get(values, "LLM_PROVIDER", "") == v.provider
    && Get(values, "GROQ_API_KEY", "") == v.groq
    && Get(values, "OPENAI_API_KEY", "") == v.openai
    && Get(values, "CLAUDE_API_KEY", "") == v.claude
    && Get(values, "GOOGLE_API_KEY", "") == v.google
  }

  lemma ReadBackOrigin(lib: Library, values: map<string, string>, r: Resolved)
    requires Covers(values, Urls(lib, r))
    ensures ReadsOrigin(lib, values, r)
  {
  }

  lemma ReadBackUrls(lib: Library, values: map<string, string>, r: Resolved)
    requires Covers(values, Urls(lib, r))
    ensures ReadsUrls(values, r)
  {
  }

  lemma ReadBackProject(lib: Library, values: map<string, string>, r: Resolved)
    requires Covers(values, Gcp(lib, r))
    ensures Get(values, "GCP_PROJECT_ID", "") == r.passed.project
    ensures Get(values, "GCP_REGION", "") == r.passed.region
    ensures Get(values, "GCP_CLOUD_TASKS_QUEUE", "") == r.passed.queue
    ensures Get(values, INVOKER_KEY, "") == r.passed.invoker
  {
  }

  lemma ReadBackServices(lib: Library, values: map<string, string>, r: Resolved)
    requires Covers(values, Gcp(lib, r))
    ensures Get(values, "GCP_CLOUD_RUN_SERVICE_NAME", "") == r.passed.service
    ensures Get(values, "GCP_CLOUD_RUN_BATCH_JOB_NAME", "") == r.passed.batchJob
    ensures Get(values, ACCOUNTS_KEY, "") == r.passed.accounts
    ensures Get(values, "TRUSTED_PROXY_CIDRS", "") == RenderCidrs(lib, r.cidrs)
  {
  }

  lemma ReadBackGcp(lib: Library, values: map<string, string>, r: Resolved)
    requires Covers(values, Gcp(lib, r))
    ensures ReadsGcp(lib, values, r)
  {
    ReadBackProject(lib, values, r);
    ReadBackServices(lib, values, r);
  }

  lemma ReadBackInternal(values: map<string, string>, s: Secrets)
    requires Covers(values, Internal(s))
    ensures ReadsInternal(values, s)
  {
  }

  lemma ReadBackProviders(values: map<string, string>, v: ProviderValues)
    requires Covers(values, Providers(v))
    ensures ReadsProviders(values, v)
  {
  }

  ghost predicate Reads(lib: Library, values: map<string, string>, r: Resolved) {
    && ReadsUrls(values, r)
    && ReadsOrigin(lib, values, r)
    && ReadsGcp(lib, values, r)
    && ReadsInternal(values, r.secrets)
    && ReadsProviders(values, ProviderValuesOf(r.paystack, r.llm))
  }

  /** Any env that contains the printed overrides gives back what they were printed from. */
  lemma ReadBack(lib: Library, values: map<string, string>, r: Resolved)
    requires Covers(values, Overrides(lib, r))
    ensures Reads(lib, values, r)
  {
    var v := ProviderValuesOf(r.paystack, r.llm);
    UrlsGcpApart(lib, r);
    UrlsInternalApart(lib, r, r.secrets);
    UrlsProvidersApart(lib, r, v);
    GcpInternalApart(lib, r, r.secrets);
    GcpProvidersApart(lib, r, v);
    InternalProvidersApart(r.secrets, v);
    SumCovers(values, lib.constants, Urls(lib, r), Gcp(lib, r), Internal(r.secrets), Providers(v));
    ReadBackOrigin(lib, values, r);
    ReadBackUrls(lib, values, r);
    ReadBackGcp(lib, values, r);
    ReadBackInternal(values, r.secrets);
    ReadBackProviders(values, v);
  }

  // ------------------------------------------------- what a second run does

  predicate Plain(s: string) {
    s != "" && Trimmed(s) && OneLine(s)
  }

  lemma UrlDefaultsPlain()
    ensures Plain(DEFAULT_API_URL) && Plain(DEFAULT_FRONTEND_URL)
  {
  }

  lemma DatabaseUrlParts()
    ensures OneLine("REPLACE_WITH_DB_PASSWORD@") && OneLine("REPLACE_WITH_DB_HOST:5432/postgres")
  {
  }

  lemma DatabaseDefaultPlain()
    ensures Plain(DEFAULT_DATABASE_URL)
  {
    assert OneLine("postgresql+asyncpg://") && OneLine("REPLACE_WITH_DB_USER:");
    DatabaseUrlParts();
  }

  lemma SupabaseUrlPlain()
    ensures Plain(DEFAULT_SUPABASE_URL)
  {
  }

  lemma SupabaseDefaultsPlain()
    ensures Plain(DEFAULT_SUPABASE_URL) && Plain(DEFAULT_ANON_KEY)
  {
    SupabaseUrlPlain();
  }

  lemma JwtDefaultPlain()
    ensures Plain(DEFAULT_JWT_SECRET)
  {
  }

  lemma ProjectPlain()
    ensures Plain(DEFAULT_PROJECT)
  {
  }

  lemma GcpDefaultsPlain()
    ensures Plain(DEFAULT_PROJECT) && Plain(DEFAULT_REGION) && Plain(DEFAULT_QUEUE)
  {
    ProjectPlain();
  }

  lemma InvokerDefaultPlain()
    ensures Plain(DEFAULT_INVOKER)
  {
  }

  lemma RunDefaultsPlain()
    ensures Plain(DEFAULT_SERVICE) && Plain(DEFAULT_BATCH_JOB)
  {
  }

  lemma PaystackSecretPlain()
    ensures Plain(DEFAULT_PAYSTACK_SECRET) && StartsWith(DEFAULT_PAYSTACK_SECRET, "sk_live_")
  {
  }

  lemma PaystackPublicPlain()
    ensures Plain(DEFAULT_PAYSTACK_PUBLIC) && StartsWith(DEFAULT_PAYSTACK_PUBLIC, "pk_live_")
  {
  }

  lemma PaystackDefaultsPlain()
    ensures Plain(DEFAULT_PAYSTACK_SECRET) && Plain(DEFAULT_PAYSTACK_PUBLIC)
    ensures StartsWith(DEFAULT_PAYSTACK_SECRET, "sk_live_") && StartsWith(DEFAULT_PAYSTACK_PUBLIC, "pk_live_")
  {
    PaystackSecretPlain();
    PaystackPublicPlain();
  }

  lemma DefaultsPlain()
    ensures Plain(DEFAULT_API_URL) && Plain(DEFAULT_FRONTEND_URL) && Plain(DEFAULT_DATABASE_URL)
    ensures Plain(DEFAULT_SUPABASE_URL) && Plain(DEFAULT_ANON_KEY) && Plain(DEFAULT_JWT_SECRET)
    ensures Plain(DEFAULT_PROJECT) && Plain(DEFAULT_REGION) && Plain(DEFAULT_QUEUE)
    ensures Plain(DEFAULT_INVOKER) && Plain(DEFAULT_SERVICE) && Plain(DEFAULT_BATCH_JOB)
  {
    UrlDefaultsPlain();
    DatabaseDefaultPlain();
    SupabaseDefaultsPlain();
    JwtDefaultPlain();
    GcpDefaultsPlain();
    InvokerDefaultPlain();
    RunDefaultsPlain();
  }

  /** What a run without arguments makes of a value: stripped, or the default when blank. */
  function Keep(value: string, default: string): string {
    if Strip(value) == "" then default else Strip(value)
  }

  function SettlePassed(lib: Library, p: Passed): Passed {
    Passed(
      Keep(p.database, DEFAULT_DATABASE_URL),
      Keep(p.supabaseUrl, DEFAULT_SUPABASE_URL),
      Keep(p.anonKey, DEFAULT_ANON_KEY),
      Keep(p.jwtSecret, DEFAULT_JWT_SECRET),
      Keep(p.project, DEFAULT_PROJECT),
      Keep(p.region, DEFAULT_REGION),
      Keep(p.queue, DEFAULT_QUEUE),
      Keep(p.invoker, DEFAULT_INVOKER),
      Keep(p.service, DEFAULT_SERVICE),
      Keep(p.batchJob, DEFAULT_BATCH_JOB),
      Keep(p.accounts, lib.dumps([DEFAULT_INVOKER, DEFAULT_SCHEDULER])))
  }

  function SettleLlm(llm: Llm): Llm
    requires ProviderKey(llm.provider).Some?
  {
    llm.(key := Keep(llm.key, PLACEHOLDER_PREFIX + ProviderKey(llm.provider).value))
  }

  /** A printed list that shows a placeholder is dropped by the next run. */
  function SettleCidrs(lib: Library, cidrs: seq<string>): seq<string> {
    if ContainsPlaceholder(RenderCidrs(lib, cidrs)) then [] else cidrs
  }

  lemma {:induction false} NormalizeCidrsTwice(lib: Library, cidrs: seq<string>)
    requires NormalizeCidrs(lib, cidrs).Success?
    ensures var list := NormalizeCidrs(lib, cidrs).value;
            |list| == |cidrs| && NormalizeCidrs(lib, list) == Success(list)
  {
    if cidrs != [] {
      StripTwice(cidrs[0]);
      NormalizeCidrsTwice(lib, cidrs[1..]);
    }
  }

  /** The CIDR list printed by one run is the list the next run reads, unless it shows a placeholder. */
  lemma CidrsAgain(lib: Library, cidrs: seq<string>, values: map<string, string>)
    requires Lawful(lib) && NormalizeCidrs(lib, cidrs) == Success(cidrs)
    requires Get(values, "TRUSTED_PROXY_CIDRS", "") == RenderCidrs(lib, cidrs)
    ensures var text := RenderCidrs(lib, cidrs);
            && text != "" && Trimmed(text)
            && (ContainsPlaceholder(text) ==> ExistingCidrs(lib, values) == None)
            && (!ContainsPlaceholder(text) ==> ExistingCidrs(lib, values) == Some(cidrs) && cidrs != [])
  {
    var items := if cidrs != [] then cidrs else [DEFAULT_CIDR];
    assert DumpsOk(lib, items);
    StripOfTrimmed(lib.dumps(items));
  }

  lemma UrlAgain(lib: Library, url: Option<string>)
    requires PublicUrl(lib, url).Success? && PublicUrl(lib, url).value.Some?
    ensures var kept := PublicUrl(lib, url).value.value;
            kept != "" && Strip(kept) == kept && PublicUrl(lib, Some(kept)) == Success(Some(kept))
  {
    StripTwice(url.value);
  }

  /** A printed Paystack value is accepted and printed unchanged by the next run. */
  lemma PaystackKeyAgain(raw: Option<string>, environment: string, prefix: string, pending: bool,
                         default: string, printed: string)
    requires PaystackKey(raw, environment, prefix, !pending).Success?
    requires Plain(default) && StartsWith(default, prefix)
    requires printed ==
             PaystackValue(PaystackKey(raw, environment, prefix, !pending).value, pending, prefix, default)
    ensures var again := PaystackKey(if printed == "" then None else Some(printed), environment, prefix, !pending);
            && Strip(printed) == printed
            && again.Success?
            && PaystackValue(again.value, pending, prefix, default) == printed
  {
    StripOfTrimmed(default);
    if raw.Some? {
      StripTwice(raw.value);
    }
  }

  lemma PendingAgain(pending: bool)
    ensures OptionalBool(Some(Word(pending))) == Success(Some(pending))
    ensures Word(pending) != "" && Strip(Word(pending)) == Word(pending)
  {
    StripOfTrimmed(Word(pending));
    LowerKeeps(Word(pending));
  }

  lemma PaystackAgain(environment: string, values: map<string, string>, args: Args,
                      values2: map<string, string>, llm: Llm)
    requires ResolvePaystack(environment, values, args).Success?
    requires ReadsProviders(values2, ProviderValuesOf(ResolvePaystack(environment, values, args).value, llm))
    ensures ResolvePaystack(environment, values2, NoArgs) == ResolvePaystack(environment, values, args)
  {
    var p := ResolvePaystack(environment, values, args).value;
    PaystackDefaultsPlain();
    PendingAgain(p.pending);
    PaystackKeyAgain(Or(args.paystackSecret, Existing(values, "PAYSTACK_SECRET_KEY")), environment,
                     "sk_live_", p.pending, DEFAULT_PAYSTACK_SECRET, p.secret);
    PaystackKeyAgain(Or(args.paystackPublic, Existing(values, "PAYSTACK_PUBLIC_KEY")), environment,
                     "pk_live_", p.pending, DEFAULT_PAYSTACK_PUBLIC, p.public);
  }

  lemma ProviderAgain(provider: string)
    requires ProviderKey(provider).Some?
    ensures provider != "" && Strip(provider) == provider && Lower(provider) == provider
  {
    StripOfTrimmed(provider);
    LowerKeeps(provider);
  }

  /** The key printed for the selected provider is read back under its own name. */
  lemma LlmKeyReads(values: map<string, string>, p: Paystack, llm: Llm)
    requires ProviderKey(llm.provider).Some? && ReadsProviders(values, ProviderValuesOf(p, llm))
    ensures Get(values, ProviderKey(llm.provider).value, "") == llm.key
    ensures Get(values, "LLM_PROVIDER", "") == llm.provider
  {
  }

  lemma ResolvesTo(values: map<string, string>, provider: string, key: string)
    requires Get(values, "LLM_PROVIDER", "") == provider && ProviderKey(provider) == Some(key)
    requires provider != "" && Strip(provider) == provider && Lower(provider) == provider
    ensures ResolveLlm(values, NoArgs) == Success(Llm(provider, Keep(Get(values, key, ""), PLACEHOLDER_PREFIX + key)))
  {
  }

  lemma LlmAgain(values: map<string, string>, args: Args, values2: map<string, string>, p: Paystack, llm: Llm)
    requires ResolveLlm(values, args) == Success(llm) && ReadsProviders(values2, ProviderValuesOf(p, llm))
    ensures ProviderKey(llm.provider).Some? && ResolveLlm(values2, NoArgs) == Success(SettleLlm(llm))
  {
    LlmKeyReads(values2, p, llm);
    ProviderAgain(llm.provider);
    ResolvesTo(values2, llm.provider, ProviderKey(llm.provider).value);
  }

  predicate SecretOk(secret: string) {
    secret != "" && Trimmed(secret)
  }

  /** Generated and printed secrets are non-empty and trimmed. */
  predicate SecretsOk(s: Secrets) {
    && SecretOk(s.csrf) && SecretOk(s.encryption) && SecretOk(s.kdfSalt) && SecretOk(s.admin)
    && SecretOk(s.metrics) && SecretOk(s.approval) && SecretOk(s.signing)
  }

  lemma ExistingTrimmed(values: map<string, string>, key: string)
    ensures Existing(values, key).Some? ==> SecretOk(Existing(values, key).value)
  {
    StripTwice(Get(values, key, ""));
  }

  lemma SecretsPicked(values: map<string, string>, generated: Secrets)
    requires SecretsOk(generated)
    ensures SecretsOk(ResolveSecrets(values, generated))
  {
    ExistingTrimmed(values, "CSRF_SECRET_KEY");
    ExistingTrimmed(values, "ENCRYPTION_KEY");
    ExistingTrimmed(values, "KDF_SALT");
    ExistingTrimmed(values, "ADMIN_API_KEY");
    ExistingTrimmed(values, "INTERNAL_METRICS_AUTH_TOKEN");
    ExistingTrimmed(values, "ENFORCEMENT_APPROVAL_TOKEN_SECRET");
    ExistingTrimmed(values, "ENFORCEMENT_EXPORT_SIGNING_SECRET");
  }

  /** Once printed, a secret is never generated again. */
  lemma SecretsAgain(values: map<string, string>, s: Secrets, generated: Secrets)
    requires SecretsOk(s) && ReadsInternal(values, s)
    ensures ResolveSecrets(values, generated) == s
  {
    StripOfTrimmed(s.csrf);
    StripOfTrimmed(s.encryption);
    StripOfTrimmed(s.kdfSalt);
    StripOfTrimmed(s.admin);
    StripOfTrimmed(s.metrics);
    StripOfTrimmed(s.approval);
    StripOfTrimmed(s.signing);
  }

  function SettleResolved(lib: Library, r: Resolved): Resolved
    requires ProviderKey(r.llm.provider).Some?
  {
    r.(passed := SettlePassed(lib, r.passed),
       cidrs := SettleCidrs(lib, r.cidrs),
       llm := SettleLlm(r.llm))
  }

  lemma UrlsAgain(lib: Library, arg: Option<string>, values: map<string, string>, key: string,
                  default: string, values2: map<string, string>)
    requires Plain(default) && lib.isPublicUrl(default)
    requires PublicUrl(lib, Or(arg, Existing(values, key))).Success?
    requires Get(values2, key, "") == OrElse(PublicUrl(lib, Or(arg, Existing(values, key))).value, default)
    ensures PublicUrl(lib, Or(None, Existing(values2, key))) == Success(Some(Get(values2, key, "")))
    ensures Get(values2, key, "") != ""
  {
    StripOfTrimmed(default);
    if PublicUrl(lib, Or(arg, Existing(values, key))).value.Some? {
      UrlAgain(lib, Or(arg, Existing(values, key)));
    }
  }

  lemma PassedAgain(lib: Library, values: map<string, string>, r: Resolved)
    requires ReadsUrls(values, r) && ReadsGcp(lib, values, r)
    ensures ResolvePassed(lib, values, NoArgs) == SettlePassed(lib, r.passed)
  {
  }

  lemma CidrsSettle(lib: Library, values: map<string, string>, args: Args, values2: map<string, string>,
                    cidrs: seq<string>)
    requires Lawful(lib) && ResolveCidrs(lib, values, args) == Success(cidrs)
    requires Get(values2, "TRUSTED_PROXY_CIDRS", "") == RenderCidrs(lib, cidrs)
    ensures ResolveCidrs(lib, values2, NoArgs) == Success(SettleCidrs(lib, cidrs))
  {
    var given := if args.cidrs.Some? then args.cidrs else ExistingCidrs(lib, values);
    if given.Some? {
      NormalizeCidrsTwice(lib, given.value);
    }
    CidrsAgain(lib, cidrs, values2);
  }

  lemma Assemble(lib: Library, environment: string, values: map<string, string>, args: Args,
                 generated: Secrets, r: Resolved)
    requires ResolveCidrs(lib, values, args) == Success(r.cidrs)
    requires PublicUrl(lib, Or(args.apiUrl, Existing(values, "API_URL"))) == Success(Some(r.apiUrl))
    requires PublicUrl(lib, Or(args.frontendUrl, Existing(values, "FRONTEND_URL"))) == Success(Some(r.frontendUrl))
    requires r.apiUrl != "" && r.frontendUrl != "" && r.environment == environment
    requires ResolvePaystack(environment, values, args) == Success(r.paystack)
    requires ResolveLlm(values, args) == Success(r.llm)
    requires ResolvePassed(lib, values, args) == r.passed
    requires ResolveSecrets(values, generated) == r.secrets
    ensures Resolve(lib, environment, values, args, generated) == Success(r)
  {
  }

  /** Running again without arguments on the printed overrides succeeds and yields their settled form. */
  lemma ResolveAgain(lib: Library, environment: string, values: map<string, string>, args: Args,
                     generated: Secrets, values2: map<string, string>, generated2: Secrets, r: Resolved)
    requires Lawful(lib) && SecretsOk(generated)
    requires Resolve(lib, environment, values, args, generated) == Success(r) && Reads(lib, values2, r)
    ensures ProviderKey(r.llm.provider).Some?
    ensures Resolve(lib, environment, values2, NoArgs, generated2) == Success(SettleResolved(lib, r))
  {
    UrlDefaultsPlain();
    UrlsAgain(lib, args.apiUrl, values, "API_URL", DEFAULT_API_URL, values2);
    UrlsAgain(lib, args.frontendUrl, values, "FRONTEND_URL", DEFAULT_FRONTEND_URL, values2);
    CidrsSettle(lib, values, args, values2, r.cidrs);
    SecretsPicked(values, generated);
    SecretsAgain(values2, r.secrets, generated2);
    PaystackAgain(environment, values, args, values2, r.llm);
    LlmAgain(values, args, values2, r.paystack, r.llm);
    PassedAgain(lib, values2, r);
    Assemble(lib, environment, values2, NoArgs, generated2, SettleResolved(lib, r));
  }

  // ------------------------------------------------------ when it is settled

  /** An explicit argument that carries no white space at its ends. */
  predicate Tidy(arg: Option<string>) {
    arg.None? || Trimmed(arg.value)
  }

  predicate TidyArgs(args: Args) {
    && Tidy(args.database) && Tidy(args.supabaseUrl) && Tidy(args.anonKey) && Tidy(args.jwtSecret)
    && Tidy(args.project) && Tidy(args.region) && Tidy(args.queue) && Tidy(args.invoker)
    && Tidy(args.service) && Tidy(args.batchJob) && Tidy(args.llmKey)
  }

  /** The printed CIDR list shows no placeholder, or is the built-in placeholder list. */
  predicate CidrsStable(lib: Library, cidrs: seq<string>) {
    ContainsPlaceholder(RenderCidrs(lib, cidrs)) ==> RenderCidrs(lib, cidrs) == lib.dumps([DEFAULT_CIDR])
  }

  lemma PickSettled(arg: Option<string>, values: map<string, string>, key: string, default: string)
    requires SecretOk(default)
    ensures Keep(Pick(arg, values, key, default), default) == Pick(arg, values, key, default) <==> Tidy(arg)
    ensures Keep(Keep(Pick(arg, values, key, default), default), default) ==
            Keep(Pick(arg, values, key, default), default)
  {
    var v := Pick(arg, values, key, default);
    ExistingTrimmed(values, key);
    StripTwice(v);
    StripOfTrimmed(default);
    if Trimmed(v) {
      StripOfTrimmed(v);
    }
  }

  lemma PassedSettled(lib: Library, values: map<string, string>, args: Args)
    requires Lawful(lib)
    ensures var p := ResolvePassed(lib, values, args);
            SettlePassed(lib, p) == p <==> TidyArgs(args.(llmKey := None))
  {
    DefaultsPlain();
    PickSettled(args.database, values, "DATABASE_URL", DEFAULT_DATABASE_URL);
    PickSettled(args.supabaseUrl, values, "SUPABASE_URL", DEFAULT_SUPABASE_URL);
    PickSettled(args.anonKey, values, "SUPABASE_ANON_KEY", DEFAULT_ANON_KEY);
    PickSettled(args.jwtSecret, values, "SUPABASE_JWT_SECRET", DEFAULT_JWT_SECRET);
    PickSettled(args.project, values, "GCP_PROJECT_ID", DEFAULT_PROJECT);
    PickSettled(args.region, values, "GCP_REGION", DEFAULT_REGION);
    PickSettled(args.queue, values, "GCP_CLOUD_TASKS_QUEUE", DEFAULT_QUEUE);
    PickSettled(args.invoker, values, INVOKER_KEY, DEFAULT_INVOKER);
    PickSettled(args.service, values, "GCP_CLOUD_RUN_SERVICE_NAME", DEFAULT_SERVICE);
    PickSettled(args.batchJob, values, "GCP_CLOUD_RUN_BATCH_JOB_NAME", DEFAULT_BATCH_JOB);
    AccountsSettled(lib, values, args);
  }

  lemma AccountsSettled(lib: Library, values: map<string, string>, args: Args)
    requires Lawful(lib)
    ensures var default := lib.dumps([DEFAULT_INVOKER, DEFAULT_SCHEDULER]);
            Keep(ResolvePassed(lib, values, args).accounts, default) == ResolvePassed(lib, values, args).accounts
  {
    assert DumpsOk(lib, [DEFAULT_INVOKER, DEFAULT_SCHEDULER]);
    var given := if args.accounts.Some? && args.accounts.value != []
                 then Some(lib.dumps(args.accounts.value)) else None;
    if given.Some? {
      assert DumpsOk(lib, args.accounts.value);
    }
    PickSettled(given, values, ACCOUNTS_KEY, lib.dumps([DEFAULT_INVOKER, DEFAULT_SCHEDULER]));
  }

  lemma LlmDefaultPlain(provider: string)
    requires ProviderKey(provider).Some?
    ensures SecretOk(PLACEHOLDER_PREFIX + ProviderKey(provider).value)
  {
  }

  lemma LlmSettled(values: map<string, string>, args: Args)
    requires ResolveLlm(values, args).Success?
    ensures var llm := ResolveLlm(values, args).value;
            ProviderKey(llm.provider).Some? && (SettleLlm(llm) == llm <==> Tidy(args.llmKey))
  {
    var llm := ResolveLlm(values, args).value;
    LlmDefaultPlain(llm.provider);
    var key := ProviderKey(llm.provider).value;
    PickSettled(args.llmKey, values, key, PLACEHOLDER_PREFIX + key);
  }

  /** The settled overrides print the same file exactly when nothing had to be settled. */
  lemma SamePrint(lib: Library, r: Resolved)
    requires ProviderKey(r.llm.provider).Some?
    ensures Overrides(lib, SettleResolved(lib, r)) == Overrides(lib, r) <==>
            SettlePassed(lib, r.passed) == r.passed && SettleLlm(r.llm) == r.llm && CidrsStable(lib, r.cidrs)
  {
    var s := SettleResolved(lib, r);
    var o := Overrides(lib, r);
    if Overrides(lib, s) == o {
      ReadBack(lib, o, r);
      ReadBack(lib, o, s);
      SameKeys(r, s);
    }
    if SettlePassed(lib, r.passed) == r.passed && SettleLlm(r.llm) == r.llm && CidrsStable(lib, r.cidrs) {
      assert RenderCidrs(lib, s.cidrs) == RenderCidrs(lib, r.cidrs);
      assert Gcp(lib, s) == Gcp(lib, r) && Urls(lib, s) == Urls(lib, r);
    }
  }

  lemma SameKeys(r: Resolved, s: Resolved)
    requires ProviderKey(r.llm.provider).Some? && s.llm.provider == r.llm.provider
    requires ProviderValuesOf(r.paystack, r.llm) == ProviderValuesOf(s.paystack, s.llm)
    ensures r.llm == s.llm
  {
    assert LlmKey(r.llm, "groq") == LlmKey(s.llm, "groq");
    assert LlmKey(r.llm, "openai") == LlmKey(s.llm, "openai");
    assert LlmKey(r.llm, "claude") == LlmKey(s.llm, "claude");
    assert LlmKey(r.llm, "google") == LlmKey(s.llm, "google");
  }

  // --------------------------------------------------------- single lines

  predicate ArgOneLine(arg: Option<string>) {
    arg.None? || OneLine(arg.value)
  }

  /** No argument that is printed as given holds a line break; lists are printed as JSON. */
  predicate ArgsOneLine(args: Args) {
    && ArgOneLine(args.apiUrl) && ArgOneLine(args.frontendUrl)
    && ArgOneLine(args.database) && ArgOneLine(args.supabaseUrl) && ArgOneLine(args.anonKey)
    && ArgOneLine(args.jwtSecret) && ArgOneLine(args.project) && ArgOneLine(args.region)
    && ArgOneLine(args.queue) && ArgOneLine(args.invoker) && ArgOneLine(args.service)
    && ArgOneLine(args.batchJob) && ArgOneLine(args.llmKey)
    && ArgOneLine(args.paystackSecret) && ArgOneLine(args.paystackPublic)
  }

  predicate SecretsOneLine(s: Secrets) {
    && OneLine(s.csrf) && OneLine(s.encryption) && OneLine(s.kdfSalt) && OneLine(s.admin)
    && OneLine(s.metrics) && OneLine(s.approval) && OneLine(s.signing)
  }

  predicate PassedOneLine(p: Passed) {
    && OneLine(p.database) && OneLine(p.supabaseUrl) && OneLine(p.anonKey) && OneLine(p.jwtSecret)
    && OneLine(p.project) && OneLine(p.region) && OneLine(p.queue) && OneLine(p.invoker)
    && OneLine(p.service) && OneLine(p.batchJob) && OneLine(p.accounts)
  }

  predicate ResolvedOneLine(r: Resolved) {
    && OneLine(r.environment) && OneLine(r.apiUrl) && OneLine(r.frontendUrl)
    && PassedOneLine(r.passed) && SecretsOneLine(r.secrets)
    && OneLine(r.paystack.secret) && OneLine(r.paystack.public)
    && OneLine(r.llm.provider) && OneLine(r.llm.key)
  }

  lemma ExistingOneLine(values: map<string, string>, key: string)
    requires EnvFile.ValuesOneLine(values)
    ensures ArgOneLine(Existing(values, key))
  {
    StripKeepsOneLine(Get(values, key, ""));
  }

  lemma PickOneLine(arg: Option<string>, values: map<string, string>, key: string, default: string)
    requires ArgOneLine(arg) && EnvFile.ValuesOneLine(values) && OneLine(default)
    ensures OneLine(Pick(arg, values, key, default))
  {
    ExistingOneLine(values, key);
  }

  lemma PassedLines(lib: Library, values: map<string, string>, args: Args)
    requires Lawful(lib) && ArgsOneLine(args) && EnvFile.ValuesOneLine(values)
    ensures PassedOneLine(ResolvePassed(lib, values, args))
  {
    DefaultsPlain();
    PickOneLine(args.database, values, "DATABASE_URL", DEFAULT_DATABASE_URL);
    PickOneLine(args.supabaseUrl, values, "SUPABASE_URL", DEFAULT_SUPABASE_URL);
    PickOneLine(args.anonKey, values, "SUPABASE_ANON_KEY", DEFAULT_ANON_KEY);
    PickOneLine(args.jwtSecret, values, "SUPABASE_JWT_SECRET", DEFAULT_JWT_SECRET);
    PickOneLine(args.project, values, "GCP_PROJECT_ID", DEFAULT_PROJECT);
    PickOneLine(args.region, values, "GCP_REGION", DEFAULT_REGION);
    PickOneLine(args.queue, values, "GCP_CLOUD_TASKS_QUEUE", DEFAULT_QUEUE);
    PickOneLine(args.invoker, values, INVOKER_KEY, DEFAULT_INVOKER);
    PickOneLine(args.service, values, "GCP_CLOUD_RUN_SERVICE_NAME", DEFAULT_SERVICE);
    PickOneLine(args.batchJob, values, "GCP_CLOUD_RUN_BATCH_JOB_NAME", DEFAULT_BATCH_JOB);
    AccountsOneLine(lib, values, args);
  }

  lemma AccountsOneLine(lib: Library, values: map<string, string>, args: Args)
    requires Lawful(lib) && EnvFile.ValuesOneLine(values)
    ensures OneLine(ResolvePassed(lib, values, args).accounts)
  {
    assert DumpsOk(lib, [DEFAULT_INVOKER, DEFAULT_SCHEDULER]);
    var given := if args.accounts.Some? && args.accounts.value != []
                 then Some(lib.dumps(args.accounts.value)) else None;
    if given.Some? {
      assert DumpsOk(lib, args.accounts.value);
    }
    PickOneLine(given, values, ACCOUNTS_KEY, lib.dumps([DEFAULT_INVOKER, DEFAULT_SCHEDULER]));
  }

  lemma SecretLines(values: map<string, string>, generated: Secrets)
    requires EnvFile.ValuesOneLine(values) && SecretsOneLine(generated)
    ensures SecretsOneLine(ResolveSecrets(values, generated))
  {
    ExistingOneLine(values, "CSRF_SECRET_KEY");
    ExistingOneLine(values, "ENCRYPTION_KEY");
    ExistingOneLine(values, "KDF_SALT");
    ExistingOneLine(values, "ADMIN_API_KEY");
    ExistingOneLine(values, "INTERNAL_METRICS_AUTH_TOKEN");
    ExistingOneLine(values, "ENFORCEMENT_APPROVAL_TOKEN_SECRET");
    ExistingOneLine(values, "ENFORCEMENT_EXPORT_SIGNING_SECRET");
  }

  lemma UrlLine(lib: Library, url: Option<string>, default: string)
    requires ArgOneLine(url) && OneLine(default) && PublicUrl(lib, url).Success?
    ensures OneLine(OrElse(PublicUrl(lib, url).value, default))
  {
    if url.Some? {
      StripKeepsOneLine(url.value);
    }
  }

  lemma PaystackLine(raw: Option<string>, environment: string, prefix: string, pending: bool, default: string)
    requires ArgOneLine(raw) && OneLine(default) && PaystackKey(raw, environment, prefix, !pending).Success?
    ensures OneLine(PaystackValue(PaystackKey(raw, environment, prefix, !pending).value, pending, prefix, default))
  {
    if raw.Some? {
      StripKeepsOneLine(raw.value);
    }
  }

  lemma PaystackLines(environment: string, values: map<string, string>, args: Args)
    requires ArgsOneLine(args) && EnvFile.ValuesOneLine(values)
    requires ResolvePaystack(environment, values, args).Success?
    ensures var p := ResolvePaystack(environment, values, args).value; OneLine(p.secret) && OneLine(p.public)
  {
    var p := ResolvePaystack(environment, values, args).value;
    PaystackDefaultsPlain();
    ExistingOneLine(values, "PAYSTACK_SECRET_KEY");
    ExistingOneLine(values, "PAYSTACK_PUBLIC_KEY");
    PaystackLine(Or(args.paystackSecret, Existing(values, "PAYSTACK_SECRET_KEY")), environment,
                 "sk_live_", p.pending, DEFAULT_PAYSTACK_SECRET);
    PaystackLine(Or(args.paystackPublic, Existing(values, "PAYSTACK_PUBLIC_KEY")), environment,
                 "pk_live_", p.pending, DEFAULT_PAYSTACK_PUBLIC);
  }

  lemma LlmDefaultLine(provider: string)
    requires ProviderKey(provider).Some?
    ensures OneLine(PLACEHOLDER_PREFIX + ProviderKey(provider).value) && OneLine(provider)
  {
  }

  lemma LlmLines(values: map<string, string>, args: Args)
    requires ArgsOneLine(args) && EnvFile.ValuesOneLine(values) && ResolveLlm(values, args).Success?
    ensures var llm := ResolveLlm(values, args).value; OneLine(llm.provider) && OneLine(llm.key)
  {
    var llm := ResolveLlm(values, args).value;
    var key := ProviderKey(llm.provider).value;
    LlmDefaultLine(llm.provider);
    PickOneLine(args.llmKey, values, key, PLACEHOLDER_PREFIX + key);
  }

  lemma ResolvedLines(lib: Library, environment: string, values: map<string, string>, args: Args,
                      generated: Secrets, r: Resolved)
    requires Lawful(lib) && ArgsOneLine(args) && EnvFile.ValuesOneLine(values) && SecretsOneLine(generated)
    requires OneLine(environment) && Resolve(lib, environment, values, args, generated) == Success(r)
    ensures ResolvedOneLine(r)
  {
    UrlDefaultsPlain();
    ExistingOneLine(values, "API_URL");
    ExistingOneLine(values, "FRONTEND_URL");
    UrlLine(lib, Or(args.apiUrl, Existing(values, "API_URL")), DEFAULT_API_URL);
    UrlLine(lib, Or(args.frontendUrl, Existing(values, "FRONTEND_URL")), DEFAULT_FRONTEND_URL);
    PassedLines(lib, values, args);
    SecretLines(values, generated);
    PaystackLines(environment, values, args);
    LlmLines(values, args);
  }

  lemma UrlsLines(lib: Library, r: Resolved)
    requires Lawful(lib) && ResolvedOneLine(r)
    ensures EnvFile.ValuesOneLine(Urls(lib, r))
  {
    assert DumpsOk(lib, [r.frontendUrl]);
  }

  lemma GcpLines(lib: Library, r: Resolved)
    requires Lawful(lib) && ResolvedOneLine(r)
    ensures EnvFile.ValuesOneLine(Gcp(lib, r))
  {
    assert DumpsOk(lib, if r.cidrs != [] then r.cidrs else [DEFAULT_CIDR]);
  }

  lemma ProviderLines(r: Resolved)
    requires ResolvedOneLine(r)
    ensures EnvFile.ValuesOneLine(Providers(ProviderValuesOf(r.paystack, r.llm)))
  {
    ProviderValueLines(ProviderValuesOf(r.paystack, r.llm));
  }

  lemma ProviderValueLines(v: ProviderValues)
    requires OneLine(v.secret) && OneLine(v.public) && OneLine(v.pending) && OneLine(v.provider)
    requires OneLine(v.groq) && OneLine(v.openai) && OneLine(v.claude) && OneLine(v.google)
    ensures EnvFile.ValuesOneLine(Providers(v))
  {
  }

  lemma InternalLines(s: Secrets)
    requires SecretsOneLine(s)
    ensures EnvFile.ValuesOneLine(Internal(s))
  {
  }

  /** The computed overrides are always printable. */
  lemma OverridesCarried(lib: Library, r: Resolved)
    requires Lawful(lib) && ResolvedOneLine(r)
    ensures EnvFile.Carries(Overrides(lib, r))
  {
    KeysOk(lib, r);
    UrlsLines(lib, r);
    GcpLines(lib, r);
    InternalLines(r.secrets);
    ProviderLines(r);
    assert EnvFile.ValuesOneLine(lib.constants);
  }

  // ----------------------------------------------------------- whole files

  lemma CommentSkipped(line: string)
    requires line != [] && line[0] == '#'
    ensures EnvFile.ParseSkips(line)
  {
    assert line == [] + ['#'] + line[1..];
    StripHead([], '#', line[1..]);
  }

  lemma HeaderFirst()
    ensures OneLine(HEADER1) && HEADER1[0] == '#'
  {
    assert OneLine("# Managed runtime environment");
    OneLineConcat("# Managed runtime environment", " scaffold.");
  }

  lemma HeaderSecond()
    ensures OneLine(HEADER2) && HEADER2[0] == '#'
  {
    assert OneLine("# Generated by scripts/");
    OneLineConcat("# Generated by scripts/", "generate_managed_runtime_env.py.");
  }

  lemma HeaderThirdStart()
    ensures OneLine("# Existing values are preserved")
  {
  }

  lemma HeaderThird()
    ensures OneLine(HEADER3) && HEADER3[0] == '#'
  {
    HeaderThirdStart();
    OneLineConcat("# Existing values are preserved", " on regeneration unless you");
    OneLineConcat("# Existing values are preserved" + " on regeneration unless you", " explicitly override them.");
  }

  lemma HeaderFourthStart()
    ensures OneLine("# Values containing REPLACE_WITH_" + " must be replaced with live")
  {
  }

  lemma HeaderFourth()
    ensures OneLine(HEADER4) && HEADER4[0] == '#'
  {
    var start := "# Values containing REPLACE_WITH_" + " must be replaced with live";
    HeaderFourthStart();
    OneLineConcat(start, " operator/provider values");
    OneLineConcat(start + " operator/provider values", " before deployment.");
  }

  lemma HeaderSkipped()
    ensures AllOneLine(HEADER) && EnvFile.ParseLines(HEADER) == Success(map[])
  {
    HeaderFirst();
    HeaderSecond();
    HeaderThird();
    HeaderFourth();
    CommentSkipped(HEADER1);
    CommentSkipped(HEADER2);
    CommentSkipped(HEADER3);
    CommentSkipped(HEADER4);
    AllSkipped(HEADER);
  }

  lemma {:induction false} AllSkipped(lines: seq<string>)
    requires forall i | 0 <= i < |lines| :: EnvFile.ParseSkips(lines[i])
    ensures EnvFile.ParseLines(lines) == Success(map[])
  {
    if lines != [] {
      assert EnvFile.ParseSkips(lines[0]);
      AllSkipped(lines[1..]);
    }
  }

  lemma BlankParses()
    ensures EnvFile.ParseLines([""]) == Success(map[])
  {
    AllSkipped([""]);
  }

  lemma DropBlankParses(lines: seq<string>)
    ensures EnvFile.ParseLines(lines).Success? ==>
              EnvFile.ParseLines(DropLastBlank(lines)) == EnvFile.ParseLines(lines)
  {
    if lines != [] && lines[|lines| - 1] == "" {
      var front := lines[..|lines| - 1];
      assert lines == front + [""];
      EnvFile.ParseConcat(front, [""]);
      BlankParses();
      if EnvFile.ParseLines(front).Success? {
        assert EnvFile.ParseLines(front).value + map[] == EnvFile.ParseLines(front).value;
      }
    }
  }

  lemma TemplateLinesOk(template: seq<string>)
    requires AllOneLine(template)
    ensures EnvFile.TemplateOk(template)
  {
    forall i | 0 <= i < |template| ensures OneLine(RStripNewlines(template[i])) {
      assert OneLine(template[i]);
    }
  }

  lemma HeaderTransparent(body: seq<string>)
    requires AllOneLine(body) && EnvFile.ParseLines(body).Success?
    ensures EnvFile.ParseText(JoinLines(HEADER + body)) == EnvFile.ParseLines(body)
  {
    HeaderSkipped();
    SplitJoined(HEADER + body);
    EnvFile.ParseConcat(HEADER, body);
    DropBlankParses(HEADER + body);
    assert map[] + EnvFile.ParseLines(body).value == EnvFile.ParseLines(body).value;
  }

  /** The printed file, header included, reads back as the template overridden by the overrides. */
  lemma OutputRoundTrip(template: seq<string>, overrides: map<string, string>)
    requires AllOneLine(template) && EnvFile.Carries(overrides)
    ensures EnvFile.ParseText(RenderOutput(template, overrides)) ==
            Success(EnvFile.TemplateMap(template) + overrides)
  {
    TemplateLinesOk(template);
    var body := EnvFile.RenderLines(template, overrides);
    EnvFile.RenderLinesOneLine(template, overrides);
    EnvFile.LinesRoundTrip(template, overrides);
    SplitUnlines(body);
    HeaderTransparent(body);
  }

  lemma ExistingValuesOneLine(existing: Option<string>)
    ensures ExistingValues(existing).Success? ==> EnvFile.ValuesOneLine(ExistingValues(existing).value)
  {
    if existing.Some? {
      EnvFile.ParsedValuesOneLine(SplitLines(existing.value));
    }
  }

  predicate GeneratedOk(s: Secrets) {
    SecretsOk(s) && SecretsOneLine(s)
  }

  lemma PrintedReads(lib: Library, lines: seq<string>, r: Resolved)
    requires Lawful(lib) && ResolvedOneLine(r) && AllOneLine(lines)
    ensures EnvFile.ParseText(RenderOutput(lines, Overrides(lib, r))) ==
            Success(EnvFile.TemplateMap(lines) + Overrides(lib, r))
    ensures Reads(lib, EnvFile.TemplateMap(lines) + Overrides(lib, r), r)
  {
    OverridesCarried(lib, r);
    OutputRoundTrip(lines, Overrides(lib, r));
    ReadBack(lib, EnvFile.TemplateMap(lines) + Overrides(lib, r), r);
  }

  lemma GenerateSteps(lib: Library, template: string, environment: string, existing: Option<string>,
                      args: Args, generated: Secrets) returns (values: map<string, string>, r: Resolved)
    requires Generate(lib, template, environment, existing, args, generated).Success?
    ensures Lower(Strip(environment)) in SUPPORTED_ENVIRONMENTS
    ensures ExistingValues(existing) == Success(values)
    ensures Resolve(lib, Lower(Strip(environment)), values, args, generated) == Success(r)
    ensures Generate(lib, template, environment, existing, args, generated).value ==
            RenderOutput(SplitLines(template), Overrides(lib, r))
  {
    values := ExistingValues(existing).value;
    r := Resolve(lib, Lower(Strip(environment)), values, args, generated).value;
  }

  /** What a successful run printed, and from what. */
  lemma Printed(lib: Library, template: string, environment: string, existing: Option<string>,
                args: Args, generated: Secrets) returns (values: map<string, string>, r: Resolved)
    requires Lawful(lib) && ArgsOneLine(args) && GeneratedOk(generated)
    requires Generate(lib, template, environment, existing, args, generated).Success?
    ensures Lower(Strip(environment)) in SUPPORTED_ENVIRONMENTS
    ensures ExistingValues(existing) == Success(values)
    ensures Resolve(lib, Lower(Strip(environment)), values, args, generated) == Success(r)
    ensures var text := Generate(lib, template, environment, existing, args, generated).value;
            var lines := SplitLines(template);
            && text == RenderOutput(lines, Overrides(lib, r))
            && EnvFile.ParseText(text) == Success(EnvFile.TemplateMap(lines) + Overrides(lib, r))
            && Reads(lib, EnvFile.TemplateMap(lines) + Overrides(lib, r), r)
  {
    values, r := GenerateSteps(lib, template, environment, existing, args, generated);
    EnvironmentOneLine(Lower(Strip(environment)));
    ExistingValuesOneLine(existing);
    ResolvedLines(lib, Lower(Strip(environment)), values, args, generated, r);
    PrintedReads(lib, SplitLines(template), r);
  }

  lemma EnvironmentOneLine(environment: string)
    requires environment in SUPPORTED_ENVIRONMENTS
    ensures OneLine(environment)
  {
  }

  /** The CIDR list a run prints. */
  function PrintedCidrs(lib: Library, existing: Option<string>, args: Args): seq<string> {
    var values := ExistingValues(existing);
    if values.Success? && ResolveCidrs(lib, values.value, args).Success?
    then ResolveCidrs(lib, values.value, args).value
    else []
  }

  /** The arguments and the CIDR list leave nothing for the next run to settle. */
  predicate Settled(lib: Library, existing: Option<string>, args: Args) {
    TidyArgs(args) && CidrsStable(lib, PrintedCidrs(lib, existing, args))
  }

  lemma SumCancels(t: map<string, string>, a: map<string, string>, b: map<string, string>)
    requires t + a == t + b && a.Keys == b.Keys
    ensures a == b
  {
    assert forall k | k in a :: (t + a)[k] == a[k];
    assert forall k | k in b :: (t + b)[k] == b[k];
  }

  lemma GenerateIs(lib: Library, template: string, environment: string, text: string, generated: Secrets,
                   r: Resolved)
    requires Lower(Strip(environment)) in SUPPORTED_ENVIRONMENTS && EnvFile.ParseText(text).Success?
    requires Resolve(lib, Lower(Strip(environment)), EnvFile.ParseText(text).value, NoArgs, generated) == Success(r)
    ensures Generate(lib, template, environment, Some(text), NoArgs, generated) ==
            Success(RenderOutput(SplitLines(template), Overrides(lib, r)))
  {
  }

  /** The next run without arguments prints the settled overrides. */
  lemma NextPrints(lib: Library, template: string, environment: string, existing: Option<string>, args: Args,
                   generated: Secrets, generated2: Secrets) returns (values: map<string, string>, r: Resolved)
    requires Lawful(lib) && ArgsOneLine(args) && GeneratedOk(generated)
    requires Generate(lib, template, environment, existing, args, generated).Success?
    ensures ExistingValues(existing) == Success(values)
    ensures Resolve(lib, Lower(Strip(environment)), values, args, generated) == Success(r)
    ensures ProviderKey(r.llm.provider).Some?
    ensures var lines := SplitLines(template);
            var text := Generate(lib, template, environment, existing, args, generated).value;
            && text == RenderOutput(lines, Overrides(lib, r))
            && EnvFile.ParseText(text) == Success(EnvFile.TemplateMap(lines) + Overrides(lib, r))
            && Resolve(lib, Lower(Strip(environment)), EnvFile.ParseText(text).value, NoArgs, generated2) ==
               Success(SettleResolved(lib, r))
            && Generate(lib, template, environment, Some(text), NoArgs, generated2) ==
               Success(RenderOutput(lines, Overrides(lib, SettleResolved(lib, r))))
  {
    values, r := Printed(lib, template, environment, existing, args, generated);
    var text := Generate(lib, template, environment, existing, args, generated).value;
    ResolveAgain(lib, Lower(Strip(environment)), values, args, generated, EnvFile.ParseText(text).value,
                 generated2, r);
    GenerateIs(lib, template, environment, text, generated2, SettleResolved(lib, r));
  }

  lemma UrlKeys(lib: Library, r: Resolved, s: Resolved)
    ensures Urls(lib, r).Keys == Urls(lib, s).Keys
  {
  }

  lemma GcpKeys(lib: Library, r: Resolved, s: Resolved)
    ensures Gcp(lib, r).Keys == Gcp(lib, s).Keys
  {
  }

  lemma OtherKeys(s: Secrets, s': Secrets, v: ProviderValues, v': ProviderValues)
    ensures Internal(s).Keys == Internal(s').Keys
    ensures Providers(v).Keys == Providers(v').Keys
  {
  }

  lemma SameKeySets(lib: Library, r: Resolved, s: Resolved)
    ensures Overrides(lib, r).Keys == Overrides(lib, s).Keys
  {
    UrlKeys(lib, r, s);
    GcpKeys(lib, r, s);
    OtherKeys(r.secrets, s.secrets, ProviderValuesOf(r.paystack, r.llm), ProviderValuesOf(s.paystack, s.llm));
  }

  lemma ResolveProviders(lib: Library, environment: string, values: map<string, string>, args: Args,
                         generated: Secrets, r: Resolved)
    requires Resolve(lib, environment, values, args, generated) == Success(r)
    ensures ResolveLlm(values, args) == Success(r.llm)
    ensures ResolvePaystack(environment, values, args) == Success(r.paystack)
  {
  }

  lemma ResolvePieces(lib: Library, environment: string, values: map<string, string>, args: Args,
                      generated: Secrets, r: Resolved)
    requires Resolve(lib, environment, values, args, generated) == Success(r)
    ensures ResolvePassed(lib, values, args) == r.passed && ResolveSecrets(values, generated) == r.secrets
    ensures ResolveCidrs(lib, values, args) == Success(r.cidrs)
  {
  }

  lemma ResolveParts(lib: Library, environment: string, values: map<string, string>, args: Args,
                     generated: Secrets, r: Resolved)
    requires Resolve(lib, environment, values, args, generated) == Success(r)
    ensures ResolveCidrs(lib, values, args) == Success(r.cidrs)
    ensures ResolvePassed(lib, values, args) == r.passed && ResolveSecrets(values, generated) == r.secrets
    ensures ResolveLlm(values, args) == Success(r.llm)
    ensures ResolvePaystack(environment, values, args) == Success(r.paystack)
  {
    ResolvePieces(lib, environment, values, args, generated, r);
    ResolveProviders(lib, environment, values, args, generated, r);
  }

  lemma SettledIff(lib: Library, existing: Option<string>, args: Args, values: map<string, string>, r: Resolved)
    requires Lawful(lib) && ExistingValues(existing) == Success(values)
    requires ResolveCidrs(lib, values, args) == Success(r.cidrs)
    requires ResolvePassed(lib, values, args) == r.passed
    requires ResolveLlm(values, args) == Success(r.llm)
    requires ProviderKey(r.llm.provider).Some?
    ensures Overrides(lib, SettleResolved(lib, r)) == Overrides(lib, r) <==> Settled(lib, existing, args)
  {
    PassedSettled(lib, values, args);
    LlmSettled(values, args);
    SamePrint(lib, r);
    assert PrintedCidrs(lib, existing, args) == r.cidrs;
    assert TidyArgs(args) <==> TidyArgs(args.(llmKey := None)) && Tidy(args.llmKey);
  }

  /** Whatever a run was given, the next run without arguments succeeds, and it rewrites the same file
      exactly when the arguments were tidy and the CIDR list printed is stable. */
  lemma NextRun(lib: Library, template: string, environment: string, existing: Option<string>,
                args: Args, generated: Secrets, generated2: Secrets)
    requires Lawful(lib) && ArgsOneLine(args) && GeneratedOk(generated) && GeneratedOk(generated2)
    requires Generate(lib, template, environment, existing, args, generated).Success?
    ensures var text := Generate(lib, template, environment, existing, args, generated).value;
            var next := Generate(lib, template, environment, Some(text), NoArgs, generated2);
            next.Success? && (next.value == text <==> Settled(lib, existing, args))
  {
    var text := Generate(lib, template, environment, existing, args, generated).value;
    var values, r := NextPrints(lib, template, environment, existing, args, generated, generated2);
    ResolveParts(lib, Lower(Strip(environment)), values, args, generated, r);
    SettledIff(lib, existing, args, values, r);
    if RenderOutput(SplitLines(template), Overrides(lib, SettleResolved(lib, r))) == text {
      var s := SettleResolved(lib, r);
      var values2, s' := Printed(lib, template, environment, Some(text), NoArgs, generated2);
      assert s' == s;
      SameKeySets(lib, r, s);
      SumCancels(EnvFile.TemplateMap(SplitLines(template)), Overrides(lib, r), Overrides(lib, s));
    }
  }

  /** After one run without arguments nothing is left to settle. */
  lemma NextSettled(lib: Library, template: string, environment: string, existing: Option<string>,
                    args: Args, generated: Secrets, generated2: Secrets)
    requires Lawful(lib) && ArgsOneLine(args) && GeneratedOk(generated)
    requires Generate(lib, template, environment, existing, args, generated).Success?
    ensures var text := Generate(lib, template, environment, existing, args, generated).value;
            Settled(lib, Some(text), NoArgs)
  {
    var values, r := NextPrints(lib, template, environment, existing, args, generated, generated2);
    var text := Generate(lib, template, environment, existing, args, generated).value;
    var values2 := EnvFile.ParseText(text).value;
    ResolveParts(lib, Lower(Strip(environment)), values2, NoArgs, generated2, SettleResolved(lib, r));
    assert PrintedCidrs(lib, Some(text), NoArgs) == SettleCidrs(lib, r.cidrs);
  }

  /** Regeneration settles: after a run with any arguments and any existing file, running again
      without arguments succeeds, rewrites the same file exactly when `Settled`, and from then on
      every run reproduces the file, whatever fresh secrets it generates. */
  lemma RegenerationSettles(lib: Library, template: string, environment: string, existing: Option<string>,
                            args: Args, g1: Secrets, g2: Secrets, g3: Secrets)
    requires Lawful(lib) && ArgsOneLine(args) && GeneratedOk(g1) && GeneratedOk(g2) && GeneratedOk(g3)
    requires Generate(lib, template, environment, existing, args, g1).Success?
    ensures var first := Generate(lib, template, environment, existing, args, g1).value;
            var second := Generate(lib, template, environment, Some(first), NoArgs, g2);
            && second.Success?
            && (second.value == first <==> Settled(lib, existing, args))
            && Generate(lib, template, environment, Some(second.value), NoArgs, g3) == second
  {
    var first := Generate(lib, template, environment, existing, args, g1).value;
    NextRun(lib, template, environment, existing, args, g1, g2);
    NextSettled(lib, template, environment, existing, args, g1, g2);
    NextRun(lib, template, environment, Some(first), NoArgs, g2, g3);
  }

  /** No valid CIDR list prints as text that shows a placeholder. */
  ghost predicate CidrsNeverPlaceholders(lib: Library) {
    forall cidrs: seq<string> | NormalizeCidrs(lib, cidrs) == Success(cidrs) && cidrs != [] ::
      !ContainsPlaceholder(lib.dumps(cidrs))
  }

  lemma ValidCidrsStable(lib: Library, cidrs: seq<string>)
    requires CidrsNeverPlaceholders(lib) && (cidrs == [] || NormalizeCidrs(lib, cidrs) == Success(cidrs))
    ensures CidrsStable(lib, cidrs)
  {
  }

  lemma PrintedCidrsStable(lib: Library, existing: Option<string>)
    requires CidrsNeverPlaceholders(lib)
    ensures CidrsStable(lib, PrintedCidrs(lib, existing, NoArgs))
  {
    var values := ExistingValues(existing);
    if values.Success? && ResolveCidrs(lib, values.value, NoArgs).Success? {
      var given := ExistingCidrs(lib, values.value);
      if given.Some? {
        NormalizeCidrsTwice(lib, given.value);
      }
    }
    ValidCidrsStable(lib, PrintedCidrs(lib, existing, NoArgs));
  }

  /** Regeneration is a fixpoint: without arguments, the file a run prints is the file the next
      run prints, for every template and every existing file. */
  lemma RegenerationFixpoint(lib: Library, template: string, environment: string, existing: Option<string>,
                             g1: Secrets, g2: Secrets)
    requires Lawful(lib) && CidrsNeverPlaceholders(lib) && GeneratedOk(g1) && GeneratedOk(g2)
    requires Generate(lib, template, environment, existing, NoArgs, g1).Success?
    ensures var first := Generate(lib, template, environment, existing, NoArgs, g1);
            Generate(lib, template, environment, Some(first.value), NoArgs, g2) == first
  {
    PrintedCidrsStable(lib, existing);
    NextRun(lib, template, environment, existing, NoArgs, g1, g2);
  }

  // ------------------------------------------------- what the header promises

  /** The key has the same text in both files; a key that is absent counts as empty. */
  predicate Same(before: map<string, string>, after: map<string, string>, key: string) {
    Get(before, key, "") == Get(after, key, "")
  }

  /** The existing text stays exactly when it is not blank and has no white space at its ends. */
  predicate TrimmedStays(before: map<string, string>, after: map<string, string>, key: string) {
    Same(before, after, key) <==> SecretOk(Get(before, key, ""))
  }

  predicate UrlsStay(lib: Library, environment: string, before: map<string, string>, after: map<string, string>) {
    && (Same(before, after, "ENVIRONMENT") <==> Get(before, "ENVIRONMENT", "") == environment)
    && TrimmedStays(before, after, "API_URL") && TrimmedStays(before, after, "FRONTEND_URL")
    && (Same(before, after, "CORS_ORIGINS") <==>
        Get(before, "CORS_ORIGINS", "") == lib.dumps([Pick(None, before, "FRONTEND_URL", DEFAULT_FRONTEND_URL)]))
    && TrimmedStays(before, after, "DATABASE_URL") && TrimmedStays(before, after, "SUPABASE_URL")
    && TrimmedStays(before, after, "SUPABASE_ANON_KEY") && TrimmedStays(before, after, "SUPABASE_JWT_SECRET")
  }

  /** A CIDR text that stays: the placeholder list, or a non-empty list of valid trimmed entries that is
      written as `dumps` writes it and shows no placeholder. */
  predicate CidrTextStays(lib: Library, text: string) {
    || text == lib.dumps([DEFAULT_CIDR])
    || (match lib.loads(text)
        case None => false
        case Some(list) =>
          && list != []
          && NormalizeCidrs(lib, list) == Success(list)
          && text == lib.dumps(list)
          && !ContainsPlaceholder(text))
  }

  predicate GcpStays(lib: Library, before: map<string, string>, after: map<string, string>) {
    && TrimmedStays(before, after, "GCP_PROJECT_ID") && TrimmedStays(before, after, "GCP_REGION")
    && TrimmedStays(before, after, "GCP_CLOUD_TASKS_QUEUE") && TrimmedStays(before, after, INVOKER_KEY)
    && TrimmedStays(before, after, "GCP_CLOUD_RUN_SERVICE_NAME")
    && TrimmedStays(before, after, "GCP_CLOUD_RUN_BATCH_JOB_NAME") && TrimmedStays(before, after, ACCOUNTS_KEY)
    && (Same(before, after, "TRUSTED_PROXY_CIDRS") <==>
        CidrTextStays(lib, Get(before, "TRUSTED_PROXY_CIDRS", "")))
  }

  predicate SecretsStay(before: map<string, string>, after: map<string, string>) {
    && TrimmedStays(before, after, "CSRF_SECRET_KEY") && TrimmedStays(before, after, "ENCRYPTION_KEY")
    && TrimmedStays(before, after, "KDF_SALT") && TrimmedStays(before, after, "ADMIN_API_KEY")
    && TrimmedStays(before, after, "INTERNAL_METRICS_AUTH_TOKEN")
    && TrimmedStays(before, after, "ENFORCEMENT_APPROVAL_TOKEN_SECRET")
    && TrimmedStays(before, after, "ENFORCEMENT_EXPORT_SIGNING_SECRET")
  }

  /** Whether a run without arguments prints activation as pending. */
  predicate Pending(environment: string, values: map<string, string>) {
    var stated := OptionalBool(Existing(values, "PAYSTACK_ACTIVATION_PENDING"));
    if stated.Success? && stated.value.Some? then stated.value.value
    else
      && environment == "production"
      && !(&& IsLiveKey(Existing(values, "PAYSTACK_SECRET_KEY"), "sk_live_")
           && IsLiveKey(Existing(values, "PAYSTACK_PUBLIC_KEY"), "pk_live_"))
  }

  /** The provider a run without arguments selects. */
  function Selected(values: map<string, string>): string {
    Lower(Strip(Pick(None, values, "LLM_PROVIDER", DEFAULT_LLM_PROVIDER)))
  }

  predicate PaystackTextStays(text: string, prefix: string, pending: bool) {
    if Strip(text) == "" then text == "" && pending
    else Trimmed(text) && (pending ==> IsLiveKey(Some(text), prefix))
  }

  predicate PaystackStays(before: map<string, string>, after: map<string, string>, pending: bool) {
    && (Same(before, after, "PAYSTACK_SECRET_KEY") <==>
        PaystackTextStays(Get(before, "PAYSTACK_SECRET_KEY", ""), "sk_live_", pending))
    && (Same(before, after, "PAYSTACK_PUBLIC_KEY") <==>
        PaystackTextStays(Get(before, "PAYSTACK_PUBLIC_KEY", ""), "pk_live_", pending))
    && (Same(before, after, "PAYSTACK_ACTIVATION_PENDING") <==>
        Get(before, "PAYSTACK_ACTIVATION_PENDING", "") in {"true", "false"})
  }

  /** The key of the selected provider stays when it is trimmed; any other is blanked. */
  predicate LlmKeyStays(before: map<string, string>, after: map<string, string>, name: string)
    requires ProviderKey(name).Some?
  {
    var key := ProviderKey(name).value;
    Same(before, after, key) <==>
    if name == Selected(before) then SecretOk(Get(before, key, "")) else Get(before, key, "") == ""
  }

  predicate LlmStays(before: map<string, string>, after: map<string, string>) {
    && (Same(before, after, "LLM_PROVIDER") <==> ProviderKey(Get(before, "LLM_PROVIDER", "")).Some?)
    && LlmKeyStays(before, after, "groq") && LlmKeyStays(before, after, "openai")
    && LlmKeyStays(before, after, "claude") && LlmKeyStays(before, after, "google")
  }

  lemma PickStays(before: map<string, string>, after: map<string, string>, key: string, default: string)
    requires SecretOk(default) && Get(after, key, "") == Pick(None, before, key, default)
    ensures TrimmedStays(before, after, key)
  {
    var text := Get(before, key, "");
    StripTwice(text);
    StripOfTrimmed(default);
    if Trimmed(text) {
      StripOfTrimmed(text);
    }
  }

  lemma UrlStays(lib: Library, before: map<string, string>, after: map<string, string>, key: string,
                 default: string)
    requires Plain(default) && PublicUrl(lib, Existing(before, key)).Success?
    requires Get(after, key, "") == OrElse(PublicUrl(lib, Existing(before, key)).value, default)
    ensures Get(after, key, "") == Pick(None, before, key, default)
    ensures TrimmedStays(before, after, key)
  {
    StripTwice(Get(before, key, ""));
    PickStays(before, after, key, default);
  }

  lemma PublicUrlsStay(lib: Library, environment: string, before: map<string, string>,
                       after: map<string, string>, generated: Secrets, r: Resolved)
    requires Resolve(lib, environment, before, NoArgs, generated) == Success(r) && ReadsUrls(after, r)
    ensures TrimmedStays(before, after, "API_URL") && TrimmedStays(before, after, "FRONTEND_URL")
    ensures r.frontendUrl == Pick(None, before, "FRONTEND_URL", DEFAULT_FRONTEND_URL)
    ensures r.environment == environment
  {
    UrlDefaultsPlain();
    UrlStays(lib, before, after, "API_URL", DEFAULT_API_URL);
    UrlStays(lib, before, after, "FRONTEND_URL", DEFAULT_FRONTEND_URL);
  }

  lemma AllUrlsStay(lib: Library, environment: string, before: map<string, string>, after: map<string, string>,
                    generated: Secrets, r: Resolved)
    requires Resolve(lib, environment, before, NoArgs, generated) == Success(r)
    requires ReadsUrls(after, r) && ReadsOrigin(lib, after, r)
    ensures UrlsStay(lib, environment, before, after)
  {
    PublicUrlsStay(lib, environment, before, after, generated, r);
    ResolveParts(lib, environment, before, NoArgs, generated, r);
    DefaultsPlain();
    PickStays(before, after, "DATABASE_URL", DEFAULT_DATABASE_URL);
    PickStays(before, after, "SUPABASE_URL", DEFAULT_SUPABASE_URL);
    PickStays(before, after, "SUPABASE_ANON_KEY", DEFAULT_ANON_KEY);
    PickStays(before, after, "SUPABASE_JWT_SECRET", DEFAULT_JWT_SECRET);
  }

  lemma CidrsStay(lib: Library, before: map<string, string>, after: map<string, string>, cidrs: seq<string>)
    requires Lawful(lib) && ResolveCidrs(lib, before, NoArgs) == Success(cidrs)
    requires Get(after, "TRUSTED_PROXY_CIDRS", "") == RenderCidrs(lib, cidrs)
    ensures Same(before, after, "TRUSTED_PROXY_CIDRS") <==>
            CidrTextStays(lib, Get(before, "TRUSTED_PROXY_CIDRS", ""))
  {
    var text := Get(before, "TRUSTED_PROXY_CIDRS", "");
    assert DumpsOk(lib, cidrs) && DumpsOk(lib, [DEFAULT_CIDR]);
    var given := ExistingCidrs(lib, before);
    if given.Some? {
      NormalizeCidrsTwice(lib, given.value);
    }
    if Trimmed(text) {
      StripOfTrimmed(text);
    }
    if CidrTextStays(lib, text) && text != lib.dumps([DEFAULT_CIDR]) {
      assert DumpsOk(lib, lib.loads(text).value);
    }
  }

  lemma AllGcpStays(lib: Library, before: map<string, string>, after: map<string, string>, r: Resolved)
    requires Lawful(lib) && ResolvePassed(lib, before, NoArgs) == r.passed && ReadsGcp(lib, after, r)
    requires ResolveCidrs(lib, before, NoArgs) == Success(r.cidrs)
    ensures GcpStays(lib, before, after)
  {
    DefaultsPlain();
    assert DumpsOk(lib, [DEFAULT_INVOKER, DEFAULT_SCHEDULER]);
    PickStays(before, after, "GCP_PROJECT_ID", DEFAULT_PROJECT);
    PickStays(before, after, "GCP_REGION", DEFAULT_REGION);
    PickStays(before, after, "GCP_CLOUD_TASKS_QUEUE", DEFAULT_QUEUE);
    PickStays(before, after, INVOKER_KEY, DEFAULT_INVOKER);
    PickStays(before, after, "GCP_CLOUD_RUN_SERVICE_NAME", DEFAULT_SERVICE);
    PickStays(before, after, "GCP_CLOUD_RUN_BATCH_JOB_NAME", DEFAULT_BATCH_JOB);
    PickStays(before, after, ACCOUNTS_KEY, lib.dumps([DEFAULT_INVOKER, DEFAULT_SCHEDULER]));
    CidrsStay(lib, before, after, r.cidrs);
  }

  lemma AllSecretsStay(before: map<string, string>, after: map<string, string>, generated: Secrets)
    requires SecretsOk(generated) && ReadsInternal(after, ResolveSecrets(before, generated))
    ensures SecretsStay(before, after)
  {
    PickStays(before, after, "CSRF_SECRET_KEY", generated.csrf);
    PickStays(before, after, "ENCRYPTION_KEY", generated.encryption);
    PickStays(before, after, "KDF_SALT", generated.kdfSalt);
    PickStays(before, after, "ADMIN_API_KEY", generated.admin);
    PickStays(before, after, "INTERNAL_METRICS_AUTH_TOKEN", generated.metrics);
    PickStays(before, after, "ENFORCEMENT_APPROVAL_TOKEN_SECRET", generated.approval);
    PickStays(before, after, "ENFORCEMENT_EXPORT_SIGNING_SECRET", generated.signing);
  }

  lemma PaystackTextKept(text: string, key: Option<string>, environment: string, prefix: string, pending: bool,
                         default: string, printed: string)
    requires key == (if Strip(text) == "" then None else Some(Strip(text)))
    requires Plain(default) && PaystackKey(key, environment, prefix, !pending).Success?
    requires printed ==
             PaystackValue(PaystackKey(key, environment, prefix, !pending).value, pending, prefix, default)
    ensures text == printed <==> PaystackTextStays(text, prefix, pending)
  {
    StripTwice(text);
    StripOfTrimmed(default);
    if Trimmed(text) {
      StripOfTrimmed(text);
    }
  }

  lemma PendingStays(text: string, pending: bool)
    requires OptionalBool(if Strip(text) == "" then None else Some(Strip(text))).Success?
    requires var stated := OptionalBool(if Strip(text) == "" then None else Some(Strip(text))).value;
             stated.Some? ==> pending == stated.value
    ensures text == Word(pending) <==> text in {"true", "false"}
  {
    PendingAgain(true);
    PendingAgain(false);
  }

  lemma AllPaystackStays(environment: string, before: map<string, string>, after: map<string, string>,
                         p: Paystack, llm: Llm)
    requires ResolvePaystack(environment, before, NoArgs) == Success(p)
    requires ReadsProviders(after, ProviderValuesOf(p, llm))
    ensures p.pending == Pending(environment, before)
    ensures PaystackStays(before, after, Pending(environment, before))
  {
    PaystackDefaultsPlain();
    PaystackTextKept(Get(before, "PAYSTACK_SECRET_KEY", ""), Existing(before, "PAYSTACK_SECRET_KEY"), environment,
                     "sk_live_", p.pending, DEFAULT_PAYSTACK_SECRET, p.secret);
    PaystackTextKept(Get(before, "PAYSTACK_PUBLIC_KEY", ""), Existing(before, "PAYSTACK_PUBLIC_KEY"), environment,
                     "pk_live_", p.pending, DEFAULT_PAYSTACK_PUBLIC, p.public);
    PendingStays(Get(before, "PAYSTACK_ACTIVATION_PENDING", ""), p.pending);
  }

  lemma LlmKeyPrinted(after: map<string, string>, p: Paystack, llm: Llm, name: string)
    requires ProviderKey(name).Some? && ReadsProviders(after, ProviderValuesOf(p, llm))
    ensures Get(after, ProviderKey(name).value, "") == LlmKey(llm, name)
  {
  }

  lemma SelectedPrinted(before: map<string, string>)
    requires ResolveLlm(before, NoArgs).Success?
    ensures ResolveLlm(before, NoArgs).value.provider == Selected(before)
  {
    StripTwice(Get(before, "LLM_PROVIDER", ""));
  }

  lemma LlmKeyKept(before: map<string, string>, after: map<string, string>, p: Paystack, name: string)
    requires ProviderKey(name).Some? && ResolveLlm(before, NoArgs).Success?
    requires ReadsProviders(after, ProviderValuesOf(p, ResolveLlm(before, NoArgs).value))
    ensures LlmKeyStays(before, after, name)
  {
    var llm := ResolveLlm(before, NoArgs).value;
    var key := ProviderKey(name).value;
    SelectedPrinted(before);
    LlmKeyPrinted(after, p, llm, name);
    if name == llm.provider {
      LlmDefaultPlain(name);
      PickStays(before, after, key, PLACEHOLDER_PREFIX + key);
    }
  }

  lemma AllLlmStays(before: map<string, string>, after: map<string, string>, p: Paystack)
    requires ResolveLlm(before, NoArgs).Success?
    requires ReadsProviders(after, ProviderValuesOf(p, ResolveLlm(before, NoArgs).value))
    ensures LlmStays(before, after)
  {
    var text := Get(before, "LLM_PROVIDER", "");
    if ProviderKey(text).Some? {
      ProviderAgain(text);
    }
    LlmKeyKept(before, after, p, "groq");
    LlmKeyKept(before, after, p, "openai");
    LlmKeyKept(before, after, p, "claude");
    LlmKeyKept(before, after, p, "google");
  }

  const BLANK := Resolved(
    "", "", "", Passed("", "", "", "", "", "", "", "", "", "", ""), [],
    Secrets("", "", "", "", "", "", ""), Paystack("", "", false), Llm("", ""))

  /** The keys the generator prints, in every run. */
  function KnownKeys(lib: Library): set<string> {
    Overrides(lib, BLANK).Keys
  }

  /** The printed keys whose value a run computes. */
  function ComputedKeys(lib: Library): set<string> {
    (Urls(lib, BLANK) + Gcp(lib, BLANK) + Internal(BLANK.secrets)
     + Providers(ProviderValuesOf(BLANK.paystack, BLANK.llm))).Keys
  }

  /** A constant is printed whatever the existing text, which stays exactly when it is the constant. */
  ghost predicate ConstantsStay(constants: map<string, string>, computed: set<string>,
                                before: map<string, string>, after: map<string, string>)
  {
    forall k | k in constants && k !in computed ::
      && Get(after, k, "") == constants[k]
      && (Same(before, after, k) <==> Get(before, k, "") == constants[k])
  }

  /** A key that is not printed is kept exactly when the existing text is the template's. */
  ghost predicate OthersStay(known: set<string>, template: map<string, string>,
                             before: map<string, string>, after: map<string, string>)
  {
    forall k | k !in known :: Same(before, after, k) <==> Get(before, k, "") == Get(template, k, "")
  }

  /** Which existing texts a run without arguments keeps, key by key. */
  ghost predicate KeepsExactly(lib: Library, environment: string, template: map<string, string>,
                               before: map<string, string>, after: map<string, string>)
  {
    && UrlsStay(lib, environment, before, after)
    && GcpStays(lib, before, after)
    && SecretsStay(before, after)
    && PaystackStays(before, after, Pending(environment, before))
    && LlmStays(before, after)
    && ConstantsStay(lib.constants, ComputedKeys(lib), before, after)
    && OthersStay(KnownKeys(lib), template, before, after)
  }

  lemma ConstantsPrinted(lib: Library, template: map<string, string>, before: map<string, string>, r: Resolved)
    ensures ConstantsStay(lib.constants, ComputedKeys(lib), before, template + Overrides(lib, r))
    ensures OthersStay(KnownKeys(lib), template, before, template + Overrides(lib, r))
  {
    UrlKeys(lib, r, BLANK);
    GcpKeys(lib, r, BLANK);
    OtherKeys(r.secrets, BLANK.secrets, ProviderValuesOf(r.paystack, r.llm),
              ProviderValuesOf(BLANK.paystack, BLANK.llm));
    ConstantsIn(template, lib.constants, Urls(lib, r), Gcp(lib, r), Internal(r.secrets),
                Providers(ProviderValuesOf(r.paystack, r.llm)), before);
    SameKeySets(lib, r, BLANK);
    OthersIn(template, Overrides(lib, r), before);
  }

  lemma OthersIn(template: map<string, string>, overrides: map<string, string>, before: map<string, string>)
    ensures OthersStay(overrides.Keys, template, before, template + overrides)
  {
  }

  lemma ConstantsIn(template: map<string, string>, base: map<string, string>, a: map<string, string>,
                    b: map<string, string>, c: map<string, string>, d: map<string, string>,
                    before: map<string, string>)
    ensures ConstantsStay(base, (a + b + c + d).Keys, before, template + (base + a + b + c + d))
  {
  }

  lemma ResolvedKeeps(lib: Library, environment: string, before: map<string, string>,
                      after: map<string, string>, generated: Secrets, r: Resolved)
    requires Lawful(lib) && SecretsOk(generated)
    requires Resolve(lib, environment, before, NoArgs, generated) == Success(r) && Reads(lib, after, r)
    ensures UrlsStay(lib, environment, before, after) && GcpStays(lib, before, after)
    ensures SecretsStay(before, after) && LlmStays(before, after)
    ensures PaystackStays(before, after, Pending(environment, before))
  {
    AllUrlsStay(lib, environment, before, after, generated, r);
    ResolveParts(lib, environment, before, NoArgs, generated, r);
    AllGcpStays(lib, before, after, r);
    AllSecretsStay(before, after, generated);
    AllPaystackStays(environment, before, after, r.paystack, r.llm);
    AllLlmStays(before, after, r.paystack);
  }

  lemma OutputKeeps(lib: Library, environment: string, template: map<string, string>, before: map<string, string>,
                    after: map<string, string>, generated: Secrets, r: Resolved)
    requires Lawful(lib) && SecretsOk(generated)
    requires Resolve(lib, environment, before, NoArgs, generated) == Success(r) && Reads(lib, after, r)
    requires ConstantsStay(lib.constants, ComputedKeys(lib), before, after)
    requires OthersStay(KnownKeys(lib), template, before, after)
    ensures KeepsExactly(lib, environment, template, before, after)
  {
    ResolvedKeeps(lib, environment, before, after, generated, r);
  }

  /** What becomes of the promise in the file's header that existing values are preserved: for every
      key, the exact condition on the existing text under which regenerating without arguments keeps
      it. Values that are passed through stay when they are trimmed and not blank; a Paystack key only
      if it is also live or activation is not pending; an LLM key only of the selected provider; the
      CIDR list only in the form the generator writes; the other printed values only when they are
      what the generator would print anyway; and a key it does not print falls back to the template. */
  lemma ExistingValuesPreserved(lib: Library, template: string, environment: string, existing: string,
                                generated: Secrets)
    requires Lawful(lib) && GeneratedOk(generated)
    requires Generate(lib, template, environment, Some(existing), NoArgs, generated).Success?
    ensures var text := Generate(lib, template, environment, Some(existing), NoArgs, generated).value;
            var before, after := EnvFile.ParseText(existing), EnvFile.ParseText(text);
            && before.Success? && after.Success?
            && KeepsExactly(lib, Lower(Strip(environment)), EnvFile.TemplateMap(SplitLines(template)),
                            before.value, after.value)
  {
    var values, r := Printed(lib, template, environment, Some(existing), NoArgs, generated);
    var lines := EnvFile.TemplateMap(SplitLines(template));
    ConstantsPrinted(lib, lines, values, r);
    OutputKeeps(lib, Lower(Strip(environment)), lines, values, lines + Overrides(lib, r), generated, r);
  }

  /** A CIDR text that is not a JSON list, or shows a placeholder, gives way to the placeholder list. */
  lemma UnreadableCidrsReplaced(lib: Library, template: string, environment: string, existing: string,
                                generated: Secrets)
    requires Lawful(lib) && GeneratedOk(generated)
    requires Generate(lib, template, environment, Some(existing), NoArgs, generated).Success?
    requires EnvFile.ParseText(existing).Success? && ExistingCidrs(lib, EnvFile.ParseText(existing).value) == None
    ensures var text := Generate(lib, template, environment, Some(existing), NoArgs, generated).value;
            var after := EnvFile.ParseText(text);
            && after.Success?
            && Get(after.value, "TRUSTED_PROXY_CIDRS", "") == lib.dumps([DEFAULT_CIDR])
  {
    var values, r := Printed(lib, template, environment, Some(existing), NoArgs, generated);
    ResolveParts(lib, Lower(Strip(environment)), values, NoArgs, generated, r);
  }
}
