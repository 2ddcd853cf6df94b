/** Constants and helpers shared by the managed runtime and deployment tooling
    (`managed_deployment_contract.py`). */
module ManagedContract {
  import opened Text

  const PLACEHOLDER_PREFIX := "REPLACE_WITH_"
  const SUPPORTED_ENVIRONMENTS := {"staging", "production"}
  const DEFAULT_LLM_PROVIDER := "groq"
  const PAYSTACK_KEYS := {"PAYSTACK_SECRET_KEY", "PAYSTACK_PUBLIC_KEY"}

  const OPERATOR_INPUT_KEYS := [
    "API_URL",
    "FRONTEND_URL",
    "DATABASE_URL",
    "GCP_PROJECT_ID",
    "GCP_REGION",
    "GCP_CLOUD_TASKS_QUEUE",
    "GCP_CLOUD_TASKS_INVOKER_SERVICE_ACCOUNT_EMAIL",
    "GCP_CLOUD_RUN_SERVICE_NAME",
    "GCP_CLOUD_RUN_BATCH_JOB_NAME",
    "GCP_INTERNAL_ALLOWED_SERVICE_ACCOUNTS",
    "SUPABASE_JWT_SECRET",
    "PAYSTACK_SECRET_KEY",
    "PAYSTACK_PUBLIC_KEY",
    "TRUSTED_PROXY_CIDRS"
  ]

  predicate ContainsPlaceholder(value: string) {
    Contains(value, PLACEHOLDER_PREFIX)
  }

  predicate IsTruthy(value: string) {
    Lower(Strip(value)) in {"1", "true", "yes", "on"}
  }

  /** The env key of a supported provider. */
  function ProviderKey(provider: string): Option<string> {
    if provider == "groq" then Some("GROQ_API_KEY")
    else if provider == "openai" then Some("OPENAI_API_KEY")
    else if provider == "claude" then Some("CLAUDE_API_KEY")
    else if provider == "google" then Some("GOOGLE_API_KEY")
    else None
  }

  function Get(values: map<string, string>, key: string, default: string): string {
    if key in values then values[key] else default
  }

  function SelectedProviderKey(values: map<string, string>): Result<string> {
    match ProviderKey(Lower(Strip(Get(values, "LLM_PROVIDER", DEFAULT_LLM_PROVIDER))))
    case Some(key) => Success(key)
    case None => Failure("LLM_PROVIDER is not supported")
  }

  /** A value the operator still has to supply. */
  predicate Unresolved(value: string) {
    Strip(value) == "" || ContainsPlaceholder(Strip(value))
  }
}
