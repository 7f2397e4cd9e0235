/**
 * The process environment the pipeline reads with os.getenv, as an immutable
 * record: None stands for an unset variable.
 */
module Config {
  import opened Wrappers

  datatype Env = Env(
    llmEnabled: Option<string>,     // WEBSENTRY_LLM_ENABLED
    openaiApiKey: Option<string>,   // OPENAI_API_KEY
    llmModel: Option<string>,       // WEBSENTRY_LLM_MODEL
    llmMaxTokens: Option<string>,   // WEBSENTRY_LLM_MAX_TOKENS
    llmTemperature: Option<string>, // WEBSENTRY_LLM_TEMPERATURE
    apiKey: Option<string>,         // WEBSENTRY_API_KEY
    version: Option<string>)        // WEBSENTRY_VERSION

  /** os.getenv(name, default): a set variable wins, even when it is empty. */
  function Getenv(v: Option<string>, default: string): string {
    v.GetOr(default)
  }

  /** bool(os.getenv(name)): set and non-empty. */
  predicate Truthy(v: Option<string>) {
    v.Some? && v.value != ""
  }
}
