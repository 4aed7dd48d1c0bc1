/** The process configuration the endpoints consult. */
module AppConfig {
  /** The provider named by AI_PROVIDER (default "openai") and whether each provider's client
      library is installed with its API key set. */
  datatype Config = Config(provider: string, openaiUsable: bool, anthropicUsable: bool)

  /** The provider used when AI_PROVIDER is not set. */
  const DefaultProvider: string := "openai"

  /** A client object exists only for the configured provider, and only when it is usable. */
  predicate HasClient(config: Config)
  {
    (config.provider == "openai" && config.openaiUsable)
    || (config.provider == "anthropic" && config.anthropicUsable)
  }

  /** A variable counts as set when it is present and non-empty, as Python's truth test on
      os.getenv's result does. */
  predicate IsSet(env: map<string, string>, name: string)
  {
    name in env && env[name] != ""
  }

  /** The configuration read from the environment, given which client libraries import. */
  function ConfigFromEnvironment(env: map<string, string>, openaiInstalled: bool, anthropicInstalled: bool): Config
  {
    Config(
      if "AI_PROVIDER" in env then env["AI_PROVIDER"] else DefaultProvider,
      openaiInstalled && IsSet(env, "OPENAI_API_KEY"),
      anthropicInstalled && IsSet(env, "ANTHROPIC_API_KEY"))
  }
}
