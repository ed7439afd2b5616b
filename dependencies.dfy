/** Backend selection of dependencies.py, from the settings of settings.py. */
module Dependencies {
  import opened Services

  /** `settings.llm_service`: the stub's settings, or the Ollama settings with
      their model and base URL (defaults `"tinyllama"` and
      `"http://localhost:11434"`). */
  datatype LlmServiceSettings =
    | StubbedSettings
    | OllamaSettings(model: string, baseUrl: string)

  /** The settings' `type` discriminator. */
  function SettingsType(settings: LlmServiceSettings): string
  {
    match settings
    case StubbedSettings => "stubbed"
    case OllamaSettings(_, _) => "ollama"
  }

  /** The settings used when the environment configures nothing. */
  const DefaultSettings: LlmServiceSettings := StubbedSettings

  /** The Ollama settings when only the type is configured. */
  const DefaultOllamaSettings: LlmServiceSettings := OllamaSettings(DefaultModel, DefaultBaseUrl)

  /** `get_llm_service()`: an Ollama service built from the configured base URL
      and model when the type is `"ollama"`, the stub otherwise. A new service
      is built on every call from nothing but the settings. */
  function GetLlmService(settings: LlmServiceSettings): (s: Service)
    ensures SettingsType(settings) == "ollama" ==>
      s == OllamaService(NewOllama(settings.baseUrl, settings.model))
    ensures SettingsType(settings) != "ollama" ==> s == StubbedService
    ensures TypeValue(GetType(s)) == SettingsType(settings)
  {
    if SettingsType(settings) == "ollama" then
      OllamaService(NewOllama(settings.baseUrl, settings.model))
    else
      StubbedService
  }

  /** Unconfigured, the service is the stub; with only the Ollama type
      configured, it is an Ollama service posting to the local default
      server's generate endpoint with the default model. */
  lemma DefaultServices()
    ensures GetLlmService(DefaultSettings) == StubbedService
    ensures GetLlmService(DefaultOllamaSettings).client.generateUrl == "http://localhost:11434/api/generate"
    ensures GetLlmService(DefaultOllamaSettings).client.model == "tinyllama"
  {
  }
}
