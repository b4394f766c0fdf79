/**
 * The API client and its construction from configuration
 * (anthropic/src/client.rs). Loading the configuration from the
 * environment is not modelled: the configuration is a plain value.
 */
module Client {
  import opened Wrappers
  import opened Error

  /** The model used when the configuration names none. */
  const DefaultModel: string := "claude-v1"

  /** The configuration the client is built from (anthropic/src/config.rs). */
  datatype AnthropicConfig = AnthropicConfig(
    apiKey: string,
    apiBase: Option<string>,
    defaultModel: Option<string>)

  /** The client: the API key and the model to use. */
  datatype Client = Client(apiKey: string, defaultModel: string)

  /**
   * Builds a client from a configuration. Construction never fails; the
   * key is taken unchanged, and the model falls back to `DefaultModel`.
   */
  function TryFrom(config: AnthropicConfig): (r: Result<Client, AnthropicError>)
    ensures r.Ok?
    ensures r.value.apiKey == config.apiKey
    ensures config.defaultModel.Some? ==> r.value.defaultModel == config.defaultModel.value
    ensures config.defaultModel.None? ==> r.value.defaultModel == DefaultModel
  {
    Ok(Client(config.apiKey, config.defaultModel.UnwrapOr(DefaultModel)))
  }

  /** The completion call, at present a stub that always succeeds. */
  function Complete(client: Client): (r: Result<(), AnthropicError>)
    ensures r.Ok?
  {
    Ok(())
  }

  /**
   * Every client is obtained from a configuration that names its key and
   * its model, whatever the base URL: construction reaches every client.
   * (It does drop the base URL.)
   */
  lemma TryFromRoundTrip(c: Client, apiBase: Option<string>)
    ensures TryFrom(AnthropicConfig(c.apiKey, apiBase, Some(c.defaultModel))) == Ok(c)
  {
  }

  /**
   * The base URL plays no part in the client, and leaving the model out
   * is the same as naming `DefaultModel`.
   */
  lemma TryFromIgnoresBase(key: string, base1: Option<string>, base2: Option<string>, model: Option<string>)
    ensures TryFrom(AnthropicConfig(key, base1, model)) == TryFrom(AnthropicConfig(key, base2, model))
    ensures TryFrom(AnthropicConfig(key, base1, None)) == TryFrom(AnthropicConfig(key, base2, Some(DefaultModel)))
  {
  }
}
