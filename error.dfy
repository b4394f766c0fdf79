/**
 * The library's error taxonomy (anthropic/src/error.rs): a closed set of
 * failure kinds, each with a fixed display text, and the two conversions
 * that build errors from foreign failures.
 *
 * The payloads of the foreign error types (reqwest, serde_json, the
 * stream error and the configuration error) are opaque here: each is a
 * record that carries the text its own `Display` produces.
 */
module Error {
  import opened Wrappers

  /** A failure of the HTTP library after a call was made. */
  datatype HttpError = HttpError(description: string)

  /** A failure of the JSON library to decode a response. */
  datatype JsonError = JsonError(description: string)

  /** A failure of the server-sent-events stream. */
  datatype StreamError = StreamError(description: string)

  /** A failure of the configuration library. */
  datatype ConfigError = ConfigError(description: string)

  /** An arbitrary JSON value, kept as its text. */
  datatype JsonValue = JsonValue(text: string)

  /**
   * The error object the service returns on failure: `message` and the
   * type tag are always present, `param` and `code` may be absent.
   * (The Rust field is called `type`, a keyword in Dafny.)
   */
  datatype ApiError = ApiError(
    message: string,
    errorType: string,
    param: Option<JsonValue>,
    code: Option<JsonValue>)

  /** The closed set of failure kinds of the library. */
  datatype AnthropicError =
    | Reqwest(http: HttpError)
    | ApiError(api: ApiError)
    | JSONDeserialize(json: JsonError)
    | StreamError(stream: StreamError)
    | InvalidArgument(argument: string)

  const HttpPrefix: string := "http error: "
  const ApiSeparator: string := ": "
  const DeserializePrefix: string := "failed to deserialize api response: "
  const StreamPrefix: string := "stream failed: "
  const InvalidArgsPrefix: string := "invalid args: "

  /** The display text of an error, one fixed format per kind. */
  function Show(e: AnthropicError): (s: string)
    ensures e.Reqwest? ==> s == HttpPrefix + e.http.description
    ensures e.ApiError? ==> s == e.api.errorType + ApiSeparator + e.api.message
    ensures e.JSONDeserialize? ==> s == DeserializePrefix + e.json.description
    ensures e.StreamError? ==> s == StreamPrefix + e.stream.description
    ensures e.InvalidArgument? ==> s == InvalidArgsPrefix + e.argument
  {
    match e
    case Reqwest(h) => HttpPrefix + h.description
    case ApiError(a) => a.errorType + ApiSeparator + a.message
    case JSONDeserialize(j) => DeserializePrefix + j.description
    case StreamError(st) => StreamPrefix + st.description
    case InvalidArgument(arg) => InvalidArgsPrefix + arg
  }

  /** A configuration failure is reported as an invalid argument carrying its text. */
  function FromConfigError(e: ConfigError): (r: AnthropicError)
    ensures r.InvalidArgument? && r.argument == e.description
    ensures Show(r) == InvalidArgsPrefix + e.description
  {
    InvalidArgument(e.description)
  }

  /**
   * A decoding failure is reported as `JSONDeserialize` of that failure;
   * the response bytes are accepted and ignored.
   */
  function MapDeserializationError(e: JsonError, bytes: seq<bv8>): (r: AnthropicError)
    ensures r.JSONDeserialize? && r.json == e
    ensures Show(r) == DeserializePrefix + e.description
  {
    JSONDeserialize(e)
  }

  /** The result of `MapDeserializationError` does not depend on the bytes. */
  lemma MapDeserializationIgnoresBytes(e: JsonError, bytes1: seq<bv8>, bytes2: seq<bv8>)
    ensures MapDeserializationError(e, bytes1) == MapDeserializationError(e, bytes2)
  {
  }

  /** Two errors of the same kind, other than `ApiError`. */
  predicate SameFixedPrefixKind(e1: AnthropicError, e2: AnthropicError)
  {
    || (e1.Reqwest? && e2.Reqwest?)
    || (e1.JSONDeserialize? && e2.JSONDeserialize?)
    || (e1.StreamError? && e2.StreamError?)
    || (e1.InvalidArgument? && e2.InvalidArgument?)
  }

  /** The text that follows the fixed prefix of a kind's display. */
  function Payload(e: AnthropicError): string
    requires !e.ApiError?
  {
    match e
    case Reqwest(h) => h.description
    case JSONDeserialize(j) => j.description
    case StreamError(st) => st.description
    case InvalidArgument(arg) => arg
  }

  /** The fixed prefix of a kind's display. */
  function Prefix(e: AnthropicError): string
    requires !e.ApiError?
  {
    match e
    case Reqwest(_) => HttpPrefix
    case JSONDeserialize(_) => DeserializePrefix
    case StreamError(_) => StreamPrefix
    case InvalidArgument(_) => InvalidArgsPrefix
  }

  /**
   * For every kind except `ApiError`, the display is the kind's prefix
   * followed by the payload's text, so the payload can be read back from it.
   */
  lemma ShowRecoversPayload(e: AnthropicError)
    requires !e.ApiError?
    ensures |Prefix(e)| <= |Show(e)|
    ensures Show(e)[..|Prefix(e)|] == Prefix(e)
    ensures Show(e)[|Prefix(e)|..] == Payload(e)
  {
  }

  /**
   * Within a kind other than `ApiError`, two errors that display alike
   * carry payloads with the same display text. For `InvalidArgument`
   * the payload is that text, so the errors are equal; for the foreign
   * kinds they are equal in this model only, which represents a foreign
   * error by its display text.
   */
  lemma ShowInjectiveWithinKind(e1: AnthropicError, e2: AnthropicError)
    requires SameFixedPrefixKind(e1, e2)
    requires Show(e1) == Show(e2)
    ensures Payload(e1) == Payload(e2)
    ensures e1.Reqwest? ==> e1 == e2
    ensures e1.JSONDeserialize? ==> e1 == e2
    ensures e1.StreamError? ==> e1 == e2
    ensures e1.InvalidArgument? ==> e1 == e2
  {
    ShowRecoversPayload(e1);
    ShowRecoversPayload(e2);
  }

  /**
   * The `ApiError` display loses the boundary between type tag and
   * message: two different error objects can display alike.
   */
  lemma ApiErrorShowNotInjective()
    ensures exists a1: ApiError, a2: ApiError {:trigger Show(AnthropicError.ApiError(a1)), Show(AnthropicError.ApiError(a2))} ::
              a1 != a2 && Show(AnthropicError.ApiError(a1)) == Show(AnthropicError.ApiError(a2))
  {
    var a1 := ApiError.ApiError("b: c", "a", None, None);
    var a2 := ApiError.ApiError("c", "a: b", None, None);
    assert Show(AnthropicError.ApiError(a1)) == "a: b: c";
    assert Show(AnthropicError.ApiError(a2)) == "a: b: c";
  }
}
