# anthropic-rs in Dafny

A Dafny model of the parts of the anthropic-rs client library that hold
logic:

- **The streamed-messages accumulator** of the streaming-messages example.
  `extend_messages` folds one stream event into a conversation, which is a
  list of messages, each with a list of content blocks. A message start
  appends a message. A content-block start appends a block to the last
  message. A text delta extends the text of one block of the last message.
  Every other event is ignored. The consumer loop applies it to each event
  of the stream in arrival order and skips error items. The conversation
  is the class `StreamingMessages.Conversation`, with a `seq<Message>`
  field updated in place. Its methods are proved against the pure
  functions `Extend` (one event) and `ExtendAll` (a whole stream). The
  lemmas about those functions carry the properties.
- **The error taxonomy** (`Error`). It is a closed datatype of five
  failure kinds, each with its fixed display text. It also has the two
  conversions: a configuration error becomes an invalid argument, and a
  decoding error becomes `JSONDeserialize`.
- **Client construction** (`Client`). It turns a configuration into a
  client and never fails. The model falls back to `"claude-v1"`. The
  `complete` stub always succeeds.

The panics of `extend_messages` are preconditions here, written as
`CanExtend`: the `unwrap` of the last message and the `unreachable!` arm
of a delta. `ExtendAll` returns `None` exactly when some item of the
stream would hit one of them.

The stream types (`Message`, `ContentBlock`, `ContentBlockDelta`,
`MessagesStreamEvent`) are used by the example but are not defined in the
crate's `anthropic/src/types.rs`. They are declared here from their use:

- `ContentBlock.OtherBlock` stands for any block kind other than text.
- `ContentBlockDelta.OtherDelta` stands for any delta kind other than text.
- `MessagesStreamEvent.Other` stands for every event kind that the
  accumulator's `_ => ()` arm ignores.

The foreign error payloads are opaque records that carry their own display
text: the HTTP library's error, the JSON library's error, the stream error
and the configuration error. By its types, `ApiError` always has a message
and a type tag. `param` and `code` are optional JSON values. The Rust field
`type` is called `errorType` here because `type` is a Dafny keyword.

## Model

| member | source | states |
|---|---|---|
| `StreamingMessages.Extend` | examples/streaming-messages/src/main.rs:10-24 | A message start appends exactly that message at the end and keeps all earlier ones. A block start keeps the length and adds the block to the last message's content only. A text delta at `i` sets block `i` of the last message to its old text followed by the delta; every other block and message and all lengths stay the same. Any other event leaves the list unchanged. Only a message start changes the length. |
| `StreamingMessages.CanExtend` | examples/streaming-messages/src/main.rs:13-19 | When `extend_messages` handles an event without panicking. A message start or an ignored event never panics. On an empty list, every block start and every delta panics (the `unwrap` of the last message). |
| `StreamingMessages.Receive` | examples/streaming-messages/src/main.rs:51-69 | How the consumer loop handles one item. An error item leaves the list exactly as it was. An event changes it as `Extend` says. |
| `StreamingMessages.ExtendAll` | examples/streaming-messages/src/main.rs:50-53 | The list after the consumer loop has taken the whole stream in arrival order. It is defined as the left fold of `Receive`, and is `None` exactly when some event fails `CanExtend` on the list built so far. Its contract: a stream of errors alone leaves the list unchanged. The list never shrinks and grows by at most one message per item. The messages before the starting list's last message are never touched. |
| `StreamingMessages.Conversation.ExtendMessages` | examples/streaming-messages/src/main.rs:10-24 | Updates the conversation in place to `Extend` of the old list. Requires what the source's `unwrap`/`unreachable!` demand: a last message for block starts and deltas, and for a delta a text block at the index and a text delta. |
| `StreamingMessages.Conversation.Consume` | examples/streaming-messages/src/main.rs:50-70 | Taking the stream's items one at a time in arrival order, with errors skipped, leaves the conversation equal to `ExtendAll` of the old list and the whole stream. |
| `StreamingMessages.Conversation.constructor` | examples/streaming-messages/src/main.rs:37-38 | The conversation starts as the given list of messages. |
| `StreamingMessages.ExtendAllAppend` | examples/streaming-messages/src/main.rs:50-53 | Consuming `a` and then `b` gives the same result as consuming `a + b`, a failure in `a` included. |
| `StreamingMessages.ExtendAllPrefix` | examples/streaming-messages/src/main.rs:50-53 | If a stream is consumed without a panic, every prefix of it is consumed without a panic too. |
| `StreamingMessages.ExtendAllMessageCount` | examples/streaming-messages/src/main.rs:10-23 | After a whole stream, the number of messages has grown by exactly the number of message-start events, which is at most the number of items. |
| `StreamingMessages.ExtendAllSkipsErrors` | examples/streaming-messages/src/main.rs:50-69 | Error items have no effect: consuming a stream gives the same result as consuming only its events. |
| `StreamingMessages.TextDeltasConcatenate` | examples/streaming-messages/src/main.rs:16-18 | Text deltas for one text block of the last message, applied in arrival order, leave that block holding its original text followed by all the delta texts in order. Nothing else changes. |
| `Error.Show` | anthropic/src/error.rs:8-25 | Each of the five kinds has its fixed display: `"http error: "` + payload, type tag + `": "` + message, `"failed to deserialize api response: "` + payload, `"stream failed: "` + payload, `"invalid args: "` + argument. |
| `Error.ShowRecoversPayload` | anthropic/src/error.rs:10-24 | For every kind except `ApiError`, the display starts with the kind's prefix and the payload can be read back from the rest. |
| `Error.ShowInjectiveWithinKind` | anthropic/src/error.rs:10-24 | Two errors of the same kind other than `ApiError` that display alike carry payloads with the same display text. For `InvalidArgument` this makes them equal. For the foreign kinds, the equality holds only in the model, where a foreign error is its display text. |
| `Error.ApiErrorShowNotInjective` | anthropic/src/error.rs:13-14 | Two different `ApiError` objects can display alike, because the display does not mark where the type tag ends and the message starts. |
| `Error.FromConfigError` | anthropic/src/error.rs:36-40 | A configuration error always becomes `InvalidArgument` carrying its text, so it displays as `"invalid args: "` + that text. |
| `Error.MapDeserializationError` | anthropic/src/error.rs:48-50 | The result is always `JSONDeserialize` wrapping the given error, and it displays with the deserialization prefix. |
| `Error.MapDeserializationIgnoresBytes` | anthropic/src/error.rs:48-50 | The result does not depend on the bytes argument. |
| `Client.TryFrom` | anthropic/src/client.rs:23-31 | Never fails. The client's key is the configured key, unchanged. Its model is the configured model when there is one, and otherwise `DefaultModel` (`"claude-v1"`, line 4). |
| `Client.TryFromRoundTrip` | anthropic/src/client.rs:26-31 | Every client is obtained from a configuration that names its key and its model, whatever the base URL. Construction reaches every client, though it drops the base URL. |
| `Client.TryFromIgnoresBase` | anthropic/src/client.rs:26-31 | The base URL plays no part in the client. Leaving out the model gives the same client as naming `"claude-v1"`. |
| `Client.Complete` | anthropic/src/client.rs:18-20 | The stub always returns `Ok(())`. As a function of an immutable client, it cannot change the client. |

## Left out

- Request execution, retry with backoff, and the server-sent-events bridge: the crate does not implement them. `complete` is a stub marked TODO in anthropic/src/client.rs.
- Loading the configuration from environment variables (anthropic/src/config.rs, src/config.rs): this is ambient I/O done through a foreign library. The configuration is a parameter here.
- The `main` functions of the examples and binaries: logger setup, `.env` loading, HTTP calls and printing to standard output. From the streaming example, only its consumer loop is modelled. Printing an error item is modelled as skipping it.
- The request and response types and builders in anthropic/src/types.rs: their behaviour comes from derive macros that are not visible. `CompleteResponseStream` is an async stream.
- JSON encoding and decoding of `ApiError` and `WrappedError`, and the snake_case renaming of `StopReason`: this is serde library behaviour.
- The contents of the HTTP library's error, the JSON library's error, the stream error and the configuration error: each is an opaque record holding its display text.
- `StreamError` display: the model assumes the stream error's own display text, which the crate does not show.
- Concurrency of the async stream: the stream is modelled as the finite sequence of items it delivers.
