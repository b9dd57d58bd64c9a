# EssentialsAI chat turn, modelled in Dafny

A model of the chat core of the EssentialsAI MAUI app: one assistant turn of
`AiViewModel.SendMessageAsync` and the pieces around it.

- **Marker protocol** (`protocol.dfy`, module `Protocol`). The reply arrives
  as text fragments. Each fragment is trimmed with `string.Trim` and compared
  for exact equality with `>`, `!`, `#` and `END`. The untrimmed fragment is
  always added to the raw transcript. Five flags then decide whether it also
  goes to the assistant message's streaming text, to the tool JSON, or
  requests cancellation through `StopResponse`. The pure function `Step`
  gives the effect of one fragment; `After`/`Consume` fold it over the
  stream. Once cancellation is requested, the stream yields nothing more.
- **Payload helpers** (`payload.dfy`, module `Payload`). `SanitizeJson` is a
  loop verified against the per-character function `Sanitized`. `IsValidJson`
  is the blank-string gate in front of an opaque JSON parser.
- **Dispatch** (`dispatch.dfy`, module `Dispatch`). The decoded
  `List<AIToolModel>` is an input. Each item passes two guards that can end
  the whole dispatch. The first registered tool whose name is equal then runs
  on `parameters[0]`. Exceptions are values, and the first one ends the
  dispatch.
- **View model** (`viewmodel.dfy`, class `ViewModel.AiViewModel`).
  - `SendMessage`, `ReadStream`, `DispatchPayload`, `ExecuteTools`,
    `InvokeItem` and `StopResponse` are the imperative code.
  - They change the fields `messages`, `userInput`, `isProcessing` and `cts`.
  - Each is proved against the specification functions `TurnMessages`,
    `ToolMessages`, `RunTools` and `Consume`.
- **Chat client** (`chat_client.dfy`, module `ChatClient`). `BuildPrompt`
  writes the Phi-3 chat template. `GetResponse` concatenates and trims the
  streamed texts, then applies the function-call gate with its plain-text
  fallback.
- **Weather tool** (`tools.dfy`, module `Tools`). The `AIToolWeather`
  descriptor and its `ExecuteAsync`, which is the only entry of the registry.
- `text.dfy` holds the .NET string primitives the code relies on.
  `chat.dfy` and `wrappers.dfy` hold the shared datatypes.

External collaborators are parameters:
- The chat client is an `Engine`. It maps the context to the reply stream:
  the fragments, plus the exception the stream ends with, if any.
- `JsonDocument.Parse` is `parses: string -> bool`.
- `JsonSerializer.Deserialize<List<AIToolModel>>` is `decode: string -> Decoded`.
- In `GetResponse`, the JSON reading of the gated text is `interpret`.

Behaviour of the code that the model keeps as written:
- A blank `tool` or a null `parameters` in one decoded item returns from the
  dispatch, so no later item runs either
  (EssentialsAI/ViewModels/AiViewModel.cs:550-553).
- A tool exception aborts the remaining items and is reported once as a
  system message (EssentialsAI/ViewModels/AiViewModel.cs:571-574).
- `>END` only switches to ending mode. Cancellation is requested by the
  first content fragment that arrives after it
  (EssentialsAI/ViewModels/AiViewModel.cs:505-519).
- `SanitizeJson` removes every byte-order mark in the payload, not only a
  leading one (EssentialsAI/ViewModels/AiViewModel.cs:593).
- The system prompt asks for a payload with the keys `tool` and
  `parameters` (EssentialsAI/ViewModels/AiViewModel.cs:42-55), and the view
  model decodes those keys. The chat client's own instruction asks for
  `name` and `arguments` (EssentialsAI/Services/OnnxChatClient.cs:327), and
  `GetResponse` gates on `"name"`.

## Model

| member | source | states |
|---|---|---|
| `Text.TrimShape` | EssentialsAI/ViewModels/AiViewModel.cs:466 | `string.Trim` never lengthens a fragment and leaves no white space at either end |
| `Text.TrimEmptyIffBlank` | EssentialsAI/ViewModels/AiViewModel.cs:415 | a string trims to nothing exactly when `IsNullOrWhiteSpace` holds of it |
| `Text.TrimIdempotent` | EssentialsAI/Services/OnnxChatClient.cs:205 | trimming a trimmed text changes nothing |
| `Text.TrimOfPadded` | EssentialsAI/ViewModels/AiViewModel.cs:466 | white space around a token is removed by `Trim` |
| `Protocol.TokenOf` | EssentialsAI/ViewModels/AiViewModel.cs:472-511 | a trimmed fragment is content exactly when it equals none of `>`, `!`, `#`, `END` |
| `Protocol.ClassifyIsTrimmedMatch` | EssentialsAI/ViewModels/AiViewModel.cs:466-505 | each marker token comes exactly from its trimmed text; everything else is content |
| `Protocol.PaddedMarker` | EssentialsAI/ViewModels/AiViewModel.cs:466-472 | a marker with white space around it is still that marker |
| `Protocol.Step` | EssentialsAI/ViewModels/AiViewModel.cs:465-519 | transcript grows by the untrimmed fragment; `>` starts the command in any mode and keeps the sub-mode; after it, `!`/`#`/`END` set exactly one mode; markers never reach a buffer and `END` does not cancel; content goes only to the current mode's buffer, and cancels in ending mode |
| `Protocol.AfterPrefix` | EssentialsAI/ViewModels/AiViewModel.cs:461-520 | fragments are applied in arrival order: later fragments do not change the state after earlier ones |
| `Protocol.CancelledIsFinal` | EssentialsAI/Services/OnnxChatClient.cs:282-284 | once cancellation is requested the state no longer changes: the generator yields nothing more |
| `Protocol.TranscriptIsDelivered` | EssentialsAI/ViewModels/AiViewModel.cs:461-467 | the raw transcript is exactly the delivered fragments, untrimmed and in order; fewer are delivered only after a cancellation |
| `Protocol.CancelIsLastDelivered` | EssentialsAI/ViewModels/AiViewModel.cs:518-525 | the cancelling fragment is the last one consumed, so the friendly text stays as accumulated up to it |
| `Protocol.CancelCause` | EssentialsAI/ViewModels/AiViewModel.cs:505-519 | cancellation is requested by a non-marker fragment arriving in ending mode, never by `END` itself |
| `Protocol.NoStartMarker` | EssentialsAI/ViewModels/AiViewModel.cs:465-477 | until a fragment trims to `>`, only the transcript changes: no friendly text, no tool JSON, no cancellation |
| `Protocol.FeedWithinTranscript` | EssentialsAI/ViewModels/AiViewModel.cs:489-519 | one fragment keeps the flags coherent (at most one mode, none before `>`) and adds to the buffers no more than to the transcript |
| `Protocol.AtMostOneBufferGrows` | EssentialsAI/ViewModels/AiViewModel.cs:514-517 | a fragment lengthens at most one of the friendly text and the tool JSON |
| `Protocol.BuffersWithinTranscript` | EssentialsAI/ViewModels/AiViewModel.cs:465-519 | after any number of fragments the flags are coherent and the two buffers together are no longer than the transcript |
| `Protocol.SayThenContent` | EssentialsAI/ViewModels/AiViewModel.cs:491-515 | inside a command, `!` then content appends that content to the friendly text only |
| `Protocol.CallThenContent` | EssentialsAI/ViewModels/AiViewModel.cs:498-517 | inside a command, `#` then content appends that content to the tool JSON only |
| `Protocol.CanonicalTokens` | EssentialsAI/ViewModels/AiViewModel.cs:472-519 | the token sequence `>`, `!`, text, `#`, payload, `END` yields friendly text = text and tool JSON = payload, uncancelled |
| `Protocol.CanonicalReply` | EssentialsAI/ViewModels/AiViewModel.cs:465-519 | the canonical reply, as fragments that trim to the markers, yields friendly text = text and tool JSON = payload, uncancelled |
| `Payload.SanitizeChar` | EssentialsAI/ViewModels/AiViewModel.cs:590-618 | one character becomes at most one clean character, and stays itself exactly when it is clean |
| `Payload.Sanitized` | EssentialsAI/ViewModels/AiViewModel.cs:586-621 | the sanitized text is no longer than the input and holds only clean characters |
| `Payload.SanitizeJson` | EssentialsAI/ViewModels/AiViewModel.cs:581-622 | the loop (with the empty-input early return) computes exactly `Sanitized(input)` |
| `Payload.SanitizedAppend` | EssentialsAI/ViewModels/AiViewModel.cs:588-619 | the filter works character by character: it distributes over concatenation |
| `Payload.SanitizedOfClean` | EssentialsAI/ViewModels/AiViewModel.cs:588-619 | text made of clean characters comes through unchanged |
| `Payload.SanitizeIdempotent` | EssentialsAI/ViewModels/AiViewModel.cs:581-622 | sanitizing twice is sanitizing once |
| `Payload.PrintableAsciiUnchanged` | EssentialsAI/ViewModels/AiViewModel.cs:581-622 | printable ASCII text is left as it is |
| `Payload.DroppedCharVanishes` | EssentialsAI/ViewModels/AiViewModel.cs:592-616 | a BOM, NUL or other control character below 32 (except tab, LF, CR) is dropped wherever it stands |
| `Payload.SmartQuoteStraightened` | EssentialsAI/ViewModels/AiViewModel.cs:600-611 | “ and ” become `"`, ‘ and ’ become `'`, wherever they stand |
| `Payload.SanitizedBlank` | EssentialsAI/ViewModels/AiViewModel.cs:536 | sanitizing keeps blank text blank |
| `Payload.IsValidJson` | EssentialsAI/ViewModels/AiViewModel.cs:628-642 | blank text is invalid without parsing; other text is valid exactly when the parser accepts it |
| `Tools.WeatherTool.constructor` | EssentialsAI/Tools/AIToolWeather.cs:12-18 | the tool is named `GetWeatherForecast`, answers in `html`, and has the stated description and pseudo-parameters |
| `Tools.WeatherTool.Execute` | EssentialsAI/Tools/AIToolWeather.cs:20-27 | succeeds exactly when `city` is present, with the prefix, the city and a newline; otherwise throws `KeyNotFoundException` for `city` |
| `Tools.WeatherTool.ReplyMentionsCity` | EssentialsAI/Tools/AIToolWeather.cs:24 | the reply contains the requested city |
| `Tools.WeatherTool.OnlyCityMatters` | EssentialsAI/Tools/AIToolWeather.cs:20-27 | only the `city` entry decides the outcome; the tool reads no state |
| `Dispatch.FirstMatch` | EssentialsAI/ViewModels/AiViewModel.cs:556-564 | the index of the first tool with an ordinal-equal name, or the registry size when none matches |
| `Dispatch.ResultsBounded` | EssentialsAI/ViewModels/AiViewModel.cs:556-566 | each item adds at most one result |
| `Dispatch.RunAppend` | EssentialsAI/ViewModels/AiViewModel.cs:548-567 | items run in list order: the results of the front come before those of the rest |
| `Dispatch.TwoRepliesInOrder` | EssentialsAI/ViewModels/AiViewModel.cs:548-567 | two answering items give their two results in list order |
| `Dispatch.StopEndsDispatch` | EssentialsAI/ViewModels/AiViewModel.cs:550-553 | a blank `tool` or null `parameters` ends the dispatch of that item and every later one |
| `Dispatch.FaultEndsDispatch` | EssentialsAI/ViewModels/AiViewModel.cs:548-574 | an exception keeps the earlier results and runs nothing after it |
| `Dispatch.UnknownToolSkipped` | EssentialsAI/ViewModels/AiViewModel.cs:556-566 | an item naming no registered tool adds nothing and raises nothing |
| `Dispatch.WeatherCall` | EssentialsAI/ViewModels/AiViewModel.cs:556-562 | a weather call with a `city` yields exactly one result, the forecast text naming the city |
| `Dispatch.WeatherCallWithoutCity` | EssentialsAI/Tools/AIToolWeather.cs:24 | a weather call without `city` faults with the indexer's `KeyNotFoundException` |
| `Dispatch.ErrorMessage` | EssentialsAI/ViewModels/AiViewModel.cs:571-574 | the report is a system message that contains the exception message and the raw tool JSON |
| `ViewModel.TurnShape` | EssentialsAI/ViewModels/AiViewModel.cs:413-579 | a turn keeps the history, adds the user message and the assistant message with the friendly text; after that come only tool results, and at most one system message, which is last |
| `ViewModel.BlankPayloadAddsNothing` | EssentialsAI/ViewModels/AiViewModel.cs:536-538 | a whitespace-only tool JSON adds no message |
| `ViewModel.NoCommandNoTool` | EssentialsAI/ViewModels/AiViewModel.cs:465-532 | without a fragment that trims to `>`, the assistant message stays empty and no tool runs; only a stream exception is reported |
| `ViewModel.WeatherDispatched` | EssentialsAI/ViewModels/AiViewModel.cs:531-566 | a finished stream whose tool JSON decodes to a weather call appends the forecast after the assistant message |
| `ViewModel.WeatherTurn` | EssentialsAI/ViewModels/AiViewModel.cs:449-566 | the canonical weather reply adds exactly the user message, the friendly text and one forecast naming the city |
| `ViewModel.AiViewModel.constructor` | EssentialsAI/ViewModels/AiViewModel.cs:16-94 | no messages, the default input, no client, no token source, and a registry of one weather tool |
| `ViewModel.AiViewModel.StopResponse` | EssentialsAI/ViewModels/AiViewModel.cs:664-670 | cancels the token source unless it is missing; cancelling twice is the same as once |
| `ViewModel.AiViewModel.AppendStreamingText` | EssentialsAI/ViewModels/AiViewModel.cs:515 | only the last message's text grows, by the fragment |
| `ViewModel.AiViewModel.ReadStream` | EssentialsAI/ViewModels/AiViewModel.cs:449-525 | the loop leaves the assistant message holding `Consume(fragments).friendly` and returns its tool JSON and transcript; the token is cancelled exactly as `Consume` says; a stream exception surfaces only when not cancelled |
| `ViewModel.AiViewModel.InvokeItem` | EssentialsAI/ViewModels/AiViewModel.cs:550-566 | the guards and the registry walk compute exactly `Invoke(item, registry)` |
| `ViewModel.AiViewModel.ExecuteTools` | EssentialsAI/ViewModels/AiViewModel.cs:546-567 | appends one assistant message per result of `RunTools`, in order, and returns its fault |
| `ViewModel.AiViewModel.DispatchPayload` | EssentialsAI/ViewModels/AiViewModel.cs:531-574 | appends exactly `ToolMessages(toolJson)`: nothing for an empty or invalid payload, otherwise the results and the report of a decode or tool exception |
| `ViewModel.AiViewModel.SendMessage` | EssentialsAI/ViewModels/AiViewModel.cs:413-579 | blank input or no client changes nothing; otherwise the engine gets [system prompt] + history + [input], the input is cleared, the messages become `TurnMessages(...)` and processing ends false |
| `ChatClient.ToolSystemInstruction` | EssentialsAI/Services/OnnxChatClient.cs:316-328 | empty for null options or no tools; otherwise it contains the tool list |
| `ChatClient.PromptEndsWithCue` | EssentialsAI/Services/OnnxChatClient.cs:364-365 | every prompt ends with the assistant cue; for no messages it is exactly the cue |
| `ChatClient.BuildPrompt` | EssentialsAI/Services/OnnxChatClient.cs:311-366 | the loop writes the blocks of the messages in order, then the cue |
| `ChatClient.BlocksTake` | EssentialsAI/Services/OnnxChatClient.cs:330-363 | each further message appends its own block |
| `ChatClient.BlocksAppend` | EssentialsAI/Services/OnnxChatClient.cs:330-363 | the blocks of a split conversation are the blocks of its parts, in order |
| `ChatClient.ToolMessageOmitted` | EssentialsAI/Services/OnnxChatClient.cs:330-363 | a tool-role message, wherever it stands, leaves the prompt unchanged |
| `ChatClient.SingleMessagePrompt` | EssentialsAI/Services/OnnxChatClient.cs:330-352 | the system, user and assistant block formats, and nothing for a tool message |
| `ChatClient.MessageTextInPrompt` | EssentialsAI/Services/OnnxChatClient.cs:330-352 | the text of every system, user and assistant message occurs in the prompt |
| `ChatClient.GetResponse` | EssentialsAI/Services/OnnxChatClient.cs:192-238 | an exception of the stream (an engine error, or the cancellation raised when the token is cancelled) escapes as the fault; otherwise the non-empty updates are concatenated in order and trimmed, a call is returned only when the gate (length > 2, starts with `{`, contains `"name"`) and the JSON layer agree, and a text reply has no white space at either end |

## Left out

- Loading the model is not modelled: auto-load, file picking and copying,
  HTTP download, `CopyStreamWithProgressAsync` and `DownloadProgress`. These
  are file and network I/O with floating-point progress.
- The ONNX runtime is not modelled: `InitializeModel`, `Dispose`, and the
  generator and tokenizer loop of `GetStreamingResponseAsync`. They are
  foreign calls. Their effect is the `Engine` parameter, and the stream stops
  yielding once its token is cancelled.
- A stream exception is modelled as raised after the fragments yielded before
  it. An exception in the middle is the same stream cut short.
- `JsonDocument.Parse` and `JsonSerializer.Deserialize` are parameters
  (`parses`, `decode`, `interpret`). They are foreign library code.
- A payload that passes `IsValidJson` is a single JSON value, so the
  bracketed list `"[" + json + "]"` decodes to at most one item. The
  multi-item dispatch lemmas (`RunAppend`, `TwoRepliesInOrder`,
  `StopEndsDispatch`, `FaultEndsDispatch`) describe the loop over the list,
  not inputs the view model can produce.
- `BuildPrompt` takes the compact JSON of the tool list as an opaque string.
  An assistant message carrying a `FunctionCallContent` (serialized call
  history) is not modelled: the model's messages carry text only.
- `ChatClient.GetResponse`: `StartsWith("{")` is culture-sensitive in .NET.
  It is modelled as an ordinal first-character test.
- Async/await, `Task.Delay`, `Task.Run` and `MainThread` are not modelled.
  The turn runs sequentially.
- Cancellation is the `cts` flag. No one but `StopResponse` cancels it.
- UI plumbing is not modelled: observable-property notifications and
  `UiChatMessage` change events. `Messages` is a sequence of (role, text).
- The debug output (`Debug.WriteLine`) and the unused `role` local are not
  modelled.
- The raw message added to the local context after streaming is not
  modelled. It has no lasting effect. The transcript is still returned by
  `ReadStream`.
- The registry is a sequence of `WeatherTool`, because `AIToolWeather` is the
  only implementation of `IAITool` the application registers.
- Dictionary values (`object`) are modelled as the text they print as.
- A null dictionary inside `parameters` is not modelled. It would throw
  inside `ExecuteAsync` just as a missing `city` does.
- Null strings are not modelled: callers never pass null to `SanitizeJson`
  or `IsValidJson`. Chat roles are the closed set System, User, Assistant and
  Tool.
- The default text of the system prompt is not modelled. The constructor
  takes the prompt as a parameter.
- UTF-16 lone surrogates cannot be represented as Dafny `char`s.
- `Char.IsWhiteSpace` is modelled by its list of Unicode white-space
  characters.
