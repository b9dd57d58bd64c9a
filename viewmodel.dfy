/** The chat turn of `AiViewModel`: `SendMessageAsync` builds the context,
    streams the reply through the marker protocol into the assistant
    message and the tool JSON, then sanitizes, validates, decodes and
    dispatches the tool JSON, reporting any exception as one system message.

    The chat client is an `Engine`: given the context it yields the
    fragments of the reply and may end with an exception. The JSON parser
    (`parses`) and the deserializer (`decode`) are parameters. */
module ViewModel {
  import opened Wrappers
  import opened Text
  import opened Chat
  import opened Payload
  import opened Protocol
  import opened Tools
  import opened Dispatch

  /** The reply stream of one turn: the fragments the engine yields, in
      order, and the exception (other than a cancellation) it throws once
      they are exhausted, if any. */
  datatype Stream = Stream(fragments: seq<string>, fault: Option<string>)

  /** The chat client: the reply stream it produces for a context. */
  type Engine = seq<Message> -> Stream

  /** The context a turn sends: the system prompt, every message so far with
      its streaming text, and the user's input. */
  function Context(systemPrompt: string, history: seq<Message>, input: string): seq<Message> {
    [Message(System, systemPrompt)] + history + [Message(User, input)]
  }

  /** The messages the tool JSON of a finished stream adds: nothing when it
      is empty, when its sanitized form is not valid JSON or when the list
      decodes to null; otherwise the dispatch results and, after them, the
      report of the exception that ended it. */
  function ToolMessages(toolJson: string, registry: seq<WeatherTool>,
                        decode: string -> Decoded, parses: string -> bool): seq<Message>
    reads registry
  {
    if toolJson == "" then []
    else
      var json := Sanitized(toolJson);
      if !IsValidJson(json, parses) then []
      else match decode("[" + json + "]")
        case Threw(message) => [ErrorMessage(message, toolJson)]
        case NullList => []
        case Items(items) =>
          var run := RunTools(items, registry);
          ResultMessages(run.results)
            + (if run.fault.Some? then [ErrorMessage(run.fault.value, toolJson)] else [])
  }

  /** The messages after a turn over `history` with input `input` whose reply
      stream is `stream`: the user message, the assistant message holding the
      friendly text, then either the report of a stream exception or what
      the tool JSON adds. */
  function TurnMessages(history: seq<Message>, input: string, stream: Stream, registry: seq<WeatherTool>,
                        decode: string -> Decoded, parses: string -> bool): seq<Message>
    reads registry
  {
    var s := Consume(stream.fragments);
    var shown := history + [Message(User, input), Message(Assistant, s.friendly)];
    if !s.cancelled && stream.fault.Some? then shown + [ErrorMessage(stream.fault.value, s.toolJson)]
    else shown + ToolMessages(s.toolJson, registry, decode, parses)
  }

  /** What a turn adds after the assistant message: tool results only, and
      at most one system message, which is the last message and reports the
      turn's exception. */
  lemma TurnShape(history: seq<Message>, input: string, stream: Stream, registry: seq<WeatherTool>,
                  decode: string -> Decoded, parses: string -> bool)
    ensures var r := TurnMessages(history, input, stream, registry, decode, parses);
      && |r| >= |history| + 2
      && r[..|history|] == history
      && r[|history|] == Message(User, input)
      && r[|history| + 1] == Message(Assistant, Consume(stream.fragments).friendly)
      && (forall k :: |history| + 2 <= k < |r| - 1 ==> r[k].role == Assistant)
      && (forall k :: |history| + 2 <= k < |r| && r[k].role == System ==> k == |r| - 1)
  {
  }

  /** A tool JSON of white space only adds nothing: its sanitized form is
      blank, so the parser is never consulted. */
  lemma BlankPayloadAddsNothing(toolJson: string, registry: seq<WeatherTool>,
                                decode: string -> Decoded, parses: string -> bool)
    requires IsBlank(toolJson)
    ensures ToolMessages(toolJson, registry, decode, parses) == []
  {
    SanitizedBlank(toolJson);
  }

  /** A reply without a fragment that trims to `>` shows an empty assistant
      message and runs no tool; only a stream exception is reported. */
  lemma NoCommandNoTool(history: seq<Message>, input: string, stream: Stream, registry: seq<WeatherTool>,
                        decode: string -> Decoded, parses: string -> bool)
    requires forall k :: 0 <= k < |stream.fragments| ==> Trim(stream.fragments[k]) != ">"
    ensures var shown := history + [Message(User, input), Message(Assistant, "")];
      TurnMessages(history, input, stream, registry, decode, parses)
        == if stream.fault.Some?
           then shown + [ErrorMessage(stream.fault.value, "")]
           else shown
  {
    NoStartMarker(stream.fragments, |stream.fragments|);
  }

  /** A finished stream whose tool JSON calls the registered weather tool
      for a city adds the forecast after the assistant message. */
  lemma WeatherDispatched(history: seq<Message>, input: string, stream: Stream, payload: string,
                          call: ToolCall, weather: WeatherTool,
                          decode: string -> Decoded, parses: string -> bool)
    requires Consume(stream.fragments).toolJson == payload && stream.fault.None?
    requires payload != "" && IsValidJson(Sanitized(payload), parses)
    requires decode("[" + Sanitized(payload) + "]") == Items([Some(call)])
    requires weather.tool == Some(WeatherToolName) && call.tool == Some(WeatherToolName)
    requires call.parameters.Some? && call.parameters.value != [] && "city" in call.parameters.value[0]
    ensures TurnMessages(history, input, stream, [weather], decode, parses)
         == history + [Message(User, input), Message(Assistant, Consume(stream.fragments).friendly),
                       Message(Assistant, WeatherReplyPrefix + call.parameters.value[0]["city"] + "\n")]
  {
    var reply := WeatherReplyPrefix + call.parameters.value[0]["city"] + "\n";
    WeatherCall(call, weather);
    assert ToolMessages(payload, [weather], decode, parses) == [Message(Assistant, reply)];
  }

  /** The canonical weather reply end to end: fragments trimming to `>` and
      `!`, the friendly text, fragments trimming to `#`, the payload and a
      fragment trimming to `END`, with a payload that decodes to one call of
      the registered weather tool for a city. The turn adds the user
      message, the assistant message holding the friendly text and one
      assistant message with the forecast, which names the city. */
  lemma WeatherTurn(history: seq<Message>, input: string,
                    open: string, sayMark: string, say: string, callMark: string, payload: string, end: string,
                    call: ToolCall, weather: WeatherTool,
                    decode: string -> Decoded, parses: string -> bool)
    requires Trim(open) == ">" && Trim(sayMark) == "!" && Trim(callMark) == "#" && Trim(end) == "END"
    requires !IsMarker(Trim(say)) && !IsMarker(Trim(payload))
    requires payload != "" && IsValidJson(Sanitized(payload), parses)
    requires decode("[" + Sanitized(payload) + "]") == Items([Some(call)])
    requires weather.tool == Some(WeatherToolName) && call.tool == Some(WeatherToolName)
    requires call.parameters.Some? && call.parameters.value != [] && "city" in call.parameters.value[0]
    ensures var city := call.parameters.value[0]["city"];
      var r := TurnMessages(history, input, Stream([open, sayMark, say, callMark, payload, end], None),
                            [weather], decode, parses);
      && r == history + [Message(User, input), Message(Assistant, say),
                         Message(Assistant, WeatherReplyPrefix + city + "\n")]
      && Contains(r[|r| - 1].text, city)
  {
    var stream := Stream([open, sayMark, say, callMark, payload, end], None);
    CanonicalReply(open, sayMark, say, callMark, payload, end);
    WeatherDispatched(history, input, stream, payload, call, weather, decode, parses);
    WeatherCall(call, weather);
  }

  /** The view model's chat state. The observable `Messages` collection is
      the sequence `messages` of (role, streaming text); `cts` is the turn's
      cancellation token source, `None` before the first turn and otherwise
      whether cancellation has been requested. */
  class AiViewModel {
    var messages: seq<Message>
    var userInput: string
    var isProcessing: bool
    var systemPrompt: string
    var chatClient: Option<Engine>
    var cts: Option<bool>
    /** `_aitools`: the tool registry. */
    const aitools: seq<WeatherTool>

    /** A new view model: no messages, the default input, no chat client
        loaded yet and the registry holding one new weather tool. */
    constructor (systemPrompt: string)
      ensures messages == [] && !isProcessing && chatClient.None? && cts.None?
      ensures userInput == "Please check the current weather forecast for me in Saporo Japan"
      ensures this.systemPrompt == systemPrompt
      ensures |aitools| == 1 && fresh(aitools[0]) && aitools[0].tool == Some(WeatherToolName)
      ensures aitools[0].toolResponseFormatType == Some("html")
    {
      messages := [];
      userInput := "Please check the current weather forecast for me in Saporo Japan";
      isProcessing := false;
      this.systemPrompt := systemPrompt;
      chatClient := None;
      cts := None;
      var weather := new WeatherTool();
      aitools := [weather];
    }

    /** `StopResponse`: cancels the turn's token source unless it is missing
        or already cancelled. */
    method StopResponse()
      modifies this`cts
      ensures cts == if old(cts).Some? then Some(true) else None
    {
      if cts.Some? && !cts.value {
        cts := Some(true);
      }
    }

    /** `assistantMsg.StreamingText += text` on the last message. */
    method AppendStreamingText(text: string)
      requires messages != []
      modifies this`messages
      ensures |messages| == |old(messages)|
      ensures messages[..|messages| - 1] == old(messages)[..|old(messages)| - 1]
      ensures messages[|messages| - 1]
           == old(messages)[|old(messages)| - 1].(text := old(messages)[|old(messages)| - 1].text + text)
    {
      var last := messages[|messages| - 1];
      messages := messages[..|messages| - 1] + [last.(text := last.text + text)];
    }

    /** The streaming loop: each delivered fragment is trimmed and routed by
        the flags; the generator stops yielding once the token is cancelled,
        and the resulting `OperationCanceledException` is swallowed. Returns
        the tool JSON, the raw transcript and the stream's own exception,
        which surfaces only when the turn was not cancelled. */
    method ReadStream(stream: Stream) returns (toolJson: string, transcript: string, thrown: Option<string>)
      requires messages != [] && messages[|messages| - 1] == Message(Assistant, "")
      requires cts == Some(false)
      modifies this`messages, this`cts
      ensures var s := Consume(stream.fragments);
        && messages == old(messages)[..|old(messages)| - 1] + [Message(Assistant, s.friendly)]
        && toolJson == s.toolJson
        && transcript == s.transcript
        && cts == Some(s.cancelled)
        && thrown == if s.cancelled then None else stream.fault
    {
      var fs := stream.fragments;
      ghost var front := messages[..|messages| - 1];
      var sb := "";
      var startCommand, startFriendlyMessage, startTool, startEnding, validResponseStart := false, false, false, false, false;
      toolJson := "";
      var i := 0;
      while i < |fs|
        invariant 0 <= i <= |fs| && cts.Some?
        invariant |messages| == |front| + 1 && messages[..|front|] == front
        invariant messages[|front|].role == Assistant
        invariant After(fs, i)
               == Scan(startCommand, validResponseStart, startFriendlyMessage, startTool, startEnding,
                       sb, messages[|front|].text, toolJson, cts.value)
      {
        if cts.value {
          break;
        }
        var text := fs[i];
        var st := Trim(text);
        sb := sb + text;
        i := i + 1;
        if st == ">" {
          startCommand := true;
          validResponseStart := true;
          continue;
        }
        if startCommand && validResponseStart {
          if st == "!" {
            startFriendlyMessage := true;
            startTool := false;
            startEnding := false;
            continue;
          } else if st == "#" {
            startTool := true;
            startFriendlyMessage := false;
            startEnding := false;
            continue;
          } else if st == "END" {
            startEnding := true;
            startFriendlyMessage := false;
            startTool := false;
            continue;
          }
        }
        if startCommand && validResponseStart && startFriendlyMessage {
          AppendStreamingText(text);
        }
        if startCommand && validResponseStart && startTool {
          toolJson := toolJson + text;
        }
        if startCommand && validResponseStart && startEnding {
          StopResponse();
        }
      }
      if i < |fs| {
        CancelledIsFinal(fs, i, |fs|);
      }
      assert messages == front + [Message(Assistant, messages[|front|].text)];
      transcript := sb;
      thrown := if cts.value then None else stream.fault;
    }

    /** One item of the dispatch loop: the two guards, then the walk over
        the registry that runs the first tool with an equal name on
        `parameters[0]` and stops there. */
    method InvokeItem(item: Option<ToolCall>) returns (outcome: Outcome)
      ensures outcome == Invoke(item, aitools)
    {
      if item.Some? && (item.value.tool.None? || IsBlank(item.value.tool.value)) {
        return Stop;
      }
      if item.Some? && item.value.parameters.None? {
        return Stop;
      }
      ghost var names := Names(aitools);
      var j := 0;
      while j < |aitools|
        invariant 0 <= j <= |aitools|
        invariant item.None? ==> j == 0
        invariant item.Some? ==> forall k :: 0 <= k < j ==> names[k] != item.value.tool
      {
        if item.None? {
          return Fault(NullReferenceMessage);
        }
        var thetool := aitools[j];
        if item.value.tool == thetool.tool {
          assert FirstMatch(names, item.value.tool.value) == j;
          var arguments := item.value.parameters.value;
          if arguments == [] {
            return Fault(IndexOutOfRangeMessage);
          }
          var result := thetool.Execute(arguments[0]);
          if result.Err? {
            return Fault(result.message);
          }
          return Reply(result.value);
        }
        j := j + 1;
      }
      if item.Some? {
        assert FirstMatch(names, item.value.tool.value) == |aitools|;
      }
      return Skip;
    }

    /** The dispatch loop: items in list order, each result appended as an
        assistant message; a guard that fails ends the loop, and so does an
        exception, which is returned. */
    method ExecuteTools(items: seq<Option<ToolCall>>) returns (fault: Option<string>)
      modifies this`messages
      ensures var run := RunTools(items, aitools);
        messages == old(messages) + ResultMessages(run.results) && fault == run.fault
    {
      ghost var added: seq<string> := [];
      ghost var total := RunTools(items, aitools);
      var i := 0;
      while i < |items|
        invariant 0 <= i <= |items|
        invariant messages == old(messages) + ResultMessages(added)
        invariant total.results == added + RunTools(items[i..], aitools).results
        invariant total.fault == RunTools(items[i..], aitools).fault
      {
        RunFrom(items, i, aitools);
        ghost var rest := RunTools(items[i + 1..], aitools);
        var outcome := InvokeItem(items[i]);
        match outcome {
          case Stop =>
            assert added + [] == added;
            return None;
          case Fault(message) =>
            assert added + [] == added;
            return Some(message);
          case Skip =>
          case Reply(result) =>
            messages := messages + [Message(Assistant, result)];
            assert added + ([result] + rest.results) == (added + [result]) + rest.results;
            assert ResultMessages(added + [result]) == ResultMessages(added) + [Message(Assistant, result)];
            added := added + [result];
        }
        i := i + 1;
      }
      assert items[i..] == [];
      assert added + [] == added;
      fault := None;
    }

    /** The tool stage of `SendMessageAsync` once streaming has ended
        without an exception: an empty tool JSON is left alone; otherwise it
        is sanitized, checked, bracketed into a list, decoded and
        dispatched, and an exception from decoding or dispatch is reported
        with the tool JSON as accumulated. */
    method DispatchPayload(toolJson: string, decode: string -> Decoded, parses: string -> bool)
      modifies this`messages
      ensures messages == old(messages) + ToolMessages(toolJson, aitools, decode, parses)
    {
      if toolJson == "" {
        return;
      }
      var json := SanitizeJson(toolJson);
      if IsValidJson(json, parses) {
        json := "[" + json + "]";
        match decode(json) {
          case Threw(message) =>
            messages := messages + [ErrorMessage(message, toolJson)];
          case NullList =>
          case Items(items) =>
            var fault := ExecuteTools(items);
            if fault.Some? {
              messages := messages + [ErrorMessage(fault.value, toolJson)];
            }
        }
      }
    }

    /** `SendMessageAsync`. A blank input or a missing chat client changes
        nothing. Otherwise the input is moved into a user message, an empty
        assistant message is added and streamed into, the tool JSON is
        dispatched, every exception is reported once as a system message,
        and the view model is no longer processing. */
    method SendMessage(decode: string -> Decoded, parses: string -> bool)
      modifies this
      ensures IsBlank(old(userInput)) || old(chatClient).None? ==>
        && messages == old(messages) && userInput == old(userInput)
        && isProcessing == old(isProcessing) && cts == old(cts)
      ensures !IsBlank(old(userInput)) && old(chatClient).Some? ==>
        var stream := old(chatClient).value(Context(old(systemPrompt), old(messages), old(userInput)));
        && messages == TurnMessages(old(messages), old(userInput), stream, aitools, decode, parses)
        && userInput == ""
        && !isProcessing
        && cts == Some(Consume(stream.fragments).cancelled)
      ensures systemPrompt == old(systemPrompt) && chatClient == old(chatClient)
    {
      if IsBlank(userInput) || chatClient.None? {
        return;
      }
      isProcessing := true;
      cts := Some(false);
      var fullContext := [Message(System, systemPrompt)] + messages + [Message(User, userInput)];
      messages := messages + [Message(User, userInput)];
      userInput := "";
      messages := messages + [Message(Assistant, "")];
      var stream := chatClient.value(fullContext);
      var toolJson, transcript, thrown := ReadStream(stream);
      ghost var scan := Consume(stream.fragments);
      ghost var shown := old(messages) + [Message(User, old(userInput)), Message(Assistant, scan.friendly)];
      assert messages == shown;
      if thrown.Some? {
        messages := messages + [ErrorMessage(thrown.value, toolJson)];
      } else {
        assert !scan.cancelled ==> stream.fault.None?;
        DispatchPayload(toolJson, decode, parses);
        assert messages == shown + ToolMessages(scan.toolJson, aitools, decode, parses);
      }
      isProcessing := false;
    }
  }
}
