/** The tool dispatch of `SendMessageAsync`, as a specification: what the
    decoded list of `AIToolModel` items makes the view model append to its
    messages, item by item, against the registry `_aitools`. Exceptions are
    values here: the first one ends the dispatch and is reported once by the
    caller. */
module Dispatch {
  import opened Wrappers
  import opened Text
  import opened Chat
  import opened Tools

  /** What `JsonSerializer.Deserialize<List<AIToolModel>>` makes of the
      bracketed payload: a thrown exception (`JsonException` when the items
      do not fit `AIToolModel`), a null list, or the items, each of which
      may be a JSON null. */
  datatype Decoded = Threw(message: string) | NullList | Items(items: seq<Option<ToolCall>>)

  /** The message of the `NullReferenceException` raised by reading a
      member of a null item. */
  const NullReferenceMessage: string := "Object reference not set to an instance of an object."

  /** The message of the `ArgumentOutOfRangeException` raised by
      `parameters[0]` on an empty list. */
  const IndexOutOfRangeMessage: string :=
    "Index was out of range. Must be non-negative and less than the size of the collection. (Parameter 'index')"

  /** The fate of one decoded item. `Stop` is the early `return` that ends
      the whole dispatch, `Skip` an item no registered tool answers to,
      `Reply` a tool's result and `Fault` the exception that aborts the rest. */
  datatype Outcome = Stop | Skip | Reply(text: string) | Fault(message: string)

  /** The names of the registered tools, in registry order. */
  function Names(registry: seq<WeatherTool>): (names: seq<Option<string>>)
    reads registry
    ensures |names| == |registry|
    ensures forall k :: 0 <= k < |registry| ==> names[k] == registry[k].tool
  {
    seq(|registry|, k reads registry requires 0 <= k < |registry| => registry[k].tool)
  }

  /** The index of the first registered tool whose name is ordinal-equal to
      `name`, or `|names|` when there is none. */
  function FirstMatch(names: seq<Option<string>>, name: string): (k: nat)
    ensures k <= |names|
    ensures k < |names| ==> names[k] == Some(name)
    ensures forall j :: 0 <= j < k ==> names[j] != Some(name)
  {
    if names == [] then 0
    else if names[0] == Some(name) then 0
    else 1 + FirstMatch(names[1..], name)
  }

  /** The one decoded item, taken through the two early-return guards, the
      registry walk and the call `ExecuteAsync(parameters[0])`. A null item
      passes the guards (they test `tool is not null` first) and throws on
      the first name comparison. */
  function Invoke(item: Option<ToolCall>, registry: seq<WeatherTool>): Outcome
    reads registry
  {
    match item
    case None => if registry == [] then Skip else Fault(NullReferenceMessage)
    case Some(call) =>
      if call.tool.None? || IsBlank(call.tool.value) then Stop
      else if call.parameters.None? then Stop
      else
        var k := FirstMatch(Names(registry), call.tool.value);
        if k == |registry| then Skip
        else if call.parameters.value == [] then Fault(IndexOutOfRangeMessage)
        else match registry[k].Execute(call.parameters.value[0])
          case Ok(text) => Reply(text)
          case Err(message) => Fault(message)
  }

  /** The tool results of a dispatch, in item order, and the exception that
      cut it short, if any. */
  datatype Run = Run(results: seq<string>, fault: Option<string>)

  /** The items dispatched in list order. */
  function RunTools(items: seq<Option<ToolCall>>, registry: seq<WeatherTool>): Run
    reads registry
  {
    if items == [] then Run([], None)
    else match Invoke(items[0], registry)
      case Stop => Run([], None)
      case Skip => RunTools(items[1..], registry)
      case Reply(text) =>
        var rest := RunTools(items[1..], registry);
        Run([text] + rest.results, rest.fault)
      case Fault(message) => Run([], Some(message))
  }

  /** The dispatch from the `i`-th item on, by the fate of that item. */
  lemma RunFrom(items: seq<Option<ToolCall>>, i: nat, registry: seq<WeatherTool>)
    requires i < |items|
    ensures var rest := RunTools(items[i + 1..], registry);
      RunTools(items[i..], registry)
        == match Invoke(items[i], registry)
           case Stop => Run([], None)
           case Skip => rest
           case Reply(text) => Run([text] + rest.results, rest.fault)
           case Fault(message) => Run([], Some(message))
  {
    assert items[i..][0] == items[i] && items[i..][1..] == items[i + 1..];
  }

  /** An item that lets the dispatch go on to the next one. */
  predicate Continues(item: Option<ToolCall>, registry: seq<WeatherTool>)
    reads registry
  {
    Invoke(item, registry).Skip? || Invoke(item, registry).Reply?
  }

  /** Each item contributes at most one result, so there are never more
      results than items. */
  lemma {:induction false} ResultsBounded(items: seq<Option<ToolCall>>, registry: seq<WeatherTool>)
    ensures |RunTools(items, registry).results| <= |items|
  {
    if items != [] {
      ResultsBounded(items[1..], registry);
    }
  }

  /** Items that all go on run in list order: the results of the front part
      come first, then the results and the fault of the rest. */
  lemma {:induction false} RunAppend(front: seq<Option<ToolCall>>, rest: seq<Option<ToolCall>>, registry: seq<WeatherTool>)
    requires forall k :: 0 <= k < |front| ==> Continues(front[k], registry)
    ensures RunTools(front + rest, registry)
         == Run(RunTools(front, registry).results + RunTools(rest, registry).results, RunTools(rest, registry).fault)
  {
    if front == [] {
      assert front + rest == rest;
    } else {
      assert (front + rest)[0] == front[0];
      assert (front + rest)[1..] == front[1..] + rest;
      RunAppend(front[1..], rest, registry);
    }
  }

  /** Two items that both answer, one after the other: their results in
      list order, and nothing after. */
  lemma TwoRepliesInOrder(first: Option<ToolCall>, second: Option<ToolCall>, registry: seq<WeatherTool>)
    requires Invoke(first, registry).Reply? && Invoke(second, registry).Reply?
    ensures RunTools([first, second], registry)
         == Run([Invoke(first, registry).text, Invoke(second, registry).text], None)
  {
    assert [first, second][1..] == [second];
    assert [second][1..] == [];
    assert RunTools([second], registry) == Run([Invoke(second, registry).text], None);
  }

  /** A blank `tool` or a null `parameters` ends the dispatch of that item
      and of every later one, whatever came before. */
  lemma {:induction false} StopEndsDispatch(front: seq<Option<ToolCall>>, item: Option<ToolCall>, rest: seq<Option<ToolCall>>, registry: seq<WeatherTool>)
    requires item.Some? && (item.value.tool.None? || IsBlank(item.value.tool.value) || item.value.parameters.None?)
    ensures RunTools(front + [item] + rest, registry) == RunTools(front, registry)
  {
    if front == [] {
      assert front + [item] + rest == [item] + rest;
    } else {
      assert (front + [item] + rest)[0] == front[0];
      assert (front + [item] + rest)[1..] == front[1..] + [item] + rest;
      StopEndsDispatch(front[1..], item, rest, registry);
    }
  }

  /** A fault ends the dispatch: the results before it are kept and nothing
      after it runs. */
  lemma {:induction false} FaultEndsDispatch(front: seq<Option<ToolCall>>, item: Option<ToolCall>, rest: seq<Option<ToolCall>>, registry: seq<WeatherTool>)
    requires forall k :: 0 <= k < |front| ==> Continues(front[k], registry)
    requires Invoke(item, registry).Fault?
    ensures RunTools(front + [item] + rest, registry)
         == Run(RunTools(front, registry).results, Some(Invoke(item, registry).message))
  {
    assert front + [item] + rest == front + ([item] + rest);
    RunAppend(front, [item] + rest, registry);
  }

  /** A named item that no registered tool answers to is skipped: it adds
      no result and raises nothing. */
  lemma UnknownToolSkipped(call: ToolCall, registry: seq<WeatherTool>)
    requires call.tool.Some? && !IsBlank(call.tool.value) && call.parameters.Some?
    requires forall k :: 0 <= k < |registry| ==> registry[k].tool != call.tool
    ensures Invoke(Some(call), registry) == Skip
    ensures RunTools([Some(call)], registry) == Run([], None)
  {
    assert [Some(call)][1..] == [];
  }

  /** A call of the weather tool registered alone, with a `city`: exactly one
      result, the forecast text, which names the city. */
  lemma WeatherCall(call: ToolCall, weather: WeatherTool)
    requires weather.tool == Some(WeatherToolName) && call.tool == Some(WeatherToolName)
    requires call.parameters.Some? && call.parameters.value != []
    requires "city" in call.parameters.value[0]
    ensures var city := call.parameters.value[0]["city"];
      && RunTools([Some(call)], [weather]) == Run([WeatherReplyPrefix + city + "\n"], None)
      && Contains(RunTools([Some(call)], [weather]).results[0], city)
  {
    assert !IsBlank(WeatherToolName) by {
      assert !IsWhiteSpace(WeatherToolName[0]);
    }
    assert Names([weather]) == [Some(WeatherToolName)];
    assert [Some(call)][1..] == [];
    weather.ReplyMentionsCity(call.parameters.value[0]);
  }

  /** A call of the weather tool whose first parameter set has no `city`
      faults with the indexer's `KeyNotFoundException`. */
  lemma WeatherCallWithoutCity(call: ToolCall, weather: WeatherTool)
    requires weather.tool == Some(WeatherToolName) && call.tool == Some(WeatherToolName)
    requires call.parameters.Some? && call.parameters.value != []
    requires "city" !in call.parameters.value[0]
    ensures RunTools([Some(call)], [weather]) == Run([], Some(KeyNotFoundMessage("city")))
  {
    assert !IsBlank(WeatherToolName) by {
      assert !IsWhiteSpace(WeatherToolName[0]);
    }
    assert Names([weather]) == [Some(WeatherToolName)];
  }

  /** The messages the results become: one assistant message each, in order. */
  function ResultMessages(results: seq<string>): (r: seq<Message>)
    ensures |r| == |results|
    ensures forall k :: 0 <= k < |r| ==> r[k] == Message(Assistant, results[k])
  {
    seq(|results|, k requires 0 <= k < |results| => Message(Assistant, results[k]))
  }

  /** The system message that reports an exception of the turn, with the
      tool JSON as accumulated, not as sanitized. */
  function ErrorMessage(message: string, toolJson: string): (r: Message)
    ensures r.role == System
    ensures Contains(r.text, message) && Contains(r.text, toolJson)
    ensures |r.text| == |message| + |toolJson| + 19
  {
    var head := "Error: ";
    var middle := "\r\ntoolJson: ";
    ContainsInfix(head, message, middle + toolJson);
    assert head + message + (middle + toolJson) == head + message + middle + toolJson;
    ContainsInfix(head + message + middle, toolJson, "");
    assert head + message + middle + toolJson + "" == head + message + middle + toolJson;
    Message(System, head + message + middle + toolJson)
  }
}
