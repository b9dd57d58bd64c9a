/** The text-level logic of the ONNX chat client: the Phi-3 chat template that
    `BuildPrompt` writes for a conversation, and the buffered reply of
    `GetResponseAsync`, which turns the concatenated stream into either a
    function call or a plain assistant text. The ONNX model, tokenizer and
    generator are foreign; `GetResponse` receives the streamed texts. */
module ChatClient {
  import opened Wrappers
  import opened Text
  import opened Chat

  /** The cue that ends every prompt and asks the model for the next turn. */
  const AssistantCue: string := "<|assistant|>\n"

  /** The tags of the Phi-3 chat template. */
  const SystemTag: string := "<|system|>\n"
  const UserTag: string := "<|user|>\n"
  const AssistantTag: string := "<|assistant|>\n >!"
  const EndTag: string := "<|end|>\n"

  /** The suffix added to each system message when the options carry tools.
      `toolsJson` is the compact JSON of the tool list (name, description,
      schema per tool); `None` stands for null options or an empty tool list. */
  function ToolSystemInstruction(toolsJson: Option<string>): (r: string)
    ensures toolsJson.None? ==> r == ""
    ensures toolsJson.Some? ==> Contains(r, toolsJson.value)
  {
    match toolsJson
    case None => ""
    case Some(json) =>
      var head := "\n[AVAILABLE TOOLS]\n";
      var tail := "\n[INSTRUCTION]\nOutput a JSON object with 'name' and 'arguments' to call a tool.";
      ContainsInfix(head, json, tail);
      head + json + tail
  }

  /** The template block of one message; tool messages have none. */
  function Block(m: Message, instruction: string): string {
    match m.role
    case System => SystemTag + m.text + instruction + EndTag
    case User => UserTag + m.text + EndTag
    case Assistant => AssistantTag + m.text + EndTag
    case Tool => ""
  }

  /** The blocks of all messages, in message order. */
  function BlockList(messages: seq<Message>, instruction: string): seq<string> {
    seq(|messages|, k requires 0 <= k < |messages| => Block(messages[k], instruction))
  }

  function Blocks(messages: seq<Message>, instruction: string): string {
    Concat(BlockList(messages, instruction))
  }

  /** The whole prompt: the blocks followed by the assistant cue. */
  function Prompt(messages: seq<Message>, instruction: string): string {
    Blocks(messages, instruction) + AssistantCue
  }

  /** Every prompt ends with the assistant cue; an empty conversation is the
      cue alone. */
  lemma PromptEndsWithCue(messages: seq<Message>, instruction: string)
    ensures var p := Prompt(messages, instruction);
      |p| >= |AssistantCue| && p[|p| - |AssistantCue|..] == AssistantCue
    ensures messages == [] ==> Prompt(messages, instruction) == AssistantCue
  {
    if messages == [] {
      assert BlockList(messages, instruction) == [];
    }
  }

  /** `BuildPrompt`: one pass over the messages appending each block. */
  method BuildPrompt(messages: seq<Message>, toolsJson: Option<string>) returns (prompt: string)
    ensures prompt == Prompt(messages, ToolSystemInstruction(toolsJson))
  {
    var sb := "";
    var toolSystemInstruction := "";
    if toolsJson.Some? {
      toolSystemInstruction := ToolSystemInstruction(toolsJson);
    }
    for i := 0 to |messages|
      invariant sb == Blocks(messages[..i], toolSystemInstruction)
    {
      var msg := messages[i];
      BlocksTake(messages, i, toolSystemInstruction);
      if msg.role == System {
        sb := sb + (SystemTag + msg.text + toolSystemInstruction + EndTag);
      } else if msg.role == User {
        sb := sb + (UserTag + msg.text + EndTag);
      } else if msg.role == Assistant {
        sb := sb + (AssistantTag + msg.text + EndTag);
      }
    }
    assert messages[..|messages|] == messages;
    sb := sb + AssistantCue;
    prompt := sb;
  }

  /** One more message appends its block. */
  lemma BlocksTake(messages: seq<Message>, i: nat, instruction: string)
    requires i < |messages|
    ensures Blocks(messages[..i + 1], instruction)
         == Blocks(messages[..i], instruction) + Block(messages[i], instruction)
  {
    var list := BlockList(messages[..i + 1], instruction);
    assert list[..i] == BlockList(messages[..i], instruction);
    assert list[i] == Block(messages[i], instruction);
  }

  /** The blocks of a split conversation are the blocks of its parts, in order. */
  lemma BlocksAppend(a: seq<Message>, b: seq<Message>, instruction: string)
    ensures Blocks(a + b, instruction) == Blocks(a, instruction) + Blocks(b, instruction)
  {
    assert BlockList(a + b, instruction) == BlockList(a, instruction) + BlockList(b, instruction);
    ConcatAppend(BlockList(a, instruction), BlockList(b, instruction));
  }

  /** A tool message, wherever it stands, leaves the prompt unchanged. */
  lemma ToolMessageOmitted(a: seq<Message>, text: string, b: seq<Message>, instruction: string)
    ensures Prompt(a + [Message(Tool, text)] + b, instruction) == Prompt(a + b, instruction)
  {
    var tool := Message(Tool, text);
    var front := a + [tool];
    assert Blocks(front, instruction) == Blocks(a, instruction) by {
      BlocksTake(front, |a|, instruction);
      assert front[..|a| + 1] == front && front[..|a|] == a;
    }
    BlocksAppend(front, b, instruction);
    BlocksAppend(a, b, instruction);
  }

  /** The blocks of a one-message conversation: the per-role formats. */
  lemma SingleMessagePrompt(m: Message, instruction: string)
    ensures m.role == System ==>
      Prompt([m], instruction) == "<|system|>\n" + m.text + instruction + "<|end|>\n" + AssistantCue
    ensures m.role == User ==>
      Prompt([m], instruction) == "<|user|>\n" + m.text + "<|end|>\n" + AssistantCue
    ensures m.role == Assistant ==>
      Prompt([m], instruction) == "<|assistant|>\n >!" + m.text + "<|end|>\n" + AssistantCue
    ensures m.role == Tool ==> Prompt([m], instruction) == AssistantCue
  {
    assert BlockList([m], instruction) == [Block(m, instruction)];
    ConcatSingleton(Block(m, instruction));
  }

  /** The text of every system, user and assistant message occurs in the prompt. */
  lemma MessageTextInPrompt(messages: seq<Message>, k: nat, instruction: string)
    requires k < |messages| && messages[k].role != Tool
    ensures Contains(Prompt(messages, instruction), messages[k].text)
  {
    var m := messages[k];
    var before := Blocks(messages[..k], instruction);
    var rest := Blocks(messages[k + 1..], instruction) + AssistantCue;
    PromptAround(messages, k, instruction);
    BlockHoldsText(before, m, instruction, rest);
  }

  lemma PromptAround(messages: seq<Message>, k: nat, instruction: string)
    requires k < |messages|
    ensures Prompt(messages, instruction)
         == Blocks(messages[..k], instruction) + Block(messages[k], instruction)
          + (Blocks(messages[k + 1..], instruction) + AssistantCue)
  {
    var front, back := messages[..k + 1], messages[k + 1..];
    var x, y, z := Blocks(messages[..k], instruction), Block(messages[k], instruction), Blocks(back, instruction);
    assert Blocks(messages, instruction) == x + y + z by {
      assert messages == front + back;
      BlocksAppend(front, back, instruction);
      BlocksTake(messages, k, instruction);
    }
    assert (x + y + z) + AssistantCue == x + y + (z + AssistantCue);
  }

  lemma BlockHoldsText(before: string, m: Message, instruction: string, rest: string)
    requires m.role != Tool
    ensures Contains(before + Block(m, instruction) + rest, m.text)
  {
    var open, close := "", "";
    match m.role {
      case System =>
        open, close := SystemTag, instruction + EndTag;
      case User =>
        open, close := UserTag, EndTag;
      case Assistant =>
        open, close := AssistantTag, EndTag;
    }
    assert Block(m, instruction) == open + m.text + close;
    ContainsAmid(before, open, m.text, close, rest);
  }

  lemma ContainsAmid(before: string, open: string, text: string, close: string, rest: string)
    ensures Contains(before + (open + text + close) + rest, text)
  {
    assert before + (open + text + close) + rest == (before + open) + text + (close + rest);
    ContainsInfix(before + open, text, close + rest);
  }

  /** What the JSON layer makes of a reply that passed the cheap gate:
      `NotJson` when `JsonDocument.Parse` or the deserialization of
      `arguments` throws a `JsonException` (caught, falls back to text);
      `NoName` when the object has no `name` property (falls back to text);
      `NameNotString` when `GetString` throws on a non-string `name` (not
      caught: it escapes the call); `Call` for a function call, whose name is
      empty for a JSON null and whose arguments are empty when absent. */
  datatype CallParse =
    | NotJson
    | NoName
    | NameNotString(message: string)
    | Call(name: string, arguments: map<string, string>)

  /** The single assistant message of a `ChatResponse`, or the exception the
      call throws. */
  datatype Reply =
    | TextReply(text: string)
    | CallReply(name: string, arguments: map<string, string>)
    | Faulted(message: string)

  /** The overhead-avoiding gate in front of the JSON parse. */
  predicate LooksLikeCall(text: string) {
    |text| > 2 && text[0] == '{' && Contains(text, "\"name\"")
  }

  /** `GetResponseAsync`: the non-empty streamed texts concatenated in order
      and trimmed, then a function call when the gate and the JSON layer
      agree, and otherwise the trimmed text as one assistant message. The
      stream yields `updates` and then ends, or throws `fault` (an engine
      error, or the `OperationCanceledException` of a cancelled token),
      which escapes the call. */
  method GetResponse(updates: seq<string>, fault: Option<string>, interpret: string -> CallParse)
    returns (reply: Reply)
    ensures fault.Some? ==> reply == Faulted(fault.value)
    ensures fault.None? ==>
      var fullText := Trim(Concat(updates));
      && (!LooksLikeCall(fullText) ==> reply == TextReply(fullText))
      && (LooksLikeCall(fullText) ==>
            match interpret(fullText)
            case NotJson => reply == TextReply(fullText)
            case NoName => reply == TextReply(fullText)
            case NameNotString(m) => reply == Faulted(m)
            case Call(name, arguments) => reply == CallReply(name, arguments))
    // a text reply carries no white space at either end
    ensures reply.TextReply? ==>
      && Trim(reply.text) == reply.text
      && (reply.text != [] ==> !IsWhiteSpace(reply.text[0]) && !IsWhiteSpace(reply.text[|reply.text| - 1]))
  {
    var sb := "";
    for i := 0 to |updates|
      invariant sb == Concat(updates[..i])
    {
      assert updates[..i + 1][..i] == updates[..i];
      if updates[i] != "" {
        sb := sb + updates[i];
      }
    }
    if fault.Some? {
      return Faulted(fault.value);
    }
    assert updates[..|updates|] == updates;
    var fullText := Trim(sb);
    TrimIdempotent(sb);
    TrimShape(sb);
    if |fullText| > 2 && fullText[0] == '{' && Contains(fullText, "\"name\"") {
      var parsed := interpret(fullText);
      match parsed {
        case NotJson =>
        case NoName =>
        case NameNotString(m) =>
          return Faulted(m);
        case Call(name, arguments) =>
          return CallReply(name, arguments);
      }
    }
    return TextReply(fullText);
  }
}
