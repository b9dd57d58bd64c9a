/** The marker protocol of one streamed assistant turn, as the locals of the
    streaming loop of `SendMessageAsync` evolve. Each fragment is trimmed and
    compared for exact equality with the markers `>`, `!`, `#` and `END`;
    the untrimmed fragment goes to the raw transcript, and, depending on the
    flags, to the friendly text, to the tool JSON, or requests cancellation.
    Once cancellation has been requested the fragment source yields nothing
    more, so later fragments are never seen. */
module Protocol {
  import opened Text

  /** The loop's state: the five flags, the raw transcript `sb`, the
      assistant message's streaming text, the tool JSON and whether the
      turn's cancellation token has been cancelled. */
  datatype Scan = Scan(
    startCommand: bool,
    validResponseStart: bool,
    startFriendlyMessage: bool,
    startTool: bool,
    startEnding: bool,
    transcript: string,
    friendly: string,
    toolJson: string,
    cancelled: bool)

  /** The state before the first fragment. */
  const Initial: Scan := Scan(false, false, false, false, false, "", "", "", false)

  /** The four reserved tokens. */
  predicate IsMarker(st: string) {
    st == ">" || st == "!" || st == "#" || st == "END"
  }

  /** A command has started: sub-markers are recognised and content is routed. */
  predicate InCommand(s: Scan) {
    s.startCommand && s.validResponseStart
  }

  /** At most one of the friendly, tool and ending modes is on. */
  predicate AtMostOneMode(s: Scan) {
    && !(s.startFriendlyMessage && s.startTool)
    && !(s.startFriendlyMessage && s.startEnding)
    && !(s.startTool && s.startEnding)
  }

  /** What a fragment is, once trimmed: one of the four markers or content. */
  datatype Token = CommandMark | FriendlyMark | ToolMark | EndMark | Content

  /** A trimmed fragment compared for exact equality with each marker. */
  function TokenOf(st: string): (t: Token)
    ensures t == Content <==> !IsMarker(st)
  {
    if st == ">" then CommandMark
    else if st == "!" then FriendlyMark
    else if st == "#" then ToolMark
    else if st == "END" then EndMark
    else Content
  }

  /** What the loop makes of a fragment: its trimmed text's token. */
  function Classify(text: string): Token {
    TokenOf(Trim(text))
  }

  /** A fragment is content exactly when its trimmed text is no marker, and
      each marker token comes from exactly its own trimmed text. */
  lemma ClassifyIsTrimmedMatch(text: string)
    ensures Classify(text) == Content <==> !IsMarker(Trim(text))
    ensures Classify(text) == CommandMark <==> Trim(text) == ">"
    ensures Classify(text) == FriendlyMark <==> Trim(text) == "!"
    ensures Classify(text) == ToolMark <==> Trim(text) == "#"
    ensures Classify(text) == EndMark <==> Trim(text) == "END"
  {
  }

  /** A marker surrounded by white space is still that marker: `" END\n"`
      ends the reply just as `"END"` does. */
  lemma {:induction false} PaddedMarker(a: string, m: string, b: string)
    requires IsBlank(a) && IsBlank(b) && IsMarker(m)
    ensures Classify(a + m + b) == TokenOf(m) != Content
  {
    assert m != [] && !IsWhiteSpace(m[0]) && !IsWhiteSpace(m[|m| - 1]);
    TrimOfPadded(a, m, b);
  }

  /** The effect of one delivered fragment. */
  function Step(s: Scan, text: string): (r: Scan)
    // every fragment is appended untrimmed to the raw transcript
    ensures r.transcript == s.transcript + text
    // `>` is recognised in any mode, starts the command, keeps the sub-mode
    ensures Classify(text) == CommandMark ==>
      r == s.(transcript := r.transcript, startCommand := true, validResponseStart := true)
    // after the command start, `!`, `#` and `END` select exactly one mode
    ensures InCommand(s) && Classify(text) == FriendlyMark ==>
      r.startFriendlyMessage && !r.startTool && !r.startEnding
    ensures InCommand(s) && Classify(text) == ToolMark ==>
      !r.startFriendlyMessage && r.startTool && !r.startEnding
    ensures InCommand(s) && Classify(text) == EndMark ==>
      !r.startFriendlyMessage && !r.startTool && r.startEnding
    // a marker is never content, and `END` itself does not cancel
    ensures Classify(text) != Content ==>
      r.friendly == s.friendly && r.toolJson == s.toolJson && r.cancelled == s.cancelled
    // content leaves the flags alone and goes to the buffer of the current mode
    ensures Classify(text) == Content ==>
      && r.(transcript := s.transcript, friendly := s.friendly, toolJson := s.toolJson, cancelled := s.cancelled) == s
      && r.friendly == (if InCommand(s) && s.startFriendlyMessage then s.friendly + text else s.friendly)
      && r.toolJson == (if InCommand(s) && s.startTool then s.toolJson + text else s.toolJson)
      && r.cancelled == (s.cancelled || (InCommand(s) && s.startEnding))
    // outside a command nothing but the transcript changes, except a start marker
    ensures !InCommand(s) && Classify(text) != CommandMark ==> r == s.(transcript := r.transcript)
  {
    var t := Classify(text);
    var s1 := s.(transcript := s.transcript + text);
    if t == CommandMark then
      s1.(startCommand := true, validResponseStart := true)
    else if InCommand(s1) && t == FriendlyMark then
      s1.(startFriendlyMessage := true, startTool := false, startEnding := false)
    else if InCommand(s1) && t == ToolMark then
      s1.(startTool := true, startFriendlyMessage := false, startEnding := false)
    else if InCommand(s1) && t == EndMark then
      s1.(startEnding := true, startFriendlyMessage := false, startTool := false)
    else
      s1.(friendly := if InCommand(s1) && s1.startFriendlyMessage then s1.friendly + text else s1.friendly,
          toolJson := if InCommand(s1) && s1.startTool then s1.toolJson + text else s1.toolJson,
          cancelled := if InCommand(s1) && s1.startEnding then true else s1.cancelled)
  }

  /** A fragment offered to the loop: consumed unless cancellation was requested. */
  function Feed(s: Scan, text: string): Scan {
    if s.cancelled then s else Step(s, text)
  }

  /** The state once the engine has offered the first `n` of the fragments `fs`. */
  function After(fs: seq<string>, n: nat): Scan
    requires n <= |fs|
  {
    if n == 0 then Initial else Feed(After(fs, n - 1), fs[n - 1])
  }

  /** The state once the engine has offered all the fragments. */
  function Consume(fs: seq<string>): Scan {
    After(fs, |fs|)
  }

  /** How many of the first `n` fragments the loop actually receives. */
  function Delivered(fs: seq<string>, n: nat): (d: nat)
    requires n <= |fs|
    ensures d <= n
  {
    if n == 0 then 0
    else if After(fs, n - 1).cancelled then Delivered(fs, n - 1)
    else n
  }

  /** The state invariant of the loop. */
  predicate Coherent(s: Scan) {
    && AtMostOneMode(s)
    && s.startCommand == s.validResponseStart
    && (!s.startCommand ==>
          && !s.startFriendlyMessage && !s.startTool && !s.startEnding
          && s.friendly == "" && s.toolJson == "" && !s.cancelled)
    && (s.cancelled ==> s.startEnding)
  }

  /** The fragments after the `n`-th do not affect the state after `n`. */
  lemma {:induction false} AfterPrefix(fs: seq<string>, more: seq<string>, n: nat)
    requires n <= |fs|
    ensures After(fs + more, n) == After(fs, n)
  {
    if n > 0 {
      AfterPrefix(fs, more, n - 1);
      assert (fs + more)[n - 1] == fs[n - 1];
    }
  }

  /** Once cancellation has been requested, later fragments change nothing. */
  lemma {:induction false} CancelledIsFinal(fs: seq<string>, n: nat, m: nat)
    requires n <= m <= |fs| && After(fs, n).cancelled
    ensures After(fs, m) == After(fs, n)
    decreases m
  {
    if m > n {
      CancelledIsFinal(fs, n, m - 1);
    }
  }

  /** The raw transcript is exactly the delivered fragments, untrimmed and in
      arrival order; fewer than offered are delivered only after a cancellation. */
  lemma {:induction false} TranscriptIsDelivered(fs: seq<string>, n: nat)
    requires n <= |fs|
    ensures After(fs, n).transcript == Concat(fs[..Delivered(fs, n)])
    ensures Delivered(fs, n) < n ==> After(fs, n).cancelled
  {
    if n > 0 {
      TranscriptIsDelivered(fs, n - 1);
      if !After(fs, n - 1).cancelled {
        ConcatTake(fs, n - 1);
      }
    }
  }

  /** Cancellation is requested by the last delivered fragment: the state
      before it is not cancelled, the state after it is. */
  lemma {:induction false} CancelIsLastDelivered(fs: seq<string>, n: nat)
    requires n <= |fs| && After(fs, n).cancelled
    ensures 0 < Delivered(fs, n)
    ensures !After(fs, Delivered(fs, n) - 1).cancelled
    ensures After(fs, Delivered(fs, n)).cancelled
  {
    if After(fs, n - 1).cancelled {
      CancelIsLastDelivered(fs, n - 1);
    }
  }

  /** The fragment that requests cancellation is content that arrived while
      the command was in ending mode. */
  lemma CancelCause(fs: seq<string>, n: nat)
    requires n <= |fs| && After(fs, n).cancelled
    ensures 0 < Delivered(fs, n)
    ensures var before := After(fs, Delivered(fs, n) - 1);
      && !before.cancelled && InCommand(before) && before.startEnding
      && !IsMarker(Trim(fs[Delivered(fs, n) - 1]))
  {
    CancelIsLastDelivered(fs, n);
    ClassifyIsTrimmedMatch(fs[Delivered(fs, n) - 1]);
  }

  /** Until a fragment trims to `>`, no fragment reaches the friendly text or
      the tool JSON and nothing is cancelled. */
  lemma {:induction false} NoStartMarker(fs: seq<string>, n: nat)
    requires n <= |fs|
    requires forall k :: 0 <= k < n ==> Trim(fs[k]) != ">"
    ensures After(fs, n) == Initial.(transcript := Concat(fs[..n]))
  {
    if n > 0 {
      NoStartMarker(fs, n - 1);
      ClassifyIsTrimmedMatch(fs[n - 1]);
      ConcatTake(fs, n - 1);
    }
  }

  /** One fragment keeps the loop state coherent, and appends to each buffer
      at most what it appends to the raw transcript. */
  lemma FeedWithinTranscript(s: Scan, text: string)
    requires Coherent(s) && |s.friendly| + |s.toolJson| <= |s.transcript|
    ensures Coherent(Feed(s, text))
    ensures |Feed(s, text).friendly| + |Feed(s, text).toolJson| <= |Feed(s, text).transcript|
  {
  }

  /** A fragment lengthens at most one of the friendly text and the tool
      JSON: the friendly and tool modes are never on together. */
  lemma AtMostOneBufferGrows(s: Scan, text: string)
    requires Coherent(s)
    ensures Feed(s, text).friendly == s.friendly || Feed(s, text).toolJson == s.toolJson
  {
  }

  /** The friendly text and the tool JSON together never exceed the raw transcript. */
  lemma {:induction false} BuffersWithinTranscript(fs: seq<string>, n: nat)
    requires n <= |fs|
    ensures Coherent(After(fs, n))
    ensures |After(fs, n).friendly| + |After(fs, n).toolJson| <= |After(fs, n).transcript|
  {
    if n > 0 {
      BuffersWithinTranscript(fs, n - 1);
      FeedWithinTranscript(After(fs, n - 1), fs[n - 1]);
    }
  }

  /** `!` then content, inside a command: the content is friendly text. */
  lemma SayThenContent(s: Scan, say: string, text: string)
    requires InCommand(s) && !s.cancelled
    requires Classify(say) == FriendlyMark && Classify(text) == Content
    ensures var r := Feed(Feed(s, say), text);
      && InCommand(r) && r.startFriendlyMessage && !r.startTool && !r.startEnding && !r.cancelled
      && r.friendly == s.friendly + text && r.toolJson == s.toolJson
  {
  }

  /** `#` then content, inside a command: the content is tool JSON. */
  lemma CallThenContent(s: Scan, call: string, payload: string)
    requires InCommand(s) && !s.cancelled
    requires Classify(call) == ToolMark && Classify(payload) == Content
    ensures var r := Feed(Feed(s, call), payload);
      && InCommand(r) && !r.startFriendlyMessage && r.startTool && !r.startEnding && !r.cancelled
      && r.friendly == s.friendly && r.toolJson == s.toolJson + payload
  {
  }

  /** The canonical reply, as tokens: command start, friendly mark, content,
      tool mark, content, end mark. */
  lemma CanonicalTokens(fs: seq<string>)
    requires |fs| == 6
    requires Classify(fs[0]) == CommandMark && Classify(fs[1]) == FriendlyMark
    requires Classify(fs[2]) == Content && Classify(fs[3]) == ToolMark
    requires Classify(fs[4]) == Content && Classify(fs[5]) == EndMark
    ensures Consume(fs).friendly == fs[2] && Consume(fs).toolJson == fs[4]
    ensures !Consume(fs).cancelled && Consume(fs).startEnding
  {
    assert After(fs, 0) == Initial;
    var s1 := After(fs, 1);
    assert s1 == Step(Initial, fs[0]);
    assert InCommand(s1) && s1.friendly == "" && s1.toolJson == "" && !s1.cancelled;
    SayThenContent(s1, fs[1], fs[2]);
    assert After(fs, 2) == Feed(s1, fs[1]);
    var s3 := After(fs, 3);
    assert s3 == Feed(Feed(s1, fs[1]), fs[2]);
    CallThenContent(s3, fs[3], fs[4]);
    assert After(fs, 4) == Feed(s3, fs[3]);
    var s5 := After(fs, 5);
    assert s5 == Feed(Feed(s3, fs[3]), fs[4]);
    assert After(fs, 6) == Feed(s5, fs[5]);
  }

  /** The canonical reply, one marker or payload per fragment — a fragment
      trimming to `>`, one to `!`, the text, one to `#`, the payload, one to
      `END` — leaves the text as friendly text and the payload as tool JSON,
      and is not cancelled. */
  lemma CanonicalReply(open: string, say: string, text: string, call: string, payload: string, end: string)
    requires Trim(open) == ">" && Trim(say) == "!" && Trim(call) == "#" && Trim(end) == "END"
    requires !IsMarker(Trim(text)) && !IsMarker(Trim(payload))
    ensures var fs := [open, say, text, call, payload, end];
      && Consume(fs).friendly == text
      && Consume(fs).toolJson == payload
      && !Consume(fs).cancelled
      && Consume(fs).startEnding
  {
    ClassifyIsTrimmedMatch(open);
    ClassifyIsTrimmedMatch(say);
    ClassifyIsTrimmedMatch(text);
    ClassifyIsTrimmedMatch(call);
    ClassifyIsTrimmedMatch(payload);
    ClassifyIsTrimmedMatch(end);
    CanonicalTokens([open, say, text, call, payload, end]);
  }
}
