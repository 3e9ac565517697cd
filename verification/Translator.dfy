/** The OpenAI-to-Anthropic stream translator of `pkg/proxy/messages_translator.go`.

    `Step` is the state machine on values; the class below runs it on mutable fields and
    returns the printed events.  JSON parsing and JSON string quoting are parameters. */
module Translator {
  import opened Wrappers
  import opened Text
  import opened Sse

  // ---------- chunks and events ----------

  datatype Kind = Thinking | PlainText | ToolUse

  /** One entry of `tool_calls`: without a function object it is skipped. */
  datatype ToolItem = NotAFunction | Call(id: string, name: string, arguments: string)

  /** What `json.Unmarshal` and the type switches make of one payload: `NoDelta` is a JSON object
      without a usable first choice; missing strings and tool lists are empty. */
  datatype Chunk = Bad | NoDelta | Delta(reasoning: string, content: string, tools: seq<ToolItem>)

  datatype Event =
    | MessageStart
    | BlockStart(index: nat, kind: Kind, id: string, name: string)
    | BlockDelta(index: nat, kind: Kind, text: string)
    | BlockStop(index: nat)
    | MessageDelta(outputTokens: nat)
    | MessageStop

  const DONE := "[DONE]"
  const THINK_OPEN := "<think>"
  const THINK_CLOSE := "</think>"

  // ---------- the state machine ----------

  datatype State = State(messageStarted: bool, currentBlock: Option<Kind>, blockIndex: nat,
                         inThinkTag: bool, outputTokens: nat, doneEmitted: bool)

  const INITIAL := State(false, None, 0, false, 0, false)

  datatype Outcome = Outcome(state: State, events: seq<Event>)

  /** The terminal events, once. */
  function Finish(st: State): Outcome {
    if st.doneEmitted then Outcome(st, [])
    else Outcome(st.(doneEmitted := true, currentBlock := None),
                 (if st.currentBlock.Some? then [BlockStop(st.blockIndex)] else [])
                 + [MessageDelta(st.outputTokens), MessageStop])
  }

  function StartMessage(st: State): Outcome {
    if st.messageStarted then Outcome(st, [])
    else Outcome(st.(messageStarted := true), [MessageStart])
  }

  /** Makes `kind` the open block, closing a block of another kind first. */
  function OpenBlock(st: State, kind: Kind, id: string, name: string): Outcome {
    if st.currentBlock == Some(kind) then Outcome(st, [])
    else if st.currentBlock.Some? then
      Outcome(st.(currentBlock := Some(kind), blockIndex := st.blockIndex + 1),
              [BlockStop(st.blockIndex), BlockStart(st.blockIndex + 1, kind, id, name)])
    else
      Outcome(st.(currentBlock := Some(kind)), [BlockStart(st.blockIndex, kind, id, name)])
  }

  /** One non-empty thinking or text delta. */
  function EmitText(st: State, kind: Kind, text: string): Outcome {
    if text == "" then Outcome(st, [])
    else
      var o := OpenBlock(st.(outputTokens := st.outputTokens + 1), kind, "", "");
      Outcome(o.state, o.events + [BlockDelta(o.state.blockIndex, kind, text)])
  }

  function EmitCall(st: State, item: ToolItem): Outcome {
    if item.NotAFunction? then Outcome(st, [])
    else
      var o := OpenBlock(st, ToolUse, item.id, item.name);
      if item.arguments == "" then o
      else Outcome(o.state, o.events + [BlockDelta(o.state.blockIndex, ToolUse, item.arguments)])
  }

  function EmitCalls(st: State, items: seq<ToolItem>): Outcome {
    if items == [] then Outcome(st, [])
    else
      var before := EmitCalls(st, items[..|items| - 1]);
      var last := EmitCall(before.state, items[|items| - 1]);
      Outcome(last.state, before.events + last.events)
  }

  function EmitTools(st: State, items: seq<ToolItem>): Outcome {
    if items == [] then Outcome(st, []) else EmitCalls(st.(outputTokens := st.outputTokens + 1), items)
  }

  datatype Split = Split(inThinkTag: bool, reasoning: string, content: string)

  /** `strings.Replace(s, pat, "", 1)`. */
  function RemoveFirst(s: string, pat: string): string {
    var k := Index(s, pat);
    if k < 0 then s else s[..k] + s[k + |pat|..]
  }

  /** The fallback that finds raw think tags in the content delta. */
  function SplitThinkTags(inThinkTag: bool, reasoning: string, content: string): Split {
    if reasoning != "" || content == "" then Split(inThinkTag, reasoning, content)
    else
      var opens := Contains(content, THINK_OPEN);
      var body := if opens then RemoveFirst(content, THINK_OPEN) else content;
      if !(inThinkTag || opens) then Split(inThinkTag, reasoning, body)
      else
        var k := Index(body, THINK_CLOSE);
        if k < 0 then Split(true, body, "")
        else Split(false, body[..k], body[k + |THINK_CLOSE|..])
  }

  function Apply(st: State, chunk: Chunk): Outcome {
    if chunk.Bad? then Outcome(st, [])
    else
      var o := StartMessage(st);
      if chunk.NoDelta? then o
      else
        var split := SplitThinkTags(o.state.inThinkTag, chunk.reasoning, chunk.content);
        var p := EmitText(o.state.(inThinkTag := split.inThinkTag), Thinking, split.reasoning);
        var q := EmitText(p.state, PlainText, split.content);
        var r := EmitTools(q.state, chunk.tools);
        Outcome(r.state, o.events + p.events + q.events + r.events)
  }

  /** `ProcessOpenAIChunk` on values. */
  function Step(parse: string -> Chunk, st: State, payload: string): Outcome {
    var trimmed := Trim(payload);
    if trimmed == DONE then Finish(st)
    else if trimmed == "" then Outcome(st, [])
    else Apply(st, parse(trimmed))
  }

  // ---------- printing ----------

  /** `encoding/json` as the translator uses it, and the two names it prints. */
  datatype Env = Env(parse: string -> Chunk, quote: string -> string, msgID: string, model: string) {
    /** A quoted JSON string never holds a raw line break. */
    ghost predicate Lawful() {
      forall s {:trigger quote(s)} :: OneLine(quote(s))
    }
  }

  function TypeName(e: Event): string {
    match e
    case MessageStart => "message_start"
    case BlockStart(_, _, _, _) => "content_block_start"
    case BlockDelta(_, _, _) => "content_block_delta"
    case BlockStop(_) => "content_block_stop"
    case MessageDelta(_) => "message_delta"
    case MessageStop => "message_stop"
  }

  /** A JSON string that needs no escape. */
  function Word(s: string): string { "\"" + s + "\"" }

  function Pair(key: string, value: string): string { Word(key) + ":" + value }

  /** A JSON object with its pairs in the order given. */
  function Object(pairs: seq<string>): string { "{" + Join(pairs, ",") + "}" }

  function BlockPairs(env: Env, kind: Kind, id: string, name: string): seq<string> {
    match kind
    case Thinking => [Pair("thinking", Word("")), Pair("type", Word("thinking"))]
    case PlainText => [Pair("text", Word("")), Pair("type", Word("text"))]
    case ToolUse => [Pair("id", env.quote(id)), Pair("input", "{}"), Pair("name", env.quote(name)),
                     Pair("type", Word("tool_use"))]
  }

  function DeltaPairs(env: Env, kind: Kind, text: string): seq<string> {
    match kind
    case Thinking => [Pair("thinking", env.quote(text)), Pair("type", Word("thinking_delta"))]
    case PlainText => [Pair("text", env.quote(text)), Pair("type", Word("text_delta"))]
    case ToolUse => [Pair("partial_json", env.quote(text)), Pair("type", Word("input_json_delta"))]
  }

  function MessagePairs(env: Env): seq<string> {
    [Pair("content", "[]"), Pair("id", env.quote(env.msgID)), Pair("model", env.quote(env.model)),
     Pair("role", Word("assistant")), Pair("stop_reason", "null"), Pair("stop_sequence", "null"),
     Pair("type", Word("message")),
     Pair("usage", Object([Pair("input_tokens", Dec(0)), Pair("output_tokens", Dec(1))]))]
  }

  /** The pairs of an event's data; marshalled maps have their keys in sorted order. */
  function DataPairs(env: Env, e: Event): seq<string> {
    match e
    case MessageStart =>
      [Pair("message", Object(MessagePairs(env))), Pair("type", Word(TypeName(e)))]
    case BlockStart(index, kind, id, name) =>
      [Pair("content_block", Object(BlockPairs(env, kind, id, name))), Pair("index", Dec(index)),
       Pair("type", Word(TypeName(e)))]
    case BlockDelta(index, kind, text) =>
      [Pair("delta", Object(DeltaPairs(env, kind, text))), Pair("index", Dec(index)), Pair("type", Word(TypeName(e)))]
    case BlockStop(index) =>
      [Pair("type", Word(TypeName(e))), Pair("index", Dec(index))]
    case MessageDelta(outputTokens) =>
      [Pair("type", Word(TypeName(e))),
       Pair("delta", Object([Pair("stop_reason", Word("end_turn")), Pair("stop_sequence", "null")])),
       Pair("usage", Object([Pair("output_tokens", Dec(outputTokens))]))]
    case MessageStop =>
      [Pair("type", Word(TypeName(e)))]
  }

  function Data(env: Env, e: Event): string {
    Object(DataPairs(env, e))
  }

  /** The SSE text of one event. */
  function Print(env: Env, e: Event): string {
    EventText(TypeName(e), Data(env, e))
  }

  function PrintAll(env: Env, events: seq<Event>): seq<string> {
    seq(|events|, i requires 0 <= i < |events| => Print(env, events[i]))
  }

  lemma OneLineDec(n: nat)
    ensures OneLine(Dec(n))
  {
    assert Digits(Dec(n));
  }

  predicate AllOneLine(lines: seq<string>) {
    forall i :: 0 <= i < |lines| ==> OneLine(lines[i])
  }

  lemma OneLineWord(s: string)
    requires OneLine(s)
    ensures OneLine(Word(s))
  {
  }

  lemma OneLinePair(key: string, value: string)
    requires OneLine(key) && OneLine(value)
    ensures OneLine(Pair(key, value))
  {
  }

  lemma {:induction false} OneLineJoin(lines: seq<string>)
    requires AllOneLine(lines)
    ensures OneLine(Join(lines, ","))
  {
    if |lines| > 1 { OneLineJoin(lines[1..]); }
  }

  lemma OneLineObject(pairs: seq<string>)
    requires AllOneLine(pairs)
    ensures OneLine(Object(pairs)) && Solid(Object(pairs))
  {
    OneLineJoin(pairs);
    var o := Object(pairs);
    assert o[0] == '{' && o[|o| - 1] == '}';
  }

  lemma TypeNameIsClean(e: Event)
    ensures OneLine(TypeName(e)) && Solid(TypeName(e))
  {
  }

  lemma BlockObjectOneLine(env: Env, kind: Kind, id: string, name: string)
    requires env.Lawful()
    ensures OneLine(Object(BlockPairs(env, kind, id, name)))
  {
    assert OneLine(env.quote(id)) && OneLine(env.quote(name));
    OneLineObject(BlockPairs(env, kind, id, name));
  }

  lemma DeltaObjectOneLine(env: Env, kind: Kind, text: string)
    requires env.Lawful()
    ensures OneLine(Object(DeltaPairs(env, kind, text)))
  {
    assert OneLine(env.quote(text));
    OneLineObject(DeltaPairs(env, kind, text));
  }

  lemma MessageObjectOneLine(env: Env)
    requires env.Lawful()
    ensures OneLine(Object(MessagePairs(env)))
  {
    hide Object, Dec;
    assert OneLine(env.quote(env.msgID)) && OneLine(env.quote(env.model));
    StartUsageOneLine();
    OneLineObject(MessagePairs(env));
  }

  lemma StartUsageOneLine()
    ensures OneLine(Object([Pair("input_tokens", Dec(0)), Pair("output_tokens", Dec(1))]))
  {
    OneLineDec(0);
    OneLineDec(1);
    OneLineObject([Pair("input_tokens", Dec(0)), Pair("output_tokens", Dec(1))]);
  }

  lemma TypePairOneLine(e: Event)
    ensures OneLine(Pair("type", Word(TypeName(e))))
  {
    TypeNameIsClean(e);
    OneLineWord(TypeName(e));
    OneLinePair("type", Word(TypeName(e)));
  }

  lemma UsageOneLine(n: nat)
    ensures OneLine(Object([Pair("output_tokens", Dec(n))]))
  {
    OneLineDec(n);
    OneLineObject([Pair("output_tokens", Dec(n))]);
  }

  lemma StopReasonOneLine()
    ensures OneLine(Object([Pair("stop_reason", Word("end_turn")), Pair("stop_sequence", "null")]))
  {
    OneLineObject([Pair("stop_reason", Word("end_turn")), Pair("stop_sequence", "null")]);
  }

  lemma DataPairsOneLine(env: Env, e: Event)
    requires env.Lawful()
    ensures AllOneLine(DataPairs(env, e))
  {
    TypePairOneLine(e);
    match e
    case MessageStart =>
      MessageObjectOneLine(env);
      OneLinePair("message", Object(MessagePairs(env)));
    case BlockStart(index, kind, id, name) =>
      BlockObjectOneLine(env, kind, id, name);
      OneLinePair("content_block", Object(BlockPairs(env, kind, id, name)));
      OneLineDec(index);
      OneLinePair("index", Dec(index));
    case BlockDelta(index, kind, text) =>
      DeltaObjectOneLine(env, kind, text);
      OneLinePair("delta", Object(DeltaPairs(env, kind, text)));
      OneLineDec(index);
      OneLinePair("index", Dec(index));
    case BlockStop(index) =>
      OneLineDec(index);
      OneLinePair("index", Dec(index));
    case MessageDelta(outputTokens) =>
      UsageOneLine(outputTokens);
      StopReasonOneLine();
      OneLinePair("usage", Object([Pair("output_tokens", Dec(outputTokens))]));
      OneLinePair("delta", Object([Pair("stop_reason", Word("end_turn")), Pair("stop_sequence", "null")]));
    case MessageStop =>
  }

  /** Every printed event is one type line and one data line that survive trimming. */
  lemma PrintedEventIsClean(env: Env, e: Event)
    requires env.Lawful()
    ensures OneLine(TypeName(e)) && Solid(TypeName(e))
    ensures OneLine(Data(env, e)) && Solid(Data(env, e))
  {
    TypeNameIsClean(e);
    DataPairsOneLine(env, e);
    OneLineObject(DataPairs(env, e));
  }

  lemma PrintAllAppend(env: Env, p: seq<Event>, q: seq<Event>)
    ensures PrintAll(env, p + q) == PrintAll(env, p) + PrintAll(env, q)
  {
  }

  lemma PrintAllSnoc(env: Env, p: seq<Event>, e: Event)
    ensures PrintAll(env, p + [e]) == PrintAll(env, p) + [Print(env, e)]
  {
  }

  // ---------- the translator object ----------

  class AnthropicStreamTranslator {
    const env: Env
    var messageStarted: bool
    var currentBlock: Option<Kind>
    var blockIndex: nat
    var inThinkTag: bool
    var outputTokens: nat
    var doneEmitted: bool

    function Now(): State
      reads this
    {
      State(messageStarted, currentBlock, blockIndex, inThinkTag, outputTokens, doneEmitted)
    }

    constructor (env: Env)
      ensures this.env == env && Now() == INITIAL
    {
      this.env := env;
      messageStarted, currentBlock, blockIndex := false, None, 0;
      inThinkTag, outputTokens, doneEmitted := false, 0, false;
    }

    method IsDone() returns (done: bool)
      ensures done == Now().doneEmitted
    {
      return doneEmitted;
    }

    method SwitchBlock(kind: Kind, id: string, name: string) returns (events: seq<string>)
      modifies this
      ensures var o := OpenBlock(old(Now()), kind, id, name);
              Now() == o.state && events == PrintAll(env, o.events)
    {
      events := [];
      if currentBlock != Some(kind) {
        if currentBlock.Some? {
          events := events + [Print(env, BlockStop(blockIndex))];
          blockIndex := blockIndex + 1;
        }
        currentBlock := Some(kind);
        events := events + [Print(env, BlockStart(blockIndex, kind, id, name))];
      }
    }

    method EmitDelta(kind: Kind, text: string) returns (events: seq<string>)
      modifies this
      ensures var o := EmitText(old(Now()), kind, text);
              Now() == o.state && events == PrintAll(env, o.events)
    {
      events := [];
      if text != "" {
        outputTokens := outputTokens + 1;
        ghost var o := OpenBlock(Now(), kind, "", "");
        events := SwitchBlock(kind, "", "");
        PrintAllSnoc(env, o.events, BlockDelta(blockIndex, kind, text));
        events := events + [Print(env, BlockDelta(blockIndex, kind, text))];
      }
    }

    method EmitToolCall(item: ToolItem) returns (events: seq<string>)
      modifies this
      ensures var o := EmitCall(old(Now()), item);
              Now() == o.state && events == PrintAll(env, o.events)
    {
      events := [];
      if item.Call? {
        ghost var o := OpenBlock(Now(), ToolUse, item.id, item.name);
        events := SwitchBlock(ToolUse, item.id, item.name);
        PrintAllSnoc(env, o.events, BlockDelta(blockIndex, ToolUse, item.arguments));
        if item.arguments != "" {
          events := events + [Print(env, BlockDelta(blockIndex, ToolUse, item.arguments))];
        }
      }
    }

    method EmitToolCalls(items: seq<ToolItem>) returns (events: seq<string>)
      modifies this
      ensures var o := EmitTools(old(Now()), items);
              Now() == o.state && events == PrintAll(env, o.events)
    {
      events := [];
      if |items| == 0 { return; }
      outputTokens := outputTokens + 1;
      ghost var st := Now();
      for i := 0 to |items|
        invariant Now() == EmitCalls(st, items[..i]).state
        invariant events == PrintAll(env, EmitCalls(st, items[..i]).events)
      {
        assert items[..i + 1][..i] == items[..i];
        ghost var before := Now();
        var more := EmitToolCall(items[i]);
        PrintAllAppend(env, EmitCalls(st, items[..i]).events, EmitCall(before, items[i]).events);
        events := events + more;
      }
      assert items[..|items|] == items;
    }

    method EmitDone() returns (events: seq<string>)
      modifies this
      ensures var o := Finish(old(Now()));
              Now() == o.state && events == PrintAll(env, o.events)
    {
      events := [];
      if doneEmitted { return; }
      doneEmitted := true;
      if currentBlock.Some? {
        events := events + [Print(env, BlockStop(blockIndex))];
        currentBlock := None;
      }
      events := events + [Print(env, MessageDelta(outputTokens))];
      events := events + [Print(env, MessageStop)];
    }

    /** The fallback for raw think tags in the content delta. */
    method TakeThinkTags(reasoning: string, content: string) returns (r: string, c: string)
      modifies this`inThinkTag
      ensures Split(inThinkTag, r, c) == SplitThinkTags(old(inThinkTag), reasoning, content)
    {
      r, c := reasoning, content;
      if reasoning == "" && content != "" {
        if Contains(c, THINK_OPEN) {
          inThinkTag := true;
          c := RemoveFirst(c, THINK_OPEN);
        }
        if inThinkTag {
          var k := Index(c, THINK_CLOSE);
          if k >= 0 {
            r, c := c[..k], c[k + |THINK_CLOSE|..];
            inThinkTag := false;
          } else {
            r, c := c, "";
          }
        }
      }
    }

    method EmitMessageStart() returns (events: seq<string>)
      modifies this`messageStarted
      ensures var o := StartMessage(old(Now()));
              Now() == o.state && events == PrintAll(env, o.events)
    {
      events := [];
      if !messageStarted {
        messageStarted := true;
        events := events + [Print(env, MessageStart)];
      }
    }

    /** One payload in, the printed events out. */
    method ProcessOpenAIChunk(payload: string) returns (events: seq<string>)
      modifies this
      ensures var o := Step(env.parse, old(Now()), payload);
              Now() == o.state && events == PrintAll(env, o.events)
    {
      var trimmed := Trim(payload);
      if trimmed == "" || trimmed == DONE {
        if trimmed == DONE {
          events := EmitDone();
          return;
        }
        return [];
      }
      var chunk := env.parse(trimmed);
      events := ProcessChunk(chunk);
    }

    /** The part of the above after the payload has been parsed. */
    method ProcessChunk(chunk: Chunk) returns (events: seq<string>)
      modifies this
      ensures var o := Apply(old(Now()), chunk);
              Now() == o.state && events == PrintAll(env, o.events)
    {
      if chunk.Bad? { return []; }
      ghost var o := StartMessage(Now());
      var start := EmitMessageStart();
      if chunk.NoDelta? { return start; }
      var reasoning, content := TakeThinkTags(chunk.reasoning, chunk.content);
      ghost var p := EmitText(Now(), Thinking, reasoning);
      var thinking := EmitDelta(Thinking, reasoning);
      ghost var q := EmitText(Now(), PlainText, content);
      var text := EmitDelta(PlainText, content);
      ghost var r := EmitTools(Now(), chunk.tools);
      var calls := EmitToolCalls(chunk.tools);
      PrintAllAppend(env, o.events, p.events);
      PrintAllAppend(env, o.events + p.events, q.events);
      PrintAllAppend(env, o.events + p.events + q.events, r.events);
      events := start + thinking + text + calls;
    }
  }
}
