/** The token count a streamed message reports in `message_delta`. */
module Usage {
  import opened Text
  import opened Translator
  import opened EventGrammar

  /** Thinking and text deltas weigh one; tool arguments are counted by the chunk instead. */
  function Weight(e: Event): nat { if e.BlockDelta? && e.kind != ToolUse then 1 else 0 }

  function CountText(log: seq<Event>): nat {
    if log == [] then 0 else CountText(log[..|log| - 1]) + Weight(log[|log| - 1])
  }

  predicate CarriesTools(parse: string -> Chunk, payload: string) {
    && !IsDone(payload) && Trim(payload) != ""
    && parse(Trim(payload)).Delta? && parse(Trim(payload)).tools != []
  }

  function ToolPayloads(parse: string -> Chunk, payloads: seq<string>): nat {
    if payloads == [] then 0
    else
      ToolPayloads(parse, payloads[..|payloads| - 1])
      + if CarriesTools(parse, payloads[|payloads| - 1]) then 1 else 0
  }

  lemma {:induction false} CountTextAppend(p: seq<Event>, q: seq<Event>)
    ensures CountText(p + q) == CountText(p) + CountText(q)
  {
    if q == [] {
      assert p + q == p;
    } else {
      assert (p + q)[..|p + q| - 1] == p + q[..|q| - 1];
      CountTextAppend(p, q[..|q| - 1]);
    }
  }

  lemma {:induction false} NoText(log: seq<Event>)
    requires forall i :: 0 <= i < |log| ==> Weight(log[i]) == 0
    ensures CountText(log) == 0
  {
    if log != [] { NoText(log[..|log| - 1]); }
  }

  lemma OpenBlockWeighsNothing(st: State, kind: Kind, id: string, name: string)
    ensures var o := OpenBlock(st, kind, id, name);
            && o.state.outputTokens == st.outputTokens
            && |o.events| <= 2 && forall i :: 0 <= i < |o.events| ==> !o.events[i].BlockDelta?
  {
  }

  lemma LastWeight(before: seq<Event>, e: Event)
    requires forall i :: 0 <= i < |before| ==> !before[i].BlockDelta?
    ensures CountText(before) == 0 && CountText(before + [e]) == Weight(e)
  {
    NoText(before);
    assert (before + [e])[..|before|] == before;
  }

  lemma OneTextDelta(o: Outcome, kind: Kind, text: string)
    requires kind != ToolUse && forall i :: 0 <= i < |o.events| ==> !o.events[i].BlockDelta?
    ensures CountText(o.events + [BlockDelta(o.state.blockIndex, kind, text)]) == 1
  {
    LastWeight(o.events, BlockDelta(o.state.blockIndex, kind, text));
  }

  lemma EmitTextCounts(st: State, kind: Kind, text: string)
    requires kind != ToolUse
    ensures EmitText(st, kind, text).state.outputTokens == st.outputTokens + CountText(EmitText(st, kind, text).events)
  {
    hide OpenBlock, CountText;
    NoText([]);
    if text != "" {
      var counted := st.(outputTokens := st.outputTokens + 1);
      OpenBlockWeighsNothing(counted, kind, "", "");
      OneTextDelta(OpenBlock(counted, kind, "", ""), kind, text);
    }
  }

  lemma EmitCallCounts(st: State, item: ToolItem)
    ensures EmitCall(st, item).state.outputTokens == st.outputTokens
    ensures CountText(EmitCall(st, item).events) == 0
  {
    if item.Call? {
      var o := OpenBlock(st, ToolUse, item.id, item.name);
      OpenBlockWeighsNothing(st, ToolUse, item.id, item.name);
      LastWeight(o.events, BlockDelta(o.state.blockIndex, ToolUse, item.arguments));
    }
  }

  lemma {:induction false} EmitCallsCount(st: State, items: seq<ToolItem>)
    ensures EmitCalls(st, items).state.outputTokens == st.outputTokens
    ensures CountText(EmitCalls(st, items).events) == 0
  {
    if items != [] {
      var before := EmitCalls(st, items[..|items| - 1]);
      var last := EmitCall(before.state, items[|items| - 1]);
      EmitCallsCount(st, items[..|items| - 1]);
      EmitCallCounts(before.state, items[|items| - 1]);
      CountTextAppend(before.events, last.events);
    }
  }

  lemma EmitToolsCount(st: State, items: seq<ToolItem>)
    ensures EmitTools(st, items).state.outputTokens == st.outputTokens + if items != [] then 1 else 0
    ensures CountText(EmitTools(st, items).events) == 0
  {
    hide EmitCalls, CountText;
    NoText([]);
    if items != [] { EmitCallsCount(st.(outputTokens := st.outputTokens + 1), items); }
  }

  lemma ApplyCounts(st: State, chunk: Chunk)
    ensures Apply(st, chunk).state.outputTokens
            == st.outputTokens + CountText(Apply(st, chunk).events) + (if chunk.Delta? && chunk.tools != [] then 1 else 0)
  {
    var o := StartMessage(st);
    NoText(o.events);
    if chunk.Delta? {
      hide SplitThinkTags, EmitText, EmitTools, CountText;
      var split := SplitThinkTags(o.state.inThinkTag, chunk.reasoning, chunk.content);
      var s := o.state.(inThinkTag := split.inThinkTag);
      var p := EmitText(s, Thinking, split.reasoning);
      var q := EmitText(p.state, PlainText, split.content);
      var r := EmitTools(q.state, chunk.tools);
      EmitTextCounts(s, Thinking, split.reasoning);
      EmitTextCounts(p.state, PlainText, split.content);
      EmitToolsCount(q.state, chunk.tools);
      CountTextAppend(o.events, p.events);
      CountTextAppend(o.events + p.events, q.events);
      CountTextAppend(o.events + p.events + q.events, r.events);
    }
  }

  lemma StepCounts(parse: string -> Chunk, st: State, payload: string)
    ensures var o := Translator.Step(parse, st, payload);
            o.state.outputTokens == st.outputTokens + CountText(o.events) + (if CarriesTools(parse, payload) then 1 else 0)
  {
    if IsDone(payload) {
      NoText(Finish(st).events);
    } else if Trim(payload) != "" {
      ApplyCounts(st, parse(Trim(payload)));
    }
  }

  /** After any payloads, the usage is one for each thinking or text delta sent and one for each payload that
      carried tool calls. */
  lemma {:induction false} TokensAreDeltas(parse: string -> Chunk, payloads: seq<string>)
    ensures var o := Run(parse, payloads);
            o.state.outputTokens == CountText(o.events) + ToolPayloads(parse, payloads)
  {
    if payloads != [] {
      var n := |payloads| - 1;
      var before := Run(parse, payloads[..n]);
      TokensAreDeltas(parse, payloads[..n]);
      StepCounts(parse, before.state, payloads[n]);
      CountTextAppend(before.events, Translator.Step(parse, before.state, payloads[n]).events);
    }
  }
}
