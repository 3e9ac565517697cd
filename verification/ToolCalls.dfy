/** The tool blocks of a streamed message: whose identifiers and names they carry. */
module ToolCalls {
  import opened Wrappers
  import opened Text
  import opened Translator
  import opened EventGrammar

  datatype Named = Named(id: string, name: string)

  /** The identifier and name of every tool block that is started. */
  function ToolStarts(log: seq<Event>): seq<Named> {
    if log == [] then []
    else
      var e := log[|log| - 1];
      ToolStarts(log[..|log| - 1]) + if e.BlockStart? && e.kind == ToolUse then [Named(e.id, e.name)] else []
  }

  lemma {:induction false} ToolStartsAppend(p: seq<Event>, q: seq<Event>)
    ensures ToolStarts(p + q) == ToolStarts(p) + ToolStarts(q)
  {
    if q == [] {
      AppendEmpty(p);
      AppendEmpty(ToolStarts(p));
    } else {
      var n := |q| - 1;
      assert (p + q)[..|p + q| - 1] == p + q[..n];
      ToolStartsAppend(p, q[..n]);
      AppendAssoc(ToolStarts(p), ToolStarts(q[..n]),
                  if q[n].BlockStart? && q[n].kind == ToolUse then [Named(q[n].id, q[n].name)] else []);
    }
  }

  /** The first item that is a call. */
  function FirstCall(items: seq<ToolItem>): Option<Named> {
    if items == [] then None
    else
      var before, last := FirstCall(items[..|items| - 1]), items[|items| - 1];
      if before.Some? then before else if last.Call? then Some(Named(last.id, last.name)) else None
  }

  function AsList(n: Option<Named>): seq<Named> { if n.Some? then [n.value] else [] }

  lemma {:induction false} NoToolStarts(log: seq<Event>)
    requires forall i :: 0 <= i < |log| ==> !(log[i].BlockStart? && log[i].kind == ToolUse)
    ensures ToolStarts(log) == []
  {
    if log != [] { NoToolStarts(log[..|log| - 1]); }
  }

  lemma OpenStarts(st: State, kind: Kind, id: string, name: string)
    ensures ToolStarts(OpenBlock(st, kind, id, name).events)
            == if kind == ToolUse && st.currentBlock != Some(ToolUse) then [Named(id, name)] else []
    ensures OpenBlock(st, kind, id, name).state.currentBlock == Some(kind)
  {
    hide ToolStarts;
    var stop, next := BlockStop(st.blockIndex), BlockStart(st.blockIndex + 1, kind, id, name);
    NoToolStarts([]);
    OneStart(stop);
    OneStart(next);
    OneStart(BlockStart(st.blockIndex, kind, id, name));
    ToolStartsAppend([stop], [next]);
    assert [stop, next] == [stop] + [next];
  }

  lemma OneStart(e: Event)
    ensures ToolStarts([e]) == if e.BlockStart? && e.kind == ToolUse then [Named(e.id, e.name)] else []
  {
    assert [e][..0] == [];
  }

  lemma DeltaStartsNothing(log: seq<Event>, e: Event)
    requires e.BlockDelta?
    ensures ToolStarts(log + [e]) == ToolStarts(log)
  {
    assert (log + [e])[..|log|] == log;
    AppendEmpty(ToolStarts(log));
  }

  lemma TextStarts(st: State, kind: Kind, text: string)
    requires kind != ToolUse
    ensures ToolStarts(EmitText(st, kind, text).events) == []
    ensures EmitText(st, kind, text).state.currentBlock == if text == "" then st.currentBlock else Some(kind)
  {
    hide ToolStarts, OpenBlock;
    NoToolStarts([]);
    if text != "" {
      var o := OpenBlock(st.(outputTokens := st.outputTokens + 1), kind, "", "");
      OpenStarts(st.(outputTokens := st.outputTokens + 1), kind, "", "");
      DeltaStartsNothing(o.events, BlockDelta(o.state.blockIndex, kind, text));
    }
  }

  lemma CallStarts(st: State, item: ToolItem)
    ensures ToolStarts(EmitCall(st, item).events)
            == if item.Call? && st.currentBlock != Some(ToolUse) then [Named(item.id, item.name)] else []
    ensures EmitCall(st, item).state.currentBlock == if item.Call? then Some(ToolUse) else st.currentBlock
  {
    hide ToolStarts, OpenBlock;
    NoToolStarts([]);
    if item.Call? {
      var o := OpenBlock(st, ToolUse, item.id, item.name);
      OpenStarts(st, ToolUse, item.id, item.name);
      DeltaStartsNothing(o.events, BlockDelta(o.state.blockIndex, ToolUse, item.arguments));
    }
  }

  lemma {:induction false} CallsStart(st: State, items: seq<ToolItem>)
    ensures ToolStarts(EmitCalls(st, items).events)
            == if st.currentBlock == Some(ToolUse) then [] else AsList(FirstCall(items))
    ensures EmitCalls(st, items).state.currentBlock
            == if FirstCall(items).Some? then Some(ToolUse) else st.currentBlock
  {
    hide ToolStarts, EmitCall;
    NoToolStarts([]);
    if items != [] {
      var n := |items| - 1;
      var before := EmitCalls(st, items[..n]);
      CallsStart(st, items[..n]);
      CallStarts(before.state, items[n]);
      ToolStartsAppend(before.events, EmitCall(before.state, items[n]).events);
    }
  }

  /** The open block after a chunk's thinking and text, before its tools. */
  function OpenBeforeTools(st: State, chunk: Chunk): Option<Kind>
    requires chunk.Delta?
  {
    var split := SplitThinkTags(st.inThinkTag, chunk.reasoning, chunk.content);
    if split.content != "" then Some(PlainText) else if split.reasoning != "" then Some(Thinking) else st.currentBlock
  }

  lemma FourStart(a: seq<Event>, b: seq<Event>, c: seq<Event>, d: seq<Event>)
    requires ToolStarts(a) == [] && ToolStarts(b) == [] && ToolStarts(c) == []
    ensures ToolStarts(a + b + c + d) == ToolStarts(d)
  {
    hide ToolStarts;
    ToolStartsAppend(a, b);
    ToolStartsAppend(a + b, c);
    ToolStartsAppend(a + b + c, d);
    AppendEmpty(ToolStarts(d));
  }

  lemma ToolsStart(st: State, items: seq<ToolItem>)
    ensures ToolStarts(EmitTools(st, items).events) == if st.currentBlock == Some(ToolUse) then [] else AsList(FirstCall(items))
  {
    hide ToolStarts, EmitCalls;
    NoToolStarts([]);
    CallsStart(st.(outputTokens := st.outputTokens + 1), items);
  }

  /** A chunk starts at most one tool block: that of its first call, and only where no tool block is open.  Further
      calls, in this chunk or the next, go into the open block without their identifiers and names. */
  lemma ChunkStarts(st: State, chunk: Chunk)
    requires chunk.Delta?
    ensures ToolStarts(Apply(st, chunk).events)
            == if OpenBeforeTools(st, chunk) == Some(ToolUse) then [] else AsList(FirstCall(chunk.tools))
  {
    hide ToolStarts, EmitText, EmitTools, SplitThinkTags, FirstCall;
    var o := StartMessage(st);
    var split := SplitThinkTags(st.inThinkTag, chunk.reasoning, chunk.content);
    var s := o.state.(inThinkTag := split.inThinkTag);
    var p := EmitText(s, Thinking, split.reasoning);
    var q := EmitText(p.state, PlainText, split.content);
    NoToolStarts(o.events);
    TextStarts(s, Thinking, split.reasoning);
    TextStarts(p.state, PlainText, split.content);
    ToolsStart(q.state, chunk.tools);
    FourStart(o.events, p.events, q.events, EmitTools(q.state, chunk.tools).events);
  }

  /** All calls of a list, in order. */
  function Calls(items: seq<ToolItem>): seq<Named> {
    if items == [] then []
    else
      var last := items[|items| - 1];
      Calls(items[..|items| - 1]) + if last.Call? then [Named(last.id, last.name)] else []
  }

  lemma {:induction false} FirstOfCalls(items: seq<ToolItem>)
    ensures FirstCall(items) == if Calls(items) == [] then None else Some(Calls(items)[0])
  {
    if items != [] { FirstOfCalls(items[..|items| - 1]); }
  }

  /** The calls of a chunk are all started under their own names exactly when there are none, or there is one and no
      tool block is open. */
  lemma CallsAreNamedIff(st: State, chunk: Chunk)
    requires chunk.Delta?
    ensures ToolStarts(Apply(st, chunk).events) == Calls(chunk.tools)
            <==> Calls(chunk.tools) == []
                 || (|Calls(chunk.tools)| == 1 && OpenBeforeTools(st, chunk) != Some(ToolUse))
  {
    hide ToolStarts, Apply, OpenBeforeTools;
    ChunkStarts(st, chunk);
    FirstOfCalls(chunk.tools);
  }

  /** Two calls in the first chunk of a message: the second loses its name. */
  lemma SecondCallIsMerged()
    ensures var chunk := Delta("", "", [Call("1", "f", "{}"), Call("2", "g", "{}")]);
            ToolStarts(Apply(INITIAL, chunk).events) == [Named("1", "f")]
  {
    var tools := [Call("1", "f", "{}"), Call("2", "g", "{}")];
    assert tools[..1] == [Call("1", "f", "{}")] && tools[..1][..0] == [];
    assert FirstCall(tools[..1]) == Some(Named("1", "f"));
    ChunkStarts(INITIAL, Delta("", "", tools));
  }
}
