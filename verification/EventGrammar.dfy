/** The shape of the event log the translator produces, and what its deltas carry. */
module EventGrammar {
  import opened Wrappers
  import opened Text
  import opened Translator

  // ---------- runs ----------

  /** Every payload in turn; the events of all steps, in order. */
  function Run(parse: string -> Chunk, payloads: seq<string>): Outcome {
    if payloads == [] then Outcome(INITIAL, [])
    else
      var before := Run(parse, payloads[..|payloads| - 1]);
      var last := Step(parse, before.state, payloads[|payloads| - 1]);
      Outcome(last.state, before.events + last.events)
  }

  predicate IsDone(payload: string) { Trim(payload) == DONE }

  predicate NoDone(payloads: seq<string>) {
    forall i :: 0 <= i < |payloads| ==> !IsDone(payloads[i])
  }

  // ---------- the grammar ----------

  /** One content block, with the texts of its deltas. */
  datatype Block = Block(kind: Kind, id: string, name: string, deltas: seq<string>)

  function Deltas(i: nat, kind: Kind, deltas: seq<string>): seq<Event> {
    seq(|deltas|, j requires 0 <= j < |deltas| => BlockDelta(i, kind, deltas[j]))
  }

  /** Block number `i` while it is open. */
  function RenderOpen(i: nat, b: Block): seq<Event> {
    [BlockStart(i, b.kind, b.id, b.name)] + Deltas(i, b.kind, b.deltas)
  }

  /** Closed blocks, numbered 0, 1, 2, ... */
  function RenderClosed(blocks: seq<Block>): seq<Event> {
    if blocks == [] then []
    else
      var n := |blocks| - 1;
      RenderClosed(blocks[..n]) + RenderOpen(n, blocks[n]) + [BlockStop(n)]
  }

  function RenderStart(started: bool): seq<Event> {
    if started then [MessageStart] else []
  }

  /** No two neighbours of one kind, no empty delta, and something in every thinking or text block. */
  predicate WellMade(blocks: seq<Block>) {
    && (forall i :: 0 <= i < |blocks| - 1 ==> blocks[i].kind != blocks[i + 1].kind)
    && (forall i :: 0 <= i < |blocks| ==> "" !in blocks[i].deltas)
    && (forall i :: 0 <= i < |blocks| && blocks[i].kind != ToolUse ==> blocks[i].deltas != [])
  }

  /** A whole message: start, blocks, final usage, stop.  Without a start there are no blocks. */
  ghost predicate IsMessage(log: seq<Event>, started: bool, blocks: seq<Block>, tokens: nat) {
    && WellMade(blocks)
    && (blocks != [] ==> started)
    && log == RenderStart(started) + RenderClosed(blocks) + [MessageDelta(tokens), MessageStop]
  }

  ghost predicate WholeMessage(log: seq<Event>) {
    exists started, blocks, tokens :: IsMessage(log, started, blocks, tokens)
  }

  /** A message that has not been finished: its last block is still open. */
  function OpenLog(started: bool, blocks: seq<Block>): seq<Event> {
    if blocks == [] then RenderStart(started)
    else
      var n := |blocks| - 1;
      RenderStart(started) + RenderClosed(blocks[..n]) + RenderOpen(n, blocks[n])
  }

  // ---------- how the log grows ----------

  function Closing(blocks: seq<Block>): seq<Event> {
    if blocks == [] then [] else [BlockStop(|blocks| - 1)]
  }

  lemma CloseLog(started: bool, blocks: seq<Block>)
    ensures OpenLog(started, blocks) + Closing(blocks) == RenderStart(started) + RenderClosed(blocks)
  {
    if blocks != [] {
      var n := |blocks| - 1;
      var s, c, o := RenderStart(started), RenderClosed(blocks[..n]), RenderOpen(n, blocks[n]);
      AppendAssoc(s, c, o);
      AppendAssoc(s, c + o, [BlockStop(n)]);
    }
  }

  lemma PushBlock(started: bool, blocks: seq<Block>, b: Block)
    ensures OpenLog(started, blocks + [b]) == OpenLog(started, blocks) + Closing(blocks) + RenderOpen(|blocks|, b)
  {
    assert (blocks + [b])[..|blocks|] == blocks;
    CloseLog(started, blocks);
  }

  lemma OpenLogLast(started: bool, before: seq<Block>, b: Block)
    ensures OpenLog(started, before + [b]) == RenderStart(started) + RenderClosed(before) + RenderOpen(|before|, b)
  {
    assert (before + [b])[..|before|] == before;
  }

  lemma RenderOpenSnoc(i: nat, b: Block, text: string)
    ensures RenderOpen(i, b.(deltas := b.deltas + [text])) == RenderOpen(i, b) + [BlockDelta(i, b.kind, text)]
  {
  }

  lemma PushDelta(started: bool, before: seq<Block>, b: Block, text: string)
    ensures OpenLog(started, before + [b.(deltas := b.deltas + [text])])
            == OpenLog(started, before + [b]) + [BlockDelta(|before|, b.kind, text)]
  {
    OpenLogLast(started, before, b);
    OpenLogLast(started, before, b.(deltas := b.deltas + [text]));
    RenderOpenSnoc(|before|, b, text);
    AppendAssoc(RenderStart(started) + RenderClosed(before), RenderOpen(|before|, b), [BlockDelta(|before|, b.kind, text)]);
  }

  // ---------- the invariant of an unfinished run ----------

  ghost predicate Represents(st: State, log: seq<Event>, blocks: seq<Block>) {
    && !st.doneEmitted
    && WellMade(blocks)
    && (blocks != [] ==> st.messageStarted)
    && log == OpenLog(st.messageStarted, blocks)
    && st.currentBlock == (if blocks == [] then None else Some(blocks[|blocks| - 1].kind))
    && st.blockIndex == (if blocks == [] then 0 else |blocks| - 1)
  }

  /** A delta of `kind`: the open block grows, or a new block starts. */
  function WithDeltas(blocks: seq<Block>, kind: Kind, id: string, name: string, deltas: seq<string>): seq<Block> {
    var n := |blocks| - 1;
    if blocks != [] && blocks[n].kind == kind
    then blocks[..n] + [blocks[n].(deltas := blocks[n].deltas + deltas)]
    else blocks + [Block(kind, id, name, deltas)]
  }

  lemma GrownIsWellMade(blocks: seq<Block>, kind: Kind, text: string)
    requires WellMade(blocks) && blocks != [] && blocks[|blocks| - 1].kind == kind && text != ""
    ensures WellMade(WithDeltas(blocks, kind, "", "", [text]))
  {
  }

  lemma GrowOpenBlock(st: State, log: seq<Event>, blocks: seq<Block>, kind: Kind, deltas: seq<string>)
    requires Represents(st, log, blocks) && st.currentBlock == Some(kind)
    requires |deltas| <= 1 && "" !in deltas
    ensures Represents(st, log + Deltas(st.blockIndex, kind, deltas), WithDeltas(blocks, kind, "", "", deltas))
  {
    hide WellMade, OpenLog;
    var n := |blocks| - 1;
    assert blocks == blocks[..n] + [blocks[n]];
    if deltas == [] {
      AppendEmpty(blocks[n].deltas);
      AppendEmpty(log);
    } else {
      GrownIsWellMade(blocks, kind, deltas[0]);
      PushDelta(st.messageStarted, blocks[..n], blocks[n], deltas[0]);
      assert deltas == [deltas[0]];
      assert Deltas(n, kind, deltas) == [BlockDelta(n, kind, deltas[0])];
    }
  }

  lemma NextIsWellMade(blocks: seq<Block>, b: Block)
    requires WellMade(blocks) && (blocks != [] ==> blocks[|blocks| - 1].kind != b.kind)
    requires "" !in b.deltas && (b.kind != ToolUse ==> b.deltas != [])
    ensures WellMade(blocks + [b])
  {
  }

  lemma StartNextBlock(st: State, log: seq<Event>, blocks: seq<Block>, b: Block)
    requires Represents(st, log, blocks) && st.messageStarted && st.currentBlock != Some(b.kind)
    requires "" !in b.deltas && (b.kind != ToolUse ==> b.deltas != [])
    ensures var o := OpenBlock(st, b.kind, b.id, b.name);
            Represents(o.state, log + (o.events + Deltas(o.state.blockIndex, b.kind, b.deltas)), blocks + [b])
  {
    hide WellMade, OpenLog;
    var o := OpenBlock(st, b.kind, b.id, b.name);
    NextIsWellMade(blocks, b);
    PushBlock(st.messageStarted, blocks, b);
    assert o.events + Deltas(|blocks|, b.kind, b.deltas) == Closing(blocks) + RenderOpen(|blocks|, b);
    AppendAssoc(log, Closing(blocks), RenderOpen(|blocks|, b));
  }

  lemma EmitStep(st: State, log: seq<Event>, blocks: seq<Block>, kind: Kind, id: string, name: string, deltas: seq<string>)
    requires Represents(st, log, blocks) && st.messageStarted
    requires |deltas| <= 1 && "" !in deltas && (kind != ToolUse ==> deltas != [])
    ensures var o := OpenBlock(st, kind, id, name);
            Represents(o.state, log + (o.events + Deltas(o.state.blockIndex, kind, deltas)),
                       WithDeltas(blocks, kind, id, name, deltas))
  {
    if st.currentBlock == Some(kind) {
      GrowOpenBlock(st, log, blocks, kind, deltas);
      assert OpenBlock(st, kind, id, name).events + Deltas(st.blockIndex, kind, deltas)
             == Deltas(st.blockIndex, kind, deltas);
    } else {
      StartNextBlock(st, log, blocks, Block(kind, id, name, deltas));
    }
  }

  lemma OneDelta(i: nat, kind: Kind, text: string)
    ensures Deltas(i, kind, [text]) == [BlockDelta(i, kind, text)]
  {
  }

  lemma EmitTextStep(st: State, log: seq<Event>, blocks: seq<Block>, kind: Kind, text: string)
    returns (longer: seq<Block>)
    requires Represents(st, log, blocks) && st.messageStarted && kind != ToolUse
    ensures var o := EmitText(st, kind, text);
            Represents(o.state, log + o.events, longer) && o.state.messageStarted
  {
    if text == "" { return blocks; }
    longer := WithDeltas(blocks, kind, "", "", [text]);
    OneDelta(OpenBlock(st.(outputTokens := st.outputTokens + 1), kind, "", "").state.blockIndex, kind, text);
    EmitStep(st.(outputTokens := st.outputTokens + 1), log, blocks, kind, "", "", [text]);
  }

  lemma EmitCallStep(st: State, log: seq<Event>, blocks: seq<Block>, item: ToolItem) returns (longer: seq<Block>)
    requires Represents(st, log, blocks) && st.messageStarted
    ensures var o := EmitCall(st, item);
            Represents(o.state, log + o.events, longer) && o.state.messageStarted
  {
    if item.NotAFunction? { return blocks; }
    var deltas := if item.arguments == "" then [] else [item.arguments];
    longer := WithDeltas(blocks, ToolUse, item.id, item.name, deltas);
    EmitStep(st, log, blocks, ToolUse, item.id, item.name, deltas);
    var o := OpenBlock(st, ToolUse, item.id, item.name);
    assert EmitCall(st, item).events == o.events + Deltas(o.state.blockIndex, ToolUse, deltas);
  }

  lemma {:induction false} EmitCallsStep(st: State, log: seq<Event>, blocks: seq<Block>, items: seq<ToolItem>)
    returns (longer: seq<Block>)
    requires Represents(st, log, blocks) && st.messageStarted
    ensures var o := EmitCalls(st, items);
            Represents(o.state, log + o.events, longer) && o.state.messageStarted
  {
    if items == [] { return blocks; }
    var n := |items| - 1;
    var before := EmitCalls(st, items[..n]);
    var middle := EmitCallsStep(st, log, blocks, items[..n]);
    longer := EmitCallStep(before.state, log + before.events, middle, items[n]);
    AppendAssoc(log, before.events, EmitCall(before.state, items[n]).events);
  }

  lemma EmitToolsStep(st: State, log: seq<Event>, blocks: seq<Block>, items: seq<ToolItem>)
    returns (longer: seq<Block>)
    requires Represents(st, log, blocks) && st.messageStarted
    ensures var o := EmitTools(st, items);
            Represents(o.state, log + o.events, longer)
  {
    if items == [] { return blocks; }
    longer := EmitCallsStep(st.(outputTokens := st.outputTokens + 1), log, blocks, items);
  }

  lemma ApplyStep(st: State, log: seq<Event>, blocks: seq<Block>, chunk: Chunk) returns (longer: seq<Block>)
    requires Represents(st, log, blocks)
    ensures var o := Apply(st, chunk);
            Represents(o.state, log + o.events, longer)
  {
    if chunk.Bad? { return blocks; }
    var o := StartMessage(st);
    assert Represents(o.state, log + o.events, blocks);
    if chunk.NoDelta? { return blocks; }
    var split := SplitThinkTags(o.state.inThinkTag, chunk.reasoning, chunk.content);
    var st1 := o.state.(inThinkTag := split.inThinkTag);
    var p := EmitText(st1, Thinking, split.reasoning);
    var q := EmitText(p.state, PlainText, split.content);
    var r := EmitTools(q.state, chunk.tools);
    longer := EmitTextStep(st1, log + o.events, blocks, Thinking, split.reasoning);
    longer := EmitTextStep(p.state, log + o.events + p.events, longer, PlainText, split.content);
    longer := EmitToolsStep(q.state, log + o.events + p.events + q.events, longer, chunk.tools);
    FlattenFour(log, o.events, p.events, q.events, r.events);
  }

  lemma FlattenFour<T>(a: seq<T>, b: seq<T>, c: seq<T>, d: seq<T>, e: seq<T>)
    ensures a + b + c + d + e == a + (b + c + d + e)
  {
  }

  lemma {:induction false} UnfinishedRun(parse: string -> Chunk, payloads: seq<string>) returns (blocks: seq<Block>)
    requires NoDone(payloads)
    ensures Represents(Run(parse, payloads).state, Run(parse, payloads).events, blocks)
  {
    if payloads == [] { return []; }
    var n := |payloads| - 1;
    var before := Run(parse, payloads[..n]);
    blocks := UnfinishedRun(parse, payloads[..n]);
    assert !IsDone(payloads[n]);
    if Trim(payloads[n]) != "" {
      blocks := ApplyStep(before.state, before.events, blocks, parse(Trim(payloads[n])));
    }
  }

  lemma FinishStep(st: State, log: seq<Event>, blocks: seq<Block>)
    requires Represents(st, log, blocks)
    ensures IsMessage(log + Finish(st).events, st.messageStarted, blocks, st.outputTokens)
  {
    var tail := [MessageDelta(st.outputTokens), MessageStop];
    CloseLog(st.messageStarted, blocks);
    assert Finish(st).events == Closing(blocks) + tail;
    AppendAssoc(log, Closing(blocks), tail);
  }

  // ---------- the theorems ----------

  /** A stream with nothing after its first `[DONE]` is one whole message: an optional start, blocks
      numbered 0, 1, 2, ... each opened and closed once around its own deltas, the usage, the stop. */
  lemma FinishedRunIsMessage(parse: string -> Chunk, payloads: seq<string>, last: string)
    requires NoDone(payloads) && IsDone(last)
    ensures var o := Run(parse, payloads + [last]);
            exists blocks :: IsMessage(o.events, o.state.messageStarted, blocks, o.state.outputTokens)
  {
    var before := Run(parse, payloads);
    var blocks := UnfinishedRun(parse, payloads);
    FinishStep(before.state, before.events, blocks);
    RunSnoc(parse, payloads, last);
    var o := Run(parse, payloads + [last]);
    assert IsMessage(o.events, o.state.messageStarted, blocks, o.state.outputTokens);
  }

  function CountStops(log: seq<Event>): nat {
    if log == [] then 0 else CountStops(log[..|log| - 1]) + (if log[|log| - 1] == MessageStop then 1 else 0)
  }

  lemma {:induction false} CountStopsAppend(p: seq<Event>, q: seq<Event>)
    ensures CountStops(p + q) == CountStops(p) + CountStops(q)
  {
    if q == [] {
      assert p + q == p;
    } else {
      assert (p + q)[..|p + q| - 1] == p + q[..|q| - 1];
      CountStopsAppend(p, q[..|q| - 1]);
    }
  }

  lemma {:induction false} NoStopsWithin(log: seq<Event>)
    ensures MessageStop !in log ==> CountStops(log) == 0
  {
    if log != [] { NoStopsWithin(log[..|log| - 1]); }
  }

  lemma {:induction false} CallsHaveNoStop(st: State, items: seq<ToolItem>)
    ensures MessageStop !in EmitCalls(st, items).events
    ensures EmitCalls(st, items).state.doneEmitted == st.doneEmitted
  {
    if items != [] { CallsHaveNoStop(st, items[..|items| - 1]); }
  }

  lemma ApplyHasNoStop(st: State, chunk: Chunk)
    ensures MessageStop !in Apply(st, chunk).events
    ensures Apply(st, chunk).state.doneEmitted == st.doneEmitted
  {
    if chunk.Delta? {
      var o := StartMessage(st);
      var split := SplitThinkTags(o.state.inThinkTag, chunk.reasoning, chunk.content);
      var p := EmitText(o.state.(inThinkTag := split.inThinkTag), Thinking, split.reasoning);
      var q := EmitText(p.state, PlainText, split.content);
      CallsHaveNoStop(q.state.(outputTokens := q.state.outputTokens + 1), chunk.tools);
      TextHasNoStop(o.state.(inThinkTag := split.inThinkTag), Thinking, split.reasoning);
      TextHasNoStop(p.state, PlainText, split.content);
      NoStopInFour(o.events, p.events, q.events, EmitTools(q.state, chunk.tools).events);
    }
  }

  lemma TextHasNoStop(st: State, kind: Kind, text: string)
    ensures MessageStop !in EmitText(st, kind, text).events
    ensures EmitText(st, kind, text).state.doneEmitted == st.doneEmitted
  {
  }

  lemma NoStopInFour(a: seq<Event>, b: seq<Event>, c: seq<Event>, d: seq<Event>)
    requires MessageStop !in a && MessageStop !in b && MessageStop !in c && MessageStop !in d
    ensures MessageStop !in a + b + c + d
  {
  }

  lemma FinishStops(st: State)
    ensures CountStops(Finish(st).events) == if st.doneEmitted then 0 else 1
  {
    if !st.doneEmitted {
      var before := (if st.currentBlock.Some? then [BlockStop(st.blockIndex)] else []) + [MessageDelta(st.outputTokens)];
      assert Finish(st).events == before + [MessageStop];
      assert (before + [MessageStop])[..|before|] == before;
      NoStopsWithin(before);
    }
  }

  lemma StepStops(parse: string -> Chunk, st: State, payload: string)
    ensures var o := Step(parse, st, payload);
            && CountStops(o.events) == (if IsDone(payload) && !st.doneEmitted then 1 else 0)
            && (o.state.doneEmitted <==> st.doneEmitted || IsDone(payload))
  {
    if IsDone(payload) {
      FinishStops(st);
    } else if Trim(payload) != "" {
      var chunk := parse(Trim(payload));
      ApplyHasNoStop(st, chunk);
      NoStopsWithin(Apply(st, chunk).events);
    }
  }

  /** In every run whatsoever: one `message_stop` once some payload trims to `[DONE]`, none before. */
  lemma {:induction false} StopsOnce(parse: string -> Chunk, payloads: seq<string>)
    ensures Run(parse, payloads).state.doneEmitted <==> !NoDone(payloads)
    ensures CountStops(Run(parse, payloads).events) == if NoDone(payloads) then 0 else 1
  {
    if payloads != [] {
      hide Step, CountStops, IsDone;
      var n := |payloads| - 1;
      var before := Run(parse, payloads[..n]);
      StopsOnce(parse, payloads[..n]);
      StepStops(parse, before.state, payloads[n]);
      CountStopsAppend(before.events, Step(parse, before.state, payloads[n]).events);
      assert NoDone(payloads) <==> NoDone(payloads[..n]) && !IsDone(payloads[n]);
    }
  }

  lemma {:induction false} RunExtends(parse: string -> Chunk, payloads: seq<string>, more: seq<string>)
    ensures Run(parse, payloads).events <= Run(parse, payloads + more).events
  {
    if more == [] {
      assert payloads + more == payloads;
    } else {
      var n := |more| - 1;
      assert (payloads + more)[..|payloads + more| - 1] == payloads + more[..n];
      RunExtends(parse, payloads, more[..n]);
    }
  }

  lemma MessageEndsWithStop(log: seq<Event>)
    ensures WholeMessage(log) ==> log != [] && log[|log| - 1] == MessageStop
  {
  }

  lemma StopAtEndCounts(tail: seq<Event>)
    ensures tail != [] && tail[|tail| - 1] == MessageStop ==> CountStops(tail) > 0
  {
  }

  lemma DoneIsFound(payloads: seq<string>, last: string, more: seq<string>)
    requires IsDone(last)
    ensures !NoDone(payloads + [last]) && !NoDone(payloads + [last] + more)
  {
    var upto := payloads + [last];
    assert upto[|payloads|] == last && (upto + more)[|payloads|] == last;
  }

  lemma OneStopEnds(base: seq<Event>, all: seq<Event>)
    requires base <= all && WholeMessage(base) && CountStops(base) == CountStops(all)
    ensures WholeMessage(all) <==> all == base
  {
    hide WholeMessage;
    var tail := all[|base|..];
    assert all == base + tail;
    CountStopsAppend(base, tail);
    MessageEndsWithStop(all);
    StopAtEndCounts(tail);
    assert tail != [] ==> all[|all| - 1] == tail[|tail| - 1];
  }

  lemma MessageIffNothingFollows(parse: string -> Chunk, payloads: seq<string>, last: string, more: seq<string>)
    requires NoDone(payloads) && IsDone(last)
    ensures var base, all := Run(parse, payloads + [last]).events, Run(parse, payloads + [last] + more).events;
            WholeMessage(all) <==> all == base
  {
    hide Run, IsDone, CountStops, NoDone;
    var upto := payloads + [last];
    RunExtends(parse, upto, more);
    DoneIsFound(payloads, last, more);
    StopsOnce(parse, upto);
    StopsOnce(parse, upto + more);
    FinishedRunIsMessage(parse, payloads, last);
    OneStopEnds(Run(parse, upto).events, Run(parse, upto + more).events);
  }

  // ---------- what a translator that is done stays silent on ----------

  predicate NoCalls(items: seq<ToolItem>) {
    forall i :: 0 <= i < |items| ==> items[i].NotAFunction?
  }

  /** Whether the payload makes the translator start a message, if it has not. */
  predicate Starts(parse: string -> Chunk, payload: string) {
    !IsDone(payload) && Trim(payload) != "" && !parse(Trim(payload)).Bad?
  }

  predicate Started(parse: string -> Chunk, payloads: seq<string>) {
    exists i :: 0 <= i < |payloads| && Starts(parse, payloads[i])
  }

  /** Inside a think tag, after one payload and after many. */
  predicate TagAfterOne(parse: string -> Chunk, tag: bool, payload: string) {
    if IsDone(payload) || Trim(payload) == "" then tag
    else
      match parse(Trim(payload))
      case Delta(reasoning, content, _) => SplitThinkTags(tag, reasoning, content).inThinkTag
      case _ => tag
  }

  predicate TagAfter(parse: string -> Chunk, tag: bool, payloads: seq<string>) {
    if payloads == [] then tag
    else TagAfterOne(parse, TagAfter(parse, tag, payloads[..|payloads| - 1]), payloads[|payloads| - 1])
  }

  /** A payload without news for a translator that is done: blank, `[DONE]`, not JSON, or, once the message has
      started, without text, reasoning and tool calls. */
  predicate Idle(parse: string -> Chunk, started: bool, tag: bool, payload: string) {
    || IsDone(payload) || Trim(payload) == ""
    || (match parse(Trim(payload))
        case Bad => true
        case NoDelta => started
        case Delta(reasoning, content, tools) =>
          var split := SplitThinkTags(tag, reasoning, content);
          started && split.reasoning == "" && split.content == "" && NoCalls(tools))
  }

  /** Every one of the payloads, each under the think tag it finds. */
  predicate AllIdle(parse: string -> Chunk, started: bool, tag: bool, payloads: seq<string>) {
    if payloads == [] then true
    else
      var init := payloads[..|payloads| - 1];
      && AllIdle(parse, started, tag, init)
      && Idle(parse, started, TagAfter(parse, tag, init), payloads[|payloads| - 1])
  }

  lemma {:induction false} IdleCalls(st: State, items: seq<ToolItem>)
    requires st.currentBlock.None?
    ensures EmitCalls(st, items).events == [] <==> NoCalls(items)
    ensures EmitCalls(st, items).events == [] ==> EmitCalls(st, items).state == st
  {
    if items != [] {
      var n := |items| - 1;
      var before := EmitCalls(st, items[..n]);
      IdleCalls(st, items[..n]);
      BothEmpty(before.events, EmitCall(before.state, items[n]).events);
      NoCallsSnoc(items);
    }
  }

  lemma NoCallsSnoc(items: seq<ToolItem>)
    requires items != []
    ensures NoCalls(items) <==> NoCalls(items[..|items| - 1]) && items[|items| - 1].NotAFunction?
  {
  }

  lemma BothEmpty<T>(p: seq<T>, q: seq<T>)
    ensures p + q == [] <==> p == [] && q == []
  {
  }

  lemma IdleText(st: State, kind: Kind, text: string)
    ensures EmitText(st, kind, text).events == [] <==> text == ""
    ensures text == "" ==> EmitText(st, kind, text).state == st
  {
  }

  /** The translator is done, and keeps these flags. */
  predicate Resting(st: State, started: bool, tag: bool) {
    st.doneEmitted && st.currentBlock.None? && st.messageStarted == started && st.inThinkTag == tag
  }

  lemma IdleDelta(st: State, chunk: Chunk)
    requires st.currentBlock.None? && chunk.Delta?
    ensures var split := SplitThinkTags(st.inThinkTag, chunk.reasoning, chunk.content);
            Apply(st, chunk).events == []
            <==> st.messageStarted && split.reasoning == "" && split.content == "" && NoCalls(chunk.tools)
    ensures Apply(st, chunk).events == [] ==> Apply(st, chunk).state.currentBlock.None?
  {
    var o := StartMessage(st);
    var split := SplitThinkTags(o.state.inThinkTag, chunk.reasoning, chunk.content);
    var s := o.state.(inThinkTag := split.inThinkTag);
    var p := EmitText(s, Thinking, split.reasoning);
    var q := EmitText(p.state, PlainText, split.content);
    var r := EmitTools(q.state, chunk.tools);
    IdleText(s, Thinking, split.reasoning);
    IdleText(p.state, PlainText, split.content);
    if split.reasoning == "" && split.content == "" {
      IdleCalls(q.state.(outputTokens := q.state.outputTokens + 1), chunk.tools);
    }
    BothEmpty(o.events, p.events);
    BothEmpty(o.events + p.events, q.events);
    BothEmpty(o.events + p.events + q.events, r.events);
  }

  /** One payload: silence, and the flags after it. */
  lemma IdleExactly(parse: string -> Chunk, st: State, payload: string)
    requires st.doneEmitted && st.currentBlock.None?
    ensures var o := Translator.Step(parse, st, payload);
            && (o.events == [] <==> Idle(parse, st.messageStarted, st.inThinkTag, payload))
            && (o.events == [] ==> Resting(o.state, st.messageStarted, TagAfterOne(parse, st.inThinkTag, payload)))
  {
    if Starts(parse, payload) {
      var chunk := parse(Trim(payload));
      ApplyFlags(st, chunk);
      ApplyHasNoStop(st, chunk);
      if chunk.Delta? { IdleDelta(st, chunk); }
    }
  }

  lemma CallsKeepFlags(st: State, items: seq<ToolItem>)
    ensures var t := EmitCalls(st, items).state;
            t.messageStarted == st.messageStarted && t.inThinkTag == st.inThinkTag
  {
    if items != [] { CallsKeepFlags(st, items[..|items| - 1]); }
  }

  lemma TextKeepsFlags(st: State, kind: Kind, text: string)
    ensures var t := EmitText(st, kind, text).state;
            t.messageStarted == st.messageStarted && t.inThinkTag == st.inThinkTag
  {
  }

  lemma ApplyFlags(st: State, chunk: Chunk)
    ensures var t := Apply(st, chunk).state;
            && t.messageStarted == (st.messageStarted || !chunk.Bad?)
            && t.inThinkTag == if chunk.Delta? then SplitThinkTags(st.inThinkTag, chunk.reasoning, chunk.content).inThinkTag
                               else st.inThinkTag
  {
    if chunk.Delta? {
      hide SplitThinkTags, EmitText, EmitCalls;
      var o := StartMessage(st);
      var split := SplitThinkTags(o.state.inThinkTag, chunk.reasoning, chunk.content);
      var p := EmitText(o.state.(inThinkTag := split.inThinkTag), Thinking, split.reasoning);
      var q := EmitText(p.state, PlainText, split.content);
      TextKeepsFlags(o.state.(inThinkTag := split.inThinkTag), Thinking, split.reasoning);
      TextKeepsFlags(p.state, PlainText, split.content);
      CallsKeepFlags(q.state.(outputTokens := q.state.outputTokens + 1), chunk.tools);
    }
  }

  /** The two flags are functions of the payloads. */
  lemma {:induction false} FlagsOfRun(parse: string -> Chunk, payloads: seq<string>)
    ensures Run(parse, payloads).state.messageStarted == Started(parse, payloads)
    ensures Run(parse, payloads).state.inThinkTag == TagAfter(parse, false, payloads)
  {
    if payloads != [] {
      var n := |payloads| - 1;
      FlagsOfRun(parse, payloads[..n]);
      StartedSnoc(parse, payloads);
      if Starts(parse, payloads[n]) { ApplyFlags(Run(parse, payloads[..n]).state, parse(Trim(payloads[n]))); }
    }
  }

  lemma StartedSnoc(parse: string -> Chunk, payloads: seq<string>)
    requires payloads != []
    ensures var n := |payloads| - 1;
            Started(parse, payloads) <==> Started(parse, payloads[..n]) || Starts(parse, payloads[n])
  {
    var n := |payloads| - 1;
    if Started(parse, payloads[..n]) {
      var i :| 0 <= i < n && Starts(parse, payloads[..n][i]);
      assert payloads[i] == payloads[..n][i];
    }
    if i :| 0 <= i < |payloads| && Starts(parse, payloads[i]) {
      assert i < n ==> payloads[..n][i] == payloads[i];
    }
  }

  /** One more payload after `[DONE]`. */
  lemma OneMore(parse: string -> Chunk, before: seq<string>, init: seq<string>, payload: string)
    ensures Run(parse, before + (init + [payload])).events == Run(parse, before).events
            <==> Run(parse, before + init).events == Run(parse, before).events
                 && Translator.Step(parse, Run(parse, before + init).state, payload).events == []
    ensures Run(parse, before + (init + [payload])).state
            == Translator.Step(parse, Run(parse, before + init).state, payload).state
  {
    AppendAssoc(before, init, [payload]);
    RunSnoc(parse, before + init, payload);
    RunExtends(parse, before, init);
    GrowsByNothing(Run(parse, before).events, Run(parse, before + init).events,
                   Translator.Step(parse, Run(parse, before + init).state, payload).events);
  }

  lemma {:induction false} NothingFollowsIff(parse: string -> Chunk, before: seq<string>, more: seq<string>,
                                             started: bool, tag: bool)
    requires Resting(Run(parse, before).state, started, tag)
    ensures Run(parse, before + more).events == Run(parse, before).events <==> AllIdle(parse, started, tag, more)
    ensures AllIdle(parse, started, tag, more) ==>
              Resting(Run(parse, before + more).state, started, TagAfter(parse, tag, more))
    decreases |more|
  {
    if more == [] {
      assert before + more == before;
    } else {
      var n := |more| - 1;
      assert more == more[..n] + [more[n]];
      NothingFollowsIff(parse, before, more[..n], started, tag);
      OneMore(parse, before, more[..n], more[n]);
      if AllIdle(parse, started, tag, more[..n]) { IdleExactly(parse, Run(parse, before + more[..n]).state, more[n]); }
    }
  }

  lemma RestsAtDone(parse: string -> Chunk, payloads: seq<string>, last: string)
    requires NoDone(payloads) && IsDone(last)
    ensures Resting(Run(parse, payloads + [last]).state, Started(parse, payloads), TagAfter(parse, false, payloads))
  {
    FlagsOfRun(parse, payloads);
    StopsOnce(parse, payloads);
    RunSnoc(parse, payloads, last);
  }

  lemma GrowsByNothing<T>(base: seq<T>, mid: seq<T>, more: seq<T>)
    requires base <= mid
    ensures mid + more == base <==> mid == base && more == []
  {
  }

  /** Payloads after the first `[DONE]` leave the message whole exactly when each of them is idle: blank, a
      further `[DONE]`, not JSON, or without content for a message that has started. */
  lemma MessageIffIdleAfterDone(parse: string -> Chunk, payloads: seq<string>, last: string, more: seq<string>)
    requires NoDone(payloads) && IsDone(last)
    ensures WholeMessage(Run(parse, payloads + [last] + more).events)
            <==> AllIdle(parse, Started(parse, payloads), TagAfter(parse, false, payloads), more)
  {
    MessageIffNothingFollows(parse, payloads, last, more);
    RestsAtDone(parse, payloads, last);
    NothingFollowsIff(parse, payloads + [last], more, Started(parse, payloads), TagAfter(parse, false, payloads));
  }

  /** A parser under which every payload is its own content delta. */
  function Echo(payload: string): Chunk { Delta("", payload, []) }

  lemma EchoStep(st: State, payload: string)
    requires |payload| == 1 && Solid(payload) && !st.inThinkTag
    ensures var s := StartMessage(st).state;
            var o := EmitText(s, PlainText, payload);
            Step(Echo, st, payload) == Outcome(o.state, StartMessage(st).events + o.events)
  {
    TrimSolid(payload);
  }

  lemma RunSnoc(parse: string -> Chunk, payloads: seq<string>, last: string)
    ensures var before := Run(parse, payloads);
            var o := Step(parse, before.state, last);
            Run(parse, payloads + [last]) == Outcome(o.state, before.events + o.events)
  {
    assert (payloads + [last])[..|payloads|] == payloads;
  }

  lemma EchoFirst()
    ensures Run(Echo, ["a"]).state == State(true, Some(PlainText), 0, false, 1, false)
  {
    RunSnoc(Echo, [], "a");
    AppendEmpty(["a"]);
    LetterIsSolid();
    EchoStep(INITIAL, "a");
  }

  lemma LetterIsSolid()
    ensures Solid("a") && Solid("b")
  {
  }

  lemma EchoRun()
    ensures Run(Echo, ["a"] + [DONE]).state == State(true, None, 0, false, 1, true)
  {
    EchoFirst();
    RunSnoc(Echo, ["a"], DONE);
    TrimSolid(DONE);
  }

  /** A chunk after `[DONE]` reopens block 0 and nobody closes it. */
  lemma ChunkAfterDoneBreaksTheMessage()
    ensures var log := Run(Echo, ["a"] + [DONE] + ["b"]).events;
            && |log| > 1
            && log[|log| - 2] == BlockStart(0, PlainText, "", "")
            && log[|log| - 1] == BlockDelta(0, PlainText, "b")
            && !WholeMessage(log)
  {
    EchoRunAfterDone();
    TrimSolid("a");
    TrimSolid(DONE);
    MessageIffNothingFollows(Echo, ["a"], DONE, ["b"]);
  }

  lemma EchoRunAfterDone()
    ensures Run(Echo, ["a"] + [DONE] + ["b"]).events
            == Run(Echo, ["a"] + [DONE]).events + [BlockStart(0, PlainText, "", ""), BlockDelta(0, PlainText, "b")]
  {
    EchoRun();
    var st := State(true, None, 0, false, 1, true);
    EchoStep(st, "b");
    assert Step(Echo, st, "b").events == [BlockStart(0, PlainText, "", ""), BlockDelta(0, PlainText, "b")];
    RunSnoc(Echo, ["a"] + [DONE], "b");
  }
}
