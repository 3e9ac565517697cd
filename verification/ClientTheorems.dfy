/** What a Messages client makes of the payloads of a whole response. */
module ClientTheorems {
  import opened Wrappers
  import opened Text
  import opened Translator
  import opened EventGrammar
  import opened ThinkTags
  import opened Messages
  import opened MessagesTheorems
  import opened Json
  import opened ClientReader

  // ---------- everything printed is valid ----------

  predicate AllPrintable(r: Reader, events: seq<Event>) {
    forall i :: 0 <= i < |events| ==> Printable(r, events[i])
  }

  lemma TakenApart(s: string, pat: string)
    requires Contains(s, pat)
    ensures var k := Index(s, pat);
            s == s[..k] + pat + s[k + |pat|..] && RemoveFirst(s, pat) == s[..k] + s[k + |pat|..]
  {
    var k := Index(s, pat);
    IndexIsFirst(s, pat);
    assert s[k..k + |pat|] == pat;
  }

  lemma SplitIsValid(r: Reader, env: Env, tag: bool, reasoning: string, content: string)
    requires r.Reads(env) && r.valid(reasoning) && r.valid(content)
    ensures var s := SplitThinkTags(tag, reasoning, content);
            r.valid(s.reasoning) && r.valid(s.content)
  {
    assert r.valid("");
    var body := if Contains(content, THINK_OPEN) then RemoveFirst(content, THINK_OPEN) else content;
    if Contains(content, THINK_OPEN) { TakenApart(content, THINK_OPEN); }
    assert r.valid(body);
    if Contains(body, THINK_CLOSE) { TakenApart(body, THINK_CLOSE); }
  }

  lemma TextIsPrintable(r: Reader, env: Env, st: State, kind: Kind, text: string)
    requires r.Reads(env) && r.valid(text) && kind != ToolUse
    ensures AllPrintable(r, EmitText(st, kind, text).events)
  {
    assert r.valid("");
  }

  lemma CallIsPrintable(r: Reader, st: State, item: ToolItem)
    requires r.ValidCall(item)
    ensures AllPrintable(r, EmitCall(st, item).events)
  {
  }

  lemma {:induction false} CallsArePrintable(r: Reader, st: State, items: seq<ToolItem>)
    requires forall i :: 0 <= i < |items| ==> r.ValidCall(items[i])
    ensures AllPrintable(r, EmitCalls(st, items).events)
  {
    if items != [] {
      var n := |items| - 1;
      CallsArePrintable(r, st, items[..n]);
      CallIsPrintable(r, EmitCalls(st, items[..n]).state, items[n]);
    }
  }

  lemma ApplyIsPrintable(r: Reader, env: Env, st: State, chunk: Chunk)
    requires r.Reads(env) && r.ValidChunk(chunk)
    ensures AllPrintable(r, Apply(st, chunk).events)
  {
    if chunk.Delta? {
      var o := StartMessage(st);
      var split := SplitThinkTags(o.state.inThinkTag, chunk.reasoning, chunk.content);
      var s := o.state.(inThinkTag := split.inThinkTag);
      var p := EmitText(s, Thinking, split.reasoning);
      var q := EmitText(p.state, PlainText, split.content);
      SplitIsValid(r, env, o.state.inThinkTag, chunk.reasoning, chunk.content);
      TextIsPrintable(r, env, s, Thinking, split.reasoning);
      TextIsPrintable(r, env, p.state, PlainText, split.content);
      CallsArePrintable(r, q.state.(outputTokens := q.state.outputTokens + 1), chunk.tools);
    }
  }

  lemma StepIsPrintable(r: Reader, env: Env, st: State, payload: string)
    requires r.Reads(env)
    ensures AllPrintable(r, Step(env.parse, st, payload).events)
  {
    hide Apply;
    assert r.ValidChunk(env.parse(Trim(payload)));
    ApplyIsPrintable(r, env, st, env.parse(Trim(payload)));
  }

  lemma {:induction false} RunIsPrintable(r: Reader, env: Env, payloads: seq<string>)
    requires r.Reads(env)
    ensures AllPrintable(r, Run(env.parse, payloads).events)
  {
    hide Step, Reader.Reads;
    if payloads != [] {
      var n := |payloads| - 1;
      RunIsPrintable(r, env, payloads[..n]);
      StepIsPrintable(r, env, Run(env.parse, payloads[..n]).state, payloads[n]);
    }
  }

  // ---------- the client reads the events ----------

  function ReadAll(r: Reader, texts: seq<string>): Option<seq<Event>> {
    if texts == [] then Some([])
    else
      match (ReadAll(r, texts[..|texts| - 1]), ReadEvent(r, texts[|texts| - 1]))
      case (Some(before), Some(last)) => Some(before + [last])
      case _ => None
  }

  lemma ReadAllSnoc(r: Reader, texts: seq<string>, before: seq<Event>, text: string, e: Event)
    requires ReadAll(r, texts) == Some(before) && ReadEvent(r, text) == Some(e)
    ensures ReadAll(r, texts + [text]) == Some(before + [e])
  {
    hide ReadEvent;
    assert (texts + [text])[..|texts|] == texts;
  }

  lemma NothingRead(r: Reader, env: Env)
    ensures ReadAll(r, PrintAll(env, [])) == Some([])
  {
  }

  lemma LastOfEvents(r: Reader, events: seq<Event>)
    requires events != [] && AllPrintable(r, events)
    ensures var n := |events| - 1;
            AllPrintable(r, events[..n]) && Printable(r, events[n]) && events[..n] + [events[n]] == events
  {
  }

  lemma {:induction false} PrintedAllRead(r: Reader, env: Env, events: seq<Event>)
    requires env.Lawful() && r.Reads(env) && AllPrintable(r, events)
    ensures ReadAll(r, PrintAll(env, events)) == Some(events)
  {
    hide ReadAll, ReadEvent, Print, PrintAll, AllPrintable, Printable, Reader.Reads, Env.Lawful;
    if events == [] {
      NothingRead(r, env);
    } else {
      var n := |events| - 1;
      LastOfEvents(r, events);
      PrintedAllRead(r, env, events[..n]);
      PrintedEventReads(r, env, events[n]);
      PrintAllSnoc(env, events[..n], events[n]);
      ReadAllSnoc(r, PrintAll(env, events[..n]), events[..n], Print(env, events[n]), events[n]);
    }
  }

  /** From the TokenDelta payloads of a response the client reads the translator's events of the whole body. */
  lemma ClientReadsEvents(r: Reader, env: Env, body: string)
    requires env.Lawful() && r.Reads(env)
    ensures ReadAll(r, Texts(WholeBody(env, body))) == Some(BodyEvents(env, body))
  {
    OneFramePerEvent(env, body);
    RunIsPrintable(r, env, BodyPayloads(body) + [DONE]);
    PrintedAllRead(r, env, BodyEvents(env, body));
  }

  // ---------- and what they say is what the upstream sent ----------

  predicate Speaks(parse: string -> Chunk, payload: string) {
    !IsDone(payload) && Trim(payload) != "" && parse(Trim(payload)).Delta?
  }

  /** The share of one kind in all payloads, after the think-tag fallback. */
  function Shares(parse: string -> Chunk, payloads: seq<string>, kind: Kind): string {
    if payloads == [] then ""
    else
      var init, last := payloads[..|payloads| - 1], payloads[|payloads| - 1];
      Shares(parse, init, kind)
      + if Speaks(parse, last) then Carried(TagAfter(parse, false, init), parse(Trim(last)), kind) else ""
  }

  lemma StepCarries(parse: string -> Chunk, st: State, payload: string, kind: Kind)
    ensures DeltaText(Step(parse, st, payload).events, kind)
            == if Speaks(parse, payload) then Carried(st.inThinkTag, parse(Trim(payload)), kind) else ""
  {
    hide Apply, DeltaText;
    NoDeltaText([], kind);
    NoDeltaText(Finish(st).events, kind);
    ApplyCarries(st, parse(Trim(payload)), kind);
  }

  lemma {:induction false} RunCarries(parse: string -> Chunk, payloads: seq<string>, kind: Kind)
    ensures DeltaText(Run(parse, payloads).events, kind) == Shares(parse, payloads, kind)
  {
    hide Step, DeltaText, Carried, Speaks, TagAfter;
    NoDeltaText([], kind);
    if payloads != [] {
      var n := |payloads| - 1;
      var before := Run(parse, payloads[..n]);
      RunCarries(parse, payloads[..n], kind);
      FlagsOfRun(parse, payloads[..n]);
      StepCarries(parse, before.state, payloads[n], kind);
      DeltaTextAppend(before.events, Step(parse, before.state, payloads[n]).events, kind);
    }
  }

  /** What a chunk says of one kind, as it says it. */
  function Said(chunk: Chunk, kind: Kind): string
    requires chunk.Delta?
  {
    match kind
    case Thinking => chunk.reasoning
    case PlainText => chunk.content
    case ToolUse => Arguments(chunk.tools)
  }

  /** What the payloads say of one kind, as they say it, joined. */
  function AllSaid(parse: string -> Chunk, payloads: seq<string>, kind: Kind): string {
    if payloads == [] then ""
    else
      var init, last := payloads[..|payloads| - 1], payloads[|payloads| - 1];
      AllSaid(parse, init, kind) + if Speaks(parse, last) then Said(parse(Trim(last)), kind) else ""
  }

  /** A chunk that gives no reasoning of its own has no opening tag in its content. */
  ghost predicate NoTag(parse: string -> Chunk, payload: string) {
    Speaks(parse, payload) ==>
      var chunk := parse(Trim(payload));
      chunk.reasoning != "" || forall j :: !At(chunk.content, "<think>", j)
  }

  ghost predicate NoTags(parse: string -> Chunk, payloads: seq<string>) {
    forall i :: 0 <= i < |payloads| ==> NoTag(parse, payloads[i])
  }

  lemma UntaggedIsItself(reasoning: string, content: string)
    requires reasoning != "" || forall j :: !At(content, "<think>", j)
    ensures SplitThinkTags(false, reasoning, content) == Split(false, reasoning, content)
  {
    IndexIsFirst(content, THINK_OPEN);
  }

  lemma {:induction false} UntaggedShares(parse: string -> Chunk, payloads: seq<string>, kind: Kind)
    requires NoTags(parse, payloads)
    ensures !TagAfter(parse, false, payloads) && Shares(parse, payloads, kind) == AllSaid(parse, payloads, kind)
  {
    if payloads != [] {
      hide SplitThinkTags, At;
      var n := |payloads| - 1;
      var last := payloads[n];
      UntaggedShares(parse, payloads[..n], kind);
      assert NoTag(parse, last);
      if Speaks(parse, last) {
        UntaggedIsItself(parse(Trim(last)).reasoning, parse(Trim(last)).content);
      }
    }
  }

  /** The joined texts of the deltas of one kind that the client reads. */
  function Heard(r: Reader, texts: seq<string>, kind: Kind): string {
    match ReadAll(r, texts)
    case None => ""
    case Some(events) => DeltaText(events, kind)
  }

  lemma DoneSaysNothing(parse: string -> Chunk, payloads: seq<string>, kind: Kind)
    ensures Shares(parse, payloads + [DONE], kind) == Shares(parse, payloads, kind)
  {
    hide Carried, TagAfter;
    DoneIsDone();
    assert (payloads + [DONE])[..|payloads|] == payloads;
    AppendEmpty(Shares(parse, payloads, kind));
  }

  /** End to end: thinking, text and tool arguments that the client reads from the payloads of a response are
      the shares of the whole body; with no think tag in it, they are its reasoning, content and arguments. */
  lemma ClientHearsTheBody(r: Reader, env: Env, body: string, kind: Kind)
    requires env.Lawful() && r.Reads(env)
    ensures var heard := Heard(r, Texts(WholeBody(env, body)), kind);
            && heard == Shares(env.parse, BodyPayloads(body), kind)
            && (NoTags(env.parse, BodyPayloads(body)) ==> heard == AllSaid(env.parse, BodyPayloads(body), kind))
  {
    hide Texts, WholeBody, BodyPayloads, ReadAll, Run;
    ClientReadsEvents(r, env, body);
    RunCarries(env.parse, BodyPayloads(body) + [DONE], kind);
    DoneSaysNothing(env.parse, BodyPayloads(body), kind);
    if NoTags(env.parse, BodyPayloads(body)) { UntaggedShares(env.parse, BodyPayloads(body), kind); }
  }
}
