/** What a Messages client is sent, for every upstream body. */
module MessagesTheorems {
  import opened Wrappers
  import opened Text
  import opened Sse
  import opened Session
  import opened Translator
  import opened EventGrammar
  import opened Responder
  import opened Messages

  // ---------- the payloads of a body ----------

  function Payloads(blocks: seq<string>): seq<string> {
    if blocks == [] then []
    else
      var before := Payloads(blocks[..|blocks| - 1]);
      match BlockPayload(blocks[|blocks| - 1])
      case None => before
      case Some(payload) => before + [payload]
  }

  /** The data payloads of a whole body, in order. */
  function BodyPayloads(body: string): seq<string> {
    Payloads(AllBlocks(Cut(body)))
  }

  function RelayPayloads(env: Env, payloads: seq<string>): Relay {
    if payloads == [] then Relay(INITIAL, [])
    else
      var before := RelayPayloads(env, payloads[..|payloads| - 1]);
      var last := RelayPayload(env, before.state, payloads[|payloads| - 1]);
      Relay(last.state, before.plains + last.plains)
  }

  lemma RelayPayloadsSnoc(env: Env, payloads: seq<string>, last: string)
    ensures var before := RelayPayloads(env, payloads);
            var r := RelayPayload(env, before.state, last);
            RelayPayloads(env, payloads + [last]) == Relay(r.state, before.plains + r.plains)
  {
    assert (payloads + [last])[..|payloads|] == payloads;
  }

  lemma {:induction false} BlocksArePayloads(env: Env, blocks: seq<string>)
    ensures RelayBlocks(env, INITIAL, blocks) == RelayPayloads(env, Payloads(blocks))
  {
    if blocks != [] {
      var n := |blocks| - 1;
      BlocksArePayloads(env, blocks[..n]);
      var before := RelayBlocks(env, INITIAL, blocks[..n]);
      match BlockPayload(blocks[n])
      case None => AppendEmpty(before.plains);
      case Some(payload) => RelayPayloadsSnoc(env, Payloads(blocks[..n]), payload);
    }
  }

  lemma WholeBodyIsPayloads(env: Env, body: string)
    ensures WholeBody(env, body) == RelayPayloads(env, BodyPayloads(body) + [DONE]).plains
  {
    BlocksArePayloads(env, AllBlocks(Cut(body)));
    RelayPayloadsSnoc(env, BodyPayloads(body), DONE);
  }

  // ---------- one frame per event, verbatim ----------

  /** The texts of the TokenDelta payloads, in order. */
  function Texts(plains: seq<Plain>): seq<string> {
    if plains == [] then []
    else
      var before, last := Texts(plains[..|plains| - 1]), plains[|plains| - 1];
      if last.frameType == FRAME_TOKEN_DELTA then before + [last.plaintext] else before
  }

  lemma {:induction false} TextsAppend(p: seq<Plain>, q: seq<Plain>)
    ensures Texts(p + q) == Texts(p) + Texts(q)
  {
    if q == [] {
      AppendEmpty(p);
      AppendEmpty(Texts(p));
    } else {
      var n := |q| - 1;
      assert (p + q)[..|p + q| - 1] == p + q[..n];
      TextsAppend(p, q[..n]);
      AppendAssoc(Texts(p), Texts(q[..n]), [q[n].plaintext]);
    }
  }

  lemma {:induction false} TextsOfEvents(env: Env, events: seq<Event>)
    ensures Texts(EventPlains(env, events)) == PrintAll(env, events)
  {
    if events != [] {
      TextsOfEvents(env, events[..|events| - 1]);
      LastEvent(env, events);
    }
  }

  lemma LastEvent(env: Env, events: seq<Event>)
    requires events != []
    ensures var n, plains := |events| - 1, EventPlains(env, events);
            && |plains| == n + 1 && plains[..n] == EventPlains(env, events[..n])
            && plains[n] == Plain(FRAME_TOKEN_DELTA, Print(env, events[n]))
            && PrintAll(env, events) == PrintAll(env, events[..n]) + [Print(env, events[n])]
  {
    hide Print;
  }

  lemma TextsOfRelay(env: Env, st: State, payload: string)
    ensures Texts(RelayPayload(env, st, payload).plains) == PrintAll(env, Step(env.parse, st, payload).events)
  {
    var o := Step(env.parse, st, payload);
    TextsOfEvents(env, o.events);
    TextsAppend(EventPlains(env, o.events), [END]);
    TextsAppend(EventPlains(env, o.events), []);
    assert [END][..0] == [];
    AppendEmpty(PrintAll(env, o.events));
  }

  lemma {:induction false} StatesAgree(env: Env, payloads: seq<string>)
    ensures RelayPayloads(env, payloads).state == Run(env.parse, payloads).state
  {
    if payloads != [] { StatesAgree(env, payloads[..|payloads| - 1]); }
  }

  lemma {:induction false} TextsAreEvents(env: Env, payloads: seq<string>)
    ensures Texts(RelayPayloads(env, payloads).plains) == PrintAll(env, Run(env.parse, payloads).events)
  {
    if payloads != [] {
      var n := |payloads| - 1;
      var init := payloads[..n];
      TextsAreEvents(env, init);
      StatesAgree(env, init);
      var r, o := RelayPayloads(env, init), Run(env.parse, init);
      TextsOfRelay(env, o.state, payloads[n]);
      TextsAppend(r.plains, RelayPayload(env, r.state, payloads[n]).plains);
      PrintAllAppend(env, o.events, Step(env.parse, o.state, payloads[n]).events);
    }
  }

  /** The events of a whole body: its payloads, then the final `[DONE]` of `Finish`. */
  function BodyEvents(env: Env, body: string): seq<Event> {
    Run(env.parse, BodyPayloads(body) + [DONE]).events
  }

  /** Each translator event of the body is one TokenDelta payload with the event's own text, in order,
      and nothing else is. */
  lemma OneFramePerEvent(env: Env, body: string)
    ensures Texts(WholeBody(env, body)) == PrintAll(env, BodyEvents(env, body))
  {
    WholeBodyIsPayloads(env, body);
    TextsAreEvents(env, BodyPayloads(body) + [DONE]);
  }

  // ---------- the end of the stream ----------

  function CountEnds(plains: seq<Plain>): nat {
    if plains == [] then 0
    else CountEnds(plains[..|plains| - 1]) + (if plains[|plains| - 1].frameType == FRAME_STREAM_END then 1 else 0)
  }

  lemma {:induction false} CountEndsAppend(p: seq<Plain>, q: seq<Plain>)
    ensures CountEnds(p + q) == CountEnds(p) + CountEnds(q)
  {
    if q == [] {
      AppendEmpty(p);
    } else {
      assert (p + q)[..|p + q| - 1] == p + q[..|q| - 1];
      CountEndsAppend(p, q[..|q| - 1]);
    }
  }

  lemma {:induction false} EventsAreNoEnd(env: Env, events: seq<Event>)
    ensures CountEnds(EventPlains(env, events)) == 0
  {
    if events != [] {
      var n := |events| - 1;
      assert EventPlains(env, events)[..n] == EventPlains(env, events[..n]);
      EventsAreNoEnd(env, events[..n]);
    }
  }

  /** The first payload that trims to `[DONE]`, as it came. */
  function FirstDone(payloads: seq<string>): Option<string> {
    if payloads == [] then None
    else
      var before, last := FirstDone(payloads[..|payloads| - 1]), payloads[|payloads| - 1];
      if before.Some? then before else if IsDone(last) then Some(last) else None
  }

  lemma {:induction false} FirstDoneIsDone(payloads: seq<string>)
    ensures FirstDone(payloads).None? <==> NoDone(payloads)
  {
    if payloads != [] { FirstDoneIsDone(payloads[..|payloads| - 1]); }
  }

  lemma DoneIsDone()
    ensures IsDone(DONE)
  {
    TrimSolid(DONE);
  }

  lemma FirstDoneSnoc(payloads: seq<string>, last: string)
    ensures FirstDone(payloads + [last])
            == if FirstDone(payloads).Some? then FirstDone(payloads) else if IsDone(last) then Some(last) else None
  {
    assert (payloads + [last])[..|payloads|] == payloads;
  }

  lemma RelayEnds(env: Env, st: State, payload: string)
    ensures CountEnds(RelayPayload(env, st, payload).plains) == if payload == DONE && !st.doneEmitted then 1 else 0
  {
    TrimSolid(DONE);
    var o := Step(env.parse, st, payload);
    EventsAreNoEnd(env, o.events);
    CountEndsAppend(EventPlains(env, o.events), [END]);
    AppendEmpty(EventPlains(env, o.events));
    assert [END][..0] == [];
  }

  lemma {:induction false} EndsOfPayloads(env: Env, payloads: seq<string>)
    ensures CountEnds(RelayPayloads(env, payloads).plains) == if FirstDone(payloads) == Some(DONE) then 1 else 0
  {
    if payloads != [] {
      var n := |payloads| - 1;
      var init := payloads[..n];
      EndsOfPayloads(env, init);
      StatesAgree(env, init);
      StopsOnce(env.parse, init);
      FirstDoneIsDone(init);
      TrimSolid(DONE);
      var r := RelayPayloads(env, init);
      RelayEnds(env, r.state, payloads[n]);
      CountEndsAppend(r.plains, RelayPayload(env, r.state, payloads[n]).plains);
    }
  }

  /** At most one StreamEnd is sent, and exactly one unless the first payload of the body that trims to
      `[DONE]` is not literally `[DONE]`. */
  lemma StreamEndExactly(env: Env, body: string)
    ensures CountEnds(WholeBody(env, body))
            == if FirstDone(BodyPayloads(body)) in {None, Some(DONE)} then 1 else 0
  {
    var p := BodyPayloads(body);
    WholeBodyIsPayloads(env, body);
    EndsOfPayloads(env, p + [DONE]);
    FirstDoneSnoc(p, DONE);
    DoneIsDone();
  }

  const BLANK_LINE := "data: "
  const DONE_LINE := "data: " + DONE

  /** Two data lines, the first empty, are such a body: the message ends without a StreamEnd. */
  lemma BlankLineBeforeDoneLosesStreamEnd(env: Env)
    ensures var body := BLANK_LINE + "\n" + DONE_LINE + "\n\n";
            CountEnds(WholeBody(env, body)) == 0 && CountStops(BodyEvents(env, body)) == 1
  {
    BlankLineFields();
    BlankLineIsDone("");
    TwoDataLinesBody(BLANK_LINE, DONE_LINE, "", DONE);
    UnliteralDone(env, BLANK_LINE + "\n" + DONE_LINE + "\n\n", "" + "\n" + DONE);
  }

  lemma UnliteralDone(env: Env, body: string, payload: string)
    requires BodyPayloads(body) == [payload] && IsDone(payload) && payload != DONE
    ensures CountEnds(WholeBody(env, body)) == 0 && CountStops(BodyEvents(env, body)) == 1
  {
    assert [payload] == [] + [payload];
    FirstDoneSnoc([], payload);
    StreamEndExactly(env, body);
    StopsOnce(env.parse, [payload] + [DONE]);
    assert ([payload] + [DONE])[0] == payload;
  }

  lemma TwoDataLinesBody(l0: string, l1: string, d0: string, d1: string)
    requires OneLine(l0) && OneLine(l1) && l0 != "" && l1 != ""
    requires DataLines([l0]) == [d0] && DataLines([l1]) == [d1]
    ensures BodyPayloads(l0 + "\n" + l1 + "\n\n") == [d0 + "\n" + d1]
  {
    var block := l0 + "\n" + l1;
    assert forall j :: 0 <= j < |block| && block[j] == '\n' ==> j == |l0|;
    CutOneBlock(block);
    TwoDataLines(l0, l1, d0, d1);
    OnePayload(block);
  }

  lemma OnePayload(block: string)
    ensures Payloads([block]) == match BlockPayload(block) case None => [] case Some(payload) => [payload]
  {
    assert [block][..0] == [];
  }

  lemma TwoLineBlock(l0: string, l1: string)
    requires OneLine(l0) && OneLine(l1)
    ensures BlockLines(l0 + "\n" + l1) == [l0, l1]
  {
    ReplaceCrLfNoCr(l0 + "\n" + l1);
    SplitTwoLines(l0, l1);
  }

  lemma JoinTwo(s: string, t: string)
    ensures [s] + [t] == [s, t]
    ensures Join([s, t], "\n") == s + "\n" + t
  {
    assert [s, t][1..] == [t];
  }

  lemma BlankLineFields()
    ensures OneLine(BLANK_LINE) && DataLines([BLANK_LINE]) == [""]
    ensures OneLine(DONE_LINE) && DataLines([DONE_LINE]) == [DONE]
  {
    BlankLineField();
    DoneLineField();
  }

  lemma BlankLineField()
    ensures OneLine(BLANK_LINE) && DataLines([BLANK_LINE]) == [""]
  {
    hide DataLines, Trim;
    TrimBlankData();
    OneLineFields(BLANK_LINE);
  }

  lemma DataField(data: string)
    requires OneLine(data) && Solid(data)
    ensures OneLine("data: " + data) && DataLines(["data: " + data]) == [data]
  {
    DataLine(data);
    OneLineFields("data: " + data);
  }

  lemma DoneLineField()
    ensures OneLine(DONE_LINE) && DataLines([DONE_LINE]) == [DONE]
  {
    DataField(DONE);
  }

  lemma TwoDataLines(l0: string, l1: string, d0: string, d1: string)
    requires OneLine(l0) && OneLine(l1) && DataLines([l0]) == [d0] && DataLines([l1]) == [d1]
    ensures BlockPayload(l0 + "\n" + l1) == Some(d0 + "\n" + d1)
  {
    TwoLineFields(l0, l1);
    TwoLineBlock(l0, l1);
    JoinTwo(d0, d1);
  }

  lemma BlankLineIsDone(s: string)
    requires s == ""
    ensures IsDone(s + "\n" + DONE) && s + "\n" + DONE != DONE
  {
    var t := s + "\n" + DONE;
    assert t[1..] == DONE;
    assert TrimLeft(t) == TrimLeft(DONE);
    TrimSolid(DONE);
  }

  lemma TrimBlankData()
    ensures Trim("data: ") == "data:" && "data:" <= Trim("data: ") && Trim(Trim("data: ")[5..]) == ""
  {
    var s := "data: ";
    assert s[..5] == "data:";
    assert TrimLeft(s) == s;
    assert TrimRight(s) == TrimRight("data:") by { assert TrailingSpace(s) == 1; }
    TrimSolid("data:");
    assert "data:"[5..] == "";
  }

  // ---------- the message ----------

  /** Where the first `[DONE]` is, or the number of payloads. */
  function DoneAt(payloads: seq<string>): (k: nat)
    ensures k <= |payloads|
    ensures k < |payloads| ==> IsDone(payloads[k])
  {
    if payloads == [] || IsDone(payloads[0]) then 0 else 1 + DoneAt(payloads[1..])
  }

  lemma {:induction false} DoneAtIsFirst(payloads: seq<string>)
    ensures NoDone(payloads[..DoneAt(payloads)])
  {
    if payloads != [] && !IsDone(payloads[0]) {
      var k := DoneAt(payloads[1..]);
      DoneAtIsFirst(payloads[1..]);
      assert payloads[..k + 1] == [payloads[0]] + payloads[1..][..k];
    }
  }

  /** Whatever comes after the first `[DONE]`, if there is one, is idle. */
  predicate QuietAfterDone(parse: string -> Chunk, payloads: seq<string>) {
    var k := DoneAt(payloads);
    k == |payloads|
    || AllIdle(parse, Started(parse, payloads[..k]), TagAfter(parse, false, payloads[..k]), payloads[k + 1..])
  }

  lemma AllIdleThenDone(parse: string -> Chunk, started: bool, tag: bool, more: seq<string>)
    ensures AllIdle(parse, started, tag, more + [DONE]) <==> AllIdle(parse, started, tag, more)
  {
    DoneIsDone();
    assert (more + [DONE])[..|more|] == more;
  }

  lemma WholeWhenDone(parse: string -> Chunk, p: seq<string>)
    requires NoDone(p)
    ensures WholeMessage(Run(parse, p + [DONE]).events)
  {
    DoneIsDone();
    FinishedRunIsMessage(parse, p, DONE);
  }

  lemma SplitAt<T>(p: seq<T>, k: nat, tail: seq<T>)
    requires k < |p|
    ensures p + tail == p[..k] + [p[k]] + (p[k + 1..] + tail)
  {
  }

  lemma PayloadsMakeMessageIff(parse: string -> Chunk, p: seq<string>)
    ensures WholeMessage(Run(parse, p + [DONE]).events) <==> QuietAfterDone(parse, p)
  {
    hide WholeMessage, Run, AllIdle, TagAfter, Started;
    var k := DoneAt(p);
    DoneAtIsFirst(p);
    if k == |p| {
      assert p[..k] == p;
      WholeWhenDone(parse, p);
    } else {
      var before, more := p[..k], p[k + 1..];
      SplitAt(p, k, [DONE]);
      MessageIffIdleAfterDone(parse, before, p[k], more + [DONE]);
      AllIdleThenDone(parse, Started(parse, before), TagAfter(parse, false, before), more);
    }
  }

  /** The client is sent one whole message if and only if all that the body says after its first `[DONE]` is
      idle. */
  lemma BodyIsMessageIff(env: Env, body: string)
    ensures WholeMessage(BodyEvents(env, body)) <==> QuietAfterDone(env.parse, BodyPayloads(body))
  {
    PayloadsMakeMessageIff(env.parse, BodyPayloads(body));
  }

  /** End to end: the client splits and opens the wire bytes of a response and reads the payloads of the
      whole body, in order, numbered from 0, up to the last number the counter can give. */
  lemma ClientReadsWholeBody(a: Aead, k: Keys, env: Env, body: string)
    requires ValidKeys(k) && a.Lawful() && Frameable(WholeBody(env, body))
    ensures var plains := WholeBody(env, body);
            var sent := plains[..Sendable(|plains|)];
            ReadStream(a, k, Stream(a, k, sent)) == Ok(Numbered(sent))
    ensures |WholeBody(env, body)| <= MAX_SEQ ==>
              ReadStream(a, k, Stream(a, k, WholeBody(env, body))) == Ok(Numbered(WholeBody(env, body)))
  {
    var plains := WholeBody(env, body);
    var sent := plains[..Sendable(|plains|)];
    StreamRoundTrip(a, k, sent);
    if |plains| <= MAX_SEQ { assert sent == plains; }
  }
}
