/** The Messages response path: upstream SSE bytes, through the translator, printed, parsed
    again by the encrypting writer, and framed (`messagesResponseWriter`). */
module Messages {
  import opened Wrappers
  import opened Text
  import opened Sse
  import opened Session
  import opened Translator
  import opened Responder

  // ---------- specification: the whole body at once ----------

  /** A translator state and the payloads its events become. */
  datatype Relay = Relay(state: State, plains: seq<Plain>)

  /** One frame per event, with the event's text. */
  function EventPlains(env: Env, events: seq<Event>): seq<Plain> {
    seq(|events|, i requires 0 <= i < |events| => Plain(FRAME_TOKEN_DELTA, Print(env, events[i])))
  }

  const END := Plain(FRAME_STREAM_END, DONE)

  /** One payload: its events, and the end marker after a literal `[DONE]` that said anything. */
  function RelayPayload(env: Env, st: State, payload: string): Relay {
    var o := Step(env.parse, st, payload);
    Relay(o.state, EventPlains(env, o.events) + (if payload == DONE && o.events != [] then [END] else []))
  }

  /** The data payload of one block, if the block has any `data:` line. */
  function BlockPayload(block: string): Option<string> {
    var data := DataLines(BlockLines(block));
    if data == [] then None else Some(Join(data, "\n"))
  }

  function RelayBlock(env: Env, st: State, block: string): Relay {
    match BlockPayload(block)
    case None => Relay(st, [])
    case Some(payload) => RelayPayload(env, st, payload)
  }

  function RelayBlocks(env: Env, st: State, blocks: seq<string>): Relay {
    if blocks == [] then Relay(st, [])
    else
      var before := RelayBlocks(env, st, blocks[..|blocks| - 1]);
      var last := RelayBlock(env, before.state, blocks[|blocks| - 1]);
      Relay(last.state, before.plains + last.plains)
  }

  /** Everything a body becomes, given all of it at once. */
  function WholeBody(env: Env, body: string): seq<Plain> {
    var r := RelayBlocks(env, INITIAL, AllBlocks(Cut(body)));
    r.plains + RelayPayload(env, r.state, DONE).plains
  }

  lemma RelaySnoc(env: Env, st: State, blocks: seq<string>, block: string)
    ensures var before := RelayBlocks(env, st, blocks);
            var last := RelayBlock(env, before.state, block);
            RelayBlocks(env, st, blocks + [block]) == Relay(last.state, before.plains + last.plains)
  {
    assert (blocks + [block])[..|blocks|] == blocks;
  }

  lemma AppendLast<T>(p: seq<T>, q: seq<T>)
    requires q != []
    ensures q == q[..|q| - 1] + [q[|q| - 1]]
    ensures p + q == p + q[..|q| - 1] + [q[|q| - 1]]
  {
  }

  lemma {:induction false} RelayAppend(env: Env, st: State, p: seq<string>, q: seq<string>)
    ensures var before := RelayBlocks(env, st, p);
            var after := RelayBlocks(env, before.state, q);
            RelayBlocks(env, st, p + q) == Relay(after.state, before.plains + after.plains)
  {
    var before := RelayBlocks(env, st, p);
    if q == [] {
      AppendEmpty(p);
      AppendEmpty(before.plains);
    } else {
      var n := |q| - 1;
      var init, last := q[..n], q[n];
      var middle := RelayBlocks(env, before.state, init);
      RelayAppend(env, st, p, init);
      RelaySnoc(env, st, p + init, last);
      RelaySnoc(env, before.state, init, last);
      AppendAssoc(before.plains, middle.plains, RelayBlock(env, middle.state, last).plains);
      AppendLast(p, q);
    }
  }

  // ---------- the second parser undoes the printer ----------

  /** A printed event written to an empty buffer leaves it empty and becomes one frame, text verbatim. */
  lemma PrintedEventIsOneFrame(env: Env, e: Event)
    requires env.Lawful()
    ensures Drain(Print(env, e), false).rest == ""
    ensures Plains(Drain(Print(env, e), false).blocks) == [Plain(FRAME_TOKEN_DELTA, Print(env, e))]
  {
    var eventType, data := TypeName(e), Data(env, e);
    PrintedEventIsClean(env, e);
    EventTextReadsBack(eventType, data);
    var block := "event: " + eventType + "\ndata: " + data;
    OneBlockPlains(block);
    assert Print(env, e)[0] == 'e';
    assert Join([data], "\n") == data;
  }

  lemma OneBlockPlains(block: string)
    ensures Plains([block]) == BlockPlains(block)
  {
    PlainsSnoc([], block);
    AppendEmpty([block]);
    AppendEmpty(BlockPlains(block));
  }

  /** The end marker becomes the one StreamEnd frame. */
  lemma EndMarkerIsStreamEnd()
    ensures Drain("data: [DONE]\n\n", false).rest == ""
    ensures Plains(Drain("data: [DONE]\n\n", false).blocks) == [END] == [Plain('\U{03}', "[DONE]")]
  {
    hide BlockLines, DataLines, EventType;
    var block := "data: " + DONE;
    DataTextReadsBack(DONE);
    assert "data: [DONE]\n\n" == block + "\n\n";
    OneBlockPlains(block);
    assert Join([DONE], "\n") == DONE;
  }

  // ---------- the adapting writer ----------

  /** Streaming only: `hpke` was told that the upstream response is an event stream. */
  class MessagesResponseWriter {
    const hpke: HpkeResponseWriter
    const translator: AnthropicStreamTranslator
    var sseBuf: string

    ghost predicate Valid()
      reads this, hpke, hpke.session, translator
    {
      && hpke.Valid() && hpke.isStreaming && hpke.sseBuf == ""
      && translator.env.Lawful()
    }

    constructor (hpke: HpkeResponseWriter, env: Env)
      requires hpke.Valid() && hpke.isStreaming && hpke.sseBuf == "" && env.Lawful()
      ensures this.hpke == hpke && Valid() && sseBuf == ""
      ensures fresh(translator) && translator.env == env && translator.Now() == INITIAL
    {
      this.hpke := hpke;
      translator := new AnthropicStreamTranslator(env);
      sseBuf := "";
    }

    /** Writes the printed events of one step through to the encrypting writer. */
    method WriteEvents(texts: seq<string>, ghost events: seq<Event>)
      requires Valid() && texts == PrintAll(translator.env, events)
      modifies hpke, hpke.session
      ensures Valid() && hpke.plains == old(hpke.plains) + EventPlains(translator.env, events)
    {
      for i := 0 to |texts|
        invariant Valid()
        invariant hpke.plains == old(hpke.plains) + EventPlains(translator.env, events[..i])
      {
        PrintedEventIsOneFrame(translator.env, events[i]);
        EventPlainsSnoc(translator.env, events, i);
        AppendEmpty(texts[i]);
        hpke.Write(texts[i]);
      }
      assert events[..|texts|] == events;
    }

    /** One data payload: translate it, write its events, and end the stream after `[DONE]`. */
    method RelayOne(payload: string)
      requires Valid()
      modifies hpke, hpke.session, translator
      ensures Valid()
      ensures var r := RelayPayload(translator.env, old(translator.Now()), payload);
              translator.Now() == r.state && hpke.plains == old(hpke.plains) + r.plains
    {
      ghost var o := Step(translator.env.parse, translator.Now(), payload);
      var texts := translator.ProcessOpenAIChunk(payload);
      WriteEvents(texts, o.events);
      ghost var base := old(hpke.plains);
      if payload == DONE && |texts| > 0 {
        EndMarkerIsStreamEnd();
        AppendEmpty("data: [DONE]\n\n");
        AppendAssoc(base, EventPlains(translator.env, o.events), [END]);
        hpke.Write("data: [DONE]\n\n");
      } else {
        AppendEmpty(EventPlains(translator.env, o.events));
      }
    }

    /** One event block. */
    method RelayEvent(block: string)
      requires Valid()
      modifies hpke, hpke.session, translator
      ensures Valid()
      ensures var r := RelayBlock(translator.env, old(translator.Now()), block);
              translator.Now() == r.state && hpke.plains == old(hpke.plains) + r.plains
    {
      var lines := SplitLines(ReplaceCrLf(block));
      var dataLines := [];
      for i := 0 to |lines|
        invariant dataLines == DataLines(lines[..i])
        invariant Valid() && translator.Now() == old(translator.Now()) && hpke.plains == old(hpke.plains)
      {
        assert lines[..i + 1][..i] == lines[..i];
        var trimmed := Trim(lines[i]);
        if "data:" <= trimmed {
          dataLines := dataLines + [Trim(trimmed[5..])];
        }
      }
      assert lines[..|lines|] == lines;
      if |dataLines| > 0 {
        RelayOne(Join(dataLines, "\n"));
      }
    }

    /** `whole` has been consumed up to the current buffer, as the blocks `done`. */
    ghost predicate Consumed(whole: string, st: State, base: seq<Plain>, done: seq<string>)
      reads this, hpke, translator
    {
      && Cut(whole) == CutAfter(done, sseBuf)
      && var r := RelayBlocks(translator.env, st, done);
         translator.Now() == r.state && hpke.plains == base + r.plains
    }

    method TakeEvent(at: nat, len: nat, ghost whole: string, ghost st: State, ghost base: seq<Plain>, ghost done: seq<string>)
      requires Valid() && FirstDelimiter(sseBuf) == Delimiter(at, len) && Consumed(whole, st, base, done)
      modifies this, hpke, hpke.session, translator
      ensures Valid() && |sseBuf| < |old(sseBuf)| && Consumed(whole, st, base, done + [old(sseBuf)[..at]])
    {
      CutAfterDelimiter(done, sseBuf, at, len);
      var eventBlock := sseBuf[..at];
      RelaySnoc(translator.env, st, done, eventBlock);
      ghost var before := RelayBlocks(translator.env, st, done);
      AppendAssoc(base, before.plains, RelayBlock(translator.env, before.state, eventBlock).plains);
      sseBuf := sseBuf[at + len..];
      RelayEvent(eventBlock);
    }

    /** Relays every complete event in the buffer. */
    method ProcessSSE()
      requires Valid()
      modifies this, hpke, hpke.session, translator
      ensures Valid()
      ensures var p := Cut(old(sseBuf));
              var r := RelayBlocks(translator.env, old(translator.Now()), p.blocks);
              && sseBuf == p.rest
              && translator.Now() == r.state && hpke.plains == old(hpke.plains) + r.plains
    {
      ghost var whole, st, base, done := sseBuf, translator.Now(), hpke.plains, [];
      AppendEmpty(Cut(sseBuf).blocks);
      AppendEmpty(base);
      while FirstDelimiter(sseBuf).Delimiter?
        invariant Valid() && Consumed(whole, st, base, done)
        decreases |sseBuf|
      {
        var d := FirstDelimiter(sseBuf);
        ghost var block := sseBuf[..d.at];
        TakeEvent(d.at, d.len, whole, st, base, done);
        done := done + [block];
      }
      CutNothing(sseBuf);
      AppendEmpty(done);
    }

    method Write(p: string)
      requires Valid()
      modifies this, hpke, hpke.session, translator
      ensures Valid()
      ensures var c := Cut(old(sseBuf) + p);
              var r := RelayBlocks(translator.env, old(translator.Now()), c.blocks);
              && sseBuf == c.rest
              && translator.Now() == r.state && hpke.plains == old(hpke.plains) + r.plains
    {
      sseBuf := sseBuf + p;
      ProcessSSE();
    }

    method Flush()
      requires Valid()
      modifies this, hpke, hpke.session, translator
      ensures Valid()
      ensures var c := Cut(old(sseBuf));
              var r := RelayBlocks(translator.env, old(translator.Now()), c.blocks);
              && sseBuf == c.rest
              && translator.Now() == r.state && hpke.plains == old(hpke.plains) + r.plains
    {
      ProcessSSE();
      CutNothing("");
      hpke.Flush();
    }

    /** Relays what is left, then ends the message. */
    method Finish()
      requires Valid()
      modifies this, hpke, hpke.session, translator
      ensures Valid()
      ensures var r := RelayBlocks(translator.env, old(translator.Now()), AllBlocks(Cut(old(sseBuf))));
              hpke.plains == old(hpke.plains) + (r.plains + RelayPayload(translator.env, r.state, DONE).plains)
    {
      ghost var c, st, base := Cut(sseBuf), translator.Now(), hpke.plains;
      ProcessSSE();
      if sseBuf != "" {
        RelaySnoc(translator.env, st, c.blocks, sseBuf);
        ghost var before := RelayBlocks(translator.env, st, c.blocks);
        AppendAssoc(base, before.plains, RelayBlock(translator.env, before.state, sseBuf).plains);
        RelayEvent(sseBuf);
        sseBuf := "";
      }
      ghost var r := RelayBlocks(translator.env, st, AllBlocks(c));
      AppendAssoc(base, r.plains, RelayPayload(translator.env, r.state, DONE).plains);
      RelayOne(DONE);
    }
  }

  lemma EventPlainsSnoc(env: Env, events: seq<Event>, i: nat)
    requires i < |events|
    ensures forall base :: base + EventPlains(env, events[..i + 1])
                           == base + EventPlains(env, events[..i]) + [Plain(FRAME_TOKEN_DELTA, Print(env, events[i]))]
  {
    var p, q := EventPlains(env, events[..i]), [Plain(FRAME_TOKEN_DELTA, Print(env, events[i]))];
    assert EventPlains(env, events[..i + 1]) == p + q;
    forall base
      ensures base + (p + q) == base + p + q
    {
      AppendAssoc(base, p, q);
    }
  }
}
