/** The response writers of `pkg/proxy/hpke_middleware.go` and `pkg/proxy/messages_translator.go`:
    SSE bytes in arbitrary chunks go in, numbered AEAD frames come out. */
module Responder {
  import opened Text
  import opened Sse
  import opened Session
  import opened Translator

  const MAX_SSE_BUFFER: nat := 1024 * 1024

  // ---------- specification: blocks to payloads ----------

  /** What `writeEncryptedSSEBlock` hands to the session for one block: nothing, or one payload. */
  function BlockPlains(block: string): seq<Plain> {
    var lines := BlockLines(block);
    var data := Join(DataLines(lines), "\n");
    if data == "" then []
    else
      var eventType := EventType(lines);
      var payload := if eventType != "" then EventText(eventType, data) else data;
      [Plain(if payload == DONE then FRAME_STREAM_END else FRAME_TOKEN_DELTA, payload)]
  }

  /** The line breaks of a block do not show in its frame. */
  lemma CrLfEventIsOneFrame(eventType: string, data: string)
    requires OneLine(eventType) && Solid(eventType)
    requires OneLine(data) && Solid(data)
    ensures BlockPlains("event: " + eventType + "\r\ndata: " + data)
            == [Plain('\U{01}', "event: " + eventType + "\ndata: " + data + "\n\n")]
  {
    hide BlockLines, DataLines, EventType;
    CrLfEventReadsBack(eventType, data);
    assert Join([data], "\n") == data;
    assert EventText(eventType, data)[0] == 'e';
  }

  function Plains(blocks: seq<string>): seq<Plain> {
    if blocks == [] then []
    else Plains(blocks[..|blocks| - 1]) + BlockPlains(blocks[|blocks| - 1])
  }

  lemma {:induction false} PlainsAppend(p: seq<string>, q: seq<string>)
    ensures Plains(p + q) == Plains(p) + Plains(q)
  {
    if q == [] {
      assert p + q == p;
    } else {
      var n := |q| - 1;
      assert (p + q)[..|p + q| - 1] == p + q[..n];
      PlainsAppend(p, q[..n]);
      AppendAssoc(Plains(p), Plains(q[..n]), BlockPlains(q[n]));
    }
  }

  /** Every block of a finished body: an unterminated tail counts as one more. */
  function AllBlocks(p: Pieces): seq<string> {
    if p.rest == "" then p.blocks else p.blocks + [p.rest]
  }

  /** One call of `processSSEBuffer`: the blocks it writes and what it keeps. */
  function Drain(buf: string, drainAll: bool): (p: Pieces)
    ensures !drainAll ==> |p.rest| <= MAX_SSE_BUFFER
    ensures drainAll ==> p.rest == ""
  {
    var p := Cut(buf);
    if drainAll || |p.rest| > MAX_SSE_BUFFER then Pieces(AllBlocks(p), "") else p
  }

  /** How many of `n` payloads the 32-bit counter lets a session number. */
  function Sendable(n: nat): (m: nat)
    ensures m <= n && m <= MAX_SEQ
  {
    if n <= MAX_SEQ then n else MAX_SEQ
  }

  // ---------- the encrypting writer ----------

  /** `isStreaming` and `statusCode` are fixed by the upstream response head. */
  class HpkeResponseWriter {
    const session: HPKESession
    const isStreaming: bool
    const statusCode: int
    var sseBuf: string
    var nonSSEBuf: string
    /** The bytes written to the client. */
    var wire: string
    /** The keys of the session before `Finish` wipes them. */
    ghost const keys: Keys
    /** Every payload handed to the session, in order. */
    ghost var plains: seq<Plain>

    ghost predicate Valid()
      reads this, session
    {
      && session.Valid() && ValidKeys(keys)
      && session.ResponseKeys() == keys
      && session.seqNum == Sendable(|plains|)
      && (!isStreaming ==> plains == [])
      && OnWire()
    }

    /** The client has received the frames of all payloads the counter allows. */
    ghost predicate OnWire()
      reads this
      requires ValidKeys(keys)
    {
      wire == Stream(session.aead, keys, plains[..Sendable(|plains|)])
    }

    constructor (session: HPKESession, isStreaming: bool, statusCode: int)
      requires session.Valid() && session.seqNum == 0
      ensures this.session == session && this.isStreaming == isStreaming && this.statusCode == statusCode
      ensures keys == session.ResponseKeys()
      ensures Valid() && sseBuf == "" && nonSSEBuf == "" && plains == []
    {
      this.session, this.isStreaming, this.statusCode := session, isStreaming, statusCode;
      sseBuf, nonSSEBuf, wire := "", "", "";
      keys, plains := session.ResponseKeys(), [];
    }

    /** Numbers, seals and sends one payload; past the last counter value it is dropped. */
    method SendFrame(frameType: char, payload: string)
      requires Valid() && isStreaming
      modifies this`wire, this`plains, session
      ensures Valid() && plains == old(plains) + [Plain(frameType, payload)]
    {
      ghost var p, n := Plain(frameType, payload), session.seqNum;
      var frame := session.EncryptFrame(frameType, payload);
      if frame.Ok? {
        wire := wire + frame.value;
        StreamSnoc(session.aead, keys, plains[..n], p);
        assert plains[..n] == plains;
        assert (plains + [p])[..n + 1] == plains + [p];
      } else {
        assert (plains + [p])[..n] == plains[..n];
      }
      plains := plains + [p];
    }

    method WriteEncryptedSSEBlock(block: string)
      requires Valid() && isStreaming
      modifies this`wire, this`plains, session
      ensures Valid() && plains == old(plains) + BlockPlains(block)
    {
      hide SplitLines, ReplaceCrLf, DataLines, EventType, Trim;
      NoFields();
      var lines := SplitLines(ReplaceCrLf(block));
      var eventType, dataLines := "", [];
      for i := 0 to |lines|
        invariant eventType == EventType(lines[..i]) && dataLines == DataLines(lines[..i])
        invariant Valid() && plains == old(plains)
      {
        FieldsSnoc(lines, i);
        var trimmed := Trim(lines[i]);
        if "event:" <= trimmed {
          assert trimmed[0] == 'e';
          eventType := Trim(trimmed[6..]);
        } else if "data:" <= trimmed {
          dataLines := dataLines + [Trim(trimmed[5..])];
        }
      }
      assert lines[..|lines|] == lines;
      if |dataLines| == 0 { return; }
      var payload := Join(dataLines, "\n");
      if payload == "" { return; }
      if eventType != "" {
        payload := EventText(eventType, payload);
      }
      if payload == DONE {
        SendFrame(FRAME_STREAM_END, DONE);
      } else {
        SendFrame(FRAME_TOKEN_DELTA, payload);
      }
    }

    /** `whole` has been consumed up to the current buffer, as the blocks `done`. */
    ghost predicate Consumed(whole: string, base: seq<Plain>, done: seq<string>)
      reads this
    {
      Cut(whole) == CutAfter(done, sseBuf) && plains == base + Plains(done)
    }

    /** Cuts the first complete event off the buffer and writes it. */
    method TakeEvent(at: nat, len: nat, ghost whole: string, ghost base: seq<Plain>, ghost done: seq<string>)
      requires Valid() && isStreaming && FirstDelimiter(sseBuf) == Delimiter(at, len) && Consumed(whole, base, done)
      modifies this`sseBuf, this`wire, this`plains, session
      ensures Valid() && |sseBuf| < |old(sseBuf)| && Consumed(whole, base, done + [old(sseBuf)[..at]])
    {
      CutAfterDelimiter(done, sseBuf, at, len);
      var eventBlock := sseBuf[..at];
      PlainsOn(base, done, eventBlock);
      sseBuf := sseBuf[at + len..];
      WriteEncryptedSSEBlock(eventBlock);
    }

    /** Writes the whole buffer as one block. */
    method TakeAll()
      requires Valid() && isStreaming
      modifies this`sseBuf, this`wire, this`plains, session
      ensures Valid() && sseBuf == ""
      ensures plains == old(plains) + BlockPlains(old(sseBuf))
    {
      WriteEncryptedSSEBlock(sseBuf);
      sseBuf := "";
    }

    method TakeEvents() returns (ghost done: seq<string>)
      requires Valid() && isStreaming
      modifies this`sseBuf, this`wire, this`plains, session
      ensures Valid() && FirstDelimiter(sseBuf).NoDelimiter? && Consumed(old(sseBuf), old(plains), done)
    {
      done := [];
      ghost var whole, base := sseBuf, plains;
      AppendEmpty(Cut(sseBuf).blocks);
      AppendEmpty(plains);
      while FirstDelimiter(sseBuf).Delimiter?
        invariant Valid() && Consumed(whole, base, done)
        decreases |sseBuf|
      {
        var d := FirstDelimiter(sseBuf);
        ghost var block := sseBuf[..d.at];
        TakeEvent(d.at, d.len, whole, base, done);
        done := done + [block];
      }
    }

    method ProcessSSEBuffer(drainAll: bool)
      requires Valid() && isStreaming
      modifies this`sseBuf, this`wire, this`plains, session
      ensures Valid()
      ensures sseBuf == Drain(old(sseBuf), drainAll).rest
      ensures plains == old(plains) + Plains(Drain(old(sseBuf), drainAll).blocks)
    {
      ghost var done := TakeEvents();
      DrainEnds(old(sseBuf), done, sseBuf, drainAll);
      if |sseBuf| > 0 && (drainAll || |sseBuf| > MAX_SSE_BUFFER) {
        PlainsOn(old(plains), done, sseBuf);
        TakeAll();
      }
    }

    method Write(p: string)
      requires Valid()
      modifies this, session
      ensures Valid() && |sseBuf| <= |old(sseBuf)| + |p|
      ensures isStreaming ==>
                var d := Drain(old(sseBuf) + p, false);
                && sseBuf == d.rest && |sseBuf| <= MAX_SSE_BUFFER
                && plains == old(plains) + Plains(d.blocks) && nonSSEBuf == old(nonSSEBuf)
      ensures !isStreaming ==>
                nonSSEBuf == old(nonSSEBuf) + p && sseBuf == old(sseBuf) && wire == old(wire)
    {
      if isStreaming {
        sseBuf := sseBuf + p;
        ProcessSSEBuffer(false);
      } else {
        nonSSEBuf := nonSSEBuf + p;
      }
    }

    method Flush()
      requires Valid()
      modifies this, session
      ensures Valid() && nonSSEBuf == old(nonSSEBuf)
      ensures var d := if isStreaming then Drain(old(sseBuf), false) else Pieces([], old(sseBuf));
              sseBuf == d.rest && plains == old(plains) + Plains(d.blocks)
    {
      if isStreaming {
        ProcessSSEBuffer(false);
      }
    }

    /** The payloads of a buffered, non-streaming response. */
    ghost function UnaryPlains(): seq<Plain>
      reads this
    {
      if nonSSEBuf == "" then []
      else [Plain(if statusCode >= 400 then FRAME_ERROR else FRAME_COMPLETION, nonSSEBuf), Plain(FRAME_STREAM_END, DONE)]
    }

    /** Ends the response and wipes the session keys. */
    method Finish()
      requires Valid()
      modifies this, session
      ensures ValidKeys(keys) && OnWire()
      ensures plains == old(plains) + (if isStreaming then Plains(Drain(old(sseBuf), true).blocks) else old(UnaryPlains()))
      ensures session.Valid() && session.ResponseKeys() == Keys(Zeros(|keys.key|), Zeros(12))
    {
      hide Drain, Plains, Stream, Frame;
      if isStreaming {
        ProcessSSEBuffer(true);
      } else if nonSSEBuf != "" {
        var frameType := if statusCode >= 400 then FRAME_ERROR else FRAME_COMPLETION;
        var frame := session.EncryptFrame(frameType, nonSSEBuf);
        var endFrame := session.EncryptFrame(FRAME_STREAM_END, DONE);
        wire := wire + (frame.value + endFrame.value);
        plains := UnaryPlains();
        StreamOfTwo(session.aead, keys, plains[0], plains[1]);
        assert plains[..2] == plains;
      }
      session.Zeroize();
    }
  }

  lemma NoFields()
    ensures DataLines([]) == [] && EventType([]) == ""
  {
  }

  /** One more line of a block. */
  lemma FieldsSnoc(lines: seq<string>, i: nat)
    requires i < |lines|
    ensures var trimmed := Trim(lines[i]);
            && DataLines(lines[..i + 1])
               == DataLines(lines[..i]) + (if "data:" <= trimmed then [Trim(trimmed[5..])] else [])
            && EventType(lines[..i + 1]) == if "event:" <= trimmed then Trim(trimmed[6..]) else EventType(lines[..i])
  {
    assert lines[..i + 1][..i] == lines[..i];
  }

  /** The pieces of a body of which `done` has been cut off and `buf` is left. */
  function CutAfter(done: seq<string>, buf: string): Pieces {
    Pieces(done + Cut(buf).blocks, Cut(buf).rest)
  }

  lemma CutAfterDelimiter(done: seq<string>, buf: string, at: nat, len: nat)
    requires FirstDelimiter(buf) == Delimiter(at, len)
    ensures CutAfter(done, buf) == CutAfter(done + [buf[..at]], buf[at + len..])
  {
    CutAtDelimiter(buf, at, len);
    AppendAssoc(done, [buf[..at]], Cut(buf[at + len..]).blocks);
  }

  lemma StreamOfTwo(a: Aead, k: Keys, p: Plain, q: Plain)
    requires ValidKeys(k)
    ensures Stream(a, k, []) == ""
    ensures Stream(a, k, [p, q])
            == Frame(a, k, p.frameType, 0, p.plaintext) + Frame(a, k, q.frameType, 1, q.plaintext)
  {
    hide Frame;
    StreamSnoc(a, k, [], p);
    StreamSnoc(a, k, [p], q);
    assert [] + [p] == [p] && [p] + [q] == [p, q];
  }

  lemma PlainsSnoc(blocks: seq<string>, block: string)
    ensures Plains(blocks + [block]) == Plains(blocks) + BlockPlains(block)
  {
    assert (blocks + [block])[..|blocks|] == blocks;
  }

  lemma PlainsOn(base: seq<Plain>, blocks: seq<string>, block: string)
    ensures base + Plains(blocks + [block]) == base + Plains(blocks) + BlockPlains(block)
  {
    PlainsSnoc(blocks, block);
    AppendAssoc(base, Plains(blocks), BlockPlains(block));
  }

  lemma DrainEnds(whole: string, done: seq<string>, buf: string, drainAll: bool)
    requires Cut(whole) == CutAfter(done, buf)
    requires FirstDelimiter(buf).NoDelimiter?
    ensures Drain(whole, drainAll)
            == if buf != "" && (drainAll || |buf| > MAX_SSE_BUFFER) then Pieces(done + [buf], "") else Pieces(done, buf)
  {
    assert CutAfter(done, buf) == Pieces(done, buf);
  }
}
