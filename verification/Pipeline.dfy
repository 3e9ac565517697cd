/** Whole responses: any sequence of writes and flushes, then the deferred `Finish` calls
    (`pkg/proxy/server.go`), for the direct path and for the Messages path. */
module Pipeline {
  import opened Text
  import opened Sse
  import opened Session
  import opened Translator
  import opened Responder
  import opened Messages

  /** What the reverse proxy does with a response writer. */
  datatype Op = WriteOp(bytes: string) | FlushOp

  function OpBytes(op: Op): string {
    match op
    case WriteOp(bytes) => bytes
    case FlushOp => ""
  }

  function Body(ops: seq<Op>): string {
    if ops == [] then "" else Body(ops[..|ops| - 1]) + OpBytes(ops[|ops| - 1])
  }

  // ---------- the direct path ----------

  /** The buffer and the blocks written after some operations, as one `Pieces` value. */
  function Received(ops: seq<Op>): Pieces {
    if ops == [] then Pieces([], "")
    else
      var before := Received(ops[..|ops| - 1]);
      var d := Drain(before.rest + OpBytes(ops[|ops| - 1]), false);
      Pieces(before.blocks + d.blocks, d.rest)
  }

  /** All blocks written by the end of `Finish`. */
  function DirectBlocks(ops: seq<Op>): seq<string> {
    var p := Received(ops);
    p.blocks + Drain(p.rest, true).blocks
  }

  /** What never exceeds the buffer ceiling: the pending bytes after any proper prefix. */
  predicate NeverForced(body: string) {
    forall k :: 0 <= k < |body| ==> |Cut(body[..k]).rest| <= MAX_SSE_BUFFER
  }

  lemma BodySnoc(ops: seq<Op>, op: Op)
    ensures Body(ops + [op]) == Body(ops) + OpBytes(op)
  {
    assert (ops + [op])[..|ops|] == ops;
  }

  lemma {:induction false} BodyPrefix(ops: seq<Op>, i: nat)
    requires i <= |ops|
    ensures Body(ops[..i]) <= Body(ops)
    decreases |ops|
  {
    if i == |ops| {
      assert ops[..i] == ops;
    } else {
      var n := |ops| - 1;
      BodyPrefix(ops[..n], i);
      assert ops[..n][..i] == ops[..i];
    }
  }

  /** While nothing was forced out, the buffer and the blocks are those of the bytes so far.  Only the
      last bytes of the body may still be forced out, as the tail `Finish` would write anyway. */
  lemma {:induction false} ReceivedIsCut(ops: seq<Op>, i: nat)
    requires i <= |ops| && NeverForced(Body(ops))
    ensures var p := Cut(Body(ops[..i]));
            || Received(ops[..i]) == p
            || (Body(ops[..i]) == Body(ops) && Received(ops[..i]) == Pieces(AllBlocks(p), ""))
  {
    if i == 0 {
      CutNothing("");
    } else {
      var before, body := ops[..i - 1], Body(ops);
      assert ops[..i][..i - 1] == before;
      ReceivedIsCut(ops, i - 1);
      BodyPrefix(ops, i);
      BodyPrefix(ops, i - 1);
      assert Body(ops[..i]) == body[..|Body(ops[..i])|];
      var a, b := Body(before), OpBytes(ops[i - 1]);
      CutAppend(a, b);
      if Received(before) == Cut(a) {
        DrainOn(Cut(a), b);
      } else {
        assert b == "";
        CutNothing("");
        AppendEmpty(AllBlocks(Cut(a)));
      }
    }
  }

  lemma DrainOn(p: Pieces, b: string)
    ensures var d, q := Drain(p.rest + b, false), CutOn(p, b);
            Pieces(p.blocks + d.blocks, d.rest)
            == if |q.rest| > MAX_SSE_BUFFER then Pieces(AllBlocks(q), "") else q
  {
    var c := Cut(p.rest + b);
    AppendAssoc(p.blocks, c.blocks, [c.rest]);
  }

  /** Draining everything that is pending completes the blocks. */
  lemma DrainAllCompletes(p: Pieces)
    requires FirstDelimiter(p.rest).NoDelimiter?
    ensures p.blocks + Drain(p.rest, true).blocks == AllBlocks(p)
  {
    CutNothing(p.rest);
    AppendEmpty([p.rest]);
    AppendEmpty(p.blocks);
  }

  /** If the ceiling is never hit, chunking and flushing do not matter: the blocks are those of the
      whole body cut at once. */
  lemma DirectIsOneShot(ops: seq<Op>)
    requires NeverForced(Body(ops))
    ensures DirectBlocks(ops) == AllBlocks(Cut(Body(ops)))
  {
    ReceivedIsCut(ops, |ops|);
    assert ops[..|ops|] == ops;
    var p := Cut(Body(ops));
    CutRest(Body(ops));
    CutNothing("");
    DrainAllCompletes(p);
    AppendEmpty(AllBlocks(p));
  }

  /** One write of everything that is left, then `Finish`. */
  lemma OneWriteThenFinish(blocks: seq<string>, q: string)
    ensures var d := Drain(q, false);
            (blocks + d.blocks) + Drain(d.rest, true).blocks == blocks + AllBlocks(Cut(q))
  {
    var d := Drain(q, false);
    CutRest(q);
    CutNothing("");
    DrainAllCompletes(d);
    AppendEmpty(d.blocks);
    AppendAssoc(blocks, d.blocks, Drain(d.rest, true).blocks);
  }

  /** Cutting `a`, which holds no delimiter, off early shows: `a + b` never has the same blocks. */
  lemma ForcingShows(a: string, b: string)
    requires FirstDelimiter(a).NoDelimiter? && b != ""
    ensures [a] + AllBlocks(Cut(b)) != AllBlocks(Cut(a + b))
  {
    match FirstDelimiter(a + b)
    case NoDelimiter =>
      CutNothing(a + b);
      DifferentFirst(a, AllBlocks(Cut(b)), a + b, []);
      AppendEmpty([a + b]);
    case Delimiter(at, len) =>
      var w := a + b;
      CutAtDelimiter(w, at, len);
      AllBlocksCons(w[..at], Cut(w[at + len..]));
      if at == |a| {
        ForcingShowsAtSeam(a, b, len);
      } else {
        DifferentFirst(a, AllBlocks(Cut(b)), w[..at], AllBlocks(Cut(w[at + len..])));
      }
  }

  lemma DifferentFirst(x: string, p: seq<string>, y: string, q: seq<string>)
    requires |x| != |y|
    ensures [x] + p != [y] + q
  {
    assert ([x] + p)[0] == x && ([y] + q)[0] == y;
  }

  lemma ForcingShowsAtSeam(a: string, b: string, len: nat)
    requires FirstDelimiter(a + b) == Delimiter(|a|, len)
    ensures [a] + AllBlocks(Cut(b)) != [(a + b)[..|a|]] + AllBlocks(Cut((a + b)[|a| + len..]))
  {
    DelimiterAtSeam(a, b, len);
    CutAtDelimiter(b, 0, len);
    assert (a + b)[|a| + len..] == b[len..];
    AllBlocksCons(b[..0], Cut(b[len..]));
    var others := AllBlocks(Cut(b[len..]));
    assert |[b[..0]] + others| != |others|;
  }

  lemma AllBlocksCons(block: string, p: Pieces)
    ensures AllBlocks(Pieces([block] + p.blocks, p.rest)) == [block] + AllBlocks(p)
  {
    AppendAssoc([block], p.blocks, [p.rest]);
  }

  lemma DelimiterAtSeam(a: string, b: string, len: nat)
    requires FirstDelimiter(a + b) == Delimiter(|a|, len)
    ensures FirstDelimiter(b) == Delimiter(0, len)
  {
    FirstDelimiterIsFirst(a + b, |a|, len);
    var w := a + b;
    assert forall i :: 0 <= i < |b| ==> w[|a| + i] == b[i];
    assert DelimiterAt(b, 0, len);
    FirstDelimiterIsFirst(b, 0, len);
  }

  /** The exact condition: every chunking of `body` is written as the one-shot blocks if and only if
      each stretch between delimiters, short of completing its delimiter, fits in the buffer. */
  lemma DirectExactly(body: string)
    ensures (forall ops :: Body(ops) == body ==> DirectBlocks(ops) == AllBlocks(Cut(body))) <==> ShortStretches(body)
  {
    NeverForcedIsShortStretches(body);
    if NeverForced(body) {
      forall ops | Body(ops) == body
        ensures DirectBlocks(ops) == AllBlocks(Cut(body))
      {
        DirectIsOneShot(ops);
      }
    } else {
      var k :| 0 <= k < |body| && |Cut(body[..k]).rest| > MAX_SSE_BUFFER;
      ForcedChunking(body, k);
    }
  }

  /** Two writes, the first of which is forced out. */
  lemma TwoWrites(a: string, b: string)
    requires |Cut(a).rest| > MAX_SSE_BUFFER
    ensures var ops := [WriteOp(a)] + [WriteOp(b)];
            Body(ops) == a + b && DirectBlocks(ops) == AllBlocks(Cut(a)) + AllBlocks(Cut(b))
  {
    var first := [WriteOp(a)];
    var ops := first + [WriteOp(b)];
    var blocks := AllBlocks(Cut(a));
    AfterOneWrite(a);
    assert ops[..1] == first;
    AppendEmpty(b);
    assert Received(ops) == Pieces(blocks + Drain(b, false).blocks, Drain(b, false).rest);
    OneWriteThenFinish(blocks, b);
    BodySnoc(first, WriteOp(b));
  }

  lemma ForcedChunking(body: string, k: nat)
    requires k < |body| && |Cut(body[..k]).rest| > MAX_SSE_BUFFER
    ensures var ops := [WriteOp(body[..k])] + [WriteOp(body[k..])];
            Body(ops) == body && DirectBlocks(ops) != AllBlocks(Cut(body))
  {
    var a, b := body[..k], body[k..];
    var p := Cut(a);
    assert a + b == body;
    TwoWrites(a, b);
    CutAppend(a, b);
    CutRest(a);
    ForcingShows(p.rest, b);
    SamePrefixDiffers(p.blocks, [p.rest] + AllBlocks(Cut(b)), AllBlocks(Cut(p.rest + b)));
    AppendAssoc(p.blocks, [p.rest], AllBlocks(Cut(b)));
    AllBlocksAppend(p.blocks, Cut(p.rest + b));
  }

  lemma AfterOneWrite(a: string)
    requires |Cut(a).rest| > MAX_SSE_BUFFER
    ensures Body([WriteOp(a)]) == a
    ensures Received([WriteOp(a)]) == Pieces(AllBlocks(Cut(a)), "")
  {
    var first := [WriteOp(a)];
    assert first[..0] == [];
    AppendEmpty(a);
    AppendEmpty(AllBlocks(Cut(a)));
  }

  lemma AllBlocksAppend(blocks: seq<string>, p: Pieces)
    ensures AllBlocks(Pieces(blocks + p.blocks, p.rest)) == blocks + AllBlocks(p)
  {
    AppendAssoc(blocks, p.blocks, [p.rest]);
  }

  lemma SamePrefixDiffers<T>(a: seq<T>, b: seq<T>, c: seq<T>)
    requires b != c
    ensures a + b != a + c
  {
    assert (a + b)[|a|..] == b && (a + c)[|a|..] == c;
  }

  /** Every stretch up to a delimiter, less the delimiter's last byte, fits under the ceiling; so does
      the tail, less its last byte. */
  predicate ShortStretches(body: string)
    decreases |body|
  {
    match FirstDelimiter(body)
    case NoDelimiter => |body| <= MAX_SSE_BUFFER + 1
    case Delimiter(at, len) => at + len <= MAX_SSE_BUFFER + 1 && ShortStretches(body[at + len..])
  }

  lemma DelimiterInPrefix(p: string, q: string, at: nat, len: nat)
    requires FirstDelimiter(p + q) == Delimiter(at, len) && at + len <= |p|
    ensures FirstDelimiter(p) == Delimiter(at, len)
  {
    FirstDelimiterIsFirst(p + q, at, len);
    FirstDelimiterIsFirst(p, at, len);
    var w := p + q;
    assert forall i :: 0 <= i < |p| ==> w[i] == p[i];
    forall j, m | 0 <= j < at
      ensures !DelimiterAt(p, j, m)
    {
      assert !DelimiterAt(w, j, m);
    }
    assert DelimiterAt(p, at, len);
  }

  /** How many bytes the first `k` leave pending, by the delimiters of the whole body. */
  function Pending(body: string, k: nat): nat
    requires k <= |body|
    decreases |body|
  {
    match FirstDelimiter(body)
    case NoDelimiter => k
    case Delimiter(at, len) => if k < at + len then k else Pending(body[at + len..], k - at - len)
  }

  /** A prefix is cut where the whole body is: nothing pending has a complete delimiter in it. */
  lemma {:induction false} PendingIsRest(body: string, k: nat)
    requires k <= |body|
    ensures |Cut(body[..k]).rest| == Pending(body, k)
    decreases |body|
  {
    hide FirstDelimiter, Cut;
    var p, q := body[..k], body[k..];
    assert p + q == body;
    if FirstDelimiter(p).Delimiter? {
      var Delimiter(at, len) := FirstDelimiter(p);
      FirstDelimiterStable(p, q);
      CutAtDelimiter(p, at, len);
      PendingIsRest(body[at + len..], k - at - len);
      assert body[at + len..][..k - at - len] == p[at + len..];
    } else {
      CutNothing(p);
      if FirstDelimiter(body).Delimiter? {
        var Delimiter(at, len) := FirstDelimiter(body);
        if at + len <= k { DelimiterInPrefix(p, q, at, len); }
      }
    }
  }

  lemma {:induction false} ShortStretchesPending(body: string, k: nat)
    requires ShortStretches(body) && k < |body|
    ensures Pending(body, k) <= MAX_SSE_BUFFER
    decreases |body|
  {
    hide FirstDelimiter;
    var d := FirstDelimiter(body);
    if d.Delimiter? && d.at + d.len <= k { ShortStretchesPending(body[d.at + d.len..], k - d.at - d.len); }
  }

  lemma {:induction false} LongStretchPending(body: string) returns (k: nat)
    requires !ShortStretches(body)
    ensures k < |body| && Pending(body, k) > MAX_SSE_BUFFER
    decreases |body|
  {
    match FirstDelimiter(body)
    case NoDelimiter => k := |body| - 1;
    case Delimiter(at, len) =>
      if at + len > MAX_SSE_BUFFER + 1 {
        k := at + len - 1;
      } else {
        k := LongStretchPending(body[at + len..]);
        k := k + at + len;
      }
  }

  /** The condition in terms of the body's own stretches. */
  lemma NeverForcedIsShortStretches(body: string)
    ensures NeverForced(body) <==> ShortStretches(body)
  {
    if ShortStretches(body) {
      forall k | 0 <= k < |body|
        ensures |Cut(body[..k]).rest| <= MAX_SSE_BUFFER
      {
        ShortStretchesPending(body, k);
        PendingIsRest(body, k);
      }
    } else {
      var k := LongStretchPending(body);
      PendingIsRest(body, k);
    }
  }

  // ---------- a forced flush can change what the client sees ----------

  function Letters(n: nat): (s: string)
    ensures |s| == n
    ensures forall i :: 0 <= i < n ==> s[i] == 'a'
  {
    seq(n, _ => 'a')
  }

  lemma DataBlockPlains(data: string)
    requires OneLine(data) && Solid(data) && data != DONE
    ensures BlockPlains("data: " + data) == [Plain(FRAME_TOKEN_DELTA, data)]
    ensures FirstDelimiter("data: " + data).NoDelimiter?
  {
    DataTextReadsBack(data);
    assert Join([data], "\n") == data;
    var block := "data: " + data;
    var d := FirstDelimiter(block);
    if d.Delimiter? { FirstDelimiterIsFirst(block, d.at, d.len); }
  }

  /** One event of a million letters, arriving in two writes: the client gets a shorter payload. */
  lemma ForcedFlushTruncates()
    ensures var body := "data: " + Letters(MAX_SSE_BUFFER);
            && Plains(AllBlocks(Cut(body))) == [Plain(FRAME_TOKEN_DELTA, Letters(MAX_SSE_BUFFER))]
            && exists ops :: Body(ops) == body
                 && Plains(DirectBlocks(ops)) == [Plain(FRAME_TOKEN_DELTA, Letters(MAX_SSE_BUFFER - 5))]
  {
    hide Plains, Cut, DirectBlocks;
    var a, b := "data: " + Letters(MAX_SSE_BUFFER - 5), Letters(5);
    LettersSplit(MAX_SSE_BUFFER - 5, 5);
    AppendAssoc("data: ", Letters(MAX_SSE_BUFFER - 5), b);
    LettersEvent(MAX_SSE_BUFFER);
    LettersEvent(MAX_SSE_BUFFER - 5);
    TwoWrites(a, b);
    LettersAreNoEvent();
    PlainsAppend(AllBlocks(Cut(a)), AllBlocks(Cut(b)));
    AppendEmpty(Plains(AllBlocks(Cut(a))));
    var ops := [WriteOp(a)] + [WriteOp(b)];
    assert Body(ops) == a + b;
  }

  /** An unterminated event with one line of letters. */
  lemma LettersEvent(n: nat)
    requires n > 6
    ensures var body := "data: " + Letters(n);
            && Cut(body).rest == body
            && Plains(AllBlocks(Cut(body))) == [Plain(FRAME_TOKEN_DELTA, Letters(n))]
  {
    var body := "data: " + Letters(n);
    DataBlockPlains(Letters(n));
    CutNothing(body);
    AppendEmpty([body]);
    OneBlockPlains(body);
  }

  lemma LettersSplit(m: nat, n: nat)
    ensures Letters(m + n) == Letters(m) + Letters(n)
  {
  }

  lemma LettersHaveNoDelimiter(n: nat)
    ensures FirstDelimiter(Letters(n)).NoDelimiter?
  {
    var b := Letters(n);
    var d := FirstDelimiter(b);
    if d.Delimiter? { FirstDelimiterIsFirst(b, d.at, d.len); }
  }

  lemma LettersAreNoEvent()
    ensures Plains(AllBlocks(Cut(Letters(5)))) == []
  {
    var b := Letters(5);
    LettersHaveNoDelimiter(5);
    CutNothing(b);
    AppendEmpty([b]);
    OneBlockPlains(b);
    LettersHaveNoField(5);
  }

  lemma LettersHaveNoField(n: nat)
    requires n > 0
    ensures BlockPlains(Letters(n)) == []
  {
    var b := Letters(n);
    assert Solid(b) && b[0] == 'a';
    assert BlockLines(b) == [b] by {
      ReplaceCrLfNoCr(b);
      SplitOneLine(b);
    }
    hide BlockLines, Trim, DataLines, EventType;
    TrimSolid(b);
    OneLineFields(b);
  }

  // ---------- serving a direct response ----------

  /** `newHPKEResponseWriter`, the proxy's operations, then `Finish`. */
  method ServeDirect(session: HPKESession, isStreaming: bool, statusCode: int, ops: seq<Op>)
    returns (rw: HpkeResponseWriter)
    requires session.Valid() && session.seqNum == 0
    modifies session
    ensures rw.session == session && rw.keys == old(session.ResponseKeys()) && ValidKeys(rw.keys)
    ensures rw.plains == if isStreaming then Plains(DirectBlocks(ops)) else UnaryPlainsOf(statusCode, Body(ops))
    ensures rw.OnWire()
    ensures session.Valid() && session.ResponseKeys() == Keys(Zeros(|rw.keys.key|), Zeros(12))
  {
    rw := new HpkeResponseWriter(session, isStreaming, statusCode);
    for i := 0 to |ops|
      invariant fresh(rw) && rw.Valid() && rw.session == session
      invariant rw.keys == old(session.ResponseKeys())
      invariant rw.isStreaming == isStreaming && rw.statusCode == statusCode
      invariant isStreaming ==> rw.plains == Plains(Received(ops[..i]).blocks) && rw.sseBuf == Received(ops[..i]).rest
      invariant !isStreaming ==> rw.nonSSEBuf == Body(ops[..i])
    {
      assert ops[..i + 1][..i] == ops[..i];
      ghost var p := Received(ops[..i]);
      AppendEmpty(p.rest);
      AppendEmpty(Body(ops[..i]));
      PlainsAppend(p.blocks, Drain(p.rest + OpBytes(ops[i]), false).blocks);
      match ops[i]
      case WriteOp(bytes) => rw.Write(bytes);
      case FlushOp => rw.Flush();
    }
    assert ops[..|ops|] == ops;
    PlainsAppend(Received(ops).blocks, Drain(Received(ops).rest, true).blocks);
    rw.Finish();
  }

  /** The frames of a non-streaming response: nothing for an empty body, else the body and the end. */
  function UnaryPlainsOf(statusCode: int, body: string): seq<Plain> {
    if body == "" then []
    else [Plain(if statusCode >= 400 then FRAME_ERROR else FRAME_COMPLETION, body), END]
  }

  // ---------- serving a Messages response ----------

  /** Both writers, the proxy's operations, then both `Finish` calls: whatever the chunking and wherever
      the flushes, the client is sent the frames of the whole body taken at once. */
  method ServeMessages(session: HPKESession, env: Env, statusCode: int, ops: seq<Op>)
    returns (rw: HpkeResponseWriter)
    requires session.Valid() && session.seqNum == 0 && env.Lawful()
    modifies session
    ensures rw.session == session && rw.keys == old(session.ResponseKeys()) && ValidKeys(rw.keys)
    ensures rw.plains == WholeBody(env, Body(ops))
    ensures rw.OnWire()
    ensures session.Valid() && session.ResponseKeys() == Keys(Zeros(|rw.keys.key|), Zeros(12))
  {
    rw := new HpkeResponseWriter(session, true, statusCode);
    var mw := new MessagesResponseWriter(rw, env);
    CutNothing("");
    for i := 0 to |ops|
      invariant fresh(rw) && fresh(mw) && fresh(mw.translator)
      invariant mw.Valid() && mw.hpke == rw && rw.session == session && mw.translator.env == env
      invariant rw.keys == old(session.ResponseKeys())
      invariant mw.sseBuf == Cut(Body(ops[..i])).rest
      invariant Relay(mw.translator.Now(), rw.plains) == RelayBlocks(env, INITIAL, Cut(Body(ops[..i])).blocks)
    {
      assert ops[..i + 1][..i] == ops[..i];
      ghost var body, p := Body(ops[..i]), Cut(Body(ops[..i]));
      AppendEmpty(p.rest);
      CutAppend(body, OpBytes(ops[i]));
      RelayAppend(env, INITIAL, p.blocks, Cut(p.rest + OpBytes(ops[i])).blocks);
      match ops[i]
      case WriteOp(bytes) => mw.Write(bytes);
      case FlushOp => mw.Flush();
    }
    assert ops[..|ops|] == ops;
    ghost var p := Cut(Body(ops));
    CutRest(Body(ops));
    CutNothing(p.rest);
    ghost var tail := AllBlocks(Pieces([], p.rest));
    AllBlocksAppend(p.blocks, Pieces([], p.rest));
    AppendEmpty(p.blocks);
    RelayAppend(env, INITIAL, p.blocks, tail);
    ghost var r := RelayBlocks(env, INITIAL, p.blocks);
    ghost var s := RelayBlocks(env, r.state, tail);
    AppendAssoc(r.plains, s.plains, RelayPayload(env, s.state, DONE).plains);
    mw.Finish();
    CutNothing("");
    AppendEmpty(rw.plains);
    rw.Finish();
  }
}
