/** What the deltas carry: no text is lost or invented, and raw `<think>` tags in streamed
    content come out as in the unary response. */
module ThinkTags {
  import opened Wrappers
  import opened Text
  import opened Translator
  import opened EventGrammar

  // ---------- the text of one kind of delta ----------

  function TextOf(e: Event, kind: Kind): string {
    if e.BlockDelta? && e.kind == kind then e.text else ""
  }

  function OfKind(kind: Kind, wanted: Kind, text: string): string { if kind == wanted then text else "" }

  /** The texts of all deltas of one kind, joined. */
  function DeltaText(log: seq<Event>, kind: Kind): string {
    if log == [] then "" else DeltaText(log[..|log| - 1], kind) + TextOf(log[|log| - 1], kind)
  }

  lemma {:induction false} DeltaTextAppend(p: seq<Event>, q: seq<Event>, kind: Kind)
    ensures DeltaText(p + q, kind) == DeltaText(p, kind) + DeltaText(q, kind)
  {
    if q == [] {
      assert p + q == p;
    } else {
      var n := |q| - 1;
      assert (p + q)[..|p + q| - 1] == p + q[..n];
      DeltaTextAppend(p, q[..n], kind);
      AppendAssoc(DeltaText(p, kind), DeltaText(q[..n], kind), TextOf(q[n], kind));
    }
  }

  lemma {:induction false} NoDeltaText(log: seq<Event>, kind: Kind)
    requires forall i :: 0 <= i < |log| ==> TextOf(log[i], kind) == ""
    ensures DeltaText(log, kind) == ""
  {
    if log != [] { NoDeltaText(log[..|log| - 1], kind); }
  }

  /** The arguments of all calls in a tool list, joined. */
  function Arguments(items: seq<ToolItem>): string {
    if items == [] then ""
    else
      var last := items[|items| - 1];
      Arguments(items[..|items| - 1]) + (if last.Call? then last.arguments else "")
  }

  lemma LastDeltaText(before: seq<Event>, e: Event, kind: Kind)
    requires forall i :: 0 <= i < |before| ==> !before[i].BlockDelta?
    ensures DeltaText(before + [e], kind) == TextOf(e, kind)
  {
    NoDeltaText(before, kind);
    assert (before + [e])[..|before|] == before;
  }

  lemma OpenBlockHasNoDelta(st: State, kind: Kind, id: string, name: string)
    ensures forall i :: 0 <= i < |OpenBlock(st, kind, id, name).events| ==> !OpenBlock(st, kind, id, name).events[i].BlockDelta?
  {
  }

  lemma EmitTextCarries(st: State, emitted: Kind, text: string, kind: Kind)
    ensures DeltaText(EmitText(st, emitted, text).events, kind) == OfKind(emitted, kind, text)
  {
    hide OpenBlock, DeltaText;
    NoDeltaText([], kind);
    if text != "" {
      var o := OpenBlock(st.(outputTokens := st.outputTokens + 1), emitted, "", "");
      OpenBlockHasNoDelta(st.(outputTokens := st.outputTokens + 1), emitted, "", "");
      LastDeltaText(o.events, BlockDelta(o.state.blockIndex, emitted, text), kind);
    }
  }

  lemma EmitCallCarries(st: State, item: ToolItem, kind: Kind)
    ensures DeltaText(EmitCall(st, item).events, kind) == if kind == ToolUse && item.Call? then item.arguments else ""
  {
    hide OpenBlock, DeltaText;
    NoDeltaText([], kind);
    if item.Call? {
      var o := OpenBlock(st, ToolUse, item.id, item.name);
      OpenBlockHasNoDelta(st, ToolUse, item.id, item.name);
      LastDeltaText(o.events, BlockDelta(o.state.blockIndex, ToolUse, item.arguments), kind);
      NoDeltaText(o.events, kind);
    }
  }

  lemma {:induction false} EmitCallsCarry(st: State, items: seq<ToolItem>, kind: Kind)
    ensures DeltaText(EmitCalls(st, items).events, kind) == if kind == ToolUse then Arguments(items) else ""
  {
    if items != [] {
      var n := |items| - 1;
      var before := EmitCalls(st, items[..n]);
      EmitCallsCarry(st, items[..n], kind);
      EmitCallCarries(before.state, items[n], kind);
      DeltaTextAppend(before.events, EmitCall(before.state, items[n]).events, kind);
    }
  }

  lemma EmitToolsCarry(st: State, items: seq<ToolItem>, kind: Kind)
    ensures DeltaText(EmitTools(st, items).events, kind) == OfKind(ToolUse, kind, Arguments(items))
  {
    hide EmitCalls, DeltaText;
    NoDeltaText([], kind);
    if items != [] { EmitCallsCarry(st.(outputTokens := st.outputTokens + 1), items, kind); }
  }

  /** What a chunk has for each kind of block, after the think-tag fallback. */
  function Carried(inThinkTag: bool, chunk: Chunk, kind: Kind): string {
    if !chunk.Delta? then ""
    else
      var split := SplitThinkTags(inThinkTag, chunk.reasoning, chunk.content);
      match kind
      case Thinking => split.reasoning
      case PlainText => split.content
      case ToolUse => Arguments(chunk.tools)
  }

  lemma StartCarriesNothing(st: State, kind: Kind)
    ensures DeltaText(StartMessage(st).events, kind) == "" && StartMessage(st).state.inThinkTag == st.inThinkTag
  {
    NoDeltaText(StartMessage(st).events, kind);
  }

  /** Every chunk's reasoning, content and tool arguments reach the deltas of their own kind, whole. */
  lemma ApplyCarries(st: State, chunk: Chunk, kind: Kind)
    ensures DeltaText(Apply(st, chunk).events, kind) == Carried(st.inThinkTag, chunk, kind)
  {
    StartCarriesNothing(st, kind);
    if chunk.Delta? {
      hide StartMessage, EmitTools, EmitText, SplitThinkTags, Arguments, DeltaText, OfKind;
      var o := StartMessage(st);
      var split := SplitThinkTags(st.inThinkTag, chunk.reasoning, chunk.content);
      var s := o.state.(inThinkTag := split.inThinkTag);
      var p := EmitText(s, Thinking, split.reasoning);
      var q := EmitText(p.state, PlainText, split.content);
      EmitTextCarries(s, Thinking, split.reasoning, kind);
      EmitTextCarries(p.state, PlainText, split.content, kind);
      EmitToolsCarry(q.state, chunk.tools, kind);
      DeltaTextFour(o.events, p.events, q.events, EmitTools(q.state, chunk.tools).events, kind);
      OneOfFour(kind, split.reasoning, split.content, Arguments(chunk.tools));
    }
  }

  lemma OneOfFour(kind: Kind, reasoning: string, content: string, arguments: string)
    ensures "" + OfKind(Thinking, kind, reasoning) + OfKind(PlainText, kind, content) + OfKind(ToolUse, kind, arguments)
            == match kind { case Thinking => reasoning case PlainText => content case ToolUse => arguments }
  {
  }

  lemma DeltaTextFour(a: seq<Event>, b: seq<Event>, c: seq<Event>, d: seq<Event>, kind: Kind)
    ensures DeltaText(a + b + c + d, kind)
            == DeltaText(a, kind) + DeltaText(b, kind) + DeltaText(c, kind) + DeltaText(d, kind)
  {
    DeltaTextAppend(a, b, kind);
    DeltaTextAppend(a + b, c, kind);
    DeltaTextAppend(a + b + c, d, kind);
  }

  // ---------- streamed content ----------

  /** Payload `i` is a chunk with nothing but the content delta `contents[i]`. */
  predicate Delivers(parse: string -> Chunk, payloads: seq<string>, contents: seq<string>) {
    && |payloads| == |contents|
    && forall i :: 0 <= i < |payloads| ==>
         && Trim(payloads[i]) != DONE && Trim(payloads[i]) != ""
         && parse(Trim(payloads[i])) == Delta("", contents[i], [])
  }

  function Joined(contents: seq<string>): string {
    if contents == [] then "" else Joined(contents[..|contents| - 1]) + contents[|contents| - 1]
  }

  /** The think-tag fallback alone, over a list of content deltas. */
  function TagRun(contents: seq<string>): Split {
    if contents == [] then Split(false, "", "")
    else
      var before := TagRun(contents[..|contents| - 1]);
      var last := SplitThinkTags(before.inThinkTag, "", contents[|contents| - 1]);
      Split(last.inThinkTag, before.reasoning + last.reasoning, before.content + last.content)
  }

  lemma ApplyKeepsTag(st: State, chunk: Chunk)
    requires chunk.Delta? && chunk.tools == []
    ensures Apply(st, chunk).state.inThinkTag == SplitThinkTags(st.inThinkTag, chunk.reasoning, chunk.content).inThinkTag
  {
  }

  lemma {:induction false} RunIsTagRun(parse: string -> Chunk, payloads: seq<string>, contents: seq<string>)
    requires Delivers(parse, payloads, contents)
    ensures var o := Run(parse, payloads);
            TagRun(contents) == Split(o.state.inThinkTag, DeltaText(o.events, Thinking), DeltaText(o.events, PlainText))
  {
    if payloads != [] {
      var n := |payloads| - 1;
      var before := Run(parse, payloads[..n]);
      RunIsTagRun(parse, payloads[..n], contents[..n]);
      var chunk := parse(Trim(payloads[n]));
      var last := Apply(before.state, chunk);
      ApplyKeepsTag(before.state, chunk);
      ApplyCarries(before.state, chunk, Thinking);
      ApplyCarries(before.state, chunk, PlainText);
      DeltaTextAppend(before.events, last.events, Thinking);
      DeltaTextAppend(before.events, last.events, PlainText);
    }
  }

  // ---------- where the tags are ----------

  predicate TagFree(s: string) {
    !Contains(s, THINK_OPEN) && !Contains(s, THINK_CLOSE)
  }

  lemma TagFreeHasNoTag(s: string)
    ensures TagFree(s) <==> forall j :: !At(s, THINK_OPEN, j) && !At(s, THINK_CLOSE, j)
  {
    IndexIsFirst(s, THINK_OPEN);
    IndexIsFirst(s, THINK_CLOSE);
  }

  /** `w` opens with the opening tag and holds no other; a closing tag stands at `e` only, or, when
      `e` is -1, nowhere. */
  ghost predicate Tagged(w: string, e: int) {
    && (forall j {:trigger At(w, THINK_OPEN, j)} :: At(w, THINK_OPEN, j) <==> j == 0)
    && (forall j {:trigger At(w, THINK_CLOSE, j)} :: At(w, THINK_CLOSE, j) <==> j == e && 0 <= e)
    && (e == -1 || 7 <= e)
  }

  lemma ThinkOpenLetters()
    ensures |THINK_OPEN| == 7 && THINK_OPEN[0] == '<' && THINK_OPEN[1] == 't'
    ensures forall i :: 1 <= i < 7 ==> THINK_OPEN[i] != '<'
    ensures |THINK_CLOSE| == 8 && THINK_CLOSE[0] == '<' && THINK_CLOSE[1] == '/'
    ensures forall i :: 1 <= i < 8 ==> THINK_CLOSE[i] != '<'
  {
  }

  /** An occurrence of a tag cannot start inside another tag, nor run from plain text into one. */
  lemma TagsDoNotOverlap(w: string, tag: string, other: string, j: int, k: int)
    requires tag in {THINK_OPEN, THINK_CLOSE} && other in {THINK_OPEN, THINK_CLOSE}
    requires At(w, tag, j) && At(w, other, k)
    ensures j == k ==> tag == other
    ensures j < k ==> j + |tag| <= k
    ensures k < j ==> k + |other| <= j
  {
    ThinkOpenLetters();
    assert w[j + 0] == tag[0] && w[k + 0] == other[0];
    assert w[j + 1] == tag[1] && w[k + 1] == other[1];
    assert 0 <= k - j < |tag| ==> w[j + (k - j)] == tag[k - j];
    assert 0 <= j - k < |other| ==> w[k + (j - k)] == other[j - k];
  }

  lemma AtShift(a: string, b: string, c: string, pat: string, j: int)
    requires |a| <= j && j + |pat| <= |a| + |b|
    ensures At(a + b + c, pat, j) <==> At(b, pat, j - |a|)
  {
    var w := a + b + c;
    assert forall i {:trigger pat[i]} :: 0 <= i < |pat| ==> w[j + i] == b[j - |a| + i];
  }

  lemma ClosedIsTagged(a: string, b: string)
    requires TagFree(a) && TagFree(b)
    ensures Tagged(THINK_OPEN + a + THINK_CLOSE + b, 7 + |a|)
  {
    var w, e := THINK_OPEN + a + THINK_CLOSE + b, 7 + |a|;
    ThinkOpenLetters();
    TagFreeHasNoTag(a);
    TagFreeHasNoTag(b);
    assert At(w, THINK_OPEN, 0) && At(w, THINK_CLOSE, e);
    forall j, tag | tag in {THINK_OPEN, THINK_CLOSE} && At(w, tag, j)
      ensures (tag == THINK_OPEN && j == 0) || (tag == THINK_CLOSE && j == e)
    {
      TagsDoNotOverlap(w, tag, THINK_OPEN, j, 0);
      TagsDoNotOverlap(w, tag, THINK_CLOSE, j, e);
      if 0 < j < e {
        assert w == THINK_OPEN + a + (THINK_CLOSE + b);
        AtShift(THINK_OPEN, a, THINK_CLOSE + b, tag, j);
      } else if e < j {
        assert w == (THINK_OPEN + a + THINK_CLOSE) + b + "";
        AtShift(THINK_OPEN + a + THINK_CLOSE, b, "", tag, j);
      }
    }
  }

  lemma UnterminatedIsTagged(a: string)
    requires TagFree(a)
    ensures Tagged(THINK_OPEN + a, -1)
  {
    var w := THINK_OPEN + a;
    ThinkOpenLetters();
    TagFreeHasNoTag(a);
    assert At(w, THINK_OPEN, 0);
    forall j, tag | tag in {THINK_OPEN, THINK_CLOSE} && At(w, tag, j)
      ensures tag == THINK_OPEN && j == 0
    {
      TagsDoNotOverlap(w, tag, THINK_OPEN, j, 0);
      if 0 < j {
        assert w == THINK_OPEN + a + "";
        AtShift(THINK_OPEN, a, "", tag, j);
      }
    }
  }

  // ---------- chunkings that do or do not cut a tag ----------

  /** Some boundary between chunks falls strictly inside `lo..hi`. */
  predicate CutsWithin(contents: seq<string>, lo: int, hi: int) {
    exists k :: 0 <= k <= |contents| && lo < |Joined(contents[..k])| < hi
  }

  predicate CutsOpenTag(contents: seq<string>) { CutsWithin(contents, 0, 7) }

  predicate CutsCloseTag(contents: seq<string>, e: int) { e >= 0 && CutsWithin(contents, e, e + 8) }

  /** What has come out once `pos` bytes of `w` have gone in. */
  function Expected(w: string, e: int, pos: nat, openCut: bool, closeCut: bool): Split
    requires pos <= |w| && |w| >= 7 && (e == -1 || 7 <= e <= |w| - 8)
  {
    if openCut then Split(false, "", w[..pos])
    else if pos < 7 then Split(false, "", "")
    else if e < 0 || closeCut || pos < e + 8 then Split(true, w[7..pos], "")
    else Split(false, w[7..e], w[e + 8..pos])
  }

  lemma SliceAt(w: string, p: nat, q: nat, pat: string, j: int)
    requires p <= q <= |w|
    ensures At(w[p..q], pat, j) <==> j >= 0 && At(w, pat, p + j) && p + j + |pat| <= q
  {
    var c := w[p..q];
    if j >= 0 && p + j + |pat| <= q {
      assert forall i {:trigger pat[i]} :: 0 <= i < |pat| ==> c[j + i] == w[p + j + i];
    }
  }

  /** The only place in `w[p..q]` where `pat` can be found, if it stands at `at` and nowhere else in `w`. */
  lemma SliceIndex(w: string, p: nat, q: nat, pat: string, at: int)
    requires p <= q <= |w|
    requires forall j {:trigger At(w, pat, j)} :: At(w, pat, j) <==> j == at && 0 <= at
    ensures Index(w[p..q], pat) == if p <= at && at + |pat| <= q then at - p else -1
  {
    forall j {:trigger At(w[p..q], pat, j)}
      ensures At(w[p..q], pat, j) <==> j >= 0 && p + j == at && at + |pat| <= q
    {
      SliceAt(w, p, q, pat, j);
    }
    IndexIsFirst(w[p..q], pat);
    if p <= at && at + |pat| <= q { assert At(w[p..q], pat, at - p); }
  }

  lemma SliceIndexes(w: string, e: int, p: nat, q: nat)
    requires Tagged(w, e) && p < q <= |w|
    ensures var opens := p == 0 && q >= 7;
            var s := if opens then 7 else p;
            && Index(w[p..q], THINK_OPEN) == (if opens then 0 else -1)
            && Index(w[s..q], THINK_CLOSE) == if s <= e && e + 8 <= q then e - s else -1
  {
    ThinkOpenLetters();
    SliceIndex(w, p, q, THINK_OPEN, 0);
    SliceIndex(w, if p == 0 && q >= 7 then 7 else p, q, THINK_CLOSE, e);
  }

  /** The think-tag fallback on the chunk `w[p..q]`. */
  lemma SplitSlice(w: string, e: int, inThinkTag: bool, p: nat, q: nat)
    requires Tagged(w, e) && p < q <= |w|
    ensures var opens := p == 0 && q >= 7;
            var s := if opens then 7 else p;
            SplitThinkTags(inThinkTag, "", w[p..q])
            == if !(inThinkTag || opens) then Split(inThinkTag, "", w[p..q])
               else if s <= e && e + 8 <= q then Split(false, w[s..e], w[e + 8..q])
               else Split(true, w[s..q], "")
  {
    hide Tagged, Index, At;
    var opens := p == 0 && q >= 7;
    var s := if opens then 7 else p;
    SliceIndexes(w, e, p, q);
    if opens { SliceOfSlice(w, p, q, 0, 7); }
    if s <= e && e + 8 <= q { SliceOfSlice(w, s, q, e - s, 8); }
  }

  lemma SliceOfSlice(w: string, p: nat, q: nat, at: nat, len: nat)
    requires p + at + len <= q <= |w|
    ensures w[p..q][..at] == w[p..p + at] && w[p..q][at + len..] == w[p + at + len..q]
    ensures at == 0 ==> w[p..q][..at] + w[p..q][at + len..] == w[p + len..q]
  {
  }

  /** One more chunk: `w[p..q]`, which holds a whole tag only if that tag is not cut. */
  lemma TagStep(w: string, e: int, p: nat, q: nat, openCut: bool, closeCut: bool)
    requires Tagged(w, e) && p <= q <= |w|
    requires |w| >= 7 && (e == -1 || 7 <= e <= |w| - 8)
    requires if openCut then 0 < p || q < 7 else !(0 < p < 7) && !(0 < q < 7)
    requires e >= 0 ==> if closeCut then e < p || q < e + 8 else !(e < p < e + 8) && !(e < q < e + 8)
    ensures var before := Expected(w, e, p, openCut, closeCut);
            var last := SplitThinkTags(before.inThinkTag, "", w[p..q]);
            Expected(w, e, q, openCut, closeCut)
            == Split(last.inThinkTag, before.reasoning + last.reasoning, before.content + last.content)
  {
    var before := Expected(w, e, p, openCut, closeCut);
    if p == q { return; }
    hide Tagged, SplitThinkTags;
    SplitSlice(w, e, before.inThinkTag, p, q);
    if openCut {
      SliceJoin(w, 0, p, q);
    } else if !before.inThinkTag {
      if p >= 7 { SliceJoin(w, e + 8, p, q); }
    } else if e < 0 || closeCut || q < e + 8 {
      SliceJoin(w, 7, p, q);
    } else {
      SliceJoin(w, 7, p, e);
    }
  }

  lemma SliceJoin(w: string, a: nat, b: nat, c: nat)
    requires a <= b <= c <= |w|
    ensures w[a..b] + w[b..c] == w[a..c]
  {
  }

  // ---------- whole runs ----------

  lemma {:induction false} JoinedGrows(contents: seq<string>, j: nat, k: nat)
    requires j <= k <= |contents|
    ensures Joined(contents[..j]) <= Joined(contents[..k])
    decreases k
  {
    if j < k {
      JoinedGrows(contents, j, k - 1);
      assert contents[..k][..k - 1] == contents[..k - 1];
    }
  }

  /** A boundary inside `lo..hi` leaves no chunk that spans it. */
  lemma CutMeansNotSpanned(contents: seq<string>, lo: int, hi: int, k: nat)
    requires CutsWithin(contents, lo, hi) && k < |contents|
    ensures lo < |Joined(contents[..k])| || |Joined(contents[..k + 1])| < hi
  {
    var m :| 0 <= m <= |contents| && lo < |Joined(contents[..m])| < hi;
    if m <= k { JoinedGrows(contents, m, k); } else { JoinedGrows(contents, k + 1, m); }
  }

  lemma JoinedSlice(contents: seq<string>, w: string, k: nat)
    requires 0 < k <= |contents| && Joined(contents[..k]) <= w
    ensures contents[..k][..k - 1] == contents[..k - 1]
    ensures |Joined(contents[..k - 1])| <= |Joined(contents[..k])|
    ensures contents[k - 1] == w[|Joined(contents[..k - 1])|..|Joined(contents[..k])|]
  {
    assert contents[..k][..k - 1] == contents[..k - 1];
    assert Joined(contents[..k]) == Joined(contents[..k - 1]) + contents[k - 1];
  }

  /** Chunk `k` respects the tags that are not cut and does not span one that is. */
  predicate ChunkFits(contents: seq<string>, k: nat, e: int, openCut: bool, closeCut: bool)
    requires k < |contents|
  {
    var p, q := |Joined(contents[..k])|, |Joined(contents[..k + 1])|;
    && (if openCut then 0 < p || q < 7 else !(0 < p < 7) && !(0 < q < 7))
    && (e >= 0 ==> if closeCut then e < p || q < e + 8 else !(e < p < e + 8) && !(e < q < e + 8))
  }

  lemma EveryChunkFits(contents: seq<string>, k: nat, e: int)
    requires k < |contents|
    ensures ChunkFits(contents, k, e, CutsOpenTag(contents), CutsCloseTag(contents, e))
  {
    if CutsOpenTag(contents) { CutMeansNotSpanned(contents, 0, 7, k); }
    if CutsCloseTag(contents, e) { CutMeansNotSpanned(contents, e, e + 8, k); }
  }

  lemma {:induction false} TagRunIsExpected(w: string, e: int, contents: seq<string>, k: nat, openCut: bool, closeCut: bool)
    requires Tagged(w, e) && |w| >= 7 && (e == -1 || 7 <= e <= |w| - 8)
    requires Joined(contents) == w && k <= |contents|
    requires forall i :: 0 <= i < |contents| ==> ChunkFits(contents, i, e, openCut, closeCut)
    ensures Joined(contents[..k]) <= w
    ensures TagRun(contents[..k]) == Expected(w, e, |Joined(contents[..k])|, openCut, closeCut)
  {
    JoinedGrows(contents, k, |contents|);
    assert contents[..|contents|] == contents;
    if k > 0 {
      TagRunIsExpected(w, e, contents, k - 1, openCut, closeCut);
      JoinedSlice(contents, w, k);
      assert ChunkFits(contents, k - 1, e, openCut, closeCut);
      TagStep(w, e, |Joined(contents[..k - 1])|, |Joined(contents[..k])|, openCut, closeCut);
    }
  }

  /** A whole run of the think-tag fallback over tagged content. */
  lemma TagRunWhole(w: string, e: int, contents: seq<string>)
    requires Tagged(w, e) && |w| >= 7 && (e == -1 || 7 <= e <= |w| - 8)
    requires Joined(contents) == w
    ensures TagRun(contents) == Expected(w, e, |w|, CutsOpenTag(contents), CutsCloseTag(contents, e))
  {
    forall k | 0 <= k < |contents|
      ensures ChunkFits(contents, k, e, CutsOpenTag(contents), CutsCloseTag(contents, e))
    {
      EveryChunkFits(contents, k, e);
    }
    TagRunIsExpected(w, e, contents, |contents|, CutsOpenTag(contents), CutsCloseTag(contents, e));
    assert contents[..|contents|] == contents;
  }

  datatype Extracted = Extracted(thinking: string, clean: string)

  /** `ExtractThinkingFromContent`; `None` is the slice-bounds panic. */
  function ExtractThinking(content: string): Option<Extracted> {
    var start := Index(content, THINK_OPEN);
    if start == -1 then Some(Extracted("", content))
    else
      var end := Index(content, THINK_CLOSE);
      if end == -1 then Some(Extracted(Trim(content[start + 7..]), Trim(content[..start])))
      else if start + 7 <= end then
        Some(Extracted(Trim(content[start + 7..end]), Trim(content[..start] + content[end + 8..])))
      else None
  }

  lemma TaggedIndex(w: string, e: int)
    requires Tagged(w, e)
    ensures Index(w, THINK_OPEN) == 0 && Index(w, THINK_CLOSE) == e
  {
    IndexIsFirst(w, THINK_OPEN);
    IndexIsFirst(w, THINK_CLOSE);
    assert At(w, THINK_OPEN, 0);
    assert e >= 0 ==> At(w, THINK_CLOSE, e);
  }

  lemma ClosedSlices(a: string, b: string)
    ensures var w, e := THINK_OPEN + a + THINK_CLOSE + b, 7 + |a|;
            |w| >= e + 8 && w[7..e] == a && w[..0] + w[e + 8..] == b
  {
  }

  lemma ExtractAt(w: string, e: int, a: string, b: string)
    requires Index(w, THINK_OPEN) == 0 && Index(w, THINK_CLOSE) == e && 7 <= e <= |w| - 8
    requires w[7..e] == a && w[..0] + w[e + 8..] == b
    ensures ExtractThinking(w) == Some(Extracted(Trim(a), Trim(b)))
  {
  }

  lemma ExtractClosed(a: string, b: string)
    requires TagFree(a) && TagFree(b)
    ensures ExtractThinking(THINK_OPEN + a + THINK_CLOSE + b) == Some(Extracted(Trim(a), Trim(b)))
  {
    ClosedIsTagged(a, b);
    TaggedIndex(THINK_OPEN + a + THINK_CLOSE + b, 7 + |a|);
    ClosedSlices(a, b);
    ExtractAt(THINK_OPEN + a + THINK_CLOSE + b, 7 + |a|, a, b);
  }

  lemma ExtractUnterminated(a: string)
    requires TagFree(a)
    ensures ExtractThinking(THINK_OPEN + a) == Some(Extracted(Trim(a), ""))
  {
    var w := THINK_OPEN + a;
    UnterminatedIsTagged(a);
    TaggedIndex(w, -1);
    assert w[7..] == a && w[..0] == "";
  }

  lemma ExpectedClosed(a: string, b: string, openCut: bool, closeCut: bool)
    ensures var w := THINK_OPEN + a + THINK_CLOSE + b;
            var s := Expected(w, 7 + |a|, |w|, openCut, closeCut);
            s.reasoning == a && s.content == b <==> !openCut && !closeCut
  {
    var w, e := THINK_OPEN + a + THINK_CLOSE + b, 7 + |a|;
    assert w[7..e] == a && w[e + 8..|w|] == b;
    assert |w[7..|w|]| > |a| && |w[..|w|]| > |b|;
  }

  lemma ExpectedUnterminated(a: string, openCut: bool)
    ensures var w := THINK_OPEN + a;
            var s := Expected(w, -1, |w|, openCut, false);
            s.reasoning == a && s.content == "" <==> !openCut
  {
    var w := THINK_OPEN + a;
    assert w[7..|w|] == a;
  }

  /** Streaming and unary agree on `<think>a</think>b`: the thinking deltas join to `a` and the text
      deltas to `b` exactly when no chunk boundary falls inside a tag, and the unary form is the
      trimmed pair. */
  lemma StreamingAgreesWithUnary(parse: string -> Chunk, payloads: seq<string>, contents: seq<string>, a: string, b: string)
    requires TagFree(a) && TagFree(b)
    requires Delivers(parse, payloads, contents) && Joined(contents) == THINK_OPEN + a + THINK_CLOSE + b
    ensures var log := Run(parse, payloads).events;
            DeltaText(log, Thinking) == a && DeltaText(log, PlainText) == b
            <==> !CutsOpenTag(contents) && !CutsCloseTag(contents, 7 + |a|)
    ensures ExtractThinking(THINK_OPEN + a + THINK_CLOSE + b) == Some(Extracted(Trim(a), Trim(b)))
  {
    var w, e := THINK_OPEN + a + THINK_CLOSE + b, 7 + |a|;
    ClosedIsTagged(a, b);
    ExtractClosed(a, b);
    RunIsTagRun(parse, payloads, contents);
    TagRunWhole(w, e, contents);
    ExpectedClosed(a, b, CutsOpenTag(contents), CutsCloseTag(contents, e));
  }

  /** The same for the unterminated `<think>a`. */
  lemma StreamingAgreesWithUnaryUnterminated(parse: string -> Chunk, payloads: seq<string>, contents: seq<string>, a: string)
    requires TagFree(a)
    requires Delivers(parse, payloads, contents) && Joined(contents) == THINK_OPEN + a
    ensures var log := Run(parse, payloads).events;
            DeltaText(log, Thinking) == a && DeltaText(log, PlainText) == "" <==> !CutsOpenTag(contents)
    ensures ExtractThinking(THINK_OPEN + a) == Some(Extracted(Trim(a), ""))
  {
    var w := THINK_OPEN + a;
    UnterminatedIsTagged(a);
    ExtractUnterminated(a);
    RunIsTagRun(parse, payloads, contents);
    TagRunWhole(w, -1, contents);
    ExpectedUnterminated(a, CutsOpenTag(contents));
  }

  /** The slice is out of range exactly when a closing tag comes before the first opening tag. */
  lemma ExtractPanicsIff(content: string)
    ensures ExtractThinking(content) == None
            <==> exists j :: At(content, THINK_CLOSE, j) && j < Index(content, THINK_OPEN)
  {
    var start, end := Index(content, THINK_OPEN), Index(content, THINK_CLOSE);
    IndexIsFirst(content, THINK_OPEN);
    IndexIsFirst(content, THINK_CLOSE);
    if start >= 0 && end >= 0 {
      TagsDoNotOverlap(content, THINK_OPEN, THINK_CLOSE, start, end);
      ThinkOpenLetters();
    }
  }

  /** Two chunks that cut the opening tag: everything comes out as plain text. */
  lemma CutTagLosesThinking()
    ensures var contents := ["<thi", "nk>a</think>b"];
            TagRun(contents) == Split(false, "", "<think>a</think>b")
  {
    var contents, w := ["<thi", "nk>a</think>b"], "<think>a</think>b";
    assert w == THINK_OPEN + "a" + THINK_CLOSE + "b";
    TagFreeHasNoTag("a");
    TagFreeHasNoTag("b");
    ClosedIsTagged("a", "b");
    assert contents[..1] == ["<thi"] && contents[..1][..0] == [];
    assert Joined(contents[..1]) == "<thi";
    assert Joined(contents) == w;
    TagRunWhole(w, 8, contents);
  }

  // ---------- a chunk with reasoning of its own, and the unary form on any text ----------

  /** A chunk that gives reasoning of its own is taken as it is, tags and all, and the think-tag state stays. */
  lemma OwnReasoningIsKept(st: State, chunk: Chunk)
    requires chunk.Delta? && chunk.reasoning != ""
    ensures DeltaText(Apply(st, chunk).events, Thinking) == chunk.reasoning
    ensures DeltaText(Apply(st, chunk).events, PlainText) == chunk.content
    ensures Apply(st, chunk).state.inThinkTag == st.inThinkTag
  {
    hide Apply, DeltaText;
    ApplyCarries(st, chunk, Thinking);
    ApplyCarries(st, chunk, PlainText);
    ApplyFlags(st, chunk);
  }

  /** No tag stands before offset `k`. */
  ghost predicate NoneBefore(w: string, tag: string, k: int) {
    forall j {:trigger At(w, tag, j)} :: At(w, tag, j) ==> k <= j
  }

  lemma TagInSlice(w: string, tag: string, k: nat)
    requires k + |tag| <= |w| && w[k..k + |tag|] == tag
    ensures At(w, tag, k)
  {
    forall i | 0 <= i < |tag|
      ensures w[k + i] == tag[i]
    {
      assert w[k..k + |tag|][i] == w[k + i];
    }
  }

  lemma AroundSlices(w: string, before: string, open: string, thinking: string, close: string, after: string)
    requires w == before + open + thinking + close + after
    ensures var o, t := |before| + |open|, |before| + |open| + |thinking|;
            && |w| == t + |close| + |after| && w[..|before|] == before && w[|before|..o] == open && w[o..t] == thinking
            && w[t..t + |close|] == close && w[t + |close|..] == after
  {
  }

  lemma ExtractAround(w: string, before: string, thinking: string, after: string)
    requires w == before + "<think>" + thinking + "</think>" + after
    requires NoneBefore(w, "<think>", |before|) && NoneBefore(w, "</think>", |before| + 7 + |thinking|)
    ensures ExtractThinking(w) == Some(Extracted(Trim(thinking), Trim(before + after)))
  {
    hide Trim, At;
    var e := |before| + 7 + |thinking|;
    IndexIsFirst(w, THINK_OPEN);
    IndexIsFirst(w, THINK_CLOSE);
    AroundSlices(w, before, THINK_OPEN, thinking, THINK_CLOSE, after);
    TagInSlice(w, THINK_OPEN, |before|);
    TagInSlice(w, THINK_CLOSE, e);
  }

  lemma ExtractUnclosed(w: string, before: string, thinking: string)
    requires w == before + "<think>" + thinking
    requires NoneBefore(w, "<think>", |before|) && forall j :: !At(w, "</think>", j)
    ensures ExtractThinking(w) == Some(Extracted(Trim(thinking), Trim(before)))
  {
    hide Trim, At;
    IndexIsFirst(w, THINK_OPEN);
    IndexIsFirst(w, THINK_CLOSE);
    AppendEmpty(w);
    AppendEmpty(before + THINK_OPEN + thinking);
    AroundSlices(w, before, THINK_OPEN, thinking, "", "");
    TagInSlice(w, THINK_OPEN, |before|);
  }

  lemma ExtractNothing(w: string)
    requires forall j :: !At(w, "<think>", j)
    ensures ExtractThinking(w) == Some(Extracted("", w))
  {
    IndexIsFirst(w, THINK_OPEN);
  }

  /** Without an opening tag nothing is changed; with one and no closing tag, what stands before it is the text
      and what stands after it the thinking; with both, the text is what stands around them. */
  lemma ExtractExactly(w: string, before: string, thinking: string, after: string)
    ensures (forall j :: !At(w, "<think>", j)) ==> ExtractThinking(w) == Some(Extracted("", w))
    ensures w == before + "<think>" + thinking && NoneBefore(w, "<think>", |before|) && (forall j :: !At(w, "</think>", j)) ==>
              ExtractThinking(w) == Some(Extracted(Trim(thinking), Trim(before)))
    ensures && w == before + "<think>" + thinking + "</think>" + after && NoneBefore(w, "<think>", |before|)
            && NoneBefore(w, "</think>", |before| + 7 + |thinking|) ==>
              ExtractThinking(w) == Some(Extracted(Trim(thinking), Trim(before + after)))
  {
    hide Trim, At, ExtractThinking, NoneBefore;
    if forall j :: !At(w, "<think>", j) { ExtractNothing(w); }
    if w == before + "<think>" + thinking && NoneBefore(w, "<think>", |before|) && (forall j :: !At(w, "</think>", j)) {
      ExtractUnclosed(w, before, thinking);
    }
    if && w == before + "<think>" + thinking + "</think>" + after && NoneBefore(w, "<think>", |before|)
       && NoneBefore(w, "</think>", |before| + 7 + |thinking|) {
      ExtractAround(w, before, thinking, after);
    }
  }
}
