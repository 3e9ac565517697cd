/** Server-sent events as the node cuts and prints them: the grammar of
    `processSSE`, `processSSEBuffer` and `writeEncryptedSSEBlock`. */
module Sse {
  import opened Text

  // ---------- cutting a byte stream into blocks ----------

  datatype Delimiter = NoDelimiter | Delimiter(at: nat, len: nat)

  /** The earlier of the first `\r\n\r\n` and the first `\n\n`. */
  function FirstDelimiter(s: string): (d: Delimiter)
    ensures d.Delimiter? ==> d.at + d.len <= |s| && 2 <= d.len <= 4
  {
    var crlf, lf := Index(s, "\r\n\r\n"), Index(s, "\n\n");
    if crlf != -1 && (lf == -1 || crlf < lf) then Delimiter(crlf, 4)
    else if lf != -1 then Delimiter(lf, 2)
    else NoDelimiter
  }

  datatype Pieces = Pieces(blocks: seq<string>, rest: string)

  /** The whole of `s` cut at once: complete blocks, then what no delimiter has ended. */
  function Cut(s: string): (p: Pieces)
    ensures |p.rest| <= |s|
    decreases |s|
  {
    match FirstDelimiter(s)
    case NoDelimiter => Pieces([], s)
    case Delimiter(at, len) =>
      var p := Cut(s[at + len..]);
      Pieces([s[..at]] + p.blocks, p.rest)
  }

  /** A delimiter of either kind at `k`, byte by byte. */
  predicate DelimiterAt(s: string, k: int, len: int) {
    || (len == 4 && 0 <= k && k + 4 <= |s| && s[k] == '\r' && s[k + 1] == '\n' && s[k + 2] == '\r' && s[k + 3] == '\n')
    || (len == 2 && 0 <= k && k + 2 <= |s| && s[k] == '\n' && s[k + 1] == '\n')
  }

  /** `FirstDelimiter` picks the one delimiter with nothing of either kind before it. */
  lemma FirstDelimiterIsFirst(s: string, at: nat, len: nat)
    ensures FirstDelimiter(s) == Delimiter(at, len) <==>
            DelimiterAt(s, at, len) && forall j, m :: 0 <= j < at ==> !DelimiterAt(s, j, m)
  {
    var crlf, lf := "\r\n\r\n", "\n\n";
    IndexIsFirst(s, crlf);
    IndexIsFirst(s, lf);
    forall k
      ensures DelimiterAt(s, k, 4) <==> At(s, crlf, k)
      ensures DelimiterAt(s, k, 2) <==> At(s, lf, k)
    {
      if 0 <= k && k + 4 <= |s| && At(s, crlf, k) {
        assert s[k + 0] == crlf[0] && s[k + 1] == crlf[1] && s[k + 2] == crlf[2] && s[k + 3] == crlf[3];
      }
      if 0 <= k && k + 2 <= |s| && At(s, lf, k) {
        assert s[k + 0] == lf[0] && s[k + 1] == lf[1];
      }
    }
    var d := FirstDelimiter(s);
    if d.Delimiter? {
      assert DelimiterAt(s, d.at, d.len);
    }
  }

  /** More input never moves the first delimiter: a `\r\n\r\n` completed by later bytes cannot
      start before a `\n\n` that is already there, nor the other way round. */
  lemma FirstDelimiterStable(a: string, b: string)
    requires FirstDelimiter(a).Delimiter?
    ensures FirstDelimiter(a + b) == FirstDelimiter(a)
  {
    var d := FirstDelimiter(a);
    FirstDelimiterIsFirst(a, d.at, d.len);
    forall j, m | 0 <= j < d.at
      ensures !DelimiterAt(a + b, j, m)
    {
      assert !DelimiterAt(a, j, m);
      // a delimiter reaching past the end of `a` would overlap the one at `d.at`
      assert (a + b)[d.at] == a[d.at] && (a + b)[d.at + 1] == a[d.at + 1];
    }
    FirstDelimiterIsFirst(a + b, d.at, d.len);
  }

  /** What `p`, cut so far, becomes when `b` arrives. */
  function CutOn(p: Pieces, b: string): Pieces {
    var q := Cut(p.rest + b);
    Pieces(p.blocks + q.blocks, q.rest)
  }

  lemma SplitInPrefix(a: string, b: string, k: nat)
    requires k <= |a|
    ensures (a + b)[..k] == a[..k] && (a + b)[k..] == a[k..] + b
  {
  }

  lemma CutAtDelimiter(s: string, at: nat, len: nat)
    requires FirstDelimiter(s) == Delimiter(at, len)
    ensures at + len <= |s|
    ensures Cut(s) == Pieces([s[..at]] + Cut(s[at + len..]).blocks, Cut(s[at + len..]).rest)
  {
  }

  lemma CutNothing(s: string)
    requires FirstDelimiter(s).NoDelimiter?
    ensures Cut(s) == Pieces([], s)
  {
  }

  /** What is left after cutting holds no delimiter. */
  lemma {:induction false} CutRest(s: string)
    ensures FirstDelimiter(Cut(s).rest).NoDelimiter?
    decreases |s|
  {
    var d := FirstDelimiter(s);
    if d.Delimiter? { CutRest(s[d.at + d.len..]); }
  }

  lemma CutOnDelimiter(a: string, b: string, at: nat, len: nat)
    requires FirstDelimiter(a) == Delimiter(at, len)
    requires at + len <= |a| && Cut(a[at + len..] + b) == CutOn(Cut(a[at + len..]), b)
    ensures Cut(a + b) == CutOn(Cut(a), b)
  {
    FirstDelimiterStable(a, b);
    SplitInPrefix(a, b, at);
    SplitInPrefix(a, b, at + len);
    CutAtDelimiter(a, at, len);
    CutAtDelimiter(a + b, at, len);
    var p := Cut(a[at + len..]);
    AppendAssoc([a[..at]], p.blocks, Cut(p.rest + b).blocks);
  }

  /** Cutting is insensitive to where the stream was chunked. */
  lemma {:induction false} CutAppend(a: string, b: string)
    ensures Cut(a + b) == CutOn(Cut(a), b)
    decreases |a|
  {
    match FirstDelimiter(a)
    case NoDelimiter =>
      CutNothing(a);
      AppendEmpty(Cut(a + b).blocks);
    case Delimiter(at, len) =>
      CutAppend(a[at + len..], b);
      CutOnDelimiter(a, b, at, len);
  }

  // ---------- the fields of one block ----------

  function BlockLines(block: string): seq<string> {
    SplitLines(ReplaceCrLf(block))
  }

  /** The trimmed value of every `data:` line, in order. */
  function DataLines(lines: seq<string>): seq<string> {
    if lines == [] then []
    else
      var line := Trim(lines[|lines| - 1]);
      var before := DataLines(lines[..|lines| - 1]);
      if "data:" <= line then before + [Trim(line[5..])] else before
  }

  /** The trimmed value of the last `event:` line. */
  function EventType(lines: seq<string>): string {
    if lines == [] then ""
    else
      var line := Trim(lines[|lines| - 1]);
      if "event:" <= line then Trim(line[6..]) else EventType(lines[..|lines| - 1])
  }

  // ---------- printing one event, and reading it back ----------

  /** The wire text of an event with a type and one line of data. */
  function EventText(eventType: string, data: string): string {
    "event: " + eventType + "\ndata: " + data + "\n\n"
  }

  lemma {:induction false} ReplaceCrLfNoCr(s: string)
    requires '\r' !in s
    ensures ReplaceCrLf(s) == s
  {
    if s != "" {
      assert s[0] == '\r' || !("\r\n" <= s);
      ReplaceCrLfNoCr(s[1..]);
    }
  }

  lemma {:induction false} SplitOneLine(s: string)
    requires '\n' !in s
    ensures SplitLines(s) == [s]
  {
    if s != "" {
      SplitOneLine(s[1..]);
      assert s[..1] + s[1..] == s;
    }
  }

  lemma {:induction false} SplitTwoLines(s: string, t: string)
    requires '\n' !in s && '\n' !in t
    ensures SplitLines(s + "\n" + t) == [s, t]
  {
    if s == "" {
      assert (s + "\n" + t)[1..] == t;
      SplitOneLine(t);
    } else {
      assert (s + "\n" + t)[1..] == s[1..] + "\n" + t;
      assert (s + "\n" + t)[..1] == s[..1];
      SplitTwoLines(s[1..], t);
      assert s[..1] + s[1..] == s;
    }
  }

  lemma OnlyDelimiterAtEnd(block: string)
    requires '\r' !in block && block != "" && block[|block| - 1] != '\n'
    requires forall j :: 0 <= j < |block| - 1 ==> block[j] != '\n' || block[j + 1] != '\n'
    ensures FirstDelimiter(block + "\n\n") == Delimiter(|block|, 2)
  {
    var s := block + "\n\n";
    assert forall j :: 0 <= j < |block| ==> s[j] == block[j];
    assert s[|block|] == '\n' && s[|block| + 1] == '\n';
    forall j, m | 0 <= j < |block|
      ensures !DelimiterAt(s, j, m)
    {
      assert s[j] == block[j] && block[j] in block;
      assert j == |block| - 1 || s[j + 1] == block[j + 1];
    }
    FirstDelimiterIsFirst(s, |block|, 2);
  }

  /** A text without CR whose only `\n\n` is at its end is exactly one block. */
  lemma CutOneBlock(block: string)
    requires '\r' !in block && block != "" && block[|block| - 1] != '\n'
    requires forall j :: 0 <= j < |block| - 1 ==> block[j] != '\n' || block[j + 1] != '\n'
    ensures Cut(block + "\n\n") == Pieces([block], "")
  {
    var s := block + "\n\n";
    OnlyDelimiterAtEnd(block);
    CutAtDelimiter(s, |block|, 2);
    assert s[..|block|] == block && s[|block| + 2..] == "";
    CutNothing("");
  }

  lemma EventLine(eventType: string)
    requires Solid(eventType)
    ensures var line := "event: " + eventType;
            Trim(line) == line && "event:" <= line && !("data:" <= line) && Trim(line[6..]) == eventType
  {
    var line := "event: " + eventType;
    TrimSolid(line);
    TrimSolid(eventType);
    assert line[6..] == " " + eventType;
    assert line[0] == 'e';
  }

  lemma DataLine(data: string)
    requires Solid(data)
    ensures var line := "data: " + data;
            Trim(line) == line && "data:" <= line && !("event:" <= line) && Trim(line[5..]) == data
  {
    var line := "data: " + data;
    TrimSolid(line);
    TrimSolid(data);
    assert line[5..] == " " + data;
    assert line[0] == 'd';
  }

  lemma OneLineFields(l: string)
    ensures DataLines([l]) == if "data:" <= Trim(l) then [Trim(Trim(l)[5..])] else []
    ensures EventType([l]) == if "event:" <= Trim(l) then Trim(Trim(l)[6..]) else ""
  {
  }

  lemma TwoLineFields(l: string, m: string)
    ensures DataLines([l, m]) == DataLines([l]) + DataLines([m])
    ensures EventType([l, m]) == if "event:" <= Trim(m) then EventType([m]) else EventType([l])
  {
    assert [l, m][..1] == [l];
  }

  /** Reading back a printed event: one block, two lines, the same type and the same data. */
  lemma EventTextReadsBack(eventType: string, data: string)
    requires OneLine(eventType) && Solid(eventType)
    requires OneLine(data) && Solid(data)
    ensures var block := "event: " + eventType + "\ndata: " + data;
            && Cut(EventText(eventType, data)) == Pieces([block], "")
            && EventType(BlockLines(block)) == eventType
            && DataLines(BlockLines(block)) == [data]
  {
    var l0, l1 := "event: " + eventType, "data: " + data;
    EventBlock(eventType, data);
    EventLine(eventType);
    DataLine(data);
    OneLineFields(l0);
    OneLineFields(l1);
    TwoLineFields(l0, l1);
  }

  lemma EventBlock(eventType: string, data: string)
    requires OneLine(eventType) && OneLine(data) && Solid(data)
    ensures var block := "event: " + eventType + "\ndata: " + data;
            && Cut(EventText(eventType, data)) == Pieces([block], "")
            && BlockLines(block) == ["event: " + eventType, "data: " + data]
  {
    var l0, l1 := "event: " + eventType, "data: " + data;
    var block := l0 + "\n" + l1;
    assert block == "event: " + eventType + "\ndata: " + data;
    assert EventText(eventType, data) == block + "\n\n";
    assert forall j :: 0 <= j < |block| && block[j] == '\n' ==> j == |l0|;
    CutOneBlock(block);
    ReplaceCrLfNoCr(block);
    SplitTwoLines(l0, l1);
  }

  /** Reading back a printed line of data without a type. */
  lemma DataTextReadsBack(data: string)
    requires OneLine(data) && Solid(data)
    ensures var block := "data: " + data;
            && Cut(block + "\n\n") == Pieces([block], "")
            && EventType(BlockLines(block)) == ""
            && DataLines(BlockLines(block)) == [data]
  {
    var block := "data: " + data;
    CutOneBlock(block);
    ReplaceCrLfNoCr(block);
    SplitOneLine(block);
    DataLine(data);
    OneLineFields(block);
  }

  // ---------- lines with either line break ----------

  function LineBreak(crlf: bool): string { if crlf then "\r\n" else "\n" }

  /** `lines` with a line break of either kind between each and the next. */
  function WithBreaks(lines: seq<string>, crlf: seq<bool>): string
    requires |lines| == |crlf| + 1
  {
    if crlf == [] then lines[0] else lines[0] + LineBreak(crlf[0]) + WithBreaks(lines[1..], crlf[1..])
  }

  predicate AllLines(lines: seq<string>) {
    forall i :: 0 <= i < |lines| ==> OneLine(lines[i])
  }

  lemma {:induction false} ReplaceFirstBreak(l: string, crlf: bool, rest: string)
    requires OneLine(l)
    ensures ReplaceCrLf(l + LineBreak(crlf) + rest) == l + "\n" + ReplaceCrLf(rest)
  {
    var s := l + LineBreak(crlf) + rest;
    if l != "" {
      assert s[0] == l[0] && s[1..] == l[1..] + LineBreak(crlf) + rest && s[..1] == l[..1];
      ReplaceFirstBreak(l[1..], crlf, rest);
      AppendAssoc(l[..1], l[1..], "\n");
      AppendAssoc(l[..1], l[1..] + "\n", ReplaceCrLf(rest));
      assert l[..1] + l[1..] == l;
    } else if crlf {
      assert s[..2] == "\r\n" && s[2..] == rest;
      AppendEmpty("\n");
    } else {
      assert s[0] == '\n' && s[..1] == "\n" && s[1..] == rest;
      AppendEmpty("\n");
    }
  }

  lemma {:induction false} SplitFirstLine(l: string, rest: string)
    requires '\n' !in l
    ensures SplitLines(l + "\n" + rest) == [l] + SplitLines(rest)
  {
    var s := l + "\n" + rest;
    if l == "" {
      assert s[0] == '\n' && s[1..] == rest;
    } else {
      assert s[0] == l[0] && s[1..] == l[1..] + "\n" + rest && s[..1] == l[..1];
      SplitFirstLine(l[1..], rest);
      assert l[..1] + l[1..] == l;
    }
  }

  /** The lines of a text are read back whatever breaks stand between them. */
  lemma {:induction false} LinesReadBack(lines: seq<string>, crlf: seq<bool>)
    requires |lines| == |crlf| + 1 && AllLines(lines)
    ensures BlockLines(WithBreaks(lines, crlf)) == lines
  {
    if crlf == [] {
      ReplaceCrLfNoCr(lines[0]);
      SplitOneLine(lines[0]);
    } else {
      hide ReplaceCrLf, SplitLines;
      LinesReadBack(lines[1..], crlf[1..]);
      ReplaceFirstBreak(lines[0], crlf[0], WithBreaks(lines[1..], crlf[1..]));
      SplitFirstLine(lines[0], ReplaceCrLf(WithBreaks(lines[1..], crlf[1..])));
      assert [lines[0]] + lines[1..] == lines;
    }
  }

  predicate IsBreak(c: char) { c == '\r' || c == '\n' }

  /** No empty line: neither end is a break, and after each `\n` stands no break. */
  predicate NoBlankLine(s: string) {
    && s != "" && !IsBreak(s[0]) && !IsBreak(s[|s| - 1])
    && forall j :: 0 <= j < |s| && s[j] == '\n' ==> j + 1 < |s| && !IsBreak(s[j + 1])
  }

  predicate NoneEmpty(lines: seq<string>) {
    forall i :: 0 <= i < |lines| ==> lines[i] != ""
  }

  lemma OneMoreLine(l: string, crlf: bool, rest: string)
    requires OneLine(l) && l != "" && NoBlankLine(rest)
    ensures NoBlankLine(l + LineBreak(crlf) + rest)
  {
    var s, n := l + LineBreak(crlf) + rest, |l| + |LineBreak(crlf)|;
    assert forall j :: 0 <= j < |l| ==> s[j] == l[j] && s[j] in l;
    assert forall j :: n <= j < |s| ==> s[j] == rest[j - n];
    forall j | 0 <= j < |s| && s[j] == '\n'
      ensures j + 1 < |s| && !IsBreak(s[j + 1])
    {
      if j >= n { assert rest[j - n] == '\n'; }
    }
  }

  lemma {:induction false} NoLineIsBlank(lines: seq<string>, crlf: seq<bool>)
    requires |lines| == |crlf| + 1 && AllLines(lines) && NoneEmpty(lines)
    ensures NoBlankLine(WithBreaks(lines, crlf))
  {
    assert forall c :: c in lines[0] ==> !IsBreak(c);
    if crlf != [] {
      NoLineIsBlank(lines[1..], crlf[1..]);
      OneMoreLine(lines[0], crlf[0], WithBreaks(lines[1..], crlf[1..]));
    }
  }

  lemma EndOfBlock(block: string, crlf: bool)
    requires NoBlankLine(block)
    ensures FirstDelimiter(block + (LineBreak(crlf) + LineBreak(crlf))) == Delimiter(|block|, if crlf then 4 else 2)
  {
    var end := LineBreak(crlf) + LineBreak(crlf);
    var s, n := block + end, |block|;
    assert forall j :: 0 <= j < n ==> s[j] == block[j];
    assert forall j :: n <= j < |s| ==> s[j] == end[j - n];
    forall j, m | 0 <= j < n
      ensures !DelimiterAt(s, j, m)
    {
      if j + 1 < n { assert s[j + 1] == block[j + 1]; }
    }
    FirstDelimiterIsFirst(s, n, if crlf then 4 else 2);
  }

  /** Lines that are not empty, with breaks of either kind between them and a blank line of either kind at the
      end, are one block with just those lines. */
  lemma LinesAreOneBlock(lines: seq<string>, crlf: seq<bool>, last: bool)
    requires |lines| == |crlf| + 1 && AllLines(lines) && NoneEmpty(lines)
    ensures var block := WithBreaks(lines, crlf);
            && Cut(block + (LineBreak(last) + LineBreak(last))) == Pieces([block], "")
            && BlockLines(block) == lines
  {
    hide BlockLines, FirstDelimiter;
    var block := WithBreaks(lines, crlf);
    var end := LineBreak(last) + LineBreak(last);
    LinesReadBack(lines, crlf);
    NoLineIsBlank(lines, crlf);
    EndOfBlock(block, last);
    CutAtDelimiter(block + end, |block|, |end|);
    assert (block + end)[..|block|] == block && (block + end)[|block| + |end|..] == "";
    NothingToCut();
  }

  lemma NothingToCut()
    ensures Cut("") == Pieces([], "")
  {
  }

  /** An event whose lines end in CRLF reads back like the printed one. */
  lemma CrLfEventReadsBack(eventType: string, data: string)
    requires OneLine(eventType) && Solid(eventType)
    requires OneLine(data) && Solid(data)
    ensures var block := "event: " + eventType + "\r\ndata: " + data;
            && Cut(block + "\r\n\r\n") == Pieces([block], "")
            && EventType(BlockLines(block)) == eventType
            && DataLines(BlockLines(block)) == [data]
  {
    hide Cut, BlockLines;
    var l0, l1 := "event: " + eventType, "data: " + data;
    LinesAreOneBlock([l0, l1], [true], true);
    assert [l0, l1][1..] == [l1];
    assert WithBreaks([l1], []) == l1;
    assert l0 + LineBreak(true) + l1 == "event: " + eventType + "\r\ndata: " + data;
    assert LineBreak(true) + LineBreak(true) == "\r\n\r\n";
    EventLine(eventType);
    DataLine(data);
    OneLineFields(l0);
    OneLineFields(l1);
    TwoLineFields(l0, l1);
  }
}
