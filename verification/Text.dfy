/** Byte strings and the handful of Go `strings`/`bytes` operations the node relies on.

    A byte string is a `string` in which every character stands for one byte, so that
    literals can be written as text.  No result below needs the bound 255. */
module Text {

  lemma AppendAssoc<T>(a: seq<T>, b: seq<T>, c: seq<T>)
    ensures a + (b + c) == (a + b) + c
  {
  }

  lemma AppendEmpty<T>(a: seq<T>)
    ensures [] + a == a && a + [] == a
  {
  }

  /** `pat` occurs in `s` at offset `k`. */
  predicate At(s: string, pat: string, k: int) {
    0 <= k && k + |pat| <= |s| && forall i :: 0 <= i < |pat| ==> s[k + i] == pat[i]
  }

  /** The offset of the first occurrence at `k` or later, or -1. */
  function IndexFrom(s: string, pat: string, k: nat): (r: int)
    requires k <= |s|
    ensures r == -1 || k <= r <= |s| - |pat|
    decreases |s| - k
  {
    if At(s, pat, k) then k
    else if k == |s| then -1
    else IndexFrom(s, pat, k + 1)
  }

  /** Go's `Index`: the offset of the first occurrence, or -1 when there is none. */
  function Index(s: string, pat: string): (r: int)
    ensures r == -1 || 0 <= r <= |s| - |pat|
  {
    IndexFrom(s, pat, 0)
  }

  lemma {:induction false} IndexFromIsFirst(s: string, pat: string, k: nat)
    requires k <= |s|
    ensures IndexFrom(s, pat, k) >= 0 ==> At(s, pat, IndexFrom(s, pat, k))
    ensures forall j {:trigger At(s, pat, j)} :: k <= j && At(s, pat, j) ==> 0 <= IndexFrom(s, pat, k) <= j
    decreases |s| - k
  {
    if !At(s, pat, k) && k < |s| { IndexFromIsFirst(s, pat, k + 1); }
  }

  /** `Index` finds an occurrence, and the first one; it is -1 only when there is none. */
  lemma IndexIsFirst(s: string, pat: string)
    ensures Index(s, pat) >= 0 ==> At(s, pat, Index(s, pat))
    ensures forall j {:trigger At(s, pat, j)} :: At(s, pat, j) ==> 0 <= Index(s, pat) <= j
  {
    IndexFromIsFirst(s, pat, 0);
  }

  predicate Contains(s: string, pat: string) {
    Index(s, pat) >= 0
  }

  /** `strings.ReplaceAll(s, "\r\n", "\n")`. */
  function ReplaceCrLf(s: string): string {
    if s == "" then ""
    else if "\r\n" <= s then "\n" + ReplaceCrLf(s[2..])
    else s[..1] + ReplaceCrLf(s[1..])
  }

  /** `strings.Split(s, "\n")`. */
  function SplitLines(s: string): (lines: seq<string>)
    ensures |lines| > 0
  {
    if s == "" then [""]
    else if s[0] == '\n' then [""] + SplitLines(s[1..])
    else
      var rest := SplitLines(s[1..]);
      [s[..1] + rest[0]] + rest[1..]
  }

  /** `strings.Join(lines, sep)`. */
  function Join(lines: seq<string>, sep: string): string {
    if lines == [] then ""
    else if |lines| == 1 then lines[0]
    else lines[0] + sep + Join(lines[1..], sep)
  }

  // ---------- white space ----------

  /** The one-byte white space of `unicode.IsSpace`. */
  predicate IsSpace(c: char) {
    c == '\t' || c == '\n' || c == '\U{0B}' || c == '\U{0C}' || c == '\r' || c == ' '
  }

  /** U+0085 and U+00A0 in UTF-8. */
  predicate IsSpace2(a: char, b: char) {
    a == '\U{C2}' && (b == '\U{85}' || b == '\U{A0}')
  }

  /** U+1680, U+2000..U+200A, U+2028, U+2029, U+202F, U+205F and U+3000 in UTF-8. */
  predicate IsSpace3(a: char, b: char, c: char) {
    || (a == '\U{E1}' && b == '\U{9A}' && c == '\U{80}')
    || (a == '\U{E2}' && b == '\U{80}' && ('\U{80}' <= c <= '\U{8A}' || c == '\U{A8}' || c == '\U{A9}' || c == '\U{AF}'))
    || (a == '\U{E2}' && b == '\U{81}' && c == '\U{9F}')
    || (a == '\U{E3}' && b == '\U{80}' && c == '\U{80}')
  }

  /** Width of the white space rune `s` starts with; 0 when it starts with none. */
  function LeadingSpace(s: string): (n: nat)
    ensures n <= |s|
  {
    if |s| >= 1 && IsSpace(s[0]) then 1
    else if |s| >= 2 && IsSpace2(s[0], s[1]) then 2
    else if |s| >= 3 && IsSpace3(s[0], s[1], s[2]) then 3
    else 0
  }

  /** Width of the white space rune `s` ends with; 0 when it ends with none. */
  function TrailingSpace(s: string): (n: nat)
    ensures n <= |s|
  {
    var m := |s|;
    if m >= 1 && IsSpace(s[m - 1]) then 1
    else if m >= 2 && IsSpace2(s[m - 2], s[m - 1]) then 2
    else if m >= 3 && IsSpace3(s[m - 3], s[m - 2], s[m - 1]) then 3
    else 0
  }

  function TrimLeft(s: string): string {
    var n := LeadingSpace(s);
    if n == 0 then s else TrimLeft(s[n..])
  }

  function TrimRight(s: string): string {
    var n := TrailingSpace(s);
    if n == 0 then s else TrimRight(s[..|s| - n])
  }

  /** `strings.TrimSpace`. */
  function Trim(s: string): string {
    TrimRight(TrimLeft(s))
  }

  predicate Trimmed(s: string) {
    LeadingSpace(s) == 0 && TrailingSpace(s) == 0
  }

  lemma {:induction false} TrimLeftDone(s: string)
    ensures LeadingSpace(TrimLeft(s)) == 0
  {
    if LeadingSpace(s) != 0 { TrimLeftDone(s[LeadingSpace(s)..]); }
  }

  lemma {:induction false} TrimRightDone(s: string)
    requires LeadingSpace(s) == 0
    ensures Trimmed(TrimRight(s))
  {
    if TrailingSpace(s) != 0 { TrimRightDone(s[..|s| - TrailingSpace(s)]); }
  }

  /** Trimming leaves no white space at either end, and a second trim changes nothing. */
  lemma TrimIsTrimmed(s: string)
    ensures Trimmed(Trim(s))
    ensures Trim(Trim(s)) == Trim(s)
  {
    TrimLeftDone(s);
    TrimRightDone(TrimLeft(s));
  }

  /** White space runes one after the other, read from the front, or from the end. */
  predicate AllSpace(s: string) {
    s == "" || (LeadingSpace(s) > 0 && AllSpace(s[LeadingSpace(s)..]))
  }

  predicate AllSpaceBack(s: string) {
    s == "" || (TrailingSpace(s) > 0 && AllSpaceBack(s[..|s| - TrailingSpace(s)]))
  }

  /** The rune alone decides. */
  lemma OneRuneMore(s: string, rest: string)
    ensures var n := LeadingSpace(s); n > 0 && AllSpace(rest) ==> AllSpace(s[..n] + rest)
    ensures var n := TrailingSpace(s); n > 0 && AllSpaceBack(rest) ==> AllSpaceBack(rest + s[|s| - n..])
  {
    var l, t := LeadingSpace(s), TrailingSpace(s);
    if l > 0 {
      var x := s[..l] + rest;
      assert LeadingSpace(x) == l && x[l..] == rest;
    }
    if t > 0 {
      var y := rest + s[|s| - t..];
      assert TrailingSpace(y) == t && y[..|y| - t] == rest;
    }
  }

  lemma {:induction false} TrimLeftExactly(s: string) returns (l: string)
    ensures s == l + TrimLeft(s) && AllSpace(l)
  {
    hide LeadingSpace, AllSpace;
    var n := LeadingSpace(s);
    l := "";
    if n > 0 {
      var start, rest := s[..n], s[n..];
      l := TrimLeftExactly(rest);
      OneRuneMore(s, l);
      AppendAssoc(start, l, TrimLeft(rest));
      assert TrimLeft(s) == TrimLeft(rest) && s == start + rest;
      l := start + l;
    } else {
      NothingIsSpace();
    }
  }

  lemma {:induction false} TrimRightExactly(s: string) returns (r: string)
    ensures s == TrimRight(s) + r && AllSpaceBack(r)
  {
    hide TrailingSpace, AllSpaceBack;
    var n := TrailingSpace(s);
    r := "";
    if n > 0 {
      var end := s[|s| - n..];
      r := TrimRightExactly(s[..|s| - n]);
      OneRuneMore(s, r);
      AppendAssoc(TrimRight(s[..|s| - n]), r, end);
      assert s == s[..|s| - n] + end;
      r := r + end;
    } else {
      NothingIsSpace();
    }
  }

  lemma NothingIsSpace()
    ensures AllSpace("") && AllSpaceBack("")
  {
  }

  /** Trimming takes white space off the ends and nothing else. */
  lemma TrimExactly(s: string) returns (l: string, r: string)
    ensures s == l + Trim(s) + r && AllSpace(l) && AllSpaceBack(r)
  {
    l := TrimLeftExactly(s);
    r := TrimRightExactly(TrimLeft(s));
    AppendAssoc(l, Trim(s), r);
  }

  // ---------- text that survives line splitting and trimming ----------

  /** No byte of `s` ends a line. */
  predicate OneLine(s: string) {
    '\r' !in s && '\n' !in s
  }

  /** `s` starts and ends with ASCII that is not white space. */
  predicate Solid(s: string) {
    && s != ""
    && s[0] < '\U{80}' && !IsSpace(s[0])
    && s[|s| - 1] < '\U{80}' && !IsSpace(s[|s| - 1])
  }

  lemma TrimSolid(s: string)
    requires Solid(s)
    ensures Trim(s) == s
    ensures Trim(" " + s) == s
  {
    assert (" " + s)[1..] == s;
    assert TrimLeft(" " + s) == TrimLeft(s);
  }

  // ---------- decimal numbers ----------

  predicate IsDigit(c: char) { '0' <= c <= '9' }

  predicate Digits(s: string) { forall i :: 0 <= i < |s| ==> IsDigit(s[i]) }

  function Digit(n: nat): (c: char)
    requires n < 10
    ensures IsDigit(c)
  {
    '0' + n as char
  }

  /** `%d` of a non-negative number. */
  function Dec(n: nat): (s: string)
    ensures s != "" && Digits(s)
  {
    if n < 10 then [Digit(n)] else Dec(n / 10) + [Digit(n % 10)]
  }

  /** The number a digit string denotes. */
  function DecValue(s: string): nat
    requires Digits(s)
  {
    if s == "" then 0 else DecValue(s[..|s| - 1]) * 10 + (s[|s| - 1] as int - '0' as int)
  }

  lemma {:induction false} DecValueOfDec(n: nat)
    ensures DecValue(Dec(n)) == n
  {
    if n >= 10 {
      DecValueOfDec(n / 10);
      assert Dec(n)[..|Dec(n)| - 1] == Dec(n / 10);
    }
  }
}
