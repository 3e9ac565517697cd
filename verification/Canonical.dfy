/** The two canonical texts a request signature may cover (`pkg/auth/ed25519.go`): the
    length-prefixed form and the legacy colon-delimited form. */
module Canonical {
  import opened Wrappers
  import opened Text

  /** How many colons a text holds. */
  function Colons(s: string): nat {
    if s == "" then 0 else Colons(s[..|s| - 1]) + (if s[|s| - 1] == ':' then 1 else 0)
  }

  /** What a rune-by-rune case mapping does: it maps white space, and only white space, to white space; a second
      time it changes nothing; and a colon stays where it is, nothing else becoming one. */
  ghost predicate LawfulMapping(m: string -> string) {
    && (forall s {:trigger m(Trim(s))} :: m(Trim(s)) == Trim(m(s)))
    && (forall s {:trigger m(m(s))} :: m(m(s)) == m(s))
    && (forall a, b {:trigger m(a + ":" + b)} :: m(a + ":" + b) == m(a) + ":" + m(b))
    && (forall s {:trigger Colons(m(s))} :: Colons(m(s)) == Colons(s))
  }

  /** Go's `strings.ToUpper` and `strings.ToLower`. */
  datatype Case = Case(upper: string -> string, lower: string -> string) {
    ghost predicate Lawful() { LawfulMapping(upper) && LawfulMapping(lower) }
  }

  datatype Signed = Signed(verb: string, path: string, requestID: string, timestamp: string, nonce: string,
                           bodyHash: string)

  /** The six fields as both builders normalise them. */
  function Normalise(c: Case, r: Signed): (fields: seq<string>)
    ensures |fields| == 6
  {
    [c.upper(Trim(r.verb)), Trim(r.path), Trim(r.requestID), Trim(r.timestamp), Trim(r.nonce),
     c.lower(Trim(r.bodyHash))]
  }

  // ---------- the length-prefixed form ----------

  function Field(field: string): string {
    Dec(|field|) + ":" + field + "\n"
  }

  /** `BuildLengthPrefixedCanonicalWithHash` on normalised fields. */
  function LengthPrefixed(fields: seq<string>): string {
    if fields == [] then "" else Field(fields[0]) + LengthPrefixed(fields[1..])
  }

  datatype Read = Read(field: string, rest: string)

  function ReadField(s: string): Option<Read> {
    var k := Index(s, ":");
    if k < 0 || !Digits(s[..k]) then None
    else
      var n := DecValue(s[..k]);
      if k + 1 + n >= |s| || s[k + 1 + n] != '\n' then None
      else Some(Read(s[k + 1..k + 1 + n], s[k + 2 + n..]))
  }

  /** A decoder: it knows only the format, not the number of fields. */
  function Decode(s: string): Option<seq<string>>
    decreases |s|
  {
    if s == "" then Some([])
    else
      match ReadField(s)
      case None => None
      case Some(r) =>
        match Decode(r.rest)
        case None => None
        case Some(others) => Some([r.field] + others)
  }

  lemma DigitsHaveNoColon(d: string, rest: string)
    requires Digits(d)
    ensures Index(d + ":" + rest, ":") == |d|
  {
    var s := d + ":" + rest;
    IndexIsFirst(s, ":");
    assert At(s, ":", |d|);
    forall j | 0 <= j < |d|
      ensures !At(s, ":", j)
    {
      assert s[j + 0] == d[j];
      assert IsDigit(d[j]);
      assert ":"[0] == ':';
    }
  }

  lemma ReadFieldInverts(field: string, rest: string)
    ensures ReadField(Field(field) + rest) == Some(Read(field, rest))
  {
    var d := Dec(|field|);
    var s := Field(field) + rest;
    var tail := field + "\n" + rest;
    assert s == d + ":" + tail;
    DigitsHaveNoColon(d, tail);
    DecValueOfDec(|field|);
    var k := |d|;
    assert s[..k] == d;
    assert s[k + 1..] == tail;
    assert s[k + 1..k + 1 + |field|] == field && s[k + 1 + |field|] == '\n' && s[k + 2 + |field|..] == rest;
  }

  /** The decoder inverts the encoder, for every list of fields. */
  lemma {:induction false} DecodeInverts(fields: seq<string>)
    ensures Decode(LengthPrefixed(fields)) == Some(fields)
  {
    if fields != [] {
      DecodeInverts(fields[1..]);
      ReadFieldInverts(fields[0], LengthPrefixed(fields[1..]));
      assert [fields[0]] + fields[1..] == fields;
    }
  }

  /** So no two field lists share a length-prefixed text. */
  lemma LengthPrefixedInjective(f: seq<string>, g: seq<string>)
    ensures LengthPrefixed(f) == LengthPrefixed(g) <==> f == g
  {
    DecodeInverts(f);
    DecodeInverts(g);
  }

  lemma {:induction false} LengthPrefixedEndsInNewline(fields: seq<string>)
    requires fields != []
    ensures var s := LengthPrefixed(fields);
            s != "" && s[|s| - 1] == '\n'
  {
    if |fields| > 1 { LengthPrefixedEndsInNewline(fields[1..]); }
  }

  // ---------- the legacy form ----------

  /** `BuildCanonicalWithHash` on normalised fields. */
  function Legacy(fields: seq<string>): string {
    Join(fields, ":")
  }

  predicate ColonFree(s: string) { ':' !in s }

  lemma FirstColon(a: string, x: string, b: string, y: string)
    requires ColonFree(a) && ColonFree(b) && a + ":" + x == b + ":" + y
    ensures a == b && x == y
  {
    var s := a + ":" + x;
    assert s[|a|] == ':' && s[|b|] == ':';
    assert forall i :: 0 <= i < |a| ==> s[i] == a[i];
    assert forall i :: 0 <= i < |b| ==> s[i] == b[i];
    assert |a| == |b|;
    assert a == s[..|a|] && b == s[..|b|];
    assert x == s[|a| + 1..] && y == s[|b| + 1..];
  }

  /** Injective on field lists whose fields before the last have no colon. */
  lemma {:induction false} LegacyInjective(f: seq<string>, g: seq<string>)
    requires |f| == |g| && Legacy(f) == Legacy(g)
    requires forall i :: 0 <= i < |f| - 1 ==> ColonFree(f[i]) && ColonFree(g[i])
    ensures f == g
  {
    if |f| > 1 {
      FirstColon(f[0], Legacy(f[1..]), g[0], Legacy(g[1..]));
      LegacyInjective(f[1..], g[1..]);
      assert f == [f[0]] + f[1..] && g == [g[0]] + g[1..];
    }
  }

  lemma {:induction false} ColonsAppend(a: string, b: string)
    ensures Colons(a + b) == Colons(a) + Colons(b)
  {
    if b == "" {
      AppendEmpty(a);
    } else {
      assert (a + b)[..|a + b| - 1] == a + b[..|b| - 1];
      ColonsAppend(a, b[..|b| - 1]);
    }
  }

  lemma {:induction false} LegacySplit(p: seq<string>, q: seq<string>)
    requires p != [] && q != []
    ensures Legacy(p + q) == Legacy(p) + ":" + Legacy(q)
  {
    assert (p + q)[1..] == p[1..] + q;
    if |p| > 1 {
      LegacySplit(p[1..], q);
      var a, b, c := p[0] + ":", Legacy(p[1..]), ":" + Legacy(q);
      assert Legacy(p[1..]) + ":" + Legacy(q) == b + c;
      AppendAssoc(a, b, c);
    } else {
      assert p[1..] + q == q;
    }
  }

  /** A middle part may be exchanged for another with the same text. */
  lemma LegacyMiddle(p: seq<string>, m: seq<string>, n: seq<string>, q: seq<string>)
    requires m != [] && n != [] && Legacy(m) == Legacy(n)
    ensures Legacy(p + m + q) == Legacy(p + n + q)
  {
    if p == [] {
      AppendEmpty(m);
      AppendEmpty(n);
    } else {
      LegacySplit(p, m);
      LegacySplit(p, n);
    }
    if q == [] {
      AppendEmpty(p + m);
      AppendEmpty(p + n);
    } else {
      LegacySplit(p + m, q);
      LegacySplit(p + n, q);
    }
  }

  lemma LegacyPair(a: string, b: string)
    ensures Legacy([a, b]) == a + ":" + b
  {
    assert [a, b][1..] == [b];
    assert Legacy([b]) == b;
  }

  // ---------- clean colons ----------

  /** A colon with no white space on either side. */
  predicate CleanColon(s: string, k: nat) {
    k < |s| && s[k] == ':' && TrailingSpace(s[..k]) == 0 && LeadingSpace(s[k + 1..]) == 0
  }

  predicate NoCleanColon(s: string) {
    forall k :: 0 <= k < |s| ==> !CleanColon(s, k)
  }

  predicate AllTrimmed(fields: seq<string>) {
    forall i :: 0 <= i < |fields| ==> Trimmed(fields[i])
  }

  /** No white space rune holds a colon. */
  lemma SpaceStopsAtColon(a: string, b: string)
    ensures LeadingSpace(a + ":" + b) == LeadingSpace(a)
    ensures TrailingSpace(a + ":" + b) == TrailingSpace(b)
  {
    var s := a + ":" + b;
    assert s[|a|] == ':';
    assert forall i :: 0 <= i < |a| ==> s[i] == a[i];
    assert forall i :: 0 <= i < |b| ==> s[|a| + 1 + i] == b[i];
  }

  lemma LegacyLeading(fields: seq<string>)
    requires fields != []
    ensures LeadingSpace(Legacy(fields)) == LeadingSpace(fields[0])
  {
    if |fields| > 1 { SpaceStopsAtColon(fields[0], Legacy(fields[1..])); }
  }

  /** Splitting `s` at a colon into trimmed parts needs a clean one. */
  lemma SplitIsClean(s: string, a: string, b: string)
    requires s == a + ":" + b && TrailingSpace(a) == 0 && LeadingSpace(b) == 0
    ensures !NoCleanColon(s)
  {
    assert s[..|a|] == a && s[|a| + 1..] == b;
    assert CleanColon(s, |a|);
  }

  /** Of two ways to cut one text at a colon, the first cut is inside the other's first part, or the same. */
  lemma TwoCuts(a: string, x: string, b: string, y: string)
    requires a + ":" + x == b + ":" + y && |a| <= |b|
    ensures |a| == |b| ==> a == b && x == y
    ensures |a| < |b| ==> b == a + ":" + b[|a| + 1..] && x == b[|a| + 1..] + ":" + y
  {
    var s := a + ":" + x;
    assert a == s[..|a|] && b == s[..|b|];
    assert s[|a|] == ':';
    assert x == s[|a| + 1..] && y == s[|b| + 1..];
    if |a| < |b| {
      var z := b[|a| + 1..];
      assert z == s[|a| + 1..|b|];
      assert s[|b|] == ':';
    }
  }

  /** The same, where the first part of `g` is the longer: it takes up a whole field of `f`, and what is left of
      it starts the rest. */
  lemma LongerFirst(f: seq<string>, g: seq<string>)
    requires |f| > 1 && |g| > 1 && AllTrimmed(f) && AllTrimmed(g) && Legacy(f) == Legacy(g) && |f[0]| < |g[0]|
    ensures var h := [g[0][|f[0]| + 1..]] + g[1..];
            AllTrimmed(h) && Legacy(f[1..]) == Legacy(h) && |h| == |g|
  {
    var x, h := g[0][|f[0]| + 1..], [g[0][|f[0]| + 1..]] + g[1..];
    TwoCuts(f[0], Legacy(f[1..]), g[0], Legacy(g[1..]));
    assert h[1..] == g[1..];
    SpaceStopsAtColon(f[0], x);
    SpaceStopsAtColon(x, Legacy(g[1..]));
    LegacyLeading(f[1..]);
    assert Trimmed(f[1]) && Trimmed(g[0]);
  }

  /** Without clean colons in its fields, a text of trimmed fields has no other split into as many or more. */
  lemma {:induction false} NoOtherSplit(f: seq<string>, g: seq<string>)
    requires f != [] && g != [] && AllTrimmed(f) && AllTrimmed(g) && Legacy(f) == Legacy(g)
    requires forall i :: 0 <= i < |f| ==> NoCleanColon(f[i])
    ensures |g| <= |f| && (|g| == |f| ==> g == f)
    decreases |f|
  {
    if |g| > 1 {
      LegacyLeading(g[1..]);
      assert Trimmed(g[0]) && Trimmed(g[1]) && NoCleanColon(f[0]);
      if |f| == 1 || |g[0]| < |f[0]| {
        ShorterFirst(f, g);
      } else if |g[0]| == |f[0]| {
        TwoCuts(f[0], Legacy(f[1..]), g[0], Legacy(g[1..]));
        NoOtherSplit(f[1..], g[1..]);
        assert f == [f[0]] + f[1..] && g == [g[0]] + g[1..];
      } else {
        LongerFirst(f, g);
        NoOtherSplit(f[1..], [g[0][|f[0]| + 1..]] + g[1..]);
      }
    } else if |f| == 1 {
      assert f == [f[0]] && g == [g[0]];
    }
  }

  lemma ShorterFirst(f: seq<string>, g: seq<string>)
    requires f != [] && |g| > 1 && Legacy(f) == Legacy(g) && Trimmed(g[0]) && LeadingSpace(Legacy(g[1..])) == 0
    requires |f| == 1 || |g[0]| < |f[0]|
    ensures !NoCleanColon(f[0])
  {
    if |f| == 1 {
      SplitIsClean(f[0], g[0], Legacy(g[1..]));
    } else {
      var x := f[0][|g[0]| + 1..];
      TwoCuts(g[0], Legacy(g[1..]), f[0], Legacy(f[1..]));
      SpaceStopsAtColon(x, Legacy(f[1..]));
      SplitIsClean(f[0], g[0], x);
    }
  }

  // ---------- the legacy form of real requests ----------

  /** A mapping that leaves `p:q` alone leaves both parts alone. */
  lemma PartsAreFixed(m: string -> string, p: string, q: string)
    requires LawfulMapping(m) && m(p + ":" + q) == p + ":" + q
    ensures m(p) == p && m(q) == q
  {
    assert m(p) + ":" + m(q) == p + ":" + q;
    assert Colons(m(p)) == Colons(p);
    SameColons(m(p), m(q), p, q);
  }

  lemma SameColons(a: string, x: string, b: string, y: string)
    requires a + ":" + x == b + ":" + y && Colons(a) == Colons(b)
    ensures a == b && x == y
  {
    if |a| < |b| {
      TwoCuts(a, x, b, y);
      MoreColons(a, b[|a| + 1..]);
    } else if |b| < |a| {
      TwoCuts(b, y, a, x);
      MoreColons(b, a[|b| + 1..]);
    } else {
      TwoCuts(a, x, b, y);
    }
  }

  lemma MoreColons(a: string, b: string)
    ensures Colons(a + ":" + b) > Colons(a)
  {
    ColonsAppend(a, ":");
    ColonsAppend(a + ":", b);
    assert ":"[..0] == "";
  }

  /** Trimmed fields in the cases of a request: exactly the lists that are some request's. */
  predicate IsNormal(c: Case, f: seq<string>) {
    |f| == 6 && AllTrimmed(f) && c.upper(f[0]) == f[0] && c.lower(f[5]) == f[5]
  }

  lemma {:induction false} TrimmedStays(s: string)
    ensures Trimmed(s) ==> Trim(s) == s
  {
  }

  lemma NormaliseIsNormal(c: Case, r: Signed)
    requires c.Lawful()
    ensures IsNormal(c, Normalise(c, r))
  {
    hide Trim, Trimmed;
    TrimIsTrimmed(c.upper(r.verb));
    TrimIsTrimmed(r.path);
    TrimIsTrimmed(r.requestID);
    TrimIsTrimmed(r.timestamp);
    TrimIsTrimmed(r.nonce);
    TrimIsTrimmed(c.lower(r.bodyHash));
    assert c.upper(Trim(r.verb)) == Trim(c.upper(r.verb)) && c.lower(Trim(r.bodyHash)) == Trim(c.lower(r.bodyHash));
  }

  function RequestOf(f: seq<string>): Signed
    requires |f| == 6
  {
    Signed(f[0], f[1], f[2], f[3], f[4], f[5])
  }

  lemma NormalIsNormalised(c: Case, f: seq<string>)
    requires IsNormal(c, f)
    ensures Normalise(c, RequestOf(f)) == f
  {
    forall i | 0 <= i < 6
      ensures Trim(f[i]) == f[i]
    {
      TrimmedStays(f[i]);
    }
  }

  /** Shifts the boundary between two neighbouring fields to a clean colon in the first. */
  function ShiftRight(f: seq<string>, i: nat, k: nat): seq<string>
    requires i + 1 < |f| && k < |f[i]|
  {
    f[..i] + [f[i][..k], f[i][k + 1..] + ":" + f[i + 1]] + f[i + 2..]
  }

  /** The same, to a clean colon in the second. */
  function ShiftLeft(f: seq<string>, i: nat, k: nat): seq<string>
    requires i + 1 < |f| && k < |f[i + 1]|
  {
    f[..i] + [f[i] + ":" + f[i + 1][..k], f[i + 1][k + 1..]] + f[i + 2..]
  }

  lemma ShiftKeepsText(f: seq<string>, i: nat, c: string, d: string)
    requires i + 1 < |f| && f[i] + ":" + f[i + 1] == c + ":" + d
    ensures Legacy(f[..i] + [c, d] + f[i + 2..]) == Legacy(f)
  {
    LegacyPair(f[i], f[i + 1]);
    LegacyPair(c, d);
    LegacyMiddle(f[..i], [f[i], f[i + 1]], [c, d], f[i + 2..]);
    assert f == f[..i] + [f[i], f[i + 1]] + f[i + 2..];
  }

  lemma ShiftRightText(f: seq<string>, i: nat, k: nat)
    requires i + 1 < |f| && k < |f[i]| && f[i][k] == ':'
    ensures Legacy(ShiftRight(f, i, k)) == Legacy(f)
  {
    var p, q := f[i][..k], f[i][k + 1..];
    assert f[i] == p + ":" + q;
    assert p + ":" + q + ":" + f[i + 1] == p + ":" + (q + ":" + f[i + 1]);
    ShiftKeepsText(f, i, p, q + ":" + f[i + 1]);
  }

  lemma ShiftLeftText(f: seq<string>, i: nat, k: nat)
    requires i + 1 < |f| && k < |f[i + 1]| && f[i + 1][k] == ':'
    ensures Legacy(ShiftLeft(f, i, k)) == Legacy(f)
  {
    var p, q := f[i + 1][..k], f[i + 1][k + 1..];
    assert f[i + 1] == p + ":" + q;
    assert f[i] + ":" + (p + ":" + q) == f[i] + ":" + p + ":" + q;
    ShiftKeepsText(f, i, f[i] + ":" + p, q);
  }

  /** The parts on both sides of a clean colon in a trimmed text are trimmed. */
  lemma PartsAreTrimmed(s: string, k: nat)
    requires Trimmed(s) && CleanColon(s, k)
    ensures s == s[..k] + ":" + s[k + 1..] && Trimmed(s[..k]) && Trimmed(s[k + 1..])
  {
    assert s == s[..k] + ":" + s[k + 1..];
    SpaceStopsAtColon(s[..k], s[k + 1..]);
  }

  lemma ShiftRightIsNormal(c: Case, f: seq<string>, i: nat, k: nat)
    requires c.Lawful() && IsNormal(c, f) && i <= 3 && CleanColon(f[i], k)
    ensures IsNormal(c, ShiftRight(f, i, k)) && ShiftRight(f, i, k)[i] != f[i]
  {
    var g := ShiftRight(f, i, k);
    PartsAreTrimmed(f[i], k);
    SpaceStopsAtColon(f[i][k + 1..], f[i + 1]);
    if i == 0 { PartsAreFixed(c.upper, f[0][..k], f[0][k + 1..]); }
    assert Trimmed(f[i]) && Trimmed(f[i + 1]);
    assert forall j :: 0 <= j < 6 && j != i && j != i + 1 ==> g[j] == f[j];
    assert g[i] == f[i][..k] && g[i + 1] == f[i][k + 1..] + ":" + f[i + 1];
  }

  lemma ShiftLeftIsNormal(c: Case, f: seq<string>, i: nat, k: nat)
    requires c.Lawful() && IsNormal(c, f) && 3 <= i <= 4 && CleanColon(f[i + 1], k)
    ensures IsNormal(c, ShiftLeft(f, i, k)) && ShiftLeft(f, i, k)[i] != f[i]
  {
    var g := ShiftLeft(f, i, k);
    PartsAreTrimmed(f[i + 1], k);
    SpaceStopsAtColon(f[i], f[i + 1][..k]);
    if i == 4 { PartsAreFixed(c.lower, f[5][..k], f[5][k + 1..]); }
    assert Trimmed(f[i]) && Trimmed(f[i + 1]);
    assert forall j :: 0 <= j < 6 && j != i && j != i + 1 ==> g[j] == f[j];
    assert g[i] == f[i] + ":" + f[i + 1][..k] && g[i + 1] == f[i + 1][k + 1..];
  }

  /** A clean colon in any field of a request: some other request has the same text. */
  lemma CleanColonHasTwin(c: Case, f: seq<string>, i: nat, k: nat) returns (g: seq<string>)
    requires c.Lawful() && IsNormal(c, f) && i < 6 && CleanColon(f[i], k)
    ensures IsNormal(c, g) && g != f && Legacy(g) == Legacy(f)
  {
    if i <= 3 {
      g := ShiftRight(f, i, k);
      ShiftRightText(f, i, k);
      ShiftRightIsNormal(c, f, i, k);
    } else {
      g := ShiftLeft(f, i - 1, k);
      ShiftLeftText(f, i - 1, k);
      ShiftLeftIsNormal(c, f, i - 1, k);
    }
  }

  /** Every request with this legacy text has these fields. */
  ghost predicate Unambiguous(c: Case, r: Signed) {
    forall s :: Legacy(Normalise(c, s)) == Legacy(Normalise(c, r)) ==> Normalise(c, s) == Normalise(c, r)
  }

  /** The exact condition: the legacy text of a request determines its normalised fields, among all requests, if
      and only if no field holds a colon that has white space on neither side. */
  lemma LegacyUnambiguousIff(c: Case, r: Signed)
    requires c.Lawful()
    ensures Unambiguous(c, r) <==> forall i :: 0 <= i < 6 ==> NoCleanColon(Normalise(c, r)[i])
  {
    var f := Normalise(c, r);
    NormaliseIsNormal(c, r);
    if i, k :| 0 <= i < 6 && 0 <= k < |f[i]| && CleanColon(f[i], k) {
      var g := CleanColonHasTwin(c, f, i, k);
      NormalIsNormalised(c, g);
      assert Normalise(c, RequestOf(g)) == g;
    } else {
      forall s | Legacy(Normalise(c, s)) == Legacy(f)
        ensures Normalise(c, s) == f
      {
        NormaliseIsNormal(c, s);
        NoOtherSplit(f, Normalise(c, s));
      }
    }
  }

  lemma SameTextTwice(c: Case, r: Signed, p: string, i: string, q: string, j: string)
    requires Trim(p) == p && Trim(i) == i && Trim(q) == q && Trim(j) == j
    requires p + ":" + i == q + ":" + j && p != q
    ensures var s, t := r.(path := p, requestID := i), r.(path := q, requestID := j);
            Legacy(Normalise(c, s)) == Legacy(Normalise(c, t)) && Normalise(c, s) != Normalise(c, t)
  {
    var f := Normalise(c, r.(path := p, requestID := i));
    var g := Normalise(c, r.(path := q, requestID := j));
    ShiftKeepsText(f, 1, q, j);
    assert f[..1] + [q, j] + f[3..] == g;
  }

  /** Two requests with one legacy text, whatever the other fields: path `/a` with id `b:c`, and path `/a:b`
      with id `c`. */
  lemma LegacyCollision(c: Case, r: Signed)
    ensures var s, t := r.(path := "/a", requestID := "b:c"), r.(path := "/a:b", requestID := "c");
            Legacy(Normalise(c, s)) == Legacy(Normalise(c, t)) && Normalise(c, s) != Normalise(c, t)
  {
    hide Normalise, Legacy;
    TrimSolid("/a");
    TrimSolid("b:c");
    TrimSolid("/a:b");
    TrimSolid("c");
    assert "/a" + ":" + "b:c" == "/a:b" + ":" + "c";
    SameTextTwice(c, r, "/a", "b:c", "/a:b", "c");
  }

  // ---------- the two forms together ----------

  lemma {:induction false} LegacyLast(fields: seq<string>)
    requires fields != []
    ensures var last, s := fields[|fields| - 1], Legacy(fields);
            if last != "" then s != "" && s[|s| - 1] == last[|last| - 1]
            else s == "" || s[|s| - 1] == ':'
  {
    if |fields| > 1 { LegacyLast(fields[1..]); }
  }

  /** One form's text is never the other's: the first always ends in a newline, the second never. */
  lemma FormsAreDisjoint(c: Case, r: Signed, s: Signed)
    requires c.Lawful()
    ensures LengthPrefixed(Normalise(c, r)) != Legacy(Normalise(c, s))
  {
    LengthPrefixedEndsInNewline(Normalise(c, r));
    var fields := Normalise(c, s);
    LegacyLast(fields);
    TrimIsTrimmed(c.lower(s.bodyHash));
    assert fields[5] == c.lower(Trim(s.bodyHash)) == Trim(c.lower(s.bodyHash));
    var last := fields[5];
    assert last != "" ==> !IsSpace(last[|last| - 1]);
  }
}
