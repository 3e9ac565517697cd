/** The part of JSON that the printed events use, and a reader for it.  Reading one quoted string is a parameter,
    as quoting one is. */
module Json {
  import opened Wrappers
  import opened Text
  import opened Translator

  datatype Value = Null | EmptyList | Number(n: nat) | Text(text: string) | Record(fields: Fields)

  /** The members of an object, in the order they stand. */
  datatype Fields = NoFields | Field(key: string, value: Value, more: Fields)

  datatype Got<T> = Got(it: T, rest: string)

  /** How many digits `w` starts with. */
  function DigitCount(w: string): (k: nat)
    ensures k <= |w| && Digits(w[..k]) && (k < |w| ==> !IsDigit(w[k]))
  {
    if w == "" || !IsDigit(w[0]) then 0 else 1 + DigitCount(w[1..])
  }

  /** `unquote` reads the quoted string a text starts with; `valid` is for the strings that quoting keeps: in
      Go, those that are UTF-8. */
  datatype Reader = Reader(valid: string -> bool, unquote: string -> Option<Got<string>>) {
    /** The value `w` starts with. */
    function ReadValue(w: string): (r: Option<Got<Value>>)
      ensures r.Some? ==> |r.value.rest| < |w|
      decreases |w|, 1
    {
      if "null" <= w then Some(Got(Null, w[4..]))
      else if "[]" <= w then Some(Got(EmptyList, w[2..]))
      else if "{}" <= w then Some(Got(Record(NoFields), w[2..]))
      else if "{" <= w then
        match ReadFields(w[1..])
        case None => None
        case Some(got) => Some(Got(Record(got.it), got.rest))
      else if w != "" && IsDigit(w[0]) then
        var k := DigitCount(w);
        Some(Got(Number(DecValue(w[..k])), w[k..]))
      else
        match unquote(w)
        case None => None
        case Some(got) => if |got.rest| < |w| then Some(Got(Text(got.it), got.rest)) else None
    }

    /** The members up to the closing brace. */
    function ReadFields(w: string): (r: Option<Got<Fields>>)
      ensures r.Some? ==> |r.value.rest| < |w|
      decreases |w|, 0
    {
      match unquote(w)
      case None => None
      case Some(key) =>
        if |key.rest| >= |w| || !(":" <= key.rest) then None
        else
          match ReadValue(key.rest[1..])
          case None => None
          case Some(value) =>
            if "}" <= value.rest then Some(Got(Field(key.it, value.it, NoFields), value.rest[1..]))
            else if !("," <= value.rest) then None
            else
              match ReadFields(value.rest[1..])
              case None => None
              case Some(more) => Some(Got(Field(key.it, value.it, more.it), more.rest))
    }

    /** What `unquote` undoes, and the strings the node quotes: the model and message names, and whatever
        comes out of its JSON parser, also once an ASCII tag has been cut out. */
    ghost predicate Reads(env: Env) {
      && (forall s {:trigger env.quote(s)} :: "\"" <= env.quote(s))
      && (forall s, rest {:trigger unquote(env.quote(s) + rest)} ::
            valid(s) ==> unquote(env.quote(s) + rest) == Some(Got(s, rest)))
      && (forall s {:trigger valid(s)} :: Plain(s) ==> valid(s) && env.quote(s) == Word(s))
      && (forall a, b {:trigger a + THINK_OPEN + b} :: valid(a + THINK_OPEN + b) ==> valid(a) && valid(b) && valid(a + b))
      && (forall a, b {:trigger a + THINK_CLOSE + b} :: valid(a + THINK_CLOSE + b) ==> valid(a) && valid(b))
      && valid(env.msgID) && valid(env.model)
      && (forall p {:trigger env.parse(p)} :: ValidChunk(env.parse(p)))
    }

    predicate ValidChunk(c: Chunk) {
      c.Delta? ==> valid(c.reasoning) && valid(c.content) && forall i :: 0 <= i < |c.tools| ==> ValidCall(c.tools[i])
    }

    predicate ValidCall(t: ToolItem) {
      t.Call? ==> valid(t.id) && valid(t.name) && valid(t.arguments)
    }

    predicate ValidEvent(e: Event) {
      match e
      case BlockStart(_, _, id, name) => valid(id) && valid(name)
      case BlockDelta(_, _, text) => valid(text)
      case _ => true
    }

    // ---------- reading back what was shown ----------

    predicate Sound(v: Value) {
      match v
      case Text(s) => valid(s)
      case Record(fields) => SoundFields(fields)
      case _ => true
    }

    predicate SoundFields(fields: Fields) {
      match fields
      case NoFields => true
      case Field(key, value, more) => Plain(key) && Sound(value) && SoundFields(more)
    }
  }

  predicate IsPlain(c: char) { 'a' <= c <= 'z' || c == '_' }

  /** A string that needs no escape: lower-case letters and underscores. */
  predicate Plain(s: string) { forall i :: 0 <= i < |s| ==> IsPlain(s[i]) }

  function Show(env: Env, v: Value): string {
    match v
    case Null => "null"
    case EmptyList => "[]"
    case Number(n) => Dec(n)
    case Text(s) => env.quote(s)
    case Record(fields) => "{" + ShowFields(env, fields) + "}"
  }

  function ShowFields(env: Env, fields: Fields): string {
    match fields
    case NoFields => ""
    case Field(key, value, NoFields) => Word(key) + ":" + Show(env, value)
    case Field(key, value, more) => Word(key) + ":" + Show(env, value) + "," + ShowFields(env, more)
  }

  lemma {:induction false} CountsDigits(d: string, rest: string)
    requires Digits(d) && (rest != "" ==> !IsDigit(rest[0]))
    ensures DigitCount(d + rest) == |d|
  {
    if d == "" {
      assert d + rest == rest;
    } else {
      assert (d + rest)[1..] == d[1..] + rest;
      CountsDigits(d[1..], rest);
    }
  }

  lemma ReadsNumber(r: Reader, n: nat, rest: string)
    requires rest != "" ==> !IsDigit(rest[0])
    ensures r.ReadValue(Dec(n) + rest) == Some(Got(Number(n), rest))
  {
    var d := Dec(n);
    var w := d + rest;
    assert IsDigit(w[0]) by { assert w[0] == d[0]; }
    CountsDigits(d, rest);
    DecValueOfDec(n);
    assert w[..|d|] == d && w[|d|..] == rest;
  }

  lemma ReadsText(r: Reader, env: Env, s: string, rest: string)
    requires r.Reads(env) && r.valid(s)
    ensures r.ReadValue(env.quote(s) + rest) == Some(Got(Text(s), rest))
  {
    var w := env.quote(s) + rest;
    assert w[0] == '\"' by { assert w[0] == env.quote(s)[0]; }
  }

  lemma ReadLast(r: Reader, w: string, key: string, value: Value, u: string, rest: string)
    requires r.unquote(w) == Some(Got(key, ":" + u)) && |u| + 1 < |w|
    requires r.ReadValue(u) == Some(Got(value, "}" + rest))
    ensures r.ReadFields(w) == Some(Got(Field(key, value, NoFields), rest))
  {
    assert (":" + u)[1..] == u && ("}" + rest)[1..] == rest;
  }

  lemma ReadNext(r: Reader, w: string, key: string, value: Value, u: string, v: string, more: Fields, rest: string)
    requires r.unquote(w) == Some(Got(key, ":" + u)) && |u| + 1 < |w|
    requires r.ReadValue(u) == Some(Got(value, "," + v)) && r.ReadFields(v) == Some(Got(more, rest))
    ensures r.ReadFields(w) == Some(Got(Field(key, value, more), rest))
  {
    assert (":" + u)[1..] == u && ("," + v)[1..] == v;
    assert ("," + v)[0] == ',';
  }

  /** A key as it stands before its value. */
  lemma ReadsKey(r: Reader, env: Env, key: string, u: string)
    requires r.Reads(env) && Plain(key)
    ensures var w := Word(key) + ":" + u;
            "\"" <= w && |u| + 1 < |w| && r.unquote(w) == Some(Got(key, ":" + u))
  {
    assert r.valid(key) && env.quote(key) == Word(key);
    AppendAssoc(Word(key), ":", u);
    assert r.unquote(env.quote(key) + (":" + u)) == Some(Got(key, ":" + u));
  }

  lemma ReadsEmpty(r: Reader, rest: string)
    ensures r.ReadValue("{" + "" + "}" + rest) == Some(Got(Record(NoFields), rest))
  {
    var w := "{" + "" + "}" + rest;
    assert w[0] == '{' && w[1] == '}' && w[2..] == rest;
  }

  lemma ReadsRecord(r: Reader, inside: string, fields: Fields, rest: string)
    requires "\"" <= inside && r.ReadFields(inside + "}" + rest) == Some(Got(fields, rest))
    ensures r.ReadValue("{" + inside + "}" + rest) == Some(Got(Record(fields), rest))
  {
    var w := "{" + inside + "}" + rest;
    assert w[0] == '{' && w[1] == inside[0] && w[1..] == inside + "}" + rest;
  }

  lemma ReadsConstants(r: Reader, rest: string)
    ensures r.ReadValue("null" + rest) == Some(Got(Null, rest)) && r.ReadValue("[]" + rest) == Some(Got(EmptyList, rest))
  {
    assert ("null" + rest)[4..] == rest;
    assert ("[]" + rest)[0] == '[' && ("[]" + rest)[2..] == rest;
  }

  lemma {:induction false} ReadsValue(r: Reader, env: Env, v: Value, rest: string)
    requires r.Reads(env) && r.Sound(v)
    requires rest != "" ==> !IsDigit(rest[0])
    ensures r.ReadValue(Show(env, v) + rest) == Some(Got(v, rest))
    decreases v, 1
  {
    hide Reader.ReadValue, Reader.ReadFields, Reader.Reads, ShowFields;
    match v
    case Null => ReadsConstants(r, rest);
    case EmptyList => ReadsConstants(r, rest);
    case Number(n) => ReadsNumber(r, n, rest);
    case Text(s) => ReadsText(r, env, s, rest);
    case Record(fields) =>
      if fields.NoFields? {
        ShowNothing(env);
        ReadsEmpty(r, rest);
      } else {
        ReadsFields(r, env, fields, rest);
        ReadsRecord(r, ShowFields(env, fields), fields, rest);
      }
  }

  lemma ShowNothing(env: Env)
    ensures ShowFields(env, NoFields) == ""
  {
  }

  lemma ShowField(env: Env, key: string, value: Value, more: Fields, rest: string)
    ensures ShowFields(env, Field(key, value, more)) + "}" + rest
            == Word(key) + ":"
               + (Show(env, value)
                  + (if more.NoFields? then "}" + rest else "," + (ShowFields(env, more) + "}" + rest)))
    ensures "\"" <= ShowFields(env, Field(key, value, more))
  {
    hide Show;
    var k, v := Word(key) + ":", Show(env, value);
    if more.NoFields? {
      AppendAssoc(k, v, "}" + rest);
      AppendAssoc(k + v, "}", rest);
    } else {
      var m := ShowFields(env, more);
      AppendAssoc(k, v, "," + (m + "}" + rest));
      assert k + v + "," + m + "}" + rest == k + v + ("," + (m + "}" + rest));
    }
  }

  lemma {:induction false} ReadsFields(r: Reader, env: Env, fields: Fields, rest: string)
    requires r.Reads(env) && r.SoundFields(fields) && fields.Field?
    ensures "\"" <= ShowFields(env, fields)
    ensures r.ReadFields(ShowFields(env, fields) + "}" + rest) == Some(Got(fields, rest))
    decreases fields, 0
  {
    hide Reader.ReadValue, Reader.ReadFields, Reader.Reads, Show, ShowFields;
    var Field(key, value, more) := fields;
    var w := ShowFields(env, fields) + "}" + rest;
    ShowField(env, key, value, more, rest);
    if more.NoFields? {
      var u := Show(env, value) + ("}" + rest);
      ReadsValue(r, env, value, "}" + rest);
      ReadsKey(r, env, key, u);
      ReadLast(r, w, key, value, u, rest);
    } else {
      var v := ShowFields(env, more) + "}" + rest;
      var u := Show(env, value) + ("," + v);
      ReadsFields(r, env, more, rest);
      ReadsValue(r, env, value, "," + v);
      ReadsKey(r, env, key, u);
      ReadNext(r, w, key, value, u, v, more, rest);
    }
  }

  // ---------- the laws can hold together ----------

  /** Up to the next quotation mark. */
  function Unquoted(w: string): nat {
    if w == "" || w[0] == '\"' then 0 else 1 + Unquoted(w[1..])
  }

  lemma {:induction false} UnquotedIs(s: string, rest: string)
    requires '\"' !in s
    ensures Unquoted(s + "\"" + rest) == |s|
  {
    var w := s + "\"" + rest;
    if s == "" {
      assert w[0] == '\"';
    } else {
      assert w[0] == s[0] && w[1..] == s[1..] + "\"" + rest;
      UnquotedIs(s[1..], rest);
    }
  }

  predicate Unescaped(s: string) { OneLine(s) && '\"' !in s }

  function QuoteUnescaped(s: string): string { if Unescaped(s) then Word(s) else Word("") }

  function ReadUnescaped(w: string): Option<Got<string>> {
    if !("\"" <= w) || Unquoted(w[1..]) >= |w| - 1 then None
    else Some(Got(w[1..1 + Unquoted(w[1..])], w[2 + Unquoted(w[1..])..]))
  }

  lemma UnescapedReads(s: string, rest: string)
    requires Unescaped(s)
    ensures ReadUnescaped(QuoteUnescaped(s) + rest) == Some(Got(s, rest))
  {
    var w := Word(s) + rest;
    assert w[0] == '\"' && w[1..] == s + "\"" + rest;
    UnquotedIs(s, rest);
    assert w[1..1 + |s|] == s && w[2 + |s|..] == rest;
  }

  lemma PlainIsUnescaped(s: string)
    requires Plain(s)
    ensures Unescaped(s)
  {
  }

  lemma LawsAreConsistent()
    ensures exists r: Reader, env: Env :: env.Lawful() && r.Reads(env)
  {
    var r := Reader(Unescaped, ReadUnescaped);
    var env := Env(p => Bad, QuoteUnescaped, "", "");
    forall s, rest | Unescaped(s)
      ensures ReadUnescaped(QuoteUnescaped(s) + rest) == Some(Got(s, rest))
    {
      UnescapedReads(s, rest);
    }
    forall s | Plain(s)
      ensures Unescaped(s)
    {
      PlainIsUnescaped(s);
    }
    forall a: string, b: string, tag: string | Unescaped(a + tag + b)
      ensures Unescaped(a) && Unescaped(b) && Unescaped(a + b)
    {
      assert forall c :: c in a || c in b ==> c in a + tag + b;
    }
    assert env.Lawful();
    assert r.Reads(env);
  }
}
