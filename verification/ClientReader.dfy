/** A Messages client: what it makes of the printed events, and of the payloads of a whole response. */
module ClientReader {
  import opened Wrappers
  import opened Text
  import opened Sse
  import opened Translator
  import opened Json

  // ---------- the JSON of an event ----------

  function BlockFields(kind: Kind, id: string, name: string): Fields {
    match kind
    case Thinking => Field("thinking", Text(""), Field("type", Text("thinking"), NoFields))
    case PlainText => Field("text", Text(""), Field("type", Text("text"), NoFields))
    case ToolUse =>
      Field("id", Text(id), Field("input", Record(NoFields), Field("name", Text(name),
      Field("type", Text("tool_use"), NoFields))))
  }

  function DeltaFields(kind: Kind, text: string): Fields {
    match kind
    case Thinking => Field("thinking", Text(text), Field("type", Text("thinking_delta"), NoFields))
    case PlainText => Field("text", Text(text), Field("type", Text("text_delta"), NoFields))
    case ToolUse => Field("partial_json", Text(text), Field("type", Text("input_json_delta"), NoFields))
  }

  function MessageFields(id: string, model: string): Fields {
    Field("content", EmptyList, Field("id", Text(id), Field("model", Text(model), Field("role", Text("assistant"),
    Field("stop_reason", Null, Field("stop_sequence", Null, Field("type", Text("message"),
    Field("usage", Record(Field("input_tokens", Number(0), Field("output_tokens", Number(1), NoFields))), NoFields))))))))
  }

  /** The object on the data line. */
  function DataFields(env: Env, e: Event): Fields {
    match e
    case MessageStart =>
      Field("message", Record(MessageFields(env.msgID, env.model)), Field("type", Text("message_start"), NoFields))
    case BlockStart(index, kind, id, name) =>
      Field("content_block", Record(BlockFields(kind, id, name)), Field("index", Number(index),
      Field("type", Text("content_block_start"), NoFields)))
    case BlockDelta(index, kind, text) =>
      Field("delta", Record(DeltaFields(kind, text)), Field("index", Number(index),
      Field("type", Text("content_block_delta"), NoFields)))
    case BlockStop(index) =>
      Field("type", Text("content_block_stop"), Field("index", Number(index), NoFields))
    case MessageDelta(outputTokens) =>
      Field("type", Text("message_delta"),
      Field("delta", Record(Field("stop_reason", Text("end_turn"), Field("stop_sequence", Null, NoFields))),
      Field("usage", Record(Field("output_tokens", Number(outputTokens), NoFields)), NoFields)))
    case MessageStop => Field("type", Text("message_stop"), NoFields)
  }

  function Pairs(env: Env, fields: Fields): seq<string> {
    match fields
    case NoFields => []
    case Field(key, value, more) => [Pair(key, Show(env, value))] + Pairs(env, more)
  }

  lemma {:induction false} ObjectOfPairs(env: Env, fields: Fields)
    ensures Join(Pairs(env, fields), ",") == ShowFields(env, fields)
    ensures Object(Pairs(env, fields)) == Show(env, Record(fields))
  {
    if fields.Field? {
      ObjectOfPairs(env, fields.more);
      assert Pairs(env, fields)[1..] == Pairs(env, fields.more);
    }
  }

  lemma TwoPairs(env: Env, k0: string, v0: Value, k1: string, v1: Value, more: Fields)
    ensures Pairs(env, Field(k0, v0, Field(k1, v1, more)))
            == [Pair(k0, Show(env, v0)), Pair(k1, Show(env, v1))] + Pairs(env, more)
  {
    hide Show, Pair;
    assert Pairs(env, Field(k1, v1, more)) == [Pair(k1, Show(env, v1))] + Pairs(env, more);
  }

  lemma ShowsPlain(r: Reader, env: Env, s: string)
    requires r.Reads(env) && Plain(s)
    ensures Show(env, Text(s)) == Word(s)
  {
    assert r.valid(s);
  }

  lemma BlockIsShown(r: Reader, env: Env, kind: Kind, id: string, name: string)
    requires r.Reads(env)
    ensures Pairs(env, BlockFields(kind, id, name)) == BlockPairs(env, kind, id, name)
  {
    hide Word, Pair;
    ShowsPlain(r, env, "");
    match kind
    case Thinking =>
      ShowsPlain(r, env, "thinking");
      TwoPairs(env, "thinking", Text(""), "type", Text("thinking"), NoFields);
    case PlainText =>
      ShowsPlain(r, env, "text");
      TwoPairs(env, "text", Text(""), "type", Text("text"), NoFields);
    case ToolUse =>
      ShowsPlain(r, env, "tool_use");
      var last := Field("name", Text(name), Field("type", Text("tool_use"), NoFields));
      TwoPairs(env, "name", Text(name), "type", Text("tool_use"), NoFields);
      TwoPairs(env, "id", Text(id), "input", Record(NoFields), last);
      assert Show(env, Record(NoFields)) == "{}";
  }

  lemma DeltaIsShown(r: Reader, env: Env, kind: Kind, text: string)
    requires r.Reads(env)
    ensures Pairs(env, DeltaFields(kind, text)) == DeltaPairs(env, kind, text)
  {
    hide Word, Pair;
    match kind
    case Thinking =>
      ShowsPlain(r, env, "thinking_delta");
      TwoPairs(env, "thinking", Text(text), "type", Text("thinking_delta"), NoFields);
    case PlainText =>
      ShowsPlain(r, env, "text_delta");
      TwoPairs(env, "text", Text(text), "type", Text("text_delta"), NoFields);
    case ToolUse =>
      ShowsPlain(r, env, "input_json_delta");
      TwoPairs(env, "partial_json", Text(text), "type", Text("input_json_delta"), NoFields);
  }

  lemma UsageIsShown(env: Env)
    ensures Show(env, Record(Field("input_tokens", Number(0), Field("output_tokens", Number(1), NoFields))))
            == Object([Pair("input_tokens", Dec(0)), Pair("output_tokens", Dec(1))])
  {
    hide Pair, Dec, Object;
    ObjectOfPairs(env, Field("input_tokens", Number(0), Field("output_tokens", Number(1), NoFields)));
    TwoPairs(env, "input_tokens", Number(0), "output_tokens", Number(1), NoFields);
    AppendEmpty([Pair("input_tokens", Dec(0)), Pair("output_tokens", Dec(1))]);
  }

  lemma MessageIsShown(r: Reader, env: Env)
    requires r.Reads(env)
    ensures Pairs(env, MessageFields(env.msgID, env.model)) == MessagePairs(env)
  {
    hide Word, Pair, Dec, Object;
    ShowsPlain(r, env, "assistant");
    ShowsPlain(r, env, "message");
    UsageIsShown(env);
    var usage := Record(Field("input_tokens", Number(0), Field("output_tokens", Number(1), NoFields)));
    var f6 := Field("type", Text("message"), Field("usage", usage, NoFields));
    var f4 := Field("stop_reason", Null, Field("stop_sequence", Null, f6));
    var f2 := Field("model", Text(env.model), Field("role", Text("assistant"), f4));
    TwoPairs(env, "type", Text("message"), "usage", usage, NoFields);
    TwoPairs(env, "stop_reason", Null, "stop_sequence", Null, f6);
    TwoPairs(env, "model", Text(env.model), "role", Text("assistant"), f4);
    TwoPairs(env, "content", EmptyList, "id", Text(env.msgID), f2);
  }

  /** Two members and the event's type. */
  lemma BlockDataIsShown(r: Reader, env: Env, key: string, inside: Fields, index: nat, eventType: string)
    requires r.Reads(env) && Plain(eventType)
    ensures Show(env, Record(Field(key, Record(inside), Field("index", Number(index), Field("type", Text(eventType), NoFields)))))
            == Object([Pair(key, Object(Pairs(env, inside))), Pair("index", Dec(index)), Pair("type", Word(eventType))])
  {
    hide Word, Pair, Dec, Object;
    var last := Field("type", Text(eventType), NoFields);
    var all := Field(key, Record(inside), Field("index", Number(index), last));
    ShowsPlain(r, env, eventType);
    ObjectOfPairs(env, inside);
    ObjectOfPairs(env, all);
    TwoPairs(env, key, Record(inside), "index", Number(index), last);
    AppendEmpty([Pair("type", Word(eventType))]);
    assert Pairs(env, last) == [Pair("type", Word(eventType))];
    assert Pairs(env, all)
           == [Pair(key, Object(Pairs(env, inside))), Pair("index", Dec(index)), Pair("type", Word(eventType))];
  }

  lemma StopDataIsShown(r: Reader, env: Env, index: nat)
    requires r.Reads(env)
    ensures Data(env, BlockStop(index)) == Show(env, Record(DataFields(env, BlockStop(index))))
  {
    hide Word, Pair, Dec, Object;
    ShowsPlain(r, env, "content_block_stop");
    ObjectOfPairs(env, DataFields(env, BlockStop(index)));
    TwoPairs(env, "type", Text("content_block_stop"), "index", Number(index), NoFields);
    assert Pairs(env, DataFields(env, BlockStop(index))) == DataPairs(env, BlockStop(index));
  }

  lemma UsageDataIsShown(r: Reader, env: Env, n: nat)
    requires r.Reads(env)
    ensures Data(env, MessageDelta(n)) == Show(env, Record(DataFields(env, MessageDelta(n))))
  {
    hide Word, Pair, Dec, Object;
    var usage := Field("output_tokens", Number(n), NoFields);
    var reason := Field("stop_reason", Text("end_turn"), Field("stop_sequence", Null, NoFields));
    var last := Field("usage", Record(usage), NoFields);
    ShowsPlain(r, env, "message_delta");
    ShowsPlain(r, env, "end_turn");
    ObjectOfPairs(env, usage);
    ObjectOfPairs(env, reason);
    ObjectOfPairs(env, DataFields(env, MessageDelta(n)));
    TwoPairs(env, "stop_reason", Text("end_turn"), "stop_sequence", Null, NoFields);
    TwoPairs(env, "type", Text("message_delta"), "delta", Record(reason), last);
    assert Pairs(env, usage) == [Pair("output_tokens", Dec(n))];
    assert Pairs(env, last) == [Pair("usage", Object(Pairs(env, usage)))];
    assert Pairs(env, reason) == [Pair("stop_reason", Word("end_turn")), Pair("stop_sequence", "null")];
    assert Pairs(env, DataFields(env, MessageDelta(n))) == DataPairs(env, MessageDelta(n));
  }

  lemma StartDataIsShown(r: Reader, env: Env)
    requires r.Reads(env)
    ensures Data(env, MessageStart) == Show(env, Record(DataFields(env, MessageStart)))
  {
    hide Word, Pair, Object, MessageFields, MessagePairs;
    var message := MessageFields(env.msgID, env.model);
    ShowsPlain(r, env, "message_start");
    MessageIsShown(r, env);
    ObjectOfPairs(env, message);
    ObjectOfPairs(env, DataFields(env, MessageStart));
    TwoPairs(env, "message", Record(message), "type", Text("message_start"), NoFields);
    assert Pairs(env, DataFields(env, MessageStart)) == DataPairs(env, MessageStart);
  }

  lemma DataIsShown(r: Reader, env: Env, e: Event)
    requires r.Reads(env)
    ensures Data(env, e) == Show(env, Record(DataFields(env, e)))
  {
    hide Word, Pair, Dec, Object, Show, BlockFields, DeltaFields, BlockPairs, DeltaPairs, MessagePairs, MessageFields;
    match e
    case MessageStart => StartDataIsShown(r, env);
    case BlockStart(index, kind, id, name) =>
      BlockIsShown(r, env, kind, id, name);
      BlockDataIsShown(r, env, "content_block", BlockFields(kind, id, name), index, "content_block_start");
    case BlockDelta(index, kind, text) =>
      DeltaIsShown(r, env, kind, text);
      BlockDataIsShown(r, env, "delta", DeltaFields(kind, text), index, "content_block_delta");
    case BlockStop(index) => StopDataIsShown(r, env, index);
    case MessageDelta(n) => UsageDataIsShown(r, env, n);
    case MessageStop =>
      ShowsPlain(r, env, "message_stop");
      ObjectOfPairs(env, DataFields(env, MessageStop));
      AppendEmpty([Pair("type", Word("message_stop"))]);
  }

  // ---------- reading an event ----------

  function Lookup(fields: Fields, key: string): Option<Value> {
    match fields
    case NoFields => None
    case Field(k, value, more) => if k == key then Some(value) else Lookup(more, key)
  }

  function BlockOf(index: nat, block: Fields): Option<Event> {
    match Lookup(block, "type")
    case Some(Text(t)) =>
      if t == "thinking" then Some(BlockStart(index, Thinking, "", ""))
      else if t == "text" then Some(BlockStart(index, PlainText, "", ""))
      else if t != "tool_use" then None
      else
        (match (Lookup(block, "id"), Lookup(block, "name"))
         case (Some(Text(id)), Some(Text(name))) => Some(BlockStart(index, ToolUse, id, name))
         case _ => None)
    case _ => None
  }

  function DeltaOf(index: nat, delta: Fields): Option<Event> {
    match Lookup(delta, "type")
    case Some(Text(t)) =>
      var key := if t == "thinking_delta" then "thinking" else if t == "text_delta" then "text" else "partial_json";
      var kind := if t == "thinking_delta" then Thinking else if t == "text_delta" then PlainText else ToolUse;
      (match Lookup(delta, key)
       case Some(Text(text)) => if kind == ToolUse && t != "input_json_delta" then None else Some(BlockDelta(index, kind, text))
       case _ => None)
    case _ => None
  }

  /** The event that a data object of this type tells of. */
  function EventOf(eventType: string, data: Fields): Option<Event> {
    if Lookup(data, "type") != Some(Text(eventType)) then None
    else if eventType == "message_start" then Some(MessageStart)
    else if eventType == "message_stop" then Some(MessageStop)
    else if eventType == "message_delta" then
      match Lookup(data, "usage")
      case Some(Record(usage)) =>
        (match Lookup(usage, "output_tokens")
         case Some(Number(n)) => Some(MessageDelta(n))
         case _ => None)
      case _ => None
    else
      match Lookup(data, "index")
      case Some(Number(index)) =>
        if eventType == "content_block_stop" then Some(BlockStop(index))
        else if eventType == "content_block_start" then
          (match Lookup(data, "content_block")
           case Some(Record(block)) => BlockOf(index, block)
           case _ => None)
        else if eventType == "content_block_delta" then
          (match Lookup(data, "delta")
           case Some(Record(delta)) => DeltaOf(index, delta)
           case _ => None)
        else None
      case _ => None
  }

  /** The type and the data object of a text that is exactly one event. */
  function ReadData(r: Reader, text: string): Option<(string, Fields)> {
    var p := Cut(text);
    if |p.blocks| != 1 || p.rest != "" then None
    else
      var lines := BlockLines(p.blocks[0]);
      var data := DataLines(lines);
      if |data| != 1 then None
      else
        match r.ReadValue(data[0])
        case Some(Got(Record(fields), rest)) => if rest == "" then Some((EventType(lines), fields)) else None
        case _ => None
  }

  function ReadEvent(r: Reader, text: string): Option<Event> {
    match ReadData(r, text)
    case None => None
    case Some((eventType, fields)) => EventOf(eventType, fields)
  }

  /** Only tool blocks have an identifier and a name. */
  predicate Printable(r: Reader, e: Event) {
    r.ValidEvent(e) && (e.BlockStart? && e.kind != ToolUse ==> e.id == "" && e.name == "")
  }

  lemma Skips(k: string, value: Value, more: Fields, key: string)
    requires k != key
    ensures Lookup(Field(k, value, more), key) == Lookup(more, key)
  {
  }

  /** Names of one length that differ. */
  lemma NamesDiffer()
    ensures "text" != "type" && "name" != "type" && "tool_use" != "thinking"
    ensures "delta" != "index" && "delta" != "usage"
    ensures "message_start" != "message_delta" && "content_block_start" != "content_block_delta"
  {
    assert "text"[1] == 'e' && "name"[0] == 'n' && "tool_use"[1] == 'o';
    assert "delta"[0] == 'd' && "message_delta"[8] == 'd' && "content_block_delta"[14] == 'd';
  }

  lemma BlockIsTold(index: nat, kind: Kind, id: string, name: string)
    requires kind != ToolUse ==> id == "" && name == ""
    ensures BlockOf(index, BlockFields(kind, id, name)) == Some(BlockStart(index, kind, id, name))
  {
    NamesDiffer();
    if kind == ToolUse {
      var f3 := Field("type", Text("tool_use"), NoFields);
      var f2 := Field("name", Text(name), f3);
      var f1 := Field("input", Record(NoFields), f2);
      Skips("id", Text(id), f1, "type");
      Skips("input", Record(NoFields), f2, "type");
      Skips("name", Text(name), f3, "type");
      Skips("id", Text(id), f1, "name");
      Skips("input", Record(NoFields), f2, "name");
    }
  }

  lemma DeltaIsTold(index: nat, kind: Kind, text: string)
    ensures DeltaOf(index, DeltaFields(kind, text)) == Some(BlockDelta(index, kind, text))
  {
    NamesDiffer();
    match kind
    case Thinking => Skips("thinking", Text(text), Field("type", Text("thinking_delta"), NoFields), "type");
    case PlainText => Skips("text", Text(text), Field("type", Text("text_delta"), NoFields), "type");
    case ToolUse => Skips("partial_json", Text(text), Field("type", Text("input_json_delta"), NoFields), "type");
  }

  /** Three members, the last the type. */
  lemma LooksUpThree(key: string, v: Value, index: nat, eventType: string)
    requires key != "index" && key != "type"
    ensures var fields := Field(key, v, Field("index", Number(index), Field("type", Text(eventType), NoFields)));
            && Lookup(fields, key) == Some(v) && Lookup(fields, "index") == Some(Number(index))
            && Lookup(fields, "type") == Some(Text(eventType))
  {
    var last := Field("type", Text(eventType), NoFields);
    Skips(key, v, Field("index", Number(index), last), "type");
    Skips("index", Number(index), last, "type");
  }

  lemma UsageIsTold(env: Env, n: nat)
    ensures EventOf("message_delta", DataFields(env, MessageDelta(n))) == Some(MessageDelta(n))
  {
    NamesDiffer();
    var last := Field("usage", Record(Field("output_tokens", Number(n), NoFields)), NoFields);
    var reason := Record(Field("stop_reason", Text("end_turn"), Field("stop_sequence", Null, NoFields)));
    Skips("type", Text("message_delta"), Field("delta", reason, last), "usage");
    Skips("delta", reason, last, "usage");
  }

  lemma EventIsTold(env: Env, r: Reader, e: Event)
    requires Printable(r, e)
    ensures EventOf(TypeName(e), DataFields(env, e)) == Some(e)
  {
    hide Reader.ValidEvent, MessageFields, BlockFields, DeltaFields, Lookup, BlockOf, DeltaOf;
    NamesDiffer();
    match e
    case MessageStart => StartIsTold(env);
    case BlockStart(index, kind, id, name) =>
      BlockIsTold(index, kind, id, name);
      LooksUpThree("content_block", Record(BlockFields(kind, id, name)), index, "content_block_start");
    case BlockDelta(index, kind, text) =>
      DeltaIsTold(index, kind, text);
      LooksUpThree("delta", Record(DeltaFields(kind, text)), index, "content_block_delta");
    case BlockStop(index) => StopsAreTold(env, index);
    case MessageDelta(n) => UsageIsTold(env, n);
    case MessageStop => StopsAreTold(env, 0);
  }

  lemma StartIsTold(env: Env)
    ensures EventOf("message_start", DataFields(env, MessageStart)) == Some(MessageStart)
  {
    var last := Field("type", Text("message_start"), NoFields);
    assert Lookup(last, "type") == Some(Text("message_start"));
    Skips("message", Record(MessageFields(env.msgID, env.model)), last, "type");
  }

  lemma StopsAreTold(env: Env, index: nat)
    ensures EventOf("content_block_stop", DataFields(env, BlockStop(index))) == Some(BlockStop(index))
    ensures EventOf("message_stop", DataFields(env, MessageStop)) == Some(MessageStop)
  {
    Skips("type", Text("content_block_stop"), Field("index", Number(index), NoFields), "index");
  }

  /** A member with one of the fixed names as its value. */
  lemma SoundPlain(r: Reader, env: Env, key: string, s: string, more: Fields)
    requires r.Reads(env) && Plain(key) && Plain(s)
    ensures r.SoundFields(Field(key, Text(s), more)) == r.SoundFields(more)
  {
    assert r.valid(s);
  }

  lemma SoundField(r: Reader, key: string, v: Value, more: Fields)
    requires Plain(key)
    ensures r.SoundFields(Field(key, v, more)) == (r.Sound(v) && r.SoundFields(more))
  {
  }

  lemma MessageIsSound(r: Reader, env: Env)
    requires r.Reads(env)
    ensures r.SoundFields(MessageFields(env.msgID, env.model))
  {
    hide Reader.SoundFields, Reader.Reads;
    var usage := Record(Field("input_tokens", Number(0), Field("output_tokens", Number(1), NoFields)));
    var f7 := Field("usage", usage, NoFields);
    var f6 := Field("type", Text("message"), f7);
    var f5 := Field("stop_sequence", Null, f6);
    var f4 := Field("stop_reason", Null, f5);
    var f3 := Field("role", Text("assistant"), f4);
    var f2 := Field("model", Text(env.model), f3);
    var f1 := Field("id", Text(env.msgID), f2);
    NoFieldsAreSound(r);
    SoundField(r, "output_tokens", Number(1), NoFields);
    SoundField(r, "input_tokens", Number(0), Field("output_tokens", Number(1), NoFields));
    SoundField(r, "usage", usage, NoFields);
    SoundPlain(r, env, "type", "message", f7);
    SoundField(r, "stop_sequence", Null, f6);
    SoundField(r, "stop_reason", Null, f5);
    SoundPlain(r, env, "role", "assistant", f4);
    NamesAreValid(r, env);
    SoundField(r, "model", Text(env.model), f3);
    SoundField(r, "id", Text(env.msgID), f2);
    SoundField(r, "content", EmptyList, f1);
  }

  lemma NoFieldsAreSound(r: Reader)
    ensures r.SoundFields(NoFields)
  {
  }

  lemma NamesAreValid(r: Reader, env: Env)
    requires r.Reads(env)
    ensures r.valid(env.msgID) && r.valid(env.model)
  {
  }

  lemma BlockIsSound(r: Reader, env: Env, kind: Kind, id: string, name: string)
    requires r.Reads(env) && r.valid(id) && r.valid(name)
    ensures r.SoundFields(BlockFields(kind, id, name))
  {
    hide Reader.SoundFields, Reader.Reads;
    NoFieldsAreSound(r);
    match kind
    case Thinking =>
      SoundPlain(r, env, "type", "thinking", NoFields);
      SoundPlain(r, env, "thinking", "", Field("type", Text("thinking"), NoFields));
    case PlainText =>
      SoundPlain(r, env, "type", "text", NoFields);
      SoundPlain(r, env, "text", "", Field("type", Text("text"), NoFields));
    case ToolUse =>
      var f3 := Field("type", Text("tool_use"), NoFields);
      var f2 := Field("name", Text(name), f3);
      SoundPlain(r, env, "type", "tool_use", NoFields);
      SoundField(r, "name", Text(name), f3);
      SoundField(r, "input", Record(NoFields), f2);
      SoundField(r, "id", Text(id), Field("input", Record(NoFields), f2));
  }

  lemma DeltaIsSound(r: Reader, env: Env, kind: Kind, text: string)
    requires r.Reads(env) && r.valid(text)
    ensures r.SoundFields(DeltaFields(kind, text))
  {
    hide Reader.SoundFields, Reader.Reads;
    NoFieldsAreSound(r);
    match kind
    case Thinking =>
      SoundPlain(r, env, "type", "thinking_delta", NoFields);
      SoundField(r, "thinking", Text(text), Field("type", Text("thinking_delta"), NoFields));
    case PlainText =>
      SoundPlain(r, env, "type", "text_delta", NoFields);
      SoundField(r, "text", Text(text), Field("type", Text("text_delta"), NoFields));
    case ToolUse =>
      SoundPlain(r, env, "type", "input_json_delta", NoFields);
      SoundField(r, "partial_json", Text(text), Field("type", Text("input_json_delta"), NoFields));
  }

  lemma UsageIsSound(r: Reader, env: Env, n: nat)
    requires r.Reads(env)
    ensures r.SoundFields(DataFields(env, MessageDelta(n)))
  {
    hide Reader.SoundFields, Reader.Reads;
    var usage := Record(Field("output_tokens", Number(n), NoFields));
    var last := Field("usage", usage, NoFields);
    var reason := Field("stop_reason", Text("end_turn"), Field("stop_sequence", Null, NoFields));
    NoFieldsAreSound(r);
    SoundField(r, "output_tokens", Number(n), NoFields);
    SoundField(r, "usage", usage, NoFields);
    SoundField(r, "stop_sequence", Null, NoFields);
    SoundPlain(r, env, "stop_reason", "end_turn", Field("stop_sequence", Null, NoFields));
    SoundField(r, "delta", Record(reason), last);
    SoundPlain(r, env, "type", "message_delta", Field("delta", Record(reason), last));
  }

  lemma DataIsSound(r: Reader, env: Env, e: Event)
    requires r.Reads(env) && Printable(r, e)
    ensures r.SoundFields(DataFields(env, e))
  {
    hide Reader.SoundFields, Reader.Reads, BlockFields, DeltaFields, MessageFields;
    NoFieldsAreSound(r);
    SoundPlain(r, env, "type", TypeName(e), NoFields);
    match e
    case MessageStart =>
      MessageIsSound(r, env);
      SoundField(r, "message", Record(MessageFields(env.msgID, env.model)), Field("type", Text(TypeName(e)), NoFields));
    case BlockStart(index, kind, id, name) =>
      var f2 := Field("type", Text(TypeName(e)), NoFields);
      BlockIsSound(r, env, kind, id, name);
      SoundField(r, "index", Number(index), f2);
      SoundField(r, "content_block", Record(BlockFields(kind, id, name)), Field("index", Number(index), f2));
    case BlockDelta(index, kind, text) =>
      var f2 := Field("type", Text(TypeName(e)), NoFields);
      DeltaIsSound(r, env, kind, text);
      SoundField(r, "index", Number(index), f2);
      SoundField(r, "delta", Record(DeltaFields(kind, text)), Field("index", Number(index), f2));
    case BlockStop(index) =>
      SoundField(r, "index", Number(index), NoFields);
      SoundPlain(r, env, "type", TypeName(e), Field("index", Number(index), NoFields));
    case MessageDelta(n) => UsageIsSound(r, env, n);
    case MessageStop =>
  }

  /** The data line of a printed event is just this JSON object, and the client reads the event from it. */
  lemma PrintedEventReads(r: Reader, env: Env, e: Event)
    requires env.Lawful() && r.Reads(env) && Printable(r, e)
    ensures ReadData(r, Print(env, e)) == Some((TypeName(e), DataFields(env, e)))
    ensures ReadEvent(r, Print(env, e)) == Some(e)
  {
    hide Cut, BlockLines, DataLines, EventType, DataFields, Data, EventOf, Show;
    PrintedEventIsClean(env, e);
    EventTextReadsBack(TypeName(e), Data(env, e));
    DataIsShown(r, env, e);
    DataIsSound(r, env, e);
    var v := Record(DataFields(env, e));
    ReadsValue(r, env, v, "");
    AppendEmpty(Show(env, v));
    EventIsTold(env, r, e);
  }
}
