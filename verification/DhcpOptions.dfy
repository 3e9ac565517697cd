/** The DHCP option loop of `pkg/network/interface.go`: what it reads from any bytes at all, and that it
    reads back what an encoder of RFC 2132 options wrote. */
module DhcpOptions {
  import opened Wrappers

  const PAD: Byte := 0
  const END: Byte := 255
  const SUBNET_MASK: Byte := 1
  const ROUTER: Byte := 3
  const MESSAGE_TYPE: Byte := 53
  const SERVER_ID: Byte := 54

  /** What the loop overwrites.  Addresses are four bytes. */
  datatype Offer = Offer(messageType: Byte, subnetMask: Option<seq<Byte>>, router: Option<seq<Byte>>,
                         serverID: Option<seq<Byte>>)

  function Apply(o: Offer, code: Byte, data: seq<Byte>): Offer {
    if code == MESSAGE_TYPE && |data| == 1 then o.(messageType := data[0])
    else if code == SUBNET_MASK && |data| == 4 then o.(subnetMask := Some(data))
    else if code == ROUTER && |data| >= 4 then o.(router := Some(data[..4]))
    else if code == SERVER_ID && |data| >= 4 then o.(serverID := Some(data[..4]))
    else o
  }

  // ---------- the wire format ----------

  datatype Item = Pad | Opt(code: Byte, data: seq<Byte>)

  predicate Sendable(i: Item) {
    i.Opt? ==> i.code != PAD && i.code != END && |i.data| <= 255
  }

  predicate AllSendable(items: seq<Item>) { forall k :: 0 <= k < |items| ==> Sendable(items[k]) }

  function EncodeItem(i: Item): seq<Byte>
    requires Sendable(i)
  {
    match i
    case Pad => [PAD]
    case Opt(code, data) => [code, |data|] + data
  }

  function Encode(items: seq<Item>): seq<Byte>
    requires AllSendable(items)
  {
    if items == [] then [] else EncodeItem(items[0]) + Encode(items[1..])
  }

  function ApplyItem(o: Offer, i: Item): Offer {
    match i
    case Pad => o
    case Opt(code, data) => Apply(o, code, data)
  }

  /** The effect of all items, in order. */
  function ApplyAll(o: Offer, items: seq<Item>): Offer
    decreases |items|
  {
    if items == [] then o else ApplyAll(ApplyItem(o, items[0]), items[1..])
  }

  // ---------- what the bytes hold ----------

  /** The items up to the end option, or up to an item that is cut short. */
  function Items(opts: seq<Byte>): (items: seq<Item>)
    ensures AllSendable(items)
  {
    if opts == [] then []
    else if opts[0] == PAD then [Pad] + Items(opts[1..])
    else if Stops(opts) then []
    else [FirstOpt(opts)] + Items(opts[Width(opts)..])
  }

  /** The end option, or a length or data that run past the end. */
  predicate Stops(opts: seq<Byte>)
    requires opts != []
  {
    opts[0] == END || |opts| < 2 || 2 + opts[1] > |opts|
  }

  function FirstOpt(opts: seq<Byte>): Item
    requires opts != [] && !Stops(opts)
  {
    Opt(opts[0], opts[2..2 + opts[1]])
  }

  function Width(opts: seq<Byte>): (n: int)
    requires opts != [] && !Stops(opts)
    ensures 2 <= n <= |opts|
  {
    var length: int := opts[1];
    length + 2
  }

  /** What is left where the loop stops. */
  function Rest(opts: seq<Byte>): seq<Byte> {
    if opts == [] then []
    else if opts[0] == PAD then Rest(opts[1..])
    else if Stops(opts) then opts
    else Rest(opts[Width(opts)..])
  }

  method ReadOptions(opts: seq<Byte>, before: Offer) returns (after: Offer)
    ensures after == ApplyAll(before.(messageType := 0), Items(opts))
  {
    after := before.(messageType := 0);
    var i := 0;
    while i < |opts|
      invariant 0 <= i <= |opts|
      invariant ApplyAll(after, Items(opts[i..])) == ApplyAll(before.(messageType := 0), Items(opts))
    {
      var opt := opts[i];
      ghost var tail := opts[i..];
      if opt == PAD {
        assert tail[1..] == opts[i + 1..];
        i := i + 1;
        continue;
      }
      if opt == END { break; }
      if i + 1 >= |opts| { break; }
      var optLen := opts[i + 1];
      if i + 2 + optLen > |opts| { break; }
      var optData := opts[i + 2..i + 2 + optLen];
      assert tail[2..2 + optLen] == optData && tail[2 + optLen..] == opts[i + 2 + optLen..];
      if opt == MESSAGE_TYPE && optLen == 1 {
        after := after.(messageType := optData[0]);
      } else if opt == SUBNET_MASK && optLen == 4 {
        after := after.(subnetMask := Some(optData));
      } else if opt == ROUTER && optLen >= 4 {
        after := after.(router := Some(optData[..4]));
      } else if opt == SERVER_ID && optLen >= 4 {
        after := after.(serverID := Some(optData[..4]));
      }
      i := i + 2 + optLen;
    }
  }

  // ---------- parser and encoder ----------

  lemma ItemThenRest(i: Item, tail: seq<Byte>)
    requires Sendable(i)
    ensures Items(EncodeItem(i) + tail) == [i] + Items(tail)
    ensures Rest(EncodeItem(i) + tail) == Rest(tail)
  {
    var bytes := EncodeItem(i) + tail;
    match i
    case Pad => assert bytes[1..] == tail;
    case Opt(code, data) =>
      assert bytes[2..2 + |data|] == data && bytes[2 + |data|..] == tail;
  }

  lemma Regroup(a: seq<Byte>, b: seq<Byte>, c: seq<Byte>)
    ensures a + (b + c) == (a + b) + c
  {
  }

  lemma ConsAppend(items: seq<Item>, more: seq<Item>)
    requires items != []
    ensures [items[0]] + (items[1..] + more) == items + more
  {
  }

  /** Whatever follows, the encoded items come first. */
  lemma {:induction false} ItemsOfEncoded(items: seq<Item>, tail: seq<Byte>)
    requires AllSendable(items)
    ensures Items(Encode(items) + tail) == items + Items(tail)
    ensures Rest(Encode(items) + tail) == Rest(tail)
  {
    if items == [] {
      assert Encode(items) + tail == tail;
    } else {
      var rest := Encode(items[1..]);
      Regroup(EncodeItem(items[0]), rest, tail);
      ItemThenRest(items[0], rest + tail);
      ItemsOfEncoded(items[1..], tail);
      ConsAppend(items, Items(tail));
    }
  }

  /** The bytes are exactly the items found and the rest, which is empty, starts with the end option, or is an
      item cut short. */
  lemma {:induction false} BytesAreItemsAndRest(opts: seq<Byte>)
    ensures opts == Encode(Items(opts)) + Rest(opts)
    ensures Rest(opts) != [] ==> Rest(opts)[0] != PAD && Stops(Rest(opts))
  {
    if opts != [] && (opts[0] == PAD || !Stops(opts)) {
      hide Encode, EncodeItem;
      FirstItemIs(opts);
      var i := if opts[0] == PAD then Pad else FirstOpt(opts);
      var n := if opts[0] == PAD then 1 else Width(opts);
      BytesAreItemsAndRest(opts[n..]);
      OneMoreItem(opts, n, i);
    }
  }

  /** The first item of bytes that do not stop there. */
  lemma FirstItemIs(opts: seq<Byte>)
    requires opts != [] && (opts[0] == PAD || !Stops(opts))
    ensures var i := if opts[0] == PAD then Pad else FirstOpt(opts);
            var n := if opts[0] == PAD then 1 else Width(opts);
            && Sendable(i) && EncodeItem(i) == opts[..n]
            && Items(opts) == [i] + Items(opts[n..]) && Rest(opts) == Rest(opts[n..])
  {
  }

  lemma OneMoreItem(opts: seq<Byte>, n: int, i: Item)
    requires 0 <= n <= |opts| && Sendable(i) && EncodeItem(i) == opts[..n]
    requires opts[n..] == Encode(Items(opts[n..])) + Rest(opts[n..])
    ensures opts == Encode([i] + Items(opts[n..])) + Rest(opts[n..])
  {
    hide Items, Rest;
    EncodeCons(i, Items(opts[n..]));
    Regroup(opts[..n], Encode(Items(opts[n..])), Rest(opts[n..]));
    assert opts == opts[..n] + opts[n..];
  }

  lemma EncodeCons(i: Item, items: seq<Item>)
    requires Sendable(i) && AllSendable(items)
    ensures AllSendable([i] + items) && Encode([i] + items) == EncodeItem(i) + Encode(items)
  {
    assert ([i] + items)[1..] == items;
  }

  /** Two different lists of items never have the same bytes up to the end option. */
  lemma EncodeInjective(x: seq<Item>, y: seq<Item>, junkX: seq<Byte>, junkY: seq<Byte>)
    requires AllSendable(x) && AllSendable(y)
    requires Encode(x) + ([END] + junkX) == Encode(y) + ([END] + junkY)
    ensures x == y && junkX == junkY
  {
    ItemsOfEncoded(x, [END] + junkX);
    ItemsOfEncoded(y, [END] + junkY);
    assert x + [] == x && y + [] == y;
    assert junkX == ([END] + junkX)[1..] && junkY == ([END] + junkY)[1..];
  }

  /** The offer read is the fold of the options sent, in order, whatever follows the end option. */
  lemma ReadsWhatWasSent(items: seq<Item>, junk: seq<Byte>, before: Offer)
    requires AllSendable(items)
    ensures ApplyAll(before, Items(Encode(items) + ([END] + junk))) == ApplyAll(before, items)
  {
    ItemsOfEncoded(items, [END] + junk);
    assert items + [] == items;
  }

  /** So it is when the packet is cut short inside an option: the options before it still count, and the
      one cut does not. */
  lemma ReadsUpToTheCut(items: seq<Item>, last: Item, keep: nat, before: Offer)
    requires AllSendable(items) && Sendable(last) && keep < |EncodeItem(last)|
    ensures ApplyAll(before, Items(Encode(items) + EncodeItem(last)[..keep])) == ApplyAll(before, items)
  {
    ItemsOfEncoded(items, EncodeItem(last)[..keep]);
    assert Items(EncodeItem(last)[..keep]) == [];
    assert items + [] == items;
  }

  // ---------- the last one counts ----------

  /** An option the loop takes: one byte of type, four of mask, at least four of router or server. */
  predicate Sets(i: Item, code: Byte) {
    i.Opt? && i.code == code
    && if code == 53 then |i.data| == 1 else if code == 1 then |i.data| == 4 else (code == 3 || code == 54) && |i.data| >= 4
  }

  /** What an offer holds of one option. */
  function Held(o: Offer, code: Byte): Option<seq<Byte>> {
    if code == 53 then Some([o.messageType])
    else if code == 1 then o.subnetMask
    else if code == 3 then o.router
    else if code == 54 then o.serverID
    else None
  }

  lemma {:induction false} OptionKept(o: Offer, items: seq<Item>, code: Byte)
    requires forall j :: 0 <= j < |items| ==> !Sets(items[j], code)
    ensures Held(ApplyAll(o, items), code) == Held(o, code)
    decreases |items|
  {
    if items != [] {
      assert !Sets(items[0], code);
      OptionKept(ApplyItem(o, items[0]), items[1..], code);
    }
  }

  /** Type, mask, router and server are each the data of the last option of that code that fits, its first byte or
      its first four, whatever other options stand before and after; without one they stay. */
  lemma {:induction false} LastOptionCounts(o: Offer, items: seq<Item>, code: Byte, k: nat)
    requires k < |items| && Sets(items[k], code)
    requires forall j :: k < j < |items| ==> !Sets(items[j], code)
    ensures Held(ApplyAll(o, items), code) == Some(if code == 53 then items[k].data[..1] else items[k].data[..4])
    decreases k
  {
    var p, tail := ApplyItem(o, items[0]), items[1..];
    assert forall j :: 0 <= j < |tail| ==> tail[j] == items[j + 1];
    if k == 0 {
      var data := items[0].data;
      assert data[..1] == [data[0]] && (|data| == 4 ==> data[..4] == data);
      OptionKept(p, tail, code);
    } else {
      LastOptionCounts(p, tail, code, k - 1);
    }
  }
}
