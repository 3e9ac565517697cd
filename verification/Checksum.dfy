/** The internet checksum of `pkg/network/interface.go` and the frame that carries it. */
module Checksum {
  import opened Wrappers

  const WORD: int := 0x1_0000
  const WORD_MAX: int := 0xFFFF
  const UINT32: int := 0x1_0000_0000

  // ---------- what the loops compute ----------

  function Pair(high: int, low: int): int { high * 0x100 + low }

  function WordAt(b: seq<Byte>, i: nat): (w: nat)
    requires i + 1 < |b|
    ensures w <= WORD_MAX
  {
    Pair(b[i], b[i + 1])
  }

  /** An odd last byte is the high half of a word. */
  function LastHalf(b: seq<Byte>): (w: nat)
    ensures w <= WORD_MAX
  {
    if |b| % 2 == 1 then Pair(b[|b| - 1], 0) else 0
  }

  /** The sum of the first `n` big-endian 16-bit words. */
  function Words(b: seq<Byte>, n: nat): nat
    requires 2 * n <= |b|
  {
    if n == 0 then 0 else Words(b, n - 1) + WordAt(b, 2 * n - 2)
  }

  function RawSum(b: seq<Byte>): nat { Words(b, |b| / 2) + LastHalf(b) }

  /** Adds the high half to the low half until the high half is zero. */
  function Fold(sum: nat): nat {
    if sum >= WORD then Fold(sum % WORD + sum / WORD) else sum
  }

  function IpChecksum(b: seq<Byte>): (c: int)
    ensures 0 <= c <= WORD_MAX
  {
    FoldIsResidue(RawSum(b) % UINT32);
    WORD_MAX - Fold(RawSum(b) % UINT32)
  }

  lemma WordsSnoc(b: seq<Byte>, n: nat)
    ensures Words(b, 0) == 0
    ensures 2 * n < |b| - 1 ==> Words(b, n + 1) == Words(b, n) + WordAt(b, 2 * n)
  {
  }

  lemma WrapStep(sum: nat, word: nat)
    ensures (sum % UINT32 + word) % UINT32 == (sum + word) % UINT32
  {
    assert sum == sum / UINT32 * UINT32 + sum % UINT32;
  }

  lemma WordsEnd(b: seq<Byte>, n: nat)
    requires 2 * n <= |b| <= 2 * n + 1
    ensures RawSum(b) == Words(b, n) + LastHalf(b)
  {
    assert |b| / 2 == n;
  }

  lemma FoldStep(sum: nat)
    ensures sum / WORD > 0 ==> sum % WORD + sum / WORD < sum && Fold(sum) == Fold(sum % WORD + sum / WORD)
    ensures sum / WORD == 0 ==> Fold(sum) == sum
  {
  }

  method ComputeIpChecksum(b: seq<Byte>) returns (csum: int)
    ensures csum == IpChecksum(b)
  {
    hide Fold, RawSum, Words, WordAt, LastHalf;
    var sum: nat := 0;
    var i := 0;
    ghost var n := 0;
    WordsSnoc(b, n);
    while i < |b| - 1
      invariant 0 <= i == 2 * n <= |b|
      invariant sum == Words(b, n) % UINT32
    {
      WordsSnoc(b, n);
      WrapStep(Words(b, n), WordAt(b, i));
      sum := (sum + WordAt(b, i)) % UINT32;
      i, n := i + 2, n + 1;
    }
    WordsEnd(b, n);
    WrapStep(Words(b, n), LastHalf(b));
    sum := (sum + LastHalf(b)) % UINT32;
    ghost var total := sum;
    assert total == RawSum(b) % UINT32;
    FoldStep(sum);
    while sum / WORD > 0
      invariant Fold(sum) == Fold(total) && (sum / WORD == 0 ==> Fold(sum) == sum)
      decreases sum
    {
      FoldStep(sum);
      sum := sum % WORD + sum / WORD;
      FoldStep(sum);
    }
    csum := WORD_MAX - sum;
  }

  // ---------- what they mean ----------

  /** The remainder modulo 65535, with 65535 in place of zero; zero only for zero. */
  function Residue(sum: nat): nat {
    if sum == 0 then 0 else (sum - 1) % WORD_MAX + 1
  }

  /** Folding keeps the value modulo 65535 and never turns a non-zero sum into zero. */
  lemma {:induction false} FoldIsResidue(sum: nat)
    ensures Fold(sum) == Residue(sum) <= WORD_MAX
    decreases sum
  {
    if sum >= WORD {
      FoldIsResidue(sum % WORD + sum / WORD);
      CarryKeepsResidue(sum);
    }
  }

  lemma CarryKeepsResidue(sum: nat)
    requires sum >= WORD
    ensures Residue(sum % WORD + sum / WORD) == Residue(sum)
  {
    var high, low := sum / WORD, sum % WORD;
    assert sum == high * WORD_MAX + (low + high);
    AddMultiple(low + high - 1, high);
  }

  lemma {:induction false} AddMultiple(x: nat, k: nat)
    ensures (x + k * WORD_MAX) % WORD_MAX == x % WORD_MAX
  {
    if k > 0 { AddMultiple(x, k - 1); }
  }

  /** One's-complement addition (RFC 1071, section 1): a carry out of the top is added at the bottom. */
  function OnesAdd(x: int, y: int): int {
    if x + y > WORD_MAX then x + y - WORD_MAX else x + y
  }

  function OnesWords(b: seq<Byte>, n: nat): int
    requires 2 * n <= |b|
  {
    if n == 0 then 0 else OnesAdd(OnesWords(b, n - 1), WordAt(b, 2 * n - 2))
  }

  function OnesSum(b: seq<Byte>): int {
    OnesAdd(OnesWords(b, |b| / 2), LastHalf(b))
  }

  lemma OnesAddResidue(sum: nat, word: nat)
    requires word <= WORD_MAX
    ensures OnesAdd(Residue(sum), word) == Residue(sum + word)
  {
    if sum > 0 {
      var k, x := (sum - 1) / WORD_MAX, Residue(sum) + word - 1;
      assert sum + word - 1 == x + k * WORD_MAX;
      AddMultiple(x, k);
    }
  }

  lemma {:induction false} WordsResidue(b: seq<Byte>, n: nat)
    requires 2 * n <= |b|
    ensures OnesWords(b, n) == Residue(Words(b, n)) && Words(b, n) <= n * WORD_MAX
  {
    if n > 0 {
      WordsResidue(b, n - 1);
      OnesAddResidue(Words(b, n - 1), WordAt(b, 2 * n - 2));
    }
  }

  lemma RawSumBound(b: seq<Byte>)
    requires |b| <= 131074
    ensures RawSum(b) < UINT32
  {
    WordsResidue(b, |b| / 2);
  }

  lemma ShortChecksum(b: seq<Byte>)
    requires |b| <= 131074
    ensures IpChecksum(b) == WORD_MAX - Residue(RawSum(b))
  {
    hide RawSum, Fold, Residue;
    RawSumBound(b);
    FoldIsResidue(RawSum(b));
  }

  /** Up to 131074 bytes the deferred carries amount to one's-complement addition, word by word. */
  lemma ChecksumIsOnesComplement(b: seq<Byte>)
    requires |b| <= 131074
    ensures IpChecksum(b) == WORD_MAX - OnesSum(b)
  {
    ShortChecksum(b);
    WordsResidue(b, |b| / 2);
    OnesAddResidue(Words(b, |b| / 2), LastHalf(b));
  }

  lemma {:induction false} AllOnesWords(b: seq<Byte>, n: nat)
    requires 2 * n <= |b| && forall i :: 0 <= i < |b| ==> b[i] == 0xFF
    ensures Words(b, n) == n * WORD_MAX && OnesWords(b, n) == if n == 0 then 0 else WORD_MAX
  {
    if n > 0 { AllOnesWords(b, n - 1); }
  }

  /** One word more, and the 32-bit sum can lose a carry. */
  lemma LongBuffersLoseACarry()
    ensures exists b: seq<Byte> :: |b| == 131076 && IpChecksum(b) != WORD_MAX - OnesSum(b)
  {
    var b: seq<Byte> := seq(131076, i => 0xFF);
    AllOnesWords(b, 65538);
    FoldIsResidue(RawSum(b) % UINT32);
    assert |b| == 131076 && IpChecksum(b) != WORD_MAX - OnesSum(b);
  }

  // ---------- the self-check ----------

  /** `b` with `word` written big-endian at offset `k`. */
  function PutWord(b: seq<Byte>, k: nat, word: int): (c: seq<Byte>)
    requires k + 1 < |b| && 0 <= word <= WORD_MAX
    ensures |c| == |b|
  {
    b[k := word / 0x100][k + 1 := word % 0x100]
  }

  lemma {:induction false} PutWordAdds(b: seq<Byte>, k: nat, word: int, n: nat)
    requires k % 2 == 0 && k + 1 < |b| && b[k] == 0 && b[k + 1] == 0
    requires 0 <= word <= WORD_MAX && 2 * n <= |b|
    ensures Words(PutWord(b, k, word), n) == Words(b, n) + if 2 * n > k then word else 0
  {
    if n > 0 { PutWordAdds(b, k, word, n - 1); }
  }

  lemma RawSumAfterPut(b: seq<Byte>, k: nat, word: int)
    requires k % 2 == 0 && k + 1 < |b| && b[k] == 0 && b[k + 1] == 0 && 0 <= word <= WORD_MAX
    ensures RawSum(PutWord(b, k, word)) == RawSum(b) + word
  {
    PutWordAdds(b, k, word, |b| / 2);
  }

  /** The distance up to the next positive multiple of 65535, or 65535 more, and nothing else. */
  lemma DistanceExactly(sum: nat, word: int)
    requires 0 <= word <= WORD_MAX
    ensures var c := WORD_MAX - Residue(sum);
            Residue(sum + word) == WORD_MAX <==> word == c || (c == 0 && word == WORD_MAX)
  {
    if sum > 0 {
      var k, x := (sum - 1) / WORD_MAX, Residue(sum) + word - 1;
      assert sum + word - 1 == x + k * WORD_MAX;
      AddMultiple(x, k);
    }
  }

  /** 2^32 - 1 is a multiple of 65535, so that distance never leads past 32 bits. */
  lemma DistanceFits(sum: nat)
    requires sum < UINT32
    ensures sum + (WORD_MAX - Residue(sum)) < UINT32
  {
    var k := (sum - 1) / WORD_MAX;
    assert sum > 0 ==> sum == k * WORD_MAX + Residue(sum);
    assert UINT32 == 65537 * WORD_MAX + 1;
  }

  /** Writing a buffer's checksum into a zeroed word at an even offset makes its checksum zero, whatever
      the length, even where 32 bits overflow.  Up to 131074 bytes no other word does, but for 0xFFFF where
      the checksum is zero. */
  lemma SelfCheckExactly(b: seq<Byte>, k: nat, word: int)
    requires k % 2 == 0 && k + 1 < |b| && b[k] == 0 && b[k + 1] == 0 && 0 <= word <= WORD_MAX
    ensures word == IpChecksum(b) ==> IpChecksum(PutWord(b, k, word)) == 0
    ensures |b| <= 131074 ==>
              (IpChecksum(PutWord(b, k, word)) == 0
               <==> word == IpChecksum(b) || (IpChecksum(b) == 0 && word == WORD_MAX))
  {
    RawSumAfterPut(b, k, word);
    var sum, c := RawSum(b) % UINT32, PutWord(b, k, word);
    FoldIsResidue(sum);
    FoldIsResidue(RawSum(c) % UINT32);
    DistanceExactly(sum, word);
    DistanceFits(sum);
    WrapOfSum(RawSum(b), word);
    if |b| <= 131074 { RawSumBound(c); RawSumBound(b); }
  }

  lemma WrapOfSum(sum: nat, word: nat)
    ensures sum % UINT32 + word < UINT32 ==> (sum + word) % UINT32 == sum % UINT32 + word
  {
  }

  lemma ResiduesDiffer(sum: nat, v: int, w: int)
    requires 0 <= v < w <= WORD_MAX && Residue(sum + v) == Residue(sum + w)
    ensures v == 0 && w == WORD_MAX
  {
    if sum + v > 0 {
      var x, y := sum + v - 1, sum + w - 1;
      assert x % WORD_MAX == y % WORD_MAX;
      assert x == x / WORD_MAX * WORD_MAX + x % WORD_MAX && y == y / WORD_MAX * WORD_MAX + y % WORD_MAX;
      assert (y / WORD_MAX - x / WORD_MAX) * WORD_MAX == w - v;
    }
  }

  /** A change of one aligned word changes the checksum, except between 0 and 0xFFFF. */
  lemma OneWordChangeShows(b: seq<Byte>, k: nat, v: int, w: int)
    requires |b| <= 131074 && k % 2 == 0 && k + 1 < |b| && b[k] == 0 && b[k + 1] == 0
    requires 0 <= v < w <= WORD_MAX && !(v == 0 && w == WORD_MAX)
    ensures IpChecksum(PutWord(b, k, v)) != IpChecksum(PutWord(b, k, w))
  {
    RawSumAfterPut(b, k, v);
    RawSumAfterPut(b, k, w);
    var p, q := PutWord(b, k, v), PutWord(b, k, w);
    ShortChecksum(p);
    ShortChecksum(q);
    if Residue(RawSum(p)) == Residue(RawSum(q)) { ResiduesDiffer(RawSum(b), v, w); }
  }

  /** An odd byte at the end counts as if a zero byte followed. */
  lemma OddIsPadded(b: seq<Byte>)
    requires |b| % 2 == 1
    ensures IpChecksum(b) == IpChecksum(b + [0])
  {
    hide Fold;
    var n := |b| / 2;
    WordsPrefix(b, [0], n);
    assert (b + [0])[2 * n] == b[2 * n] && (b + [0])[2 * n + 1] == 0;
    assert |b + [0]| / 2 == n + 1;
  }

  lemma {:induction false} WordsPrefix(b: seq<Byte>, more: seq<Byte>, n: nat)
    requires 2 * n <= |b|
    ensures Words(b + more, n) == Words(b, n)
  {
    if n > 0 {
      WordsPrefix(b, more, n - 1);
      assert (b + more)[2 * n - 2] == b[2 * n - 2] && (b + more)[2 * n - 1] == b[2 * n - 1];
    }
  }

  // ---------- the frame ----------

  const ETH_LEN: int := 14
  const IP_LEN: int := 20
  const UDP_LEN: int := 8
  const UDP_START: int := ETH_LEN + IP_LEN

  /** A 6-byte copy of an address that may be shorter or longer. */
  function Mac(src: seq<Byte>): (m: seq<Byte>)
    ensures |m| == 6
  {
    seq(6, i requires 0 <= i => if i < |src| then src[i] else 0)
  }

  function EthernetHeader(src: seq<Byte>): (h: seq<Byte>)
    ensures |h| == ETH_LEN
  {
    seq(6, i => 0xFF) + Mac(src) + [0x08, 0x00]
  }

  /** Protocol 17 to the broadcast address, with `total` as its length and a zero checksum. */
  function IpHeader(total: int, id: (Byte, Byte)): (h: seq<Byte>)
    requires 0 <= total <= WORD_MAX
    ensures |h| == IP_LEN && h[10] == 0 && h[11] == 0
  {
    [0x45, 0, total / 0x100, total % 0x100, id.0, id.1, 0, 0, 64, 17, 0, 0, 0, 0, 0, 0, 0xFF, 0xFF, 0xFF, 0xFF]
  }

  /** Ports 68 to 67, no UDP checksum. */
  function UdpHeader(length: int): (h: seq<Byte>)
    requires 0 <= length <= WORD_MAX
    ensures |h| == UDP_LEN
  {
    [0, 68, 0, 67, length / 0x100, length % 0x100, 0, 0]
  }

  method PutUint16(a: array<Byte>, k: nat, word: int)
    requires k + 1 < a.Length && 0 <= word <= WORD_MAX
    modifies a
    ensures a[..] == PutWord(old(a[..]), k, word)
  {
    a[k] := word / 0x100;
    a[k + 1] := word % 0x100;
  }

  method Copy(a: array<Byte>, k: nat, end: nat, src: seq<Byte>)
    requires k <= end <= a.Length
    modifies a
    ensures forall i :: 0 <= i < a.Length ==> a[i] == if k <= i < end && i - k < |src| then src[i - k] else old(a[i])
  {
    forall i | k <= i < end && i - k < |src| {
      a[i] := src[i - k];
    }
  }

  method PutEthernet(frame: array<Byte>, srcMAC: seq<Byte>)
    requires frame.Length >= ETH_LEN && forall i :: 0 <= i < ETH_LEN ==> frame[i] == 0
    modifies frame
    ensures frame[..ETH_LEN] == EthernetHeader(srcMAC)
    ensures frame[ETH_LEN..] == old(frame[ETH_LEN..])
  {
    var i := 0;
    while i < 6
      invariant 0 <= i <= 6
      invariant forall j :: 0 <= j < frame.Length ==> frame[j] == if j < i then 0xFF else old(frame[j])
    {
      frame[i] := 0xFF;
      i := i + 1;
    }
    Copy(frame, 6, 12, srcMAC);
    frame[12], frame[13] := 0x08, 0x00;
    assert frame[..ETH_LEN] == EthernetHeader(srcMAC);
  }

  method PutIpFields(frame: array<Byte>, total: int, id: (Byte, Byte))
    requires frame.Length >= ETH_LEN + IP_LEN && 0 <= total <= WORD_MAX
    requires forall i :: ETH_LEN <= i < frame.Length ==> frame[i] == 0
    modifies frame
    ensures forall i :: 0 <= i < frame.Length ==>
              frame[i] == if ETH_LEN <= i < ETH_LEN + IP_LEN then IpHeader(total, id)[i - ETH_LEN] else old(frame[i])
  {
    frame[ETH_LEN] := 0x45;
    frame[ETH_LEN + 2], frame[ETH_LEN + 3] := total / 0x100, total % 0x100;
    frame[ETH_LEN + 4], frame[ETH_LEN + 5] := id.0, id.1;
    frame[ETH_LEN + 8], frame[ETH_LEN + 9] := 64, 17;
    label fields:
    var i := 0;
    while i < 4
      invariant 0 <= i <= 4
      invariant forall j :: 0 <= j < frame.Length ==>
                  frame[j] == if ETH_LEN + 16 <= j < ETH_LEN + 16 + i then 0xFF else old@fields(frame[j])
    {
      frame[ETH_LEN + 16 + i] := 0xFF;
      i := i + 1;
    }
  }

  method PutIp(frame: array<Byte>, total: int, id: (Byte, Byte))
    requires frame.Length >= ETH_LEN + IP_LEN && 0 <= total <= WORD_MAX
    requires forall i :: ETH_LEN <= i < frame.Length ==> frame[i] == 0
    modifies frame
    ensures frame[..ETH_LEN] == old(frame[..ETH_LEN])
    ensures forall i :: ETH_LEN + IP_LEN <= i < frame.Length ==> frame[i] == 0
    ensures frame[ETH_LEN..ETH_LEN + IP_LEN] == PutWord(IpHeader(total, id), 10, IpChecksum(IpHeader(total, id)))
  {
    PutIpFields(frame, total, id);
    ghost var header := IpHeader(total, id);
    assert frame[ETH_LEN..ETH_LEN + IP_LEN] == header;
    var csum := ComputeIpChecksum(frame[ETH_LEN..ETH_LEN + IP_LEN]);
    PutUint16(frame, ETH_LEN + 10, csum);
    assert frame[ETH_LEN..ETH_LEN + IP_LEN] == PutWord(header, 10, csum);
  }

  method PutUdp(frame: array<Byte>, length: int, payload: seq<Byte>)
    requires frame.Length == UDP_START + UDP_LEN + |payload| && 0 <= length <= WORD_MAX
    requires forall i :: UDP_START <= i < frame.Length ==> frame[i] == 0
    modifies frame
    ensures frame[..UDP_START] == old(frame[..UDP_START])
    ensures frame[UDP_START..] == UdpHeader(length) + payload
  {
    PutUint16(frame, UDP_START, 68);
    PutUint16(frame, UDP_START + 2, 67);
    PutUint16(frame, UDP_START + 4, length);
    Copy(frame, UDP_START + UDP_LEN, frame.Length, payload);
  }

  lemma Parts(s: seq<Byte>, x: seq<Byte>, y: seq<Byte>, z: seq<Byte>)
    requires |s| >= |x| + |y|
    requires s[..|x|] == x && s[|x|..|x| + |y|] == y && s[|x| + |y|..] == z
    ensures s == x + y + z
  {
  }

  /** The big-endian number at offset `k`. */
  predicate NumberAt(frame: seq<Byte>, k: nat, n: int) {
    k + 1 < |frame| && frame[k] as int * 0x100 + frame[k + 1] as int == n
  }

  /** What a receiver reads by offset: broadcast from `srcMAC`, IPv4 without options, UDP from 0.0.0.0:68 to
      255.255.255.255:67 without a checksum of its own, and the payload.  Lengths are taken to 16 bits. */
  predicate Broadcasts(frame: seq<Byte>, srcMAC: seq<Byte>, payload: seq<Byte>) {
    && |frame| == 42 + |payload|
    && (forall i :: 0 <= i < 6 ==> frame[i] == 0xFF)
    && (forall i :: 6 <= i < 12 ==> frame[i] == if i - 6 < |srcMAC| then srcMAC[i - 6] else 0)
    && NumberAt(frame, 12, 0x0800)
    && NumberAt(frame, 14, 0x4500) && NumberAt(frame, 16, (28 + |payload|) % 0x1_0000)
    && NumberAt(frame, 20, 0) && NumberAt(frame, 22, 64 * 0x100 + 17)
    && (forall i :: 26 <= i < 30 ==> frame[i] == 0) && (forall i :: 30 <= i < 34 ==> frame[i] == 0xFF)
    && NumberAt(frame, 34, 68) && NumberAt(frame, 36, 67)
    && NumberAt(frame, 38, (8 + |payload|) % 0x1_0000) && NumberAt(frame, 40, 0)
    && frame[42..] == payload
  }

  lemma FrameBroadcasts(srcMAC: seq<Byte>, id: (Byte, Byte), payload: seq<Byte>)
    ensures var header := IpHeader((IP_LEN + UDP_LEN + |payload|) % WORD, id);
            Broadcasts(EthernetHeader(srcMAC) + PutWord(header, 10, IpChecksum(header))
                       + (UdpHeader((UDP_LEN + |payload|) % WORD) + payload), srcMAC, payload)
  {
    hide IpChecksum;
    var header := IpHeader((IP_LEN + UDP_LEN + |payload|) % WORD, id);
    var e, h, u := EthernetHeader(srcMAC), PutWord(header, 10, IpChecksum(header)), UdpHeader((UDP_LEN + |payload|) % WORD);
    var frame := e + h + (u + payload);
    assert forall i :: 0 <= i < 14 ==> frame[i] == e[i];
    assert forall i :: 14 <= i < 34 ==> frame[i] == h[i - 14];
    assert forall i :: 34 <= i < 42 ==> frame[i] == u[i - 34];
    assert frame[42..] == payload;
  }

  /** The receiver's checksum over the header it finds in the frame is zero. */
  method BuildEthernetIPv4UDP(srcMAC: seq<Byte>, id: (Byte, Byte), payload: seq<Byte>) returns (frame: array<Byte>)
    ensures fresh(frame)
    ensures var header := IpHeader((IP_LEN + UDP_LEN + |payload|) % WORD, id);
            frame[..] == EthernetHeader(srcMAC) + PutWord(header, 10, IpChecksum(header))
                         + (UdpHeader((UDP_LEN + |payload|) % WORD) + payload)
    ensures IpChecksum(frame[ETH_LEN..UDP_START]) == 0
    ensures Broadcasts(frame[..], srcMAC, payload)
  {
    hide IpChecksum, Broadcasts;
    var total, length := (IP_LEN + UDP_LEN + |payload|) % WORD, (UDP_LEN + |payload|) % WORD;
    frame := new Byte[UDP_START + UDP_LEN + |payload|](_ => 0);
    PutEthernet(frame, srcMAC);
    assert forall i :: ETH_LEN <= i < frame.Length ==> frame[i] == frame[ETH_LEN..][i - ETH_LEN] == 0;
    PutIp(frame, total, id);
    ghost var header := IpHeader(total, id);
    ghost var summed := PutWord(header, 10, IpChecksum(header));
    ghost var head := frame[..UDP_START];
    assert head[..ETH_LEN] == EthernetHeader(srcMAC) && head[ETH_LEN..] == summed;
    PutUdp(frame, length, payload);
    assert frame[..ETH_LEN] == head[..ETH_LEN] && frame[ETH_LEN..UDP_START] == head[ETH_LEN..];
    Parts(frame[..], EthernetHeader(srcMAC), summed, UdpHeader(length) + payload);
    SelfCheckExactly(header, 10, IpChecksum(header));
    FrameBroadcasts(srcMAC, id, payload);
  }
}
