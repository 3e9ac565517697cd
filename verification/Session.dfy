/** The symmetric session of `pkg/crypto/hpke.go`: request envelope, numbered AEAD frames,
    and the client's reading of a frame stream.  X25519, HKDF and AES-GCM are parameters. */
module Session {
  import opened Wrappers
  import opened Text

  const FRAME_TOKEN_DELTA: char := '\U{01}'
  const FRAME_COMPLETION: char := '\U{02}'
  const FRAME_STREAM_END: char := '\U{03}'
  const FRAME_ERROR: char := '\U{FF}'

  const HEADER_LEN: nat := 9
  const GCM_TAG_LEN: nat := 16
  const MIN_REQUEST_LEN: nat := 60
  const UINT32_LIMIT: nat := 0x1_0000_0000
  /** The counter value at which `NextSeqNum` refuses. */
  const MAX_SEQ: nat := 0xFFFF_FFFF

  datatype Error = PayloadTooShort | FrameTooShort | FrameLengthMismatch | SeqNumOverflow
                 | LowOrderPublicKey | AgreementFailed | DecryptionFailed

  // ---------- primitives ----------

  /** An authenticated cipher: key, nonce, text, additional data. */
  datatype Aead = Aead(seal: (string, string, string, string) -> string,
                       open: (string, string, string, string) -> Option<string>)
  {
    ghost predicate Lawful() {
      forall k, n, p, h {:trigger seal(k, n, p, h)} ::
        open(k, n, seal(k, n, p, h), h) == Some(p) && |seal(k, n, p, h)| == |p| + GCM_TAG_LEN
    }
  }

  /** X25519 (private key, public key) and HKDF (secret, salt, info, output length).  A public key of low order
      agrees on zeros; no secret at all is any other failure. */
  datatype Kem = Kem(publicKey: string -> string,
                     agree: (string, string) -> Option<string>,
                     hkdf: (string, string, string, nat) -> string)
  {
    ghost predicate Lawful() {
      && (forall k {:trigger publicKey(k)} :: |publicKey(k)| == 32)
      && (forall a, b {:trigger agree(a, publicKey(b))} :: agree(a, publicKey(b)) == agree(b, publicKey(a)))
      && (forall a, p {:trigger agree(a, p)} :: agree(a, p).Some? ==> |agree(a, p).value| == 32)
      && (forall s, t, i, n {:trigger hkdf(s, t, i, n)} :: |hkdf(s, t, i, n)| == n && AllBytes(hkdf(s, t, i, n)))
    }

    /** Salts and labels count: no two nonces as salt give one key or IV; the request key is no response key; and
        the IV is not the beginning of the response key. */
    ghost predicate Separates() {
      && (forall s, t, u, i, n {:trigger hkdf(s, t, i, n), hkdf(s, u, i, n)} ::
            Salt(t) && Salt(u) && t != u && n >= 12 ==> hkdf(s, t, i, n) != hkdf(s, u, i, n))
      && (forall s, t {:trigger hkdf(s, t, "cevell-hpke-resp-aes-gcm", 32)} :: Salt(t) ==>
            && hkdf(s, "", "cevell-hpke-req-aes-gcm", 32) != hkdf(s, t, "cevell-hpke-resp-aes-gcm", 32)
            && !(hkdf(s, t, "cevell-hpke-resp-base-iv", 12) <= hkdf(s, t, "cevell-hpke-resp-aes-gcm", 32)))
    }
  }

  // ---------- bytes and big-endian numbers ----------

  predicate IsByte(c: char) { c < '\U{100}' }

  /** Twelve bytes, as every request nonce is. */
  predicate Salt(s: string) { |s| == 12 && AllBytes(s) }

  predicate AllBytes(s: string) { forall i :: 0 <= i < |s| ==> IsByte(s[i]) }

  function ByteOf(n: nat): char
    requires n < 256
  {
    n as char
  }

  /** `PutUint32`. */
  function BE32(n: nat): (s: string)
    requires n < UINT32_LIMIT
    ensures |s| == 4 && AllBytes(s)
  {
    [ByteOf(n / 0x100_0000), ByteOf(n / 0x1_0000 % 256), ByteOf(n / 256 % 256), ByteOf(n % 256)]
  }

  /** `Uint32`, in 32-bit arithmetic. */
  function Value32(s: string): (n: nat)
    requires |s| == 4
    ensures n < UINT32_LIMIT
  {
    (((s[0] as int * 256 + s[1] as int) * 256 + s[2] as int) * 256 + s[3] as int) % UINT32_LIMIT
  }

  lemma Value32OfBE32(n: nat)
    requires n < UINT32_LIMIT
    ensures Value32(BE32(n)) == n
  {
    var a, b, c := n / 256, n / 0x1_0000, n / 0x100_0000;
    assert b == a / 256 && c == b / 256;
  }

  function Pow2(w: nat): (p: nat)
    ensures p > 0
  {
    if w == 0 then 1 else 2 * Pow2(w - 1)
  }

  /** Exclusive or of two `w`-bit numbers. */
  function Xor(m: nat, n: nat, w: nat): (r: nat)
    requires m < Pow2(w) && n < Pow2(w)
    ensures r < Pow2(w)
  {
    if w == 0 then 0
    else 2 * Xor(m / 2, n / 2, w - 1) + (if m % 2 == n % 2 then 0 else 1)
  }

  lemma {:induction false} XorCancels(m: nat, x: nat, y: nat, w: nat)
    requires m < Pow2(w) && x < Pow2(w) && y < Pow2(w)
    requires Xor(m, x, w) == Xor(m, y, w)
    ensures x == y
  {
    if w > 0 { XorCancels(m / 2, x / 2, y / 2, w - 1); }
  }

  lemma ByteWidth()
    ensures Pow2(8) == 256
  {
    assert Pow2(4) == 16;
  }

  function XorByte(a: char, b: char): (c: char)
    requires IsByte(a) && IsByte(b)
    ensures IsByte(c)
  {
    ByteWidth();
    Xor(a as int, b as int, 8) as char
  }

  lemma XorByteCancels(a: char, x: char, y: char)
    requires IsByte(a) && IsByte(x) && IsByte(y)
    requires XorByte(a, x) == XorByte(a, y)
    ensures x == y
  {
    ByteWidth();
    XorCancels(a as int, x as int, y as int, 8);
  }

  /** Bit `b`, the lowest being bit 0. */
  function Bit(n: nat, b: nat): nat {
    if b == 0 then n % 2 else Bit(n / 2, b - 1)
  }

  lemma {:induction false} XorBits(m: nat, n: nat, w: nat, b: nat)
    requires m < Pow2(w) && n < Pow2(w) && b < w
    ensures Bit(Xor(m, n, w), b) == (Bit(m, b) + Bit(n, b)) % 2
  {
    var x := Xor(m / 2, n / 2, w - 1);
    assert Xor(m, n, w) / 2 == x;
    if b > 0 { XorBits(m / 2, n / 2, w - 1, b - 1); }
  }

  // ---------- frames ----------

  predicate IsIV(iv: string) { |iv| == 12 && AllBytes(iv) }

  /** `computeFrameNonce`: the counter XORed into the last four bytes of the base IV. */
  function FrameNonce(iv: string, seqNum: nat): (nonce: string)
    requires IsIV(iv) && seqNum < UINT32_LIMIT
    ensures |nonce| == 12
  {
    var n := BE32(seqNum);
    iv[..8] + [XorByte(iv[8], n[0]), XorByte(iv[9], n[1]), XorByte(iv[10], n[2]), XorByte(iv[11], n[3])]
  }

  /** Byte `k` of the counter, the highest first. */
  function CounterByte(seqNum: nat, k: nat): nat
    requires k < 4
  {
    seqNum / [0x100_0000, 0x1_0000, 0x100, 1][k] % 256
  }

  /** The first eight bytes are the base IV's; bit by bit the last four are its sum with the big-endian counter,
      without carry. */
  lemma FrameNonceExactly(iv: string, seqNum: nat, k: nat, b: nat)
    requires IsIV(iv) && seqNum < UINT32_LIMIT && k < 4 && b < 8
    ensures FrameNonce(iv, seqNum)[..8] == iv[..8]
    ensures Bit(FrameNonce(iv, seqNum)[8 + k] as int, b)
            == (Bit(iv[8 + k] as int, b) + Bit(CounterByte(seqNum, k), b)) % 2
  {
    ByteWidth();
    assert BE32(seqNum)[k] as int == CounterByte(seqNum, k);
    assert FrameNonce(iv, seqNum)[8 + k] == XorByte(iv[8 + k], BE32(seqNum)[k]);
    XorBits(iv[8 + k] as int, CounterByte(seqNum, k), 8, b);
  }

  /** No two counter values of a session share a nonce. */
  lemma FrameNoncesDistinct(iv: string, m: nat, n: nat)
    requires IsIV(iv) && m < UINT32_LIMIT && n < UINT32_LIMIT
    ensures FrameNonce(iv, m) == FrameNonce(iv, n) <==> m == n
  {
    if FrameNonce(iv, m) == FrameNonce(iv, n) {
      forall i | 0 <= i < 4
        ensures BE32(m)[i] == BE32(n)[i]
      {
        assert FrameNonce(iv, m)[8 + i] == XorByte(iv[8 + i], BE32(m)[i]);
        assert FrameNonce(iv, n)[8 + i] == XorByte(iv[8 + i], BE32(n)[i]);
        XorByteCancels(iv[8 + i], BE32(m)[i], BE32(n)[i]);
      }
      Value32OfBE32(m);
      Value32OfBE32(n);
    }
  }

  /** Type, counter, and the payload length truncated to 32 bits. */
  function Header(frameType: char, seqNum: nat, payloadLen: nat): (h: string)
    requires seqNum < UINT32_LIMIT
    ensures |h| == HEADER_LEN
  {
    [frameType] + BE32(seqNum) + BE32(payloadLen % UINT32_LIMIT)
  }

  /** The keys a frame depends on. */
  datatype Keys = Keys(key: string, iv: string)

  predicate ValidKeys(k: Keys) { IsIV(k.iv) }

  function Frame(a: Aead, k: Keys, frameType: char, seqNum: nat, plaintext: string): string
    requires ValidKeys(k) && seqNum < UINT32_LIMIT
  {
    var h := Header(frameType, seqNum, |plaintext|);
    h + a.seal(k.key, FrameNonce(k.iv, seqNum), plaintext, h)
  }

  /** What one frame carries. */
  datatype Opened = Opened(frameType: char, seqNum: nat, plaintext: string)

  function OpenFrame(a: Aead, k: Keys, frame: string): Result<Opened, Error>
    requires ValidKeys(k)
  {
    if |frame| < HEADER_LEN + GCM_TAG_LEN then Err(FrameTooShort)
    else
      var seqNum, payloadLen := Value32(frame[1..5]), Value32(frame[5..9]);
      if |frame| != HEADER_LEN + payloadLen + GCM_TAG_LEN then Err(FrameLengthMismatch)
      else
        match a.open(k.key, FrameNonce(k.iv, seqNum), frame[HEADER_LEN..], frame[..HEADER_LEN])
        case None => Err(DecryptionFailed)
        case Some(p) => Ok(Opened(frame[0], seqNum, p))
  }

  lemma FrameShape(a: Aead, k: Keys, frameType: char, seqNum: nat, plaintext: string)
    requires ValidKeys(k) && seqNum < UINT32_LIMIT && a.Lawful()
    ensures var f := Frame(a, k, frameType, seqNum, plaintext);
            && |f| == HEADER_LEN + |plaintext| + GCM_TAG_LEN
            && f[..HEADER_LEN] == Header(frameType, seqNum, |plaintext|)
            && f[0] == frameType && f[1..5] == BE32(seqNum)
            && f[5..9] == BE32(|plaintext| % UINT32_LIMIT)
  {
    var f, h := Frame(a, k, frameType, seqNum, plaintext), Header(frameType, seqNum, |plaintext|);
    assert f[..HEADER_LEN] == h;
    assert f[1..5] == h[1..5] == BE32(seqNum);
    assert f[5..9] == h[5..9] == BE32(|plaintext| % UINT32_LIMIT);
  }

  lemma FitsByHeader(f: string, n: nat)
    requires n < UINT32_LIMIT && |f| == HEADER_LEN + n + GCM_TAG_LEN && f[5..9] == BE32(n)
    ensures Fits(f)
  {
    Value32OfBE32(n);
  }

  lemma FrameFits(a: Aead, k: Keys, frameType: char, seqNum: nat, plaintext: string)
    requires ValidKeys(k) && seqNum < UINT32_LIMIT && a.Lawful() && |plaintext| < UINT32_LIMIT
    ensures Fits(Frame(a, k, frameType, seqNum, plaintext))
  {
    assert |plaintext| % UINT32_LIMIT == |plaintext|;
    FrameShape(a, k, frameType, seqNum, plaintext);
    FitsByHeader(Frame(a, k, frameType, seqNum, plaintext), |plaintext|);
  }

  lemma OpenByHeader(a: Aead, k: Keys, f: string, seqNum: nat, payloadLen: nat)
    requires ValidKeys(k) && seqNum < UINT32_LIMIT && payloadLen < UINT32_LIMIT
    requires |f| >= HEADER_LEN + GCM_TAG_LEN && f[1..5] == BE32(seqNum) && f[5..9] == BE32(payloadLen)
    ensures OpenFrame(a, k, f)
            == if |f| != HEADER_LEN + payloadLen + GCM_TAG_LEN then Err(FrameLengthMismatch)
               else match a.open(k.key, FrameNonce(k.iv, seqNum), f[HEADER_LEN..], f[..HEADER_LEN])
                    case None => Err(DecryptionFailed)
                    case Some(p) => Ok(Opened(f[0], seqNum, p))
  {
    Value32OfBE32(seqNum);
    Value32OfBE32(payloadLen);
  }

  /** A frame opens to exactly what was sealed if and only if its length fits the 32-bit header. */
  lemma FrameRoundTrip(a: Aead, k: Keys, frameType: char, seqNum: nat, plaintext: string)
    requires ValidKeys(k) && seqNum < UINT32_LIMIT && a.Lawful()
    ensures OpenFrame(a, k, Frame(a, k, frameType, seqNum, plaintext))
            == if |plaintext| < UINT32_LIMIT then Ok(Opened(frameType, seqNum, plaintext)) else Err(FrameLengthMismatch)
  {
    hide BE32, Value32, FrameNonce, OpenFrame;
    var f, h := Frame(a, k, frameType, seqNum, plaintext), Header(frameType, seqNum, |plaintext|);
    FrameShape(a, k, frameType, seqNum, plaintext);
    OpenByHeader(a, k, f, seqNum, |plaintext| % UINT32_LIMIT);
    assert f[HEADER_LEN..] == a.seal(k.key, FrameNonce(k.iv, seqNum), plaintext, h);
  }

  /** Four bytes from offset `k`, the highest first. */
  function Number32(f: string, k: nat): nat
    requires k + 4 <= |f|
  {
    (f[k] as int * 0x100_0000 + f[k + 1] as int * 0x1_0000 + f[k + 2] as int * 0x100 + f[k + 3] as int) % 0x1_0000_0000
  }

  /** A frame by offset: type, counter, length, ciphertext; at least 25 bytes, as many as its header says, and
      authenticated with its header. */
  lemma OpenFrameExactly(a: Aead, k: Keys, f: string)
    requires ValidKeys(k)
    ensures var r := OpenFrame(a, k, f);
            if |f| < 25 then r == Err(FrameTooShort)
            else if |f| != 25 + Number32(f, 5) then r == Err(FrameLengthMismatch)
            else
              match a.open(k.key, FrameNonce(k.iv, Number32(f, 1)), f[9..], f[..9])
              case None => r == Err(DecryptionFailed)
              case Some(p) => r == Ok(Opened(f[0], Number32(f, 1), p))
  {
    hide FrameNonce;
    if |f| >= 25 {
      ValueIsNumber(f, 1);
      ValueIsNumber(f, 5);
    }
  }

  lemma ValueIsNumber(f: string, k: nat)
    requires k + 4 <= |f|
    ensures Value32(f[k..k + 4]) == Number32(f, k)
  {
    var s := f[k..k + 4];
    assert s[0] == f[k] && s[1] == f[k + 1] && s[2] == f[k + 2] && s[3] == f[k + 3];
  }

  // ---------- a stream of frames ----------

  /** A payload handed to `EncryptFrame`. */
  datatype Plain = Plain(frameType: char, plaintext: string)

  function Frames(a: Aead, k: Keys, plains: seq<Plain>): seq<string>
    requires ValidKeys(k) && |plains| <= UINT32_LIMIT
  {
    seq(|plains|, i requires 0 <= i < |plains| => Frame(a, k, plains[i].frameType, i, plains[i].plaintext))
  }

  function Concat(parts: seq<string>): string {
    if parts == [] then "" else parts[0] + Concat(parts[1..])
  }

  lemma {:induction false} ConcatAppend(p: seq<string>, q: seq<string>)
    ensures Concat(p + q) == Concat(p) + Concat(q)
  {
    if p == [] {
      assert p + q == q;
    } else {
      assert (p + q)[1..] == p[1..] + q;
      ConcatAppend(p[1..], q);
      AppendAssoc(p[0], Concat(p[1..]), Concat(q));
    }
  }

  /** The bytes on the wire: the frames of `plains` back to back, counted from 0. */
  function Stream(a: Aead, k: Keys, plains: seq<Plain>): string
    requires ValidKeys(k) && |plains| <= UINT32_LIMIT
  {
    Concat(Frames(a, k, plains))
  }

  lemma StreamSnoc(a: Aead, k: Keys, plains: seq<Plain>, p: Plain)
    requires ValidKeys(k) && |plains| < UINT32_LIMIT
    ensures Stream(a, k, plains + [p]) == Stream(a, k, plains) + Frame(a, k, p.frameType, |plains|, p.plaintext)
  {
    var f := Frame(a, k, p.frameType, |plains|, p.plaintext);
    assert Frames(a, k, plains + [p]) == Frames(a, k, plains) + [f];
    ConcatAppend(Frames(a, k, plains), [f]);
    assert Concat([f]) == f;
  }

  /** `f` is as long as its own length header says. */
  predicate Fits(f: string) {
    |f| >= HEADER_LEN + GCM_TAG_LEN && |f| == HEADER_LEN + Value32(f[5..9]) + GCM_TAG_LEN
  }

  /** A client's splitting of a response body by the length headers. */
  function SplitFrames(wire: string): Result<seq<string>, Error>
    decreases |wire|
  {
    if wire == "" then Ok([])
    else if |wire| < HEADER_LEN + GCM_TAG_LEN then Err(FrameTooShort)
    else
      var total := HEADER_LEN + Value32(wire[5..9]) + GCM_TAG_LEN;
      if total > |wire| then Err(FrameTooShort)
      else
        match SplitFrames(wire[total..])
        case Err(e) => Err(e)
        case Ok(others) => Ok([wire[..total]] + others)
  }

  lemma SplitFirst(f: string, others: string)
    requires Fits(f) && SplitFrames(others).Ok?
    ensures SplitFrames(f + others) == Ok([f] + SplitFrames(others).value)
  {
    var w := f + others;
    assert w[5..9] == f[5..9];
    assert w[..|f|] == f && w[|f|..] == others;
  }

  lemma {:induction false} SplitConcat(frames: seq<string>)
    requires forall i :: 0 <= i < |frames| ==> Fits(frames[i])
    ensures SplitFrames(Concat(frames)) == Ok(frames)
  {
    if frames != [] {
      SplitConcat(frames[1..]);
      SplitFirst(frames[0], Concat(frames[1..]));
      assert frames == [frames[0]] + frames[1..];
    }
  }

  /** The reading of a whole response body: split it, then open each frame. */
  function ReadStream(a: Aead, k: Keys, wire: string): Result<seq<Opened>, Error>
    requires ValidKeys(k)
  {
    match SplitFrames(wire)
    case Err(e) => Err(e)
    case Ok(frames) => OpenAll(a, k, frames)
  }

  function OpenAll(a: Aead, k: Keys, frames: seq<string>): Result<seq<Opened>, Error>
    requires ValidKeys(k)
  {
    if frames == [] then Ok([])
    else
      match OpenAll(a, k, frames[..|frames| - 1])
      case Err(e) => Err(e)
      case Ok(before) =>
        match OpenFrame(a, k, frames[|frames| - 1])
        case Err(e) => Err(e)
        case Ok(last) => Ok(before + [last])
  }

  lemma {:induction false} OpenAllOpensEach(a: Aead, k: Keys, frames: seq<string>, expected: seq<Opened>)
    requires ValidKeys(k) && |frames| == |expected|
    requires forall i :: 0 <= i < |frames| ==> OpenFrame(a, k, frames[i]) == Ok(expected[i])
    ensures OpenAll(a, k, frames) == Ok(expected)
  {
    if frames != [] {
      var n := |frames| - 1;
      OpenAllOpensEach(a, k, frames[..n], expected[..n]);
      assert expected[..n] + [expected[n]] == expected;
      assert forall i :: 0 <= i < n ==> frames[..n][i] == frames[i];
    }
  }

  /** The payloads with their types and the counters 0, 1, 2, ... */
  function Numbered(plains: seq<Plain>): seq<Opened> {
    seq(|plains|, i requires 0 <= i < |plains| => Opened(plains[i].frameType, i, plains[i].plaintext))
  }

  predicate Frameable(plains: seq<Plain>) {
    forall i :: 0 <= i < |plains| ==> |plains[i].plaintext| < UINT32_LIMIT
  }

  /** The wire bytes split into the frames by their headers, and the client recovers every type and payload in
      order, with counters 0, 1, 2, ... */
  lemma StreamRoundTrip(a: Aead, k: Keys, plains: seq<Plain>)
    requires ValidKeys(k) && a.Lawful() && |plains| <= UINT32_LIMIT && Frameable(plains)
    ensures SplitFrames(Stream(a, k, plains)) == Ok(Frames(a, k, plains))
    ensures ReadStream(a, k, Stream(a, k, plains)) == Ok(Numbered(plains))
  {
    var frames := Frames(a, k, plains);
    forall i | 0 <= i < |plains|
      ensures Fits(frames[i])
      ensures OpenFrame(a, k, frames[i]) == Ok(Numbered(plains)[i])
    {
      FrameFits(a, k, plains[i].frameType, i, plains[i].plaintext);
      FrameRoundTrip(a, k, plains[i].frameType, i, plains[i].plaintext);
    }
    SplitConcat(frames);
    OpenAllOpensEach(a, k, frames, Numbered(plains));
  }

  /** No other list of frames that fit their own headers has these wire bytes. */
  lemma StreamSplitsUniquely(a: Aead, k: Keys, plains: seq<Plain>, frames: seq<string>)
    requires ValidKeys(k) && a.Lawful() && |plains| <= UINT32_LIMIT && Frameable(plains)
    requires (forall i :: 0 <= i < |frames| ==> Fits(frames[i])) && Concat(frames) == Stream(a, k, plains)
    ensures frames == Frames(a, k, plains)
  {
    StreamRoundTrip(a, k, plains);
    SplitConcat(frames);
  }

  // ---------- the request envelope ----------

  const REQ_INFO := "cevell-hpke-req-aes-gcm"
  const RESP_INFO := "cevell-hpke-resp-aes-gcm"
  const IV_INFO := "cevell-hpke-resp-base-iv"

  /** `computeX25519SharedSecret`. */
  function SharedSecret(kem: Kem, priv: string, pub: string): Result<string, Error> {
    match kem.agree(priv, pub)
    case None => Err(AgreementFailed)
    case Some(s) => if s == Zeros(32) then Err(LowOrderPublicKey) else Ok(s)
  }

  /** Everything a new session holds. */
  datatype Secrets = Secrets(clientPub: string, requestKey: string, response: Keys)

  function Derive(kem: Kem, secret: string, clientPub: string, nonce: string): Secrets {
    Secrets(clientPub,
            kem.hkdf(secret, "", REQ_INFO, 32),
            Keys(kem.hkdf(secret, nonce, RESP_INFO, 32), kem.hkdf(secret, nonce, IV_INFO, 12)))
  }

  datatype Envelope = Envelope(wire: string, secrets: Secrets)

  /** `EncryptBinaryHPKERequest`; `nonce` is the 12 random bytes it draws. */
  function EncryptRequest(a: Aead, kem: Kem, clientPriv: string, recipientPub: string, nonce: string, plaintext: string)
    : Result<Envelope, Error>
    requires |nonce| == 12
  {
    match SharedSecret(kem, clientPriv, recipientPub)
    case Err(e) => Err(e)
    case Ok(secret) =>
      var secrets := Derive(kem, secret, kem.publicKey(clientPriv), nonce);
      Ok(Envelope(secrets.clientPub + nonce + a.seal(secrets.requestKey, nonce, plaintext, ""), secrets))
  }

  datatype Unwrapped = Unwrapped(plaintext: string, secrets: Secrets)

  /** `UnwrapBinaryHPKERequest`. */
  function UnwrapRequest(a: Aead, kem: Kem, recipientPriv: string, raw: string): Result<Unwrapped, Error> {
    if |raw| < MIN_REQUEST_LEN then Err(PayloadTooShort)
    else
      var clientPub, nonce, ciphertext := raw[..32], raw[32..44], raw[44..];
      match SharedSecret(kem, recipientPriv, clientPub)
      case Err(e) => Err(e)
      case Ok(secret) =>
        var secrets := Derive(kem, secret, clientPub, nonce);
        match a.open(secrets.requestKey, nonce, ciphertext, "")
        case None => Err(DecryptionFailed)
        case Some(p) => Ok(Unwrapped(p, secrets))
  }

  /** The agreed secret has a byte that is not zero. */
  ghost predicate UsableSecret(kem: Kem, priv: string, pub: string) {
    exists s, i :: kem.agree(priv, pub) == Some(s) && 0 <= i < |s| && s[i] != '\U{00}'
  }

  lemma SecretIsUsable(kem: Kem, priv: string, pub: string)
    requires kem.Lawful()
    ensures SharedSecret(kem, priv, pub).Ok? <==> UsableSecret(kem, priv, pub)
  {
    var secret := kem.agree(priv, pub);
    if secret.Some? && secret.value != Zeros(32) {
      var i :| 0 <= i < 32 && secret.value[i] != '\U{00}';
    }
  }

  /** The server reads back the plaintext and holds the client's response key and IV; the client
      fails exactly when the two keys have no usable shared secret. */
  lemma RequestRoundTrip(a: Aead, kem: Kem, clientPriv: string, recipientPriv: string, nonce: string, plaintext: string)
    requires a.Lawful() && kem.Lawful() && |nonce| == 12
    ensures var sent := EncryptRequest(a, kem, clientPriv, kem.publicKey(recipientPriv), nonce, plaintext);
            && (sent.Ok? <==> UsableSecret(kem, recipientPriv, kem.publicKey(clientPriv)))
            && (sent.Ok? ==> ValidKeys(sent.value.secrets.response))
            && (sent.Ok? ==> UnwrapRequest(a, kem, recipientPriv, sent.value.wire)
                             == Ok(Unwrapped(plaintext, sent.value.secrets)))
  {
    var sent := EncryptRequest(a, kem, clientPriv, kem.publicKey(recipientPriv), nonce, plaintext);
    SecretIsUsable(kem, recipientPriv, kem.publicKey(clientPriv));
    assert kem.agree(clientPriv, kem.publicKey(recipientPriv)) == kem.agree(recipientPriv, kem.publicKey(clientPriv));
    if sent.Ok? {
      var Envelope(wire, secrets) := sent.value;
      assert |kem.publicKey(clientPriv)| == 32;
      assert wire[..32] == secrets.clientPub && wire[32..44] == nonce;
      assert wire[44..] == a.seal(secrets.requestKey, nonce, plaintext, "");
    }
  }

  /** The envelope: public key, nonce, sealed request; 60 bytes more than the request. */
  lemma EnvelopeLayout(a: Aead, kem: Kem, clientPriv: string, recipientPub: string, nonce: string, plaintext: string)
    requires a.Lawful() && kem.Lawful() && |nonce| == 12
    ensures var sent := EncryptRequest(a, kem, clientPriv, recipientPub, nonce, plaintext);
            sent.Ok? ==>
              var w := sent.value.wire;
              && |w| == 60 + |plaintext| && w[..32] == kem.publicKey(clientPriv) && w[32..44] == nonce
              && exists secret :: kem.agree(clientPriv, recipientPub) == Some(secret)
                   && a.open(kem.hkdf(secret, "", "cevell-hpke-req-aes-gcm", 32), nonce, w[44..], "") == Some(plaintext)
  {
    var sent := EncryptRequest(a, kem, clientPriv, recipientPub, nonce, plaintext);
    if sent.Ok? {
      var Envelope(w, secrets) := sent.value;
      var secret := kem.agree(clientPriv, recipientPub).value;
      assert |kem.publicKey(clientPriv)| == 32;
      var sealed := a.seal(kem.hkdf(secret, "", "cevell-hpke-req-aes-gcm", 32), nonce, plaintext, "");
      assert w == kem.publicKey(clientPriv) + nonce + sealed;
      assert w[..32] == kem.publicKey(clientPriv) && w[32..44] == nonce && w[44..] == sealed;
    }
  }

  /** The server takes an envelope of 60 bytes or more whose key gives a usable secret and whose ciphertext opens
      under the request key with the nonce it brings. */
  lemma UnwrapExactly(a: Aead, kem: Kem, recipientPriv: string, raw: string)
    requires kem.Lawful()
    ensures var r := UnwrapRequest(a, kem, recipientPriv, raw);
            && (r == Err(PayloadTooShort) <==> |raw| < 60)
            && (|raw| >= 60 ==>
                  var agreed := kem.agree(recipientPriv, raw[..32]);
                  if agreed.None? then r == Err(AgreementFailed)
                  else if agreed == Some(Zeros(32)) then r == Err(LowOrderPublicKey)
                  else
                    match a.open(kem.hkdf(agreed.value, "", "cevell-hpke-req-aes-gcm", 32), raw[32..44], raw[44..], "")
                    case None => r == Err(DecryptionFailed)
                    case Some(p) =>
                      && r.Ok? && r.value.plaintext == p && r.value.secrets.clientPub == raw[..32]
                      && r.value.secrets.response
                         == Keys(kem.hkdf(agreed.value, raw[32..44], "cevell-hpke-resp-aes-gcm", 32),
                                 kem.hkdf(agreed.value, raw[32..44], "cevell-hpke-resp-base-iv", 12)))
  {
  }

  /** The three secrets of one request are apart, and two nonces give two response keys and two IVs. */
  predicate Apart(s: Secrets) {
    s.requestKey != s.response.key && !(s.response.iv <= s.response.key)
  }

  lemma SecretsApart(kem: Kem, secret: string, clientPub: string, m: string, n: string)
    requires kem.Lawful() && kem.Separates() && Salt(m) && Salt(n)
    ensures var s, t := Derive(kem, secret, clientPub, m), Derive(kem, secret, clientPub, n);
            && Apart(s) && ValidKeys(s.response)
            && (s.response.key == t.response.key <==> m == n) && (s.response.iv == t.response.iv <==> m == n)
  {
    assert kem.hkdf(secret, m, "cevell-hpke-resp-aes-gcm", 32) == Derive(kem, secret, clientPub, m).response.key;
  }

  /** Two requests of one client to one recipient: a frame key and frame nonce come up again only for the same
      request nonce and the same counter. */
  lemma NoPairTwice(a: Aead, kem: Kem, clientPriv: string, recipientPub: string, m: string, n: string,
                    p: string, q: string, i: nat, j: nat)
    requires kem.Lawful() && kem.Separates() && Salt(m) && Salt(n) && i < UINT32_LIMIT && j < UINT32_LIMIT
    requires EncryptRequest(a, kem, clientPriv, recipientPub, m, p).Ok?
    ensures var x := EncryptRequest(a, kem, clientPriv, recipientPub, m, p).value.secrets;
            && EncryptRequest(a, kem, clientPriv, recipientPub, n, q).Ok?
            && var y := EncryptRequest(a, kem, clientPriv, recipientPub, n, q).value.secrets;
               && Apart(x) && ValidKeys(x.response) && ValidKeys(y.response)
               && (x.response.key == y.response.key <==> m == n) && (x.response.iv == y.response.iv <==> m == n)
               && (x.response.key == y.response.key && FrameNonce(x.response.iv, i) == FrameNonce(y.response.iv, j)
                   <==> m == n && i == j)
  {
    hide FrameNonce;
    var secret := SharedSecret(kem, clientPriv, recipientPub).value;
    SecretsApart(kem, secret, kem.publicKey(clientPriv), m, n);
    SecretsApart(kem, secret, kem.publicKey(clientPriv), n, m);
    FrameNoncesDistinct(Derive(kem, secret, kem.publicKey(clientPriv), m).response.iv, i, j);
  }

  /** The same on the server, for any two envelopes that open and name one client key: the response keys and IVs are
      those of one request exactly when the nonces in them agree. */
  lemma UnwrappedApart(a: Aead, kem: Kem, recipientPriv: string, raw: string, other: string)
    requires kem.Lawful() && kem.Separates() && AllBytes(raw) && AllBytes(other)
    requires UnwrapRequest(a, kem, recipientPriv, raw).Ok? && UnwrapRequest(a, kem, recipientPriv, other).Ok?
    requires raw[..32] == other[..32]
    ensures var x := UnwrapRequest(a, kem, recipientPriv, raw).value.secrets;
            var y := UnwrapRequest(a, kem, recipientPriv, other).value.secrets;
            && Apart(x) && x.clientPub == raw[..32]
            && (x.response.key == y.response.key <==> raw[32..44] == other[32..44])
            && (x.response.iv == y.response.iv <==> raw[32..44] == other[32..44])
  {
    var secret := SharedSecret(kem, recipientPriv, raw[..32]).value;
    SecretsApart(kem, secret, raw[..32], raw[32..44], other[32..44]);
  }

  /** One request and its response, end to end: the client opens exactly the server's frames. */
  lemma ExchangeRoundTrip(a: Aead, kem: Kem, clientPriv: string, recipientPriv: string, nonce: string,
                          plaintext: string, plains: seq<Plain>)
    requires a.Lawful() && kem.Lawful() && |nonce| == 12
    requires |plains| <= MAX_SEQ && Frameable(plains)
    requires UsableSecret(kem, recipientPriv, kem.publicKey(clientPriv))
    ensures var sent := EncryptRequest(a, kem, clientPriv, kem.publicKey(recipientPriv), nonce, plaintext).value;
            var got := UnwrapRequest(a, kem, recipientPriv, sent.wire);
            && got.Ok? && got.value.plaintext == plaintext
            && ValidKeys(sent.secrets.response) && ValidKeys(got.value.secrets.response)
            && ReadStream(a, sent.secrets.response, Stream(a, got.value.secrets.response, plains))
               == Ok(Numbered(plains))
  {
    RequestRoundTrip(a, kem, clientPriv, recipientPriv, nonce, plaintext);
    var sent := EncryptRequest(a, kem, clientPriv, kem.publicKey(recipientPriv), nonce, plaintext).value;
    StreamRoundTrip(a, sent.secrets.response, plains);
  }

  // ---------- the laws can hold together ----------

  /** A salt with its first byte moved by `d`, and bytes of `d`. */
  function Stretched(t: string, d: nat, n: nat): (r: string)
    requires Salt(t) && n >= 12 && d < 2
    ensures |r| == n && AllBytes(r)
  {
    [ByteOf((t[0] as int + d) % 256)] + t[1..] + seq(n - 12, _ => '\U{01}')
  }

  lemma StretchedApart(t: string, u: string, d: nat, n: nat)
    requires Salt(t) && Salt(u) && n >= 12 && d < 2
    ensures Stretched(t, d, n) == Stretched(u, d, n) ==> t == u
    ensures !(Stretched(t, 1, 12) <= Stretched(t, 0, 32))
    ensures Stretched(t, 0, 32) != Zeros(32)
  {
    var x, y := Stretched(t, d, n), Stretched(u, d, n);
    assert x[1..12] == t[1..] && y[1..12] == u[1..];
    assert Stretched(t, 1, 12)[0] != Stretched(t, 0, 32)[0];
    assert Stretched(t, 0, 32)[12] == '\U{01}';
    if x == y {
      assert x[0] == y[0];
      assert t == [t[0]] + t[1..] && u == [u[0]] + u[1..];
    }
  }

  function StretchKey(salt: string, info: string, n: nat): (r: string)
    ensures |r| == n && AllBytes(r)
  {
    if Salt(salt) && n >= 12 then Stretched(salt, if info == "cevell-hpke-resp-base-iv" then 1 else 0, n) else Zeros(n)
  }

  lemma StretchKeySeparates(t: string, u: string, i: string, n: nat)
    requires Salt(t)
    ensures Salt(u) && t != u && n >= 12 ==> StretchKey(t, i, n) != StretchKey(u, i, n)
    ensures StretchKey("", "cevell-hpke-req-aes-gcm", 32) != StretchKey(t, "cevell-hpke-resp-aes-gcm", 32)
    ensures !(StretchKey(t, "cevell-hpke-resp-base-iv", 12) <= StretchKey(t, "cevell-hpke-resp-aes-gcm", 32))
  {
    hide Stretched;
    StretchedApart(t, t, 0, 32);
    if Salt(u) && n >= 12 {
      StretchedApart(t, u, 0, n);
      StretchedApart(t, u, 1, n);
    }
    LabelsDiffer();
  }

  lemma LabelsDiffer()
    ensures "cevell-hpke-resp-aes-gcm" != "cevell-hpke-resp-base-iv"
  {
    assert "cevell-hpke-resp-aes-gcm"[17] == 'a' && "cevell-hpke-resp-base-iv"[17] == 'b';
  }

  function TagCipher(): Aead {
    Aead((k, n, p, h) => p + Zeros(GCM_TAG_LEN),
         (k, n, c: string, h) => if |c| < GCM_TAG_LEN then None else Some(c[..|c| - GCM_TAG_LEN]))
  }

  lemma TagCipherIsLawful()
    ensures TagCipher().Lawful()
  {
    forall p: string
      ensures (p + Zeros(GCM_TAG_LEN))[..|p + Zeros(GCM_TAG_LEN)| - GCM_TAG_LEN] == p
    {
    }
  }

  function StretchKem(): Kem {
    Kem(p => Zeros(32), (p, q) => Some(Zeros(32)), (s, t, i, n: nat) => StretchKey(t, i, n))
  }

  lemma StretchKemIsLawful()
    ensures StretchKem().Lawful()
  {
    hide StretchKey;
  }

  lemma StretchKemSeparates()
    ensures StretchKem().Separates()
  {
    hide StretchKey, Salt;
    forall t, u, i, n: nat | Salt(t)
      ensures Salt(u) && t != u && n >= 12 ==> StretchKey(t, i, n) != StretchKey(u, i, n)
      ensures StretchKey("", "cevell-hpke-req-aes-gcm", 32) != StretchKey(t, "cevell-hpke-resp-aes-gcm", 32)
      ensures !(StretchKey(t, "cevell-hpke-resp-base-iv", 12) <= StretchKey(t, "cevell-hpke-resp-aes-gcm", 32))
    {
      StretchKeySeparates(t, u, i, n);
    }
  }

  /** A cipher that appends an empty tag, one shared secret, and a derivation that stretches its salt. */
  lemma LawsAreConsistent()
    ensures exists a: Aead, k: Kem :: a.Lawful() && k.Lawful() && k.Separates()
  {
    TagCipherIsLawful();
    StretchKemIsLawful();
    StretchKemSeparates();
  }

  // ---------- the session object ----------

  method ComputeFrameNonce(baseIV: string, seqNum: nat) returns (nonce: array<char>)
    requires IsIV(baseIV) && seqNum < UINT32_LIMIT
    ensures fresh(nonce) && nonce[..] == FrameNonce(baseIV, seqNum)
  {
    nonce := new char[12](i requires 0 <= i < 12 => baseIV[i]);
    var seqBytes := BE32(seqNum);
    nonce[8] := XorByte(nonce[8], seqBytes[0]);
    nonce[9] := XorByte(nonce[9], seqBytes[1]);
    nonce[10] := XorByte(nonce[10], seqBytes[2]);
    nonce[11] := XorByte(nonce[11], seqBytes[3]);
    assert nonce[..8] == baseIV[..8];
  }

  class HPKESession {
    const aead: Aead
    var clientEphPub: string
    var requestKey: string
    var responseKey: string
    var responseIV: string
    var seqNum: nat
    /** The cached response cipher, named by its key. */
    var respAEAD: Option<string>

    ghost predicate Valid()
      reads this
    {
      && IsIV(responseIV)
      && seqNum <= MAX_SEQ
      && (respAEAD.Some? ==> respAEAD.value == responseKey)
    }

    ghost function ResponseKeys(): Keys
      reads this
    {
      Keys(responseKey, responseIV)
    }

    constructor (aead: Aead, secrets: Secrets)
      requires ValidKeys(secrets.response)
      ensures Valid() && this.aead == aead && seqNum == 0
      ensures ResponseKeys() == secrets.response
      ensures clientEphPub == secrets.clientPub && requestKey == secrets.requestKey
    {
      this.aead := aead;
      clientEphPub, requestKey := secrets.clientPub, secrets.requestKey;
      responseKey, responseIV := secrets.response.key, secrets.response.iv;
      seqNum, respAEAD := 0, None;
    }

    method GetOrInitRespAEAD() returns (key: string)
      requires Valid()
      modifies this`respAEAD
      ensures Valid() && key == responseKey
    {
      if respAEAD.Some? { return respAEAD.value; }
      respAEAD := Some(responseKey);
      return responseKey;
    }

    method NextSeqNum() returns (r: Result<nat, Error>)
      requires Valid()
      modifies this`seqNum
      ensures Valid()
      ensures old(seqNum) == 0xFFFF_FFFF ==> r == Err(SeqNumOverflow) && seqNum == old(seqNum)
      ensures old(seqNum) < 0xFFFF_FFFF ==> r == Ok(old(seqNum)) && seqNum == old(seqNum) + 1
    {
      if seqNum == MAX_SEQ { return Err(SeqNumOverflow); }
      r := Ok(seqNum);
      seqNum := seqNum + 1;
    }

    method EncryptFrame(frameType: char, plaintext: string) returns (r: Result<string, Error>)
      requires Valid()
      modifies this`seqNum, this`respAEAD
      ensures Valid()
      ensures old(seqNum) == MAX_SEQ ==> r == Err(SeqNumOverflow) && seqNum == old(seqNum)
      ensures old(seqNum) < MAX_SEQ ==>
                && seqNum == old(seqNum) + 1
                && r == Ok(Frame(aead, old(ResponseKeys()), frameType, old(seqNum), plaintext))
    {
      var key := GetOrInitRespAEAD();
      var next := NextSeqNum();
      if next.Err? { return Err(next.error); }
      var header := [frameType] + BE32(next.value) + BE32(|plaintext| % UINT32_LIMIT);
      var nonce := ComputeFrameNonce(responseIV, next.value);
      var sealed := aead.seal(key, nonce[..], plaintext, header);
      r := Ok(header + sealed);
    }

    method DecryptFrame(frame: string) returns (r: Result<Opened, Error>)
      requires Valid()
      modifies this`respAEAD
      ensures Valid() && r == OpenFrame(aead, ResponseKeys(), frame)
    {
      if |frame| < HEADER_LEN + GCM_TAG_LEN { return Err(FrameTooShort); }
      var number, payloadLen := Value32(frame[1..5]), Value32(frame[5..9]);
      if |frame| != HEADER_LEN + payloadLen + GCM_TAG_LEN { return Err(FrameLengthMismatch); }
      var key := GetOrInitRespAEAD();
      var nonce := ComputeFrameNonce(responseIV, number);
      var plain := aead.open(key, nonce[..], frame[HEADER_LEN..], frame[..HEADER_LEN]);
      if plain.None? { return Err(DecryptionFailed); }
      r := Ok(Opened(frame[0], number, plain.value));
    }

    method Zeroize()
      requires Valid()
      modifies this
      ensures Valid() && seqNum == old(seqNum)
      ensures ResponseKeys() == Keys(Zeros(|old(responseKey)|), Zeros(12))
      ensures requestKey == Zeros(|old(requestKey)|) && clientEphPub == Zeros(|old(clientEphPub)|)
    {
      requestKey := Zeros(|requestKey|);
      responseKey := Zeros(|responseKey|);
      responseIV := Zeros(12);
      clientEphPub := Zeros(|clientEphPub|);
      respAEAD := None;
    }
  }

  function Zeros(n: nat): (s: string)
    ensures |s| == n && AllBytes(s)
  {
    seq(n, _ => '\U{00}')
  }
}
