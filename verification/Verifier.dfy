/** The request verifier of `pkg/auth/ed25519.go` and `pkg/auth/registration.go`: key latch, signature
    checks, nonce cache on mutable storage, and header-first reading of the body.
    Ed25519, base64, SHA-256 and the letter cases are parameters. */
module Verifier {
  import opened Wrappers
  import opened Text
  import opened NonceCache
  import opened EntrySlices
  import opened Canonical

  const PUBLIC_KEY_SIZE: nat := 32
  const SIGNATURE_SIZE: nat := 64
  const MAX_NONCE_LENGTH: nat := 128

  datatype AuthError =
    | EnclaveUnenrolled | KeyAlreadyEnrolled | InvalidKeyLength
    | MissingSignature | MissingTimestamp | MissingNonce | NonceTooLong
    | InvalidTimestamp | TimestampExpired | InvalidSignature | InvalidProofOfPossession
    | ReplayedNonce | BodyHashMismatch | BodyTooLarge | BodyUnreadable

  /** `verify(key, message, signature)`; `digestHex` is the lower-case hex SHA-256. */
  datatype Suite = Suite(verify: (string, string, string) -> bool, decodeSig: string -> Option<string>,
                         digestHex: string -> string, letters: Case)
  {
    /** Hex digests are lower-case and hold no white space. */
    ghost predicate Lawful() {
      && letters.Lawful()
      && forall b {:trigger digestHex(b)} :: Solid(digestHex(b)) && letters.lower(digestHex(b)) == digestHex(b)
    }
  }

  lemma LawsAreConsistent()
    ensures exists suite: Suite :: suite.Lawful()
  {
    var suite := Suite((k, m, s) => true, s => Some(s), b => "0", Case(s => s, s => s));
    assert suite.Lawful();
  }

  // ---------- the checks before the nonce ----------

  /** `strconv.ParseInt(s, 10, 64)`. */
  function ParseInt64(s: string): Option<int> {
    var negative := s != "" && s[0] == '-';
    var digits := if s != "" && (s[0] == '-' || s[0] == '+') then s[1..] else s;
    if digits == "" || !Digits(digits) then None
    else
      var n := if negative then -(DecValue(digits) as int) else DecValue(digits) as int;
      if IsInt64(n) then Some(n) else None
  }

  function DecodeSignature(suite: Suite, sig: string): Option<string> {
    match suite.decodeSig(Trim(sig))
    case None => None
    case Some(bytes) => if |bytes| == SIGNATURE_SIZE then Some(bytes) else None
  }

  /** The signature verifies over one of the two canonical texts of `fields`. */
  predicate Covers(suite: Suite, key: string, fields: seq<string>, bytes: string) {
    suite.verify(key, LengthPrefixed(fields), bytes) || suite.verify(key, Legacy(fields), bytes)
  }

  /** The checks both verifiers make first, in order. */
  function CheckHeaders(skew: int, now: int, r: Signed, sig: string): Option<AuthError> {
    if sig == "" then Some(MissingSignature)
    else if r.timestamp == "" then Some(MissingTimestamp)
    else if r.nonce == "" then Some(MissingNonce)
    else if |r.nonce| > MAX_NONCE_LENGTH then Some(NonceTooLong)
    else
      match ParseInt64(r.timestamp)
      case None => Some(InvalidTimestamp)
      case Some(ts) => if Fresh(now, ts, skew) then None else Some(TimestampExpired)
  }

  function CheckSignature(suite: Suite, key: string, r: Signed, sig: string): Option<AuthError> {
    match DecodeSignature(suite, sig)
    case None => Some(InvalidSignature)
    case Some(bytes) => if Covers(suite, key, Normalise(suite.letters, r), bytes) then None else Some(InvalidSignature)
  }

  /** A candidate key may sign over the claimed body hash or over the hash of the body itself. */
  function CheckPossession(suite: Suite, key: string, r: Signed, body: string, sig: string): Option<AuthError> {
    match DecodeSignature(suite, sig)
    case None => Some(InvalidSignature)
    case Some(bytes) =>
      var hash := suite.digestHex(body);
      var claimed := if r.bodyHash == "" then hash else r.bodyHash;
      if || Covers(suite, key, Normalise(suite.letters, r.(bodyHash := claimed)), bytes)
         || Covers(suite, key, Normalise(suite.letters, r.(bodyHash := hash)), bytes)
      then None else Some(InvalidProofOfPossession)
  }

  function First(e: Option<AuthError>, f: Option<AuthError>): Option<AuthError> {
    if e.Some? then e else f
  }

  /** What reaches the nonce stage, as a cache attempt: `other` is the outcome of the checks that do not
      involve the clock. */
  function AttemptOf(now: int, r: Signed, sig: string, other: Option<AuthError>): Attempt {
    var ts := ParseInt64(r.timestamp);
    var wellFormed := sig != "" && r.timestamp != "" && r.nonce != "" && |r.nonce| <= MAX_NONCE_LENGTH;
    Attempt(now, r.nonce, if ts.Some? then ts.value else 0, wellFormed && ts.Some? && other.None?)
  }

  /** The whole of the checks passes exactly when the attempt is signed and fresh. */
  lemma ChecksAreAttempt(skew: int, now: int, r: Signed, sig: string, other: Option<AuthError>)
    ensures var a := AttemptOf(now, r, sig, other);
            First(CheckHeaders(skew, now, r, sig), other).None? <==> a.signed && Fresh(a.now, a.ts, skew)
  {
  }

  datatype Judgement = Judgement(cache: Cache, error: Option<AuthError>)

  /** A request of either kind: one step of the cache, and the first error, or a replay. */
  function Judge(lim: Limits, c: Cache, now: int, r: Signed, sig: string, other: Option<AuthError>): Judgement {
    var v := NonceCache.Step(lim, c, AttemptOf(now, r, sig, other));
    var failed := First(CheckHeaders(lim.skew, now, r, sig), other);
    Judgement(v.cache, if failed.Some? then failed else if v.accepted then None else Some(ReplayedNonce))
  }

  // ---------- requests with a body ----------

  /** An incoming request: the signed headers, where `signed.bodyHash` is the claimed hash or empty;
      whether the body is absent or declared empty; and what reading it gives, if it can be read. */
  datatype Incoming = Incoming(signed: Signed, sig: string, bodyAbsent: bool, body: Option<string>)

  function ReadContent(body: Option<string>, limit: int): Result<string, AuthError> {
    if body.None? then Err(BodyUnreadable)
    else if limit > 0 && |body.value| > limit then Err(BodyTooLarge)
    else Ok(body.value)
  }

  /** The fields the signature has to cover.  The body is read first only when no hash is known. */
  function AuthOver(suite: Suite, req: Incoming, limit: int): Result<Signed, AuthError> {
    if req.signed.bodyHash != "" then Ok(req.signed)
    else if req.bodyAbsent then Ok(req.signed.(bodyHash := suite.digestHex("")))
    else
      match ReadContent(req.body, limit)
      case Err(e) => Err(e)
      case Ok(body) => Ok(req.signed.(bodyHash := suite.digestHex(body)))
  }

  /** What is left to check once the nonce has been recorded. */
  function AfterAccept(suite: Suite, req: Incoming, limit: int): Result<string, AuthError> {
    var r := if req.bodyAbsent then Ok("") else ReadContent(req.body, limit);
    if r.Ok? && req.signed.bodyHash != "" && suite.letters.lower(req.signed.bodyHash) != suite.digestHex(r.value)
    then Err(BodyHashMismatch)
    else r
  }

  /** `accepted`: the nonce was recorded, even if the body then turns out wrong. */
  datatype Answer = Answer(cache: Cache, accepted: bool, result: Result<string, AuthError>)

  /** A whole request against an enrolled key. */
  function HeaderFirst(suite: Suite, key: string, lim: Limits, c: Cache, now: int, req: Incoming, limit: int): Answer {
    match AuthOver(suite, req, limit)
    case Err(e) => Answer(c, false, Err(e))
    case Ok(over) =>
      var j := Judge(lim, c, now, over, req.sig, CheckSignature(suite, key, over, req.sig));
      if j.error.Some? then Answer(j.cache, false, Err(j.error.value))
      else Answer(j.cache, true, AfterAccept(suite, req, limit))
  }

  /** `VerifyHTTPRequest` without a body. */
  function Bodyless(suite: Suite, key: string, lim: Limits, c: Cache, now: int, req: Incoming): Judgement {
    var over := req.signed.(bodyHash := suite.digestHex(""));
    Judge(lim, c, now, over, req.sig, CheckSignature(suite, key, over, req.sig))
  }

  /** The key signed one of the canonical texts whose hash field is the hash of exactly `body`. */
  ghost predicate SignedFor(suite: Suite, key: string, r: Signed, sig: string, body: string) {
    exists bytes :: DecodeSignature(suite, sig) == Some(bytes)
                    && Covers(suite, key, Normalise(suite.letters, r)[5 := suite.digestHex(body)], bytes)
  }

  /** A claimed hash that compares equal to the body's is, once normalised, the body's. */
  lemma ClaimIsDigest(suite: Suite, r: Signed, body: string)
    requires suite.Lawful() && suite.letters.lower(r.bodyHash) == suite.digestHex(body)
    ensures Normalise(suite.letters, r)[5] == suite.digestHex(body)
  {
    assert suite.letters.lower(Trim(r.bodyHash)) == Trim(suite.letters.lower(r.bodyHash));
    TrimSolid(suite.digestHex(body));
  }

  lemma SignedForBody(suite: Suite, key: string, r: Signed, sig: string, body: string)
    requires suite.Lawful() && CheckSignature(suite, key, r, sig).None?
    requires suite.letters.lower(r.bodyHash) == suite.digestHex(body)
    ensures SignedFor(suite, key, r, sig, body)
  {
    ClaimIsDigest(suite, r, body);
    var fields := Normalise(suite.letters, r);
    assert fields[5 := suite.digestHex(body)] == fields;
  }

  /** A request body; `consumed` counts how often it was read. */
  class BodyReader {
    const content: Option<string>
    var consumed: nat

    constructor (content: Option<string>)
      ensures this.content == content && consumed == 0
    {
      this.content := content;
      consumed := 0;
    }

    /** `io.ReadAll`, under `MaxBytesReader` when a limit is set. */
    method ReadAll(limit: int) returns (r: Result<string, AuthError>)
      modifies this
      ensures consumed == old(consumed) + 1 && r == ReadContent(content, limit)
    {
      consumed := consumed + 1;
      if content.None? { return Err(BodyUnreadable); }
      if limit > 0 && |content.value| > limit { return Err(BodyTooLarge); }
      return Ok(content.value);
    }
  }

  // ---------- the verifier ----------

  class Ed25519Verifier {
    const suite: Suite
    const maxClockSkew: int
    const nonceTTL: int
    const maxNonceCacheSize: int
    var publicKey: string
    var isEnrolled: bool

    var seenNonces: map<string, int>
    const nonceOrder: EntrySlice
    var lastCleanup: int

    ghost predicate Stored()
      reads this, nonceOrder, nonceOrder.Repr
    {
      nonceOrder.Valid() && this !in nonceOrder.Repr
    }

    ghost predicate Valid()
      reads this, nonceOrder, nonceOrder.Repr
    {
      && Stored()
      && Agrees(Cached())
      && (isEnrolled ==> |publicKey| == PUBLIC_KEY_SIZE)
      && Bounds().Valid()
    }

    ghost function Cached(): Cache
      reads this, nonceOrder
    {
      Cache(seenNonces, nonceOrder.contents, lastCleanup)
    }

    function MaxCap(): nat {
      if maxNonceCacheSize <= 0 then MAX_NONCE_CACHE_SIZE else maxNonceCacheSize
    }

    function Bounds(): Limits {
      Limits(maxClockSkew, nonceTTL, MaxCap())
    }

    /** `NewDynamicVerifier`. */
    constructor Dynamic(suite: Suite, now: int)
      ensures Valid() && fresh(nonceOrder) && fresh(nonceOrder.Repr) && !isEnrolled && this.suite == suite
      ensures Bounds() == DEFAULTS && Cached() == EmptyCache(now)
    {
      this.suite := suite;
      maxClockSkew, nonceTTL, maxNonceCacheSize := DEFAULT_MAX_CLOCK_SKEW, DEFAULT_NONCE_TTL, MAX_NONCE_CACHE_SIZE;
      publicKey, isEnrolled := "", false;
      nonceOrder := new EntrySlice();
      seenNonces, lastCleanup := map[], now;
    }

    /** `NewEd25519Verifier`. */
    constructor WithKey(suite: Suite, key: string, maxSkew: int, ttl: int, now: int)
      requires maxSkew < MAX_INT64 && ttl <= MAX_INT64
      ensures Valid() && fresh(nonceOrder) && fresh(nonceOrder.Repr) && this.suite == suite
      ensures isEnrolled == (|key| == PUBLIC_KEY_SIZE) && publicKey == key
      ensures Bounds() == Limits(if maxSkew <= 0 then DEFAULT_MAX_CLOCK_SKEW else maxSkew,
                                 if ttl <= 0 then DEFAULT_NONCE_TTL else ttl, MAX_NONCE_CACHE_SIZE)
      ensures Cached() == EmptyCache(now)
    {
      this.suite := suite;
      maxClockSkew := if maxSkew <= 0 then DEFAULT_MAX_CLOCK_SKEW else maxSkew;
      nonceTTL := if ttl <= 0 then DEFAULT_NONCE_TTL else ttl;
      maxNonceCacheSize := MAX_NONCE_CACHE_SIZE;
      publicKey, isEnrolled := key, |key| == PUBLIC_KEY_SIZE;
      nonceOrder := new EntrySlice();
      seenNonces, lastCleanup := map[], now;
    }

    /** Latches the key: the first valid one, for good. */
    method EnrollKey(pubKey: string) returns (e: Option<AuthError>)
      requires Valid()
      modifies this`publicKey, this`isEnrolled
      ensures Valid()
      ensures e == if old(isEnrolled) then Some(KeyAlreadyEnrolled)
                   else if |pubKey| != PUBLIC_KEY_SIZE then Some(InvalidKeyLength) else None
      ensures if e.None? then isEnrolled && publicKey == pubKey
              else isEnrolled == old(isEnrolled) && publicKey == old(publicKey)
    {
      if isEnrolled { return Some(KeyAlreadyEnrolled); }
      if |pubKey| != PUBLIC_KEY_SIZE { return Some(InvalidKeyLength); }
      publicKey := pubKey;
      isEnrolled := true;
      return None;
    }

    /** Deletes expired nonces from the map, up to the first entry that is not expired. */
    method PruneMap(cutoff: int) returns (pruneIdx: nat)
      requires Stored()
      modifies this`seenNonces
      ensures pruneIdx <= |nonceOrder.contents|
      ensures Cache(seenNonces, nonceOrder.contents[pruneIdx..], lastCleanup) == Prune(old(Cached()), cutoff)
    {
      ghost var order := nonceOrder.contents;
      pruneIdx := 0;
      while pruneIdx < nonceOrder.Length()
        invariant pruneIdx <= |order|
        invariant Prune(Cache(seenNonces, order[pruneIdx..], lastCleanup), cutoff) == Prune(old(Cached()), cutoff)
      {
        var entry := nonceOrder.At(pruneIdx);
        if entry.addedAt > cutoff { break; }
        assert order[pruneIdx..][1..] == order[pruneIdx + 1..];
        seenNonces := seenNonces - {entry.nonce};
        pruneIdx := pruneIdx + 1;
      }
    }

    /** Takes the pruned entries off the queue, once their nonces are out of the map. */
    method DropPruned(pruneIdx: nat, now: int, compacts: bool)
      requires Stored() && pruneIdx <= |nonceOrder.contents|
      modifies this`lastCleanup, nonceOrder.Repr
      ensures Stored() && fresh(nonceOrder.Repr - old(nonceOrder.Repr))
      ensures nonceOrder.contents == old(nonceOrder.contents)[pruneIdx..] && lastCleanup == now
    {
      if pruneIdx > 0 {
        nonceOrder.DropFirst(pruneIdx);
        if compacts { nonceOrder.CompactIfSparse(); }
      }
      lastCleanup := now;
    }

    method SweepAll(now: int, compacts: bool)
      requires Stored()
      modifies this`seenNonces, this`lastCleanup, nonceOrder.Repr
      ensures Stored() && fresh(nonceOrder.Repr - old(nonceOrder.Repr))
      ensures Cached() == SweepNow(old(Cached()), nonceTTL, now)
    {
      var pruneIdx := PruneMap(now - nonceTTL);
      ghost var d := Cache(seenNonces, nonceOrder.contents[pruneIdx..], lastCleanup);
      DropPruned(pruneIdx, now, compacts);
      assert Cached() == d.(lastCleanup := now);
    }

    /** The rate-limited sweep.  `compacts` is set for requests and not for enrolment. */
    method SweepNonces(now: int, compacts: bool)
      requires Valid()
      modifies this`seenNonces, this`lastCleanup, nonceOrder.Repr
      ensures Valid() && fresh(nonceOrder.Repr - old(nonceOrder.Repr))
      ensures Cached() == Sweep(old(Cached()), nonceTTL, now)
    {
      SweepAgrees(Cached(), nonceTTL, now);
      if now - lastCleanup >= SECOND {
        SweepAll(now, compacts);
      }
    }

    /** One eviction. */
    method DropOldestNonce()
      requires Valid() && nonceOrder.contents != []
      modifies this`seenNonces, nonceOrder
      ensures Valid() && nonceOrder.Repr == old(nonceOrder.Repr)
      ensures Cached() == DropOldest(old(Cached()))
    {
      ghost var c := Cached();
      DropOldestAgrees(c);
      var oldest := nonceOrder.At(0);
      nonceOrder.DropFirst(1);
      seenNonces := seenNonces - {oldest.nonce};
      assert Cached() == DropOldest(c);
    }

    /** Drops the oldest nonces while the cache is full. */
    method EvictNonces()
      requires Valid()
      modifies this`seenNonces, nonceOrder
      ensures Valid() && nonceOrder.Repr == old(nonceOrder.Repr)
      ensures Cached() == Evict(old(Cached()), MaxCap())
    {
      while |seenNonces| >= MaxCap() && nonceOrder.Length() > 0
        invariant Valid() && nonceOrder.Repr == old(nonceOrder.Repr)
        invariant Evict(Cached(), MaxCap()) == Evict(old(Cached()), MaxCap())
        decreases |nonceOrder.contents|
      {
        DropOldestNonce();
      }
    }

    method RecordNonce(now: int, nonce: string)
      requires Valid() && nonce !in seenNonces
      modifies this`seenNonces, nonceOrder.Repr
      ensures Valid() && fresh(nonceOrder.Repr - old(nonceOrder.Repr))
      ensures Cached() == Insert(Evict(old(Cached()), MaxCap()), nonce, now)
    {
      RecordAgrees(Cached(), MaxCap(), nonce, now);
      EvictNonces();
      PutNonce(now, nonce);
    }

    method PutNonce(now: int, nonce: string)
      requires Stored()
      modifies this`seenNonces, nonceOrder.Repr
      ensures Stored() && fresh(nonceOrder.Repr - old(nonceOrder.Repr))
      ensures Cached() == Insert(old(Cached()), nonce, now)
    {
      seenNonces := seenNonces[nonce := now];
      nonceOrder.Append(Entry(nonce, now));
    }

    /** The region under the nonce lock. */
    method AdmitNonce(now: int, nonce: string, compacts: bool) returns (accepted: bool)
      requires Valid()
      modifies this`seenNonces, this`lastCleanup, nonceOrder.Repr
      ensures Valid() && fresh(nonceOrder.Repr - old(nonceOrder.Repr))
      ensures Verdict(Cached(), accepted) == Admit(old(Cached()), nonceTTL, MaxCap(), now, nonce)
    {
      SweepNonces(now, compacts);
      if nonce in seenNonces { return false; }
      RecordNonce(now, nonce);
      return true;
    }

    method VerifyWithBodyHash(r: Signed, sig: string, now: int) returns (e: Option<AuthError>)
      requires Valid()
      modifies this`seenNonces, this`lastCleanup, nonceOrder.Repr
      ensures Valid() && fresh(nonceOrder.Repr - old(nonceOrder.Repr))
      ensures !isEnrolled ==> e == Some(EnclaveUnenrolled) && Cached() == old(Cached())
      ensures isEnrolled ==>
                Judgement(Cached(), e) == Judge(Bounds(), old(Cached()), now, r, sig, CheckSignature(suite, publicKey, r, sig))
    {
      if !isEnrolled { return Some(EnclaveUnenrolled); }
      ChecksAreAttempt(maxClockSkew, now, r, sig, CheckSignature(suite, publicKey, r, sig));
      if sig == "" { return Some(MissingSignature); }
      if r.timestamp == "" { return Some(MissingTimestamp); }
      if r.nonce == "" { return Some(MissingNonce); }
      if |r.nonce| > MAX_NONCE_LENGTH { return Some(NonceTooLong); }
      var ts := ParseInt64(r.timestamp);
      if ts.None? { return Some(InvalidTimestamp); }
      if !Fresh(now, ts.value, maxClockSkew) { return Some(TimestampExpired); }
      var bytes := DecodeSignature(suite, sig);
      if bytes.None? { return Some(InvalidSignature); }
      if !Covers(suite, publicKey, Normalise(suite.letters, r), bytes.value) { return Some(InvalidSignature); }
      var accepted := AdmitNonce(now, r.nonce, true);
      return if accepted then None else Some(ReplayedNonce);
    }

    method VerifyProofOfPossession(candidate: string, r: Signed, body: string, sig: string, now: int)
      returns (e: Option<AuthError>)
      requires Valid()
      modifies this`seenNonces, this`lastCleanup, nonceOrder.Repr
      ensures Valid() && fresh(nonceOrder.Repr - old(nonceOrder.Repr))
      ensures |candidate| != PUBLIC_KEY_SIZE ==> e == Some(InvalidKeyLength) && Cached() == old(Cached())
      ensures |candidate| == PUBLIC_KEY_SIZE ==>
                Judgement(Cached(), e) == Judge(Bounds(), old(Cached()), now, r, sig, CheckPossession(suite, candidate, r, body, sig))
    {
      if |candidate| != PUBLIC_KEY_SIZE { return Some(InvalidKeyLength); }
      var possession := CheckPossession(suite, candidate, r, body, sig);
      ChecksAreAttempt(maxClockSkew, now, r, sig, possession);
      var headers := CheckHeaders(maxClockSkew, now, r, sig);
      if headers.Some? { return headers; }
      if possession.Some? { return possession; }
      var accepted := AdmitNonce(now, r.nonce, false);
      return if accepted then None else Some(ReplayedNonce);
    }

    /** `Verify`: over the hash of the body itself. */
    method Verify(r: Signed, body: string, sig: string, now: int) returns (e: Option<AuthError>)
      requires Valid()
      modifies this`seenNonces, this`lastCleanup, nonceOrder.Repr
      ensures Valid() && fresh(nonceOrder.Repr - old(nonceOrder.Repr))
      ensures !isEnrolled ==> e == Some(EnclaveUnenrolled) && Cached() == old(Cached())
      ensures var over := r.(bodyHash := suite.digestHex(body));
              isEnrolled ==>
                Judgement(Cached(), e) == Judge(Bounds(), old(Cached()), now, over, sig, CheckSignature(suite, publicKey, over, sig))
    {
      e := VerifyWithBodyHash(r.(bodyHash := suite.digestHex(body)), sig, now);
    }

    /** `VerifyHTTPRequest` with a nil body. */
    method VerifyHTTPRequest(req: Incoming, now: int) returns (e: Option<AuthError>)
      requires Valid()
      modifies this`seenNonces, this`lastCleanup, nonceOrder.Repr
      ensures Valid() && fresh(nonceOrder.Repr - old(nonceOrder.Repr))
      ensures !isEnrolled ==> e == Some(EnclaveUnenrolled) && Cached() == old(Cached())
      ensures isEnrolled ==> Judgement(Cached(), e) == Bodyless(suite, publicKey, Bounds(), old(Cached()), now, req)
    {
      if !isEnrolled { return Some(EnclaveUnenrolled); }
      e := Verify(req.signed, "", req.sig, now);
    }

    /** What is left once the signature over a known hash has passed. */
    method ReadAndCompare(req: Incoming, claimed: string, body: BodyReader, limit: int)
      returns (r: Result<string, AuthError>)
      requires suite.Lawful() && body.content == req.body
      requires if req.signed.bodyHash == "" then req.bodyAbsent && claimed == suite.digestHex("")
               else claimed == req.signed.bodyHash
      modifies body
      ensures r == AfterAccept(suite, req, limit)
      ensures body.consumed == old(body.consumed) + if req.bodyAbsent then 0 else 1
    {
      if req.bodyAbsent {
        if suite.letters.lower(claimed) != suite.digestHex("") { return Err(BodyHashMismatch); }
        return Ok("");
      }
      var got := body.ReadAll(limit);
      if got.Err? { return got; }
      if suite.letters.lower(claimed) != suite.digestHex(got.value) { return Err(BodyHashMismatch); }
      return got;
    }

    /** The paths on which the hash is known: nothing is read unless the signature over it has passed. */
    method VerifyThenRead(req: Incoming, claimed: string, body: BodyReader, limit: int, now: int)
      returns (r: Result<string, AuthError>)
      requires Valid() && suite.Lawful() && isEnrolled && body.content == req.body
      requires body as object != this && body !in nonceOrder.Repr
      requires if req.signed.bodyHash == "" then req.bodyAbsent && claimed == suite.digestHex("")
               else claimed == req.signed.bodyHash
      modifies body, this`seenNonces, this`lastCleanup, nonceOrder.Repr
      ensures Valid() && fresh(nonceOrder.Repr - old(nonceOrder.Repr))
      ensures var a := HeaderFirst(suite, publicKey, Bounds(), old(Cached()), now, req, limit);
              && Cached() == a.cache && r == a.result
              && body.consumed == old(body.consumed) + if a.accepted && !req.bodyAbsent then 1 else 0
    {
      hide Judge, CheckSignature, Agrees;
      var e := VerifyWithBodyHash(req.signed.(bodyHash := claimed), req.sig, now);
      if e.Some? { return Err(e.value); }
      r := ReadAndCompare(req, claimed, body, limit);
    }

    /** Header-first: how often the body was read is part of the contract. */
    method VerifyHTTPRequestHeaderFirst(req: Incoming, body: BodyReader, limit: int, now: int)
      returns (r: Result<string, AuthError>)
      requires Valid() && suite.Lawful() && body.content == req.body
      requires body as object != this && body !in nonceOrder.Repr
      modifies body, this`seenNonces, this`lastCleanup, nonceOrder.Repr
      ensures Valid() && fresh(nonceOrder.Repr - old(nonceOrder.Repr))
      ensures !isEnrolled ==> r == Err(EnclaveUnenrolled) && Cached() == old(Cached()) && body.consumed == old(body.consumed)
      ensures isEnrolled ==>
                var a := HeaderFirst(suite, publicKey, Bounds(), old(Cached()), now, req, limit);
                var unhashed := req.signed.bodyHash == "";
                && Cached() == a.cache && r == a.result
                && body.consumed == old(body.consumed) + if !req.bodyAbsent && (a.accepted || unhashed) then 1 else 0
    {
      hide Judge, CheckSignature, Agrees;
      if !isEnrolled { return Err(EnclaveUnenrolled); }
      var claimed := req.signed.bodyHash;
      if claimed == "" && req.bodyAbsent {
        claimed := suite.digestHex("");
      }
      if claimed != "" {
        r := VerifyThenRead(req, claimed, body, limit, now);
        return;
      }
      var got := body.ReadAll(limit);
      if got.Err? { return got; }
      var e := Verify(req.signed, got.value, req.sig, now);
      if e.Some? { return Err(e.value); }
      return got;
    }
  }

  /** Header first, as a property of the answer: with a claimed hash or no body, cache and acceptance do not
      depend on the body, and neither does the error unless the signature has passed and the nonce was new. */
  lemma BodyUnseenUntilAccepted(suite: Suite, key: string, lim: Limits, c: Cache, now: int, req: Incoming, limit: int,
                                other: Option<string>)
    requires req.signed.bodyHash != "" || req.bodyAbsent
    ensures var a := HeaderFirst(suite, key, lim, c, now, req, limit);
            var b := HeaderFirst(suite, key, lim, c, now, req.(body := other), limit);
            a.accepted == b.accepted && a.cache == b.cache && (!a.accepted || req.bodyAbsent ==> a == b)
  {
  }

  /** An accepted body is the one the key signed for, and the nonce was recorded. */
  lemma HeaderFirstSound(suite: Suite, key: string, lim: Limits, c: Cache, now: int, req: Incoming, limit: int)
    requires suite.Lawful()
    ensures var a := HeaderFirst(suite, key, lim, c, now, req, limit);
            a.result.Ok? ==>
              && a.accepted && SignedFor(suite, key, req.signed, req.sig, a.result.value)
              && (if req.bodyAbsent then a.result.value == "" else req.body == Some(a.result.value))
              && req.signed.nonce in a.cache.seen && req.signed.nonce !in Sweep(c, lim.ttl, now).seen
  {
    var a := HeaderFirst(suite, key, lim, c, now, req, limit);
    if a.result.Ok? {
      var over := AuthOver(suite, req, limit).value;
      AcceptedIsRecorded(c, lim.ttl, lim.maxCap, now, req.signed.nonce);
      SignedForBody(suite, key, over, req.sig, a.result.value);
      SameButHash(suite, req.signed, over.bodyHash, a.result.value);
    }
  }

  /** Without a body the key signed for the empty one. */
  lemma BodylessSound(suite: Suite, key: string, lim: Limits, c: Cache, now: int, req: Incoming)
    requires suite.Lawful()
    ensures Bodyless(suite, key, lim, c, now, req).error.None? ==> SignedFor(suite, key, req.signed, req.sig, "")
  {
    if Bodyless(suite, key, lim, c, now, req).error.None? {
      var hash := suite.digestHex("");
      SignedForBody(suite, key, req.signed.(bodyHash := hash), req.sig, "");
      SameButHash(suite, req.signed, hash, "");
    }
  }

  /** The candidate key signed a canonical text of these fields, over the claimed hash or over the body's. */
  ghost predicate Possesses(suite: Suite, key: string, r: Signed, sig: string, body: string) {
    var hash := suite.digestHex(body);
    var claimed := if r.bodyHash == "" then hash else Normalise(suite.letters, r)[5];
    exists bytes :: DecodeSignature(suite, sig) == Some(bytes)
                    && (|| Covers(suite, key, Normalise(suite.letters, r)[5 := claimed], bytes)
                        || Covers(suite, key, Normalise(suite.letters, r)[5 := hash], bytes))
  }

  lemma DigestIsNormal(suite: Suite, r: Signed, body: string)
    requires suite.Lawful()
    ensures var hash := suite.digestHex(body);
            Normalise(suite.letters, r.(bodyHash := hash)) == Normalise(suite.letters, r)[5 := hash]
  {
    var hash := suite.digestHex(body);
    TrimSolid(hash);
    assert suite.letters.lower(hash) == hash;
  }

  /** A passed check of possession is a signature of the candidate key. */
  lemma CheckedPossesses(suite: Suite, key: string, r: Signed, body: string, sig: string)
    requires suite.Lawful()
    ensures CheckPossession(suite, key, r, body, sig).None? ==> Possesses(suite, key, r, sig, body)
  {
    if CheckPossession(suite, key, r, body, sig).None? {
      DigestIsNormal(suite, r, body);
      var bytes := DecodeSignature(suite, sig).value;
      var fields := Normalise(suite.letters, r);
      assert fields[5 := fields[5]] == fields;
      assert DecodeSignature(suite, sig) == Some(bytes);
    }
  }

  /** An accepted proof of possession is a signature of the candidate key, and its nonce was new and is
      recorded. */
  lemma PossessionSound(suite: Suite, key: string, lim: Limits, c: Cache, now: int, r: Signed, body: string, sig: string)
    requires suite.Lawful()
    ensures var j := Judge(lim, c, now, r, sig, CheckPossession(suite, key, r, body, sig));
            j.error.None? ==>
              && Possesses(suite, key, r, sig, body)
              && r.nonce in j.cache.seen && r.nonce !in Sweep(c, lim.ttl, now).seen
  {
    CheckedPossesses(suite, key, r, body, sig);
    AcceptedIsRecorded(c, lim.ttl, lim.maxCap, now, r.nonce);
  }

  /** Whatever signatures verify, an accepted possession covers the body's own hash. */
  ghost predicate AlwaysCoversBody(suite: Suite, key: string, r: Signed, body: string, sig: string) {
    forall verify {:trigger CheckPossession(suite.(verify := verify), key, r, body, sig)} ::
      CheckPossession(suite.(verify := verify), key, r, body, sig).None? ==>
        SignedFor(suite.(verify := verify), key, r, sig, body)
  }

  lemma CoversWhenClaimed(suite: Suite, key: string, r: Signed, body: string, sig: string)
    requires suite.Lawful() && CheckPossession(suite, key, r, body, sig).None?
    requires r.bodyHash == "" || Normalise(suite.letters, r)[5] == suite.digestHex(body)
    ensures SignedFor(suite, key, r, sig, body)
  {
    DigestIsNormal(suite, r, body);
    var bytes := DecodeSignature(suite, sig).value;
    var fields := Normalise(suite.letters, r);
    assert fields[5 := fields[5]] == fields;
    assert DecodeSignature(suite, sig) == Some(bytes);
  }

  /** A key that signed nothing but the length-prefixed text over the claimed hash. */
  lemma ClaimWithoutBody(suite: Suite, key: string, r: Signed, body: string, sig: string)
    requires suite.Lawful() && DecodeSignature(suite, sig).Some?
    requires r.bodyHash != "" && Normalise(suite.letters, r)[5] != suite.digestHex(body)
    ensures var signed := LengthPrefixed(Normalise(suite.letters, r));
            var other := suite.(verify := (k, m, s) => m == signed);
            CheckPossession(other, key, r, body, sig).None? && !SignedFor(other, key, r, sig, body)
  {
    var hash := suite.digestHex(body);
    var f := Normalise(suite.letters, r);
    DigestIsNormal(suite, r, body);
    LengthPrefixedInjective(f, f[5 := hash]);
    FormsAreDisjoint(suite.letters, r, r.(bodyHash := hash));
  }

  /** The claimed hash of an enrolment is never compared with its body.  An accepted possession is bound to
      cover the body exactly when no hash is claimed, or the claim is the body's hash. */
  lemma PossessionCoversBodyIff(suite: Suite, key: string, r: Signed, body: string, sig: string)
    requires suite.Lawful() && DecodeSignature(suite, sig).Some?
    ensures AlwaysCoversBody(suite, key, r, body, sig)
            <==> r.bodyHash == "" || Normalise(suite.letters, r)[5] == suite.digestHex(body)
  {
    if r.bodyHash == "" || Normalise(suite.letters, r)[5] == suite.digestHex(body) {
      forall verify | CheckPossession(suite.(verify := verify), key, r, body, sig).None?
        ensures SignedFor(suite.(verify := verify), key, r, sig, body)
      {
        CoversWhenClaimed(suite.(verify := verify), key, r, body, sig);
      }
    } else {
      ClaimWithoutBody(suite, key, r, body, sig);
      var signed := LengthPrefixed(Normalise(suite.letters, r));
      var verify := (k: string, m: string, s: string) => m == signed;
      assert CheckPossession(suite.(verify := verify), key, r, body, sig).None?;
    }
  }

  lemma SameButHash(suite: Suite, r: Signed, hash: string, body: string)
    ensures Normalise(suite.letters, r.(bodyHash := hash))[5 := suite.digestHex(body)]
            == Normalise(suite.letters, r)[5 := suite.digestHex(body)]
  {
  }

  lemma AcceptedIsRecorded(c: Cache, ttl: int, maxCap: nat, now: int, nonce: string)
    ensures var v := Admit(c, ttl, maxCap, now, nonce);
            v.accepted ==> nonce in v.cache.seen && nonce !in Sweep(c, ttl, now).seen
  {
  }

  // ---------- what is accepted ----------

  /** The legacy text of a request over a body hash. */
  function LegacyText(letters: Case, r: Signed, hash: string): string {
    letters.upper(Trim(r.verb)) + ":" + Trim(r.path) + ":" + Trim(r.requestID) + ":" + Trim(r.timestamp) + ":"
    + Trim(r.nonce) + ":" + letters.lower(Trim(hash))
  }

  /** One field of the length-prefixed text. */
  function Prefixed(s: string): string { Dec(|s|) + ":" + s + "\n" }

  function PrefixedText(letters: Case, r: Signed, hash: string): string {
    Prefixed(letters.upper(Trim(r.verb))) + Prefixed(Trim(r.path)) + Prefixed(Trim(r.requestID))
    + Prefixed(Trim(r.timestamp)) + Prefixed(Trim(r.nonce)) + Prefixed(letters.lower(Trim(hash)))
  }

  /** The key signed either text. */
  ghost predicate Signs(suite: Suite, key: string, r: Signed, hash: string, sig: string) {
    exists bytes :: suite.decodeSig(Trim(sig)) == Some(bytes) && |bytes| == 64
                    && (|| suite.verify(key, PrefixedText(suite.letters, r, hash), bytes)
                        || suite.verify(key, LegacyText(suite.letters, r, hash), bytes))
  }

  /** The headers are there, the nonce is not too long, and the timestamp is a number that is in time. */
  predicate Presentable(skew: int, now: int, r: Signed, sig: string) {
    && sig != "" && r.timestamp != "" && r.nonce != "" && |r.nonce| <= 128
    && ParseInt64(r.timestamp).Some?
    && var ts := ParseInt64(r.timestamp).value;
       Near(now, RequestTime(ts), skew) || FarAhead(now, ts)
  }

  predicate NotSeen(lim: Limits, c: Cache, now: int, nonce: string) { nonce !in Sweep(c, lim.ttl, now).seen }

  lemma PrefixedIsField(s: string)
    ensures Prefixed(s) == Field(s)
  {
  }

  lemma ThreeFields(a: string, b: string, c: string, rest: seq<string>)
    ensures LengthPrefixed([a, b, c] + rest) == Field(a) + Field(b) + Field(c) + LengthPrefixed(rest)
  {
    hide Field;
    var abc, bc, c0 := [a, b, c] + rest, [b, c] + rest, [c] + rest;
    assert abc[1..] == bc && bc[1..] == c0 && c0[1..] == rest;
    assert LengthPrefixed(bc) == Field(b) + (Field(c) + LengthPrefixed(rest));
    AppendAssoc(Field(b), Field(c), LengthPrefixed(rest));
    AppendAssoc(Field(a), Field(b) + Field(c), LengthPrefixed(rest));
    AppendAssoc(Field(a), Field(b), Field(c));
  }

  lemma ThreeJoined(a: string, b: string, c: string, rest: seq<string>)
    requires rest != []
    ensures Join([a, b, c] + rest, ":") == a + ":" + b + ":" + c + ":" + Join(rest, ":")
  {
    var abc, bc, c0 := [a, b, c] + rest, [b, c] + rest, [c] + rest;
    assert abc[1..] == bc && bc[1..] == c0 && c0[1..] == rest;
    var j := Join(rest, ":");
    assert Join(c0, ":") == c + ":" + j;
    AppendAssoc(b + ":", c + ":", j);
    AppendAssoc(b + ":", c, ":");
    assert Join(bc, ":") == b + ":" + c + ":" + j;
    AppendAssoc(a + ":", b + ":" + c + ":", j);
    assert a + ":" + (b + ":" + c + ":") == a + ":" + b + ":" + c + ":";
  }

  lemma SixFields(a: string, b: string, c: string, d: string, e: string, f: string)
    ensures LengthPrefixed([a, b, c, d, e, f]) == Field(a) + Field(b) + Field(c) + Field(d) + Field(e) + Field(f)
  {
    hide LengthPrefixed, Field;
    assert [a, b, c, d, e, f] == [a, b, c] + [d, e, f] && [d, e, f] == [d, e, f] + [];
    ThreeFields(a, b, c, [d, e, f]);
    ThreeFields(d, e, f, []);
    NoFieldsLeft();
    var x, y, z := Field(a) + Field(b) + Field(c), Field(d), Field(e);
    AppendEmpty(y + z + Field(f));
    AppendAssoc(x, y + z, Field(f));
    AppendAssoc(x, y, z);
  }

  lemma NoFieldsLeft()
    ensures LengthPrefixed([]) == ""
  {
  }

  lemma SixJoined(a: string, b: string, c: string, d: string, e: string, f: string)
    ensures Legacy([a, b, c, d, e, f]) == a + ":" + b + ":" + c + ":" + d + ":" + e + ":" + f
  {
    assert [a, b, c, d, e, f] == [a, b, c] + [d, e, f] && [d, e, f][1..] == [e, f] && [e, f][1..] == [f];
    ThreeJoined(a, b, c, [d, e, f]);
    var x := a + ":" + b + ":" + c + ":";
    assert Join([f], ":") == f;
    assert Join([e, f], ":") == e + ":" + f;
    assert Join([d, e, f], ":") == d + ":" + (e + ":" + f);
    AppendAssoc(x, d + ":", e + ":" + f);
    AppendAssoc(x, d, ":");
    AppendAssoc(x + d + ":", e + ":", f);
    AppendAssoc(x + d + ":", e, ":");
  }

  lemma CanonicalTexts(letters: Case, r: Signed, hash: string)
    ensures LengthPrefixed(Normalise(letters, r.(bodyHash := hash))) == PrefixedText(letters, r, hash)
    ensures Legacy(Normalise(letters, r.(bodyHash := hash))) == LegacyText(letters, r, hash)
  {
    hide LengthPrefixed, Legacy, Field;
    SixFields(letters.upper(Trim(r.verb)), Trim(r.path), Trim(r.requestID), Trim(r.timestamp), Trim(r.nonce),
              letters.lower(Trim(hash)));
    SixJoined(letters.upper(Trim(r.verb)), Trim(r.path), Trim(r.requestID), Trim(r.timestamp), Trim(r.nonce),
              letters.lower(Trim(hash)));
    PrefixedIsField(letters.upper(Trim(r.verb)));
    PrefixedIsField(Trim(r.path));
    PrefixedIsField(Trim(r.requestID));
    PrefixedIsField(Trim(r.timestamp));
    PrefixedIsField(Trim(r.nonce));
    PrefixedIsField(letters.lower(Trim(hash)));
  }

  lemma SignsIff(suite: Suite, key: string, r: Signed, hash: string, sig: string)
    ensures CheckSignature(suite, key, r.(bodyHash := hash), sig).None? <==> Signs(suite, key, r, hash, sig)
  {
    hide LengthPrefixed, Legacy, Normalise, PrefixedText, LegacyText;
    CanonicalTexts(suite.letters, r, hash);
  }

  lemma PossessesIff(suite: Suite, key: string, r: Signed, body: string, sig: string)
    ensures CheckPossession(suite, key, r, body, sig).None?
            <==> || Signs(suite, key, r, suite.digestHex(body), sig)
                 || (r.bodyHash != "" && Signs(suite, key, r, r.bodyHash, sig))
  {
    hide LengthPrefixed, Legacy, Normalise, PrefixedText, LegacyText;
    CanonicalTexts(suite.letters, r, suite.digestHex(body));
    CanonicalTexts(suite.letters, r, r.bodyHash);
  }

  lemma JudgedIff(lim: Limits, c: Cache, now: int, r: Signed, sig: string, other: Option<AuthError>)
    requires lim.Valid()
    ensures Judge(lim, c, now, r, sig, other).error.None?
            <==> Presentable(lim.skew, now, r, sig) && other.None? && NotSeen(lim, c, now, r.nonce)
  {
    if ParseInt64(r.timestamp).Some? { FreshExactly(now, ParseInt64(r.timestamp).value, lim.skew); }
  }

  /** Completeness and soundness at once: a request is accepted if and only if its headers are in order, the key
      signed one of the two texts over its hash, and its nonce is new. */
  lemma AcceptedIff(suite: Suite, key: string, lim: Limits, c: Cache, now: int, r: Signed, sig: string)
    requires lim.Valid()
    ensures Judge(lim, c, now, r, sig, CheckSignature(suite, key, r, sig)).error.None?
            <==> && Presentable(lim.skew, now, r, sig) && Signs(suite, key, r, r.bodyHash, sig)
                 && NotSeen(lim, c, now, r.nonce)
  {
    JudgedIff(lim, c, now, r, sig, CheckSignature(suite, key, r, sig));
    SignsIff(suite, key, r, r.bodyHash, sig);
  }

  /** The same for an enrolment, whose text may be over the claimed hash or the body's. */
  lemma PossessionAcceptedIff(suite: Suite, key: string, lim: Limits, c: Cache, now: int, r: Signed, body: string,
                              sig: string)
    requires lim.Valid()
    ensures Judge(lim, c, now, r, sig, CheckPossession(suite, key, r, body, sig)).error.None?
            <==> && Presentable(lim.skew, now, r, sig) && NotSeen(lim, c, now, r.nonce)
                 && (|| Signs(suite, key, r, suite.digestHex(body), sig)
                     || (r.bodyHash != "" && Signs(suite, key, r, r.bodyHash, sig)))
  {
    JudgedIff(lim, c, now, r, sig, CheckPossession(suite, key, r, body, sig));
    PossessesIff(suite, key, r, body, sig);
  }

  /** And for a request without a body. */
  lemma BodylessAcceptedIff(suite: Suite, key: string, lim: Limits, c: Cache, now: int, req: Incoming)
    requires lim.Valid()
    ensures Bodyless(suite, key, lim, c, now, req).error.None?
            <==> && Presentable(lim.skew, now, req.signed, req.sig) && NotSeen(lim, c, now, req.signed.nonce)
                 && Signs(suite, key, req.signed, suite.digestHex(""), req.sig)
  {
    var over := req.signed.(bodyHash := suite.digestHex(""));
    JudgedIff(lim, c, now, over, req.sig, CheckSignature(suite, key, over, req.sig));
    SignsIff(suite, key, req.signed, suite.digestHex(""), req.sig);
  }

  /** The body as it can be had: nothing, or what is there, within the limit. */
  predicate Readable(req: Incoming, limit: int) {
    req.bodyAbsent || (req.body.Some? && (limit <= 0 || |req.body.value| <= limit))
  }

  function Content(req: Incoming): string {
    if req.bodyAbsent || req.body.None? then "" else req.body.value
  }

  /** On all three paths: which requests are let through, with their body. */
  lemma HeaderFirstServesIff(suite: Suite, key: string, lim: Limits, c: Cache, now: int, req: Incoming, limit: int)
    requires lim.Valid()
    ensures var claimed, digest := req.signed.bodyHash, suite.digestHex(Content(req));
            HeaderFirst(suite, key, lim, c, now, req, limit).result == Ok(Content(req))
            <==> && Presentable(lim.skew, now, req.signed, req.sig) && NotSeen(lim, c, now, req.signed.nonce)
                 && Readable(req, limit)
                 && (if claimed == "" then Signs(suite, key, req.signed, digest, req.sig)
                     else Signs(suite, key, req.signed, claimed, req.sig) && suite.letters.lower(claimed) == digest)
  {
    hide Judge, CheckSignature, Signs, Presentable, NotSeen;
    match AuthOver(suite, req, limit)
    case Err(_) =>
    case Ok(over) =>
      JudgedIff(lim, c, now, over, req.sig, CheckSignature(suite, key, over, req.sig));
      PresentableOver(lim.skew, now, req.signed, over.bodyHash, req.sig);
      SignsIff(suite, key, req.signed, over.bodyHash, req.sig);
      SameFields(req.signed, over.bodyHash);
  }

  lemma SameFields(r: Signed, hash: string)
    ensures r.(bodyHash := r.bodyHash) == r && r.(bodyHash := hash).nonce == r.nonce
  {
  }

  lemma PresentableOver(skew: int, now: int, r: Signed, hash: string, sig: string)
    ensures Presentable(skew, now, r.(bodyHash := hash), sig) == Presentable(skew, now, r, sig)
  {
  }

  /** Which texts are timestamps: an optional sign and decimal digits, within 64 bits. */
  lemma TimestampsAreDecimal(n: nat)
    ensures ParseInt64(Dec(n)) == ParseInt64("+" + Dec(n)) == if n <= MAX_INT64 then Some(n) else None
    ensures ParseInt64("-" + Dec(n)) == if -(n as int) >= MIN_INT64 then Some(-(n as int)) else None
  {
    DecValueOfDec(n);
    var d := Dec(n);
    assert IsDigit(d[0]);
    assert ("+" + d)[1..] == d && ("-" + d)[1..] == d;
    assert ("+" + d)[0] == '+' && ("-" + d)[0] == '-';
  }

  // ---------- what the client's own helpers sign ----------

  /** Key generation, signing and the base64 encoder on the client's side. */
  datatype Signer = Signer(publicKey: string -> string, sign: (string, string) -> string, encode: string -> string) {
    ghost predicate Lawful(suite: Suite) {
      && (forall k, m {:trigger sign(k, m)} :: |sign(k, m)| == 64 && suite.verify(publicKey(k), m, sign(k, m)))
      && (forall b {:trigger encode(b)} :: suite.decodeSig(Trim(encode(b))) == Some(b) && encode(b) != "")
    }

    /** `SignPayloadWithBodyHash`. */
    function SignLegacy(letters: Case, priv: string, r: Signed, hash: string): string {
      encode(sign(priv, Legacy(Normalise(letters, r.(bodyHash := hash)))))
    }

    /** `SignLengthPrefixedPayload`. */
    function SignPrefixed(letters: Case, priv: string, r: Signed, hash: string): string {
      encode(sign(priv, LengthPrefixed(Normalise(letters, r.(bodyHash := hash)))))
    }
  }

  function Bracketed(b: string): string { "<" + b + ">" }

  function Unbracketed(s: string): Option<string> { if |s| < 2 then None else Some(s[1..|s| - 1]) }

  lemma BracketsComeOff(b: string)
    ensures Unbracketed(Trim(Bracketed(b))) == Some(b)
  {
    TrimSolid(Bracketed(b));
    assert Bracketed(b)[1..|b| + 1] == b;
  }

  lemma SignerLawsAreConsistent()
    ensures exists suite: Suite, signer: Signer :: suite.Lawful() && signer.Lawful(suite)
  {
    hide Trim, Unbracketed;
    var suite := Suite((k, m, s) => true, Unbracketed, b => "0", Case(s => s, s => s));
    var signer := Signer(k => k, (k, m) => seq(64, _ => '0'), Bracketed);
    forall b
      ensures suite.decodeSig(Trim(signer.encode(b))) == Some(b)
    {
      BracketsComeOff(b);
    }
    assert suite.Lawful();
    assert signer.Lawful(suite);
  }

  /** Whichever helper signed it, a request presented in time with a new nonce is served, with the body it was
      signed for. */
  lemma SignedRequestIsServed(suite: Suite, signer: Signer, priv: string, lim: Limits, c: Cache, now: int, req: Incoming,
                              limit: int)
    requires lim.Valid() && signer.Lawful(suite) && req.signed.bodyHash == "" && Readable(req, limit)
    requires Presentable(lim.skew, now, req.signed, req.sig) && NotSeen(lim, c, now, req.signed.nonce)
    requires var hash := suite.digestHex(Content(req));
             req.sig in {signer.SignLegacy(suite.letters, priv, req.signed, hash),
                         signer.SignPrefixed(suite.letters, priv, req.signed, hash)}
    ensures HeaderFirst(suite, signer.publicKey(priv), lim, c, now, req, limit).result == Ok(Content(req))
  {
    hide Presentable, NotSeen, HeaderFirst, PrefixedText, LegacyText, Legacy, LengthPrefixed, Normalise;
    var hash := suite.digestHex(Content(req));
    CanonicalTexts(suite.letters, req.signed, hash);
    HeaderFirstServesIff(suite, signer.publicKey(priv), lim, c, now, req, limit);
  }

  // ---------- which error ----------

  /** One error for each check, that of the first that fails. */
  lemma RefusedExactly(lim: Limits, c: Cache, now: int, r: Signed, sig: string, other: Option<AuthError>)
    requires lim.Valid() && other in {None, Some(InvalidSignature), Some(InvalidProofOfPossession)}
    ensures var e := Judge(lim, c, now, r, sig, other).error;
            if sig == "" then e == Some(MissingSignature)
            else if r.timestamp == "" then e == Some(MissingTimestamp)
            else if r.nonce == "" then e == Some(MissingNonce)
            else if |r.nonce| > 128 then e == Some(NonceTooLong)
            else if ParseInt64(r.timestamp).None? then e == Some(InvalidTimestamp)
            else if !Presentable(lim.skew, now, r, sig) then e == Some(TimestampExpired)
            else if other.Some? then e == other
            else if !NotSeen(lim, c, now, r.nonce) then e == Some(ReplayedNonce)
            else e.None?
    ensures Judge(lim, c, now, r, sig, other).error.Some? && Judge(lim, c, now, r, sig, other).error != Some(ReplayedNonce) ==>
              Judge(lim, c, now, r, sig, other).cache == c
  {
    if ParseInt64(r.timestamp).Some? { FreshExactly(now, ParseInt64(r.timestamp).value, lim.skew); }
  }

  /** What the signature checks say when they fail. */
  lemma SignatureErrors(suite: Suite, key: string, r: Signed, body: string, sig: string)
    ensures var e := CheckSignature(suite, key, r, sig);
            e == if Signs(suite, key, r, r.bodyHash, sig) then None else Some(InvalidSignature)
    ensures var e := CheckPossession(suite, key, r, body, sig);
            var decoded := suite.decodeSig(Trim(sig));
            e == if decoded.None? || |decoded.value| != 64 then Some(InvalidSignature)
                 else if || Signs(suite, key, r, suite.digestHex(body), sig)
                         || (r.bodyHash != "" && Signs(suite, key, r, r.bodyHash, sig)) then None
                 else Some(InvalidProofOfPossession)
  {
    hide Signs, Normalise, Covers;
    SignsIff(suite, key, r, r.bodyHash, sig);
    PossessesIff(suite, key, r, body, sig);
    assert r.(bodyHash := r.bodyHash) == r;
  }

  /** And what a body says that cannot be had, or is not the one that was claimed. */
  lemma BodyErrors(suite: Suite, key: string, lim: Limits, c: Cache, now: int, req: Incoming, limit: int)
    requires lim.Valid()
    ensures var a := HeaderFirst(suite, key, lim, c, now, req, limit);
            var asked := !req.bodyAbsent && (req.signed.bodyHash == "" || a.accepted);
            && (a.result == Err(BodyUnreadable) <==> asked && req.body.None?)
            && (a.result == Err(BodyTooLarge) <==> asked && req.body.Some? && 0 < limit < |req.body.value|)
            && (a.result == Err(BodyHashMismatch)
                <==> && a.accepted && req.signed.bodyHash != "" && Readable(req, limit)
                     && suite.letters.lower(req.signed.bodyHash) != suite.digestHex(Content(req)))
  {
    hide Judge, CheckSignature, NotSeen, Presentable;
    match AuthOver(suite, req, limit)
    case Err(_) =>
    case Ok(over) =>
      var other := CheckSignature(suite, key, over, req.sig);
      SignatureErrors(suite, key, over, "", req.sig);
      RefusedExactly(lim, c, now, over, req.sig, other);
  }
}
