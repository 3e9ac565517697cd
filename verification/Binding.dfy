/** The report data of `pkg/attestation/binding.go`: 64 bytes that bind the node's keys, a nonce and the GPU
    evidence.  SHA-256 is a parameter. */
module Binding {
  import opened Wrappers

  const KEY: nat := 32
  const ZERO_DIGEST: seq<Byte> := seq(KEY, i => 0)

  datatype GPUEvidence = GPUEvidence(report: seq<Byte>, chain: seq<Byte>)

  datatype Claim = Claim(tlsFP: seq<Byte>, hpkePub: seq<Byte>, nonce: seq<Byte>, gpu: Option<GPUEvidence>, authPub: seq<Byte>)
  {
    /** The fixed-width fields of the source. */
    predicate Valid() { |tlsFP| == KEY && |hpkePub| == KEY && |nonce| == KEY && |authPub| == KEY }

    /** What is hashed of the evidence: the report followed by the chain, or nothing without a report. */
    function Evidence(): Option<seq<Byte>> {
      if gpu.Some? && |gpu.value.report| > 0 then Some(gpu.value.report + gpu.value.chain) else None
    }
  }

  datatype Hash = Hash(sum: seq<Byte> -> seq<Byte>) {
    ghost predicate Lawful() { forall x :: |sum(x)| == KEY }

    predicate Collision(x: seq<Byte>, y: seq<Byte>) { x != y && sum(x) == sum(y) }

    predicate ZeroPreimage(x: seq<Byte>) { sum(x) == ZERO_DIGEST }
  }

  function GpuDigest(h: Hash, c: Claim): seq<Byte> {
    match c.Evidence()
    case None => ZERO_DIGEST
    case Some(e) => h.sum(e)
  }

  function Combined(h: Hash, c: Claim): seq<Byte> {
    c.hpkePub + c.nonce + GpuDigest(h, c) + c.authPub
  }

  function ComputeCompositeUserData(h: Hash, c: Claim): seq<Byte> {
    c.tlsFP + h.sum(Combined(h, c))
  }

  predicate VerifyCompositeUserData(h: Hash, userData: seq<Byte>, c: Claim) {
    userData == ComputeCompositeUserData(h, c)
  }

  /** The same four keys and the same evidence; where the report ends and the chain begins is not bound. */
  predicate SameBinding(c: Claim, d: Claim) {
    && c.tlsFP == d.tlsFP && c.hpkePub == d.hpkePub && c.nonce == d.nonce && c.authPub == d.authPub
    && c.Evidence() == d.Evidence()
  }

  /** The two claims themselves exhibit a break of SHA-256. */
  predicate Breaks(h: Hash, c: Claim, d: Claim) {
    || h.Collision(Combined(h, c), Combined(h, d))
    || (match (c.Evidence(), d.Evidence())
        case (Some(x), Some(y)) => h.Collision(x, y)
        case (Some(x), None) => h.ZeroPreimage(x)
        case (None, Some(y)) => h.ZeroPreimage(y)
        case (None, None) => false)
  }

  lemma CombinedSplits(a: seq<Byte>, b: seq<Byte>, c: seq<Byte>, d: seq<Byte>,
                       p: seq<Byte>, q: seq<Byte>, r: seq<Byte>, s: seq<Byte>)
    requires |a| == |p| && |b| == |q| && |c| == |r| && a + b + c + d == p + q + r + s
    ensures a == p && b == q && c == r && d == s
  {
    var l, m := a + b + c + d, p + q + r + s;
    assert a == l[..|a|] && b == l[|a|..|a| + |b|] && c == l[|a| + |b|..|a| + |b| + |c|] && d == l[|a| + |b| + |c|..];
    assert p == m[..|p|] && q == m[|p|..|p| + |q|] && r == m[|p| + |q|..|p| + |q| + |r|] && s == m[|p| + |q| + |r|..];
  }

  lemma DigestIsKey(h: Hash, c: Claim)
    requires h.Lawful()
    ensures |GpuDigest(h, c)| == KEY
  {
    assert |h.sum([])| == KEY;
  }

  /** 64 bytes that verify for one claim verify for every claim that binds the same things; two claims for which
      they verify bind the same things, or exhibit a SHA-256 collision or a preimage of the zero digest. */
  lemma ReportDataBinds(h: Hash, userData: seq<Byte>, c: Claim, d: Claim)
    requires h.Lawful() && c.Valid() && d.Valid() && VerifyCompositeUserData(h, userData, c)
    ensures |userData| == 2 * KEY
    ensures SameBinding(c, d) ==> VerifyCompositeUserData(h, userData, d)
    ensures VerifyCompositeUserData(h, userData, d) ==> SameBinding(c, d) || Breaks(h, c, d)
  {
    assert |h.sum(Combined(h, c))| == KEY;
    if VerifyCompositeUserData(h, userData, d) {
      assert c.tlsFP == userData[..KEY] == d.tlsFP;
      assert h.sum(Combined(h, c)) == userData[KEY..] == h.sum(Combined(h, d));
      if Combined(h, c) == Combined(h, d) {
        DigestIsKey(h, c);
        DigestIsKey(h, d);
        CombinedSplits(c.hpkePub, c.nonce, GpuDigest(h, c), c.authPub, d.hpkePub, d.nonce, GpuDigest(h, d), d.authPub);
      }
    }
  }

  /** The layout, by offset: the TLS fingerprint, then the digest of 128 bytes that hold the HPKE key, the nonce, the
      digest of the evidence or zeros without a report, and the authorised key. */
  lemma ReportDataLayout(h: Hash, userData: seq<Byte>, c: Claim, hashed: seq<Byte>)
    requires h.Lawful() && c.Valid() && |userData| == 64 && |hashed| == 128
    requires hashed[..32] == c.hpkePub && hashed[32..64] == c.nonce && hashed[96..] == c.authPub
    requires hashed[64..96] == if c.gpu.Some? && c.gpu.value.report != [] then h.sum(c.gpu.value.report + c.gpu.value.chain)
                               else seq(32, i => 0)
    ensures VerifyCompositeUserData(h, userData, c) <==> userData[..32] == c.tlsFP && userData[32..] == h.sum(hashed)
  {
    assert hashed == hashed[..32] + hashed[32..64] + hashed[64..96] + hashed[96..];
    assert seq(32, i => 0) == ZERO_DIGEST;
    assert hashed == Combined(h, c);
    assert userData == userData[..32] + userData[32..];
  }

  /** Bytes move freely between a report and its chain, as long as the report keeps one. */
  lemma BoundaryIsFree(h: Hash, c: Claim, report: seq<Byte>, chain: seq<Byte>)
    requires c.gpu.Some? && |c.gpu.value.report| > 0 && |report| > 0
    requires report + chain == c.gpu.value.report + c.gpu.value.chain
    ensures ComputeCompositeUserData(h, c.(gpu := Some(GPUEvidence(report, chain)))) == ComputeCompositeUserData(h, c)
  {
    assert c.(gpu := Some(GPUEvidence(report, chain))).Evidence() == c.Evidence();
  }
}
