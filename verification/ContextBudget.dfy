/** The KV-cache budget of `pkg/inference/context_sizing.go`: which context length a model gets on a given
    machine, and the resolution in `LoadModel` (`pkg/inference/supervisor.go`).
    Floating-point products are exact reals here, and integers do not overflow. */
module ContextBudget {
  import opened Wrappers

  const MIB: int := 0x10_0000
  const LARGEST_BUCKET: int := 0x10_0000
  const SMALLEST_BUCKET: int := 512

  datatype Meta = Meta(numLayers: int, numKVHeads: int, headDim: int, nativeMax: int,
                       paramBillions: real, bytesPerParam: real)

  datatype Topology = Topology(hasGPU: bool, gpuCount: int, vramMB: int, ramMB: int)

  datatype BudgetError = InsufficientRAM | InsufficientVRAM

  /** Conversion of a float to an integer drops the fraction. */
  function Trunc(x: real): int {
    if x < 0.0 then -(-x).Floor else x.Floor
  }

  /** Division of integers truncates. */
  function Quotient(a: int, b: int): int
    requires b > 0
  {
    if a < 0 then -(-a / b) else a / b
  }

  function OrElse(n: int, fallback: int): int { if n <= 0 then fallback else n }

  function Min(a: int, b: int): int { if a <= b then a else b }

  // ---------- snapping to a bucket ----------

  /** The largest doubling of `b` that is not above `target`, up to the largest bucket. */
  function Snap(target: int, b: int): int
    requires b > 0
    decreases LARGEST_BUCKET - b
  {
    if b < LARGEST_BUCKET && 2 * b <= target then Snap(target, 2 * b) else b
  }

  function Target(hardwareMax: int, nativeMax: int): int {
    Min(hardwareMax, OrElse(nativeMax, 32768))
  }

  function Aligned(hardwareMax: int, nativeMax: int): int {
    Snap(Target(hardwareMax, nativeMax), SMALLEST_BUCKET)
  }

  const BUCKETS: seq<int> := [2048, 4096, 8192, 16384, 32768, 65536, 131072, 262144, 524288, 1048576]

  lemma BucketsDouble(i: nat)
    requires i < |BUCKETS|
    ensures BUCKETS[i] >= 2048 && (i + 1 < |BUCKETS| ==> BUCKETS[i + 1] == 2 * BUCKETS[i])
    ensures BUCKETS[i] == LARGEST_BUCKET <==> i == |BUCKETS| - 1
  {
  }

  lemma SnapSmall(target: int)
    ensures target < 1024 ==> Snap(target, 512) == 512
    ensures 1024 <= target < 2048 ==> Snap(target, 512) == 1024
    ensures target >= 2048 ==> Snap(target, 512) == Snap(target, 2048)
  {
    assert Snap(target, 1024) == if 2048 <= target then Snap(target, 2048) else 1024;
  }

  /** The bucket loop and the special cases below 2048 amount to one snap from 512. */
  method AlignContextLength(hardwareMax: int, modelNativeMax: int) returns (r: int)
    ensures r == Aligned(hardwareMax, modelNativeMax)
  {
    var ceiling := modelNativeMax;
    if ceiling <= 0 { ceiling := 32768; }
    var target := hardwareMax;
    if target > ceiling { target := ceiling; }
    SnapSmall(target);
    var selected := 2048;
    var i := 0;
    while i < |BUCKETS|
      invariant 0 <= i <= |BUCKETS|
      invariant i == 0 ==> selected == 2048
      invariant i > 0 ==> selected == BUCKETS[i - 1] && selected <= target
      invariant target >= 2048 ==> selected > 0 && Snap(target, 2048) == Snap(target, selected)
    {
      BucketsDouble(i);
      if i > 0 { BucketsDouble(i - 1); }
      if BUCKETS[i] <= target { selected := BUCKETS[i]; } else { break; }
      i := i + 1;
    }
    if i > 0 { BucketsDouble(i - 1); }
    if target < 2048 {
      if target >= 1024 { return 1024; }
      return 512;
    }
    return selected;
  }

  /** What the snap returns lies below the target unless it is the start, and is maximal. */
  lemma {:induction false} SnapBounds(target: int, b: int)
    requires b > 0
    ensures b <= Snap(target, b)
    ensures Snap(target, b) <= target || Snap(target, b) == b
    ensures target < 2 * Snap(target, b) || Snap(target, b) >= LARGEST_BUCKET
    decreases LARGEST_BUCKET - b
  {
    if b < LARGEST_BUCKET && 2 * b <= target { SnapBounds(target, 2 * b); }
  }

  lemma {:induction false} SnapMonotone(t: int, u: int, b: int)
    requires b > 0 && t <= u
    ensures Snap(t, b) <= Snap(u, b)
    decreases LARGEST_BUCKET - b
  {
    SnapBounds(u, b);
    if b < LARGEST_BUCKET && 2 * b <= t { SnapMonotone(t, u, 2 * b); }
  }

  predicate IsBucket(b: int) { b == 512 || b == 1024 || b in BUCKETS }

  lemma BucketDoubles(b: int)
    requires IsBucket(b) && b < LARGEST_BUCKET
    ensures IsBucket(2 * b)
  {
    if b == 1024 {
      assert BUCKETS[0] == 2 * b;
    } else if b != 512 {
      var i :| 0 <= i < |BUCKETS| && BUCKETS[i] == b;
      BucketsDouble(i);
    }
  }

  lemma {:induction false} SnapIsBucket(target: int, b: int)
    requires b > 0 && IsBucket(b)
    ensures IsBucket(Snap(target, b))
    decreases LARGEST_BUCKET - b
  {
    if b < LARGEST_BUCKET && 2 * b <= target {
      BucketDoubles(b);
      SnapIsBucket(target, 2 * b);
    }
  }

  lemma BucketAtMost(b: int)
    requires IsBucket(b)
    ensures 512 <= b <= LARGEST_BUCKET
  {
    if b in BUCKETS {
      var i :| 0 <= i < |BUCKETS| && BUCKETS[i] == b;
      BucketsDouble(i);
    }
  }

  /** Alignment picks the greatest bucket not above the target, or the least bucket: within a factor of
      two of the target wherever the target lies between them. */
  lemma AlignedExactly(hardwareMax: int, nativeMax: int)
    ensures var c, target := Aligned(hardwareMax, nativeMax), Target(hardwareMax, nativeMax);
            && IsBucket(c) && 512 <= c <= 1048576
            && (if target < 512 then c == 512 else c <= target && (target < 2 * c || c == 1048576))
  {
    var target := Target(hardwareMax, nativeMax);
    SnapBounds(target, 512);
    SnapIsBucket(target, 512);
    BucketAtMost(Snap(target, 512));
  }

  // ---------- the two budget functions ----------

  function WeightMB(m: Meta): int { Trunc(m.paramBillions * m.bytesPerParam * 1024.0) }

  /** Memory left for the cache, in MB. */
  function RemainingMB(m: Meta, t: Topology): int {
    Trunc(t.vramMB as real * 0.90) - 1536 * t.gpuCount - WeightMB(m)
  }

  /** Cache bytes per token on one GPU, over two streams, two bytes for each of key and value. */
  function StreamBytes(m: Meta, gpuCount: int): (n: int)
    requires gpuCount > 0
    ensures n > 0
  {
    var layers, dim := OrElse(m.numLayers, 32), OrElse(m.headDim, 128);
    var heads := OrElse(Quotient(m.numKVHeads, gpuCount), 1);
    ProductPositive(layers, heads, dim);
    2 * layers * heads * dim * 2 * 2
  }

  lemma ProductPositive(x: int, y: int, z: int)
    requires x > 0 && y > 0 && z > 0
    ensures 2 * x * y * z * 2 * 2 > 0
  {
    assert x * y > 0;
    assert x * y * z > 0;
    assert 2 * x * y * z * 2 * 2 == 8 * (x * y * z);
  }

  function SafeTokens(remainingMB: int, streamBytes: int): int
    requires streamBytes > 0
  {
    Quotient(remainingMB * MIB, streamBytes)
  }

  datatype Budget = Budget(clamp: bool, context: int)

  predicate Known(m: Meta, t: Topology) {
    t.hasGPU && t.gpuCount > 0 && t.vramMB > 0 && m.paramBillions > 0.0 && m.nativeMax > 0
  }

  function EvaluateVRAMContextBudget(m: Meta, t: Topology, requested: int): Budget {
    if requested > 0 then Budget(true, requested)
    else if !t.hasGPU || t.gpuCount <= 0 || t.vramMB <= 0 then Budget(false, 0)
    else if m.paramBillions <= 0.0 || m.nativeMax <= 0 then Budget(false, 0)
    else
      var remaining := RemainingMB(m, t);
      if remaining <= 0 then Budget(true, 2048)
      else
        var perToken := StreamBytes(m, t.gpuCount);
        if remaining >= Quotient(perToken * m.nativeMax, MIB) then Budget(false, 0)
        else Budget(true, Aligned(SafeTokens(remaining, perToken), m.nativeMax))
  }

  function Sanitised(m: Meta): Meta {
    m.(numLayers := OrElse(m.numLayers, 32), numKVHeads := OrElse(m.numKVHeads, 8), headDim := OrElse(m.headDim, 128),
       paramBillions := if m.paramBillions <= 0.0 then 7.0 else m.paramBillions,
       bytesPerParam := if m.bytesPerParam <= 0.0 then 2.0 else m.bytesPerParam)
  }

  function CalculateMaxViableContext(meta: Meta, t: Topology): Result<int, BudgetError> {
    var m := Sanitised(meta);
    if !t.hasGPU || t.gpuCount <= 0 then
      var ram := OrElse(t.ramMB, 16384);
      var usable := Trunc(ram as real * 0.70) - WeightMB(m) - 1024;
      if usable <= 0 then Err(InsufficientRAM)
      else
        ProductPositive(m.numLayers, m.numKVHeads, m.headDim);
        Ok(Aligned(SafeTokens(usable, 2 * m.numLayers * m.numKVHeads * m.headDim * 2), m.nativeMax))
    else
      var vram := if t.vramMB <= 0 then t.gpuCount * 16384 else t.vramMB;
      if WeightMB(m) > Trunc(vram as real * 0.92) then Err(InsufficientVRAM)
      else
        var left := RemainingMB(m, t.(vramMB := vram));
        var usable := if left < 512 then 512 else left;
        Ok(Aligned(SafeTokens(usable, StreamBytes(m, t.gpuCount)), m.nativeMax))
  }

  // ---------- a clamp is safe, and tight ----------

  lemma QuotientIs(a: int, b: int)
    requires a >= 0 && b > 0
    ensures var q := Quotient(a, b); b * q <= a < b * q + b
  {
    assert a == b * (a / b) + a % b;
  }

  /** `q` tokens fit exactly when `c <= q`. */
  lemma FitsIff(a: int, b: int, c: int)
    requires a >= 0 && b > 0
    ensures c * b <= a <==> c <= Quotient(a, b)
  {
    var q := Quotient(a, b);
    QuotientIs(a, b);
    if c <= q { assert c * b <= q * b; } else { assert c * b >= (q + 1) * b; }
  }

  /** The budget decides for itself, something being left for the cache. */
  predicate Clamps(m: Meta, t: Topology) {
    EvaluateVRAMContextBudget(m, t, 0).clamp && RemainingMB(m, t) > 0
  }

  /** A clamped context fits the memory left, on two streams, exactly when 512 tokens do. */
  lemma ClampFitsIff(m: Meta, t: Topology)
    ensures Clamps(m, t) ==>
              var left, per := RemainingMB(m, t) * MIB, StreamBytes(m, t.gpuCount);
              EvaluateVRAMContextBudget(m, t, 0).context * per <= left <==> 512 * per <= left
  {
    if Clamps(m, t) {
      var left, per := RemainingMB(m, t) * MIB, StreamBytes(m, t.gpuCount);
      AlignedExactly(Quotient(left, per), m.nativeMax);
      FitsIff(left, per, EvaluateVRAMContextBudget(m, t, 0).context);
      FitsIff(left, per, 512);
    }
  }

  /** A clamped context is a bucket within a factor of two of the lesser of what fits and what the model
      supports, wherever that is between the least and the greatest bucket. */
  lemma ClampIsTight(m: Meta, t: Topology)
    ensures Clamps(m, t) ==>
              var c := EvaluateVRAMContextBudget(m, t, 0).context;
              var target := Min(SafeTokens(RemainingMB(m, t), StreamBytes(m, t.gpuCount)), m.nativeMax);
              IsBucket(c) && (if target < 512 then c == 512 else c <= target && (target < 2 * c || c == LARGEST_BUCKET))
  {
    if Clamps(m, t) { AlignedExactly(SafeTokens(RemainingMB(m, t), StreamBytes(m, t.gpuCount)), m.nativeMax); }
  }

  /** A known model on a known machine keeps its native context exactly when that overshoots the memory
      left by less than 1 MiB. */
  lemma UnclampedIff(m: Meta, t: Topology, requested: int)
    requires requested <= 0 && Known(m, t) && RemainingMB(m, t) > 0
    ensures !EvaluateVRAMContextBudget(m, t, requested).clamp
            <==> m.nativeMax * StreamBytes(m, t.gpuCount) < (RemainingMB(m, t) + 1) * MIB
  {
    var per, remaining := StreamBytes(m, t.gpuCount), RemainingMB(m, t);
    NeedPositive(per, m.nativeMax);
    QuotientIs(per * m.nativeMax, MIB);
  }

  lemma NeedPositive(x: int, y: int)
    requires x > 0 && y > 0
    ensures x * y > 0 && x * y == y * x
  {
  }

  const SMALL_MODEL := Meta(1, 1, 1, 6440 * 0x2_0000 + 1, 1.0, 1.0)
  const SMALL_GPU := Topology(true, 1, 10_000, 0)

  /** It may overshoot: one token too many, and no clamp. */
  lemma UnclampedMayOvershoot()
    ensures !EvaluateVRAMContextBudget(SMALL_MODEL, SMALL_GPU, 0).clamp
    ensures SMALL_MODEL.nativeMax * StreamBytes(SMALL_MODEL, 1) > RemainingMB(SMALL_MODEL, SMALL_GPU) * MIB
  {
    assert RemainingMB(SMALL_MODEL, SMALL_GPU) == 6440;
    assert Quotient(1, 1) == 1;
    assert StreamBytes(SMALL_MODEL, 1) == 8;
  }

  // ---------- the two functions agree ----------

  predicate Positive(m: Meta) {
    m.numLayers > 0 && m.numKVHeads > 0 && m.headDim > 0 && m.bytesPerParam > 0.0 && m.paramBillions > 0.0
  }

  lemma TruncMonotone(x: real, y: real)
    requires x <= y
    ensures Trunc(x) <= Trunc(y)
  {
  }

  /** What a clamp picks never exceeds what the other function calls viable, and is the same once 512 MB
      are left. */
  lemma ClampIsViable(m: Meta, t: Topology)
    ensures Clamps(m, t) && Positive(m) ==>
              var c, v := EvaluateVRAMContextBudget(m, t, 0).context, CalculateMaxViableContext(m, t);
              v.Ok? && c <= v.value && (RemainingMB(m, t) >= 512 ==> c == v.value)
  {
    if Clamps(m, t) && Positive(m) {
      assert Sanitised(m) == m;
      TruncMonotone(t.vramMB as real * 0.90, t.vramMB as real * 0.92);
      var left, per := RemainingMB(m, t), StreamBytes(m, t.gpuCount);
      var raised := if left < 512 then 512 else left;
      TokensMonotone(left, raised, per);
      AlignedMonotone(SafeTokens(left, per), SafeTokens(raised, per), m.nativeMax);
    }
  }

  lemma TokensMonotone(r: int, s: int, per: int)
    requires 0 < r <= s && per > 0
    ensures SafeTokens(r, per) <= SafeTokens(s, per)
  {
    var q := Quotient(r * MIB, per);
    FitsIff(r * MIB, per, q);
    FitsIff(s * MIB, per, q);
  }

  lemma AlignedMonotone(a: int, b: int, nativeMax: int)
    requires a <= b
    ensures Aligned(a, nativeMax) <= Aligned(b, nativeMax)
  {
    SnapMonotone(Target(a, nativeMax), Target(b, nativeMax), SMALLEST_BUCKET);
  }

  // ---------- the context a load ends up with ----------

  /** The resolution in `LoadModel`. */
  function EffectiveContext(m: Meta, t: Topology, requested: int): (c: int)
    ensures c > 0 && (requested > 0 ==> c == requested)
  {
    var b := EvaluateVRAMContextBudget(m, t, requested);
    if b.clamp && b.context > 0 then b.context
    else if requested > 0 then requested
    else OrElse(m.nativeMax, 4096)
  }

  lemma ClampPositive(m: Meta, t: Topology, requested: int)
    ensures EvaluateVRAMContextBudget(m, t, requested).clamp ==> EvaluateVRAMContextBudget(m, t, requested).context > 0
  {
    if requested <= 0 && Known(m, t) && RemainingMB(m, t) > 0 {
      AlignedExactly(SafeTokens(RemainingMB(m, t), StreamBytes(m, t.gpuCount)), m.nativeMax);
    }
  }

  /** More memory on the same GPUs never gives a shorter context, once something is left for the cache and
      the model supports 512 tokens. */
  lemma MoreMemoryMoreContext(m: Meta, t: Topology, more: int, requested: int)
    requires 0 < t.vramMB <= more && RemainingMB(m, t) > 0 && m.nativeMax >= 512
    ensures EffectiveContext(m, t, requested) <= EffectiveContext(m, t.(vramMB := more), requested)
  {
    var u := t.(vramMB := more);
    TruncMonotone(t.vramMB as real * 0.90, more as real * 0.90);
    if requested <= 0 && Known(m, t) {
      var per := StreamBytes(m, t.gpuCount);
      TokensMonotone(RemainingMB(m, t), RemainingMB(m, u), per);
      AlignedMonotone(SafeTokens(RemainingMB(m, t), per), SafeTokens(RemainingMB(m, u), per), m.nativeMax);
      AlignedExactly(SafeTokens(RemainingMB(m, t), per), m.nativeMax);
      ClampPositive(m, t, requested);
      ClampPositive(m, u, requested);
    }
  }

  lemma BelowTwoThousand(hardwareMax: int, nativeMax: int)
    ensures Aligned(hardwareMax, nativeMax) < 2048 <==> Target(hardwareMax, nativeMax) < 2048
  {
    var target := Target(hardwareMax, nativeMax);
    SnapSmall(target);
    SnapBounds(target, 2048);
  }

  /** With nothing left the context is 2048; the first megabyte can shorten it. */
  lemma FromNothing(m: Meta, t: Topology, u: Topology, requested: int)
    requires Known(m, t) && Known(m, u) && u.gpuCount == t.gpuCount && RemainingMB(m, t) <= 0 && requested <= 0
    ensures EffectiveContext(m, u, requested) < EffectiveContext(m, t, requested)
            <==> RemainingMB(m, u) > 0
                 && (m.nativeMax < 2048
                     || (Clamps(m, u) && SafeTokens(RemainingMB(m, u), StreamBytes(m, u.gpuCount)) < 2048))
  {
    if RemainingMB(m, u) > 0 {
      BelowTwoThousand(SafeTokens(RemainingMB(m, u), StreamBytes(m, u.gpuCount)), m.nativeMax);
      ClampPositive(m, u, requested);
    }
  }

  lemma ShortModel(m: Meta, t: Topology, requested: int)
    requires Known(m, t) && RemainingMB(m, t) > 0 && m.nativeMax < 512 && requested <= 0
    ensures EffectiveContext(m, t, requested) == if Clamps(m, t) then 512 else m.nativeMax
  {
    AlignedExactly(SafeTokens(RemainingMB(m, t), StreamBytes(m, t.gpuCount)), m.nativeMax);
  }

  /** A native context that fits goes on fitting. */
  lemma UnclampedStays(m: Meta, t: Topology, more: int)
    requires Known(m, t) && t.vramMB <= more && RemainingMB(m, t) > 0
    ensures !Clamps(m, t) ==> !Clamps(m, t.(vramMB := more))
    ensures RemainingMB(m, t) <= RemainingMB(m, t.(vramMB := more))
  {
    TruncMonotone(t.vramMB as real * 0.90, more as real * 0.90);
  }

  /** With no request, more memory on the same GPUs gives a shorter context in exactly two cases: the first
      memory left for the cache replaces the fixed 2048 by less; or a model that supports fewer than 512 tokens
      was given 512 by a clamp, and no longer is. */
  lemma MoreMemoryLessContextIff(m: Meta, t: Topology, more: int, requested: int)
    requires Known(m, t) && t.vramMB <= more && requested <= 0
    ensures var u := t.(vramMB := more);
            EffectiveContext(m, u, requested) < EffectiveContext(m, t, requested)
            <==> (RemainingMB(m, t) <= 0 < RemainingMB(m, u)
                  && (m.nativeMax < 2048
                      || (Clamps(m, u) && SafeTokens(RemainingMB(m, u), StreamBytes(m, t.gpuCount)) < 2048)))
                 || (RemainingMB(m, t) > 0 && m.nativeMax < 512 && Clamps(m, t) && !Clamps(m, u))
  {
    var u := t.(vramMB := more);
    if RemainingMB(m, t) <= 0 {
      FromNothing(m, t, u, requested);
    } else {
      UnclampedStays(m, t, more);
      if m.nativeMax >= 512 {
        MoreMemoryMoreContext(m, t, more, requested);
      } else {
        ShortModel(m, t, requested);
        ShortModel(m, u, requested);
      }
    }
  }

  /** With nothing left the context is 2048; with 1 MB left it can be 512. */
  lemma LessAtTheFirstMegabyte()
    ensures var m := Meta(64, 8, 128, 8192, 1.0, 1.0);
            && RemainingMB(m, Topology(true, 1, 2844, 0)) == -1 && RemainingMB(m, Topology(true, 1, 2847, 0)) == 2
            && EffectiveContext(m, Topology(true, 1, 2844, 0), 0) == 2048
            && EffectiveContext(m, Topology(true, 1, 2847, 0), 0) == 512
  {
    var m := Meta(64, 8, 128, 8192, 1.0, 1.0);
    assert Quotient(8, 1) == 8;
    assert StreamBytes(m, 1) == 8 * 65536;
  }

  /** A model that supports fewer than 512 tokens is given 512 when memory is short, and fewer when it is not. */
  lemma ShortModelsShrink()
    ensures var m := Meta(64, 8, 128, 300, 1.0, 1.0);
            && EffectiveContext(m, Topology(true, 1, 2847, 0), 0) == 512
            && EffectiveContext(m, Topology(true, 1, 4000, 0), 0) == 300
  {
    var m := Meta(64, 8, 128, 300, 1.0, 1.0);
    assert RemainingMB(m, Topology(true, 1, 2847, 0)) == 2 && RemainingMB(m, Topology(true, 1, 4000, 0)) == 1040;
    assert Quotient(8, 1) == 8;
    assert StreamBytes(m, 1) == 8 * 65536;
  }

  // ---------- the figures, and the viable context in either mode ----------

  function Given(n: int, otherwise: int): int { if n > 0 then n else otherwise }

  /** Two streams, two bytes for key and for value: eight bytes for each layer, head and dimension on a GPU, which
      holds its whole share of the heads, or one if there are fewer heads than GPUs. */
  lemma StreamBytesExactly(m: Meta, gpuCount: int)
    requires gpuCount > 0
    ensures exists h: int ::
              && StreamBytes(m, gpuCount) == 8 * Given(m.numLayers, 32) * h * Given(m.headDim, 128)
              && if m.numKVHeads < gpuCount then h == 1 else gpuCount * h <= m.numKVHeads < gpuCount * h + gpuCount
  {
    var h := OrElse(Quotient(m.numKVHeads, gpuCount), 1);
    if m.numKVHeads >= gpuCount {
      FitsIff(m.numKVHeads, gpuCount, 1);
      QuotientIs(m.numKVHeads, gpuCount);
    } else if m.numKVHeads >= 0 {
      FitsIff(m.numKVHeads, gpuCount, 1);
    }
    var layers, dim := Given(m.numLayers, 32), Given(m.headDim, 128);
    assert 2 * layers * h * dim * 2 * 2 == 8 * layers * h * dim;
    assert StreamBytes(m, gpuCount) == 8 * layers * h * dim;
  }

  /** The greatest whole number of MB that, with the weights and 1536 MB for each GPU, is within nine tenths of the
      memory of all GPUs. */
  lemma RemainingExactly(m: Meta, t: Topology)
    requires t.vramMB >= 0
    ensures var used := RemainingMB(m, t) + WeightMB(m) + 1536 * t.gpuCount;
            10 * used <= 9 * t.vramMB < 10 * (used + 1)
  {
    var x := t.vramMB as real * 0.90;
    assert x.Floor as real <= x < x.Floor as real + 1.0;
    assert 10.0 * x == 9.0 * t.vramMB as real;
  }

  /** The weights in whole MB, the fraction dropped; 7 billion parameters of 2 bytes when they are not known. */
  lemma WeightExactly(m: Meta)
    ensures m.paramBillions >= 0.0 && m.bytesPerParam >= 0.0 ==>
              WeightMB(m) as real <= m.paramBillions * m.bytesPerParam * 1024.0 < WeightMB(m) as real + 1.0
    ensures var billions := if m.paramBillions > 0.0 then m.paramBillions else 7.0;
            var bytes := if m.bytesPerParam > 0.0 then m.bytesPerParam else 2.0;
            WeightMB(Sanitised(m)) as real <= billions * bytes * 1024.0 < WeightMB(Sanitised(m)) as real + 1.0
  {
    ProductNotNegative(m.paramBillions, m.bytesPerParam);
    ProductNotNegative(Sanitised(m).paramBillions, Sanitised(m).bytesPerParam);
  }

  lemma ProductNotNegative(x: real, y: real)
    ensures x >= 0.0 && y >= 0.0 ==> x * y >= 0.0
  {
  }

  /** A bucket that the model supports and the memory holds, unless it is the least, and no greater one would be. */
  predicate Greatest(c: int, usableMB: int, perToken: int, nativeMax: int) {
    var ceiling := Given(nativeMax, 32768);
    && IsBucket(c)
    && (c > 512 ==> c <= ceiling && c * perToken <= usableMB * MIB)
    && (c < LARGEST_BUCKET ==> 2 * c > ceiling || 2 * c * perToken > usableMB * MIB)
  }

  lemma AlignedIsGreatest(usableMB: int, perToken: int, nativeMax: int)
    requires usableMB > 0 && perToken > 0
    ensures Greatest(Aligned(SafeTokens(usableMB, perToken), nativeMax), usableMB, perToken, nativeMax)
  {
    var tokens := SafeTokens(usableMB, perToken);
    var c := Aligned(tokens, nativeMax);
    AlignedExactly(tokens, nativeMax);
    FitsIff(usableMB * MIB, perToken, c);
    FitsIff(usableMB * MIB, perToken, 2 * c);
  }

  predicate HasGpus(t: Topology) { t.hasGPU && t.gpuCount > 0 }

  /** 16 GB for each GPU, or for the machine, when the memory is not known. */
  function TotalMB(t: Topology): int {
    if HasGpus(t) then Given(t.vramMB, t.gpuCount * 16384) else Given(t.ramMB, 16384)
  }

  /** Without GPUs a model is refused exactly when seven tenths of the RAM do not hold its weights and 1025 MB, and
      with GPUs exactly when its weights exceed 92 hundredths of their memory. */
  lemma RefusedIff(meta: Meta, t: Topology)
    ensures var r, w := CalculateMaxViableContext(meta, t), WeightMB(Sanitised(meta));
            if HasGpus(t) then
              if 100 * w > 92 * TotalMB(t) then r == Err(InsufficientVRAM) else r.Ok?
            else
              if 10 * (w + 1025) > 7 * TotalMB(t) then r == Err(InsufficientRAM) else r.Ok?
  {
    var w := WeightMB(Sanitised(meta));
    if HasGpus(t) {
      var x := TotalMB(t) as real * 0.92;
      assert x.Floor as real <= x < x.Floor as real + 1.0;
      assert 100.0 * x == 92.0 * TotalMB(t) as real;
    } else {
      var x := TotalMB(t) as real * 0.70;
      assert x.Floor as real <= x < x.Floor as real + 1.0;
      assert 10.0 * x == 7.0 * TotalMB(t) as real;
    }
  }

  function CpuUsableMB(meta: Meta, t: Topology): int { Trunc(TotalMB(t) as real * 0.70) - WeightMB(Sanitised(meta)) - 1024 }

  function CpuBytes(meta: Meta): (n: int)
    ensures n > 0
  {
    ProductPositive(Given(meta.numLayers, 32), Given(meta.numKVHeads, 8), Given(meta.headDim, 128));
    2 * Given(meta.numLayers, 32) * Given(meta.numKVHeads, 8) * Given(meta.headDim, 128) * 2
  }

  lemma CpuServes(meta: Meta, t: Topology)
    requires !HasGpus(t) && CalculateMaxViableContext(meta, t).Ok?
    ensures CpuUsableMB(meta, t) > 0
    ensures CalculateMaxViableContext(meta, t) == Ok(Aligned(SafeTokens(CpuUsableMB(meta, t), CpuBytes(meta)), meta.nativeMax))
  {
    hide Aligned, SafeTokens, WeightMB;
  }

  lemma CpuUsableExactly(meta: Meta, t: Topology)
    requires TotalMB(t) >= 0
    ensures 10 * (CpuUsableMB(meta, t) + WeightMB(Sanitised(meta)) + 1024) <= 7 * TotalMB(t)
            < 10 * (CpuUsableMB(meta, t) + WeightMB(Sanitised(meta)) + 1025)
  {
    hide WeightMB, TotalMB;
    var x := TotalMB(t) as real * 0.70;
    assert x.Floor as real <= x < x.Floor as real + 1.0;
    assert 10.0 * x == 7.0 * TotalMB(t) as real;
  }

  lemma CpuBytesExactly(meta: Meta)
    ensures CpuBytes(meta) == 4 * Given(meta.numLayers, 32) * Given(meta.numKVHeads, 8) * Given(meta.headDim, 128)
  {
    var x, y, z := Given(meta.numLayers, 32), Given(meta.numKVHeads, 8), Given(meta.headDim, 128);
    assert 2 * x * y * z * 2 == 4 * x * y * z;
  }

  /** Without GPUs the context is the greatest that fits in what the weights and 1024 MB leave of seven tenths of
      the RAM, at four bytes for each layer, head and dimension. */
  lemma CpuContextIsGreatest(meta: Meta, t: Topology)
    requires !HasGpus(t) && CalculateMaxViableContext(meta, t).Ok?
    ensures exists usable: int ::
              && usable > 0
              && 10 * (usable + WeightMB(Sanitised(meta)) + 1024) <= 7 * TotalMB(t)
                 < 10 * (usable + WeightMB(Sanitised(meta)) + 1025)
              && Greatest(CalculateMaxViableContext(meta, t).value, usable,
                          4 * Given(meta.numLayers, 32) * Given(meta.numKVHeads, 8) * Given(meta.headDim, 128), meta.nativeMax)
  {
    hide Greatest, CalculateMaxViableContext, CpuBytes, CpuUsableMB, WeightMB, Aligned, SafeTokens;
    CpuServes(meta, t);
    CpuUsableExactly(meta, t);
    CpuBytesExactly(meta);
    AlignedIsGreatest(CpuUsableMB(meta, t), CpuBytes(meta), meta.nativeMax);
  }

  /** With GPUs it is the greatest that fits in what remains of theirs, counted as 512 MB if less. */
  lemma GpuContextIsGreatest(meta: Meta, t: Topology)
    requires HasGpus(t) && CalculateMaxViableContext(meta, t).Ok?
    ensures var m, left := Sanitised(meta), RemainingMB(Sanitised(meta), t.(vramMB := TotalMB(t)));
            Greatest(CalculateMaxViableContext(meta, t).value, if left < 512 then 512 else left,
                     StreamBytes(m, t.gpuCount), meta.nativeMax)
  {
    var m, left := Sanitised(meta), RemainingMB(Sanitised(meta), t.(vramMB := TotalMB(t)));
    AlignedIsGreatest(if left < 512 then 512 else left, StreamBytes(m, t.gpuCount), m.nativeMax);
  }

  /** What is asked for is given; a model or machine that is not known is left its native context, or 4096; and one
      whose weights leave nothing is given 2048. */
  lemma OtherwiseEffective(m: Meta, t: Topology, requested: int)
    ensures EffectiveContext(m, t, requested)
            == if requested > 0 then requested
               else if !(t.hasGPU && t.gpuCount > 0 && t.vramMB > 0 && m.paramBillions > 0.0 && m.nativeMax > 0)
               then Given(m.nativeMax, 4096)
               else if RemainingMB(m, t) <= 0 then 2048
               else if Clamps(m, t) then EvaluateVRAMContextBudget(m, t, 0).context
               else m.nativeMax
  {
    if Clamps(m, t) { ClampIsTight(m, t); }
  }
}
