# Verification of the confidential inference node

A Dafny model of the node's core logic, and proofs about it.

**The encrypted response path.** Upstream bytes arrive in arbitrary chunks, are cut into server-sent events,
translated from OpenAI chunks to Messages events, printed, parsed a second time and sealed into numbered AEAD
frames. `Responder.HpkeResponseWriter`, `Messages.MessagesResponseWriter`, `Translator.AnthropicStreamTranslator`
and `Session.HPKESession` are classes on mutable buffers. Each is proved against functions on whole bodies
(`Sse.Cut`, `Responder.Drain`, `Messages.WholeBody`, `Translator.Step`, `Session.Stream`); the theorems are about
those functions, for every body and every chunking. `Json`, `ClientReader` and `ClientTheorems` are the client that
reads the events back, and `ToolCalls` the names of tool blocks.

**The request verifier.** `NonceCache` is the shared nonce cache on values and over whole runs, in 64-bit time
arithmetic; `EntrySlice` is the Go slice with its backing array; `Verifier` is the class with key latch, signature
checks and header-first reading; `Canonical` holds the two canonical texts.

**Arithmetic and codecs.** `ContextBudget` (memory budget), `Checksum` (internet checksum and the frame that
carries it), `DhcpOptions` (option loop against an encoder), `Binding` (attestation report data).

**Lifecycles.** `Node` interleaves enrolment, seal, load, policy, inference and guarded requests; `NodePaths` and
`NodeService` say what its runs mean for methods and paths; `Supervisor` interleaves the engine loader, exit monitors
and liveness probers. Each step is one atomic access or one region under a lock.

Bytes of text protocols are characters of a `string`, one per byte; `Checksum`, `DhcpOptions` and `Binding` use
`Wrappers.Byte`. X25519, HKDF, AES-GCM, Ed25519, SHA-256, base64, JSON parsing, JSON string quoting and letter
cases are parameters; `Lawful()` states what is assumed of them: opening undoes sealing, agreement commutes,
lengths are fixed, digests are lower-case and hold no white space, quoting leaves no raw line break, signatures
verify under their own key, case mappings work rune by rune. Where a theorem needs more it says so: quoting can be
undone for the strings that come out of the JSON parser (`Json.Reader.Reads`), and key derivation tells salts and
labels apart (`Session.Kem.Separates`). `Session.LawsAreConsistent`, `Verifier.SignerLawsAreConsistent` and
`Json.LawsAreConsistent` show that such primitives exist. Clocks, random bytes, request arrival, engine exits and
probe results are parameters or events. Run `dafny verify dfyconfig.toml` to check the whole.

Where the code does not do what its comments or names suggest, the model follows the code, and a lemma says
exactly when the suggestion holds or exhibits an input where it fails:

- forced flushing at the 1 MiB ceiling cuts events (`Pipeline.DirectExactly`, `Pipeline.ForcedFlushTruncates`);
- a `[DONE]` payload that is not literally `[DONE]` ends the message without a StreamEnd frame
  (`MessagesTheorems.StreamEndExactly`);
- chunks after `[DONE]` are still translated (`EventGrammar.MessageIffIdleAfterDone`,
  `MessagesTheorems.BodyIsMessageIff`);
- a think tag cut by a chunk boundary is not recognised (`ThinkTags.StreamingAgreesWithUnary`), and
  `ExtractThinkingFromContent` slices out of range when a closing tag comes first (`ThinkTags.ExtractPanicsIff`);
- the skew check passes timestamps 2^63 ns or more ahead (`NonceCache.FreshExactly`), and a request with such a
  timestamp can be replayed whatever the limits (`NonceCache.FarFutureReplays`);
- for other timestamps, at the default limits one instant is left for a replay, and more where clock readings reach
  the cache late, which the code allows since it reads the clock before it takes the lock
  (`NonceCache.NoReplayIff`, `NonceCache.DefaultsLeaveOneInstant`, `NonceCache.LateReplays`);
- the legacy canonical text is ambiguous once a field holds a colon with white space on neither side
  (`Canonical.LegacyUnambiguousIff`, `Canonical.LegacyCollision`);
- the unclamped native context may overshoot by under 1 MiB (`ContextBudget.UnclampedIff`), and the effective
  context can fall as memory grows (`ContextBudget.MoreMemoryLessContextIff`);
- the body hash claimed by an enrolment is not compared with its body, so an accepted possession need not cover
  the body (`Verifier.PossessionCoversBodyIff`);
- a refused visibility update may have set some fields (`Visibility.RefusedUpdateKeepsIff`);
- a load that passed its seal check may be carried out after the seal (`Node.LoadMayFollowSeal`);
- an engine can be ready without a process handle or a live prober (`Supervisor.ReadyHasHandleIff`,
  `Supervisor.ReadyHasProberIff`, with `ReadyWithoutHandle` and `ReadyWithoutProber`);
- a second tool call goes into the open tool block without its identifier and name (`ToolCalls.CallsAreNamedIff`,
  `ToolCalls.SecondCallIsMerged`);
- where report and certificate chain meet is not bound by the report data (`Binding.BoundaryIsFree`).

## Model

| member | source | states |
|---|---|---|
| Sse.FirstDelimiterStable | pkg/proxy/hpke_middleware.go:183-224 | the first delimiter of `a` is still the first of `a + b`, though there are two delimiters of different lengths |
| Sse.CutAppend | pkg/proxy/hpke_middleware.go:183-224 | cutting the pending rest plus new bytes gives what cutting everything at once gives |
| Sse.EventTextReadsBack | pkg/proxy/hpke_middleware.go:226-286 | a printed `event:`/`data:` pair of clean lines is cut as one block and read back as the same pair |
| Sse.LinesAreOneBlock | pkg/proxy/hpke_middleware.go:183-236 | lines without breaks in them and none empty, joined by LF or CRLF in any mixture and ended by a blank line of either kind, are cut as one block and read back as those lines |
| Sse.CrLfEventReadsBack | pkg/proxy/hpke_middleware.go:226-286 | an `event:`/`data:` pair with CRLF line ends is one block and reads back as the same pair |
| Responder.CrLfEventIsOneFrame | pkg/proxy/hpke_middleware.go:226-286 | and its frame is the one its LF form gives |
| Responder.HpkeResponseWriter.ProcessSSEBuffer | pkg/proxy/hpke_middleware.go:183-224 | terminates on any buffer, frames the blocks of `Drain` and keeps its rest |
| Responder.HpkeResponseWriter.Write | pkg/proxy/hpke_middleware.go:146-171 | frames the complete blocks; the buffer is at most the ceiling afterwards; a non-streaming body is only collected |
| Responder.HpkeResponseWriter.WriteEncryptedSSEBlock | pkg/proxy/hpke_middleware.go:226-286 | a block yields at most one frame: its data lines joined, with its event type if any; StreamEnd for `[DONE]` |
| Responder.HpkeResponseWriter.Finish | pkg/proxy/hpke_middleware.go:289-330 | flushes the pending tail, or sends the collected body as one frame and the end, then wipes the session keys |
| Pipeline.ServeDirect | pkg/proxy/hpke_middleware.go:146-330 | over any writes and flushes, the wire is the numbered frames of the blocks received |
| Pipeline.DirectIsOneShot | pkg/proxy/hpke_middleware.go:183-224 | if the ceiling is never hit, chunking and flushing do not matter |
| Pipeline.NeverForcedIsShortStretches | pkg/proxy/hpke_middleware.go:142-224 | the ceiling is never hit exactly when every stretch to a delimiter, less one byte, fits under it |
| Pipeline.DirectExactly | pkg/proxy/hpke_middleware.go:142-224 | every chunking of a body is cut into the one-shot blocks if and only if the body has short stretches |
| Pipeline.ForcedFlushTruncates | pkg/proxy/hpke_middleware.go:142-171 | a one-event body of just over 1 MiB and a chunking of it that delivers a shorter payload |
| Translator.AnthropicStreamTranslator.ProcessOpenAIChunk | pkg/proxy/messages_translator.go:431-636 | new state and printed events are those of the state machine `Step` |
| Translator.PrintedEventIsClean | pkg/proxy/messages_translator.go:431-636 | every printed event has one-line, untrimmable type and data, whatever the texts in it |
| Json.ReadsValue | pkg/proxy/messages_translator.go:431-636 | a JSON reader reads a shown value back and leaves the rest |
| ClientReader.PrintedEventReads | pkg/proxy/messages_translator.go:431-636 | each event: the data line is exactly the JSON object given for it, member by member, and the client reads the event from type and data |
| ClientTheorems.ClientReadsEvents | pkg/proxy/messages_translator.go:431-791 | from the TokenDelta payloads of a whole response the client reads the translator's events of the body, in order |
| ClientTheorems.ClientHearsTheBody | pkg/proxy/messages_translator.go:431-791 | the joined thinking, text and tool arguments it reads are the shares of the body's chunks; with no opening think tag in content that stands for itself they are the body's reasoning, content and arguments, joined |
| ToolCalls.ChunkStarts | pkg/proxy/messages_translator.go:586-632 | a chunk starts at most one tool block, with identifier and name of its first call, and only where no tool block is open |
| ToolCalls.CallsAreNamedIff | pkg/proxy/messages_translator.go:586-632 | the calls of a chunk are all started under their own names if and only if there are none, or there is one and no tool block is open |
| ToolCalls.SecondCallIsMerged | pkg/proxy/messages_translator.go:586-632 | two calls in one chunk of which the second loses its name |
| EventGrammar.FinishedRunIsMessage | pkg/proxy/messages_translator.go:431-636 | with nothing after the first `[DONE]`: optional start, blocks 0, 1, 2, ... each started and stopped once around deltas of its own index and kind, usage, stop |
| EventGrammar.StopsOnce | pkg/proxy/messages_translator.go:436-470 | in any run at all, one `message_stop` from the first `[DONE]` on, none before |
| EventGrammar.MessageIffIdleAfterDone | pkg/proxy/messages_translator.go:431-636 | payloads after `[DONE]` leave the message whole exactly when each is blank, a further `[DONE]`, not JSON, or without content for a message that has started |
| EventGrammar.ChunkAfterDoneBreaksTheMessage | pkg/proxy/messages_translator.go:431-636 | a concrete stream whose chunk after `[DONE]` leaves no whole message |
| Usage.TokensAreDeltas | pkg/proxy/messages_translator.go:500-636 | the reported usage is the number of thinking and text deltas sent plus the number of payloads with tool calls |
| ThinkTags.ApplyCarries | pkg/proxy/messages_translator.go:478-636 | conservation: a chunk's reasoning, content and tool arguments reach the deltas of their own kind, whole |
| ThinkTags.OwnReasoningIsKept | pkg/proxy/messages_translator.go:502-506 | a chunk with reasoning of its own is taken as it is, tags and all |
| ThinkTags.StreamingAgreesWithUnary | pkg/proxy/messages_translator.go:502-584 | for `<think>`A`</think>`B the streamed thinking is A and the text B if and only if no chunk boundary cuts a tag; the unary form is the trimmed pair |
| ThinkTags.StreamingAgreesWithUnaryUnterminated | pkg/proxy/messages_translator.go:79-96 | the same for the unterminated `<think>`A |
| ThinkTags.CutTagLosesThinking | pkg/proxy/messages_translator.go:502-584 | two chunks that cut the opening tag: everything comes out as text |
| ThinkTags.ExtractPanicsIff | pkg/proxy/messages_translator.go:79-96 | the slice is out of range exactly when a closing tag comes before the first opening one |
| ThinkTags.ExtractExactly | pkg/proxy/messages_translator.go:79-96 | without an opening tag nothing is changed; else thinking and text are what stands between, and what stands around, the first tags, trimmed |
| Messages.PrintedEventIsOneFrame | pkg/proxy/messages_translator.go:738-752 | the second parser undoes the printer: one event, one frame with the event's text verbatim, no size premise |
| Messages.MessagesResponseWriter.ProcessSSE | pkg/proxy/messages_translator.go:709-756 | drains the buffer; state and frames are those of relaying its blocks |
| Messages.MessagesResponseWriter.Finish | pkg/proxy/messages_translator.go:758-789 | in a stream: relays the pending tail, then a final `[DONE]` |
| Pipeline.ServeMessages | pkg/proxy/messages_translator.go:683-791 | for every split into writes and flushes, the frame plaintexts are a function of the whole body |
| MessagesTheorems.OneFramePerEvent | pkg/proxy/messages_translator.go:709-756 | the TokenDelta payloads of a response are the texts of its translator events, in order |
| MessagesTheorems.StreamEndExactly | pkg/proxy/messages_translator.go:738-791 | at most one StreamEnd, and exactly one unless the first payload that trims to `[DONE]` is not literally `[DONE]` |
| MessagesTheorems.BlankLineBeforeDoneLosesStreamEnd | pkg/proxy/messages_translator.go:738-791 | a concrete body with a `message_stop` and no StreamEnd |
| MessagesTheorems.BodyIsMessageIff | pkg/proxy/messages_translator.go:431-791 | a body is sent as one whole message if and only if what it says after its first `[DONE]` is idle |
| MessagesTheorems.ClientReadsWholeBody | pkg/crypto/hpke.go:276-331 | the client splits and opens the wire bytes and reads the payloads of the whole body, numbered from 0 |
| Session.FrameNoncesDistinct | pkg/crypto/hpke.go:262-273 | frame nonces of different counters differ |
| Session.FrameNonceExactly | pkg/crypto/hpke.go:262-273 | the first eight bytes are the base IV's; the last four are, bit by bit, its exclusive or with the big-endian counter |
| Session.OpenFrameExactly | pkg/crypto/hpke.go:302-331 | a frame by offset: type, counter, length, ciphertext, authenticated with its header; and each error |
| Session.FrameRoundTrip | pkg/crypto/hpke.go:276-331 | a frame opens to its type, counter and payload if and only if the length fits its 32-bit header field |
| Session.StreamRoundTrip | pkg/crypto/hpke.go:276-331 | concatenated frames split into the frames by their headers, and open to the same payloads with counters 0 to n-1 |
| Session.StreamSplitsUniquely | pkg/crypto/hpke.go:276-331 | no other list of frames that fit their own headers has those bytes |
| Session.RequestRoundTrip | pkg/crypto/hpke.go:336-471 | the server recovers the plaintext and the client's response key and IV; the client succeeds if and only if the agreed secret has a byte that is not zero |
| Session.EnvelopeLayout | pkg/crypto/hpke.go:407-471 | the envelope by offset: public key, nonce, request sealed under the key of the empty salt; 60 bytes more than the request |
| Session.UnwrapExactly | pkg/crypto/hpke.go:336-403 | which envelopes the server takes, with which error otherwise, and the salt and label of each key it derives |
| Session.NoPairTwice | pkg/crypto/hpke.go:407-471 | two requests of one client: response keys, and IVs, agree only if the request nonces do, so a frame key and frame nonce come up again only for the same request and counter; request key, response key and IV are apart |
| Session.UnwrappedApart | pkg/crypto/hpke.go:336-403 | the same for any two envelopes the server takes from one client key |
| Session.ExchangeRoundTrip | pkg/crypto/hpke.go:276-471 | request and response together, each side with the keys it derived itself |
| Session.HPKESession.NextSeqNum | pkg/crypto/hpke.go:250-259 | counters are handed out once each, and refused at 2^32 - 1 |
| Session.HPKESession.EncryptFrame | pkg/crypto/hpke.go:276-297 | the frame of the next counter, or the overflow error |
| Session.HPKESession.DecryptFrame | pkg/crypto/hpke.go:302-331 | exactly `OpenFrame`, every error included |
| NonceCache.FreshExactly | pkg/auth/ed25519.go:331-344 | in saturating 64-bit arithmetic: within the skew, or 2^63 ns or more ahead |
| NonceCache.FarFutureIsFresh | pkg/auth/ed25519.go:331-344 | in 2024 a timestamp in 2318 passes |
| NonceCache.RunKeeps | pkg/auth/ed25519.go:360-409 | over every run, whatever clock readings in whatever order: map and queue agree, the queue is the end of the acceptance log and at most the limit, and what left it had expired or was evicted; without eviction, had expired |
| NonceCache.RunApart | pkg/auth/ed25519.go:331-409 | with readings late by at most `d`, acceptances of one nonce are the time to live less `d` apart, or more than the limit of acceptances apart; without eviction always the former |
| NonceCache.EvictionReplays | pkg/auth/ed25519.go:400-409 | that many acceptances are enough: at one instant a nonce, the limit of other nonces and the same nonce again are all accepted |
| NonceCache.RecentNonceRefused | pkg/auth/ed25519.go:360-409 | a nonce is refused until the time to live, less `d`, has passed or the limit of later acceptances is reached; without eviction, until the former |
| NonceCache.OldNonceAccepted | pkg/auth/ed25519.go:360-409 | and accepted again once every use of it is a time to live, one sweep period and `d` old |
| NonceCache.ReplayNeedsShortTtl | pkg/auth/ed25519.go:331-409 | a pair accepted twice, with no eviction or few acceptances between, was accepted at least the time to live less `d` apart, and at most twice the skew apart unless its timestamp was 2^63 ns or more ahead at the first use |
| NonceCache.NoReplayIff | pkg/auth/ed25519.go:331-409 | no run in which no step evicts, with readings late by at most `d` and every timestamp less than 2^63 ns ahead of its arrival, accepts a (nonce, timestamp) pair twice if and only if the time to live exceeds twice the skew plus `d`; for `d > 0` the only-if is for a skew of half a second or more, timestamps being whole seconds |
| NonceCache.LateReplays | pkg/auth/ed25519.go:331-361 | else a run of three requests that does: a reading overtaken by somebody else's sweep |
| NonceCache.FarFutureReplays | pkg/auth/ed25519.go:331-344 | whatever the limits, two requests in order with one timestamp of the year 5138, a time to live apart, are both accepted without eviction |
| NonceCache.DefaultsLeaveOneInstant | pkg/auth/ed25519.go:20-25 | at the defaults, with readings in order, a replay is exactly 60 s after the first use, the timestamp midway, or its timestamp was 2^63 ns or more ahead at the first use |
| EntrySlices.EntrySlice.CompactIfSparse | pkg/auth/ed25519.go:385-391 | compaction moves the live entries to a new array and changes none |
| EntrySlices.EntrySlice.Append | pkg/auth/ed25519.go:407-407 | appends in place or into a larger array, the rest kept |
| Canonical.DecodeInverts | pkg/auth/ed25519.go:175-190 | a decoder recovers all fields from the length-prefixed text |
| Canonical.LengthPrefixedInjective | pkg/auth/ed25519.go:175-190 | the length-prefixed text determines its fields |
| Canonical.LegacyUnambiguousIff | pkg/auth/ed25519.go:192-204 | the legacy text of a request determines its normalised fields, among all requests, if and only if no field holds a colon with white space on neither side |
| Canonical.LegacyCollision | pkg/auth/ed25519.go:192-204 | two requests with one legacy text, whatever the other fields: path `/a` and id `b:c`, path `/a:b` and id `c` |
| Canonical.LegacyInjective | pkg/auth/ed25519.go:192-204 | it is injective where all fields but the last are free of colons |
| Canonical.FormsAreDisjoint | pkg/auth/ed25519.go:175-204 | no length-prefixed text is a legacy text |
| Verifier.CanonicalTexts | pkg/auth/ed25519.go:175-204 | the two texts, field by field in their order, trimmed, the method in upper and the hash in lower case |
| Verifier.AcceptedIff | pkg/auth/ed25519.go:308-410 | a request is accepted if and only if its headers are there, its timestamp is a number in time, the key signed one of the two texts over its hash, and its nonce is new |
| Verifier.RefusedExactly | pkg/auth/ed25519.go:319-397 | otherwise the error is that of the first check that fails, in order, and only a replay can touch the cache |
| Verifier.TimestampsAreDecimal | pkg/auth/ed25519.go:331-335 | timestamps are decimal with an optional sign, within 64 bits |
| Verifier.PossessionAcceptedIff | pkg/auth/registration.go:23-122 | the same for an enrolment, signed over the claimed hash or the body's |
| Verifier.BodylessAcceptedIff | pkg/auth/ed25519.go:419-430 | the same without a body, signed over the empty one |
| Verifier.HeaderFirstServesIff | pkg/auth/ed25519.go:447-530 | on all three paths: a request is let through with its body if and only if headers, signature, nonce and size are in order and a claimed hash is the body's |
| Verifier.BodyErrors | pkg/auth/ed25519.go:447-530 | exactly when a body is called unreadable, too large or not the one claimed |
| Verifier.SignedRequestIsServed | pkg/auth/ed25519.go:538-565 | what either of the client's signing helpers signs is let through |
| Verifier.Ed25519Verifier.EnrollKey | pkg/auth/ed25519.go:108-124 | the first valid key is latched; every later call fails and changes nothing |
| Verifier.Ed25519Verifier.SweepNonces | pkg/auth/ed25519.go:371-394 | the loop on map, queue and slice, with compaction, is `Sweep` on the cache |
| Verifier.Ed25519Verifier.EvictNonces | pkg/auth/ed25519.go:400-404 | the eviction loop is `Evict` |
| Verifier.Ed25519Verifier.VerifyWithBodyHash | pkg/auth/ed25519.go:308-410 | result and cache are `Judge`: a bad signature or stale timestamp leaves the cache alone |
| Verifier.Ed25519Verifier.VerifyProofOfPossession | pkg/auth/registration.go:23-122 | the same for a candidate key, on the same cache |
| Verifier.Ed25519Verifier.VerifyHTTPRequestHeaderFirst | pkg/auth/ed25519.go:447-530 | all three paths are `HeaderFirst`; with a claimed hash the body is consumed only once the signature has passed and the nonce was new |
| Verifier.Ed25519Verifier.VerifyHTTPRequest | pkg/auth/ed25519.go:419-430 | the same without a body |
| Verifier.BodyUnseenUntilAccepted | pkg/auth/ed25519.go:466-507 | with a claimed hash or no body, requests that differ in their bodies alone get the same cache and acceptance, and the same error unless accepted |
| Verifier.HeaderFirstSound | pkg/auth/ed25519.go:447-530 | a body returned without error is the one the key signed for, under the hash of exactly that body, and its nonce was new and is recorded |
| Verifier.BodylessSound | pkg/auth/ed25519.go:419-430 | a request verified without a body was signed for the empty one |
| Verifier.PossessionSound | pkg/auth/registration.go:61-122 | an accepted proof of possession is a signature of the candidate key over a canonical text with the claimed hash or the hash of exactly that body, and its nonce was new and is recorded |
| Verifier.PossessionCoversBodyIff | pkg/auth/registration.go:67-84 | whatever signatures verify, an accepted possession covers the hash of its body if and only if no hash is claimed or the claim, normalised, is the hash of the body |
| Verifier.ChecksAreAttempt | pkg/auth/ed25519.go:319-358 | the header, time and signature checks pass exactly for signed and fresh attempts |
| ContextBudget.AlignContextLength | pkg/inference/context_sizing.go:267-301 | the bucket loop and the cases below 2048 amount to one snap from 512 |
| ContextBudget.AlignedExactly | pkg/inference/context_sizing.go:267-301 | the greatest bucket not above the target, or the least bucket; within a factor of two |
| ContextBudget.StreamBytesExactly | pkg/inference/context_sizing.go:407-425 | eight bytes for each layer, dimension and head on a GPU, which holds its whole share of the heads, or one |
| ContextBudget.RemainingExactly | pkg/inference/context_sizing.go:396-405 | what remains is the greatest number of MB that, with weights and 1536 MB for each GPU, is within nine tenths |
| ContextBudget.WeightExactly | pkg/inference/context_sizing.go:396-397 | the weights in whole MB, with defaults for what is not known |
| ContextBudget.RefusedIff | pkg/inference/context_sizing.go:189-235 | the exact conditions under which a model is refused, with and without GPUs |
| ContextBudget.CpuContextIsGreatest | pkg/inference/context_sizing.go:207-224 | without GPUs the context is the greatest bucket that the RAM left and the model allow |
| ContextBudget.GpuContextIsGreatest | pkg/inference/context_sizing.go:226-264 | with GPUs it is the greatest that what remains of theirs, at least 512 MB, and the model allow |
| ContextBudget.OtherwiseEffective | pkg/inference/supervisor.go:449-472 | what is asked for is given; the unknown keeps its native context or 4096; weights that leave nothing give 2048 |
| ContextBudget.ClampFitsIff | pkg/inference/context_sizing.go:385-447 | a clamped context fits the memory left on two streams exactly when 512 tokens do |
| ContextBudget.ClampIsTight | pkg/inference/context_sizing.go:385-447 | a clamped context is a bucket within a factor of two of what fits and what the model supports |
| ContextBudget.UnclampedIff | pkg/inference/context_sizing.go:429-440 | there is no clamp exactly when the native context overshoots by less than 1 MiB |
| ContextBudget.UnclampedMayOvershoot | pkg/inference/context_sizing.go:429-440 | a model one token too long that is not clamped |
| ContextBudget.ClampIsViable | pkg/inference/context_sizing.go:189-264 | a clamp never exceeds what `CalculateMaxViableContext` returns, and equals it once 512 MB are left |
| ContextBudget.MoreMemoryMoreContext | pkg/inference/supervisor.go:449-472 | more memory on the same GPUs never gives a shorter context, once some is left and the model supports 512 tokens |
| ContextBudget.MoreMemoryLessContextIff | pkg/inference/supervisor.go:449-472 | with no request it gives a shorter one in exactly two cases: the first memory left replaces the fixed 2048 by less, or a model of fewer than 512 tokens is no longer clamped to 512 |
| ContextBudget.LessAtTheFirstMegabyte | pkg/inference/context_sizing.go:404-411 | a machine where the context falls from 2048 to 512 as memory becomes positive |
| ContextBudget.ShortModelsShrink | pkg/inference/context_sizing.go:429-445 | a model of 300 tokens that is given 512 when memory is short and 300 when it is not |
| Checksum.ComputeIpChecksum | pkg/network/interface.go:171-183 | the loops with 32-bit wrap-around and end-around fold |
| Checksum.FoldIsResidue | pkg/network/interface.go:179-181 | folding keeps the value modulo 65535 and never turns non-zero into zero |
| Checksum.ChecksumIsOnesComplement | pkg/network/interface.go:171-183 | up to 131074 bytes it is word-by-word one's-complement addition (RFC 1071, section 1) |
| Checksum.LongBuffersLoseACarry | pkg/network/interface.go:171-183 | one word more and it need not be |
| Checksum.SelfCheckExactly | pkg/network/interface.go:199-211 | writing the checksum into a zeroed word makes the checksum zero, at any length; up to 131074 bytes no other word does but 0xFFFF for 0 |
| Checksum.OneWordChangeShows | pkg/network/interface.go:171-183 | a change of one word changes the checksum, except between 0 and 0xFFFF |
| Checksum.OddIsPadded | pkg/network/interface.go:176-178 | an odd byte at the end counts as if a zero byte followed (RFC 1071, section 1) |
| Checksum.FrameBroadcasts | pkg/network/interface.go:185-220 | the frame by offset: broadcast, IPv4, UDP from 0.0.0.0:68 to 255.255.255.255:67, both lengths, payload |
| Checksum.BuildEthernetIPv4UDP | pkg/network/interface.go:185-220 | the whole frame, in place; the receiver's checksum over its IP header is zero |
| DhcpOptions.ReadOptions | pkg/network/interface.go:327-357 | on any bytes the loop ends, stays in range and applies the items found, in order |
| DhcpOptions.BytesAreItemsAndRest | pkg/network/interface.go:327-357 | any bytes are the encoding of the items found and a rest that is empty, starts with End, or is an item cut short |
| DhcpOptions.EncodeInjective | pkg/network/interface.go:327-357 | two lists of items with the same bytes up to End are the same list |
| DhcpOptions.ReadsWhatWasSent | pkg/network/interface.go:327-357 | options with pads, then End and any junk, are read as the options (RFC 2132, sections 2 and 3) |
| DhcpOptions.ReadsUpToTheCut | pkg/network/interface.go:336-345 | so they are when the packet is cut inside a later option |
| DhcpOptions.LastOptionCounts | pkg/network/interface.go:346-355 | message type, mask, router and server are each the data of the last option of that code that fits |
| Binding.ReportDataBinds | pkg/attestation/binding.go:17-40 | 64 bytes that verify for one claim verify for every claim with the same keys, nonce and evidence; two claims for which they verify agree in these, or exhibit a SHA-256 collision or a zero-digest preimage |
| Binding.ReportDataLayout | pkg/attestation/binding.go:17-32 | the layout by offset: fingerprint, then the digest of key, nonce, evidence digest or zeros, and authorised key |
| Binding.BoundaryIsFree | pkg/attestation/binding.go:21-25 | bytes move freely between report and chain |
| Visibility.VisibilityManager.UpdatePolicy | pkg/proxy/visibility.go:70-127 | endpoint by endpoint, what is given before the first bad setting is set and the rest is kept; an update is accepted if and only if each text in it says "public" or "hidden", and then followed |
| Visibility.UpdateFollowsText | pkg/proxy/visibility.go:70-127 | after an accepted update an endpoint is hidden if and only if its text, trimmed and in lower case, is "hidden", and public if and only if it is "public"; one not given keeps its setting |
| Visibility.RefusedUpdateKeepsIff | pkg/proxy/visibility.go:70-127 | a refused update leaves the policy alone exactly when the settings before the bad one are those in force |
| Node.RunKeeps | pkg/proxy/server.go:221-506 | the invariant of every interleaving of handlers |
| Node.PolicyChangeIsSigned | pkg/proxy/server.go:221-262 | a step that changes the policy applies the update in a body the enrolled key signed for that request, and appends exactly that action with an acceptance of its own |
| Node.SealIsSigned | pkg/proxy/seal_handler.go:91-156 | a step that seals is that of a signed seal request that asked for force or found the engine ready, after egress was locked, and appends exactly that action |
| Node.SealWasAnswered | pkg/proxy/seal_handler.go:125-142 | and the firewall had answered yes to that very request, once it was approved |
| Node.KeyIsProved | pkg/proxy/enrollment.go:92-108 | a step that enrols a key is that of an enrolment request whose body names the key, and that key signed this request, over the claimed hash or the hash of that body |
| Node.MoveEffects | pkg/proxy/server.go:221-506 | nothing shared changes but by the handler in charge of it, in the phase for it |
| Node.LatchesHold | pkg/auth/ed25519.go:108-124 | in every continuation of every run a latched key stays the key, and sealed stays sealed |
| Node.OneEnrolment | pkg/proxy/enrollment.go:49-112 | at most one enrolment succeeds, and none where a valid key was given at launch |
| Node.SealedMeansLocked | pkg/proxy/seal_handler.go:91-156 | over every run, sealed implies enrolled and an earlier step in which the firewall answered yes to an approved seal request |
| Node.DocumentNamesTheKey | pkg/proxy/enrollment.go:101-108 | over every run, the attestation document names no key but the enrolled one, though each handler writes its own |
| Node.ActionsAreOwned | pkg/proxy/visibility.go:139-191 | each action rests on an acceptance of its own under the enrolled key, which signed this request for the very body acted on; or it is a guarded read that came in before the seal, whose handler saw the node without a key, at attestation or certificate, or saw its endpoint public and after that the node unsealed |
| Node.PerformedIsLogged | pkg/proxy/server.go:221-506 | over every run, a request other than an enrolment is performed only with an action of its own in the list |
| Node.RunTraced | pkg/proxy/visibility.go:139-191 | what a handler goes by was so in the run when it looked |
| Node.EntriesAreNotShared | pkg/proxy/visibility.go:139-191 | no two actions rest on the same acceptance |
| Node.NoLoadAfterSeal | pkg/proxy/server.go:275-282 | a load that comes in after the seal is never carried out |
| Node.LoadMayFollowSeal | pkg/proxy/server.go:268-330 | for any load and forced seal that the verifier lets through one after the other, a run in which the load, having come in before, is carried out in the sealed node |
| Node.NodeCacheIsRun | pkg/auth/registration.go:83-122 | the node's cache and log are a run of the cache model, over all that write it: both verifiers and the second look of the health handler |
| Node.NoncesAreFarApart | pkg/auth/ed25519.go:360-409 | two acceptances of one nonce, by handlers of any kind, are the time to live less `d` apart, or, where something was evicted, more than the limit of acceptances apart |
| Node.PathsOfRoutes | pkg/proxy/server.go:145-371 | which methods and paths reach which handler |
| NodePaths.ChangesByPath | pkg/proxy/server.go:145-371 | over every run: policy, seal and key change only by a POST to the path meant for it |
| NodePaths.UnsignedPaths | pkg/proxy/visibility.go:139-191 | over every run: whatever is done unsigned is a read at one of eight paths, before enrolment at those of attestation and certificate, later at those the policy made public on an unsealed node |
| NodePaths.PolicyWasChanged | pkg/proxy/visibility.go:40-60 | the egress probe is public, or another endpoint hidden, only after a step that changed the policy |
| NodePaths.EnrolmentCanSucceed | pkg/proxy/enrollment.go:49-129 | a node without a key enrols whoever signed for the key in the body, by either path, and its document names that key |
| NodeService.SignedRequestsAreServed | pkg/proxy/server.go:221-506 | a request the verifier lets through is carried out on a node with that key: a load, a policy update, which takes effect, a hidden egress probe, and inference once the engine is ready |
| NodeService.SignedReadsAreServed | pkg/proxy/server.go:221-375 | so are reads of policy and models signed over the empty body |
| NodeService.UnsignedReadsAreServed | pkg/proxy/visibility.go:139-191 | attestation, certificate and health are served unsigned at launch, the first two also before enrolment |
| Supervisor.Fields.BeginLoad | pkg/inference/supervisor.go:394-407 | the region that stops the old engine |
| Supervisor.Fields.Configure | pkg/inference/supervisor.go:449-480 | context resolution and configuration |
| Supervisor.Fields.EngineGone | pkg/inference/supervisor.go:1240-1315 | the clean-up of an exited, cancelled or timed-out engine |
| Supervisor.Fields.ProbeFailed | pkg/inference/supervisor.go:203-208 | the region of a third missed probe |
| Supervisor.StrikesAtThirdMiss | pkg/inference/supervisor.go:161-222 | over every interleaving: a prober takes readiness and handle away exactly at its third missed probe with neither a good probe nor activity between, and until then a miss touches nothing shared |
| Supervisor.ReadyIsHonest | pkg/inference/supervisor.go:394-498 | over every interleaving: a ready engine's model, contexts, exposure and backend are those of the load that last reported healthy, and its context is positive |
| Supervisor.OldMonitorIsHarmless | pkg/inference/supervisor.go:1285-1300 | the exit monitor of an older command never clears a newer handle or readiness |
| Supervisor.ReadyHasHandleIff | pkg/inference/supervisor.go:200-212 | a ready engine has its handle exactly when no prober struck while it was polled |
| Supervisor.ReadyHasProberIff | pkg/inference/supervisor.go:1269-1302 | a ready engine has a live prober, and its cancellation at hand, exactly when no exit monitor ran since it reported healthy |
| Supervisor.ReadyWithoutHandle | pkg/inference/supervisor.go:161-222 | an interleaving that makes an engine ready without handle, with a fatal error set |
| Supervisor.ReadyWithoutProber | pkg/inference/supervisor.go:1285-1298 | an interleaving in which an old monitor cancels the new prober |
| Supervisor.LoadCanSucceed | pkg/inference/supervisor.go:1155-1302 | from any idle state a load can get its engine ready |
| Supervisor.FailedLoadCanBeRetried | pkg/inference/supervisor.go:394-498 | over every interleaving: a load that fails, at whatever stage, leaves no ready engine, and the next one can succeed |

## Left out

- Protobuf frames and envelopes (`pkg/crypto/hpke_proto.go`, `isProtobuf`): they rest on a library.
- Responder.HpkeResponseWriter.WriteEncryptedSSEBlock: the protobuf branch is not modelled, for the same reason.
- Responder.HpkeResponseWriter.Finish: nor is its protobuf branch, nor the response headers it sets.
- Messages.MessagesResponseWriter.Finish: only the streaming half; the other converts JSON.
- The one-shot payload encryption of `pkg/crypto/hpke.go:54-200`: the same primitives in a simpler arrangement.
- The unary conversions between Messages and OpenAI JSON: they rest on the JSON library; a chunk is modelled as parsed.
- Header plumbing: content types and status codes are inputs of the writers, and the signed fields of a request are given rather than read from its headers.
- A response writer without a session, activity callbacks, and errors of the underlying connection.
- The initialisation nonce, time and random identifiers: `msgID`, the envelope nonce and the IP identification are inputs.
- Slice growth: `append` grows to twice the length plus one where Go's factor varies; a capacity never shows in a result.
- One clock: wall and monotonic readings are not told apart.
- Letter cases of non-ASCII methods and hashes: the two case mappings are parameters.
- ContextBudget.EvaluateVRAMContextBudget: floats are exact reals with truncation, so rounding of 0.90 and 0.92 is not modelled; nor is 64-bit overflow of byte counts.
- ContextBudget.CalculateMaxViableContext: the same, and error texts are reduced to their two kinds.
- Model-name heuristics, configuration files and parser selection that fill the architecture figures.
- Sending and receiving DHCP packets, and the packet filters before the option loop.
- Node.RunKeeps: handlers are steps on values, not methods on objects, because the property is about their interleaving; the regions they call are proved on objects in `Verifier` and `Visibility`. What a load, an inference or a probe then does, and redirects of the request multiplexer, are not modelled.
- Supervisor.RunKeeps: the goroutines are steps on values for the same reason; process launch and kill, logs and the reclaiming of memory are not modelled.
- Test hooks that force readiness or the seal.
- The key schedule of RFC 9180: the code has its own, and derivation is a parameter here.
