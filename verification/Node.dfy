/** The life of a node: enrolment, seal, model loads, policy changes, inference and guarded reads
    (`pkg/proxy/enrollment.go`, `seal_handler.go`, `visibility.go`, `server.go`) as request handlers whose
    steps interleave freely.  Each step is one atomic read, one write, or one region under a lock. */
module Node {
  import opened Wrappers
  import opened NonceCache
  import opened Canonical
  import opened Verifier
  import opened Visibility

  /** `parseKey`, `parseForce` and `parseUpdate` are what JSON decoding makes of a body. */
  datatype Env = Env(suite: Suite, lim: Limits, limit: int, created: int, hasDoc: bool,
                     parseKey: string -> Option<string>, parseForce: string -> bool,
                     parseUpdate: string -> Option<Update>)

  const ENROLL_LIMIT: int := 1024 * 1024

  // ---------- routes ----------

  datatype Route =
    | EnrollKey | SealNode | LoadModel | SetPolicy | ReadPolicy | ListModels
    | Guarded(endpoint: Endpoint) | Root | NotAllowed

  function Posted(verb: string, route: Route): Route { if verb == "POST" then route else NotAllowed }

  /** The paths the server registers; everything else goes to the root handler. */
  function RouteOf(verb: string, path: string): Route {
    if path == "/v1/auth/register" || path == "/v1/auth/enroll" then Posted(verb, EnrollKey)
    else if path == "/v1/system/seal" then Posted(verb, SealNode)
    else if path == "/v1/models/load" then Posted(verb, LoadModel)
    else if path == "/v1/admin/visibility" then if verb == "GET" then ReadPolicy else Posted(verb, SetPolicy)
    else if path == "/v1/models" then if verb == "GET" then ListModels else NotAllowed
    else if || path == "/v1/attestation" || path == "/.well-known/cevell-attestation"
            || path == "/.well-known/attestation" then Guarded(Attestation)
    else if path == "/v1/attestation/certificate" || path == "/.well-known/cevell-certificate" then Guarded(Certificate)
    else if path == "/v1/health" || path == "/health" then Guarded(Health)
    else if path == "/v1/system/probe-egress" then Guarded(ProbeEgress)
    else Root
  }

  const ATTESTATION_PATHS: set<string> :=
    {"/v1/attestation", "/.well-known/cevell-attestation", "/.well-known/attestation"}
  const CERTIFICATE_PATHS: set<string> := {"/v1/attestation/certificate", "/.well-known/cevell-certificate"}
  const HEALTH_PATHS: set<string> := {"/v1/health", "/health"}

  /** Registered paths of one length. */
  lemma PathsDiffer()
    ensures "/v1/auth/enroll" != "/v1/system/seal" && "/v1/auth/enroll" != "/v1/models/load"
    ensures "/v1/auth/enroll" != "/v1/attestation" && "/v1/system/seal" != "/v1/models/load"
    ensures "/v1/system/seal" != "/v1/attestation" && "/v1/models/load" != "/v1/attestation"
    ensures "/v1/models" != "/v1/health"
  {
    assert "/v1/auth/enroll"[4] == 'a' && "/v1/auth/enroll"[5] == 'u' && "/v1/system/seal"[4] == 's';
    assert "/v1/models/load"[4] == 'm' && "/v1/attestation"[4] == 'a' && "/v1/attestation"[5] == 't';
    assert "/v1/models"[4] == 'm' && "/v1/health"[4] == 'h';
  }

  /** Which requests reach which handler. */
  lemma PathsOfRoutes(verb: string, path: string)
    ensures RouteOf(verb, path) == EnrollKey <==> verb == "POST" && path in {"/v1/auth/register", "/v1/auth/enroll"}
    ensures RouteOf(verb, path) == SealNode <==> verb == "POST" && path == "/v1/system/seal"
    ensures RouteOf(verb, path) == LoadModel <==> verb == "POST" && path == "/v1/models/load"
    ensures RouteOf(verb, path) == SetPolicy <==> verb == "POST" && path == "/v1/admin/visibility"
    ensures RouteOf(verb, path) == Guarded(Attestation) <==> path in ATTESTATION_PATHS
    ensures RouteOf(verb, path) == Guarded(Certificate) <==> path in CERTIFICATE_PATHS
    ensures RouteOf(verb, path) == Guarded(Health) <==> path in HEALTH_PATHS
    ensures RouteOf(verb, path) == Guarded(ProbeEgress) <==> path == "/v1/system/probe-egress"
    ensures RouteOf(verb, path) != Guarded(Unlisted)
  {
    PathsDiffer();
  }

  predicate RequiresAuthPath(path: string) { "/v1/" <= path || "/tokenize" <= path || "/detokenize" <= path }

  predicate IsInference(path: string) {
    || "/v1/chat/completions" <= path || "/v1/completions" <= path || "/v1/embeddings" <= path
    || "/tokenize" <= path || "/detokenize" <= path || "/v1/messages" <= path
  }

  // ---------- state ----------

  /** Why a request was let through without a signature, and after how many steps of the run that was seen. */
  datatype Reason =
    | Unenrolled(at: nat)
    | PublicAndUnsealed(readAt: nat, sealAt: nat)
    | Unprotected

  /** What an action rests on: the handler's own entry in the acceptance log and the body that was signed, or
      a reason to ask for none. */
  datatype Basis = Authorised(entry: nat, body: string) | Unauthenticated(why: Reason)

  datatype Outcome = Refused | AlreadySealed | Performed

  datatype Phase =
    | New
    | Checked                                             // enrolment seen
    | PolicyRead(setting: Setting, at: nat)
    | NeedAuth
    | KeyRead(key: string)
    | Authed(entry: nat, body: string)
    | Approved(entry: nat, body: string, at: nat)         // seal: force, or the engine was ready
    | LockedDown(entry: nat, body: string, at: nat)       // seal: egress is locked
    | Open(why: Reason)
    | Rechecking(basis: Basis, key: string)               // health: may the model be named?
    | Serving(basis: Basis)
    | KeySet(key: string)                                 // enrolment: the key is latched
    | Done(outcome: Outcome)

  /** `startedSealed` is history: the node was sealed when the request came in. */
  datatype Handler = Handler(route: Route, req: Incoming, startedSealed: bool, phase: Phase)

  /** `enroller` is history: who latched the key. */
  datatype Shared = Shared(isEnrolled: bool, publicKey: string, cache: Cache, sealed: bool, egressLocked: bool,
                           engineReady: bool, policy: Policy, docKey: Option<string>, enroller: Option<nat>)

  /** One acceptance: by which handler, under which key, of what, and when. */
  datatype LogEntry = LogEntry(owner: nat, key: string, signed: Signed, at: int)

  /** One thing done for a client. */
  datatype Action = Action(owner: nat, basis: Basis)

  /** `past` is history: the shared state before each step so far. */
  datatype State = State(shared: Shared, handlers: seq<Handler>, log: seq<LogEntry>, actions: seq<Action>,
                         attempts: seq<Attempt>, past: seq<Shared>)

  // ---------- steps ----------

  datatype Effect = Effect(shared: Shared, phase: Phase, entries: seq<LogEntry>, acts: seq<Action>,
                           attempts: seq<Attempt>)

  function Only(sh: Shared, phase: Phase): Effect { Effect(sh, phase, [], [], []) }

  function Perform(sh: Shared, i: nat, basis: Basis): Effect {
    Effect(sh, Done(Performed), [], [Action(i, basis)], [])
  }

  function ReadKey(sh: Shared): Effect {
    Only(sh, if sh.isEnrolled then KeyRead(sh.publicKey) else Done(Refused))
  }

  /** What a handler makes of the verifier's answer: an accepted nonce is its entry in the log. */
  function Answered(sh: Shared, entry: LogEntry, attempt: Attempt, a: Answer, next: nat): Effect {
    Effect(sh.(cache := a.cache), if a.result.Ok? then Authed(next, a.result.value) else Done(Refused),
           if a.accepted then [entry] else [], [], [attempt])
  }

  function AttemptFor(env: Env, key: string, now: int, over: Signed, sig: string): Attempt {
    AttemptOf(now, over, sig, CheckSignature(env.suite, key, over, sig))
  }

  /** `VerifyHTTPRequestHeaderFirst` with the key it read. */
  function Authenticate(env: Env, sh: Shared, i: nat, req: Incoming, key: string, now: int, next: nat): Effect {
    match AuthOver(env.suite, req, env.limit)
    case Err(_) => Only(sh, Done(Refused))
    case Ok(over) =>
      Answered(sh, LogEntry(i, key, over, now), AttemptFor(env, key, now, over, req.sig),
               HeaderFirst(env.suite, key, env.lim, sh.cache, now, req, env.limit), next)
  }

  function Bodiless(env: Env, req: Incoming): Signed { req.signed.(bodyHash := env.suite.digestHex("")) }

  function AnswerBodiless(env: Env, sh: Shared, key: string, now: int, req: Incoming): Answer {
    var j := Bodyless(env.suite, key, env.lim, sh.cache, now, req);
    Answer(j.cache, j.error.None?, if j.error.None? then Ok("") else Err(j.error.value))
  }

  /** `VerifyHTTPRequest` without a body. */
  function AuthenticateBodiless(env: Env, sh: Shared, i: nat, req: Incoming, key: string, now: int, next: nat): Effect {
    Answered(sh, LogEntry(i, key, Bodiless(env, req), now), AttemptFor(env, key, now, Bodiless(env, req), req.sig),
             AnswerBodiless(env, sh, key, now, req), next)
  }

  /** The health handler verifies once more, only to decide whether it names the model. */
  function Recheck(env: Env, sh: Shared, i: nat, h: Handler, basis: Basis, key: string, now: int, next: nat): Effect {
    AuthenticateBodiless(env, sh, i, h.req, key, now, next).(phase := Serving(basis))
  }

  /** `VerifyProofOfPossession`. */
  function ProvePossession(env: Env, sh: Shared, i: nat, req: Incoming, now: int, next: nat): Effect {
    var body := ReadContent(req.body, ENROLL_LIMIT);
    if body.Err? || env.parseKey(body.value).None? || |env.parseKey(body.value).value| != PUBLIC_KEY_SIZE
    then Only(sh, Done(Refused))
    else
      var key := env.parseKey(body.value).value;
      var possession := CheckPossession(env.suite, key, req.signed, body.value, req.sig);
      var j := Judge(env.lim, sh.cache, now, req.signed, req.sig, possession);
      Answered(sh, LogEntry(i, key, req.signed, now), AttemptOf(now, req.signed, req.sig, possession),
               Answer(j.cache, j.error.None?, if j.error.None? then Ok(body.value) else Err(j.error.value)), next)
  }

  function MoveEnroll(env: Env, sh: Shared, i: nat, h: Handler, now: int, next: nat): Effect {
    match h.phase
    case New => Only(sh, if sh.isEnrolled then Done(Refused) else Checked)
    case Checked => ProvePossession(env, sh, i, h.req, now, next)
    case Authed(_, body) =>
      var key := env.parseKey(body);
      if sh.isEnrolled || key.None? || |key.value| != PUBLIC_KEY_SIZE then Only(sh, Done(Refused))
      else Only(sh.(isEnrolled := true, publicKey := key.value, enroller := Some(i)), KeySet(key.value))
    case KeySet(key) => Only(if env.hasDoc then sh.(docKey := Some(key)) else sh, Done(Performed))
    case p => Only(sh, p)
  }

  function MoveSeal(env: Env, sh: Shared, i: nat, h: Handler, ok: bool, at: nat): Effect {
    match h.phase
    case New => Only(sh, if sh.sealed then Done(AlreadySealed) else NeedAuth)
    case Authed(e, body) =>
      Only(sh, if env.parseForce(body) || sh.engineReady then Approved(e, body, at) else Done(Refused))
    case Approved(e, body, check) =>
      if ok then Only(sh.(egressLocked := true), LockedDown(e, body, check)) else Only(sh, Done(Refused))
    case LockedDown(e, body, _) => Perform(sh.(sealed := true), i, Authorised(e, body))
    case p => Only(sh, p)
  }

  /** `ok`: the body is a load request. */
  function MoveLoad(sh: Shared, i: nat, h: Handler, ok: bool): Effect {
    match h.phase
    case New => Only(sh, if sh.sealed then Done(Refused) else NeedAuth)
    case Authed(e, body) => if ok then Perform(sh, i, Authorised(e, body)) else Only(sh, Done(Refused))
    case p => Only(sh, p)
  }

  function MovePolicy(env: Env, sh: Shared, i: nat, h: Handler): Effect {
    match h.phase
    case New => Only(sh, if sh.isEnrolled then NeedAuth else Done(Refused))
    case Authed(e, body) =>
      var u := env.parseUpdate(body);
      if u.None? then Only(sh, Done(Refused))
      else Perform(sh.(policy := PolicyAfter(env.suite.letters, sh.policy, u.value)), i, Authorised(e, body))
    case p => Only(sh, p)
  }

  /** Reading the policy, or the list of models. */
  function MoveRead(sh: Shared, i: nat, h: Handler): Effect {
    match h.phase
    case New => Only(sh, if h.route.ListModels? || sh.isEnrolled then NeedAuth else Done(Refused))
    case Authed(e, body) => Perform(sh, i, Authorised(e, body))
    case p => Only(sh, p)
  }

  /** `ok`: the media type, the envelope and the request are good. */
  function Infer(sh: Shared, i: nat, path: string, ok: bool, basis: Basis): Effect {
    if IsInference(path) && ok && sh.engineReady then Perform(sh, i, basis) else Only(sh, Done(Refused))
  }

  function MoveRoot(sh: Shared, i: nat, h: Handler, ok: bool): Effect {
    var path := h.req.signed.path;
    match h.phase
    case New => Only(sh, if sh.isEnrolled then Checked else Done(Refused))
    case Checked => Only(sh, if sh.sealed || RequiresAuthPath(path) then NeedAuth else Open(Unprotected))
    case Authed(e, body) => Infer(sh, i, path, ok, Authorised(e, body))
    case Open(why) => Infer(sh, i, path, ok, Unauthenticated(why))
    case p => Only(sh, p)
  }

  /** A guarded request that was let through; `ok`: the model may be named anyway. */
  function Admitted(sh: Shared, i: nat, endpoint: Endpoint, ok: bool, basis: Basis): Effect {
    if endpoint != Health || ok || !sh.isEnrolled then Perform(sh, i, basis)
    else Only(sh, Rechecking(basis, sh.publicKey))
  }

  function MoveGuarded(sh: Shared, i: nat, h: Handler, endpoint: Endpoint, ok: bool, at: nat): Effect {
    match h.phase
    case New =>
      Only(sh, if sh.isEnrolled then Checked
               else if endpoint == Attestation || endpoint == Certificate then Open(Unenrolled(at)) else Done(Refused))
    case Checked => Only(sh, PolicyRead(SettingOf(sh.policy, endpoint), at))
    case PolicyRead(setting, readAt) =>
      Only(sh, if sh.sealed || setting == Hidden then NeedAuth else Open(PublicAndUnsealed(readAt, at)))
    case Authed(e, body) => Admitted(sh, i, endpoint, ok, Authorised(e, body))
    case Open(why) => Admitted(sh, i, endpoint, ok, Unauthenticated(why))
    case Serving(basis) => Perform(sh, i, basis)
    case p => Only(sh, p)
  }

  function MoveOwn(env: Env, sh: Shared, i: nat, h: Handler, now: int, ok: bool, next: nat, at: nat): Effect {
    match h.route
    case EnrollKey => MoveEnroll(env, sh, i, h, now, next)
    case SealNode => MoveSeal(env, sh, i, h, ok, at)
    case LoadModel => MoveLoad(sh, i, h, ok)
    case SetPolicy => MovePolicy(env, sh, i, h)
    case ReadPolicy => MoveRead(sh, i, h)
    case ListModels => MoveRead(sh, i, h)
    case Guarded(endpoint) => MoveGuarded(sh, i, h, endpoint, ok, at)
    case Root => MoveRoot(sh, i, h, ok)
    case NotAllowed => Only(sh, if h.phase.New? then Done(Refused) else h.phase)
  }

  /** The next step of handler `i`, the `at`-th of the run; `ok` is what the world outside answers, where it is
      asked.  All but enrolment authenticate alike: the key is read first, the verifier asked in a second
      step. */
  function Move(env: Env, sh: Shared, i: nat, h: Handler, now: int, ok: bool, next: nat, at: nat): Effect {
    match h.phase
    case NeedAuth => ReadKey(sh)
    case KeyRead(key) =>
      if h.route.ReadPolicy? || h.route.ListModels? then AuthenticateBodiless(env, sh, i, h.req, key, now, next)
      else Authenticate(env, sh, i, h.req, key, now, next)
    case Rechecking(basis, key) => Recheck(env, sh, i, h, basis, key, now, next)
    case _ => MoveOwn(env, sh, i, h, now, ok, next, at)
  }

  datatype Event = Arrive(req: Incoming) | Go(i: nat, now: int, ok: bool) | EngineIs(ready: bool)

  function NewHandler(sh: Shared, req: Incoming): Handler {
    Handler(RouteOf(req.signed.verb, req.signed.path), req, sh.sealed, New)
  }

  function After(s: State, i: nat, f: Effect): State
    requires i < |s.handlers|
  {
    s.(shared := f.shared, handlers := s.handlers[i := s.handlers[i].(phase := f.phase)], log := s.log + f.entries,
       actions := s.actions + f.acts, attempts := s.attempts + f.attempts)
  }

  function MoveOf(env: Env, s: State, i: nat, now: int, ok: bool): Effect
    requires i < |s.handlers|
  {
    Move(env, s.shared, i, s.handlers[i], now, ok, |s.log|, |s.past|)
  }

  function Change(env: Env, s: State, e: Event): State {
    match e
    case Arrive(req) => s.(handlers := s.handlers + [NewHandler(s.shared, req)])
    case Go(i, now, ok) => if i < |s.handlers| then After(s, i, MoveOf(env, s, i, now, ok)) else s
    case EngineIs(ready) => s.(shared := s.shared.(engineReady := ready))
  }

  function Step(env: Env, s: State, e: Event): State {
    Change(env, s, e).(past := s.past + [s.shared])
  }

  /** `launchKey` is the key given at launch, or empty; only a key of the right length enrols. */
  function Initial(env: Env, launchKey: string): State {
    State(Shared(|launchKey| == PUBLIC_KEY_SIZE, launchKey, EmptyCache(env.created), false, false, false, DEFAULT_POLICY,
                 None, None), [], [], [], [], [])
  }

  function Run(env: Env, launchKey: string, events: seq<Event>): State {
    if events == [] then Initial(env, launchKey)
    else Step(env, Run(env, launchKey, events[..|events| - 1]), events[|events| - 1])
  }

  lemma RunSnoc(env: Env, launchKey: string, events: seq<Event>, e: Event)
    ensures Run(env, launchKey, events + [e]) == Step(env, Run(env, launchKey, events), e)
  {
    assert (events + [e])[..|events|] == events;
  }

  lemma PastSnoc(env: Env, launchKey: string, events: seq<Event>)
    requires events != []
    ensures var before := Run(env, launchKey, events[..|events| - 1]);
            Run(env, launchKey, events).past == before.past + [before.shared]
  {
  }

  lemma {:induction false} PastLength(env: Env, launchKey: string, events: seq<Event>)
    ensures |Run(env, launchKey, events).past| == |events|
  {
    hide Change;
    if events != [] {
      PastLength(env, launchKey, events[..|events| - 1]);
      PastSnoc(env, launchKey, events);
    }
  }

  /** The history is the run's own: `past[k]` is the shared state after the first `k` steps. */
  lemma {:induction false} PastIsRun(env: Env, launchKey: string, events: seq<Event>, k: nat)
    requires k < |events|
    ensures k < |Run(env, launchKey, events).past|
    ensures Run(env, launchKey, events).past[k] == Run(env, launchKey, events[..k]).shared
    decreases |events|
  {
    hide Change;
    var init := events[..|events| - 1];
    PastSnoc(env, launchKey, events);
    PastLength(env, launchKey, init);
    if k < |init| {
      PastIsRun(env, launchKey, init, k);
      assert init[..k] == events[..k];
    }
  }

  // ---------- what every interleaving keeps ----------

  /** The key signed the hash of `body`, for this request's verb and path. */
  ghost predicate SignedBody(env: Env, key: string, h: Handler, body: string) {
    SignedFor(env.suite, key, h.req.signed, h.req.sig, body)
  }

  /** The entry is the handler's own: under the enrolled key, which signed the body; or for an enrolment under
      the candidate key in the body, whose possession was checked. */
  ghost predicate Owns(env: Env, sh: Shared, log: seq<LogEntry>, i: nat, h: Handler, e: nat, body: string) {
    && e < |log| && log[e].owner == i
    && (if h.route.EnrollKey?
        then && env.parseKey(body) == Some(log[e].key)
             && CheckPossession(env.suite, log[e].key, h.req.signed, body, h.req.sig).None?
        else sh.isEnrolled && log[e].key == sh.publicKey && SignedBody(env, sh.publicKey, h, body))
  }

  ghost predicate BasisOk(env: Env, sh: Shared, log: seq<LogEntry>, i: nat, h: Handler, basis: Basis) {
    match basis
    case Authorised(e, body) => Owns(env, sh, log, i, h, e, body)
    case Unauthenticated(why) => h.route.Guarded? && !why.Unprotected? && !h.startedSealed
  }

  ghost predicate PhaseOk(env: Env, sh: Shared, log: seq<LogEntry>, i: nat, h: Handler) {
    && (h.startedSealed ==> sh.sealed)
    && (h.route.LoadModel? && h.startedSealed ==> h.phase == New || h.phase == Done(Refused))
    && match h.phase
       case NeedAuth => !h.route.EnrollKey?
       case KeyRead(key) => sh.isEnrolled && key == sh.publicKey && !h.route.EnrollKey?
       case Authed(e, body) => Owns(env, sh, log, i, h, e, body)
       case Approved(e, body, _) => Owns(env, sh, log, i, h, e, body) && h.route.SealNode?
       case LockedDown(e, body, _) => Owns(env, sh, log, i, h, e, body) && h.route.SealNode? && sh.egressLocked
       case Open(why) =>
         && !h.startedSealed
         && (if why.Unprotected? then h.route.Root? && !RequiresAuthPath(h.req.signed.path) else h.route.Guarded?)
       case Rechecking(basis, key) => h.route.Guarded? && BasisOk(env, sh, log, i, h, basis)
       case Serving(basis) => h.route.Guarded? && BasisOk(env, sh, log, i, h, basis)
       case KeySet(key) => h.route.EnrollKey? && sh.isEnrolled && sh.publicKey == key && sh.enroller == Some(i)
       case Done(o) => o == Performed && h.route.EnrollKey? ==> sh.isEnrolled && sh.enroller == Some(i)
       case _ => true
  }

  ghost predicate ActionOk(env: Env, sh: Shared, log: seq<LogEntry>, h: Handler, a: Action) {
    && h.phase.Done?
    && !h.route.EnrollKey?
    && (h.route.LoadModel? ==> !h.startedSealed)
    && BasisOk(env, sh, log, a.owner, h, a.basis)
  }

  predicate SharedOk(sh: Shared) {
    && (sh.sealed ==> sh.isEnrolled && sh.egressLocked)
    && (sh.docKey.Some? ==> sh.isEnrolled && sh.docKey.value == sh.publicKey)
    && (sh.enroller.Some? ==> sh.isEnrolled)
  }

  ghost predicate HandlersOk(env: Env, s: State) {
    forall i :: 0 <= i < |s.handlers| ==> PhaseOk(env, s.shared, s.log, i, s.handlers[i])
  }

  ghost predicate ActionsOk(env: Env, s: State) {
    && (forall k :: 0 <= k < |s.actions| ==>
          s.actions[k].owner < |s.handlers|
          && ActionOk(env, s.shared, s.log, s.handlers[s.actions[k].owner], s.actions[k]))
    && (forall j, k :: 0 <= j < k < |s.actions| ==> s.actions[j].owner != s.actions[k].owner)
  }

  ghost predicate Invariant(env: Env, s: State) {
    SharedOk(s.shared) && HandlersOk(env, s) && ActionsOk(env, s)
  }

  /** What no step undoes. */
  predicate Grows(sh: Shared, t: Shared) {
    && (sh.isEnrolled ==> t.isEnrolled && t.publicKey == sh.publicKey && t.enroller == sh.enroller)
    && (sh.sealed ==> t.sealed)
    && (sh.egressLocked ==> t.egressLocked)
  }

  ghost predicate ActsOk(env: Env, log: seq<LogEntry>, i: nat, h: Handler, f: Effect) {
    && (h.phase.Done? ==> f.phase == h.phase)
    && (f.acts != [] ==> |f.acts| == 1 && f.acts[0].owner == i && !h.phase.Done?
                         && ActionOk(env, f.shared, log, h.(phase := f.phase), f.acts[0]))
  }

  ghost predicate EffectOk(env: Env, sh: Shared, log: seq<LogEntry>, i: nat, h: Handler, f: Effect) {
    && Grows(sh, f.shared) && SharedOk(f.shared)
    && PhaseOk(env, f.shared, log + f.entries, i, h.(phase := f.phase))
    && ActsOk(env, log + f.entries, i, h, f)
  }

  // ---------- one move ----------

  lemma AnsweredOk(env: Env, sh: Shared, log: seq<LogEntry>, i: nat, h: Handler, entry: LogEntry, attempt: Attempt,
                   a: Answer)
    requires SharedOk(sh) && PhaseOk(env, sh, log, i, h) && !h.phase.Done? && entry.owner == i
    requires h.route.LoadModel? ==> !h.startedSealed
    requires a.result.Ok? ==> a.accepted && Owns(env, sh, log + [entry], i, h, |log|, a.result.value)
    ensures EffectOk(env, sh, log, i, h, Answered(sh, entry, attempt, a, |log|))
  {
  }

  lemma AuthenticateOk(env: Env, sh: Shared, log: seq<LogEntry>, i: nat, h: Handler, key: string, now: int)
    requires env.suite.Lawful() && SharedOk(sh) && PhaseOk(env, sh, log, i, h) && h.phase == KeyRead(key)
    ensures EffectOk(env, sh, log, i, h, Authenticate(env, sh, i, h.req, key, now, |log|))
  {
    var a := HeaderFirst(env.suite, key, env.lim, sh.cache, now, h.req, env.limit);
    KeySigned(env, key, sh.cache, h, now);
    match AuthOver(env.suite, h.req, env.limit)
    case Err(_) => assert log + [] == log;
    case Ok(over) =>
      AnsweredOk(env, sh, log, i, h, LogEntry(i, key, over, now), AttemptFor(env, key, now, over, h.req.sig), a);
  }

  lemma KeySigned(env: Env, key: string, c: Cache, h: Handler, now: int)
    requires env.suite.Lawful()
    ensures var a := HeaderFirst(env.suite, key, env.lim, c, now, h.req, env.limit);
            a.result.Ok? ==> a.accepted && SignedBody(env, key, h, a.result.value)
  {
    HeaderFirstSound(env.suite, key, env.lim, c, now, h.req, env.limit);
  }

  lemma BodilessSigned(env: Env, sh: Shared, key: string, now: int, h: Handler)
    requires env.suite.Lawful()
    ensures AnswerBodiless(env, sh, key, now, h.req).result.Ok? ==> SignedBody(env, key, h, "")
  {
    BodylessSound(env.suite, key, env.lim, sh.cache, now, h.req);
  }

  lemma BodilessOk(env: Env, sh: Shared, log: seq<LogEntry>, i: nat, h: Handler, key: string, now: int)
    requires env.suite.Lawful() && SharedOk(sh) && PhaseOk(env, sh, log, i, h) && h.phase == KeyRead(key)
    requires !h.route.LoadModel?
    ensures EffectOk(env, sh, log, i, h, AuthenticateBodiless(env, sh, i, h.req, key, now, |log|))
  {
    BodilessSigned(env, sh, key, now, h);
    AnsweredOk(env, sh, log, i, h, LogEntry(i, key, Bodiless(env, h.req), now),
               AttemptFor(env, key, now, Bodiless(env, h.req), h.req.sig), AnswerBodiless(env, sh, key, now, h.req));
  }

  lemma RecheckOk(env: Env, sh: Shared, log: seq<LogEntry>, i: nat, h: Handler, basis: Basis, key: string, now: int)
    requires SharedOk(sh) && PhaseOk(env, sh, log, i, h) && h.phase == Rechecking(basis, key)
    ensures EffectOk(env, sh, log, i, h, Recheck(env, sh, i, h, basis, key, now, |log|))
  {
  }

  lemma PossessionOk(env: Env, sh: Shared, log: seq<LogEntry>, i: nat, h: Handler, now: int)
    requires SharedOk(sh) && PhaseOk(env, sh, log, i, h) && h.phase.Checked? && h.route.EnrollKey?
    ensures EffectOk(env, sh, log, i, h, ProvePossession(env, sh, i, h.req, now, |log|))
  {
    var req, body := h.req, ReadContent(h.req.body, ENROLL_LIMIT);
    if body.Err? || env.parseKey(body.value).None? || |env.parseKey(body.value).value| != PUBLIC_KEY_SIZE {
      assert log + [] == log;
    } else {
      var key := env.parseKey(body.value).value;
      var possession := CheckPossession(env.suite, key, req.signed, body.value, req.sig);
      var j := Judge(env.lim, sh.cache, now, req.signed, req.sig, possession);
      AnsweredOk(env, sh, log, i, h, LogEntry(i, key, req.signed, now), AttemptOf(now, req.signed, req.sig, possession),
                 Answer(j.cache, j.error.None?, if j.error.None? then Ok(body.value) else Err(j.error.value)));
    }
  }

  /** The phases in which a handler asks the verifier. */
  predicate Asks(h: Handler) { h.phase.KeyRead? || h.phase.Rechecking? || (h.route.EnrollKey? && h.phase.Checked?) }

  lemma EnrollMoveOk(env: Env, sh: Shared, log: seq<LogEntry>, i: nat, h: Handler, now: int)
    requires SharedOk(sh) && PhaseOk(env, sh, log, i, h) && h.route.EnrollKey? && !Asks(h)
    ensures EffectOk(env, sh, log, i, h, MoveEnroll(env, sh, i, h, now, |log|))
  {
    assert log + [] == log;
  }

  lemma SealMoveOk(env: Env, sh: Shared, log: seq<LogEntry>, i: nat, h: Handler, ok: bool, at: nat)
    requires SharedOk(sh) && PhaseOk(env, sh, log, i, h) && h.route.SealNode?
    ensures EffectOk(env, sh, log, i, h, MoveSeal(env, sh, i, h, ok, at))
  {
    assert log + [] == log;
  }

  lemma LoadMoveOk(env: Env, sh: Shared, log: seq<LogEntry>, i: nat, h: Handler, ok: bool)
    requires SharedOk(sh) && PhaseOk(env, sh, log, i, h) && h.route.LoadModel?
    ensures EffectOk(env, sh, log, i, h, MoveLoad(sh, i, h, ok))
  {
    assert log + [] == log;
  }

  lemma PolicyMoveOk(env: Env, sh: Shared, log: seq<LogEntry>, i: nat, h: Handler)
    requires SharedOk(sh) && PhaseOk(env, sh, log, i, h) && h.route.SetPolicy?
    ensures EffectOk(env, sh, log, i, h, MovePolicy(env, sh, i, h))
  {
    assert log + [] == log;
  }

  lemma ReadMoveOk(env: Env, sh: Shared, log: seq<LogEntry>, i: nat, h: Handler)
    requires SharedOk(sh) && PhaseOk(env, sh, log, i, h) && (h.route.ReadPolicy? || h.route.ListModels?)
    ensures EffectOk(env, sh, log, i, h, MoveRead(sh, i, h))
  {
    assert log + [] == log;
  }

  lemma RootMoveOk(env: Env, sh: Shared, log: seq<LogEntry>, i: nat, h: Handler, ok: bool)
    requires SharedOk(sh) && PhaseOk(env, sh, log, i, h) && h.route.Root?
    ensures EffectOk(env, sh, log, i, h, MoveRoot(sh, i, h, ok))
  {
    assert log + [] == log;
    InferenceNeedsAuth(h.req.signed.path);
  }

  lemma InferenceNeedsAuth(path: string)
    ensures IsInference(path) ==> RequiresAuthPath(path)
  {
  }

  lemma AdmittedOk(env: Env, sh: Shared, log: seq<LogEntry>, i: nat, h: Handler, ok: bool, basis: Basis)
    requires SharedOk(sh) && PhaseOk(env, sh, log, i, h) && h.route.Guarded? && !h.phase.Done?
    requires BasisOk(env, sh, log, i, h, basis)
    ensures EffectOk(env, sh, log, i, h, Admitted(sh, i, h.route.endpoint, ok, basis))
  {
    assert log + [] == log;
  }

  lemma GuardedMoveOk(env: Env, sh: Shared, log: seq<LogEntry>, i: nat, h: Handler, ok: bool, at: nat)
    requires SharedOk(sh) && PhaseOk(env, sh, log, i, h) && h.route.Guarded?
    ensures EffectOk(env, sh, log, i, h, MoveGuarded(sh, i, h, h.route.endpoint, ok, at))
  {
    assert log + [] == log;
    match h.phase
    case Authed(e, body) => AdmittedOk(env, sh, log, i, h, ok, Authorised(e, body));
    case Open(why) => AdmittedOk(env, sh, log, i, h, ok, Unauthenticated(why));
    case _ =>
  }

  lemma ReadKeyOk(env: Env, sh: Shared, log: seq<LogEntry>, i: nat, h: Handler)
    requires SharedOk(sh) && PhaseOk(env, sh, log, i, h) && h.phase.NeedAuth?
    ensures EffectOk(env, sh, log, i, h, ReadKey(sh))
  {
    assert log + [] == log;
  }

  lemma MoveOwnOk(env: Env, sh: Shared, log: seq<LogEntry>, i: nat, h: Handler, now: int, ok: bool, at: nat)
    requires SharedOk(sh) && PhaseOk(env, sh, log, i, h) && !Asks(h)
    ensures EffectOk(env, sh, log, i, h, MoveOwn(env, sh, i, h, now, ok, |log|, at))
  {
    match h.route
    case EnrollKey => EnrollMoveOk(env, sh, log, i, h, now);
    case SealNode => SealMoveOk(env, sh, log, i, h, ok, at);
    case LoadModel => LoadMoveOk(env, sh, log, i, h, ok);
    case SetPolicy => PolicyMoveOk(env, sh, log, i, h);
    case ReadPolicy => ReadMoveOk(env, sh, log, i, h);
    case ListModels => ReadMoveOk(env, sh, log, i, h);
    case Guarded(_) => GuardedMoveOk(env, sh, log, i, h, ok, at);
    case Root => RootMoveOk(env, sh, log, i, h, ok);
    case NotAllowed => assert log + [] == log;
  }

  lemma MoveOk(env: Env, sh: Shared, log: seq<LogEntry>, i: nat, h: Handler, now: int, ok: bool, at: nat)
    requires env.suite.Lawful() && SharedOk(sh) && PhaseOk(env, sh, log, i, h)
    ensures EffectOk(env, sh, log, i, h, Move(env, sh, i, h, now, ok, |log|, at))
  {
    match h.phase
    case NeedAuth => ReadKeyOk(env, sh, log, i, h);
    case KeyRead(key) =>
      if h.route.ReadPolicy? || h.route.ListModels? {
        BodilessOk(env, sh, log, i, h, key, now);
      } else {
        AuthenticateOk(env, sh, log, i, h, key, now);
      }
    case Rechecking(basis, key) => RecheckOk(env, sh, log, i, h, basis, key, now);
    case _ => if Asks(h) { PossessionOk(env, sh, log, i, h, now); } else { MoveOwnOk(env, sh, log, i, h, now, ok, at); }
  }

  // ---------- whole runs ----------

  /** What held of a handler still holds once the shared state and the log have grown. */
  lemma PhaseStays(env: Env, sh: Shared, t: Shared, log: seq<LogEntry>, more: seq<LogEntry>, i: nat, h: Handler)
    requires PhaseOk(env, sh, log, i, h) && Grows(sh, t)
    ensures PhaseOk(env, t, log + more, i, h)
  {
  }

  lemma ActionStays(env: Env, sh: Shared, t: Shared, log: seq<LogEntry>, more: seq<LogEntry>, h: Handler, a: Action)
    requires ActionOk(env, sh, log, h, a) && Grows(sh, t)
    ensures ActionOk(env, t, log + more, h, a)
  {
  }

  lemma HandlersAfter(env: Env, s: State, i: nat, f: Effect)
    requires HandlersOk(env, s) && i < |s.handlers| && EffectOk(env, s.shared, s.log, i, s.handlers[i], f)
    ensures HandlersOk(env, After(s, i, f))
  {
    var t := After(s, i, f);
    forall j | 0 <= j < |t.handlers|
      ensures PhaseOk(env, t.shared, t.log, j, t.handlers[j])
    {
      if j != i { PhaseStays(env, s.shared, f.shared, s.log, f.entries, j, s.handlers[j]); }
    }
  }

  lemma ActionsAfter(env: Env, s: State, i: nat, f: Effect)
    requires ActionsOk(env, s) && i < |s.handlers| && Grows(s.shared, f.shared)
    requires ActsOk(env, s.log + f.entries, i, s.handlers[i], f)
    ensures ActionsOk(env, After(s, i, f))
  {
    var t := After(s, i, f);
    assert forall k :: 0 <= k < |s.actions| ==> t.actions[k] == s.actions[k];
    assert forall k :: |s.actions| <= k < |t.actions| ==> t.actions[k] == f.acts[0];
    forall k | 0 <= k < |t.actions|
      ensures t.actions[k].owner < |t.handlers|
              && ActionOk(env, t.shared, t.log, t.handlers[t.actions[k].owner], t.actions[k])
    {
      if k < |s.actions| {
        var a := s.actions[k];
        ActionStays(env, s.shared, f.shared, s.log, f.entries, s.handlers[a.owner], a);
        assert t.handlers[a.owner] == s.handlers[a.owner];
      }
    }
  }

  lemma ArriveKeeps(env: Env, s: State, h: Handler)
    requires Invariant(env, s) && h.phase.New? && (h.startedSealed ==> s.shared.sealed)
    ensures Invariant(env, s.(handlers := s.handlers + [h]))
  {
    var t := s.(handlers := s.handlers + [h]);
    assert forall j :: 0 <= j < |s.handlers| ==> t.handlers[j] == s.handlers[j];
  }

  lemma EngineKeeps(env: Env, s: State, ready: bool)
    requires Invariant(env, s)
    ensures Invariant(env, s.(shared := s.shared.(engineReady := ready)))
  {
    var sh := s.shared.(engineReady := ready);
    assert s.log + [] == s.log;
    forall j | 0 <= j < |s.handlers|
      ensures PhaseOk(env, sh, s.log, j, s.handlers[j])
    {
      PhaseStays(env, s.shared, sh, s.log, [], j, s.handlers[j]);
    }
    forall k | 0 <= k < |s.actions|
      ensures ActionOk(env, sh, s.log, s.handlers[s.actions[k].owner], s.actions[k])
    {
      ActionStays(env, s.shared, sh, s.log, [], s.handlers[s.actions[k].owner], s.actions[k]);
    }
  }

  lemma StepKeeps(env: Env, s: State, e: Event)
    requires env.suite.Lawful() && Invariant(env, s)
    ensures Invariant(env, Step(env, s, e)) && Grows(s.shared, Step(env, s, e).shared)
  {
    match e
    case Arrive(req) => ArriveKeeps(env, s, NewHandler(s.shared, req));
    case EngineIs(ready) => EngineKeeps(env, s, ready);
    case Go(i, now, ok) =>
      if i < |s.handlers| {
        MoveOk(env, s.shared, s.log, i, s.handlers[i], now, ok, |s.past|);
        HandlersAfter(env, s, i, MoveOf(env, s, i, now, ok));
        ActionsAfter(env, s, i, MoveOf(env, s, i, now, ok));
      }
  }

  lemma {:induction false} RunKeeps(env: Env, launchKey: string, events: seq<Event>)
    requires env.suite.Lawful()
    ensures Invariant(env, Run(env, launchKey, events))
  {
    hide Change;
    if events != [] {
      var before := events[..|events| - 1];
      RunKeeps(env, launchKey, before);
      StepKeeps(env, Run(env, launchKey, before), events[|events| - 1]);
    }
  }

  lemma LatchStep(env: Env, launchKey: string, events: seq<Event>, e: Event)
    requires env.suite.Lawful()
    ensures Grows(Run(env, launchKey, events).shared, Run(env, launchKey, events + [e]).shared)
  {
    hide Change;
    RunSnoc(env, launchKey, events, e);
    RunKeeps(env, launchKey, events);
    StepKeeps(env, Run(env, launchKey, events), e);
  }

  /** Over every run and everything that follows it: a latched key stays the key, and a sealed node stays
      sealed. */
  lemma {:induction false} LatchesHold(env: Env, launchKey: string, events: seq<Event>, more: seq<Event>)
    requires env.suite.Lawful()
    ensures Grows(Run(env, launchKey, events).shared, Run(env, launchKey, events + more).shared)
    decreases |more|
  {
    hide Change;
    if more == [] {
      assert events + more == events;
    } else {
      var n := |more| - 1;
      assert events + more == (events + more[..n]) + [more[n]];
      LatchesHold(env, launchKey, events, more[..n]);
      LatchStep(env, launchKey, events + more[..n], more[n]);
    }
  }

  predicate Enrolled(h: Handler) { h.route.EnrollKey? && (h.phase.KeySet? || h.phase == Done(Performed)) }

  /** At most one enrolment succeeds, and none where a key was enrolled at launch. */
  lemma OneEnrolment(env: Env, launchKey: string, events: seq<Event>, i: nat, j: nat)
    requires env.suite.Lawful()
    requires var hs := Run(env, launchKey, events).handlers; i < |hs| && j < |hs| && Enrolled(hs[i]) && Enrolled(hs[j])
    ensures i == j && |launchKey| != PUBLIC_KEY_SIZE
  {
    RunKeeps(env, launchKey, events);
    var s := Run(env, launchKey, events);
    assert PhaseOk(env, s.shared, s.log, i, s.handlers[i]) && PhaseOk(env, s.shared, s.log, j, s.handlers[j]);
    if |launchKey| == PUBLIC_KEY_SIZE { NoEnroller(env, launchKey, events); }
  }

  lemma NoEnroller(env: Env, launchKey: string, events: seq<Event>)
    requires env.suite.Lawful() && |launchKey| == PUBLIC_KEY_SIZE
    ensures Run(env, launchKey, events).shared.enroller.None?
  {
    LatchesHold(env, launchKey, [], events);
    assert [] + events == events;
  }

  /** No two actions rest on the same acceptance. */
  lemma EntriesAreNotShared(env: Env, launchKey: string, events: seq<Event>, j: nat, k: nat)
    requires env.suite.Lawful() && j < k < |Run(env, launchKey, events).actions|
    ensures var acts := Run(env, launchKey, events).actions;
            acts[j].basis.Authorised? && acts[k].basis.Authorised? ==> acts[j].basis.entry != acts[k].basis.entry
  {
    RunKeeps(env, launchKey, events);
    var s := Run(env, launchKey, events);
    assert ActionOk(env, s.shared, s.log, s.handlers[s.actions[j].owner], s.actions[j]);
    assert ActionOk(env, s.shared, s.log, s.handlers[s.actions[k].owner], s.actions[k]);
  }

  /** A load that comes in after the seal is never carried out. */
  lemma NoLoadAfterSeal(env: Env, launchKey: string, events: seq<Event>, k: nat)
    requires env.suite.Lawful() && k < |Run(env, launchKey, events).actions|
    ensures var s := Run(env, launchKey, events);
            var owner := s.actions[k].owner;
            owner < |s.handlers| && (s.handlers[owner].route.LoadModel? ==> !s.handlers[owner].startedSealed)
  {
    RunKeeps(env, launchKey, events);
  }

  // ---------- what was seen, and when ----------

  /** The reason was seen in the history: no key, on an endpoint that is open then; or a public setting, and
      after that an unsealed node. */
  predicate ReasonSeen(past: seq<Shared>, h: Handler, why: Reason) {
    match why
    case Unenrolled(at) =>
      at < |past| && (h.route == Guarded(Attestation) || h.route == Guarded(Certificate)) && !past[at].isEnrolled
    case PublicAndUnsealed(readAt, sealAt) =>
      && readAt < sealAt < |past| && h.route.Guarded?
      && SettingOf(past[readAt].policy, h.route.endpoint) == Public && !past[sealAt].sealed
    case Unprotected => true
  }

  predicate BasisSeen(past: seq<Shared>, h: Handler, basis: Basis) {
    basis.Unauthenticated? ==> ReasonSeen(past, h, basis.why)
  }

  predicate TraceOk(env: Env, past: seq<Shared>, h: Handler) {
    match h.phase
    case PolicyRead(setting, at) =>
      at < |past| && h.route.Guarded? && setting == SettingOf(past[at].policy, h.route.endpoint)
    case Approved(_, body, at) => at < |past| && (env.parseForce(body) || past[at].engineReady)
    case LockedDown(_, body, at) => at < |past| && (env.parseForce(body) || past[at].engineReady)
    case Open(why) => ReasonSeen(past, h, why)
    case Rechecking(basis, _) => BasisSeen(past, h, basis)
    case Serving(basis) => BasisSeen(past, h, basis)
    case _ => true
  }

  predicate ActsSeen(past: seq<Shared>, i: nat, h: Handler, acts: seq<Action>) {
    acts != [] ==> |acts| == 1 && acts[0].owner == i && BasisSeen(past, h, acts[0].basis)
  }

  predicate Traced(env: Env, past: seq<Shared>, i: nat, h: Handler, f: Effect) {
    TraceOk(env, past, h.(phase := f.phase)) && ActsSeen(past, i, h, f.acts)
  }

  lemma ReasonStays(past: seq<Shared>, more: seq<Shared>, h: Handler, why: Reason)
    requires ReasonSeen(past, h, why)
    ensures ReasonSeen(past + more, h, why)
  {
  }

  lemma TraceStays(env: Env, past: seq<Shared>, more: seq<Shared>, h: Handler)
    requires TraceOk(env, past, h)
    ensures TraceOk(env, past + more, h)
  {
  }

  lemma SealTraced(env: Env, past: seq<Shared>, sh: Shared, i: nat, h: Handler, ok: bool)
    requires TraceOk(env, past, h)
    ensures Traced(env, past + [sh], i, h, MoveSeal(env, sh, i, h, ok, |past|))
  {
    TraceStays(env, past, [sh], h);
  }

  lemma GuardedTraced(env: Env, past: seq<Shared>, sh: Shared, i: nat, h: Handler, ok: bool)
    requires TraceOk(env, past, h) && h.route.Guarded?
    ensures Traced(env, past + [sh], i, h, MoveGuarded(sh, i, h, h.route.endpoint, ok, |past|))
  {
    TraceStays(env, past, [sh], h);
    assert (past + [sh])[|past|] == sh;
  }

  /** Moves that see nothing worth remembering. */
  lemma OwnerTraced(env: Env, past: seq<Shared>, sh: Shared, i: nat, h: Handler, now: int, ok: bool, next: nat)
    requires TraceOk(env, past, h) && (h.route.EnrollKey? || h.route.LoadModel? || h.route.SetPolicy?)
    ensures Traced(env, past + [sh], i, h, MoveOwn(env, sh, i, h, now, ok, next, |past|))
  {
    TraceStays(env, past, [sh], h);
  }

  lemma ReaderTraced(env: Env, past: seq<Shared>, sh: Shared, i: nat, h: Handler, now: int, ok: bool, next: nat)
    requires TraceOk(env, past, h)
    requires h.route.ReadPolicy? || h.route.ListModels? || h.route.Root? || h.route.NotAllowed?
    ensures Traced(env, past + [sh], i, h, MoveOwn(env, sh, i, h, now, ok, next, |past|))
  {
    TraceStays(env, past, [sh], h);
  }

  lemma MoveTraced(env: Env, past: seq<Shared>, sh: Shared, i: nat, h: Handler, now: int, ok: bool, next: nat)
    requires TraceOk(env, past, h)
    ensures Traced(env, past + [sh], i, h, Move(env, sh, i, h, now, ok, next, |past|))
  {
    if h.phase.NeedAuth? || h.phase.KeyRead? || h.phase.Rechecking? {
      TraceStays(env, past, [sh], h);
    } else {
      match h.route
      case Guarded(_) => GuardedTraced(env, past, sh, i, h, ok);
      case SealNode => SealTraced(env, past, sh, i, h, ok);
      case EnrollKey => OwnerTraced(env, past, sh, i, h, now, ok, next);
      case LoadModel => OwnerTraced(env, past, sh, i, h, now, ok, next);
      case SetPolicy => OwnerTraced(env, past, sh, i, h, now, ok, next);
      case _ => ReaderTraced(env, past, sh, i, h, now, ok, next);
    }
  }

  predicate TracesOk(env: Env, s: State) {
    && (forall i :: 0 <= i < |s.handlers| ==> TraceOk(env, s.past, s.handlers[i]))
    && (forall k :: 0 <= k < |s.actions| ==>
          s.actions[k].owner < |s.handlers|
          && BasisSeen(s.past, s.handlers[s.actions[k].owner], s.actions[k].basis))
  }

  lemma BasisStays(past: seq<Shared>, more: seq<Shared>, h: Handler, g: Handler, basis: Basis)
    requires BasisSeen(past, h, basis) && g.route == h.route
    ensures BasisSeen(past + more, g, basis)
  {
    if basis.Unauthenticated? { ReasonStays(past, more, h, basis.why); }
  }

  lemma TracesAfter(env: Env, s: State, i: nat, f: Effect)
    requires TracesOk(env, s) && i < |s.handlers| && Traced(env, s.past + [s.shared], i, s.handlers[i], f)
    ensures TracesOk(env, After(s, i, f).(past := s.past + [s.shared]))
  {
    var past, t := s.past + [s.shared], After(s, i, f).(past := s.past + [s.shared]);
    forall j | 0 <= j < |t.handlers|
      ensures TraceOk(env, past, t.handlers[j])
    {
      if j != i { TraceStays(env, s.past, [s.shared], s.handlers[j]); }
    }
    forall k | 0 <= k < |t.actions|
      ensures t.actions[k].owner < |t.handlers| && BasisSeen(past, t.handlers[t.actions[k].owner], t.actions[k].basis)
    {
      var a := t.actions[k];
      if k < |s.actions| {
        assert a == s.actions[k];
        BasisStays(s.past, [s.shared], s.handlers[a.owner], t.handlers[a.owner], a.basis);
      } else {
        assert a == f.acts[k - |s.actions|];
        BasisStays(past, [], s.handlers[i], t.handlers[i], a.basis);
        assert past + [] == past;
      }
    }
  }

  lemma TracesStay(env: Env, s: State, t: State)
    requires TracesOk(env, s) && t.actions == s.actions && s.handlers <= t.handlers
    requires t.past == s.past + [s.shared]
    requires forall j :: |s.handlers| <= j < |t.handlers| ==> t.handlers[j].phase.New?
    ensures TracesOk(env, t)
  {
    forall j | 0 <= j < |t.handlers|
      ensures TraceOk(env, t.past, t.handlers[j])
    {
      if j < |s.handlers| { TraceStays(env, s.past, [s.shared], s.handlers[j]); }
    }
    forall k | 0 <= k < |t.actions|
      ensures t.actions[k].owner < |t.handlers| && BasisSeen(t.past, t.handlers[t.actions[k].owner], t.actions[k].basis)
    {
      var a := s.actions[k];
      BasisStays(s.past, [s.shared], s.handlers[a.owner], t.handlers[a.owner], a.basis);
    }
  }

  lemma {:induction false} RunTraced(env: Env, launchKey: string, events: seq<Event>)
    ensures TracesOk(env, Run(env, launchKey, events))
  {
    if events != [] {
      var n := |events| - 1;
      var s, t := Run(env, launchKey, events[..n]), Run(env, launchKey, events);
      RunTraced(env, launchKey, events[..n]);
      match events[n]
      case Go(i, now, ok) =>
        if i < |s.handlers| {
          MoveTraced(env, s.past, s.shared, i, s.handlers[i], now, ok, |s.log|);
          TracesAfter(env, s, i, MoveOf(env, s, i, now, ok));
        } else {
          TracesStay(env, s, t);
        }
      case _ => TracesStay(env, s, t);
    }
  }

  /** A reason, in terms of the run: what the node was like when the handler looked. */
  ghost predicate ReasonHeld(env: Env, launchKey: string, events: seq<Event>, h: Handler, why: Reason) {
    match why
    case Unenrolled(at) =>
      && at < |events| && (h.route == Guarded(Attestation) || h.route == Guarded(Certificate))
      && !Run(env, launchKey, events[..at]).shared.isEnrolled
    case PublicAndUnsealed(readAt, sealAt) =>
      && readAt < sealAt < |events| && h.route.Guarded?
      && SettingOf(Run(env, launchKey, events[..readAt]).shared.policy, h.route.endpoint) == Public
      && !Run(env, launchKey, events[..sealAt]).shared.sealed
    case Unprotected => false
  }

  /** Every action rests on an acceptance of its own under the enrolled key, which signed this path and the
      very body that was acted on; or it is a guarded read by a request that came in before the seal, and its
      handler saw the node without a key, at attestation or certificate, or saw its endpoint public and then
      the node unsealed. */
  lemma ActionsAreOwned(env: Env, launchKey: string, events: seq<Event>, k: nat)
    requires env.suite.Lawful() && k < |Run(env, launchKey, events).actions|
    ensures var s := Run(env, launchKey, events);
            var a := s.actions[k];
            && a.owner < |s.handlers|
            && var h := s.handlers[a.owner];
               match a.basis
               case Authorised(e, body) =>
                 && e < |s.log| && s.log[e].owner == a.owner
                 && s.shared.isEnrolled && s.log[e].key == s.shared.publicKey
                 && SignedBody(env, s.shared.publicKey, h, body)
               case Unauthenticated(why) =>
                 h.route.Guarded? && !h.startedSealed && ReasonHeld(env, launchKey, events, h, why)
  {
    var s := Run(env, launchKey, events);
    var a := s.actions[k];
    RunKeeps(env, launchKey, events);
    RunTraced(env, launchKey, events);
    if a.basis.Unauthenticated? { SeenIsHeld(env, launchKey, events, s.handlers[a.owner], a.basis.why); }
  }

  lemma SeenIsHeld(env: Env, launchKey: string, events: seq<Event>, h: Handler, why: Reason)
    requires ReasonSeen(Run(env, launchKey, events).past, h, why) && !why.Unprotected?
    ensures ReasonHeld(env, launchKey, events, h, why)
  {
    PastLength(env, launchKey, events);
    match why
    case Unenrolled(at) => PastIsRun(env, launchKey, events, at);
    case PublicAndUnsealed(readAt, sealAt) =>
      PastIsRun(env, launchKey, events, readAt);
      PastIsRun(env, launchKey, events, sealAt);
  }

  // ---------- every effect has its signed action ----------

  predicate PolicySetBy(env: Env, sh: Shared, i: nat, h: Handler, f: Effect) {
    && h.route.SetPolicy? && h.phase.Authed?
    && f.acts == [Action(i, Authorised(h.phase.entry, h.phase.body))]
    && env.parseUpdate(h.phase.body).Some?
    && f.shared.policy == PolicyAfter(env.suite.letters, sh.policy, env.parseUpdate(h.phase.body).value)
  }

  predicate SealedBy(i: nat, h: Handler, f: Effect) {
    && h.route.SealNode? && h.phase.LockedDown? && f.shared.sealed
    && f.acts == [Action(i, Authorised(h.phase.entry, h.phase.body))]
  }

  predicate KeySetBy(env: Env, sh: Shared, h: Handler, f: Effect) {
    && h.route.EnrollKey? && h.phase.Authed? && !sh.isEnrolled && f.shared.isEnrolled
    && env.parseKey(h.phase.body) == Some(f.shared.publicKey) && |f.shared.publicKey| == PUBLIC_KEY_SIZE
  }

  /** Nothing shared changes but by the handler in charge, in the phase for it, and egress is locked only when the
      firewall answered yes; a policy or seal action has its effect. */
  predicate EffectsOwned(env: Env, sh: Shared, i: nat, h: Handler, ok: bool, f: Effect) {
    && (f.shared.policy != sh.policy ==> PolicySetBy(env, sh, i, h, f))
    && (f.acts != [] && h.route.SetPolicy? ==> PolicySetBy(env, sh, i, h, f))
    && (f.shared.sealed != sh.sealed ==> SealedBy(i, h, f))
    && (f.acts != [] && h.route.SealNode? ==> SealedBy(i, h, f))
    && (f.shared.egressLocked != sh.egressLocked ==>
          h.route.SealNode? && h.phase.Approved? && ok && f.shared.egressLocked)
    && ((f.shared.isEnrolled, f.shared.publicKey) != (sh.isEnrolled, sh.publicKey) ==> KeySetBy(env, sh, h, f))
    && (f.shared.docKey != sh.docKey ==> h.route.EnrollKey? && h.phase.KeySet?)
    && f.shared.engineReady == sh.engineReady
  }

  lemma EnrollEffects(env: Env, sh: Shared, i: nat, h: Handler, ok: bool, now: int, next: nat)
    requires h.route.EnrollKey?
    ensures EffectsOwned(env, sh, i, h, ok, MoveEnroll(env, sh, i, h, now, next))
  {
    if h.phase.Checked? { PossessionEffects(env, sh, i, h, ok, now, next); }
  }

  lemma PossessionEffects(env: Env, sh: Shared, i: nat, h: Handler, ok: bool, now: int, next: nat)
    ensures EffectsOwned(env, sh, i, h, ok, ProvePossession(env, sh, i, h.req, now, next))
  {
    var f := ProvePossession(env, sh, i, h.req, now, next);
    assert f.shared == sh.(cache := f.shared.cache) && f.acts == [];
  }

  lemma SealEffects(env: Env, sh: Shared, i: nat, h: Handler, ok: bool, at: nat)
    requires h.route.SealNode?
    ensures EffectsOwned(env, sh, i, h, ok, MoveSeal(env, sh, i, h, ok, at))
  {
  }

  lemma PolicyEffects(env: Env, sh: Shared, i: nat, h: Handler, ok: bool)
    requires h.route.SetPolicy?
    ensures EffectsOwned(env, sh, i, h, ok, MovePolicy(env, sh, i, h))
  {
  }

  lemma OtherEffects(env: Env, sh: Shared, i: nat, h: Handler, now: int, ok: bool, next: nat, at: nat)
    requires !h.route.EnrollKey? && !h.route.SealNode? && !h.route.SetPolicy?
    ensures EffectsOwned(env, sh, i, h, ok, MoveOwn(env, sh, i, h, now, ok, next, at))
  {
  }

  lemma AnsweredEffects(env: Env, sh: Shared, i: nat, h: Handler, ok: bool, entry: LogEntry, attempt: Attempt, a: Answer, next: nat,
                        p: Phase)
    ensures EffectsOwned(env, sh, i, h, ok, Answered(sh, entry, attempt, a, next).(phase := p))
    ensures EffectsOwned(env, sh, i, h, ok, Answered(sh, entry, attempt, a, next))
  {
  }

  lemma AskEffects(env: Env, sh: Shared, i: nat, h: Handler, ok: bool, key: string, basis: Basis, now: int, next: nat)
    ensures EffectsOwned(env, sh, i, h, ok, Authenticate(env, sh, i, h.req, key, now, next))
    ensures EffectsOwned(env, sh, i, h, ok, AuthenticateBodiless(env, sh, i, h.req, key, now, next))
    ensures EffectsOwned(env, sh, i, h, ok, Recheck(env, sh, i, h, basis, key, now, next))
  {
    var over := AuthOver(env.suite, h.req, env.limit);
    if over.Ok? {
      AnsweredEffects(env, sh, i, h, ok, LogEntry(i, key, over.value, now), AttemptFor(env, key, now, over.value, h.req.sig),
                      HeaderFirst(env.suite, key, env.lim, sh.cache, now, h.req, env.limit), next, New);
    }
    AnsweredEffects(env, sh, i, h, ok, LogEntry(i, key, Bodiless(env, h.req), now),
                    AttemptFor(env, key, now, Bodiless(env, h.req), h.req.sig), AnswerBodiless(env, sh, key, now, h.req),
                    next, Serving(basis));
  }

  lemma MoveEffects(env: Env, sh: Shared, i: nat, h: Handler, now: int, ok: bool, next: nat, at: nat)
    ensures EffectsOwned(env, sh, i, h, ok, Move(env, sh, i, h, now, ok, next, at))
  {
    match h.phase
    case NeedAuth =>
    case KeyRead(key) => AskEffects(env, sh, i, h, ok, key, Authorised(0, ""), now, next);
    case Rechecking(basis, key) => AskEffects(env, sh, i, h, ok, key, basis, now, next);
    case _ =>
      match h.route
      case EnrollKey => EnrollEffects(env, sh, i, h, ok, now, next);
      case SealNode => SealEffects(env, sh, i, h, ok, at);
      case SetPolicy => PolicyEffects(env, sh, i, h, ok);
      case _ => OtherEffects(env, sh, i, h, now, ok, next, at);
  }

  /** The step is one of handler `i`, and appends exactly the action that rests on its own acceptance. */
  ghost predicate SignedDeed(env: Env, s: State, t: State, e: Event, entry: nat, body: string) {
    && e.Go? && e.i < |s.handlers|
    && t.actions == s.actions + [Action(e.i, Authorised(entry, body))]
    && Owns(env, s.shared, s.log, e.i, s.handlers[e.i], entry, body)
  }

  /** A step that changes the policy applies the update in a signed body, and logs that action. */
  lemma PolicyChangeIsSigned(env: Env, launchKey: string, events: seq<Event>, e: Event)
    requires env.suite.Lawful()
    ensures var s, t := Run(env, launchKey, events), Run(env, launchKey, events + [e]);
            t.shared.policy != s.shared.policy ==>
              && e.Go? && e.i < |s.handlers| && s.handlers[e.i].route.SetPolicy? && s.handlers[e.i].phase.Authed?
              && var h := s.handlers[e.i];
                 && SignedDeed(env, s, t, e, h.phase.entry, h.phase.body)
                 && env.parseUpdate(h.phase.body).Some?
                 && t.shared.policy == PolicyAfter(env.suite.letters, s.shared.policy, env.parseUpdate(h.phase.body).value)
  {
    RunSnoc(env, launchKey, events, e);
    RunKeeps(env, launchKey, events);
    var s := Run(env, launchKey, events);
    if e.Go? && e.i < |s.handlers| {
      MoveEffects(env, s.shared, e.i, s.handlers[e.i], e.now, e.ok, |s.log|, |s.past|);
      assert PhaseOk(env, s.shared, s.log, e.i, s.handlers[e.i]);
    }
  }

  /** A step that seals is that of a signed seal request which asked for force or found the engine ready, and
      locked egress; it logs that action. */
  lemma SealIsSigned(env: Env, launchKey: string, events: seq<Event>, e: Event)
    requires env.suite.Lawful()
    ensures var s, t := Run(env, launchKey, events), Run(env, launchKey, events + [e]);
            t.shared.sealed && !s.shared.sealed ==>
              && e.Go? && e.i < |s.handlers| && s.handlers[e.i].route.SealNode? && s.handlers[e.i].phase.LockedDown?
              && var LockedDown(entry, body, at) := s.handlers[e.i].phase;
                 && SignedDeed(env, s, t, e, entry, body) && s.shared.egressLocked
                 && at < |events| && (env.parseForce(body) || Run(env, launchKey, events[..at]).shared.engineReady)
  {
    RunSnoc(env, launchKey, events, e);
    RunKeeps(env, launchKey, events);
    RunTraced(env, launchKey, events);
    var s := Run(env, launchKey, events);
    if e.Go? && e.i < |s.handlers| {
      var h := s.handlers[e.i];
      MoveEffects(env, s.shared, e.i, h, e.now, e.ok, |s.log|, |s.past|);
      assert PhaseOk(env, s.shared, s.log, e.i, h) && TraceOk(env, s.past, h);
      PastLength(env, launchKey, events);
      if h.phase.LockedDown? { PastIsRun(env, launchKey, events, h.phase.at); }
    }
  }

  /** A step that enrols a key is that of a request with an acceptance of its own under that very key: the key is
      the one in its body, and signed one of its canonical texts, over the hash it claims or its body's. */
  lemma KeyIsProved(env: Env, launchKey: string, events: seq<Event>, e: Event)
    requires env.suite.Lawful()
    ensures var s, t := Run(env, launchKey, events), Run(env, launchKey, events + [e]);
            (t.shared.isEnrolled, t.shared.publicKey) != (s.shared.isEnrolled, s.shared.publicKey) ==>
              && !s.shared.isEnrolled && t.shared.isEnrolled && |t.shared.publicKey| == PUBLIC_KEY_SIZE
              && e.Go? && e.i < |s.handlers| && s.handlers[e.i].route.EnrollKey? && s.handlers[e.i].phase.Authed?
              && var h := s.handlers[e.i];
                 && h.phase.entry < |s.log| && s.log[h.phase.entry].owner == e.i
                 && s.log[h.phase.entry].key == t.shared.publicKey
                 && env.parseKey(h.phase.body) == Some(t.shared.publicKey)
                 && Possesses(env.suite, t.shared.publicKey, h.req.signed, h.req.sig, h.phase.body)
  {
    RunSnoc(env, launchKey, events, e);
    RunKeeps(env, launchKey, events);
    var s, t := Run(env, launchKey, events), Run(env, launchKey, events + [e]);
    if e.Go? && e.i < |s.handlers| {
      var h := s.handlers[e.i];
      MoveEffects(env, s.shared, e.i, h, e.now, e.ok, |s.log|, |s.past|);
      assert PhaseOk(env, s.shared, s.log, e.i, h);
      if h.phase.Authed? {
        CheckedPossesses(env.suite, t.shared.publicKey, h.req.signed, h.phase.body, h.req.sig);
      }
    }
  }

  // ---------- what is performed leaves its trace ----------

  predicate Acted(actions: seq<Action>, i: nat) {
    exists k :: 0 <= k < |actions| && actions[k].owner == i
  }

  /** A request other than an enrolment is performed only by a step that appends its action. */
  lemma PerformedActs(env: Env, sh: Shared, i: nat, h: Handler, now: int, ok: bool, next: nat, at: nat)
    requires !h.phase.Done? && !h.route.EnrollKey?
    ensures var f := Move(env, sh, i, h, now, ok, next, at);
            f.phase == Done(Performed) ==> |f.acts| == 1 && f.acts[0].owner == i
  {
  }

  lemma DoneStays(env: Env, sh: Shared, i: nat, h: Handler, now: int, ok: bool, next: nat, at: nat)
    requires h.phase.Done?
    ensures Move(env, sh, i, h, now, ok, next, at).phase == h.phase
  {
  }

  ghost predicate AllActed(s: State) {
    forall i :: 0 <= i < |s.handlers| && s.handlers[i].phase == Done(Performed) && !s.handlers[i].route.EnrollKey? ==>
      Acted(s.actions, i)
  }

  lemma ActedStays(actions: seq<Action>, more: seq<Action>, i: nat)
    requires Acted(actions, i) || (|more| == 1 && more[0].owner == i)
    ensures Acted(actions + more, i)
  {
    var all := actions + more;
    if Acted(actions, i) {
      var k :| 0 <= k < |actions| && actions[k].owner == i;
      assert all[k].owner == i;
    } else {
      assert all[|actions|].owner == i;
    }
  }

  lemma ActedAfter(env: Env, s: State, i: nat, now: int, ok: bool)
    requires AllActed(s) && i < |s.handlers|
    ensures AllActed(After(s, i, MoveOf(env, s, i, now, ok)))
  {
    hide MoveOwn, Authenticate, AuthenticateBodiless, Recheck;
    var f := MoveOf(env, s, i, now, ok);
    var t, h := After(s, i, f), s.handlers[i];
    forall j | 0 <= j < |t.handlers| && t.handlers[j].phase == Done(Performed) && !t.handlers[j].route.EnrollKey?
      ensures Acted(t.actions, j)
    {
      if j == i && !h.phase.Done? {
        PerformedActs(env, s.shared, i, h, now, ok, |s.log|, |s.past|);
      } else if j == i {
        DoneStays(env, s.shared, i, h, now, ok, |s.log|, |s.past|);
      }
      ActedStays(s.actions, f.acts, j);
    }
  }

  /** Over every run: a request other than an enrolment is performed only with an action in the list, so that what
      is said of all actions is said of everything done for a client. */
  lemma {:induction false} PerformedIsLogged(env: Env, launchKey: string, events: seq<Event>)
    ensures AllActed(Run(env, launchKey, events))
  {
    if events != [] {
      var n := |events| - 1;
      var s := Run(env, launchKey, events[..n]);
      PerformedIsLogged(env, launchKey, events[..n]);
      match events[n]
      case Go(i, now, ok) => if i < |s.handlers| { ActedAfter(env, s, i, now, ok); }
      case _ =>
    }
  }

  /** The firewall answered yes to a seal request that had been approved. */
  ghost predicate FirewallAnswered(env: Env, launchKey: string, events: seq<Event>, k: nat) {
    && k < |events| && events[k].Go? && events[k].ok
    && var s := Run(env, launchKey, events[..k]);
       events[k].i < |s.handlers| && s.handlers[events[k].i].route.SealNode? && s.handlers[events[k].i].phase.Approved?
  }

  lemma AnswerStays(env: Env, launchKey: string, events: seq<Event>, k: nat)
    requires events != [] && FirewallAnswered(env, launchKey, events[..|events| - 1], k)
    ensures FirewallAnswered(env, launchKey, events, k)
  {
    hide Run;
    assert events[..|events| - 1][..k] == events[..k];
  }

  lemma {:induction false} LockedByAnswer(env: Env, launchKey: string, events: seq<Event>)
    ensures Run(env, launchKey, events).shared.egressLocked ==>
              exists k: nat :: FirewallAnswered(env, launchKey, events, k)
  {
    if events != [] && Run(env, launchKey, events).shared.egressLocked {
      var n := |events| - 1;
      var s := Run(env, launchKey, events[..n]);
      LockedByAnswer(env, launchKey, events[..n]);
      if s.shared.egressLocked {
        var k: nat :| FirewallAnswered(env, launchKey, events[..n], k);
        AnswerStays(env, launchKey, events, k);
      } else {
        LockStep(env, s, events[n]);
        assert FirewallAnswered(env, launchKey, events, n);
      }
    }
  }

  lemma LockStep(env: Env, s: State, e: Event)
    requires !s.shared.egressLocked && Step(env, s, e).shared.egressLocked
    ensures e.Go? && e.ok && e.i < |s.handlers| && s.handlers[e.i].route.SealNode? && s.handlers[e.i].phase.Approved?
  {
    if e.Go? && e.i < |s.handlers| {
      MoveEffects(env, s.shared, e.i, s.handlers[e.i], e.now, e.ok, |s.log|, |s.past|);
    }
  }

  lemma BecomesLockedDown(env: Env, sh: Shared, i: nat, h: Handler, now: int, ok: bool, next: nat, at: nat)
    ensures Move(env, sh, i, h, now, ok, next, at).phase.LockedDown? && !h.phase.LockedDown? ==>
              h.route.SealNode? && h.phase.Approved? && ok
  {
  }

  lemma StepLocksDown(env: Env, s: State, e: Event, i: nat)
    requires i < |Step(env, s, e).handlers| && Step(env, s, e).handlers[i].phase.LockedDown?
    ensures || (i < |s.handlers| && s.handlers[i].phase.LockedDown?)
            || (e.Go? && e.ok && e.i == i && i < |s.handlers|
                && s.handlers[i].route.SealNode? && s.handlers[i].phase.Approved?)
  {
    hide MoveOwn, Authenticate, AuthenticateBodiless, Recheck, RouteOf;
    if e.Go? && e.i < |s.handlers| {
      BecomesLockedDown(env, s.shared, e.i, s.handlers[e.i], e.now, e.ok, |s.log|, |s.past|);
    }
  }

  /** A seal request past the lockdown had its own answer from the firewall. */
  lemma {:induction false} LockedDownWasAnswered(env: Env, launchKey: string, events: seq<Event>, i: nat)
    requires var hs := Run(env, launchKey, events).handlers; i < |hs| && hs[i].phase.LockedDown?
    ensures exists k: nat :: FirewallAnswered(env, launchKey, events, k) && events[k].i == i
  {
    if events != [] {
      hide Change;
      var n := |events| - 1;
      var s := Run(env, launchKey, events[..n]);
      StepLocksDown(env, s, events[n], i);
      if i < |s.handlers| && s.handlers[i].phase.LockedDown? {
        LockedDownWasAnswered(env, launchKey, events[..n], i);
        var k: nat :| FirewallAnswered(env, launchKey, events[..n], k) && events[..n][k].i == i;
        AnswerStays(env, launchKey, events, k);
        assert events[k] == events[..n][k];
      } else {
        assert FirewallAnswered(env, launchKey, events, n);
      }
    }
  }

  /** A step that seals comes after the firewall's yes to the very request that seals. */
  lemma SealWasAnswered(env: Env, launchKey: string, events: seq<Event>, e: Event)
    requires env.suite.Lawful()
    ensures Run(env, launchKey, events + [e]).shared.sealed && !Run(env, launchKey, events).shared.sealed ==>
              e.Go? && exists k: nat :: FirewallAnswered(env, launchKey, events, k) && events[k].i == e.i
  {
    SealIsSigned(env, launchKey, events, e);
    if Run(env, launchKey, events + [e]).shared.sealed && !Run(env, launchKey, events).shared.sealed {
      LockedDownWasAnswered(env, launchKey, events, e.i);
    }
  }

  /** A sealed node is enrolled, and the firewall had answered yes to an approved seal request. */
  lemma SealedMeansLocked(env: Env, launchKey: string, events: seq<Event>)
    requires env.suite.Lawful()
    ensures var sh := Run(env, launchKey, events).shared;
            sh.sealed ==> sh.isEnrolled && exists k: nat :: FirewallAnswered(env, launchKey, events, k)
  {
    RunKeeps(env, launchKey, events);
    LockedByAnswer(env, launchKey, events);
  }

  /** The attestation document names no key but the enrolled one. */
  lemma DocumentNamesTheKey(env: Env, launchKey: string, events: seq<Event>)
    requires env.suite.Lawful()
    ensures var sh := Run(env, launchKey, events).shared;
            sh.docKey.Some? ==> sh.isEnrolled && sh.docKey == Some(sh.publicKey)
  {
    RunKeeps(env, launchKey, events);
  }

  // ---------- the node's cache is a run of the verifier's cache ----------

  function AcceptedOf(e: LogEntry): Accepted {
    var ts := ParseInt64(e.signed.timestamp);
    Accepted(e.signed.nonce, if ts.Some? then ts.value else 0, e.at)
  }

  /** The cache and the log are those of the cache model on the attempts made so far. */
  ghost predicate CacheIsRun(env: Env, s: State) {
    var t := NonceCache.Run(env.lim, env.created, s.attempts);
    && t.cache == s.shared.cache && |t.log| == |s.log|
    && forall k :: 0 <= k < |s.log| ==> t.log[k] == AcceptedOf(s.log[k])
  }

  /** At most one attempt, with its effect on cache and log. */
  predicate OneAttempt(env: Env, sh: Shared, f: Effect) {
    if f.attempts == [] then f.entries == [] && f.shared.cache == sh.cache
    else
      var v := NonceCache.Step(env.lim, sh.cache, f.attempts[0]);
      && |f.attempts| == 1 && f.shared.cache == v.cache
      && (if v.accepted
          then |f.entries| == 1
               && AcceptedOf(f.entries[0]) == Accepted(f.attempts[0].nonce, f.attempts[0].ts, f.attempts[0].now)
          else f.entries == [])
  }

  lemma AuthenticateAttempts(env: Env, sh: Shared, i: nat, req: Incoming, key: string, now: int, next: nat)
    ensures OneAttempt(env, sh, Authenticate(env, sh, i, req, key, now, next))
  {
    match AuthOver(env.suite, req, env.limit)
    case Err(_) =>
    case Ok(over) => ChecksAreAttempt(env.lim.skew, now, over, req.sig, CheckSignature(env.suite, key, over, req.sig));
  }

  lemma BodilessAttempts(env: Env, sh: Shared, i: nat, req: Incoming, key: string, now: int, next: nat)
    ensures OneAttempt(env, sh, AuthenticateBodiless(env, sh, i, req, key, now, next))
  {
    var over := Bodiless(env, req);
    ChecksAreAttempt(env.lim.skew, now, over, req.sig, CheckSignature(env.suite, key, over, req.sig));
  }

  lemma PossessionAttempts(env: Env, sh: Shared, i: nat, req: Incoming, now: int, next: nat)
    ensures OneAttempt(env, sh, ProvePossession(env, sh, i, req, now, next))
  {
    var body := ReadContent(req.body, ENROLL_LIMIT);
    if body.Ok? && env.parseKey(body.value).Some? {
      ChecksAreAttempt(env.lim.skew, now, req.signed, req.sig,
                       CheckPossession(env.suite, env.parseKey(body.value).value, req.signed, body.value, req.sig));
    }
  }

  lemma QuietAttempts(env: Env, sh: Shared, i: nat, h: Handler, now: int, ok: bool, next: nat, at: nat)
    requires !Asks(h)
    ensures OneAttempt(env, sh, MoveOwn(env, sh, i, h, now, ok, next, at))
  {
  }

  lemma MoveAttempts(env: Env, sh: Shared, i: nat, h: Handler, now: int, ok: bool, next: nat, at: nat)
    ensures OneAttempt(env, sh, Move(env, sh, i, h, now, ok, next, at))
  {
    match h.phase
    case NeedAuth =>
    case KeyRead(key) =>
      AuthenticateAttempts(env, sh, i, h.req, key, now, next);
      BodilessAttempts(env, sh, i, h.req, key, now, next);
    case Rechecking(_, key) => BodilessAttempts(env, sh, i, h.req, key, now, next);
    case _ =>
      if Asks(h) { PossessionAttempts(env, sh, i, h.req, now, next); }
      else { QuietAttempts(env, sh, i, h, now, ok, next, at); }
  }

  lemma AfterIsRun(env: Env, s: State, i: nat, f: Effect)
    requires CacheIsRun(env, s) && i < |s.handlers| && OneAttempt(env, s.shared, f)
    ensures CacheIsRun(env, After(s, i, f))
  {
    var u := After(s, i, f);
    if f.attempts == [] {
      assert u.attempts == s.attempts && u.log == s.log;
    } else {
      assert u.attempts[..|u.attempts| - 1] == s.attempts && u.attempts[|u.attempts| - 1] == f.attempts[0];
    }
  }

  lemma {:induction false} NodeCacheIsRun(env: Env, launchKey: string, events: seq<Event>)
    ensures CacheIsRun(env, Run(env, launchKey, events))
  {
    if events != [] {
      var n := |events| - 1;
      NodeCacheIsRun(env, launchKey, events[..n]);
      var s := Run(env, launchKey, events[..n]);
      match events[n]
      case Go(i, now, ok) =>
        if i < |s.handlers| {
          MoveAttempts(env, s.shared, i, s.handlers[i], now, ok, |s.log|, |s.past|);
          AfterIsRun(env, s, i, MoveOf(env, s, i, now, ok));
        }
      case _ =>
    }
  }

  /** With clock readings late by at most `d`, two acceptances of one nonce, by handlers of any kind, are the
      time to live less `d` apart, or, where something was evicted, more than `maxCap` acceptances apart. */
  lemma NoncesAreFarApart(env: Env, launchKey: string, events: seq<Event>, d: int, j: nat, k: nat)
    requires env.lim.Valid() && LateBy(env.created, Run(env, launchKey, events).attempts, d)
    requires var log := Run(env, launchKey, events).log; j < k < |log| && log[j].signed.nonce == log[k].signed.nonce
    ensures var s := Run(env, launchKey, events);
            || s.log[k].at - s.log[j].at >= env.lim.ttl - d
            || (!NoEviction(env.lim, env.created, s.attempts) && k - j > env.lim.maxCap)
  {
    var s := Run(env, launchKey, events);
    NodeCacheIsRun(env, launchKey, events);
    RunApart(env.lim, env.created, s.attempts, d, !NoEviction(env.lim, env.created, s.attempts));
    var t := NonceCache.Run(env.lim, env.created, s.attempts);
    assert t.log[j] == AcceptedOf(s.log[j]) && t.log[k] == AcceptedOf(s.log[k]);
  }

  // ---------- what an interleaving can do ----------

  function RunOn(env: Env, s: State, events: seq<Event>): State
    decreases |events|
  {
    if events == [] then s else RunOn(env, Step(env, s, events[0]), events[1..])
  }

  lemma {:induction false} RunThenRunOn(env: Env, launchKey: string, before: seq<Event>, after: seq<Event>)
    ensures Run(env, launchKey, before + after) == RunOn(env, Run(env, launchKey, before), after)
    decreases |after|
  {
    hide Change;
    if after == [] {
      assert before + after == before;
    } else {
      var all := before + [after[0]];
      assert all + after[1..] == before + after && all[..|all| - 1] == before;
      RunThenRunOn(env, launchKey, all, after[1..]);
    }
  }

  function Times(e: Event, n: nat): seq<Event> { if n == 0 then [] else [e] + Times(e, n - 1) }

  lemma GoOnce(env: Env, s: State, e: Event, n: nat)
    requires n > 0
    ensures RunOn(env, s, Times(e, n)) == RunOn(env, Step(env, s, e), Times(e, n - 1))
  {
    assert Times(e, n)[1..] == Times(e, n - 1);
  }

  lemma {:induction false} RunOnAppend(env: Env, s: State, x: seq<Event>, y: seq<Event>)
    ensures RunOn(env, s, x + y) == RunOn(env, RunOn(env, s, x), y)
    decreases |x|
  {
    hide Change;
    if x == [] {
      assert x + y == y;
    } else {
      assert (x + y)[1..] == x[1..] + y;
      RunOnAppend(env, Step(env, s, x[0]), x[1..], y);
    }
  }

  lemma {:induction false} TimesAdd(e: Event, m: nat, n: nat)
    ensures Times(e, m + n) == Times(e, m) + Times(e, n)
  {
    if m > 0 {
      TimesAdd(e, m - 1, n);
      assert [e] + (Times(e, m - 1) + Times(e, n)) == Times(e, m) + Times(e, n);
    }
  }

  lemma GoMore(env: Env, s: State, e: Event, m: nat, n: nat)
    ensures RunOn(env, s, Times(e, m + n)) == RunOn(env, RunOn(env, s, Times(e, m)), Times(e, n))
  {
    hide Change;
    TimesAdd(e, m, n);
    RunOnAppend(env, s, Times(e, m), Times(e, n));
  }

  function AnswerTo(env: Env, key: string, c: Cache, req: Incoming, now: int): Answer {
    HeaderFirst(env.suite, key, env.lim, c, now, req, env.limit)
  }

  predicate LoadOrSeal(r: Route) { r == LoadModel || r == SealNode }

  function WithPhase(s: State, i: nat, p: Phase): seq<Handler>
    requires i < |s.handlers|
  {
    s.handlers[i := s.handlers[i].(phase := p)]
  }

  /** A new load or seal request on an enrolled, unsealed node, which the verifier accepts whole. */
  predicate Welcome(env: Env, s: State, i: nat, now: int) {
    match s
    case State(sh, handlers, _, _, _, _) =>
      && i < |handlers| && handlers[i].phase == New && LoadOrSeal(handlers[i].route)
      && sh.isEnrolled && !sh.sealed
      && AnswerTo(env, sh.publicKey, sh.cache, handlers[i].req, now).result.Ok?
  }

  /** `t` is `s` with handler `i` through the verifier. */
  predicate AuthedFrom(env: Env, s: State, t: State, i: nat, now: int) {
    match s
    case State(sh, handlers, log, _, _, _) =>
      && i < |handlers|
      && var a := AnswerTo(env, sh.publicKey, sh.cache, handlers[i].req, now);
         && a.result.Ok?
         && t.handlers == handlers[i := handlers[i].(phase := Authed(|log|, a.result.value))]
         && t.shared == sh.(cache := a.cache)
  }

  lemma FirstCheck(env: Env, s: State, i: nat, now: int)
    requires Welcome(env, s, i, now)
    ensures var t := Step(env, s, Go(i, now, true));
            && i < |s.handlers| && t.shared == s.shared && t.log == s.log
            && t.handlers == WithPhase(s, i, NeedAuth)
  {
    assert s.log + [] == s.log;
  }

  lemma KeyCheck(env: Env, s: State, i: nat, now: int)
    requires i < |s.handlers| && s.handlers[i].phase.NeedAuth? && s.shared.isEnrolled
    ensures var t := Step(env, s, Go(i, now, true));
            && t.shared == s.shared && t.log == s.log
            && t.handlers == WithPhase(s, i, KeyRead(s.shared.publicKey))
  {
    assert s.log + [] == s.log;
  }

  lemma BeforeAuth(env: Env, s: State, i: nat, now: int)
    requires Welcome(env, s, i, now)
    ensures var e := Go(i, now, true);
            var t := Step(env, Step(env, s, e), e);
            && i < |s.handlers| && t.shared == s.shared && t.log == s.log
            && t.handlers == WithPhase(s, i, KeyRead(s.shared.publicKey))
  {
    var t := Step(env, s, Go(i, now, true));
    FirstCheck(env, s, i, now);
    KeyCheck(env, t, i, now);
    assert WithPhase(t, i, KeyRead(s.shared.publicKey)) == WithPhase(s, i, KeyRead(s.shared.publicKey));
  }

  lemma AuthenticatesAs(env: Env, sh: Shared, i: nat, req: Incoming, now: int, next: nat)
    requires AnswerTo(env, sh.publicKey, sh.cache, req, now).result.Ok?
    ensures var f := Authenticate(env, sh, i, req, sh.publicKey, now, next);
            var a := AnswerTo(env, sh.publicKey, sh.cache, req, now);
            f.phase == Authed(next, a.result.value) && f.shared == sh.(cache := a.cache)
  {
  }

  lemma AuthStep(env: Env, s: State, t: State, i: nat, now: int)
    requires Welcome(env, s, i, now) && i < |s.handlers| && t.shared == s.shared && t.log == s.log
    requires t.handlers == WithPhase(s, i, KeyRead(s.shared.publicKey))
    ensures AuthedFrom(env, s, Step(env, t, Go(i, now, true)), i, now)
  {
    hide HeaderFirst, MoveOwn, Recheck, Authenticate, AuthenticateBodiless;
    AuthenticatesAs(env, s.shared, i, s.handlers[i].req, now, |s.log|);
  }

  /** Three steps take it through the first check and the verifier. */
  lemma Authenticates(env: Env, s: State, i: nat, now: int)
    requires Welcome(env, s, i, now)
    ensures AuthedFrom(env, s, RunOn(env, s, Times(Go(i, now, true), 3)), i, now)
  {
    var e := Go(i, now, true);
    var s1 := Step(env, s, e);
    var s2 := Step(env, s1, e);
    BeforeAuth(env, s, i, now);
    AuthStep(env, s, s2, i, now);
    GoThrice(env, s, e);
  }

  lemma GoThrice(env: Env, s: State, e: Event)
    ensures RunOn(env, s, Times(e, 3)) == Step(env, Step(env, Step(env, s, e), e), e)
  {
    hide Change;
    GoOnce(env, s, e, 3);
    GoOnce(env, Step(env, s, e), e, 2);
    GoOnce(env, Step(env, Step(env, s, e), e), e, 1);
  }

  lemma SealTail(env: Env, s: State, i: nat, now: int)
    requires i < |s.handlers| && s.handlers[i].phase.Authed? && s.handlers[i].route == SealNode
    requires env.parseForce(s.handlers[i].phase.body)
    ensures var t := RunOn(env, s, Times(Go(i, now, true), 3));
            t.handlers == WithPhase(s, i, Done(Performed)) && t.shared.sealed
  {
    var e := Go(i, now, true);
    var Authed(entry, body) := s.handlers[i].phase;
    var s1 := Step(env, s, e);
    var s2 := Step(env, s1, e);
    assert s1.handlers == WithPhase(s, i, Approved(entry, body, |s.past|));
    assert s2.handlers == WithPhase(s, i, LockedDown(entry, body, |s.past|));
    GoThrice(env, s, e);
  }

  predicate SealedFrom(s: State, t: State, i: nat) {
    match s
    case State(_, handlers, _, _, _, _) =>
      i < |handlers| && t.handlers == handlers[i := handlers[i].(phase := Done(Performed))] && t.shared.sealed
  }

  /** Three more steps take a forced seal all the way. */
  lemma SealFollows(env: Env, s: State, t: State, i: nat, now: int)
    requires Welcome(env, s, i, now) && AuthedFrom(env, s, t, i, now)
    requires i < |s.handlers| && s.handlers[i].route == SealNode
    requires env.parseForce(AnswerTo(env, s.shared.publicKey, s.shared.cache, s.handlers[i].req, now).result.value)
    ensures SealedFrom(s, RunOn(env, t, Times(Go(i, now, true), 3)), i)
  {
    SealTail(env, t, i, now);
  }

  lemma SealCompletes(env: Env, s: State, i: nat, now: int)
    requires Welcome(env, s, i, now) && i < |s.handlers| && s.handlers[i].route == SealNode
    requires env.parseForce(AnswerTo(env, s.shared.publicKey, s.shared.cache, s.handlers[i].req, now).result.value)
    ensures SealedFrom(s, RunOn(env, s, Times(Go(i, now, true), 6)), i)
  {
    var e := Go(i, now, true);
    Authenticates(env, s, i, now);
    SealFollows(env, s, RunOn(env, s, Times(e, 3)), i, now);
    GoMore(env, s, e, 3, 3);
  }

  /** A load and a forced seal have come in, and the verifier accepts one after the other. */
  predicate BothReady(env: Env, s: State, now: int) {
    match s
    case State(sh, handlers, _, _, _, _) =>
      && |handlers| == 2 && handlers[0].route == LoadModel && handlers[1].route == SealNode
      && handlers[0].phase == New && handlers[1].phase == New && sh.isEnrolled && !sh.sealed
      && var a := AnswerTo(env, sh.publicKey, sh.cache, handlers[0].req, now);
         && a.result.Ok?
         && var b := AnswerTo(env, sh.publicKey, a.cache, handlers[1].req, now);
            b.result.Ok? && env.parseForce(b.result.value)
  }

  /** The node is sealed, and the load has authenticated but not been carried out. */
  predicate LoadPending(s: State) {
    match s
    case State(sh, handlers, _, _, _, _) =>
      sh.sealed && |handlers| == 2 && handlers[0].route == LoadModel && handlers[0].phase.Authed?
  }

  lemma LoadThenSeal(env: Env, s: State, now: int)
    requires BothReady(env, s, now)
    ensures LoadPending(RunOn(env, s, Times(Go(0, now, true), 3) + Times(Go(1, now, true), 6)))
  {
    var x, y := Times(Go(0, now, true), 3), Times(Go(1, now, true), 6);
    Authenticates(env, s, 0, now);
    SealCompletes(env, RunOn(env, s, x), 1, now);
    RunOnAppend(env, s, x, y);
  }

  /** From `s` to `t` the load is carried out in a sealed node. */
  predicate LoadFollowsSeal(s: State, t: State) {
    match s
    case State(sh, handlers, _, _, _, _) =>
      && sh.sealed && |handlers| > 0 && handlers[0].route == LoadModel && !handlers[0].phase.Done?
      && |t.handlers| > 0 && t.handlers[0].phase == Done(Performed)
  }

  lemma LoadPerforms(env: Env, s: State, now: int)
    requires LoadPending(s)
    ensures LoadFollowsSeal(s, Step(env, s, Go(0, now, true)))
  {
  }

  function Arrivals(load: Incoming, seal: Incoming): seq<Event> { [] + [Arrive(load)] + [Arrive(seal)] }

  lemma ArrivalsRun(env: Env, key: string, load: Incoming, seal: Incoming)
    ensures var s := Run(env, key, Arrivals(load, seal));
            var sh := Initial(env, key).shared;
            && s.handlers == [NewHandler(sh, load), NewHandler(sh, seal)] && s.shared == sh && s.log == []
  {
    RunSnoc(env, key, [], Arrive(load));
    RunSnoc(env, key, [] + [Arrive(load)], Arrive(seal));
  }

  lemma ReadyLoadFollows(env: Env, s: State, now: int)
    requires BothReady(env, s, now)
    ensures var t := RunOn(env, s, Times(Go(0, now, true), 3) + Times(Go(1, now, true), 6));
            LoadFollowsSeal(t, Step(env, t, Go(0, now, true)))
  {
    LoadThenSeal(env, s, now);
    LoadPerforms(env, RunOn(env, s, Times(Go(0, now, true), 3) + Times(Go(1, now, true), 6)), now);
  }

  ghost predicate LoadFollowsSealIn(env: Env, key: string, events: seq<Event>, e: Event) {
    LoadFollowsSeal(Run(env, key, events), Run(env, key, events + [e]))
  }

  lemma FollowsFrom(env: Env, key: string, before: seq<Event>, after: seq<Event>, now: int)
    requires BothReady(env, Run(env, key, before), now)
    requires after == Times(Go(0, now, true), 3) + Times(Go(1, now, true), 6)
    ensures LoadFollowsSealIn(env, key, before + after, Go(0, now, true))
  {
    hide Change;
    ReadyLoadFollows(env, Run(env, key, before), now);
    RunThenRunOn(env, key, before, after);
    RunSnoc(env, key, before + after, Go(0, now, true));
  }

  lemma ArrivalsReady(env: Env, key: string, load: Incoming, seal: Incoming, now: int)
    requires |key| == PUBLIC_KEY_SIZE
    requires RouteOf(load.signed.verb, load.signed.path) == LoadModel
    requires RouteOf(seal.signed.verb, seal.signed.path) == SealNode
    requires var a := AnswerTo(env, key, EmptyCache(env.created), load, now);
             a.result.Ok? && var b := AnswerTo(env, key, a.cache, seal, now);
                             b.result.Ok? && env.parseForce(b.result.value)
    ensures BothReady(env, Run(env, key, Arrivals(load, seal)), now)
  {
    ArrivalsRun(env, key, load, seal);
  }

  /** A load that came in before the seal can be carried out after it: its seal check is not repeated.  Any load
      and forced seal that the verifier accepts one after the other can do this. */
  lemma LoadMayFollowSeal(env: Env, key: string, load: Incoming, seal: Incoming, now: int)
    requires |key| == PUBLIC_KEY_SIZE
    requires load.signed.verb == "POST" && load.signed.path == "/v1/models/load"
    requires seal.signed.verb == "POST" && seal.signed.path == "/v1/system/seal"
    requires var a := AnswerTo(env, key, EmptyCache(env.created), load, now);
             a.result.Ok? && var b := AnswerTo(env, key, a.cache, seal, now);
                             b.result.Ok? && env.parseForce(b.result.value)
    ensures exists events, e :: LoadFollowsSealIn(env, key, events, e)
  {
    hide Change, RouteOf, HeaderFirst, Run, BothReady, LoadFollowsSealIn;
    PathsOfRoutes(load.signed.verb, load.signed.path);
    PathsOfRoutes(seal.signed.verb, seal.signed.path);
    ArrivalsReady(env, key, load, seal, now);
    FollowsFrom(env, key, Arrivals(load, seal), Times(Go(0, now, true), 3) + Times(Go(1, now, true), 6), now);
  }
}
