/** What a node does serve: one request of each kind, alone on a node, is carried out. */
module NodeService {
  import opened Wrappers
  import NonceCache
  import opened Verifier
  import opened Visibility
  import opened Node
  import opened NodePaths

  // ---------- one handler alone ----------

  function Go0(now: int): Event { Go(0, now, true) }

  lemma SoloMoves(env: Env, s: State, route: Route, req: Incoming, phase: Phase, now: int)
    requires Solo(s, route, req, phase)
    ensures var f := MoveOf(env, s, 0, now, true);
            Solo(Step(env, s, Go0(now)), route, req, f.phase) && Step(env, s, Go0(now)).shared == f.shared
  {
    hide Move;
  }

  // ---------- from the key to the end ----------

  predicate ReadsBodiless(route: Route) { route.ReadPolicy? || route.ListModels? }

  /** The verifier lets the request through with this body. */
  predicate LetThrough(env: Env, sh: Shared, route: Route, req: Incoming, now: int, body: string) {
    if ReadsBodiless(route) then
      Bodyless(env.suite, sh.publicKey, env.lim, sh.cache, now, req).error.None? && body == ""
    else HeaderFirst(env.suite, sh.publicKey, env.lim, sh.cache, now, req, env.limit).result == Ok(body)
  }

  lemma ReadsTheKey(env: Env, s: State, route: Route, req: Incoming, now: int)
    requires Solo(s, route, req, NeedAuth) && s.shared.isEnrolled
    ensures var t := Step(env, s, Go0(now));
            Solo(t, route, req, KeyRead(s.shared.publicKey)) && t.shared == s.shared
  {
    SoloMoves(env, s, route, req, NeedAuth, now);
  }

  lemma Verifies(env: Env, s: State, route: Route, req: Incoming, now: int, body: string)
    requires Solo(s, route, req, KeyRead(s.shared.publicKey)) && LetThrough(env, s.shared, route, req, now, body)
    ensures var t := Step(env, s, Go0(now));
            && Solo(t, route, req, Authed(|s.log|, body))
            && t.shared == s.shared.(cache := t.shared.cache)
  {
    hide Judge, CheckSignature;
    SoloMoves(env, s, route, req, KeyRead(s.shared.publicKey), now);
  }

  /** What is carried out once the signature is checked. */
  predicate Performable(env: Env, sh: Shared, route: Route, req: Incoming, body: string) {
    match route
    case LoadModel => true
    case SetPolicy => env.parseUpdate(body).Some?
    case ReadPolicy => true
    case ListModels => true
    case Guarded(_) => true
    case Root => IsInference(req.signed.path) && sh.engineReady
    case _ => false
  }

  lemma Performs(env: Env, s: State, route: Route, req: Incoming, entry: nat, body: string, now: int)
    requires Solo(s, route, req, Authed(entry, body)) && Performable(env, s.shared, route, req, body)
    ensures var t := Step(env, s, Go0(now));
            && Solo(t, route, req, Done(Performed))
            && (route.SetPolicy? ==>
                  t.shared.policy == PolicyAfter(env.suite.letters, s.shared.policy, env.parseUpdate(body).value))
  {
    SoloMoves(env, s, route, req, Authed(entry, body), now);
  }

  lemma ThreeSteps(env: Env, s: State, route: Route, req: Incoming, now: int, body: string)
    requires Solo(s, route, req, NeedAuth) && s.shared.isEnrolled
    requires LetThrough(env, s.shared, route, req, now, body) && Performable(env, s.shared, route, req, body)
    ensures var t := RunOn(env, s, Times(Go0(now), 3));
            && Solo(t, route, req, Done(Performed))
            && (route.SetPolicy? ==>
                  t.shared.policy == PolicyAfter(env.suite.letters, s.shared.policy, env.parseUpdate(body).value))
  {
    hide Step, LetThrough, PolicyAfter;
    var s1 := Step(env, s, Go0(now));
    var s2 := Step(env, s1, Go0(now));
    ReadsTheKey(env, s, route, req, now);
    Verifies(env, s1, route, req, now, body);
    Performs(env, s2, route, req, |s1.log|, body, now);
    GoThrice(env, s, Go0(now));
  }

  // ---------- from arrival to the key ----------

  /** How many steps lead to the key check on an enrolled, unsealed node, and the routes where they do. */
  function StepsToKey(sh: Shared, route: Route, path: string): Option<nat> {
    match route
    case LoadModel => Some(1)
    case SetPolicy => Some(1)
    case ReadPolicy => Some(1)
    case ListModels => Some(1)
    case Guarded(endpoint) => if SettingOf(sh.policy, endpoint) == Hidden then Some(3) else None
    case Root => if RequiresAuthPath(path) then Some(2) else None
    case _ => None
  }

  lemma TwoMoves(env: Env, s: State, now: int)
    ensures RunOn(env, s, Times(Go0(now), 1)) == Step(env, s, Go0(now))
    ensures RunOn(env, s, Times(Go0(now), 2)) == Step(env, Step(env, s, Go0(now)), Go0(now))
  {
    hide Step;
    GoOnce(env, s, Go0(now), 1);
    GoOnce(env, s, Go0(now), 2);
    GoOnce(env, Step(env, s, Go0(now)), Go0(now), 1);
  }

  lemma ComesToKey(env: Env, s: State, route: Route, req: Incoming, now: int)
    requires Solo(s, route, req, New) && s.shared.isEnrolled && !s.shared.sealed
    requires StepsToKey(s.shared, route, req.signed.path).Some?
    ensures var t := RunOn(env, s, Times(Go0(now), StepsToKey(s.shared, route, req.signed.path).value));
            Solo(t, route, req, NeedAuth) && t.shared == s.shared
  {
    hide Step, RunOn;
    var s1 := Step(env, s, Go0(now));
    SoloMoves(env, s, route, req, New, now);
    TwoMoves(env, s, now);
    if route.Root? {
      SoloMoves(env, s1, route, req, Checked, now);
    } else if route.Guarded? {
      SoloMoves(env, s1, route, req, Checked, now);
      var read := PolicyRead(SettingOf(s.shared.policy, route.endpoint), |s1.past|);
      SoloMoves(env, Step(env, s1, Go0(now)), route, req, read, now);
      GoThrice(env, s, Go0(now));
    }
  }

  lemma SignedSteps(env: Env, s: State, route: Route, req: Incoming, now: int, body: string)
    requires Solo(s, route, req, New) && s.shared.isEnrolled && !s.shared.sealed
    requires StepsToKey(s.shared, route, req.signed.path).Some?
    requires LetThrough(env, s.shared, route, req, now, body) && Performable(env, s.shared, route, req, body)
    ensures var n := StepsToKey(s.shared, route, req.signed.path).value + 3;
            var t := RunOn(env, s, Times(Go0(now), n));
            && Solo(t, route, req, Done(Performed))
            && (route.SetPolicy? ==>
                  t.shared.policy == PolicyAfter(env.suite.letters, s.shared.policy, env.parseUpdate(body).value))
  {
    hide Step, RunOn, LetThrough, Performable, PolicyAfter;
    var n := StepsToKey(s.shared, route, req.signed.path).value;
    ComesToKey(env, s, route, req, now);
    ThreeSteps(env, RunOn(env, s, Times(Go0(now), n)), route, req, now, body);
    GoMore(env, s, Go0(now), n, 3);
  }

  // ---------- on a node launched with a key ----------

  /** The engine's state, then the request alone. */
  function Asked(req: Incoming, ready: bool, now: int, n: nat): seq<Event> {
    [] + [EngineIs(ready)] + [Arrive(req)] + Times(Go0(now), n)
  }

  lemma Arrives(env: Env, key: string, req: Incoming, ready: bool)
    ensures var s := Run(env, key, [] + [EngineIs(ready)] + [Arrive(req)]);
            && Solo(s, RouteOf(req.signed.verb, req.signed.path), req, New)
            && s.shared == Initial(env, key).shared.(engineReady := ready)
  {
    hide RouteOf;
    RunSnoc(env, key, [], EngineIs(ready));
    RunSnoc(env, key, [] + [EngineIs(ready)], Arrive(req));
  }

  /** After some steps of its own the request is done, as asked. */
  ghost predicate Served(env: Env, key: string, req: Incoming, ready: bool, now: int) {
    exists n :: ServedIn(env, key, req, ready, now, n)
  }

  ghost predicate ServedIn(env: Env, key: string, req: Incoming, ready: bool, now: int, n: nat) {
    var hs := Run(env, key, Asked(req, ready, now, n)).handlers;
    |hs| == 1 && hs[0].req == req && hs[0].phase == Done(Performed)
  }

  lemma SignedIsServed(env: Env, key: string, req: Incoming, ready: bool, now: int, body: string)
    requires |key| == PUBLIC_KEY_SIZE
    requires var sh := Initial(env, key).shared.(engineReady := ready);
             var route := RouteOf(req.signed.verb, req.signed.path);
             && StepsToKey(sh, route, req.signed.path).Some?
             && LetThrough(env, sh, route, req, now, body) && Performable(env, sh, route, req, body)
    ensures Served(env, key, req, ready, now)
    ensures var route := RouteOf(req.signed.verb, req.signed.path);
            route.SetPolicy? ==>
              Run(env, key, Asked(req, ready, now, 4)).shared.policy
              == PolicyAfter(env.suite.letters, DEFAULT_POLICY, env.parseUpdate(body).value)
  {
    hide RouteOf, RunOn, Run, LetThrough, Performable, PolicyAfter;
    var start := [] + [EngineIs(ready)] + [Arrive(req)];
    var s := Run(env, key, start);
    var n := StepsToKey(s.shared, RouteOf(req.signed.verb, req.signed.path), req.signed.path);
    Arrives(env, key, req, ready);
    SignedSteps(env, s, RouteOf(req.signed.verb, req.signed.path), req, now, body);
    RunThenRunOn(env, key, start, Times(Go0(now), n.value + 3));
    assert ServedIn(env, key, req, ready, now, n.value + 3);
  }

  /** A request that the verifier lets through with its body is carried out: a load, a policy update, which then
      takes effect, an egress probe though it is hidden, and inference once the engine is ready. */
  lemma SignedRequestsAreServed(env: Env, key: string, req: Incoming, ready: bool, now: int, body: string)
    requires |key| == PUBLIC_KEY_SIZE
    requires HeaderFirst(env.suite, key, env.lim, NonceCache.EmptyCache(env.created), now, req, env.limit).result == Ok(body)
    ensures req.signed.verb == "POST" && req.signed.path == "/v1/models/load" ==> Served(env, key, req, ready, now)
    ensures req.signed.verb == "POST" && req.signed.path == "/v1/admin/visibility" && env.parseUpdate(body).Some? ==>
              && Served(env, key, req, ready, now)
              && Run(env, key, Asked(req, ready, now, 4)).shared.policy
                 == PolicyAfter(env.suite.letters, DEFAULT_POLICY, env.parseUpdate(body).value)
    ensures req.signed.path == "/v1/system/probe-egress" ==> Served(env, key, req, ready, now)
    ensures ready && req.signed.path in {"/v1/chat/completions", "/v1/completions", "/v1/embeddings", "/v1/messages",
                                         "/tokenize", "/detokenize"} ==>
              Served(env, key, req, ready, now)
  {
    hide RouteOf, HeaderFirst, Run, Served, PolicyAfter;
    PathsOfRoutes(req.signed.verb, req.signed.path);
    var route := RouteOf(req.signed.verb, req.signed.path);
    if req.signed.path in {"/v1/chat/completions", "/v1/completions", "/v1/embeddings", "/v1/messages", "/tokenize", "/detokenize"} {
      InferenceIsRoot(req.signed.verb, req.signed.path);
    }
    if route in {LoadModel, Guarded(ProbeEgress)} || (route == SetPolicy && env.parseUpdate(body).Some?)
       || (route == Root && ready && IsInference(req.signed.path) && RequiresAuthPath(req.signed.path)) {
      SignedIsServed(env, key, req, ready, now, body);
    }
  }

  lemma InferenceIsRoot(verb: string, path: string)
    requires path in {"/v1/chat/completions", "/v1/completions", "/v1/embeddings", "/v1/messages", "/tokenize", "/detokenize"}
    ensures RouteOf(verb, path) == Root && IsInference(path) && RequiresAuthPath(path)
  {
    assert "/v1/completions"[4] == 'c' && "/v1/embeddings"[4] == 'e' && "/v1/auth/enroll"[4] == 'a';
    assert "/v1/system/seal"[4] == 's' && "/v1/models/load"[4] == 'm' && "/v1/attestation"[4] == 'a';
    assert "/v1/completions"[5] == 'o' && "/v1/chat/completions"[4] == 'c' && "/v1/admin/visibility"[4] == 'a';
    assert "/v1/messages"[4] == 'm';
  }

  /** So are reads of the policy and of the models, for a request signed over the empty body. */
  lemma SignedReadsAreServed(env: Env, key: string, req: Incoming, ready: bool, now: int)
    requires |key| == PUBLIC_KEY_SIZE
    requires Bodyless(env.suite, key, env.lim, NonceCache.EmptyCache(env.created), now, req).error.None?
    requires req.signed.verb == "GET" && req.signed.path in {"/v1/admin/visibility", "/v1/models"}
    ensures Served(env, key, req, ready, now)
  {
    hide Bodyless, Run, Served;
    VerbsDiffer();
    SignedIsServed(env, key, req, ready, now, "");
  }

  lemma VerbsDiffer()
    ensures "GET" != "POST"
    ensures RouteOf("GET", "/v1/admin/visibility") == ReadPolicy && RouteOf("GET", "/v1/models") == ListModels
  {
  }

  // ---------- without a signature ----------

  lemma PublicSteps(env: Env, s: State, endpoint: Endpoint, req: Incoming, now: int)
    requires Solo(s, Guarded(endpoint), req, New) && s.shared.isEnrolled && !s.shared.sealed
    requires SettingOf(s.shared.policy, endpoint) == Public
    ensures Solo(RunOn(env, s, Times(Go0(now), 4)), Guarded(endpoint), req, Done(Performed))
  {
    hide Step, RunOn;
    var route := Guarded(endpoint);
    var s1 := Step(env, s, Go0(now));
    var s2 := Step(env, s1, Go0(now));
    var s3 := Step(env, s2, Go0(now));
    SoloMoves(env, s, route, req, New, now);
    SoloMoves(env, s1, route, req, Checked, now);
    SoloMoves(env, s2, route, req, PolicyRead(Public, |s1.past|), now);
    SoloMoves(env, s3, route, req, Open(PublicAndUnsealed(|s1.past|, |s2.past|)), now);
    GoThrice(env, s, Go0(now));
    TwoMoves(env, s3, now);
    GoMore(env, s, Go0(now), 3, 1);
  }

  lemma FirstReadSteps(env: Env, s: State, endpoint: Endpoint, req: Incoming, now: int)
    requires Solo(s, Guarded(endpoint), req, New) && !s.shared.isEnrolled && endpoint in {Attestation, Certificate}
    ensures Solo(RunOn(env, s, Times(Go0(now), 2)), Guarded(endpoint), req, Done(Performed))
  {
    hide Step, RunOn;
    SoloMoves(env, s, Guarded(endpoint), req, New, now);
    SoloMoves(env, Step(env, s, Go0(now)), Guarded(endpoint), req, Open(Unenrolled(|s.past|)), now);
    TwoMoves(env, s, now);
  }

  /** Whatever its headers: attestation, certificate and health are served by a node launched with a key, and the
      first two by one that has none yet. */
  lemma UnsignedReadsAreServed(env: Env, key: string, req: Incoming, ready: bool, now: int)
    requires if |key| == PUBLIC_KEY_SIZE then req.signed.path in ATTESTATION_PATHS + CERTIFICATE_PATHS + HEALTH_PATHS
             else req.signed.path in ATTESTATION_PATHS + CERTIFICATE_PATHS
    ensures Served(env, key, req, ready, now)
  {
    hide RouteOf, RunOn, Run;
    var start := [] + [EngineIs(ready)] + [Arrive(req)];
    var s := Run(env, key, start);
    PathsOfRoutes(req.signed.verb, req.signed.path);
    Arrives(env, key, req, ready);
    var endpoint := RouteOf(req.signed.verb, req.signed.path).endpoint;
    var n := if |key| == PUBLIC_KEY_SIZE then 4 else 2;
    if |key| == PUBLIC_KEY_SIZE {
      PublicSteps(env, s, endpoint, req, now);
    } else {
      FirstReadSteps(env, s, endpoint, req, now);
    }
    RunThenRunOn(env, key, start, Times(Go0(now), n));
    assert ServedIn(env, key, req, ready, now, n);
  }
}
