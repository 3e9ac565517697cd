/** What the node's runs mean for the paths and methods that clients use, and that enrolment can succeed. */
module NodePaths {
  import opened Wrappers
  import NonceCache
  import opened Verifier
  import opened Visibility
  import opened Node

  // ---------- handlers go by the path they were asked for ----------

  predicate RoutedByPath(h: Handler) { h.route == RouteOf(h.req.signed.verb, h.req.signed.path) }

  predicate AllRouted(s: State) {
    forall i :: 0 <= i < |s.handlers| ==> RoutedByPath(s.handlers[i])
  }

  lemma {:induction false} RunRouted(env: Env, launchKey: string, events: seq<Event>)
    ensures AllRouted(Run(env, launchKey, events))
  {
    hide RouteOf, Move;
    if events != [] { RunRouted(env, launchKey, events[..|events| - 1]); }
  }

  predicate IsPost(h: Handler, paths: set<string>) { h.req.signed.verb == "POST" && h.req.signed.path in paths }

  /** What is shared changes only by the one kind of request meant for it: a POST to its path. */
  lemma ChangesByPath(env: Env, launchKey: string, events: seq<Event>, e: Event)
    requires env.suite.Lawful()
    ensures var s, t := Run(env, launchKey, events), Run(env, launchKey, events + [e]);
            && (s.shared.policy != t.shared.policy || s.shared.sealed != t.shared.sealed
                || s.shared.egressLocked != t.shared.egressLocked || s.shared.docKey != t.shared.docKey
                || s.shared.isEnrolled != t.shared.isEnrolled || s.shared.publicKey != t.shared.publicKey ==>
                  e.Go? && e.i < |s.handlers|)
            && (s.shared.policy != t.shared.policy ==> IsPost(s.handlers[e.i], {"/v1/admin/visibility"}))
            && (s.shared.sealed != t.shared.sealed || s.shared.egressLocked != t.shared.egressLocked ==>
                  IsPost(s.handlers[e.i], {"/v1/system/seal"}))
            && (s.shared.isEnrolled != t.shared.isEnrolled || s.shared.publicKey != t.shared.publicKey
                || s.shared.docKey != t.shared.docKey ==>
                  IsPost(s.handlers[e.i], {"/v1/auth/register", "/v1/auth/enroll"}))
  {
    hide RouteOf, Move;
    var s := Run(env, launchKey, events);
    RunSnoc(env, launchKey, events, e);
    RunRouted(env, launchKey, events);
    if e.Go? && e.i < |s.handlers| {
      var h := s.handlers[e.i];
      MoveEffects(env, s.shared, e.i, h, e.now, e.ok, |s.log|, |s.past|);
      PathsOfRoutes(h.req.signed.verb, h.req.signed.path);
      assert RoutedByPath(h);
    }
  }

  /** The setting that was in force for the paths of one endpoint. */
  predicate PublicPath(p: Policy, path: string) {
    || (path in ATTESTATION_PATHS && p.attestation == Public)
    || (path in CERTIFICATE_PATHS && p.certificate == Public)
    || (path in HEALTH_PATHS && p.health == Public)
    || (path == "/v1/system/probe-egress" && p.probeEgress == Public)
  }

  /** Why a request at this path was let through unsigned. */
  ghost predicate ReasonAtPath(env: Env, launchKey: string, events: seq<Event>, path: string, why: Reason) {
    match why
    case Unenrolled(at) =>
      && path in ATTESTATION_PATHS + CERTIFICATE_PATHS
      && at < |events| && !Run(env, launchKey, events[..at]).shared.isEnrolled
    case PublicAndUnsealed(readAt, sealAt) =>
      && readAt < sealAt < |events| && PublicPath(Run(env, launchKey, events[..readAt]).shared.policy, path)
      && !Run(env, launchKey, events[..sealAt]).shared.sealed
    case Unprotected => false
  }

  /** Whatever is done without a signature is a read at one of eight paths: before enrolment at those of attestation
      and certificate, later at those that the policy made public, the node being unsealed. */
  lemma UnsignedPaths(env: Env, launchKey: string, events: seq<Event>, k: nat)
    requires env.suite.Lawful() && k < |Run(env, launchKey, events).actions|
    requires Run(env, launchKey, events).actions[k].basis.Unauthenticated?
    ensures var s := Run(env, launchKey, events);
            var a := s.actions[k];
            a.owner < |s.handlers|
            && ReasonAtPath(env, launchKey, events, s.handlers[a.owner].req.signed.path, a.basis.why)
  {
    hide RouteOf, Run;
    ActionsAreOwned(env, launchKey, events, k);
    RunRouted(env, launchKey, events);
    var s := Run(env, launchKey, events);
    var h := s.handlers[s.actions[k].owner];
    assert RoutedByPath(h);
    PathsOfRoutes(h.req.signed.verb, h.req.signed.path);
    assert h.route.endpoint != Unlisted;
  }

  /** The egress probe is public, or another endpoint hidden, only after a step that changed the policy. */
  lemma {:induction false} PolicyWasChanged(env: Env, launchKey: string, events: seq<Event>) returns (j: nat)
    requires var p := Run(env, launchKey, events).shared.policy;
             p.probeEgress == Public || p.attestation == Hidden || p.certificate == Hidden || p.health == Hidden
    ensures j < |events|
    ensures Run(env, launchKey, events[..j]).shared.policy != Run(env, launchKey, events[..j + 1]).shared.policy
  {
    hide Step;
    var n := |events| - 1;
    if Run(env, launchKey, events[..n]).shared.policy == Run(env, launchKey, events).shared.policy {
      j := PolicyWasChanged(env, launchKey, events[..n]);
      assert events[..n][..j] == events[..j] && events[..n][..j + 1] == events[..j + 1];
    } else {
      j := n;
      assert events[..n + 1] == events;
    }
  }

  // ---------- enrolment can succeed ----------

  /** A POST to an enrolment path with a key in its body that signed it. */
  ghost predicate Enrolling(env: Env, req: Incoming, key: string, now: int) {
    && req.signed.verb == "POST" && req.signed.path in {"/v1/auth/register", "/v1/auth/enroll"}
    && req.body.Some? && |req.body.value| <= 0x10_0000
    && env.parseKey(req.body.value) == Some(key) && |key| == 32
    && Presentable(env.lim.skew, now, req.signed, req.sig)
    && (|| Signs(env.suite, key, req.signed, env.suite.digestHex(req.body.value), req.sig)
        || (req.signed.bodyHash != "" && Signs(env.suite, key, req.signed, req.signed.bodyHash, req.sig)))
  }

  lemma PossessionAuthenticates(env: Env, sh: Shared, i: nat, req: Incoming, key: string, now: int, next: nat)
    requires env.lim.Valid() && Enrolling(env, req, key, now) && sh.cache.seen == map[]
    ensures var f := ProvePossession(env, sh, i, req, now, next);
            f.phase == Authed(next, req.body.value) && f.shared.isEnrolled == sh.isEnrolled
  {
    hide Judge, CheckPossession, Presentable, Signs;
    PossessionAcceptedIff(env.suite, key, env.lim, sh.cache, now, req.signed, req.body.value, req.sig);
    EmptySeesNothing(sh.cache, env.lim.ttl, now);
  }

  lemma {:induction false} EmptyStaysEmpty(c: NonceCache.Cache, cutoff: int)
    requires c.seen == map[]
    ensures NonceCache.Prune(c, cutoff).seen == map[]
    decreases |c.order|
  {
    if c.order != [] && c.order[0].addedAt <= cutoff { EmptyStaysEmpty(NonceCache.DropOldest(c), cutoff); }
  }

  lemma EmptySeesNothing(c: NonceCache.Cache, ttl: int, now: int)
    requires c.seen == map[]
    ensures NonceCache.Sweep(c, ttl, now).seen == map[]
  {
    EmptyStaysEmpty(c, now - ttl);
  }

  /** One handler, and how far it is. */
  predicate Solo(s: State, route: Route, req: Incoming, phase: Phase) {
    && |s.handlers| == 1
    && s.handlers[0].route == route && s.handlers[0].req == req && s.handlers[0].phase == phase
  }

  lemma EnrolArrives(env: Env, req: Incoming)
    requires RouteOf(req.signed.verb, req.signed.path) == EnrollKey
    ensures var s := Run(env, "", [] + [Arrive(req)]);
            Solo(s, EnrollKey, req, New) && !s.shared.isEnrolled && s.shared.cache.seen == map[]
  {
    hide RouteOf;
    RunSnoc(env, "", [], Arrive(req));
  }

  lemma EnrolChecks(env: Env, s: State, req: Incoming, now: int)
    requires Solo(s, EnrollKey, req, New) && !s.shared.isEnrolled
    ensures var t := Step(env, s, Go(0, now, true));
            Solo(t, EnrollKey, req, Checked) && t.shared == s.shared
  {
  }

  lemma EnrolProves(env: Env, s: State, req: Incoming, key: string, now: int)
    requires env.lim.Valid() && Solo(s, EnrollKey, req, Checked) && !s.shared.isEnrolled && s.shared.cache.seen == map[]
    requires Enrolling(env, req, key, now)
    ensures var t := Step(env, s, Go(0, now, true));
            Solo(t, EnrollKey, req, Authed(|s.log|, req.body.value)) && !t.shared.isEnrolled
  {
    hide ProvePossession, Enrolling;
    PossessionAuthenticates(env, s.shared, 0, req, key, now, |s.log|);
  }

  lemma EnrolLatches(env: Env, s: State, req: Incoming, body: string, key: string, entry: nat, now: int)
    requires Solo(s, EnrollKey, req, Authed(entry, body)) && !s.shared.isEnrolled
    requires env.parseKey(body) == Some(key) && |key| == 32
    ensures var t := Step(env, s, Go(0, now, true));
            Solo(t, EnrollKey, req, KeySet(key)) && t.shared.isEnrolled && t.shared.publicKey == key
  {
  }

  lemma EnrolPublishes(env: Env, s: State, req: Incoming, key: string, now: int)
    requires Solo(s, EnrollKey, req, KeySet(key)) && s.shared.isEnrolled && s.shared.publicKey == key
    ensures var t := Step(env, s, Go(0, now, true));
            && Solo(t, EnrollKey, req, Done(Performed)) && t.shared.isEnrolled && t.shared.publicKey == key
            && (env.hasDoc ==> t.shared.docKey == Some(key))
  {
  }

  /** Five steps: arrival, enrolment check, proof of possession, latch, document. */
  function EnrolEvents(req: Incoming, now: int): seq<Event> {
    var go := Go(0, now, true);
    [] + [Arrive(req)] + [go] + [go] + [go] + [go]
  }

  /** A node without a key enrols whoever signed for the key in the body, by either path, and its document then
      names that key. */
  lemma EnrolmentCanSucceed(env: Env, req: Incoming, key: string, now: int)
    requires env.lim.Valid() && Enrolling(env, req, key, now)
    ensures var s := Run(env, "", EnrolEvents(req, now));
            && Solo(s, EnrollKey, req, Done(Performed)) && s.shared.isEnrolled && s.shared.publicKey == key
            && (env.hasDoc ==> s.shared.docKey == Some(key))
  {
    hide Run, Step, Presentable, Signs;
    var go := Go(0, now, true);
    var e1 := [] + [Arrive(req)];
    PathsOfRoutes(req.signed.verb, req.signed.path);
    EnrolArrives(env, req);
    RunSnoc(env, "", e1, go);
    RunSnoc(env, "", e1 + [go], go);
    RunSnoc(env, "", e1 + [go] + [go], go);
    RunSnoc(env, "", e1 + [go] + [go] + [go], go);
    var s1 := Run(env, "", e1);
    var s2 := Run(env, "", e1 + [go]);
    var s3 := Run(env, "", e1 + [go] + [go]);
    EnrolChecks(env, s1, req, now);
    EnrolProves(env, s2, req, key, now);
    EnrolLatches(env, s3, req, req.body.value, key, |s2.log|, now);
    EnrolPublishes(env, Run(env, "", e1 + [go] + [go] + [go]), req, key, now);
  }
}
