/** The visibility policy of `pkg/proxy/visibility.go`. */
module Visibility {
  import opened Wrappers
  import opened Text
  import opened Canonical

  datatype Setting = Public | Hidden

  datatype Endpoint = Attestation | Certificate | Health | ProbeEgress | Unlisted

  datatype Policy = Policy(attestation: Setting, certificate: Setting, health: Setting, probeEgress: Setting)

  const DEFAULT_POLICY := Policy(Public, Public, Public, Hidden)

  datatype Update = Update(all: Option<string>, attestation: Option<string>, certificate: Option<string>,
                           health: Option<string>, probeEgress: Option<string>)

  function SettingOf(p: Policy, e: Endpoint): Setting {
    match e
    case Attestation => p.attestation
    case Certificate => p.certificate
    case Health => p.health
    case ProbeEgress => p.probeEgress
    case Unlisted => Hidden
  }

  function ParseSetting(letters: Case, val: string): Option<Setting> {
    var s := letters.lower(Trim(val));
    if s == "public" then Some(Public) else if s == "hidden" then Some(Hidden) else None
  }

  // ---------- what an update means ----------

  /** The update's text for one endpoint, `all` standing for every one. */
  function Given(u: Update, e: Endpoint): Option<string> {
    if u.all.Some? then u.all
    else
      match e
      case Attestation => u.attestation
      case Certificate => u.certificate
      case Health => u.health
      case ProbeEgress => u.probeEgress
      case Unlisted => None
  }

  predicate Bad(letters: Case, u: Update, e: Endpoint) {
    Given(u, e).Some? && ParseSetting(letters, Given(u, e).value).None?
  }

  /** The order in which an update is applied. */
  const ORDER: seq<Endpoint> := [Attestation, Certificate, Health, ProbeEgress]

  /** The position of the first bad setting, or 4. */
  function FirstBad(letters: Case, u: Update, k: nat): nat
    requires k <= 4
    decreases 4 - k
  {
    if k == 4 || Bad(letters, u, ORDER[k]) then k else FirstBad(letters, u, k + 1)
  }

  /** Endpoint by endpoint: set if given and before the first bad one, else as it was. */
  function SettingAfter(letters: Case, p: Policy, u: Update, k: nat): Setting
    requires k < 4
  {
    if k < FirstBad(letters, u, 0) && Given(u, ORDER[k]).Some?
    then ParseSetting(letters, Given(u, ORDER[k]).value).value
    else SettingOf(p, ORDER[k])
  }

  function PolicyAfter(letters: Case, p: Policy, u: Update): Policy {
    Policy(SettingAfter(letters, p, u, 0), SettingAfter(letters, p, u, 1), SettingAfter(letters, p, u, 2),
           SettingAfter(letters, p, u, 3))
  }

  lemma {:induction false} FirstBadIsFirst(letters: Case, u: Update, k: nat)
    requires k <= 4
    ensures k <= FirstBad(letters, u, k) <= 4
    ensures FirstBad(letters, u, k) < 4 ==> Bad(letters, u, ORDER[FirstBad(letters, u, k)])
    ensures forall j :: k <= j < FirstBad(letters, u, k) ==> !Bad(letters, u, ORDER[j])
    decreases 4 - k
  {
    if k < 4 && !Bad(letters, u, ORDER[k]) { FirstBadIsFirst(letters, u, k + 1); }
  }

  class VisibilityManager {
    const letters: Case
    var policy: Policy

    constructor (letters: Case)
      ensures policy == DEFAULT_POLICY && this.letters == letters
    {
      this.letters := letters;
      policy := DEFAULT_POLICY;
    }

    /** Field by field: a bad setting ends the update, and what was set before it stays set. */
    method UpdatePolicy(u: Update) returns (ok: bool)
      modifies this
      ensures policy == PolicyAfter(letters, old(policy), u)
      ensures ok <==> FirstBad(letters, u, 0) == 4
      ensures ok <==> Sayable(letters, u)
      ensures ok ==> Followed(letters, u, old(policy), policy)
    {
      UpdateFollowsText(letters, policy, u);
      FirstBadIsFirst(letters, u, 0);
      assert [Attestation, Certificate, Health, ProbeEgress] == ORDER;
      if u.all.Some? {
        var setting := ParseSetting(letters, u.all.value);
        if setting.None? { return false; }
        policy := Policy(setting.value, setting.value, setting.value, setting.value);
        return true;
      }
      if u.attestation.Some? {
        var s := ParseSetting(letters, u.attestation.value);
        if s.None? { return false; }
        policy := policy.(attestation := s.value);
      }
      if u.certificate.Some? {
        var s := ParseSetting(letters, u.certificate.value);
        if s.None? { return false; }
        policy := policy.(certificate := s.value);
      }
      if u.health.Some? {
        var s := ParseSetting(letters, u.health.value);
        if s.None? { return false; }
        policy := policy.(health := s.value);
      }
      if u.probeEgress.Some? {
        var s := ParseSetting(letters, u.probeEgress.value);
        if s.None? { return false; }
        policy := policy.(probeEgress := s.value);
      }
      return true;
    }
  }

  predicate AlreadySo(letters: Case, p: Policy, u: Update, e: Endpoint) {
    Given(u, e).Some? ==> ParseSetting(letters, Given(u, e).value) == Some(SettingOf(p, e))
  }

  /** A refused update is not all-or-nothing: it leaves the policy alone exactly when every setting before the
      first bad one is the one in force. */
  lemma RefusedUpdateKeepsIff(letters: Case, p: Policy, u: Update)
    requires FirstBad(letters, u, 0) < 4
    ensures PolicyAfter(letters, p, u) == p
            <==> forall k :: 0 <= k < FirstBad(letters, u, 0) ==> AlreadySo(letters, p, u, ORDER[k])
  {
    FirstBadIsFirst(letters, u, 0);
    var q := PolicyAfter(letters, p, u);
    forall k | 0 <= k < 4
      ensures SettingOf(q, ORDER[k]) == SettingAfter(letters, p, u, k)
    {
    }
    assert q == p <==> forall k :: 0 <= k < 4 ==> SettingOf(q, ORDER[k]) == SettingOf(p, ORDER[k]) by {
      assert ORDER[0] == Attestation && ORDER[1] == Certificate && ORDER[2] == Health && ORDER[3] == ProbeEgress;
    }
  }

  // ---------- which text is which setting ----------

  /** The text says this word, whatever its case and the white space around it. */
  predicate Says(letters: Case, text: string, word: string) { letters.lower(Trim(text)) == word }

  predicate SaysEither(letters: Case, text: string) { Says(letters, text, "public") || Says(letters, text, "hidden") }

  /** All the endpoints an update gives a text for can be set. */
  predicate Sayable(letters: Case, u: Update) {
    if u.all.Some? then SaysEither(letters, u.all.value)
    else
      && (u.attestation.Some? ==> SaysEither(letters, u.attestation.value))
      && (u.certificate.Some? ==> SaysEither(letters, u.certificate.value))
      && (u.health.Some? ==> SaysEither(letters, u.health.value))
      && (u.probeEgress.Some? ==> SaysEither(letters, u.probeEgress.value))
  }

  /** A setting that is given is what its text says, and another stays. */
  predicate FollowsText(letters: Case, given: Option<string>, before: Setting, after: Setting) {
    match given
    case None => after == before
    case Some(text) => (after == Hidden <==> Says(letters, text, "hidden")) && (after == Public <==> Says(letters, text, "public"))
  }

  predicate Followed(letters: Case, u: Update, p: Policy, q: Policy) {
    && FollowsText(letters, if u.all.Some? then u.all else u.attestation, p.attestation, q.attestation)
    && FollowsText(letters, if u.all.Some? then u.all else u.certificate, p.certificate, q.certificate)
    && FollowsText(letters, if u.all.Some? then u.all else u.health, p.health, q.health)
    && FollowsText(letters, if u.all.Some? then u.all else u.probeEgress, p.probeEgress, q.probeEgress)
  }

  lemma UpdateFits(letters: Case, u: Update)
    ensures FirstBad(letters, u, 0) == 4 <==> Sayable(letters, u)
  {
    assert ORDER[0] == Attestation && ORDER[1] == Certificate && ORDER[2] == Health && ORDER[3] == ProbeEgress;
    FirstBadIsFirst(letters, u, 0);
    if FirstBad(letters, u, 0) == 4 {
      assert !Bad(letters, u, ORDER[0]) && !Bad(letters, u, ORDER[1]) && !Bad(letters, u, ORDER[2]) && !Bad(letters, u, ORDER[3]);
    }
  }

  /** An update is accepted if and only if every text in it says "public" or "hidden"; every endpoint given then has
      the setting its text says, one text for all standing for each, and the others keep theirs. */
  lemma UpdateFollowsText(letters: Case, p: Policy, u: Update)
    ensures FirstBad(letters, u, 0) == 4 <==> Sayable(letters, u)
    ensures Sayable(letters, u) ==> Followed(letters, u, p, PolicyAfter(letters, p, u))
  {
    UpdateFits(letters, u);
    if Sayable(letters, u) {
      assert ORDER[0] == Attestation && ORDER[1] == Certificate && ORDER[2] == Health && ORDER[3] == ProbeEgress;
      WordsDiffer();
    }
  }

  lemma WordsDiffer()
    ensures "public" != "hidden"
  {
    assert "public"[0] == 'p';
  }
}
