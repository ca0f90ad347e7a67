/** Billing attestations: how they are read back, and what the policy makes of them. */
module Billing {
  import opened Prelude
  import opened Sequences

  type Word = string

  const CODEX := "codex"
  const CLAUDE := "claude"
  const INCLUDED := "subscription_included"
  const AVAILABLE := "available"
  const HIGH := "high"
  const ZERO_BALANCE := "verified_zero_balance_and_auto_top_up_disabled"
  const PROVIDER_DISABLED := "provider_enforced_disabled"
  const PREFIX := "operator_attestation:"
  const MAX_LIFETIME := 86400.0

  /** The fields of one stored record, as they are in the file. */
  datatype Record = Record(
    runner: Word, fingerprint: Word, route: Word, capacity: Word, protection: Word, observedAt: real, expiresAt: real,
    confidence: Word, codes: seq<Word>)

  datatype Attestation = Attestation(
    runner: Word, fingerprint: Word, route: Word, capacity: Word, protection: Word, observedAt: real, expiresAt: real,
    confidence: Word, evidence: seq<Word>)

  /** The file as tokens.  `Junk` is any list element that is not a record of exactly these keys. */
  datatype Token = Open | Rec(record: Record) | Junk | Close

  /** What a runner's adapter says about its own billing. */
  datatype Assessment = Assessment(
    runner: Word, route: Word, confidence: Word, capacity: Word, capacityObservedAt: Option<real>,
    capacityExpiresAt: Option<real>, fingerprint: Option<Word>, protection: Word, balance: Word,
    attestation: Option<Attestation>)

  // ---- Reading records.

  predicate ValidFingerprint(w: Word) { |w| == 64 && forall c | c in w :: c in "0123456789abcdef" }
  predicate ValidTime(t: real) { t >= 0.0 }

  function ExpectedCodes(runner: Word): seq<Word> {
    if runner == CODEX then ["provider_ui_auto_top_up_disabled"]
    else if runner == CLAUDE then ["provider_ui_extra_usage_disabled", "provider_ui_included_capacity_available"]
    else []
  }

  function ExpectedProtection(runner: Word): Word { if runner == CODEX then ZERO_BALANCE else PROVIDER_DISABLED }

  predicate SameCodes(codes: seq<Word>, expected: seq<Word>) {
    Distinct(codes) && (forall c | c in codes :: c in expected) && forall c | c in expected :: c in codes
  }

  function Evidence(codes: seq<Word>): seq<Word> { Map(codes, (c: Word) => PREFIX + c) }

  /** `_parse_file_attestation` */
  function Parse(r: Record): Option<Attestation> {
    if r.runner !in {CODEX, CLAUDE} || !ValidFingerprint(r.fingerprint) || !SameCodes(r.codes, ExpectedCodes(r.runner))
       || r.route != INCLUDED || r.capacity != AVAILABLE || r.confidence != HIGH
       || r.protection != ExpectedProtection(r.runner) || !ValidTime(r.observedAt) || !ValidTime(r.expiresAt)
    then None
    else
      Some(Attestation(r.runner, r.fingerprint, r.route, r.capacity, r.protection, r.observedAt, r.expiresAt,
                       r.confidence, Evidence(r.codes)))
  }

  predicate Semantic(evidence: Word) { |PREFIX| <= |evidence| && evidence[..|PREFIX|] == PREFIX }
  function CodeOf(evidence: Word): Word { if Semantic(evidence) then evidence[|PREFIX|..] else "" }

  /** What `_attestation_record` insists on. */
  predicate Storable(a: Attestation) {
    && (forall e | e in a.evidence :: Semantic(e)) && SameCodes(Map(a.evidence, CodeOf), ExpectedCodes(a.runner))
    && ValidFingerprint(a.fingerprint) && a.route == INCLUDED && a.capacity == AVAILABLE && a.confidence == HIGH
    && a.protection == ExpectedProtection(a.runner)
  }

  function RecordOf(a: Attestation): Record {
    Record(a.runner, a.fingerprint, a.route, a.capacity, a.protection, a.observedAt, a.expiresAt, a.confidence,
           ExpectedCodes(a.runner))
  }

  /** A record in the form in which records are written. */
  predicate Canonical(r: Record) { Parse(r).Some? && r.codes == ExpectedCodes(r.runner) }

  lemma CodesBack(codes: seq<Word>)
    ensures Map(Evidence(codes), CodeOf) == codes && forall e | e in Evidence(codes) :: Semantic(e)
  {
    forall i | 0 <= i < |codes| ensures Semantic(Evidence(codes)[i]) && CodeOf(Evidence(codes)[i]) == codes[i] {
      assert Evidence(codes)[i] == PREFIX + codes[i];
    }
  }

  lemma ExpectedAreSame(runner: Word)
    ensures SameCodes(ExpectedCodes(runner), ExpectedCodes(runner))
  {
    assert |ExpectedCodes(CLAUDE)[0]| != |ExpectedCodes(CLAUDE)[1]|;
  }

  /** Whatever can be parsed can be stored again, in canonical form. */
  lemma ParsedIsStorable(r: Record)
    requires Parse(r).Some?
    ensures Storable(Parse(r).value) && Canonical(RecordOf(Parse(r).value))
    ensures r.codes == ExpectedCodes(r.runner) ==> RecordOf(Parse(r).value) == r
  {
    hide CodeOf, Semantic, ValidFingerprint, ExpectedCodes, Evidence;
    CodesBack(r.codes);
    ExpectedAreSame(r.runner);
  }

  /** A storable attestation of a known runner is read back from its record, with its evidence in
      the fixed order; it is unreadable only when one of its instants is negative. */
  lemma StoredIsParsed(a: Attestation)
    requires Storable(a) && a.runner in {CODEX, CLAUDE}
    ensures Parse(RecordOf(a)) == if ValidTime(a.observedAt) && ValidTime(a.expiresAt)
                                  then Some(a.(evidence := Evidence(ExpectedCodes(a.runner)))) else None
  {
    hide CodeOf, Semantic, ValidFingerprint, ExpectedCodes, Evidence;
    ExpectedAreSame(a.runner);
  }

  // ---- The loader.

  /** The list of the document, when there is one. */
  function Elements(file: Option<seq<Token>>): Option<seq<Token>> {
    if file.Some? && |file.value| >= 2 && file.value[0] == Open && file.value[|file.value| - 1] == Close
       && forall t | t in file.value[1..|file.value| - 1] :: t.Rec? || t.Junk?
    then Some(file.value[1..|file.value| - 1])
    else None
  }

  predicate Matches(t: Token, runner: Word, fingerprint: Word) {
    t.Rec? && Parse(t.record).Some? && t.record.runner == runner && t.record.fingerprint == fingerprint
  }

  function Matching(elements: seq<Token>, runner: Word, fingerprint: Word): (r: seq<Token>)
    ensures forall t :: t in r <==> t in elements && Matches(t, runner, fingerprint)
  {
    Filter(elements, (t: Token) => Matches(t, runner, fingerprint))
  }

  /** Exactly one record of the account, or nothing. */
  function Loaded(file: Option<seq<Token>>, runner: Word, fingerprint: Option<Word>): Option<Attestation> {
    if fingerprint == None || !ValidFingerprint(fingerprint.value) || Elements(file) == None then None
    else
      var found := Matching(Elements(file).value, runner, fingerprint.value);
      if |found| == 1 && Matches(found[0], runner, fingerprint.value) then Parse(found[0].record) else None
  }

  /** `FileBillingAttestationLoader.load`, past the checks of the file itself */
  method Load(file: Option<seq<Token>>, runner: Word, fingerprint: Option<Word>) returns (r: Option<Attestation>)
    ensures r == Loaded(file, runner, fingerprint)
  {
    hide Parse, Elements, Matches, ValidFingerprint;
    if fingerprint == None || !ValidFingerprint(fingerprint.value) { return None; }
    var elements := Elements(file);
    if elements == None { return None; }
    var matches: seq<Token> := [];
    for i := 0 to |elements.value|
      invariant matches == Matching(elements.value[..i], runner, fingerprint.value)
    {
      assert elements.value[..i + 1][..i] == elements.value[..i];
      if Matches(elements.value[i], runner, fingerprint.value) { matches := matches + [elements.value[i]]; }
    }
    assert elements.value[..|elements.value|] == elements.value;
    if |matches| != 1 { return None; }
    assert matches[0] in matches;
    MatchIsRecord(matches[0], runner, fingerprint.value);
    r := Parse(matches[0].record);
  }

  lemma MatchIsRecord(t: Token, runner: Word, fingerprint: Word)
    requires Matches(t, runner, fingerprint)
    ensures t.Rec?
  {
    hide Parse;
  }

  // ---- The policy.

  /** `_current_window` */
  predicate CurrentWindow(observedAt: Option<real>, expiresAt: Option<real>, now: real, until: real) {
    && observedAt.Some? && expiresAt.Some? && ValidTime(observedAt.value) && ValidTime(expiresAt.value)
    && observedAt.value <= now < expiresAt.value && until < expiresAt.value && expiresAt.value > observedAt.value
  }

  predicate EvidenceAuthorized(a: Attestation) {
    SameCodes(
      a.evidence,
      if a.runner in {CODEX, CLAUDE} then Evidence(ExpectedCodes(a.runner))
      else [PREFIX + "provider_enforced_paid_continuation_disabled"])
  }

  function Block(b: bool, code: Word): seq<Word> { if b then [code] else [] }

  function ClaimBlockers(x: Assessment, a: Attestation): seq<Word> {
    Block(a.runner != x.runner, "attestation_runner_mismatch")
    + Block(a.route != INCLUDED, "attestation_route_mismatch")
    + Block(a.confidence != HIGH, "attestation_confidence_not_high")
    + Block(a.capacity != x.capacity, "attestation_capacity_mismatch")
    + Block(a.protection != x.protection, "attestation_protection_mismatch")
    + (if a.evidence == [] then ["attestation_evidence_missing"]
       else Block(!EvidenceAuthorized(a), "attestation_evidence_not_authorized"))
  }

  function WindowBlockers(x: Assessment, a: Attestation, now: real, until: real): seq<Word> {
    (if !CurrentWindow(Some(a.observedAt), Some(a.expiresAt), now, until) then ["attestation_not_current"]
       else Block(a.expiresAt - a.observedAt > MAX_LIFETIME, "attestation_lifetime_too_long"))
    + (if !ValidFingerprint(a.fingerprint) then ["attested_account_identity_invalid"]
       else Block(x.fingerprint != Some(a.fingerprint), "attested_account_identity_mismatch"))
  }

  /** The blockers that concern the attestation. */
  function AttestationBlockers(x: Assessment, a: Attestation, now: real, until: real): seq<Word> {
    ClaimBlockers(x, a) + WindowBlockers(x, a, now, until)
  }

  function RouteBlockers(x: Assessment, now: real, until: real): seq<Word> {
    Block(x.route != INCLUDED, "route_not_subscription_included")
    + Block(x.confidence != HIGH, "route_confidence_not_high")
    + Block(x.capacity != AVAILABLE, "included_capacity_not_available")
    + Block(!CurrentWindow(x.capacityObservedAt, x.capacityExpiresAt, now, until), "capacity_evidence_not_current")
    + Block(x.fingerprint == None || !ValidFingerprint(x.fingerprint.value), "account_identity_unverified")
  }

  function ContinuationBlockers(x: Assessment): seq<Word> {
    if x.runner == CODEX then
      Block(x.protection != ZERO_BALANCE, "codex_paid_continuation_not_disabled")
      + Block(x.balance != "zero", "codex_paid_credit_balance_not_zero")
    else if x.runner == CLAUDE then Block(x.protection != PROVIDER_DISABLED, "claude_extra_usage_not_disabled")
    else Block(x.protection != PROVIDER_DISABLED, "paid_continuation_not_provider_disabled")
  }

  function Blockers(x: Assessment, now: real, until: Option<real>): seq<Word> {
    var end := if until.Some? then until.value else now;
    if !ValidTime(now) then ["invalid_policy_clock"]
    else if !ValidTime(end) || end < now then ["invalid_required_valid_until"]
    else
      match x.attestation
      case None => RouteBlockers(x, now, end) + ["paid_continuation_attestation_missing"]
      case Some(a) => RouteBlockers(x, now, end) + AttestationBlockers(x, a, now, end) + ContinuationBlockers(x)
  }

  /** `BillingPolicy.subscription_blockers`: one check after another, each adding its code. */
  method SubscriptionBlockers(x: Assessment, now: real, until: Option<real>) returns (blockers: seq<Word>)
    ensures blockers == Blockers(x, now, until)
  {
    hide Block, RouteBlockers, ClaimBlockers, WindowBlockers;
    if !ValidTime(now) { return ["invalid_policy_clock"]; }
    var end := if until.Some? then until.value else now;
    if !ValidTime(end) || end < now { return ["invalid_required_valid_until"]; }
    blockers := CheckRoute(x, now, end);
    if x.attestation == None { return blockers + ["paid_continuation_attestation_missing"]; }
    var claims := CheckClaims(x, x.attestation.value);
    var window := CheckWindow(x, x.attestation.value, now, end);
    var more;
    if x.runner == CODEX {
      more := Block(x.protection != ZERO_BALANCE, "codex_paid_continuation_not_disabled");
      more := more + Block(x.balance != "zero", "codex_paid_credit_balance_not_zero");
    } else if x.runner == CLAUDE {
      more := Block(x.protection != PROVIDER_DISABLED, "claude_extra_usage_not_disabled");
    } else {
      more := Block(x.protection != PROVIDER_DISABLED, "paid_continuation_not_provider_disabled");
    }
    blockers := blockers + (claims + window) + more;
  }

  method CheckRoute(x: Assessment, now: real, end: real) returns (blockers: seq<Word>)
    ensures blockers == RouteBlockers(x, now, end)
  {
    hide Block, ValidFingerprint, CurrentWindow;
    blockers := Block(x.route != INCLUDED, "route_not_subscription_included");
    blockers := blockers + Block(x.confidence != HIGH, "route_confidence_not_high");
    blockers := blockers + Block(x.capacity != AVAILABLE, "included_capacity_not_available");
    blockers := blockers
      + Block(!CurrentWindow(x.capacityObservedAt, x.capacityExpiresAt, now, end), "capacity_evidence_not_current");
    blockers := blockers
      + Block(x.fingerprint == None || !ValidFingerprint(x.fingerprint.value), "account_identity_unverified");
  }

  method CheckClaims(x: Assessment, a: Attestation) returns (blockers: seq<Word>)
    ensures blockers == ClaimBlockers(x, a)
  {
    hide Block, EvidenceAuthorized;
    blockers := Block(a.runner != x.runner, "attestation_runner_mismatch");
    blockers := blockers + Block(a.route != INCLUDED, "attestation_route_mismatch");
    blockers := blockers + Block(a.confidence != HIGH, "attestation_confidence_not_high");
    blockers := blockers + Block(a.capacity != x.capacity, "attestation_capacity_mismatch");
    blockers := blockers + Block(a.protection != x.protection, "attestation_protection_mismatch");
    if a.evidence == [] {
      blockers := blockers + ["attestation_evidence_missing"];
    } else {
      blockers := blockers + Block(!EvidenceAuthorized(a), "attestation_evidence_not_authorized");
    }
  }

  method CheckWindow(x: Assessment, a: Attestation, now: real, end: real) returns (blockers: seq<Word>)
    ensures blockers == WindowBlockers(x, a, now, end)
  {
    hide Block, ValidFingerprint, CurrentWindow;
    blockers := [];
    if !CurrentWindow(Some(a.observedAt), Some(a.expiresAt), now, end) {
      blockers := blockers + ["attestation_not_current"];
    } else {
      blockers := blockers + Block(a.expiresAt - a.observedAt > MAX_LIFETIME, "attestation_lifetime_too_long");
    }
    if !ValidFingerprint(a.fingerprint) {
      blockers := blockers + ["attested_account_identity_invalid"];
    } else {
      blockers := blockers + Block(x.fingerprint != Some(a.fingerprint), "attested_account_identity_mismatch");
    }
  }

  /** The assessment is of the attested account and claims the attested protection. */
  predicate Attested(x: Assessment, a: Attestation) {
    && x.attestation == Some(a) && x.runner == a.runner && x.fingerprint == Some(a.fingerprint)
    && x.capacity == a.capacity && x.protection == a.protection
  }

  lemma EvidenceIsAuthorized(runner: Word)
    requires runner in {CODEX, CLAUDE}
    ensures SameCodes(Evidence(ExpectedCodes(runner)), Evidence(ExpectedCodes(runner)))
    ensures Evidence(ExpectedCodes(runner)) != []
  {
    assert |Evidence(ExpectedCodes(CLAUDE))[0]| != |Evidence(ExpectedCodes(CLAUDE))[1]|;
  }

  /** An attestation as it is loaded raises no blocker for a matching assessment, at any instant
      and required end, exactly when the window covers both and is not too long. */
  lemma LoadedAttestation(x: Assessment, a: Attestation, r: Record, now: real, until: real)
    requires Parse(r) == Some(a) && Canonical(r) && Attested(x, a) && now <= until
    ensures AttestationBlockers(x, a, now, until) == [] <==>
      a.observedAt <= now && until < a.expiresAt <= a.observedAt + MAX_LIFETIME
  {
    hide ExpectedCodes, Evidence, SameCodes, ValidFingerprint;
    EvidenceIsAuthorized(r.runner);
  }

  /** With such an attestation, and in its window, only the runner's own evidence can block: its
      route, its capacity window and, for one of the two runners, its balance. */
  lemma AllowedExactly(x: Assessment, a: Attestation, r: Record, now: real, until: Option<real>)
    requires Parse(r) == Some(a) && Canonical(r) && Attested(x, a)
    requires a.expiresAt <= a.observedAt + MAX_LIFETIME
    ensures
      var end := if until.Some? then until.value else now;
      Blockers(x, now, until) == [] <==>
        && a.observedAt <= now <= end < a.expiresAt && x.route == INCLUDED && x.confidence == HIGH
        && CurrentWindow(x.capacityObservedAt, x.capacityExpiresAt, now, end) && (a.runner == CODEX ==> x.balance == "zero")
  {
    hide ExpectedCodes, Evidence, SameCodes, ValidFingerprint, CurrentWindow, AttestationBlockers;
    var end := if until.Some? then until.value else now;
    if now <= end { LoadedAttestation(x, a, r, now, end); }
  }
}
