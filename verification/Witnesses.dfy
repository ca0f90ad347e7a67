/** Concrete requests for which a promise one might expect does not hold. */
module Witnesses {
  import opened Prelude
  import opened Canon
  import opened Sequences
  import opened Authorization
  import opened Evaluator
  import opened EvaluatorLaws
  import opened Approvals
  import opened CanonicalParsing
  import opened Reevaluations
  import opened Proposals
  import opened Admission
  import opened AdmissionInspection

  // ---- One attempt: a Class 1 task for the mock runner.

  const LOW := Consequences("low", "low", "low", "local", false, true, "low", "single_resource")
  const DIGEST := Digest(Null)

  function Sample(requiredBeforeRun: bool): Attempt {
    Attempt(
      DIGEST, Lit("operator"), requiredBeforeRun,
      Intent("create", Lit("draft"), Lit("draft"), Lit("workspace"), Lit("local"), false, "low", LOW), 1,
      Lit("run-1"), 1, Lit("/runs/1/work"), Lit("/runs/1"), 1, Null, Null, 60.0, 60.0, Null, true, Lit("mock"),
      Lit("profile"), Lit("/project"), true, DIGEST, DIGEST, DIGEST, DIGEST, DIGEST, DIGEST, true)
  }

  lemma SampleIsAccepted(required: bool, now: real)
    requires now >= 0.0
    ensures Sample(required).Accepted(now) && Sample(required).Typed() && ClassOf(AdmissionRequest(Sample(required), now)) == 1
  {
    hide Parameters, Identifier, Bind;
  }

  /** The gate does authorize an attempt. */
  lemma SampleIsAuthorized(now: real)
    requires now >= 0.0
    ensures Gate(Sample(false), now).Ok? && AuthorizationOf(Sample(false), now).blocks == []
  {
    hide AdmissionRequest, AdmissionPolicy, Evaluate, Blocks, ObligationsSupported, DecisionMatches;
    SampleIsAccepted(false, now);
    GateAuthorizesExactly(Sample(false), now);
  }

  // ---- A permit that outlives its grant.

  function Asked(now: real): Request { AdmissionRequest(Sample(true), now) }
  function Asking(): Policy { AdmissionPolicy(true, Sample(true).ApproverRef()) }
  function Granted(now: real): Grant {
    ForRequest(Lit("approval-1"), PRE_RUN_APPROVAL, Sample(true).ApproverRef(), Asked(now), Asking(), now, now + 1.0,
               "operator")
  }

  lemma AskedIsDeferred(now: real)
    requires now >= 0.0
    ensures Evaluate(Asked(now), Asking()).effect == "defer"
    ensures Asked(now).environment.evaluatedAt == now && Asked(now).environment.grants == []
  {
    hide AdmissionRequest, Evaluate, Derive, MandatoryDeny, EnvironmentUnknown, Validate, ApprovalEffect, GatesOpen;
    var r, p := Asked(now), Asking();
    SampleIsAccepted(true, now);
    GateGates(Sample(true), now);
    GatesExactly(r, p);
    GateValidates(Sample(true), now);
    AskedEnvironment(now);
    AskedApproval(now);
    DeferredByApproval(r, p);
  }

  lemma AskedEnvironment(now: real)
    ensures Asked(now).environment == AdmissionEnvironment(now) && Asked(now).action.verb == "create"
    ensures Asked(now).resource.resourceType == RESOURCE_TYPE && Asked(now).subject.principalId.Lit?
  {
    hide Bind, Parameters, Identifier;
  }

  lemma AskedApproval(now: real)
    ensures Asked(now).environment.grants == []
    ensures Applicable(Asked(now), Asking(), 1) == Asking().approvalRequirements
    ensures ApprovalEffect(Asked(now), Asking(), 1).Some? && ApprovalEffect(Asked(now), Asking(), 1).value.effect == "defer"
  {
    hide AdmissionRequest, ApprovalEffect, DeferFor;
    var r, p := Asked(now), Asking();
    AskedEnvironment(now);
    FilterAll(p.approvalRequirements, (q: ApprovalRequirement) => q.Matches(r, 1));
    NothingGranted(r, p, 1);
    DefersToDefer(Applicable(r, p, 1), Earliest([now + p.ttl]));
  }

  lemma DefersToDefer(missing: seq<ApprovalRequirement>, expiry: real)
    ensures DeferFor(missing, expiry).effect == "defer"
  {
  }

  lemma DeferredByApproval(r: Request, p: Policy)
    requires MandatoryDeny(r, p, ClassOf(r)) == None && p.issuedAt <= r.environment.evaluatedAt && Validate(r, p).valid
    requires EnvironmentUnknown(r.environment) == None && ApprovalEffect(r, p, ClassOf(r)).Some?
    ensures Evaluate(r, p).effect == ApprovalEffect(r, p, ClassOf(r)).value.effect
  {
    hide Derive, MandatoryDeny, EnvironmentUnknown, Validate, ApprovalEffect, Request.Digest, Policy.Digest, ClassName;
  }

  /** A request is approved for one second and permitted for sixty. */
  lemma PermitOutlivesGrant(now: real)
    requires now >= 0.0
    ensures
      var s := Approve(Asked(now), [Granted(now)]);
      && Evaluate(s, Asking()).effect == "permit" && Granted(now) in s.environment.grants
      && Granted(now).expiresAt == now + 1.0 && InWindow(Evaluate(s, Asking()), now + 1.0)
  {
    hide AdmissionRequest, Evaluate, Derive, Request.ScopeDigest, Policy.Digest, Applicable, Environment.ToJson, Validate;
    var r, p, g := Asked(now), Asking(), Granted(now);
    var s := Approve(r, [g]);
    SampleIsAccepted(true, now);
    AskedIsDeferred(now);
    AskedEnvironment(now);
    AskedApproval(now);
    assert Acceptable(p.approvalRequirements[0], g, r, p);
    assert Suffice([g], r, p) by { GrantSuffices(now); }
    ApprovalProgress(r, p, [g]);
    ExpiryFollowsIssue(s, p);
    PermitEndsBy(s, p, now + 1.0);
    forall e | e in s.evidence ensures e.expiresAt > now + 1.0 { RecordsLast(now, e); }
  }

  lemma GrantSuffices(now: real)
    requires now >= 0.0 && ClassOf(Asked(now)) == 1
    ensures Suffice([Granted(now)], Asked(now), Asking())
  {
    hide AdmissionRequest, Derive, Request.ScopeDigest, Policy.Digest, Applicable;
    AskedEnvironment(now);
    AskedApproval(now);
    var g := Granted(now);
    assert g in [g];
    forall q | q in Applicable(Asked(now), Asking(), 1) ensures q == Asking().approvalRequirements[0] {}
  }

  lemma RecordsLast(now: real, e: Evidence)
    requires e in Approve(Asked(now), [Granted(now)]).evidence
    ensures e.expiresAt == now + EVIDENCE_LIFETIME
  {
    hide AdmissionRequest, Environment.ToJson, Request.ScopeDigest, Policy.Digest;
    ReboundAt(Asked(now), [Granted(now)], e);
    forall f | f in Asked(now).evidence ensures f.expiresAt == now + EVIDENCE_LIFETIME { SampleLasts(true, now, f); }
  }

  // ---- A permit that outlives the tolerated age of its evidence.

  /** The records of the attempt, observed as early as is tolerated. */
  function Aged(now: real): Request {
    var r := AdmissionRequest(Sample(false), now);
    r.(evidence := Map(r.evidence, (e: Evidence) => e.(observedAt := now - 300.0)))
  }

  /** The record that backs a requirement of the gate. */
  lemma AgedRecord(now: real, q: EvidenceRequirement)
    requires q in AdmissionPolicy(false, Sample(false).ApproverRef()).evidenceRequirements
    ensures q.maxAge == 300.0
    ensures exists e :: e in Aged(now).evidence && Trusts(q, e) && e.observedAt == now - 300.0
  {
    hide AdmissionRequest, Request.Attribute, Backed;
    var r, aged := AdmissionRequest(Sample(false), now), Aged(now);
    GateBacked(Sample(false), now, q);
    BackedByOne(q, r);
    var e :| e in r.evidence && Trusts(q, e);
    var k :| 0 <= k < |r.evidence| && r.evidence[k] == e;
    assert aged.evidence[k] in aged.evidence && Trusts(q, aged.evidence[k]);
  }

  lemma BackedByOne(q: EvidenceRequirement, r: Request)
    requires Backed(q, r)
    ensures exists e :: e in r.evidence && Trusts(q, e)
    ensures forall e | e in r.evidence && Trusts(q, e) ::
      && e.authenticated && e.observedAt <= r.environment.evaluatedAt < e.expiresAt
      && r.environment.evaluatedAt - e.observedAt <= q.maxAge && e.valueDigest == Digest(r.Attribute(q.attribute))
  {
    hide Trusts, Request.Attribute;
  }

  lemma AgedIsBacked(now: real, q: EvidenceRequirement)
    requires q in AdmissionPolicy(false, Sample(false).ApproverRef()).evidenceRequirements
    ensures Backed(q, Aged(now))
  {
    hide AdmissionRequest, Request.Attribute, AdmissionPolicy;
    var x := Sample(false);
    var r, aged := AdmissionRequest(x, now), Aged(now);
    GateBacked(x, now, q);
    BackedByOne(q, r);
    AgedRecord(now, q);
    AttributeIgnoresEvidence(x, now, q.attribute);
    AttributeByParts(r, aged.evidence, q.attribute);
    forall f | f in aged.evidence && Trusts(q, f)
      ensures f.authenticated && f.observedAt <= now < f.expiresAt && now - f.observedAt <= q.maxAge
      ensures f.valueDigest == Digest(aged.Attribute(q.attribute)) {
      var i :| 0 <= i < |aged.evidence| && aged.evidence[i] == f;
      assert r.evidence[i] in r.evidence && Trusts(q, r.evidence[i]);
    }
  }

  /** Evidence that may be 300 seconds old supports a permit while it is 301. */
  lemma PermitOutlivesAge(now: real)
    requires now >= 300.0
    ensures
      var r, p := Aged(now), AdmissionPolicy(false, Sample(false).ApproverRef());
      && Evaluate(r, p).effect == "permit" && InWindow(Evaluate(r, p), now + 1.0)
      && forall q | q in p.evidenceRequirements ::
           exists e :: e in r.evidence && Trusts(q, e) && now + 1.0 - e.observedAt > q.maxAge
  {
    hide AdmissionRequest, Evaluate, Derive, Backed, GatesOpen, Trusts, Validate, AdmissionPolicy;
    var x := Sample(false);
    var r, p := Aged(now), AdmissionPolicy(false, x.ApproverRef());
    SampleIsAccepted(false, now);
    GateGates(x, now);
    GateApprovals(x, now);
    GateIdsDistinct(x, now);
    AgedOtherwiseSame(now);
    forall q | q in p.evidenceRequirements ensures Backed(q, r) { AgedIsBacked(now, q); }
    PolicyStarts(p, false, x.ApproverRef());
    PermitExactly(r, p);
    ExpiryFollowsIssue(r, p);
    PermitEndsBy(r, p, now + 1.0);
    forall e | e in r.evidence ensures e.expiresAt > now + 1.0 { AgedLasts(now, e); }
    forall q | q in p.evidenceRequirements
      ensures exists e :: e in r.evidence && Trusts(q, e) && now + 1.0 - e.observedAt > q.maxAge {
      AgedRecord(now, q);
    }
  }

  lemma PolicyStarts(p: Policy, required: bool, approverRef: Text)
    requires p == AdmissionPolicy(required, approverRef)
    ensures p.issuedAt == 0.0 && p.ttl == 60.0 && (!required ==> p.approvalRequirements == [])
  {
  }

  lemma AgedLasts(now: real, e: Evidence)
    requires e in Aged(now).evidence
    ensures e.expiresAt == now + EVIDENCE_LIFETIME
  {
    hide AdmissionRequest;
    var r := AdmissionRequest(Sample(false), now);
    var i :| 0 <= i < |Aged(now).evidence| && Aged(now).evidence[i] == e;
    SampleLasts(false, now, r.evidence[i]);
  }

  lemma SampleLasts(required: bool, now: real, e: Evidence)
    requires e in AdmissionRequest(Sample(required), now).evidence
    ensures e.expiresAt == now + EVIDENCE_LIFETIME
  {
    hide Proposed, Parameters, Identifier, Sample;
    ProposedLast(SCOPE, BareRequest(Sample(required), now), e);
  }

  lemma AgedOtherwiseSame(now: real)
    ensures Ids(Aged(now).evidence) == Ids(AdmissionRequest(Sample(false), now).evidence)
    ensures
      var r, a, p := AdmissionRequest(Sample(false), now), Aged(now), AdmissionPolicy(false, Sample(false).ApproverRef());
      && a.environment == r.environment && a.environment.evaluatedAt == now && ClassOf(a) == ClassOf(r)
      && (GatesOpen(a, p) <==> GatesOpen(r, p))
  {
    hide AdmissionRequest, Derive, AdmissionPolicy;
    AttributeIgnoresEvidence(Sample(false), now, "subject");
  }

  // ---- A decision that re-reading changes.

  /** The attempt without its evidence: all five requirements are rejected, in the order in which
      the policy lists them, which is not the canonical one. */
  function Bare(now: real): Request { AdmissionRequest(Sample(false), now).(evidence := []) }

  lemma BareIsRejected(now: real)
    ensures
      var p := AdmissionPolicy(false, Sample(false).ApproverRef());
      RejectedBy(p.evidenceRequirements, Bare(now)) == p.evidenceRequirements
  {
    hide AdmissionRequest, Judge;
    var reqs := AdmissionPolicy(false, Sample(false).ApproverRef()).evidenceRequirements;
    forall q | q in reqs ensures Judge(q, Bare(now)).Rejected? { NothingIsRejected(q, Bare(now)); }
    FilterAll(reqs, (q: EvidenceRequirement) => Judge(q, Bare(now)).Rejected?);
  }

  lemma NothingIsRejected(q: EvidenceRequirement, r: Request)
    requires r.evidence == []
    ensures Judge(q, r).Rejected?
  {
    hide OnlyClaimed;
  }

  lemma KeyStarts(w: Word)
    requires w != ""
    ensures WordKey(w) != [] && WordKey(w)[0] == (w[0] as int + 1) as real
  {
  }

  lemma ListedOutOfOrder(required: bool, approverRef: Text)
    ensures !SortedBy(AdmissionPolicy(required, approverRef).evidenceRequirements, EvidenceRequirementKey)
  {
    var reqs := AdmissionPolicy(required, approverRef).evidenceRequirements;
    hide WordKey;
    assert reqs[0].attribute == "subject" && reqs[1].attribute == "action";
    KeyStarts("subject");
    KeyStarts("action");
    assert !Before(EvidenceRequirementKey(reqs[0]), EvidenceRequirementKey(reqs[1]));
  }

  /** A persisted request and policy, both canonical and valid, need not reproduce the decision
      that was made of them. */
  lemma RereadingChangesDecision(now: real)
    requires now >= 0.0
    ensures
      var r, p := Bare(now), AdmissionPolicy(false, Sample(false).ApproverRef());
      && ReadRequest(r.ToJson()) == Some(NormalRequest(r)) && ReadPolicy(p.ToJson()) == Some(NormalPolicy(p))
      && Evaluate(NormalRequest(r), NormalPolicy(p)).ToJson() != Evaluate(r, p).ToJson()
  {
    hide AdmissionRequest, AdmissionPolicy, Evaluate, Decision.ToJson, Request.ToJson, Policy.ToJson, Policy.Valid, ReadRequest,
         ReadPolicy, Derive, MandatoryDeny, RejectedBy, SortedBy, GatesOpen, Readable, NormalRequest, NormalPolicy;
    var x := Sample(false);
    var r, p := Bare(now), AdmissionPolicy(false, x.ApproverRef());
    SampleIsAccepted(false, now);
    BareReadable(now);
    GatePolicyValid(false, x.ApproverRef());
    PolicyStarts(p, false, x.ApproverRef());
    BareIsRejected(now);
    ListedOutOfOrder(false, x.ApproverRef());
    GateGates(x, now);
    BareOtherwiseSame(now);
    GatesExactly(r, p);
    NothingListed(p);
    RequestRoundTrip(r);
    PolicyRoundTrip(p);
    ReevaluationExactly(r, p);
  }

  lemma NothingListed(p: Policy)
    ensures p.evidenceRequirements == [] ==> SortedBy(p.evidenceRequirements, EvidenceRequirementKey)
  {
  }

  lemma BareOtherwiseSame(now: real)
    ensures
      var r, b, p := AdmissionRequest(Sample(false), now), Bare(now), AdmissionPolicy(false, Sample(false).ApproverRef());
      b.environment.evaluatedAt == now && ClassOf(b) == ClassOf(r) && (GatesOpen(b, p) <==> GatesOpen(r, p))
  {
    hide AdmissionRequest, Derive, AdmissionPolicy;
    AttributeIgnoresEvidence(Sample(false), now, "subject");
  }

  lemma BareReadable(now: real)
    requires now >= 0.0
    ensures Readable(Bare(now))
  {
    hide AdmissionRequest, Subject.Valid, Action.Valid, Resource.Valid, Environment.Valid, Consequences.Valid, Evidence.Valid,
         ValidText;
    SampleIsAccepted(false, now);
    GateReadable(Sample(false), now);
  }
}
