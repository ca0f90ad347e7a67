/** What the three fixed policies can permit at all, whatever the request. */
module FixedPolicies {
  import opened Prelude
  import opened Canon
  import opened Sequences
  import opened Authorization
  import opened Evaluator
  import opened EvaluatorLaws
  import opened Approvals
  import opened EffectLaws
  import opened PermissionClasses
  import opened Receipts
  import opened Proposals
  import opened Admission
  import opened AdmissionInspection
  import opened RunRecords
  import opened EnforcingDecisions
  import opened DispatchBoundary
  import opened PublicationBoundary

  /** Who may speak of an attribute. */
  function Witnesses(a: Word): seq<Word> {
    if a == "subject" then ["controller"]
    else if a == "environment" then ["controller", "verified_attestation"]
    else ["controller", "local_registry"]
  }

  /** Trusted records, none older than five minutes, speak for every attribute. */
  predicate AllWitnessed(r: Request) {
    forall a | a in ATTRIBUTES :: EffectLaws.Met(EvidenceRequirement(a, Witnesses(a), 300.0), r)
  }

  /** The work of an implementer in an isolated run workspace: a local draft, verified isolation, no
      network, no open circuit. */
  predicate Isolated(r: Request) {
    && LocalDraft(r.resource.guarded, r.resource.sensitivity, r.consequences)
    && r.subject.role == "implementer" && r.resource.trustBoundary == Lit("isolated_run_workspace")
    && r.environment.isolation == "verified" && r.environment.network == "disabled" && r.environment.circuit == "closed"
    && r.environment.evaluatedAt >= 0.0
  }

  /** The operator who must approve before the run has done so: there is a grant, and every grant
      that claims to be his is his, of an operator's role and another principal than the subject,
      bound to this request and policy, and in date. */
  predicate Preapproved(r: Request, p: Policy, approver: Text) {
    && (exists g | g in r.environment.grants :: Claimed(g))
    && forall g | g in r.environment.grants && Claimed(g) ::
         && g.authenticated && g.source == "approval_authority" && g.approverRole == "operator"
         && g.approverId == approver && g.approverId != r.subject.principalId
         && g.scopeDigest == r.ScopeDigest() && g.policyDigest == p.Digest()
         && 0.0 <= g.issuedAt <= r.environment.evaluatedAt < g.expiresAt
  }

  predicate Claimed(g: Grant) { g.requirementId == "task_contract_pre_run_operator_approval" }

  lemma StageIsWitnessed(r: Request)
    ensures (forall q | q in StageEvidence() :: Backed(q, r)) <==> AllWitnessed(r)
  {
    hide Backed, EffectLaws.Met;
    var s := StageEvidence();
    assert s[0] in s && s[1] in s && s[2] in s && s[3] in s && s[4] in s;
    forall q | q in s ensures EffectLaws.Met(q, r) <==> Backed(q, r) { MetIsBacked(q, r); }
    forall q | q in s ensures q.attribute in ATTRIBUTES && q == EvidenceRequirement(q.attribute, Witnesses(q.attribute), 300.0) {}
  }

  lemma IsolatedExactly(r: Request, p: Policy, classes: seq<Class>)
    requires r.resource.sensitivity in IMPACTS && r.consequences.Valid() && r.environment.isolation in ISOLATIONS
    requires p.enabledClasses == classes && (classes == [1] || classes == [0, 1]) && 1 <= ClassOf(r)
    requires p.roles == ["implementer"] && p.trustBoundaries == [BOUNDARY] && p.networks == ["disabled"]
    requires |p.routes| == 1 && p.routes[0] != "unknown" && p.routes[0] != "subscription_included"
    ensures GatesOpen(r, p) && r.environment.evaluatedAt >= 0.0 <==>
      && Isolated(r) && r.action.verb !in {"delete", "send", "approve"} && r.action.verb in p.verbs
      && r.action.operation in p.operations && r.resource.resourceType in p.resourceTypes
      && r.environment.flowState in p.flowStates && r.environment.billing == p.routes[0]
  {
    hide Derive, LocalDraft;
    DraftExactly(r.action, r.resource, r.consequences);
  }

  lemma PreapprovedExactly(r: Request, p: Policy, q: ApprovalRequirement, approver: Text)
    requires q.id == "task_contract_pre_run_operator_approval" && q.approvers == [approver] && q.roles == ["operator"]
    requires q.distinct && p.issuedAt == 0.0
    ensures Approved(q, r, p) <==> Preapproved(r, p, approver)
  {
    hide Request.ScopeDigest, Policy.Digest;
    forall g ensures !Misbound(q, g, r, p) <==>
      && g.authenticated && g.source == "approval_authority" && g.approverRole == "operator"
      && g.approverId == approver && g.approverId != r.subject.principalId
      && g.scopeDigest == r.ScopeDigest() && g.policyDigest == p.Digest()
      && 0.0 <= g.issuedAt <= r.environment.evaluatedAt < g.expiresAt {}
    forall g ensures Claimed(g) <==> g.requirementId == q.id {}
  }

  /** What is asked of a request beside its being isolated: the one thing to be done, in its state. */
  predicate Names(r: Request, verb: Word, operation: Text, resource: Text, state: Text, route: Word) {
    && r.action.verb == verb && r.action.operation == operation && r.resource.resourceType == resource
    && r.environment.flowState == state && r.environment.billing == route
  }

  predicate WellFormed(r: Request) {
    && r.resource.sensitivity in IMPACTS && r.consequences.Valid() && r.environment.isolation in ISOLATIONS
    && r.environment.evaluatedAt >= 0.0
  }

  /** Under the admission policy a request is permitted exactly for the isolated creation of an
      admission, witnessed in every attribute, and approved where that is called for. */
  lemma AdmissionPermitsOnly(r: Request, required: bool, approver: Text)
    requires WellFormed(r)
    ensures
      var p := AdmissionPolicy(required, approver);
      Evaluate(r, p).effect == "permit" <==>
        && Isolated(r) && AllWitnessed(r) && Distinct(Ids(r.evidence))
        && Names(r, "create", Lit("task_attempt_admission"), Lit("isolated_worktree"), Lit("admission_proposed"), "mock")
        && (required ==> Preapproved(r, p, approver))
  {
    hide Evaluate, Derive, Backed, Approved, Isolated, AllWitnessed, Preapproved, Distinct, Ids, StageEvidence;
    var p := AdmissionPolicy(required, approver);
    PermitExactly(r, p);
    StageIsWitnessed(r);
    if r.action.verb == "create" {
      CreateIsNotReadOnly(r.action, r.resource, r.consequences);
      IsolatedExactly(r, p, [1]);
    }
    if required {
      var q := p.approvalRequirements[0];
      PreapprovedExactly(r, p, q, approver);
      assert q in p.approvalRequirements;
    }
  }

  /** Under the dispatch policy, exactly for the isolated execution of a mock attempt; where the
      task asks for Class 0, nothing is permitted. */
  lemma DispatchPermitsOnly(r: Request, approver: Option<Text>, requested: Class)
    requires WellFormed(r)
    ensures
      var p := DispatchPolicy(approver, requested);
      Evaluate(r, p).effect == "permit" <==>
        && requested != 0 && Isolated(r) && AllWitnessed(r) && Distinct(Ids(r.evidence))
        && Names(r, "execute", Lit("runner.execute_mock_attempt"), Lit("mock_runner_attempt"),
                 Lit("runner_dispatch_proposed"), "mock")
        && (approver.Some? ==> Preapproved(r, p, approver.value))
  {
    hide Evaluate, Derive, Backed, Approved, Isolated, AllWitnessed, Preapproved, Distinct, Ids, StageEvidence;
    var p := DispatchPolicy(approver, requested);
    PermitExactly(r, p);
    StageIsWitnessed(r);
    if r.action.verb == "execute" {
      ExecuteIsNotReadOnly(r.action, r.resource, r.consequences);
      if requested != 0 { IsolatedExactly(r, p, [0, 1]); }
    }
    if approver.Some? {
      var q := p.approvalRequirements[0];
      PreapprovedExactly(r, p, q, approver.value);
      assert q in p.approvalRequirements;
    }
  }

  /** And under the publication policy, exactly for the isolated creation of a local candidate. */
  lemma PublicationPermitsOnly(r: Request)
    requires WellFormed(r)
    ensures Evaluate(r, PublicationPolicy()).effect == "permit" <==>
      && Isolated(r) && AllWitnessed(r) && Distinct(Ids(r.evidence))
      && Names(r, "create", Lit("artifact.publish_local_candidate"), Lit("local_candidate_artifact"),
               Lit("local_candidate_publication_proposed"), "local_non_ai")
  {
    hide Evaluate, Derive, Backed, Approved, Isolated, AllWitnessed, Distinct, Ids, StageEvidence;
    var p := PublicationPolicy();
    PermitExactly(r, p);
    StageIsWitnessed(r);
    if r.action.verb == "create" {
      CreateIsNotReadOnly(r.action, r.resource, r.consequences);
      IsolatedExactly(r, p, [1]);
    }
  }
}
