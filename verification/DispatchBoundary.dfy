/** The dispatch boundary: the gate before the runner is executed, what the inspector recomputes
    of its decision, and the receipt of the execution. */
module DispatchBoundary {
  import opened Prelude
  import opened Canon
  import opened Sequences
  import opened Authorization
  import opened Evaluator
  import opened EvaluatorLaws
  import opened PermissionClasses
  import opened Receipts
  import opened CanonicalParsing
  import opened Proposals
  import opened Admission
  import opened AdmissionInspection
  import opened RunRecords
  import opened EnforcingDecisions

  const DISPATCH_SCOPE := "ordinary_mock_runner_dispatch_only"
  const DISPATCH_OPERATION := Lit("runner.execute_mock_attempt")
  const DISPATCH_RESOURCE := Lit("mock_runner_attempt")
  const DISPATCH_EFFECT := Lit("execute_deterministic_in_memory_mock_attempt")
  const DISPATCH_FLOW := Lit("runner_dispatch_proposed")
  const DISPATCH_POLICY_ID := Lit("ordomata.phase-1c.mock-dispatch-enforcement")
  const DISPATCH_EXECUTOR := Lit("ordomata:in-memory-mock-executor")

  const DISPATCH_PARAMETERS := 50
  const OLDER_DISPATCH_PARAMETERS := 51
  const DISPATCH_IDENTIFIER := 52
  const DISPATCH_RECEIPT_ID := 53

  // ---- The gate.

  /** What the gate is told: the attempt, its billing assessment, and the lineage of its intent. */
  datatype DispatchAttempt = DispatchAttempt(
    attempt: Attempt, assessment: Assessment, assessmentDigest: Text, source: Word, lineageDigest: Text)
  {
    /** `_validate_evaluation_inputs` and `_validated_task_authorization_intent_lineage` */
    predicate Accepted(evaluatedAt: real) {
      var x := attempt;
      && x.runnerId == MOCK && x.laidOut && x.requestClass == x.contractClass && x.requestClass in {0, 1}
      && x.timeout == x.contractTimeout && x.number == 1 && Digest(x.outputSchema) == Digest(x.contractSchema)
      && IsDigest(x.bindingDigest) && IsDigest(x.selectionDigest) && IsDigest(x.contextDigest) && IsDigest(x.promptDigest)
      && assessment.Mock() && assessmentDigest == assessment.Digest() && evaluatedAt >= 0.0
      && lineageDigest == Lineage(source, x.definitionHash, x.requestClass, x.intent)
    }

    /** What the types of contract and assessment already guarantee. */
    predicate Typed() {
      && attempt.Typed() && attempt.approver == Lit("operator")
      && attempt.runId.Lit? && 0 < |attempt.runId.s| <= 160
      && assessment.capacity in CAPACITIES && assessment.protection in PROTECTIONS
    }
  }

  function DispatchParameters(x: DispatchAttempt): Json {
    var a := x.attempt;
    Obj(DISPATCH_PARAMETERS, [
      Num(a.number as real), Str(x.assessmentDigest), Str(a.contextDigest), Str(a.selectionDigest),
      Str(Digest(a.outputSchema)), Str(a.ProfileRef()), Str(a.promptDigest), Str(a.RunRef()), Str(Digest(a.overrides)),
      Str(a.bindingDigest), Str(Digest(a.intent.ToJson())), Str(x.lineageDigest), Str(a.definitionHash), Num(a.timeout),
      Str(a.WorkspaceRef())])
  }

  function DispatchIdentifier(runRef: Text, workspaceRef: Text): Text {
    Digest(Obj(DISPATCH_IDENTIFIER, [Str(DISPATCH_RESOURCE), Str(runRef), Str(workspaceRef)]))
  }

  function DispatchSubject(profileRef: Text, runId: Text): Subject {
    Subject(Lit("agent:task-attempt"), Lit("ordomata:local-controller"), "implementer", Lit("1"), profileRef, MOCK,
            Some(Prefixed("attempt:", runId)))
  }

  function DispatchEnvironment(evaluatedAt: real, a: Assessment): Environment {
    Environment(evaluatedAt, "verified", "disabled", "mock", a.capacity, a.protection, "closed", DISPATCH_FLOW, [])
  }

  /** The request before it carries evidence. */
  function BareDispatch(x: DispatchAttempt, evaluatedAt: real): Request {
    var a := x.attempt;
    Request(
      Prefixed(DISPATCH_SCOPE + ":", a.runId), DispatchSubject(a.ProfileRef(), a.runId),
      Action("execute", DISPATCH_OPERATION, Digest(DispatchParameters(x)), DISPATCH_EFFECT, None, []),
      Resource(DISPATCH_RESOURCE, DispatchIdentifier(a.RunRef(), a.WorkspaceRef()), a.definitionHash,
               Lit("operator:local"), BOUNDARY, a.intent.guarded, a.intent.sensitivity, Some(a.RepositoryRef()),
               Some(a.promptDigest)),
      DispatchEnvironment(evaluatedAt, x.assessment), a.intent.consequences, [])
  }

  /** `_mock_dispatch_policy`; an approver when one must approve before the run. */
  function DispatchPolicy(approverRef: Option<Text>, requested: Class): Policy {
    Policy(
      DISPATCH_POLICY_ID, POLICY_VERSION, 0.0, StageEvidence(),
      if requested == 0 then [0] else [0, 1], ["execute"], ["implementer"], [DISPATCH_OPERATION], [DISPATCH_RESOURCE],
      [BOUNDARY], [DISPATCH_FLOW], ["disabled"], ["mock"],
      if approverRef.Some? then
        [ApprovalRequirement(PRE_RUN_APPROVAL, ["execute"], [DISPATCH_RESOURCE], [], [approverRef.value], ["operator"], true)]
      else [],
      60.0)
  }

  function PolicyOf(x: Attempt): Policy {
    DispatchPolicy(if x.requiredBeforeRun then Some(x.ApproverRef()) else None, x.requestClass)
  }

  function Legacy(legacyExecutable: bool): seq<Word> { if legacyExecutable then [] else ["legacy_gate_not_executable"] }

  function WrapperOf(x: DispatchAttempt): Wrapper {
    var a := x.attempt;
    DispatchWrapper(a.bindingDigest, a.selectionDigest, Some(x.assessmentDigest), Digest(a.intent.ToJson()), a.requestClass,
                    a.legacyExecutable)
  }

  function Dispatching(x: DispatchAttempt, evaluatedAt: real): Permit {
    Propose(WrapperOf(x), Legacy(x.attempt.legacyExecutable), x.lineageDigest,
            Proposed(DISPATCH_SCOPE, BareDispatch(x, evaluatedAt)), PolicyOf(x.attempt))
  }

  /** `evaluate_mock_dispatch_authorization` */
  function DispatchGate(x: DispatchAttempt, evaluatedAt: real): Outcome<Permit> {
    if x.Accepted(evaluatedAt) then Ok(Dispatching(x, evaluatedAt)) else Raised(ValidationError)
  }

  // ---- The inspector.

  function RecordedParameters(k: Records): Json
    requires k.assessment.Some? && k.facts.bindingDigest.Some?
  {
    var b := k.facts.binding;
    var front := [
      Num(b.number as real), Str(k.assessment.value.Digest()), Str(b.contextDigest), Str(b.selectionDigest),
      Str(b.outputSchemaDigest), Str(b.profileRef), Str(b.promptDigest), Str(b.runRef), Str(b.overridesDigest),
      Str(k.facts.bindingDigest.value), Str(b.intentDigest)];
    var back := [Str(b.definitionDigest), Num(b.timeout), Str(b.workspaceRef)];
    if k.lineage.Some? then Obj(DISPATCH_PARAMETERS, front + [Str(k.lineage.value)] + back)
    else Obj(OLDER_DISPATCH_PARAMETERS, front + back)
  }

  /** The wrapper repeats what the run's records say. */
  predicate DispatchBinds(k: Records, w: Wrapper) {
    && w.DispatchWrapper? && Some(w.bindingDigest) == k.facts.bindingDigest
    && Some(w.selectionDigest) == k.facts.selectionDigest
    && w.assessmentDigest == (if k.assessment.Some? then Some(k.assessment.value.Digest()) else None)
    && w.intentDigest == k.facts.binding.intentDigest && Some(w.requestedClass) == k.facts.permissionClass
    && w.legacyExecutable == k.Legacy()
  }

  /** `_inspect_mock_dispatch_request_projection`, but for the intent and the evidence. */
  predicate DispatchProjects(k: Records, r: Request) {
    var b := k.facts.binding;
    && k.assessment.Some? && k.facts.bindingDigest.Some? && k.assessment.value.Mock() && k.ProfileAgrees()
    && r.id == Prefixed(DISPATCH_SCOPE + ":", k.facts.runId)
    && r.subject.principalId == Lit("agent:task-attempt") && r.subject.controllerId == Lit("ordomata:local-controller")
    && r.subject.role == "implementer" && r.subject.roleVersion == Lit("1") && r.subject.profileId == b.profileRef
    && r.subject.runnerId == MOCK && r.subject.sessionId == Some(Prefixed("attempt:", k.facts.runId))
    && r.action.verb == "execute" && r.action.operation == DISPATCH_OPERATION
    && r.action.parametersDigest == Digest(RecordedParameters(k)) && r.action.intendedEffect == DISPATCH_EFFECT
    && r.action.toolId == None && r.action.claims == []
    && r.resource.resourceType == DISPATCH_RESOURCE
    && r.resource.identifier == DispatchIdentifier(b.runRef, b.workspaceRef) && r.resource.version == b.definitionDigest
    && r.resource.owner == Lit("operator:local") && r.resource.trustBoundary == BOUNDARY
    && r.resource.repositoryId == Some(b.repositoryRef) && r.resource.contentDigest == Some(b.promptDigest)
    && r.environment.isolation == "verified" && r.environment.network == "disabled" && r.environment.billing == "mock"
    && r.environment.capacity == k.assessment.value.capacity && r.environment.protection == k.assessment.value.protection
    && r.environment.circuit == "closed" && r.environment.flowState == DISPATCH_FLOW && r.environment.grants == []
  }

  /** The request carries the task's own sensitivity and consequences. */
  predicate IntentProjects(intent: Option<Intent>, r: Request) {
    && intent.Some? && r.resource.guarded == intent.value.guarded && r.resource.sensitivity == intent.value.sensitivity
    && r.consequences.ToJson() == intent.value.consequences.ToJson()
  }

  function ApprovalsOf(approver: Text, required: bool): Text { Digest(Obj(APPROVALS_REF, [Str(approver), Bool(required)])) }

  /** `_inspect_mock_dispatch_policy_projection` */
  predicate DispatchPolicyProjects(k: Records, p: Policy) {
    && k.facts.permissionClass.Some?
    && if p.approvalRequirements == [] then
         && p.ToJson() == DispatchPolicy(None, k.facts.permissionClass.value).ToJson()
         && k.facts.binding.approvalsDigest == ApprovalsOf(Lit("operator"), false)
       else
         && |p.approvalRequirements| == 1 && |p.approvalRequirements[0].approvers| == 1
         && IsDigest(p.approvalRequirements[0].approvers[0])
         && p.ToJson() == DispatchPolicy(Some(p.approvalRequirements[0].approvers[0]), k.facts.permissionClass.value).ToJson()
  }

  /** What ties the document to the run and to the fixed policy. */
  function DispatchLinks(k: Records, doc: Document): set<Word> {
    hide ReadRequest, ReadPolicy, DispatchBinds, DispatchProjects, EvidenceBound, DispatchPolicyProjects, Entry;
    var r, p := ReadRequest(doc.request), ReadPolicy(doc.policy);
    When(!DispatchBinds(k, doc.wrapper), "mock_dispatch_decision_binding_mismatch")
    + if doc.failed then {}
      else
        When(r.Some? && !DispatchProjects(k, r.value), "mock_dispatch_request_binding_mismatch")
        + When(r.Some? && !IntentProjects(k.intent, r.value), "mock_dispatch_request_intent_mismatch")
        + When(r.Some? && !EvidenceBound(DISPATCH_SCOPE, r.value), "mock_dispatch_evidence_invalid")
        + When(p.Some? && !DispatchPolicyProjects(k, p.value), "mock_dispatch_policy_binding_mismatch")
        + When(Moment(Entry(doc.decision, 4)) != Some(doc.evaluatedAt), "mock_dispatch_decision_projection_mismatch")
  }

  function DispatchAround(k: Records, doc: Document): Surroundings {
    Surroundings(DispatchLinks(k, doc), Legacy(doc.wrapper.legacyExecutable), k.facts.permissionClass)
  }

  /** `_inspect_mock_dispatch_decision`, for one document. */
  function DispatchIssues(k: Records, doc: Document): set<Word> { DocumentIssues(doc, DispatchAround(k, doc)) }

  // ---- The gate's own properties.

  /** Executing something, like creating it, is at least Class 1. */
  lemma ExecuteIsNotReadOnly(a: Action, r: Resource, c: Consequences)
    requires a.verb == "execute"
    ensures 1 <= Derive(a, r, c) <= 3
  {
  }

  lemma BareDispatchParts(x: DispatchAttempt, now: real)
    requires x.Accepted(now) && x.Typed()
    ensures PartsValid(BareDispatch(x, now))
  {
    hide DispatchParameters, DispatchIdentifier, Lineage, Assessment.Digest;
    assert IsDigest(DispatchIdentifier(x.attempt.RunRef(), x.attempt.WorkspaceRef())) by {
      DispatchIdentifierIsDigest(x.attempt.RunRef(), x.attempt.WorkspaceRef());
    }
  }

  lemma DispatchIdentifierIsDigest(runRef: Text, workspaceRef: Text)
    ensures IsDigest(DispatchIdentifier(runRef, workspaceRef))
  {
  }

  lemma DispatchRequirementsValid(approverRef: Option<Text>, requested: Class)
    requires approverRef.Some? ==> IsDigest(approverRef.value)
    ensures
      var p := DispatchPolicy(approverRef, requested);
      && (forall q | q in p.evidenceRequirements :: q.Valid()) && Distinct(AttributesOf(p.evidenceRequirements))
      && (forall q | q in p.approvalRequirements :: q.Valid()) && Distinct(RequirementIdsOf(p.approvalRequirements))
  {
    var p := DispatchPolicy(approverRef, requested);
    assert AttributesOf(p.evidenceRequirements) == ["subject", "action", "resource", "environment", "consequences"];
  }

  lemma DispatchPolicyIsFixed(approverRef: Option<Text>, requested: Class)
    requires approverRef.Some? ==> IsDigest(approverRef.value)
    ensures Fixed(DispatchPolicy(approverRef, requested))
  {
    hide EvidenceRequirement.Valid, ApprovalRequirement.Valid, AttributesOf, RequirementIdsOf;
    DispatchRequirementsValid(approverRef, requested);
  }

  lemma DispatchGates(r: Request, approverRef: Option<Text>, requested: Class)
    requires r.subject.role == "implementer" && r.action.verb == "execute" && r.action.operation == DISPATCH_OPERATION
    requires r.resource.resourceType == DISPATCH_RESOURCE && r.resource.trustBoundary == BOUNDARY
    requires r.environment.isolation == "verified" && r.environment.network == "disabled" && r.environment.billing == "mock"
    requires r.environment.circuit == "closed" && r.environment.flowState == DISPATCH_FLOW
    ensures GatesOpen(r, DispatchPolicy(approverRef, requested)) <==> ClassOf(r) == 1 && requested != 0
    ensures forall q | q in DispatchPolicy(approverRef, requested).approvalRequirements :: q.Matches(r, ClassOf(r))
  {
    hide Derive, StageEvidence;
    ExecuteIsNotReadOnly(r.action, r.resource, r.consequences);
  }

  /** An attempt may be dispatched exactly when the legacy gate would run it, no approval is due
      before the run, and it asks for Class 1 and for nothing beyond a local draft.  A read-only
      attempt never is: executing is not read-only. */
  lemma DispatchGateExactly(x: DispatchAttempt, now: real)
    requires x.Accepted(now) && x.Typed()
    ensures
      var a, permit := x.attempt, Dispatching(x, now);
      && permit.doc.eligible == (permit.doc.blocks == [])
      && (permit.doc.eligible <==>
            a.legacyExecutable && !a.requiredBeforeRun && a.requestClass == 1 && ClassOf(BareDispatch(x, now)) == 1)
      && (permit.doc.eligible <==> a.legacyExecutable && !a.requiredBeforeRun && a.requestClass == 1 && a.Modest())
  {
    hide Attempt.Modest, Propose, Derive, Proposed, GatesOpen, DispatchParameters, DispatchIdentifier, StageEvidence, Bind, Lineage,
         Policy.Valid, Evaluate, ApprovalRequirement.Matches, Assessment.Digest;
    var bare, p := BareDispatch(x, now), PolicyOf(x.attempt);
    var r := Proposed(DISPATCH_SCOPE, bare);
    var approverRef := if x.attempt.requiredBeforeRun then Some(x.attempt.ApproverRef()) else None;
    DispatchPolicyIsFixed(approverRef, x.attempt.requestClass);
    ExecuteIsNotReadOnly(bare.action, bare.resource, bare.consequences);
    ProposedSame(DISPATCH_SCOPE, bare);
    DispatchGates(r, approverRef, x.attempt.requestClass);
    ProposedPermits(DISPATCH_SCOPE, bare, p);
    ProposalExactly(WrapperOf(x), Legacy(x.attempt.legacyExecutable), x.lineageDigest, DISPATCH_SCOPE, bare, p);
    ApprovalsDue(approverRef, x.attempt.requestClass);
    DispatchIsDraft(x, now);
  }

  /** The dispatch of a typed attempt is Class 1 exactly for a modest task. */
  lemma DispatchIsDraft(x: DispatchAttempt, now: real)
    requires x.Typed()
    ensures ClassOf(BareDispatch(x, now)) == 1 <==> x.attempt.Modest()
  {
    hide Derive, DispatchParameters, DispatchIdentifier, LocalDraft;
    var r := BareDispatch(x, now);
    DraftExactly(r.action, r.resource, r.consequences);
    ExecuteIsNotReadOnly(r.action, r.resource, r.consequences);
  }

  lemma ApprovalsDue(approverRef: Option<Text>, requested: Class)
    ensures approverRef == None <==> forall q :: q !in DispatchPolicy(approverRef, requested).approvalRequirements
  {
    if approverRef.Some? {
      assert DispatchPolicy(approverRef, requested).approvalRequirements[0] in DispatchPolicy(approverRef, requested).approvalRequirements;
    }
  }

  // ---- What the checks of the request amount to.

  /** The one request, but for its evidence, that the records of the run call for. */
  function RecordedDispatch(k: Records, evaluatedAt: real): Request
    requires k.assessment.Some? && k.facts.bindingDigest.Some? && k.intent.Some?
  {
    var b, intent := k.facts.binding, k.intent.value;
    Request(
      Prefixed(DISPATCH_SCOPE + ":", k.facts.runId), DispatchSubject(b.profileRef, k.facts.runId),
      Action("execute", DISPATCH_OPERATION, Digest(RecordedParameters(k)), DISPATCH_EFFECT, None, []),
      Resource(DISPATCH_RESOURCE, DispatchIdentifier(b.runRef, b.workspaceRef), b.definitionDigest, Lit("operator:local"),
               BOUNDARY, intent.guarded, intent.sensitivity, Some(b.repositoryRef), Some(b.promptDigest)),
      DispatchEnvironment(evaluatedAt, k.assessment.value), intent.consequences, [])
  }

  lemma ConsequencesTell(a: Consequences, b: Consequences)
    requires a.ToJson() == b.ToJson()
    ensures a == b
  {
    var x, y := a.ToJson().values, b.ToJson().values;
    assert forall i | 0 <= i < 8 :: x[i] == y[i];
  }

  /** The scattered checks leave no freedom: they pass exactly for the recorded request. */
  lemma DispatchProjectsExactly(k: Records, r: Request)
    ensures DispatchProjects(k, r) && IntentProjects(k.intent, r) <==>
      && k.assessment.Some? && k.facts.bindingDigest.Some? && k.intent.Some? && k.assessment.value.Mock() && k.ProfileAgrees()
      && r == RecordedDispatch(k, r.environment.evaluatedAt).(evidence := r.evidence)
  {
    hide RecordedParameters, DispatchIdentifier, Consequences.ToJson, Assessment.Mock, Records.ProfileAgrees;
    if IntentProjects(k.intent, r) { ConsequencesTell(r.consequences, k.intent.value.consequences); }
  }

  // ---- Gate and inspector agree.

  /** The run's records describe the attempt the gate was asked about, under a schema 6 binding. */
  predicate Recorded(k: Records, x: DispatchAttempt) {
    && Consistent(k.facts, x.attempt) && k.intent == Some(x.attempt.intent) && k.lineage == Some(x.lineageDigest)
    && k.assessment == Some(x.assessment) && (k.selectedProfile.Some? ==> k.selectedProfile.value == x.attempt.profileId)
  }

  lemma RecordedIsBare(x: DispatchAttempt, now: real, k: Records)
    requires x.Accepted(now) && Recorded(k, x)
    ensures k.assessment.Some? && k.facts.bindingDigest.Some? && k.intent.Some?
    ensures BareDispatch(x, now) == RecordedDispatch(k, now) && k.assessment.value.Mock() && k.ProfileAgrees()
    ensures DispatchBinds(k, WrapperOf(x)) <==> x.attempt.legacyExecutable
  {
    hide DispatchIdentifier, Lineage, Assessment.Digest;
    assert RecordedParameters(k) == DispatchParameters(x);
  }

  lemma DispatchApprovalsBack(approverRef: Option<Text>, requested: Class)
    ensures
      var before, after := DispatchPolicy(approverRef, requested), NormalPolicy(DispatchPolicy(approverRef, requested));
      && |after.approvalRequirements| == |before.approvalRequirements| == (if approverRef.Some? then 1 else 0)
      && (approverRef.Some? ==> after.approvalRequirements[0].approvers == [approverRef.value])
  {
    hide StageEvidence, NormalEvidenceRequirements;
  }

  lemma PolicyReadsBack(x: Attempt, k: Records)
    requires Consistent(k.facts, x) && x.approver == Lit("operator")
    ensures DispatchPolicyProjects(k, NormalPolicy(PolicyOf(x)))
  {
    hide Policy.ToJson, DispatchPolicy, NormalPolicy, Fixed, ReadPolicy;
    var approverRef := if x.requiredBeforeRun then Some(x.ApproverRef()) else None;
    DispatchPolicyIsFixed(approverRef, x.requestClass);
    DispatchApprovalsBack(approverRef, x.requestClass);
    FixedReadsBack(DispatchPolicy(approverRef, x.requestClass));
  }

  lemma FixedReadsBack(p: Policy)
    requires Fixed(p)
    ensures NormalPolicy(p).ToJson() == p.ToJson() && p.ttl > 0.0
  {
    hide Policy.ToJson, NormalPolicy, ReadPolicy;
    PolicyRoundTrip(p);
  }

  /** Agreement: whatever the gate decides about an attempt that the run's records describe, the
      inspector finds nothing wrong with the persisted decision. */
  lemma DispatchAgreement(x: DispatchAttempt, now: real, k: Records)
    requires x.Accepted(now) && x.Typed() && x.attempt.legacyExecutable && Recorded(k, x)
    ensures DispatchIssues(k, Dispatching(x, now).doc) == {}
  {
    hide BareDispatch, DocumentIssues, Evaluate, Request.ToJson, Policy.ToJson, Decision.ToJson, ReadRequest, ReadPolicy,
         Proposed, Derive, DispatchProjects, IntentProjects, EvidenceBound, DispatchPolicyProjects, DispatchBinds,
         Lineage, Assessment.Digest, NormalRequest, NormalPolicy, PartsValid, DispatchPolicy, Fixed, RecordedDispatch,
         ObligationsSupported, CommonBlocks, DecisionMatches, Entry;
    var bare, p := BareDispatch(x, now), PolicyOf(x.attempt);
    var r, doc := Proposed(DISPATCH_SCOPE, bare), Dispatching(x, now).doc;
    DispatchPolicyIsFixed(if x.attempt.requiredBeforeRun then Some(x.attempt.ApproverRef()) else None, x.attempt.requestClass);
    BareDispatchParts(x, now);
    RecordedIsBare(x, now, k);
    ReadBack(DISPATCH_SCOPE, bare, p);
    ProposedReadsBack(DISPATCH_SCOPE, bare);
    BareMoment(x, now);
    DispatchProjectsExactly(k, NormalRequest(r));
    PolicyReadsBack(x.attempt, k);
    FixedReadsBack(p);
    ProposalMoment(DISPATCH_SCOPE, bare, p);
    assert DispatchLinks(k, doc) == {};
    ProposalIsClean(WrapperOf(x), Legacy(true), x.lineageDigest, DISPATCH_SCOPE, bare, p, DispatchAround(k, doc));
  }

  lemma BareMoment(x: DispatchAttempt, now: real)
    ensures BareDispatch(x, now).environment.evaluatedAt == now
  {
  }

  lemma ProposalMoment(scope: string, bare: Request, p: Policy)
    requires PartsValid(bare) && p.ttl > 0.0
    ensures Moment(Entry(Evaluate(Proposed(scope, bare), p).ToJson(), 4)) == Some(bare.environment.evaluatedAt)
    ensures Proposed(scope, bare).environment == bare.environment
  {
    hide Evaluate, Decision.ToJson, Entry, Derive, Bind;
    ProposalTimes(scope, bare, p);
    DecisionEntries(Evaluate(Proposed(scope, bare), p));
  }

  // ---- What an eligible decision means.

  lemma ClearedLinks(k: Records, doc: Document, r: Request, p: Policy)
    requires DispatchLinks(k, doc) == {} && !doc.failed
    requires ReadRequest(doc.request) == Some(r) && ReadPolicy(doc.policy) == Some(p)
    ensures DispatchBinds(k, doc.wrapper) && DispatchProjects(k, r) && IntentProjects(k.intent, r)
    ensures EvidenceBound(DISPATCH_SCOPE, r) && DispatchPolicyProjects(k, p)
  {
    hide DispatchBinds, DispatchProjects, IntentProjects, EvidenceBound, DispatchPolicyProjects, ReadRequest, ReadPolicy;
  }

  lemma OneRequirementBack(p: Policy, q: ApprovalRequirement)
    requires p.approvalRequirements == [q]
    ensures NormalPolicy(p).approvalRequirements == [NormalApprovalRequirement(q)]
    ensures NormalApprovalRequirement(q) in NormalPolicy(p).approvalRequirements
  {
    hide NormalEvidenceRequirements, NormalApprovalRequirement, WordKey, TextKey, ClassKey;
    assert NormalPolicy(p).approvalRequirements == [NormalApprovalRequirement(q)];
    assert NormalPolicy(p).approvalRequirements[0] in NormalPolicy(p).approvalRequirements;
  }

  /** A policy that calls for an approval permits no request without grants. */
  lemma ApprovalForbids(r: Request, p: Policy, q: ApprovalRequirement)
    requires p.approvalRequirements == [q] && q.Matches(r, ClassOf(r)) && r.environment.grants == []
    ensures Evaluate(r, NormalPolicy(p)).effect != "permit"
  {
    hide *;
    OneRequirementBack(p, q);
    NormalMatches(q, r, ClassOf(r));
    PermitExactly(r, NormalPolicy(p));
    NotApproved(NormalApprovalRequirement(q), r, NormalPolicy(p));
  }

  lemma NotApproved(q: ApprovalRequirement, r: Request, p: Policy)
    requires r.environment.grants == []
    ensures !Approved(q, r, p)
  {
  }

  lemma ApprovalNeverDispatched(r: Request, approverRef: Text, requested: Class)
    requires r.environment.grants == [] && r.action.verb == "execute" && r.resource.resourceType == DISPATCH_RESOURCE
    ensures Evaluate(r, NormalPolicy(DispatchPolicy(Some(approverRef), requested))).effect != "permit"
  {
    hide Evaluate, NormalPolicy, Derive, StageEvidence;
    var p := DispatchPolicy(Some(approverRef), requested);
    ApprovalForbids(r, p, p.approvalRequirements[0]);
  }

  /** A policy that projects and permits such a request is the one without an approval. */
  lemma PermittedPolicy(k: Records, r: Request, p: Policy)
    requires DispatchPolicyProjects(k, p) && ReadPolicy(p.ToJson()) == Some(p) && Evaluate(r, p).effect == "permit"
    requires r.environment.grants == [] && r.action.verb == "execute" && r.resource.resourceType == DISPATCH_RESOURCE
    ensures p.ToJson() == DispatchPolicy(None, k.facts.permissionClass.value).ToJson()
  {
    hide Evaluate, NormalPolicy, Policy.ToJson, DispatchPolicy, ReadPolicy, Policy.Valid;
    if p.approvalRequirements != [] {
      var approverRef := p.approvalRequirements[0].approvers[0];
      DispatchPolicyIsFixed(Some(approverRef), k.facts.permissionClass.value);
      PolicyRoundTrip(DispatchPolicy(Some(approverRef), k.facts.permissionClass.value));
      ApprovalNeverDispatched(r, approverRef, k.facts.permissionClass.value);
    }
  }

  /** The decision is the permit of the one request that the run's records call for, freshly
      backed, under the one fixed policy, for a Class 1 attempt that needs no approval. */
  ghost predicate DispatchPermits(k: Records, doc: Document) {
    hide *;
    && doc.eligible && ReadRequest(doc.request).Some? && ReadPolicy(doc.policy).Some?
    && k.assessment.Some? && k.facts.bindingDigest.Some? && k.intent.Some? && k.facts.permissionClass == Some(1)
    && k.assessment.value.Mock() && DispatchBinds(k, doc.wrapper) && doc.wrapper.legacyExecutable
    && var r, p := ReadRequest(doc.request).value, ReadPolicy(doc.policy).value;
       && r == RecordedDispatch(k, doc.evaluatedAt).(evidence := r.evidence) && EvidenceBound(DISPATCH_SCOPE, r)
       && p.ToJson() == DispatchPolicy(None, 1).ToJson() && Evaluate(r, p).effect == "permit" && ClassOf(r) == 1
  }

  /** A clean and eligible dispatch decision is about this run and no other. */
  lemma EligibleDispatch(k: Records, doc: Document)
    requires DispatchIssues(k, doc) == {} && doc.eligible
    ensures DispatchPermits(k, doc)
  {
    hide DocumentIssues, Evaluate, ReadRequest, ReadPolicy, Decision.ToJson, Request.ToJson, Policy.ToJson, DispatchLinks,
         DispatchProjects, IntentProjects, EvidenceBound, DispatchPolicy, Derive, Policy.Valid, Assessment.Digest,
         RecordedDispatch;
    DispatchReads(k, doc);
    var r, p := ReadRequest(doc.request).value, ReadPolicy(doc.policy).value;
    EligibleDocument(doc, DispatchAround(k, doc), r, p);
    CleanDigests(doc, DispatchAround(k, doc));
    ClearedLinks(k, doc, r, p);
    DispatchProjectsExactly(k, r);
    RecordedShape(k, doc.evaluatedAt);
    ExecuteIsNotReadOnly(r.action, r.resource, r.consequences);
    ReadsAgain(doc.policy, p);
    PermittedPolicy(k, r, p);
  }

  lemma RecordedShape(k: Records, now: real)
    requires k.assessment.Some? && k.facts.bindingDigest.Some? && k.intent.Some?
    ensures
      var r := RecordedDispatch(k, now);
      && r.environment.grants == [] && r.action.verb == "execute" && r.resource.resourceType == DISPATCH_RESOURCE
  {
    hide RecordedParameters, DispatchIdentifier;
  }

  lemma ReadsAgain(j: Json, p: Policy)
    requires ReadPolicy(j) == Some(p)
    ensures p.ToJson() == j && ReadPolicy(p.ToJson()) == Some(p)
  {
    hide Policy.ToJson;
  }

  /** The records are of one run: its binding, selection, assessment, task, prompt and intent. */
  predicate SameAttempt(k: Records, l: Records) {
    && k.facts.runId == l.facts.runId && k.facts.bindingDigest == l.facts.bindingDigest
    && k.facts.selectionDigest == l.facts.selectionDigest && k.lineage == l.lineage && k.assessment == l.assessment
    && k.facts.binding.definitionDigest == l.facts.binding.definitionDigest
    && k.facts.binding.promptDigest == l.facts.binding.promptDigest
    && k.intent.Some? && l.intent.Some? && k.intent.value.consequences == l.intent.value.consequences
  }

  /** No replay: a decision that is clean and eligible in two runs is about the same run, the same
      binding and the same selected attempt. */
  lemma DispatchIsForOneRun(k: Records, l: Records, doc: Document)
    requires DispatchIssues(k, doc) == {} && DispatchIssues(l, doc) == {} && doc.eligible
    ensures SameAttempt(k, l)
  {
    hide DispatchIssues, ReadRequest, ReadPolicy, Evaluate, Request.ToJson, Policy.ToJson, RecordedDispatch, DispatchPolicy,
         DispatchBinds, EvidenceBound, Derive, Assessment.Digest;
    EligibleDispatch(k, doc);
    EligibleDispatch(l, doc);
    SameWrapper(k, l, doc.wrapper);
    SameRecorded(k, l, doc.evaluatedAt, ReadRequest(doc.request).value.evidence);
  }

  lemma DispatchReads(k: Records, doc: Document)
    requires DispatchIssues(k, doc) == {} && doc.eligible
    ensures ReadRequest(doc.request).Some? && ReadPolicy(doc.policy).Some?
  {
    hide DocumentIssues, ReadRequest, ReadPolicy, Evaluate, Decision.ToJson, DispatchAround;
    EligibleIsAuthority(doc, DispatchAround(k, doc));
  }

  lemma SameWrapper(k: Records, l: Records, w: Wrapper)
    requires DispatchBinds(k, w) && DispatchBinds(l, w) && k.assessment.Some? && l.assessment.Some?
    ensures k.facts.bindingDigest == l.facts.bindingDigest && k.facts.selectionDigest == l.facts.selectionDigest
    ensures k.assessment.value.ToJson() == l.assessment.value.ToJson()
  {
    hide Assessment.ToJson;
  }

  lemma SameRecorded(k: Records, l: Records, now: real, evidence: seq<Evidence>)
    requires k.assessment.Some? && k.facts.bindingDigest.Some? && k.intent.Some?
    requires l.assessment.Some? && l.facts.bindingDigest.Some? && l.intent.Some?
    requires RecordedDispatch(k, now).(evidence := evidence) == RecordedDispatch(l, now).(evidence := evidence)
    requires k.assessment.value.ToJson() == l.assessment.value.ToJson()
    ensures k.facts.runId == l.facts.runId && k.lineage == l.lineage && k.assessment == l.assessment
    ensures k.facts.binding.definitionDigest == l.facts.binding.definitionDigest
    ensures k.facts.binding.promptDigest == l.facts.binding.promptDigest
    ensures k.intent.value.consequences == l.intent.value.consequences
  {
    hide DispatchIdentifier, Assessment.ToJson, RecordedParameters;
    AssessmentTells(k.assessment.value, l.assessment.value);
    SamePrefix("attempt:", k.facts.runId, l.facts.runId);
    SameLineage(k, l);
  }

  lemma SamePrefix(prefix: string, a: Text, b: Text)
    requires Prefixed(prefix, a) == Prefixed(prefix, b)
    ensures a == b
  {
    match (a, b)
    case (Lit(s), Lit(t)) => assert s == (prefix + s)[|prefix|..] && t == (prefix + t)[|prefix|..];
    case (Hash(s, _), Hash(t, _)) => assert s == (prefix + s)[|prefix|..] && t == (prefix + t)[|prefix|..];
    case _ =>
  }

  lemma AssessmentTells(a: Assessment, b: Assessment)
    requires a.ToJson() == b.ToJson()
    ensures a == b
  {
    var x, y := a.ToJson().values, b.ToJson().values;
    assert forall i | 0 <= i < 10 :: x[i] == y[i];
  }

  lemma SameLineage(k: Records, l: Records)
    requires k.assessment.Some? && k.facts.bindingDigest.Some? && l.assessment.Some? && l.facts.bindingDigest.Some?
    requires RecordedParameters(k) == RecordedParameters(l)
    ensures k.lineage == l.lineage
  {
    hide Assessment.Digest;
    var x, y := RecordedParameters(k).values, RecordedParameters(l).values;
    if k.lineage.Some? && l.lineage.Some? { assert x[11] == y[11]; }
  }

  // ---- The receipt.

  /** The request is the dispatch of this contract's attempt. */
  predicate FixedDispatch(x: Attempt, r: Request) {
    && r.subject.runnerId == MOCK && r.subject.role == "implementer" && r.action.verb == "execute"
    && r.action.operation == DISPATCH_OPERATION && r.action.intendedEffect == DISPATCH_EFFECT
    && r.resource.resourceType == DISPATCH_RESOURCE && r.resource.version == x.definitionHash
    && r.resource.trustBoundary == BOUNDARY && r.resource.guarded == x.intent.guarded
    && r.resource.sensitivity == x.intent.sensitivity && r.consequences == x.intent.consequences
    && r.environment.isolation == "verified" && r.environment.network == "disabled" && r.environment.billing == "mock"
    && r.environment.circuit == "closed" && r.environment.flowState == DISPATCH_FLOW
  }

  /** `_assert_mock_dispatch_permit_current` */
  predicate DispatchCurrent(x: DispatchAttempt, a: Permit, startedAt: real) {
    var w := a.doc.wrapper;
    && a.doc.current && w.requestedClass in {0, 1} && w.intentDigest == Digest(x.attempt.intent.ToJson())
    && a.lineage == Lineage(x.source, x.attempt.definitionHash, w.requestedClass, x.attempt.intent)
    && StillPermits(a, DispatchPolicy(if x.attempt.requiredBeforeRun then Some(x.attempt.ApproverRef()) else None,
                                      w.requestedClass), x.attempt.contractClass, startedAt)
    && FixedDispatch(x.attempt, a.request)
  }

  /** The receipt of an execution, as it is persisted. */
  datatype DispatchReceipt = DispatchReceipt(
    bindingDigest: Text, selectionDigest: Text, requestDigest: Text, decisionDigest: Text, receipt: Receipt,
    receiptDigest: Text)

  function DispatchReceiptId(decisionDigest: Text, requestDigest: Text, bindingDigest: Text): (t: Text)
    ensures IsDigest(t)
  {
    Digest(Obj(DISPATCH_RECEIPT_ID, [Str(decisionDigest), Plain("mock_dispatch_action"), Str(requestDigest),
                                     Str(bindingDigest)]))
  }

  /** `build_mock_dispatch_action_receipt` */
  function BuildDispatchReceipt(
    x: DispatchAttempt, a: Permit, startedAt: real, completedAt: real, outcome: Word, result: Option<Text>): Outcome<DispatchReceipt>
  {
    if !DispatchCurrent(x, a, startedAt) then Raised(AuthorizationBlocked)
    else if completedAt < startedAt then Raised(ValidationError)
    else
      var w := a.doc.wrapper;
      var id := DispatchReceiptId(a.decision.Digest(), a.request.Digest(), w.bindingDigest);
      match Record(id, a.decision, a.request, DISPATCH_EXECUTOR, startedAt, completedAt, outcome,
                   Map(a.decision.obligations, Fulfilled), result)
      case Raised(error) => Raised(error)
      case Ok(receipt) =>
        Ok(DispatchReceipt(w.bindingDigest, w.selectionDigest, a.request.Digest(), a.decision.Digest(), receipt,
                           Digest(receipt.ToJson())))
  }

  predicate DispatchReceiptBinds(k: Records, doc: Option<Document>, rp: DispatchReceipt) {
    && Some(rp.bindingDigest) == k.facts.bindingDigest && Some(rp.selectionDigest) == k.facts.selectionDigest
    && Some(rp.requestDigest) == RequestOf(doc) == Some(rp.receipt.requestDigest)
    && Some(rp.decisionDigest) == DecisionDigestOf(doc) == Some(rp.receipt.decisionDigest)
  }

  predicate DispatchReceiptNamed(k: Records, doc: Option<Document>, receipt: Receipt) {
    && RequestOf(doc).Some? && DecisionDigestOf(doc).Some? && k.facts.bindingDigest.Some?
    && receipt.receiptId == DispatchReceiptId(DecisionDigestOf(doc).value, RequestOf(doc).value, k.facts.bindingDigest.value)
  }

  /** The receipt's result and outcome are those of the accounting. */
  predicate ResultMatches(k: Records, receipt: Receipt) {
    match k.accounting
    case Some(a) =>
      receipt.resultDigest == Some(DispatchResult(a, k.facts.RunRef(), k.runner)) && Some(receipt.outcome) == OutcomeFor(a.status)
    case None => receipt.resultDigest == None && receipt.outcome != "succeeded"
  }

  /** `_inspect_mock_dispatch_receipt`, for the one receipt of a run. */
  function DispatchedIssues(k: Records, doc: Option<Document>, row: Row, rp: DispatchReceipt): set<Word> {
    var receipt := rp.receipt;
    When(row.sequence == None, "mock_dispatch_receipt_sequence_invalid")
    + When(!DispatchReceiptBinds(k, doc, rp), "mock_dispatch_receipt_binding_mismatch")
    + When(rp.receiptDigest != Digest(receipt.ToJson()), "mock_dispatch_receipt_digest_mismatch")
    + When(!row.identified || !DispatchReceiptNamed(k, doc, receipt), "mock_dispatch_receipt_event_identifier_mismatch")
    + When(receipt.executorId != DISPATCH_EXECUTOR, "mock_dispatch_receipt_executor_mismatch")
    + When(doc == None || receipt.enforcedActionDigest != ActionOf(doc.value), "mock_dispatch_receipt_action_mismatch")
    + When(doc == None || !ResultsMatch(Entry(doc.value.decision, 6), receipt.results),
           "mock_dispatch_receipt_obligation_mismatch")
    + When(receipt.outcome !in OUTCOMES, "mock_dispatch_receipt_outcome_invalid")
    + When(receipt.startedAt < 0.0 || receipt.completedAt < receipt.startedAt
           || row.occurredAt == None || row.occurredAt.value < receipt.completedAt, "mock_dispatch_receipt_timestamp_invalid")
    + When(!Held(doc, receipt.startedAt), "mock_dispatch_receipt_permit_not_current")
    + When(!ResultMatches(k, receipt), "mock_dispatch_receipt_result_mismatch")
  }

  lemma BareIsFixedDispatch(x: DispatchAttempt, now: real)
    ensures FixedDispatch(x.attempt, Proposed(DISPATCH_SCOPE, BareDispatch(x, now)))
    ensures 1 <= ClassOf(BareDispatch(x, now)) && PolicyOf(x.attempt).ttl == 60.0
  {
    hide DispatchParameters, DispatchIdentifier, Bind, Derive;
    var bare := BareDispatch(x, now);
    ExecuteIsNotReadOnly(bare.action, bare.resource, bare.consequences);
  }

  /** At the moment of dispatch the whole list of checks adds one thing to the decision: that the
      execution starts inside the window. */
  lemma DispatchCurrentExactly(x: DispatchAttempt, now: real, startedAt: real)
    requires x.Accepted(now)
    ensures
      var a := Dispatching(x, now);
      DispatchCurrent(x, a, startedAt) <==> a.doc.eligible && InWindow(a.decision, startedAt)
  {
    hide Evaluate, Request.ToJson, Policy.ToJson, Decision.ToJson, Derive, ObligationsSupported, Proposed, BareDispatch,
         FixedDispatch, Lineage, Assessment.Digest, DispatchPolicy, StillPermits, CommonBlocks;
    var bare, p := BareDispatch(x, now), PolicyOf(x.attempt);
    BareIsFixedDispatch(x, now);
    BareMoment(x, now);
    ProposedSame(DISPATCH_SCOPE, bare);
    StillPermitsExactly(WrapperOf(x), Legacy(x.attempt.legacyExecutable), x.lineageDigest, DISPATCH_SCOPE, bare, p,
                        x.attempt.contractClass, startedAt);
    ProposalTimes(DISPATCH_SCOPE, bare, p);
    ProposedSame(DISPATCH_SCOPE, bare);
  }

  /** The same receipt, whatever the order of its results. */
  predicate SameDispatchReceipt(a: DispatchReceipt, b: DispatchReceipt) {
    a.(receipt := Ordered(a.receipt)) == b.(receipt := Ordered(b.receipt))
  }

  /** When the controller's receipt is built, and what it is. */
  lemma DispatchReceiptBuilds(
    x: DispatchAttempt, now: real, startedAt: real, completedAt: real, outcome: Word, result: Option<Text>)
    requires x.Accepted(now) && outcome in OUTCOMES && (result.Some? ==> IsDigest(result.value))
    ensures
      var a := Dispatching(x, now);
      BuildDispatchReceipt(x, a, startedAt, completedAt, outcome, result) ==
        if !(a.doc.eligible && InWindow(a.decision, startedAt)) then Raised(AuthorizationBlocked)
        else if completedAt < startedAt then Raised(ValidationError)
        else Ok(ControllerReceipt(x, now, startedAt, completedAt, outcome, result))
  {
    hide Evaluate, Request.ToJson, Policy.ToJson, Decision.ToJson, Derive, ObligationsSupported, Proposed, BareDispatch,
         Lineage, Assessment.Digest, DispatchPolicy, CommonBlocks, DispatchCurrent, Record, Receipt.ToJson, DispatchReceiptId;
    var bare, p, a := BareDispatch(x, now), PolicyOf(x.attempt), Dispatching(x, now);
    DispatchCurrentExactly(x, now, startedAt);
    if DispatchCurrent(x, a, startedAt) && startedAt <= completedAt {
      BareIsFixedDispatch(x, now);
      BareMoment(x, now);
      ProposedSame(DISPATCH_SCOPE, bare);
      ProposalExactly(WrapperOf(x), Legacy(x.attempt.legacyExecutable), x.lineageDigest, DISPATCH_SCOPE, bare, p);
      PermitReceipt(DispatchReceiptId(a.decision.Digest(), a.request.Digest(), x.attempt.bindingDigest), a.request, p,
                    DISPATCH_EXECUTOR, startedAt, completedAt, outcome, result);
    }
  }

  function ControllerReceipt(
    x: DispatchAttempt, now: real, startedAt: real, completedAt: real, outcome: Word, result: Option<Text>): DispatchReceipt
  {
    var a := Dispatching(x, now);
    var receipt := Receipt(
      DispatchReceiptId(a.decision.Digest(), a.request.Digest(), x.attempt.bindingDigest), a.decision.Digest(),
      a.request.Digest(), Enforced(a.request), DISPATCH_EXECUTOR, startedAt, completedAt, outcome,
      Map(a.decision.obligations, Fulfilled), result);
    DispatchReceipt(x.attempt.bindingDigest, x.attempt.selectionDigest, a.request.Digest(), a.decision.Digest(), receipt,
                    Digest(receipt.ToJson()))
  }

  lemma DispatchReceiptParts(k: Records, doc: Document, row: Row, rp: DispatchReceipt)
    ensures DispatchedIssues(k, Some(doc), row, rp) == {} <==>
      && row.sequence.Some? && row.identified && row.occurredAt.Some? && rp.receipt.completedAt <= row.occurredAt.value
      && DispatchReceiptBinds(k, Some(doc), rp) && rp.receiptDigest == Digest(rp.receipt.ToJson())
      && DispatchReceiptNamed(k, Some(doc), rp.receipt) && rp.receipt.executorId == DISPATCH_EXECUTOR
      && rp.receipt.enforcedActionDigest == ActionOf(doc) && ResultsMatch(Entry(doc.decision, 6), rp.receipt.results)
      && rp.receipt.outcome in OUTCOMES && 0.0 <= rp.receipt.startedAt <= rp.receipt.completedAt
      && Held(Some(doc), rp.receipt.startedAt) && ResultMatches(k, rp.receipt)
  {
    hide DispatchReceiptBinds, DispatchReceiptNamed, ActionOf, Entry, ResultsMatch, Held, ResultMatches, Receipt.ToJson;
  }

  lemma ReceiptInOrder(receipt: Receipt)
    ensures Ordered(receipt).ToJson() == receipt.ToJson()
  {
    hide ResultKey;
    SortTwice(receipt.results, ResultKey);
  }

  lemma SameFields(a: DispatchReceipt, b: DispatchReceipt)
    requires b.receiptDigest == Digest(b.receipt.ToJson())
    ensures SameDispatchReceipt(a, b) <==>
      && a.bindingDigest == b.bindingDigest && a.selectionDigest == b.selectionDigest && a.requestDigest == b.requestDigest
      && a.decisionDigest == b.decisionDigest && a.receiptDigest == Digest(a.receipt.ToJson())
      && a.receipt.(results := []) == b.receipt.(results := [])
      && SortBy(a.receipt.results, ResultKey) == SortBy(b.receipt.results, ResultKey)
  {
    hide SortBy, Receipt.ToJson;
    ReceiptInOrder(a.receipt);
    ReceiptInOrder(b.receipt);
    if a.receipt.(results := []) == b.receipt.(results := [])
       && SortBy(a.receipt.results, ResultKey) == SortBy(b.receipt.results, ResultKey) {
      assert Ordered(a.receipt) == a.receipt.(results := []).(results := SortBy(a.receipt.results, ResultKey));
      assert Ordered(b.receipt) == b.receipt.(results := []).(results := SortBy(b.receipt.results, ResultKey));
      assert a.receipt.ToJson() == b.receipt.ToJson();
    }
  }

  /** The receipt is, in its own times and with its own result, the one the controller builds. */
  predicate AsControllerBuilds(x: DispatchAttempt, now: real, rp: DispatchReceipt) {
    var receipt := rp.receipt;
    && receipt.outcome in OUTCOMES && receipt.startedAt <= receipt.completedAt
    && InWindow(Dispatching(x, now).decision, receipt.startedAt)
    && SameDispatchReceipt(rp, ControllerReceipt(x, now, receipt.startedAt, receipt.completedAt, receipt.outcome,
                                                 receipt.resultDigest))
  }

  lemma DispatchDocument(x: DispatchAttempt, now: real)
    requires x.Accepted(now) && Dispatching(x, now).doc.eligible
    ensures
      var a := Dispatching(x, now);
      && a.decision == Evaluate(a.request, a.policy) && a.decision.effect == "permit" && 1 <= ClassOf(a.request)
      && a.doc.request == a.request.ToJson() && a.doc.requestDigest == Some(a.request.Digest()) && !a.doc.failed
      && a.doc.decision == a.decision.ToJson() && a.doc.decisionDigest == Some(a.decision.Digest()) && a.doc.effect == "permit"
      && 0.0 <= a.decision.issuedAt < a.decision.expiresAt
  {
    hide Evaluate, Request.ToJson, Policy.ToJson, Decision.ToJson, Derive, ObligationsSupported, Proposed, BareDispatch,
         Lineage, Assessment.Digest, DispatchPolicy, CommonBlocks;
    var bare, p := BareDispatch(x, now), PolicyOf(x.attempt);
    BareIsFixedDispatch(x, now);
    BareMoment(x, now);
    ProposedSame(DISPATCH_SCOPE, bare);
    ProposalExactly(WrapperOf(x), Legacy(x.attempt.legacyExecutable), x.lineageDigest, DISPATCH_SCOPE, bare, p);
    ProposalTimes(DISPATCH_SCOPE, bare, p);
  }

  /** The checks of a dispatch receipt add up to this: it is the receipt the controller builds for
      the permit, used in its window, and it agrees with its event and with the accounting. */
  lemma DispatchReceiptExactly(x: DispatchAttempt, now: real, k: Records, row: Row, rp: DispatchReceipt)
    requires x.Accepted(now) && Consistent(k.facts, x.attempt) && Dispatching(x, now).doc.eligible
    ensures DispatchedIssues(k, Some(Dispatching(x, now).doc), row, rp) == {} <==>
      InPlace(row, rp.receipt.completedAt) && ResultMatches(k, rp.receipt) && AsControllerBuilds(x, now, rp)
  {
    hide Evaluate, Request.ToJson, Policy.ToJson, Decision.ToJson, Derive, Receipt.ToJson, DispatchReceiptId,
         DispatchedIssues, Enforced, ResultsMatch, Entry, ActionOf, ResultMatches, PermitHeld, SortBy, Dispatching,
         SameDispatchReceipt;
    var a, receipt := Dispatching(x, now), rp.receipt;
    var c := ControllerReceipt(x, now, receipt.startedAt, receipt.completedAt, receipt.outcome, receipt.resultDigest);
    DispatchDocument(x, now);
    DispatchReceiptParts(k, a.doc, row, rp);
    HeldByWindow(a.decision, receipt.startedAt);
    RequestIsEnforced(a.request, a.doc);
    OrderedResults(a.request, a.policy, receipt.results);
    SameFields(rp, c);
  }
}
