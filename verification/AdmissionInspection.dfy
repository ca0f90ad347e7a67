/** The inspector's view of an admission: persisted documents, recomputed. */
module AdmissionInspection {
  import opened Prelude
  import opened Canon
  import opened Sequences
  import opened Authorization
  import opened Evaluator
  import opened EvaluatorLaws
  import opened Receipts
  import opened CanonicalParsing
  import opened Proposals
  import opened Admission

  /** What the run's own records say, independently of the decision. */
  datatype Facts = Facts(
    runId: Text, runDirectory: Text, permissionClass: Option<Class>, selectedMock: bool,
    bindingDigest: Option<Text>, selectionDigest: Option<Text>, binding: Binding)
  {
    function RunRef(): Text { Digest(Obj(RUN_REF, [Str(runId)])) }
  }

  /** The persisted binding of the attempt. */
  datatype Binding = Binding(
    runRef: Text, profileRef: Text, profileVersionRef: Text, profileConfigurationDigest: Text, contextDigest: Text,
    promptDigest: Text, intentDigest: Text, number: int, outputSchemaDigest: Text, approvalsDigest: Text,
    repositoryRef: Text, overridesDigest: Text, definitionDigest: Text, timeout: real, workspaceRef: Text,
    selectionDigest: Text)

  /** The event row around a payload; `identified` says that its identifier is the digest of
      its own content. */
  datatype Row = Row(sequence: Option<nat>, occurredAt: Option<real>, identified: bool)

  /** The event was recorded, under the identifier its content calls for, no earlier than `at`. */
  predicate InPlace(row: Row, at: real) {
    row.sequence.Some? && row.identified && row.occurredAt.Some? && at <= row.occurredAt.value
  }

  function When(b: bool, issue: Word): set<Word> { if b then {issue} else {} }

  // ---- The decision.

  predicate BindingMatches(f: Facts, w: Payload) {
    && f.bindingDigest.Some? && f.selectionDigest.Some?
    && w.runRef == f.RunRef() == f.binding.runRef && w.profileRef == f.binding.profileRef
    && Some(w.bindingDigest) == f.bindingDigest && Some(w.selectionDigest) == f.selectionDigest
    && w.profileVersionRef == f.binding.profileVersionRef
    && w.profileConfigurationDigest == f.binding.profileConfigurationDigest
    && w.contextDigest == f.binding.contextDigest && w.promptDigest == f.binding.promptDigest
    && w.taskIntentDigest == f.binding.intentDigest
    && f.permissionClass == Some(w.requestedClass) && w.requestedClass in {0, 1}
    && w.ownMockRunner == f.selectedMock && w.legacyExecutable
    && IsDigest(w.approverRef) && IsDigest(w.admissionIntentDigest)
  }

  /** `_is_exact_task_admission_failure` */
  predicate ExactFailure(w: Payload) {
    && w.failureStage == Some("request_or_evaluation")
    && w.request == Null && w.requestDigest == None && w.policy == Null && w.policyDigest == None
    && w.decision == Null && w.decisionDigest == None && w.effect == "indeterminate" && w.derived == None
    && !w.current && !w.ceilingSatisfied && !w.obligationsSupported && !w.eligible
    && w.blocks == ["authorization_evaluation_failed"]
  }

  function ExpectedParameters(f: Facts, w: Payload): Json
    requires f.bindingDigest.Some? && f.selectionDigest.Some? && f.permissionClass.Some?
  {
    var b := f.binding;
    Obj(PARAMETERS, [
      Str(w.admissionIntentDigest), Num(b.number as real), Str(b.contextDigest), Bool(w.ownMockRunner),
      Str(f.selectionDigest.value), Num(f.permissionClass.value as real), Str(b.outputSchemaDigest),
      Str(b.approvalsDigest), Str(b.profileConfigurationDigest), Str(b.profileRef), Str(b.profileVersionRef),
      Str(b.promptDigest), Str(b.repositoryRef), Str(Digest(Obj(RUN_DIRECTORY_REF, [Str(f.runDirectory)]))),
      Str(f.RunRef()), Str(b.overridesDigest), Str(f.bindingDigest.value), Str(b.intentDigest), Str(b.definitionDigest),
      Num(b.timeout), Str(b.workspaceRef)])
  }

  /** `_inspect_task_admission_request_projection`, but for the evidence. */
  predicate RequestProjects(f: Facts, w: Payload, r: Request) {
    && f.bindingDigest.Some? && f.selectionDigest.Some? && f.permissionClass.Some?
    && r.id == Prefixed(SCOPE + ":", f.RunRef())
    && r.subject == Subject(Lit("agent:task-attempt"), Lit("ordomata:local-controller"), "implementer", Lit("1"),
                            f.binding.profileRef, Lit("mock"), Some(Prefixed("attempt:", f.RunRef())))
    && r.action == Action("create", OPERATION, Digest(ExpectedParameters(f, w)), EFFECT, None, [])
    && r.resource.resourceType == RESOURCE_TYPE
    && r.resource.identifier == Identifier(f.selectionDigest.value, f.RunRef(), f.bindingDigest.value, f.binding.workspaceRef)
    && r.resource.version == f.binding.definitionDigest && r.resource.owner == Lit("operator:local")
    && r.resource.trustBoundary == BOUNDARY && r.resource.repositoryId == Some(f.binding.repositoryRef)
    && r.resource.contentDigest == Some(f.binding.contextDigest)
    && r.environment == AdmissionEnvironment(r.environment.evaluatedAt)
    && w.admissionIntentDigest == Digest(
         Intent("create", OPERATION, EFFECT, RESOURCE_TYPE, BOUNDARY, r.resource.guarded, r.resource.sensitivity,
                r.consequences).ToJson())
    && f.selectedMock
  }

  predicate EvidenceProjects(r: Request) { EvidenceBound(SCOPE, r) }

  /** `_inspect_task_admission_policy_projection` */
  predicate PolicyProjects(p: Policy, w: Payload) {
    p.ToJson() == AdmissionPolicy(w.preRunApprovalRequired && IsDigest(w.approverRef), w.approverRef).ToJson()
  }

  function Entry(j: Json, i: nat): Json {
    if j.Obj? && j.shape == DECISION && i < |j.values| then j.values[i] else Null
  }
  function Moment(j: Json): Option<real> { if j.Num? && j.n >= 0.0 then Some(j.n) else None }

  function PairOf(j: Json): Option<(Word, Text)> {
    if IsObject(j, OBLIGATION, 2) && IsWord(j.values[0]) && j.values[1].Str? then Some((j.values[0].t.s, j.values[1].t))
    else None
  }

  /** `_mock_dispatch_obligations_supported` */
  predicate ListSupported(effect: Word, obligations: Json) {
    effect == "permit" ==>
      && obligations.Arr? && |obligations.items| == 2
      && (forall j | j in obligations.items :: PairOf(j).Some?)
      && (set j | j in obligations.items && PairOf(j).Some? :: PairOf(j).value) == FIXED_OBLIGATIONS
  }

  /** The recomputed part of the payload. */
  predicate Projects(f: Facts, w: Payload, r: Option<Request>, p: Option<Policy>) {
    var issuedAt, expiresAt := Moment(Entry(w.decision, 4)), Moment(Entry(w.decision, 3));
    var derived := ReadClass(Entry(w.decision, 0));
    var current := issuedAt.Some? && expiresAt.Some? && issuedAt.value <= w.evaluatedAt < expiresAt.value;
    var ceiling := derived.Some? && derived.value <= 1 && f.permissionClass == Some(1);
    var supported := ListSupported(w.effect, Entry(w.decision, 6));
    var matches :=
      && r.Some? && p.Some? && Entry(w.decision, 13) == Str(r.value.id)
      && Entry(w.decision, 12) == Str(r.value.Digest()) && Entry(w.decision, 7) == Str(p.value.bundleId)
      && Entry(w.decision, 9) == Str(p.value.version) && Entry(w.decision, 8) == Str(p.value.Digest())
      && issuedAt == Some(w.evaluatedAt);
    var blocks := Blocks(w.ownMockRunner, if f.permissionClass == Some(1) then 1 else 0, w.legacyExecutable,
                         w.preRunApprovalRequired, matches, w.effect == "permit", current, ceiling, supported);
    && Plain(w.effect) == Entry(w.decision, 1) && w.derived == derived && w.current == current
    && w.ceilingSatisfied == ceiling && w.obligationsSupported == supported && w.eligible == (blocks == [])
    && w.blocks == blocks && issuedAt == Some(w.evaluatedAt)
  }

  /** The checks that need the persisted documents. */
  function EvaluationIssues(f: Facts, w: Payload): set<Word> {
    hide ReadRequest, ReadPolicy, RequestProjects, EvidenceProjects, PolicyProjects, Evaluate, Decision.ToJson, Projects;
    var r, p := ReadRequest(w.request), ReadPolicy(w.policy);
    When(w.requestDigest != Some(Digest(w.request)), "task_admission_request_digest_mismatch")
    + When(w.policyDigest != Some(Digest(w.policy)), "task_admission_policy_digest_mismatch")
    + When(w.decisionDigest != Some(Digest(w.decision)), "task_admission_decision_digest_mismatch")
    + When(r == None, "task_admission_request_invalid")
    + When(p == None, "task_admission_policy_invalid")
    + When(r.Some? && !RequestProjects(f, w, r.value), "task_admission_request_binding_mismatch")
    + When(r.Some? && !EvidenceProjects(r.value), "task_admission_evidence_invalid")
    + When(p.Some? && !PolicyProjects(p.value, w), "task_admission_policy_mismatch")
    + When(r.Some? && p.Some? && w.decision != Evaluate(r.value, p.value).ToJson(),
           "task_admission_authorization_reevaluation_mismatch")
    + When(!Projects(f, w, r, p), "task_admission_decision_projection_mismatch")
  }

  /** `_inspect_task_admission_decision`, for the one decision event of a run. */
  function DecisionIssues(f: Facts, row: Row, w: Payload): set<Word> {
    hide BindingMatches, ExactFailure, EvaluationIssues;
    When(row.sequence == None, "task_admission_decision_sequence_invalid")
    + When(row.occurredAt == None || row.occurredAt.value < w.evaluatedAt || w.evaluatedAt < 0.0,
           "task_admission_decision_timestamp_invalid")
    + When(!row.identified, "task_admission_decision_event_identifier_mismatch")
    + When(!BindingMatches(f, w), "task_admission_decision_binding_mismatch")
    + When(w.effect !in EFFECTS, "task_admission_decision_projection_invalid")
    + if w.failureStage.Some? then When(!ExactFailure(w), "task_admission_decision_failure_invalid")
      else EvaluationIssues(f, w)
  }

  // ---- Gate and inspector agree.

  /** The run's records describe the attempt the gate was asked about. */
  predicate Consistent(f: Facts, x: Attempt) {
    && f.runId == x.runId && f.runDirectory == x.runDirectory && f.permissionClass == Some(x.requestClass)
    && f.selectedMock && f.bindingDigest == Some(x.bindingDigest) && f.selectionDigest == Some(x.selectionDigest)
    && f.binding == Binding(
         x.RunRef(), x.ProfileRef(), x.profileVersionRef, x.profileConfigurationDigest, x.contextDigest, x.promptDigest,
         Digest(x.intent.ToJson()), x.number, Digest(x.outputSchema), x.ApprovalsDigest(), x.RepositoryRef(),
         Digest(x.overrides), x.definitionHash, x.timeout, x.WorkspaceRef(), x.selectionDigest)
  }

  lemma GatePartsValid(x: Attempt, now: real)
    requires x.Accepted(now) && x.Typed()
    ensures PartsValid(BareRequest(x, now))
  {
    hide Parameters, Identifier;
    assert IsDigest(Identifier(x.selectionDigest, x.RunRef(), x.bindingDigest, x.WorkspaceRef())) by {
      IdentifierIsDigest(x.selectionDigest, x.RunRef(), x.bindingDigest, x.WorkspaceRef());
    }
  }

  lemma IdentifierIsDigest(selectionDigest: Text, runRef: Text, bindingDigest: Text, workspaceRef: Text)
    ensures IsDigest(Identifier(selectionDigest, runRef, bindingDigest, workspaceRef))
  {
  }

  lemma GateReadable(x: Attempt, now: real)
    requires x.Accepted(now) && x.Typed()
    ensures Readable(AdmissionRequest(x, now))
  {
    hide BareRequest, Proposed, Readable;
    GatePartsValid(x, now);
    ProposedReadable(SCOPE, BareRequest(x, now));
  }

  lemma AdmissionRequirementsValid(required: bool, approverRef: Text)
    requires IsDigest(approverRef)
    ensures
      var p := AdmissionPolicy(required, approverRef);
      && (forall q | q in p.evidenceRequirements :: q.Valid()) && Distinct(AttributesOf(p.evidenceRequirements))
      && (forall q | q in p.approvalRequirements :: q.Valid()) && Distinct(RequirementIdsOf(p.approvalRequirements))
  {
    var p := AdmissionPolicy(required, approverRef);
    assert AttributesOf(p.evidenceRequirements) == ["subject", "action", "resource", "environment", "consequences"];
  }

  lemma GatePolicyValid(required: bool, approverRef: Text)
    requires IsDigest(approverRef)
    ensures AdmissionPolicy(required, approverRef).Valid()
  {
    hide EvidenceRequirement.Valid, ApprovalRequirement.Valid, AttributesOf, RequirementIdsOf;
    AdmissionRequirementsValid(required, approverRef);
  }

  lemma GateApplicable(x: Attempt, now: real)
    ensures |Applicable(AdmissionRequest(x, now), AdmissionPolicy(x.requiredBeforeRun, x.ApproverRef()),
                        ClassOf(AdmissionRequest(x, now)))| <= 1
  {
    hide AdmissionRequest;
  }

  lemma DocumentsBack(x: Attempt, now: real, r: Request, p: Policy)
    requires x.Accepted(now) && x.Typed()
    requires r == AdmissionRequest(x, now) && p == AdmissionPolicy(x.requiredBeforeRun, x.ApproverRef())
    ensures ReadRequest(r.ToJson()) == Some(NormalRequest(r)) && NormalRequest(r).ToJson() == r.ToJson()
    ensures ReadPolicy(p.ToJson()) == Some(NormalPolicy(p)) && NormalPolicy(p).ToJson() == p.ToJson()
    ensures Evaluate(NormalRequest(r), NormalPolicy(p)) == Evaluate(r, p)
  {
    hide AdmissionRequest, AdmissionPolicy, Evaluate, Request.ToJson, Policy.ToJson, ReadRequest, ReadPolicy, Readable,
         Policy.Valid, Validate, Applicable, NormalRequest, NormalPolicy, Derive;
    GateReadable(x, now);
    GatePolicyValid(x.requiredBeforeRun, x.ApproverRef());
    GateValidates(x, now);
    GateApplicable(x, now);
    RequestRoundTrip(r);
    PolicyRoundTrip(p);
    Reevaluation(r, p);
  }

  lemma GateProjectsRequest(x: Attempt, now: real, f: Facts, w: Payload)
    requires x.Accepted(now) && x.Typed() && x.ownMockRunner && x.legacyExecutable && Consistent(f, x)
    requires w == ToPayload(AuthorizationOf(x, now))
    ensures BindingMatches(f, w) && RequestProjects(f, w, BareRequest(x, now))
  {
    hide Identifier, Bind, Intent.ToJson, AdmissionPolicy, Evaluate, Blocks, DecisionMatches, ObligationsSupported,
         Decision.ToJson, Decision.Digest, Request.ToJson, Policy.ToJson;
    assert ExpectedParameters(f, w) == Parameters(x);
  }

  /** The projection does not look at the evidence. */
  lemma ProjectionIgnoresEvidence(f: Facts, w: Payload, r: Request, evidence: seq<Evidence>)
    requires RequestProjects(f, w, r)
    ensures RequestProjects(f, w, r.(evidence := evidence))
  {
    hide ExpectedParameters, Identifier, Intent.ToJson;
  }

  lemma RequestIsBareWithEvidence(x: Attempt, now: real)
    ensures
      var r := AdmissionRequest(x, now);
      NormalRequest(r) == BareRequest(x, now).(evidence := NormalRequest(r).evidence) && NormalRequest(r).id == r.id
  {
    hide BareRequest, Bind, SortBy;
  }

  lemma GateProjectsEvidence(x: Attempt, now: real)
    ensures EvidenceProjects(NormalRequest(AdmissionRequest(x, now)))
  {
    hide BareRequest, Proposed, EvidenceBound, NormalRequest;
    ProposedReadsBack(SCOPE, BareRequest(x, now));
  }

  // ---- The decision projects.

  lemma ObligationItems(obligations: seq<Obligation>)
    ensures
      var j, sorted := ObligationList(obligations), SortBy(obligations, ObligationKey);
      j.Arr? && |j.items| == |sorted| == |obligations| && multiset(sorted) == multiset(obligations)
      && forall i | 0 <= i < |sorted| :: PairOf(j.items[i]) == Some((sorted[i].kind, sorted[i].value))
  {
    hide SortBy, ObligationKey;
  }

  lemma SortedPairs(obligations: seq<Obligation>)
    ensures
      var j := ObligationList(obligations);
      && j.Arr? && |j.items| == |obligations| && (forall i | i in j.items :: PairOf(i).Some?)
      && (set i | i in j.items && PairOf(i).Some? :: PairOf(i).value) == set o | o in obligations :: (o.kind, o.value)
  {
    hide ObligationKey, SortBy, ObligationList, PairOf;
    ObligationItems(obligations);
    var sorted, items := SortBy(obligations, ObligationKey), ObligationList(obligations).items;
    Reordered(sorted, obligations);
    forall o | o in obligations ensures exists i :: i in items && PairOf(i) == Some((o.kind, o.value)) {
      var k :| 0 <= k < |sorted| && sorted[k] == o;
      assert items[k] in items;
    }
    forall i | i in items ensures exists o :: o in obligations && PairOf(i) == Some((o.kind, o.value)) {
      var k :| 0 <= k < |items| && items[k] == i;
      assert sorted[k] in sorted;
    }
  }

  /** The two spellings of the obligation check agree. */
  lemma SupportAgrees(d: Decision)
    ensures ListSupported(d.effect, ObligationList(d.obligations)) <==> ObligationsSupported(d)
  {
    hide ObligationList, PairOf;
    SortedPairs(d.obligations);
  }

  lemma DecisionEntries(d: Decision)
    ensures
      var j := d.ToJson();
      && Entry(j, 0) == Num(d.derived as real) && Entry(j, 1) == Plain(d.effect) && Entry(j, 3) == Num(d.expiresAt)
      && Entry(j, 4) == Num(d.issuedAt) && Entry(j, 6) == ObligationList(d.obligations) && Entry(j, 7) == Str(d.bundleId)
      && Entry(j, 8) == Str(d.policyDigest) && Entry(j, 9) == Str(d.policyVersion) && Entry(j, 12) == Str(d.requestDigest)
      && Entry(j, 13) == Str(d.requestId)
  {
    hide ObligationList, SortBy, TextList, WordList;
  }

  /** The class ceilings of gate and inspector are written differently.  They differ in one
      case only, a read-only action asked for as read-only, which an admission never is. */
  lemma CeilingsAgree(derived: Class, requested: Class)
    requires 0 <= derived <= 3 && requested in {0, 1}
    ensures ((derived <= requested && derived <= 1) == (derived <= 1 && requested == 1)) <==> derived + requested > 0
  {
  }

  /** A payload that restates its decision, with the blocks the facts call for, projects. */
  lemma RestatedDecisionProjects(f: Facts, w: Payload, r: Request, p: Policy, d: Decision)
    requires w.decision == d.ToJson() && w.effect == d.effect && w.derived == Some(d.derived) && 0 <= d.derived <= 3
    requires w.evaluatedAt == d.issuedAt && 0.0 <= d.issuedAt < d.expiresAt && w.current
    requires d.requestId == r.id && d.requestDigest == r.Digest() && d.bundleId == p.bundleId
    requires d.policyVersion == p.version && d.policyDigest == p.Digest()
    requires w.ceilingSatisfied == (d.derived <= 1 && f.permissionClass == Some(1))
    requires w.obligationsSupported == ObligationsSupported(d)
    requires w.blocks == Blocks(w.ownMockRunner, if f.permissionClass == Some(1) then 1 else 0, w.legacyExecutable,
                                w.preRunApprovalRequired, true, d.effect == "permit", true, w.ceilingSatisfied,
                                w.obligationsSupported)
    requires w.eligible == (w.blocks == [])
    ensures Projects(f, w, Some(r), Some(p))
  {
    hide Decision.ToJson, Entry, ListSupported, ObligationsSupported, Blocks, ObligationList, Request.Digest, Policy.Digest;
    DecisionEntries(d);
    SupportAgrees(d);
    ClassReads(d.derived);
  }

  lemma GateProjectsDecision(x: Attempt, now: real, f: Facts, w: Payload, r: Request, p: Policy)
    requires x.Accepted(now) && Consistent(f, x) && w == ToPayload(AuthorizationOf(x, now))
    requires r.id == AdmissionRequest(x, now).id && r.ToJson() == AdmissionRequest(x, now).ToJson()
    requires p.ToJson() == AdmissionPolicy(x.requiredBeforeRun, x.ApproverRef()).ToJson()
    requires p.bundleId == POLICY_ID && p.version == POLICY_VERSION
    ensures Projects(f, w, Some(r), Some(p)) && w.effect in EFFECTS
  {
    hide AdmissionRequest, AdmissionPolicy, Evaluate, Derive, Request.ToJson, Policy.ToJson, Decision.ToJson, Projects,
         ObligationsSupported, Blocks;
    var a := AuthorizationOf(x, now);
    GateDecision(x, now);
    CeilingsAgree(a.decision.derived, x.requestClass);
    DecisionBinds(a.request, a.policy);
    AttributeIgnoresEvidence(x, now, "subject");
    AdmissionPolicyNames(x.requiredBeforeRun, x.ApproverRef());
    RestatedDecisionProjects(f, w, r, p, a.decision);
  }

  lemma ClassReads(c: Class)
    requires 0 <= c <= 3
    ensures ReadClass(Num(c as real)) == Some(c)
  {
  }

  lemma AdmissionPolicyNames(required: bool, approverRef: Text)
    ensures AdmissionPolicy(required, approverRef).bundleId == POLICY_ID
    ensures AdmissionPolicy(required, approverRef).version == POLICY_VERSION
  {
  }

  lemma EvaluationClears(x: Attempt, now: real, f: Facts)
    requires x.Accepted(now) && x.Typed() && x.ownMockRunner && x.legacyExecutable && Consistent(f, x)
    ensures EvaluationIssues(f, ToPayload(AuthorizationOf(x, now))) == {}
    ensures BindingMatches(f, ToPayload(AuthorizationOf(x, now))) && ToPayload(AuthorizationOf(x, now)).effect in EFFECTS
  {
    hide AdmissionRequest, AdmissionPolicy, BareRequest, Evaluate, Derive, Request.ToJson, Policy.ToJson, Decision.ToJson,
         Blocks, ObligationsSupported, DecisionMatches, ReadRequest, ReadPolicy, BindingMatches, RequestProjects,
         EvidenceProjects, Projects, Consistent, NormalPolicy, NormalRequest;
    var a := AuthorizationOf(x, now);
    var w, r, p := ToPayload(a), a.request, a.policy;
    DocumentsBack(x, now, r, p);
    GateProjectsRequest(x, now, f, w);
    ProjectionIgnoresEvidence(f, w, BareRequest(x, now), NormalRequest(r).evidence);
    RequestIsBareWithEvidence(x, now);
    GateProjectsEvidence(x, now);
    AdmissionPolicyNames(x.requiredBeforeRun, x.ApproverRef());
    NormalPolicyNames(p);
    GateProjectsDecision(x, now, f, w, NormalRequest(r), NormalPolicy(p));
  }

  lemma PayloadMoment(x: Attempt, now: real)
    ensures ToPayload(AuthorizationOf(x, now)).evaluatedAt == now
  {
    hide AdmissionPolicy, Evaluate, Blocks, ObligationsSupported, DecisionMatches, Request.ToJson, Policy.ToJson,
         Decision.ToJson, AdmissionRequest;
    AttributeIgnoresEvidence(x, now, "subject");
  }

  /** Agreement: whatever the gate decides about an attempt that the run's records describe, the
      inspector finds nothing wrong with the persisted decision. */
  lemma DecisionAgreement(x: Attempt, now: real, f: Facts, row: Row)
    requires x.Accepted(now) && x.Typed() && x.ownMockRunner && x.legacyExecutable && Consistent(f, x) && InPlace(row, now)
    ensures DecisionIssues(f, row, ToPayload(AuthorizationOf(x, now))) == {}
  {
    hide AuthorizationOf, EvaluationIssues, BindingMatches, Consistent, Attempt.Typed, Request.ToJson, Policy.ToJson,
         Decision.ToJson;
    EvaluationClears(x, now, f);
    PayloadMoment(x, now);
    PayloadOfDecision(AuthorizationOf(x, now));
  }

  lemma PayloadOfDecision(a: Authorized)
    ensures ToPayload(a).failureStage == None
  {
  }

  lemma NormalPolicyNames(p: Policy)
    ensures NormalPolicy(p).bundleId == p.bundleId && NormalPolicy(p).version == p.version
  {
  }

  // ---- What a clean decision means.

  /** The persisted decision is the evaluator's own result for the persisted documents. */
  predicate Reevaluates(request: Json, policy: Json, decision: Json) {
    hide ReadRequest, ReadPolicy, Evaluate, Decision.ToJson;
    && ReadRequest(request).Some? && ReadPolicy(policy).Some?
    && decision == Evaluate(ReadRequest(request).value, ReadPolicy(policy).value).ToJson()
  }

  /** Everything that the inspector recomputes of a payload is as it should be. */
  ghost predicate Checked(f: Facts, w: Payload) {
    hide ReadRequest, ReadPolicy, BindingMatches, RequestProjects, EvidenceProjects, PolicyProjects, Projects, Evaluate,
         Decision.ToJson;
    var r, p := ReadRequest(w.request), ReadPolicy(w.policy);
    && BindingMatches(f, w) && Reevaluates(w.request, w.policy, w.decision) && r.Some? && p.Some?
    && RequestProjects(f, w, r.value) && EvidenceProjects(r.value) && PolicyProjects(p.value, w) && Projects(f, w, r, p)
    && w.requestDigest == Some(Digest(w.request)) && w.decisionDigest == Some(Digest(w.decision))
  }

  lemma CleanParts(f: Facts, row: Row, w: Payload)
    requires DecisionIssues(f, row, w) == {} && w.failureStage == None
    ensures Checked(f, w)
  {
    hide ReadRequest, ReadPolicy, BindingMatches, RequestProjects, EvidenceProjects, PolicyProjects, Projects, Evaluate,
         Decision.ToJson;
  }

  lemma ReadsValid(request: Json, policy: Json, decision: Json, r: Request, p: Policy)
    requires Reevaluates(request, policy, decision) && ReadRequest(request) == Some(r) && ReadPolicy(policy) == Some(p)
    ensures r.environment.evaluatedAt >= 0.0 && p.ttl > 0.0 && p.Valid() && r.ToJson() == request && p.ToJson() == policy
  {
    hide Request.ToJson, Policy.ToJson, Evaluate, Decision.ToJson, AssembleRequest, AssemblePolicy;
  }

  /** A clean decision equals the evaluator's result, with exactly the recomputed block reasons,
      under exactly the fixed policy. */
  lemma CleanDecision(f: Facts, row: Row, w: Payload, r: Request, p: Policy, d: Decision)
    requires DecisionIssues(f, row, w) == {} && w.failureStage == None
    requires ReadRequest(w.request) == Some(r) && ReadPolicy(w.policy) == Some(p) && d == Evaluate(r, p)
    ensures w.decision == d.ToJson() && w.effect == d.effect && w.derived == Some(d.derived)
    ensures w.evaluatedAt == d.issuedAt < d.expiresAt && w.current
    ensures w.ceilingSatisfied == (d.derived == 1 && f.permissionClass == Some(1))
    ensures w.obligationsSupported == ObligationsSupported(d)
    ensures
      && w.eligible == (w.blocks == [])
      && w.blocks == Blocks(w.ownMockRunner, if f.permissionClass == Some(1) then 1 else 0, w.legacyExecutable,
                            w.preRunApprovalRequired, true, d.effect == "permit", true, w.ceilingSatisfied,
                            w.obligationsSupported)
  {
    hide Evaluate, Request.ToJson, Policy.ToJson, Decision.ToJson, ReadRequest, ReadPolicy, BindingMatches, PolicyProjects,
         EvidenceProjects, Entry, ListSupported, ObligationsSupported, Blocks, ObligationList, DecisionIssues, Derive,
         ExpectedParameters, Identifier, Intent.ToJson;
    CleanParts(f, row, w);
    ReadsValid(w.request, w.policy, w.decision, r, p);
    DecisionEntries(d);
    DecisionBinds(r, p);
    ExpiryFollowsIssue(r, p);
    SupportAgrees(d);
    CreateIsNotReadOnly(r.action, r.resource, r.consequences);
    ClassReads(d.derived);
  }

  /** No clean decision is eligible unless the evaluator permits the persisted request under the
      fixed policy, for a Class 1 attempt of the controller's own mock runner that needs no
      approval before it runs. */
  lemma EligibleDecision(f: Facts, row: Row, w: Payload, r: Request, p: Policy)
    requires DecisionIssues(f, row, w) == {} && w.failureStage == None && w.eligible
    requires ReadRequest(w.request) == Some(r) && ReadPolicy(w.policy) == Some(p)
    ensures Evaluate(r, p).effect == "permit" && ClassOf(r) == 1
    ensures f.permissionClass == Some(1) && f.selectedMock && !w.preRunApprovalRequired
    ensures p.ToJson() == AdmissionPolicy(false, w.approverRef).ToJson()
    ensures Owed(Evaluate(r, p)) == FIXED_OBLIGATIONS
  {
    hide Evaluate, Request.ToJson, Policy.ToJson, Decision.ToJson, ReadRequest, ReadPolicy, RequestProjects,
         EvidenceProjects, Projects, Blocks, DecisionIssues, Derive, AdmissionPolicy;
    CleanParts(f, row, w);
    CleanDecision(f, row, w, r, p, Evaluate(r, p));
    NoBlocks(w.ownMockRunner, if f.permissionClass == Some(1) then 1 else 0, w.legacyExecutable, w.preRunApprovalRequired,
             true, w.effect == "permit", true, w.ceilingSatisfied, w.obligationsSupported);
    DecisionBinds(r, p);
  }

  // ---- The receipt.

  function RequestPart(request: Json, i: nat): Json {
    if request.Obj? && i < |request.values| then request.values[i] else Null
  }

  function ResultPair(o: ObligationResult): Option<(Word, Text)> { Some((o.kind, o.value)) }
  function OwedPair(o: Obligation): Option<(Word, Text)> { Some((o.kind, o.value)) }

  /** `_mock_dispatch_receipt_obligations_match`: the results are the obligations, each once and
      satisfied. */
  predicate ResultsMatch(obligations: Json, results: seq<ObligationResult>) {
    && obligations.Arr? && (forall j | j in obligations.items :: PairOf(j).Some?)
    && (forall o | o in results :: o.satisfied)
    && Distinct(Map(results, ResultPair))
    && multiset(Map(results, ResultPair)) == multiset(Map(obligations.items, PairOf))
  }

  predicate ReceiptBinds(f: Facts, w: Payload, rp: ReceiptPayload) {
    && f.bindingDigest.Some? && f.selectionDigest.Some?
    && rp.runRef == f.RunRef() && rp.profileRef == f.binding.profileRef
    && Some(rp.bindingDigest) == f.bindingDigest && Some(rp.selectionDigest) == f.selectionDigest
    && Some(rp.requestDigest) == w.requestDigest && Some(rp.decisionDigest) == w.decisionDigest
    && rp.resultDigest == AdmissionResult(f.selectionDigest.value, f.RunRef(), f.bindingDigest.value)
    && rp.receipt.requestDigest == rp.requestDigest && rp.receipt.decisionDigest == rp.decisionDigest
    && rp.receipt.resultDigest == Some(rp.resultDigest)
  }

  predicate ReceiptNamed(f: Facts, w: Payload, receipt: Receipt) {
    && w.decisionDigest.Some? && w.requestDigest.Some? && f.selectionDigest.Some? && f.bindingDigest.Some?
    && receipt.receiptId == ReceiptId(w.decisionDigest.value, f.selectionDigest.value, w.requestDigest.value,
                                      f.bindingDigest.value)
  }

  /** The permit was current when the action started. */
  predicate PermitHeld(effect: Word, eligible: bool, decision: Json, startedAt: real) {
    var issuedAt, expiresAt := Moment(Entry(decision, 4)), Moment(Entry(decision, 3));
    effect == "permit" && eligible && issuedAt.Some? && expiresAt.Some? && issuedAt.value <= startedAt < expiresAt.value
  }

  /** `_inspect_task_admission_receipt`, for the one receipt event of a run; `row.identified`
      says that the event carries the receipt's identifier. */
  function ReceiptIssues(f: Facts, w: Payload, row: Row, rp: ReceiptPayload): set<Word> {
    var receipt := rp.receipt;
    When(row.sequence == None, "task_admission_receipt_sequence_invalid")
    + When(!ReceiptBinds(f, w, rp), "task_admission_receipt_binding_mismatch")
    + When(rp.receiptDigest != Digest(receipt.ToJson()), "task_admission_receipt_digest_mismatch")
    + When(!row.identified || !ReceiptNamed(f, w, receipt), "task_admission_receipt_event_identifier_mismatch")
    + When(receipt.executorId != EXECUTOR, "task_admission_receipt_executor_mismatch")
    + When(receipt.enforcedActionDigest != Digest(Obj(ENFORCED, [RequestPart(w.request, 0), RequestPart(w.request, 5)])),
           "task_admission_receipt_action_mismatch")
    + When(!ResultsMatch(Entry(w.decision, 6), receipt.results), "task_admission_receipt_obligation_mismatch")
    + When(receipt.outcome != "succeeded", "task_admission_receipt_outcome_invalid")
    + When(receipt.startedAt < 0.0 || receipt.completedAt < receipt.startedAt
           || row.occurredAt == None || row.occurredAt.value < receipt.completedAt, "task_admission_receipt_timestamp_invalid")
    + When(!PermitHeld(w.effect, w.eligible, w.decision, receipt.startedAt), "task_admission_receipt_permit_not_current")
  }

  lemma RequestParts(r: Request)
    ensures RequestPart(r.ToJson(), 0) == r.action.ToJson() && RequestPart(r.ToJson(), 5) == r.resource.ToJson()
  {
    hide Subject.ToJson, Action.ToJson, Resource.ToJson, Environment.ToJson, Consequences.ToJson, EvidenceList;
  }

  lemma OwedPairs(obligations: seq<Obligation>)
    ensures
      var j := ObligationList(obligations);
      && j.Arr? && (forall i | i in j.items :: PairOf(i).Some?)
      && multiset(Map(j.items, PairOf)) == multiset(Map(obligations, OwedPair))
  {
    hide ObligationKey;
    var items, sorted := ObligationList(obligations).items, SortBy(obligations, ObligationKey);
    SortedPairs(obligations);
    forall i | 0 <= i < |items| ensures PairOf(items[i]) == OwedPair(sorted[i]) {}
    assert Map(items, PairOf) == Map(sorted, OwedPair);
    MapReordered(sorted, obligations, OwedPair);
  }

  function ReportedAs(pair: Option<(Word, Text)>): ObligationResult {
    if pair.Some? then ObligationResult(pair.value.0, pair.value.1, true) else ObligationResult("", Lit(""), true)
  }

  /** The results pass the check exactly when every obligation is reported as satisfied, once, in
      any order. */
  lemma ResultsExactly(d: Decision, results: seq<ObligationResult>)
    requires Distinct(Map(d.obligations, OwedPair))
    ensures ResultsMatch(ObligationList(d.obligations), results) <==> Satisfies(results, d)
  {
    hide ObligationList, PairOf;
    var owed := Map(d.obligations, Fulfilled);
    OwedPairs(d.obligations);
    assert Map(owed, ResultPair) == Map(d.obligations, OwedPair);
    assert Map(Map(owed, ResultPair), ReportedAs) == owed;
    if Satisfies(results, d) {
      Reordered(results, owed);
      MapReordered(results, owed, ResultPair);
      DistinctReordered(Map(results, ResultPair), Map(owed, ResultPair));
    } else if ResultsMatch(ObligationList(d.obligations), results) {
      assert forall i | 0 <= i < |results| :: results[i] in results;
      assert Map(Map(results, ResultPair), ReportedAs) == results;
      MapReordered(Map(results, ResultPair), Map(owed, ResultPair), ReportedAs);
    }
  }

  lemma ResultsOfObligations(obligations: seq<Obligation>, results: seq<ObligationResult>)
    requires results == Map(obligations, Fulfilled)
    requires |obligations| == 2 && obligations[0].kind != obligations[1].kind
    ensures ResultsMatch(ObligationList(obligations), results)
  {
    hide ObligationList, PairOf;
    OwedPairs(obligations);
    assert Map(results, ResultPair) == Map(obligations, OwedPair);
  }

  lemma BuiltReceipt(a: Authorized, startedAt: real, completedAt: real, rp: ReceiptPayload)
    requires BuildReceipt(a, startedAt, completedAt) == Ok(rp)
    ensures rp.runRef == a.runRef && rp.profileRef == a.profileRef && rp.bindingDigest == a.bindingDigest
    ensures rp.selectionDigest == a.selectionDigest && rp.requestDigest == a.request.Digest()
    ensures rp.decisionDigest == a.decision.Digest() && rp.receiptDigest == Digest(rp.receipt.ToJson())
    ensures rp.resultDigest == AdmissionResult(a.selectionDigest, a.runRef, a.bindingDigest)
    ensures rp.receipt == Receipt(
              ReceiptId(a.decision.Digest(), a.selectionDigest, a.request.Digest(), a.bindingDigest),
              a.decision.Digest(), a.request.Digest(), Enforced(a.request), EXECUTOR, startedAt, completedAt, "succeeded",
              Map(a.decision.obligations, Fulfilled), Some(rp.resultDigest))
    ensures PermitCurrent(a, startedAt) && rp.receipt.Valid()
  {
    hide PermitCurrent, Receipt.ToJson, Decision.ToJson, Request.ToJson, AdmissionResult, ReceiptId, Enforced, Receipt.Valid;
  }

  lemma HeldByWindow(d: Decision, startedAt: real)
    requires 0.0 <= d.issuedAt < d.expiresAt
    ensures PermitHeld(d.effect, true, d.ToJson(), startedAt) <==>
      d.effect == "permit" && d.issuedAt <= startedAt < d.expiresAt
  {
    hide Decision.ToJson, Entry;
    DecisionEntries(d);
  }

  lemma BuiltReceiptBinds(x: Attempt, now: real, f: Facts, w: Payload, rp: ReceiptPayload, startedAt: real, completedAt: real)
    requires x.Accepted(now) && Consistent(f, x) && w == ToPayload(AuthorizationOf(x, now))
    requires BuildReceipt(AuthorizationOf(x, now), startedAt, completedAt) == Ok(rp)
    ensures ReceiptBinds(f, w, rp) && ReceiptNamed(f, w, rp.receipt)
  {
    hide AdmissionRequest, AdmissionPolicy, Evaluate, Request.ToJson, Policy.ToJson, Decision.ToJson, Receipt.ToJson,
         Blocks, ObligationsSupported, DecisionMatches, BuildReceipt, AdmissionResult, ReceiptId, PermitCurrent;
    BuiltReceipt(AuthorizationOf(x, now), startedAt, completedAt, rp);
  }

  /** Agreement: the receipt built for an authorized admission raises no issue either. */
  lemma ReceiptAgreement(
    x: Attempt, now: real, f: Facts, row: Row, startedAt: real, completedAt: real, rp: ReceiptPayload)
    requires x.Accepted(now) && x.Typed() && Consistent(f, x)
    requires BuildReceipt(AuthorizationOf(x, now), startedAt, completedAt) == Ok(rp)
    requires InPlace(row, completedAt)
    ensures ReceiptIssues(f, ToPayload(AuthorizationOf(x, now)), row, rp) == {}
  {
    hide AdmissionRequest, AdmissionPolicy, Evaluate, Derive, Request.ToJson, Policy.ToJson, Decision.ToJson, Receipt.ToJson,
         Blocks, ObligationsSupported, DecisionMatches, BuildReceipt, AdmissionResult, ReceiptId, ResultsMatch, Entry,
         ObligationList, RequestPart, PermitCurrent, Action.ToJson, Resource.ToJson, ReceiptBinds, ReceiptNamed, PermitHeld,
         Consistent;
    var a := AuthorizationOf(x, now);
    BuiltReceipt(a, startedAt, completedAt, rp);
    BuiltReceiptBinds(x, now, f, ToPayload(a), rp, startedAt, completedAt);
    PermitCurrentExactly(x, now, startedAt);
    GateAuthorizesExactly(x, now);
    GateDecision(x, now);
    DecisionEntries(a.decision);
    RequestParts(a.request);
    PermitOwesTwo(a.request, a.policy);
    ResultsOfObligations(a.decision.obligations, rp.receipt.results);
    AttributeIgnoresEvidence(x, now, "subject");
    DecisionBinds(a.request, a.policy);
    HeldByWindow(a.decision, startedAt);
  }

  lemma CleanReceiptParts(f: Facts, w: Payload, row: Row, rp: ReceiptPayload)
    requires ReceiptIssues(f, w, row, rp) == {}
    ensures ReceiptBinds(f, w, rp) && PermitHeld(w.effect, w.eligible, w.decision, rp.receipt.startedAt)
    ensures rp.receipt.enforcedActionDigest == Digest(Obj(ENFORCED, [RequestPart(w.request, 0), RequestPart(w.request, 5)]))
  {
    hide ReceiptBinds, ReceiptNamed, PermitHeld, RequestPart, ResultsMatch, Receipt.ToJson, Entry;
  }

  /** A clean receipt means that the admission took effect inside the window of a permit the
      evaluator grants, with every trusted record then current. */
  lemma CleanReceipt(
    f: Facts, row: Row, w: Payload, receiptRow: Row, rp: ReceiptPayload, r: Request, p: Policy, q: EvidenceRequirement,
    e: Evidence)
    requires DecisionIssues(f, row, w) == {} && w.failureStage == None && ReceiptIssues(f, w, receiptRow, rp) == {}
    requires ReadRequest(w.request) == Some(r) && ReadPolicy(w.policy) == Some(p)
    requires q in p.evidenceRequirements && e in r.evidence && Trusts(q, e)
    ensures w.eligible && Evaluate(r, p).effect == "permit"
    ensures Evaluate(r, p).issuedAt <= rp.receipt.startedAt < Evaluate(r, p).expiresAt
    ensures e.authenticated && e.observedAt <= rp.receipt.startedAt < e.expiresAt
    ensures rp.receipt.requestDigest == r.Digest() && rp.receipt.enforcedActionDigest == Enforced(r)
  {
    hide Evaluate, Request.ToJson, Policy.ToJson, Decision.ToJson, ReadRequest, ReadPolicy, DecisionIssues, Trusts, Entry,
         Receipt.ToJson, ReceiptIssues, RequestPart, Action.ToJson, Resource.ToJson, PermitHeld, BindingMatches,
         RequestProjects, EvidenceProjects, PolicyProjects, Projects, AdmissionResult, Backed;
    var d := Evaluate(r, p);
    CleanReceiptParts(f, w, receiptRow, rp);
    CleanParts(f, row, w);
    CleanDecision(f, row, w, r, p, d);
    ReadsValid(w.request, w.policy, w.decision, r, p);
    RequestParts(r);
    DecisionBinds(r, p);
    HeldIsEligible(w.effect, w.eligible, w.decision, rp.receipt.startedAt);
    HeldByWindow(d, rp.receipt.startedAt);
    PermitWindow(r, p, q, e, rp.receipt.startedAt);
  }

  lemma HeldIsEligible(effect: Word, eligible: bool, decision: Json, startedAt: real)
    requires PermitHeld(effect, eligible, decision, startedAt)
    ensures eligible && effect == "permit"
  {
  }
}
