/** The publication boundary: the gate before a local candidate is created, and what the inspector
    recomputes of its decision. */
module PublicationBoundary {
  import opened Prelude
  import opened Canon
  import opened Sequences
  import opened Authorization
  import opened Evaluator
  import opened EvaluatorLaws
  import opened PermissionClasses
  import opened Receipts
  import opened CanonicalParsing
  import opened Proposals
  import opened Admission
  import opened AdmissionInspection
  import opened RunRecords
  import opened EnforcingDecisions
  import opened DispatchBoundary

  const PUBLICATION_SCOPE := "ordinary_profile_backed_mock_local_candidate_publication_only"
  const PUBLICATION_OPERATION := Lit("artifact.publish_local_candidate")
  const PUBLICATION_RESOURCE := Lit("local_candidate_artifact")
  const PUBLICATION_EFFECT := Lit("create_isolated_local_candidate")
  const PUBLICATION_FLOW := Lit("local_candidate_publication_proposed")
  const PUBLICATION_POLICY_ID := Lit("ordomata.phase-1c.mock-local-candidate-publication-enforcement")

  const PUBLICATION_PARAMETERS := 60
  const OLDER_PUBLICATION_PARAMETERS := 61
  const PUBLICATION_IDENTIFIER := 62
  const PRE_EFFECT := 63

  /** The announcement of the effect, as it is persisted before the file is created. */
  datatype PreEffect = PreEffect(
    shadowPersisted: bool, shadowRequest: Option<Text>, shadowDecision: Option<Text>, eventId: Text, requestDigest: Text,
    decisionDigest: Text, actionDigest: Text, bindingDigest: Text, requestedClass: Class, kind: Word, destination: Text,
    artifact: Text, size: int, metadata: Text, disposition: Text, accepted: bool, scanned: bool, startedAt: real,
    receiptDigest: Text)
  {
    /** The digest of everything but itself. */
    function OwnDigest(): (t: Text)
      ensures IsDigest(t)
    {
      Digest(Obj(PRE_EFFECT, [
        Str(actionDigest), Str(artifact), Plain(kind), Str(metadata), Num(size as real), Str(disposition), Bool(scanned),
        Str(destination), Bool(accepted), Str(eventId), Str(decisionDigest), Str(requestDigest), Optional(shadowDecision),
        Bool(shadowPersisted), Optional(shadowRequest), Num(requestedClass as real), Num(startedAt), Str(bindingDigest)]))
    }
  }

  // ---- The gate.

  /** What the gate is told. */
  datatype Candidate = Candidate(
    attempt: Attempt, source: Word, lineageDigest: Text, dispatchRequest: Text, dispatchDecision: Text,
    dispatchReceipt: Text, accounting: Text, disposition: Text, artifact: Text, destination: Text, metadata: Text,
    kind: Word, size: int, accepted: bool, scanned: bool, safe: bool)
  {
    /** `_validate_evaluation_inputs` and `_validated_task_authorization_intent_lineage` */
    predicate Accepted(evaluatedAt: real) {
      var x := attempt;
      && x.runnerId == MOCK && x.laidOut && Digest(x.outputSchema) == Digest(x.contractSchema) && x.requestClass in {0, 1}
      && IsDigest(x.bindingDigest) && IsDigest(x.selectionDigest) && IsDigest(dispatchRequest) && IsDigest(dispatchDecision)
      && IsDigest(dispatchReceipt) && IsDigest(accounting) && IsDigest(disposition) && IsDigest(artifact)
      && IsDigest(destination) && IsDigest(metadata) && IsIdentifier(kind) && size > 0 && evaluatedAt >= 0.0
      && lineageDigest == Lineage(source, x.definitionHash, x.requestClass, x.intent)
    }
  }

  /** `[a-z][a-z0-9_.-]{0,119}` */
  predicate IsIdentifier(w: Word) {
    && 0 < |w| <= 120 && 'a' <= w[0] <= 'z'
    && forall i | 0 < i < |w| :: 'a' <= w[i] <= 'z' || '0' <= w[i] <= '9' || w[i] in {'_', '.', '-'}
  }

  /** `_local_candidate_publication_intent`: the task's own sensitivity, and nothing beyond the
      one local file. */
  function PublicationIntent(i: Intent): Intent {
    Intent("create", PUBLICATION_OPERATION, PUBLICATION_EFFECT, PUBLICATION_RESOURCE, BOUNDARY, i.guarded, i.sensitivity,
           i.consequences.(reach := "local", destructive := false, reversible := true, blast := "single_resource"))
  }

  function PublicationParameters(x: Candidate): Json {
    var a := x.attempt;
    Obj(PUBLICATION_PARAMETERS, [
      Str(x.artifact), Plain(x.kind), Str(x.metadata), Num(x.size as real), Str(x.disposition), Bool(a.ownMockRunner),
      Bool(x.scanned), Str(x.destination), Str(x.dispatchReceipt), Str(x.dispatchDecision), Str(x.dispatchRequest),
      Bool(x.accepted), Str(x.accounting), Str(a.selectionDigest), Num(a.requestClass as real), Str(Digest(a.outputSchema)),
      Str(a.ProfileRef()), Str(Digest(PublicationIntent(a.intent).ToJson())), Str(a.RepositoryRef()), Str(a.RunRef()),
      Bool(x.safe), Str(a.bindingDigest), Str(Digest(a.intent.ToJson())), Str(x.lineageDigest), Str(a.definitionHash),
      Str(a.WorkspaceRef())])
  }

  function PublicationIdentifier(metadata: Text, destination: Text, runRef: Text): (t: Text)
    ensures IsDigest(t)
  {
    Digest(Obj(PUBLICATION_IDENTIFIER, [Str(metadata), Str(destination), Str(PUBLICATION_RESOURCE), Str(runRef)]))
  }

  function PublicationEnvironment(evaluatedAt: real): Environment {
    Environment(evaluatedAt, "verified", "disabled", "local_non_ai", "not_applicable", "not_applicable", "closed",
                PUBLICATION_FLOW, [])
  }

  /** The request before it carries evidence. */
  function BarePublication(x: Candidate, evaluatedAt: real): Request {
    var a, intent := x.attempt, PublicationIntent(x.attempt.intent);
    Request(
      Prefixed(PUBLICATION_SCOPE + ":", a.RunRef()), DispatchSubject(a.ProfileRef(), a.RunRef()),
      Action("create", PUBLICATION_OPERATION, Digest(PublicationParameters(x)), PUBLICATION_EFFECT, None, []),
      Resource(PUBLICATION_RESOURCE, PublicationIdentifier(x.metadata, x.destination, a.RunRef()), x.artifact,
               Lit("operator:local"), BOUNDARY, intent.guarded, intent.sensitivity, Some(a.RepositoryRef()),
               Some(x.artifact)),
      PublicationEnvironment(evaluatedAt), intent.consequences, [])
  }

  /** `_local_candidate_publication_policy` */
  function PublicationPolicy(): Policy {
    Policy(
      PUBLICATION_POLICY_ID, POLICY_VERSION, 0.0, StageEvidence(),
      [1], ["create"], ["implementer"], [PUBLICATION_OPERATION], [PUBLICATION_RESOURCE], [BOUNDARY], [PUBLICATION_FLOW],
      ["disabled"], ["local_non_ai"], [], 60.0)
  }

  function Unless(b: bool, reason: Word): seq<Word> { if b then [] else [reason] }

  /** The reasons that the inspector recomputes, and the two that it does not know. */
  function RecomputedBlocks(ownMockRunner: bool, legacyExecutable: bool, safe: bool): seq<Word> {
    Unless(ownMockRunner, "controller_owned_mock_runner_not_verified") + Legacy(legacyExecutable)
    + Unless(safe, "safe_publication_prerequisites_not_satisfied")
  }

  function PublicationBlocks(x: Candidate): seq<Word> {
    RecomputedBlocks(x.attempt.ownMockRunner, x.attempt.legacyExecutable, x.safe)
    + Unless(x.accepted, "evaluation_not_accepted") + Unless(x.scanned, "credential_scan_not_passed")
  }

  function PublicationWrapperOf(x: Candidate): Wrapper {
    var a := x.attempt;
    PublicationWrapper(
      a.bindingDigest, a.selectionDigest, Digest(a.intent.ToJson()), Digest(PublicationIntent(a.intent).ToJson()),
      Some(x.dispatchRequest), Some(x.dispatchDecision), Some(x.dispatchReceipt), Some(x.accounting), Some(x.disposition),
      x.artifact, x.destination, x.metadata, a.requestClass, a.ownMockRunner, a.legacyExecutable, x.safe, x.accepted,
      x.scanned)
  }

  function Publishing(x: Candidate, evaluatedAt: real): Permit {
    Propose(PublicationWrapperOf(x), PublicationBlocks(x), x.lineageDigest,
            Proposed(PUBLICATION_SCOPE, BarePublication(x, evaluatedAt)), PublicationPolicy())
  }

  /** `evaluate_local_candidate_publication_authorization` */
  function PublicationGate(x: Candidate, evaluatedAt: real): Outcome<Permit> {
    if x.Accepted(evaluatedAt) then Ok(Publishing(x, evaluatedAt)) else Raised(ValidationError)
  }

  // ---- The inspector.

  /** What the run recorded before the publication was decided, and the sole announcement after. */
  datatype Trail = Trail(
    records: Records, dispatch: Option<Document>, execution: Option<DispatchReceipt>, intended: Option<PreEffect>)
  {
    function ReceiptDigest(): Option<Text> { if execution.Some? then Some(execution.value.receiptDigest) else None }
    function AccountingDigest(): Option<Text> {
      if records.accounting.Some? then Some(records.accounting.value.Digest()) else None
    }
    function Disposition(): Option<Text> {
      if records.accounting.Some? then Some(records.accounting.value.Disposition()) else None
    }

    /** `_local_candidate_publication_prerequisites_satisfied` */
    predicate Safe() {
      && execution.Some? && execution.value.receipt.outcome == "succeeded"
      && records.accounting.Some? && records.accounting.value.Harmless()
    }
  }

  /** The wrapper repeats what the run's records say, and the evaluation and the scan passed. */
  predicate PublicationBinds(t: Trail, w: Wrapper) {
    var k := t.records;
    && w.PublicationWrapper? && Some(w.bindingDigest) == k.facts.bindingDigest
    && Some(w.selectionDigest) == k.facts.selectionDigest && w.intentDigest == k.facts.binding.intentDigest
    && w.dispatchRequest == RequestOf(t.dispatch) && w.dispatchDecision == DecisionDigestOf(t.dispatch)
    && w.dispatchReceipt == t.ReceiptDigest() && w.accounting == t.AccountingDigest() && w.disposition == t.Disposition()
    && Some(w.requestedClass) == k.facts.permissionClass && w.ownMockRunner == k.OwnMock()
    && w.legacyExecutable == k.Legacy() && w.safePrerequisites == t.Safe() && w.accepted && w.scanned
    && IsDigest(w.artifact) && IsDigest(w.metadata) && IsDigest(w.destination) && IsDigest(w.publicationIntentDigest)
    && (k.shadow.Some? ==>
          && w.publicationIntentDigest == k.shadow.value.intentDigest && w.artifact == k.shadow.value.version
          && Some(w.artifact) == k.shadow.value.contentDigest)
  }

  predicate PublicationIntentProjects(k: Records, w: Wrapper) {
    && w.PublicationWrapper? && k.intent.Some?
    && w.publicationIntentDigest == Digest(PublicationIntent(k.intent.value).ToJson())
  }

  function RecordedPublicationParameters(t: Trail, w: Wrapper, pre: PreEffect): Json
    requires w.PublicationWrapper? && t.records.intent.Some? && t.records.facts.bindingDigest.Some?
    requires t.records.facts.selectionDigest.Some? && t.records.facts.permissionClass.Some?
  {
    var k, b := t.records, t.records.facts.binding;
    var front := [
      Str(w.artifact), Plain(pre.kind), Str(w.metadata), Num(pre.size as real), Optional(t.Disposition()), Bool(true),
      Bool(true), Str(w.destination), Optional(t.ReceiptDigest()), Optional(DecisionDigestOf(t.dispatch)),
      Optional(RequestOf(t.dispatch)), Bool(true), Optional(t.AccountingDigest()), Str(k.facts.selectionDigest.value),
      Num(k.facts.permissionClass.value as real), Str(b.outputSchemaDigest), Str(b.profileRef),
      Str(Digest(PublicationIntent(k.intent.value).ToJson())), Str(b.repositoryRef), Str(k.facts.RunRef()), Bool(true),
      Str(k.facts.bindingDigest.value), Str(b.intentDigest)];
    var back := [Str(b.definitionDigest), Str(b.workspaceRef)];
    if k.lineage.Some? then Obj(PUBLICATION_PARAMETERS, front + [Str(k.lineage.value)] + back)
    else Obj(OLDER_PUBLICATION_PARAMETERS, front + back)
  }

  /** What only the announcement can confirm of the request. */
  predicate AnnouncementProjects(t: Trail, w: Wrapper, r: Request) {
    && w.PublicationWrapper? && t.records.intent.Some? && t.records.facts.bindingDigest.Some?
    && t.records.facts.selectionDigest.Some? && t.records.facts.permissionClass.Some?
    && (t.intended.Some? ==>
          && r.action.parametersDigest == Digest(RecordedPublicationParameters(t, w, t.intended.value))
          && t.intended.value.artifact == w.artifact && t.intended.value.metadata == w.metadata
          && t.intended.value.destination == w.destination)
  }

  /** `_inspect_local_candidate_publication_request_projection`, but for the announcement and the
      evidence. */
  predicate PublicationProjects(k: Records, w: Wrapper, evaluatedAt: real, r: Request) {
    var b := k.facts.binding;
    && w.PublicationWrapper? && k.intent.Some?
    && r.id == Prefixed(PUBLICATION_SCOPE + ":", k.facts.RunRef())
    && r.subject.principalId == Lit("agent:task-attempt") && r.subject.controllerId == Lit("ordomata:local-controller")
    && r.subject.role == "implementer" && r.subject.roleVersion == Lit("1") && r.subject.profileId == b.profileRef
    && r.subject.runnerId == MOCK && r.subject.sessionId == Some(Prefixed("attempt:", k.facts.RunRef()))
    && r.action.verb == "create" && r.action.operation == PUBLICATION_OPERATION
    && r.action.intendedEffect == PUBLICATION_EFFECT && r.action.toolId == None && r.action.claims == []
    && r.resource.resourceType == PUBLICATION_RESOURCE
    && r.resource.identifier == PublicationIdentifier(w.metadata, w.destination, k.facts.RunRef())
    && r.resource.version == w.artifact && r.resource.owner == Lit("operator:local")
    && r.resource.trustBoundary == BOUNDARY && r.resource.guarded == k.intent.value.guarded
    && r.resource.sensitivity == k.intent.value.sensitivity && r.resource.repositoryId == Some(b.repositoryRef)
    && r.resource.contentDigest == Some(w.artifact)
    && r.environment.isolation == "verified" && r.environment.network == "disabled"
    && r.environment.billing == "local_non_ai" && r.environment.capacity == "not_applicable"
    && r.environment.protection == "not_applicable" && r.environment.circuit == "closed"
    && r.environment.flowState == PUBLICATION_FLOW && r.environment.evaluatedAt == evaluatedAt && r.environment.grants == []
    && r.consequences.ToJson() == PublicationIntent(k.intent.value).consequences.ToJson()
  }

  /** `_inspect_local_candidate_publication_policy_projection` */
  predicate PublicationPolicyProjects(p: Policy) { p.ToJson() == PublicationPolicy().ToJson() }

  /** What ties the document to the run and to the fixed policy. */
  function PublicationLinks(t: Trail, doc: Document): set<Word> {
    hide ReadRequest, ReadPolicy, PublicationBinds, PublicationProjects, EvidenceBound, AnnouncementProjects;
    var r, p := ReadRequest(doc.request), ReadPolicy(doc.policy);
    When(!PublicationBinds(t, doc.wrapper), "local_candidate_publication_decision_binding_mismatch")
    + if doc.failed then {}
      else
        When(r.Some? && !PublicationIntentProjects(t.records, doc.wrapper),
             "local_candidate_publication_request_intent_mismatch")
        + When(r.Some? && !(PublicationProjects(t.records, doc.wrapper, doc.evaluatedAt, r.value)
                            && AnnouncementProjects(t, doc.wrapper, r.value)),
               "local_candidate_publication_request_binding_mismatch")
        + When(r.Some? && !EvidenceBound(PUBLICATION_SCOPE, r.value), "local_candidate_publication_evidence_invalid")
        + When(p.Some? && !PublicationPolicyProjects(p.value), "local_candidate_publication_policy_binding_mismatch")
  }

  function PublicationAround(t: Trail, doc: Document): Surroundings {
    Surroundings(PublicationLinks(t, doc), RecomputedBlocks(t.records.OwnMock(), t.records.Legacy(), t.Safe()),
                 t.records.facts.permissionClass)
  }

  /** `_inspect_local_candidate_publication_decision`, for one document. */
  function PublicationIssues(t: Trail, doc: Document): set<Word> { DocumentIssues(doc, PublicationAround(t, doc)) }

  // ---- The gate's own properties.

  lemma BarePublicationParts(x: Candidate, now: real)
    requires x.Accepted(now) && x.attempt.Typed()
    ensures PartsValid(BarePublication(x, now))
  {
    hide PublicationParameters, PublicationIdentifier, Lineage, IsIdentifier;
  }

  lemma PublicationPolicyIsFixed()
    ensures Fixed(PublicationPolicy())
  {
    hide EvidenceRequirement.Valid, AttributesOf;
    PublicationRequirementsValid();
  }

  lemma PublicationRequirementsValid()
    ensures
      var p := PublicationPolicy();
      && (forall q | q in p.evidenceRequirements :: q.Valid()) && Distinct(AttributesOf(p.evidenceRequirements))
      && Distinct(RequirementIdsOf(p.approvalRequirements))
  {
    assert AttributesOf(PublicationPolicy().evidenceRequirements) ==
      ["subject", "action", "resource", "environment", "consequences"];
  }

  lemma PublicationGates(r: Request)
    requires r.subject.role == "implementer" && r.action.verb == "create" && r.action.operation == PUBLICATION_OPERATION
    requires r.resource.resourceType == PUBLICATION_RESOURCE && r.resource.trustBoundary == BOUNDARY
    requires r.environment.isolation == "verified" && r.environment.network == "disabled"
    requires r.environment.billing == "local_non_ai" && r.environment.circuit == "closed"
    requires r.environment.flowState == PUBLICATION_FLOW
    ensures GatesOpen(r, PublicationPolicy()) <==> ClassOf(r) == 1
    ensures PublicationPolicy().approvalRequirements == [] && PublicationPolicy().ttl == 60.0
  {
    hide Derive, StageEvidence;
    CreateIsNotReadOnly(r.action, r.resource, r.consequences);
  }

  lemma PublicationMoment(x: Candidate, now: real)
    ensures BarePublication(x, now).environment.evaluatedAt == now && BarePublication(x, now).environment.grants == []
    ensures 1 <= ClassOf(BarePublication(x, now))
  {
    hide Derive, PublicationParameters;
    var bare := BarePublication(x, now);
    CreateIsNotReadOnly(bare.action, bare.resource, bare.consequences);
  }

  /** A candidate may be published exactly when the controller's own mock runner made it, the
      legacy gate would run the attempt, nothing about its billing is in doubt, it was accepted and
      scanned, and the attempt asks for Class 1 and its file for nothing beyond a local draft:
      publishing is local, reversible and confined, whatever the task, so only the impacts, the
      sensitivity and the protection of the task's own intent can stand against it. */
  lemma PublicationGateExactly(x: Candidate, now: real)
    requires x.Accepted(now)
    ensures
      var a, permit := x.attempt, Publishing(x, now);
      && permit.doc.eligible == (permit.doc.blocks == [])
      && (permit.doc.eligible <==>
            && a.ownMockRunner && a.legacyExecutable && x.safe && x.accepted && x.scanned && a.requestClass == 1
            && ClassOf(BarePublication(x, now)) == 1)
      && (a.Typed() ==>
            (permit.doc.eligible <==>
               && a.ownMockRunner && a.legacyExecutable && x.safe && x.accepted && x.scanned && a.requestClass == 1
               && LowImpact(a.intent)))
  {
    hide LowImpact, Propose, Derive, Proposed, GatesOpen, PublicationParameters, PublicationIdentifier, StageEvidence, Bind, Lineage,
         Evaluate, ApprovalRequirement.Matches, IsIdentifier;
    var bare, p := BarePublication(x, now), PublicationPolicy();
    PublicationMoment(x, now);
    ProposedSame(PUBLICATION_SCOPE, bare);
    PublicationGates(Proposed(PUBLICATION_SCOPE, bare));
    ProposedPermits(PUBLICATION_SCOPE, bare, p);
    ProposalExactly(PublicationWrapperOf(x), PublicationBlocks(x), x.lineageDigest, PUBLICATION_SCOPE, bare, p);
    if x.attempt.Typed() { PublicationIsDraft(x, now); }
  }

  predicate LowImpact(i: Intent) {
    && i.consequences.confidentiality == "low" && i.consequences.integrity == "low"
    && i.consequences.availability == "low" && i.consequences.sensitivity == "low"
    && i.sensitivity == "low" && !i.guarded
  }

  /** The publication for a typed attempt is Class 1 exactly when the task's impacts are low. */
  lemma PublicationIsDraft(x: Candidate, now: real)
    requires x.attempt.Typed()
    ensures ClassOf(BarePublication(x, now)) == 1 <==> LowImpact(x.attempt.intent)
  {
    hide Derive, PublicationParameters, PublicationIdentifier;
    var r := BarePublication(x, now);
    DraftExactly(r.action, r.resource, r.consequences);
    CreateIsNotReadOnly(r.action, r.resource, r.consequences);
  }

  // ---- What the checks of the request amount to.

  /** The one request, but for its evidence, that the records of the run call for; its parameters
      can be confirmed only by the announcement. */
  function RecordedPublication(k: Records, w: Wrapper, evaluatedAt: real, parameters: Text): Request
    requires w.PublicationWrapper? && k.intent.Some?
  {
    var b, intent := k.facts.binding, PublicationIntent(k.intent.value);
    Request(
      Prefixed(PUBLICATION_SCOPE + ":", k.facts.RunRef()), DispatchSubject(b.profileRef, k.facts.RunRef()),
      Action("create", PUBLICATION_OPERATION, parameters, PUBLICATION_EFFECT, None, []),
      Resource(PUBLICATION_RESOURCE, PublicationIdentifier(w.metadata, w.destination, k.facts.RunRef()), w.artifact,
               Lit("operator:local"), BOUNDARY, intent.guarded, intent.sensitivity, Some(b.repositoryRef),
               Some(w.artifact)),
      PublicationEnvironment(evaluatedAt), intent.consequences, [])
  }

  /** The scattered checks leave no other freedom. */
  lemma PublicationProjectsExactly(k: Records, w: Wrapper, evaluatedAt: real, r: Request)
    ensures PublicationProjects(k, w, evaluatedAt, r) <==>
      && w.PublicationWrapper? && k.intent.Some?
      && r == RecordedPublication(k, w, evaluatedAt, r.action.parametersDigest).(evidence := r.evidence)
  {
    hide PublicationIdentifier, Consequences.ToJson;
    if PublicationProjects(k, w, evaluatedAt, r) {
      ConsequencesTell(r.consequences, PublicationIntent(k.intent.value).consequences);
    }
  }

  // ---- Gate and inspector agree, up to what the inspector does not know.

  /** The run's records describe what the gate was asked about, under a schema 6 binding; an
      announcement is of this publication, and is made only where nothing of the run's own stands
      against it. */
  predicate TrailRecorded(t: Trail, x: Candidate) {
    var k, a := t.records, x.attempt;
    && Consistent(k.facts, a) && k.intent == Some(a.intent) && k.lineage == Some(x.lineageDigest)
    && a.ownMockRunner == k.OwnMock() && a.legacyExecutable && x.safe == t.Safe()
    && RequestOf(t.dispatch) == Some(x.dispatchRequest) && DecisionDigestOf(t.dispatch) == Some(x.dispatchDecision)
    && t.ReceiptDigest() == Some(x.dispatchReceipt) && t.AccountingDigest() == Some(x.accounting)
    && t.Disposition() == Some(x.disposition)
    && (k.shadow.Some? ==>
          k.shadow.value == ShadowRecord(Digest(PublicationIntent(a.intent).ToJson()), x.artifact, Some(x.artifact)))
    && (t.intended.Some? ==>
          && a.ownMockRunner && x.safe && x.accepted && x.scanned && t.intended.value.kind == x.kind
          && t.intended.value.size == x.size && t.intended.value.artifact == x.artifact
          && t.intended.value.metadata == x.metadata && t.intended.value.destination == x.destination)
  }

  lemma RecordedIsBarePublication(x: Candidate, now: real, t: Trail)
    requires x.Accepted(now) && TrailRecorded(t, x)
    ensures
      var k, w, bare := t.records, PublicationWrapperOf(x), BarePublication(x, now);
      && k.intent.Some? && w.PublicationWrapper? && PublicationIntentProjects(k, w)
      && bare == RecordedPublication(k, w, now, bare.action.parametersDigest)
      && AnnouncementProjects(t, w, bare)
      && (PublicationBinds(t, w) <==> x.accepted && x.scanned)
  {
    hide PublicationIdentifier, Lineage, IsIdentifier, Trail.ReceiptDigest, Trail.AccountingDigest, Trail.Disposition,
         Trail.Safe, RequestOf, DecisionDigestOf, Intent.ToJson;
    if t.intended.Some? {
      assert RecordedPublicationParameters(t, PublicationWrapperOf(x), t.intended.value) == PublicationParameters(x);
    }
  }

  lemma AnnouncementIgnoresEvidence(t: Trail, w: Wrapper, r: Request, evidence: seq<Evidence>)
    requires AnnouncementProjects(t, w, r)
    ensures AnnouncementProjects(t, w, r.(evidence := evidence))
  {
    hide RecordedPublicationParameters;
  }

  lemma PublicationLinksClear(x: Candidate, now: real, t: Trail)
    requires x.Accepted(now) && x.attempt.Typed() && TrailRecorded(t, x) && x.accepted && x.scanned
    ensures PublicationLinks(t, Publishing(x, now).doc) == {}
  {
    hide BarePublication, Evaluate, Request.ToJson, Policy.ToJson, Decision.ToJson, ReadRequest, ReadPolicy, Proposed, Derive,
         PublicationProjects, PublicationIntentProjects, EvidenceBound, AnnouncementProjects, PublicationBinds, Lineage,
         NormalRequest, NormalPolicy, PartsValid, PublicationPolicy, Fixed, RecordedPublication, ObligationsSupported,
         CommonBlocks, DecisionMatches, IsIdentifier, TrailRecorded, PublicationBlocks, PublicationWrapperOf;
    var bare, p := BarePublication(x, now), PublicationPolicy();
    var r, doc := Proposed(PUBLICATION_SCOPE, bare), Publishing(x, now).doc;
    PublicationPolicyIsFixed();
    BarePublicationParts(x, now);
    RecordedIsBarePublication(x, now, t);
    ReadBack(PUBLICATION_SCOPE, bare, p);
    ProposedReadsBack(PUBLICATION_SCOPE, bare);
    PublicationMoment(x, now);
    ProposedSame(PUBLICATION_SCOPE, bare);
    PublicationProjectsExactly(t.records, doc.wrapper, now, NormalRequest(r));
    AnnouncementIgnoresEvidence(t, doc.wrapper, bare, NormalRequest(r).evidence);
    FixedReadsBack(p);
  }

  lemma SameBlocks(x: Candidate, t: Trail)
    requires x.accepted && x.scanned && TrailRecorded(t, x) && x.attempt.requestClass in {0, 1}
    ensures PublicationBlocks(x) == RecomputedBlocks(t.records.OwnMock(), t.records.Legacy(), t.Safe())
    ensures t.records.facts.permissionClass == Some(x.attempt.requestClass)
  {
    hide Trail.ReceiptDigest, Trail.AccountingDigest, Trail.Disposition, Trail.Safe, RequestOf, DecisionDigestOf, Intent.ToJson;
  }

  /** Agreement, exactly: of the decisions that the run's records describe the inspector accepts
      all but those made for a candidate that was not accepted or whose scan did not pass.  The
      gate blocks these; the inspector takes them for a mismatch. */
  lemma PublicationAgreement(x: Candidate, now: real, t: Trail)
    requires x.Accepted(now) && x.attempt.Typed() && TrailRecorded(t, x)
    ensures PublicationIssues(t, Publishing(x, now).doc) == {} <==> x.accepted && x.scanned
  {
    hide *;
    hide PublicationAround, PublicationIssues, Publishing, Candidate.Accepted, PublicationWrapperOf;
    var bare, p, doc := BarePublication(x, now), PublicationPolicy(), Publishing(x, now).doc;
    PublishingIs(x, now);
    AroundIs(t, doc);
    AcceptedClass(x, now);
    if x.accepted && x.scanned {
      PublicationPolicyIsFixed();
      BarePublicationParts(x, now);
      PublicationLinksClear(x, now, t);
      SameBlocks(x, t);
      ProposalIsClean(PublicationWrapperOf(x), PublicationBlocks(x), x.lineageDigest, PUBLICATION_SCOPE, bare, p,
                      PublicationAround(t, doc));
    } else {
      RecordedIsBarePublication(x, now, t);
      CleanBinds(t, doc);
    }
  }

  lemma AcceptedClass(x: Candidate, now: real)
    requires x.Accepted(now)
    ensures x.attempt.requestClass in {0, 1} && |PUBLICATION_SCOPE| <= 200
    ensures PublicationWrapperOf(x).requestedClass == x.attempt.requestClass
  {
    hide IsIdentifier, Lineage;
  }

  lemma PublishingIs(x: Candidate, now: real)
    ensures Publishing(x, now) == Propose(PublicationWrapperOf(x), PublicationBlocks(x), x.lineageDigest,
                                          Proposed(PUBLICATION_SCOPE, BarePublication(x, now)), PublicationPolicy())
    ensures Publishing(x, now).doc.wrapper == PublicationWrapperOf(x)
  {
    hide PublicationWrapperOf, PublicationBlocks, Proposed, BarePublication, PublicationPolicy, Evaluate;
  }

  lemma AroundIs(t: Trail, doc: Document)
    ensures
      var around := PublicationAround(t, doc);
      && PublicationIssues(t, doc) == DocumentIssues(doc, around) && around.links == PublicationLinks(t, doc)
      && around.own == RecomputedBlocks(t.records.OwnMock(), t.records.Legacy(), t.Safe())
      && around.permissionClass == t.records.facts.permissionClass
  {
    hide DocumentIssues, PublicationLinks, RecomputedBlocks;
  }

  lemma CleanBinds(t: Trail, doc: Document)
    requires !PublicationBinds(t, doc.wrapper)
    ensures PublicationIssues(t, doc) != {}
  {
    hide PublicationBinds, DocumentProjects, ExactlyFailed, Evaluate, ReadRequest, ReadPolicy, Decision.ToJson,
         PublicationIntentProjects, PublicationProjects, AnnouncementProjects, PublicationPolicyProjects, EvidenceBound;
    assert "local_candidate_publication_decision_binding_mismatch" in PublicationIssues(t, doc);
  }

  // ---- What an eligible decision means.

  lemma ClearedPublication(t: Trail, doc: Document, r: Request, p: Policy)
    requires PublicationLinks(t, doc) == {} && !doc.failed
    requires ReadRequest(doc.request) == Some(r) && ReadPolicy(doc.policy) == Some(p)
    ensures PublicationBinds(t, doc.wrapper) && PublicationIntentProjects(t.records, doc.wrapper)
    ensures PublicationProjects(t.records, doc.wrapper, doc.evaluatedAt, r) && AnnouncementProjects(t, doc.wrapper, r)
    ensures EvidenceBound(PUBLICATION_SCOPE, r) && PublicationPolicyProjects(p)
  {
    hide PublicationBinds, PublicationProjects, PublicationIntentProjects, AnnouncementProjects, EvidenceBound,
         PublicationPolicyProjects, ReadRequest, ReadPolicy;
  }

  lemma NothingRecomputed(ownMockRunner: bool, legacyExecutable: bool, safe: bool)
    ensures RecomputedBlocks(ownMockRunner, legacyExecutable, safe) == [] <==> ownMockRunner && legacyExecutable && safe
  {
  }

  /** The decision is the permit of the one request that the run's records call for, freshly
      backed, under the one fixed policy, for a Class 1 attempt whose own mock execution succeeded
      and is settled. */
  ghost predicate PublicationPermits(t: Trail, doc: Document) {
    hide *;
    && doc.eligible && ReadRequest(doc.request).Some? && ReadPolicy(doc.policy).Some?
    && doc.wrapper.PublicationWrapper? && t.records.intent.Some? && t.records.facts.permissionClass == Some(1)
    && t.records.OwnMock() && t.Safe() && PublicationBinds(t, doc.wrapper)
    && var r, p := ReadRequest(doc.request).value, ReadPolicy(doc.policy).value;
       && r == RecordedPublication(t.records, doc.wrapper, doc.evaluatedAt, r.action.parametersDigest).(evidence := r.evidence)
       && AnnouncementProjects(t, doc.wrapper, r) && EvidenceBound(PUBLICATION_SCOPE, r)
       && p.ToJson() == PublicationPolicy().ToJson() && Evaluate(r, p).effect == "permit" && ClassOf(r) == 1
  }

  /** A clean and eligible publication decision is about this run and no other. */
  lemma EligiblePublication(t: Trail, doc: Document)
    requires PublicationIssues(t, doc) == {} && doc.eligible
    ensures PublicationPermits(t, doc)
  {
    hide DocumentIssues, Evaluate, ReadRequest, ReadPolicy, Decision.ToJson, Request.ToJson, Policy.ToJson, PublicationLinks,
         PublicationProjects, PublicationIntentProjects, EvidenceBound, PublicationPolicy, Derive, AnnouncementProjects,
         Trail.Safe, RecomputedBlocks;
    PublicationReads(t, doc);
    var r, p := ReadRequest(doc.request).value, ReadPolicy(doc.policy).value;
    EligibleDocument(doc, PublicationAround(t, doc), r, p);
    CleanDigests(doc, PublicationAround(t, doc));
    ClearedPublication(t, doc, r, p);
    PublicationProjectsExactly(t.records, doc.wrapper, doc.evaluatedAt, r);
    CreateIsNotReadOnly(r.action, r.resource, r.consequences);
    NothingRecomputed(t.records.OwnMock(), t.records.Legacy(), t.Safe());
  }

  lemma PublicationReads(t: Trail, doc: Document)
    requires PublicationIssues(t, doc) == {} && doc.eligible
    ensures ReadRequest(doc.request).Some? && ReadPolicy(doc.policy).Some?
  {
    hide DocumentIssues, ReadRequest, ReadPolicy, Evaluate, Decision.ToJson, PublicationAround;
    EligibleIsAuthority(doc, PublicationAround(t, doc));
  }

  /** No replay: a decision that is clean and eligible in two runs is about the same run, the same
      binding, the same dispatch decision and receipt, and the same accounting. */
  lemma PublicationIsForOneRun(t: Trail, u: Trail, doc: Document)
    requires PublicationIssues(t, doc) == {} && PublicationIssues(u, doc) == {} && doc.eligible
    ensures t.records.facts.runId == u.records.facts.runId
    ensures t.records.facts.bindingDigest == u.records.facts.bindingDigest
    ensures RequestOf(t.dispatch) == RequestOf(u.dispatch) && DecisionDigestOf(t.dispatch) == DecisionDigestOf(u.dispatch)
    ensures t.ReceiptDigest() == u.ReceiptDigest() && t.AccountingDigest() == u.AccountingDigest()
  {
    hide PublicationIssues, ReadRequest, ReadPolicy, Evaluate, Request.ToJson, Policy.ToJson, PublicationPolicy, EvidenceBound,
         Derive, AnnouncementProjects, Trail.ReceiptDigest, Trail.AccountingDigest, Trail.Disposition, Trail.Safe, RequestOf,
         DecisionDigestOf, PublicationIdentifier;
    EligiblePublication(t, doc);
    EligiblePublication(u, doc);
    SamePrefix("attempt:", t.records.facts.RunRef(), u.records.facts.RunRef());
  }
}
