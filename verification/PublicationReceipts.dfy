/** The two receipts of a publication, the announcement and the action: how the controller builds
    them and what the inspector checks of them. */
module PublicationReceipts {
  import opened Prelude
  import opened Canon
  import opened Sequences
  import opened Authorization
  import opened Evaluator
  import opened EvaluatorLaws
  import opened Receipts
  import opened CanonicalParsing
  import opened Proposals
  import opened Admission
  import opened AdmissionInspection
  import opened RunRecords
  import opened EnforcingDecisions
  import opened DispatchBoundary
  import opened PublicationBoundary

  const ACTION_RECEIPT := 70
  const ACTION_RECEIPT_ID := 71
  const ENFORCEMENT_ID := 72
  const PROJECTED := 73
  const VALUE := 74
  const METADATA := 75
  const ARTIFACT_REF := 76
  const PATH := 77

  const METADATA_LIMIT := 32

  /** An obligation result with its value digested. */
  datatype Projected = Projected(kind: Word, satisfied: bool, valueDigest: Text) {
    function ToJson(): Json { Obj(PROJECTED, [Plain(kind), Bool(satisfied), Str(valueDigest)]) }
  }

  function Project(o: ObligationResult): Projected { Projected(o.kind, true, Digest(Obj(VALUE, [Str(o.value)]))) }

  /** What became of the publication, as it is persisted afterwards. */
  datatype ActionReceipt = ActionReceipt(
    shadowPersisted: bool, shadowRequest: Option<Text>, shadowDecision: Option<Text>, eventId: Text, requestDigest: Text,
    decisionDigest: Text, actionDigest: Text, bindingDigest: Text, preEffectDigest: Text, receiptId: Text,
    executorId: Text, requestedClass: Class, kind: Word, destination: Text, artifact: Text, size: int, metadata: Text,
    disposition: Text, accepted: bool, scanned: bool, startedAt: real, effectStartedAt: real, completedAt: real,
    outcome: Word, results: seq<Projected>, resultDigest: Option<Text>, observedSize: Option<int>,
    failureCode: Option<Word>, enforcement: Receipt, enforcementDigest: Text, receiptDigest: Text)
  {
    /** The digest of everything but itself. */
    function OwnDigest(): (t: Text)
      ensures IsDigest(t)
    {
      Digest(Obj(ACTION_RECEIPT, [
        Str(actionDigest), Plain(kind), Str(metadata), Str(disposition), Num(completedAt), Bool(scanned), Str(destination),
        Num(effectStartedAt), enforcement.ToJson(), Str(enforcementDigest), Bool(accepted), Str(executorId),
        OptionalWord(failureCode), Str(artifact), Num(size as real),
        Arr(seq(|results|, i requires 0 <= i < |results| => results[i].ToJson())),
        OptionalNum(if observedSize.Some? then Some(observedSize.value as real) else None), Plain(outcome),
        Str(preEffectDigest), Str(eventId), Str(decisionDigest), Str(requestDigest), Optional(shadowDecision),
        Bool(shadowPersisted), Optional(shadowRequest), Str(receiptId), Num(requestedClass as real), Optional(resultDigest),
        Num(startedAt), Str(bindingDigest)]))
    }
  }

  function ActionReceiptId(destination: Text, preEffectDigest: Text, bindingDigest: Text): (t: Text)
    ensures IsDigest(t)
  {
    Digest(Obj(ACTION_RECEIPT_ID, [Str(destination), Str(preEffectDigest), Str(bindingDigest)]))
  }

  function EnforcementId(decisionDigest: Text, destination: Text, requestDigest: Text, bindingDigest: Text): (t: Text)
    ensures IsDigest(t)
  {
    Digest(Obj(ENFORCEMENT_ID, [Str(decisionDigest), Str(destination), Plain("local_candidate_publication_action"),
                                Str(requestDigest), Str(bindingDigest)]))
  }

  /** `_validate_enforcing_artifact_outcome` and `_inspect_task_action_outcome` */
  predicate OutcomeFits(
    outcome: Word, artifact: Text, size: int, resultDigest: Option<Text>, observedSize: Option<int>,
    failureCode: Option<Word>)
  {
    if outcome == "succeeded" then failureCode == None && resultDigest == Some(artifact) && observedSize == Some(size)
    else
      && resultDigest == None && observedSize == None
      && failureCode == (if outcome == "failed" then Some("artifact_persistence_failed")
                         else if outcome == "cancelled" then Some("artifact_persistence_interrupted")
                         else Some("artifact_publication_outcome_unknown"))
      && outcome in {"failed", "cancelled", "unknown"}
  }

  // ---- The controller.

  /** What the shadow of the publication left behind. */
  datatype Shadowed = Shadowed(persisted: bool, request: Option<Text>, decision: Option<Text>) {
    predicate Valid() { (request.Some? ==> IsDigest(request.value)) && (decision.Some? ==> IsDigest(decision.value)) }
  }

  /** `_publication_authorization_links` */
  predicate Authorizes(doc: Document, eventId: Text) {
    && IsDigest(eventId) && doc.effect == "permit" && doc.eligible
    && doc.requestDigest == Some(Digest(doc.request)) && doc.decisionDigest == Some(Digest(doc.decision))
    && Entry(doc.decision, 1) == Plain("permit") && Entry(doc.decision, 12) == Str(Digest(doc.request))
  }

  function Announcement(x: Candidate, doc: Document, eventId: Text, shadow: Shadowed, startedAt: real): PreEffect {
    var a := x.attempt;
    var body := PreEffect(
      shadow.persisted, shadow.request, shadow.decision, eventId, Digest(doc.request), Digest(doc.decision), ActionOf(doc),
      a.bindingDigest, a.requestClass, x.kind, x.destination, x.artifact, x.size, x.metadata, x.disposition, true, true,
      startedAt, Lit(""));
    body.(receiptDigest := body.OwnDigest())
  }

  /** `build_candidate_artifact_pre_effect_receipt` */
  function BuildPreEffect(x: Candidate, doc: Document, eventId: Text, shadow: Shadowed, startedAt: real): Outcome<PreEffect> {
    if !Authorizes(doc, eventId) || startedAt < 0.0 then Raised(ValidationError)
    else Ok(Announcement(x, doc, eventId, shadow, startedAt))
  }

  /** The request is the publication of this candidate. */
  predicate FixedPublication(x: Attempt, artifact: Text, r: Request) {
    var intent := PublicationIntent(x.intent);
    && r.subject.runnerId == MOCK && r.subject.role == "implementer" && r.action.verb == "create"
    && r.action.operation == PUBLICATION_OPERATION && r.action.intendedEffect == PUBLICATION_EFFECT
    && r.resource.resourceType == PUBLICATION_RESOURCE && r.resource.version == artifact
    && r.resource.trustBoundary == BOUNDARY && r.resource.guarded == intent.guarded
    && r.resource.sensitivity == intent.sensitivity && r.resource.contentDigest == Some(artifact)
    && r.consequences == intent.consequences
    && r.environment == PublicationEnvironment(r.environment.evaluatedAt).(grants := r.environment.grants)
    && Contained(r.consequences)
  }

  /** `_assert_local_candidate_publication_permit_current` */
  predicate PublicationCurrent(x: Candidate, a: Permit, startedAt: real) {
    var w := a.doc.wrapper;
    && w.PublicationWrapper? && w.ownMockRunner && w.safePrerequisites && w.accepted && w.scanned
    && w.intentDigest == Digest(x.attempt.intent.ToJson())
    && a.lineage == Lineage(x.source, x.attempt.definitionHash, w.requestedClass, x.attempt.intent)
    && w.publicationIntentDigest == Digest(PublicationIntent(x.attempt.intent).ToJson())
    && StillPermits(a, PublicationPolicy(), x.attempt.contractClass, startedAt)
    && FixedPublication(x.attempt, w.artifact, a.request)
  }

  /** `build_local_candidate_publication_enforcement_receipt` */
  function BuildEnforcement(
    x: Candidate, a: Permit, startedAt: real, completedAt: real, outcome: Word, result: Option<Text>): Outcome<Receipt>
  {
    if !PublicationCurrent(x, a, startedAt) || !a.doc.wrapper.PublicationWrapper? then Raised(AuthorizationBlocked)
    else
      var w := a.doc.wrapper;
      Record(EnforcementId(a.decision.Digest(), w.destination, a.request.Digest(), w.bindingDigest), a.decision, a.request,
             EXECUTOR, startedAt, if completedAt < startedAt then startedAt else completedAt, outcome,
             Map(a.decision.obligations, Fulfilled), result)
  }

  /** What the controller puts on record about the action, given the enforcement receipt. */
  function ActionOn(
    x: Candidate, pre: PreEffect, effectStartedAt: real, completedAt: real, outcome: Word, result: Option<Text>,
    observedSize: Option<int>, failureCode: Option<Word>, enforcement: Receipt): ActionReceipt
  {
    var body := ActionReceipt(
      pre.shadowPersisted, pre.shadowRequest, pre.shadowDecision, pre.eventId, pre.requestDigest, pre.decisionDigest,
      pre.actionDigest, x.attempt.bindingDigest, pre.receiptDigest,
      ActionReceiptId(x.destination, pre.receiptDigest, x.attempt.bindingDigest), EXECUTOR, x.attempt.requestClass, x.kind,
      x.destination, x.artifact, x.size, x.metadata, x.disposition, true, true, pre.startedAt, effectStartedAt, completedAt,
      outcome, Map(SortBy(enforcement.results, ResultKey), Project), result, observedSize, failureCode, enforcement,
      Digest(enforcement.ToJson()), Lit(""));
    body.(receiptDigest := body.OwnDigest())
  }

  /** `build_action_receipt`, for an announcement the controller itself built */
  function BuildAction(
    x: Candidate, a: Permit, pre: PreEffect, effectStartedAt: real, completedAt: real, outcome: Word,
    result: Option<Text>, observedSize: Option<int>, failureCode: Option<Word>): Outcome<ActionReceipt>
  {
    match BuildEnforcement(x, a, effectStartedAt, completedAt, outcome, result)
    case Raised(error) => Raised(error)
    case Ok(enforcement) =>
      if !(pre.startedAt <= effectStartedAt <= completedAt)
         || !OutcomeFits(outcome, x.artifact, x.size, result, observedSize, failureCode) then
        Raised(ValidationError)
      else Ok(ActionOn(x, pre, effectStartedAt, completedAt, outcome, result, observedSize, failureCode, enforcement))
  }

  // ---- The inspector.

  predicate OptionalDigest(t: Option<Text>) { t.Some? ==> IsDigest(t.value) }

  /** The types of the announcement's fields. */
  predicate WellAnnounced(pre: PreEffect) {
    && IsDigest(pre.bindingDigest) && IsDigest(pre.destination) && IsDigest(pre.artifact) && IsDigest(pre.metadata)
    && IsDigest(pre.disposition) && IsDigest(pre.eventId) && IsDigest(pre.requestDigest) && IsDigest(pre.decisionDigest)
    && IsDigest(pre.actionDigest) && OptionalDigest(pre.shadowRequest) && OptionalDigest(pre.shadowDecision)
    && IsIdentifier(pre.kind) && pre.size > 0
  }

  /** The types of the action's fields. */
  predicate WellRecorded(a: ActionReceipt) {
    && IsDigest(a.receiptId) && IsDigest(a.bindingDigest) && IsDigest(a.preEffectDigest) && IsDigest(a.destination)
    && IsDigest(a.artifact) && IsDigest(a.metadata) && IsDigest(a.disposition) && IsDigest(a.eventId)
    && IsDigest(a.requestDigest) && IsDigest(a.decisionDigest) && IsDigest(a.actionDigest) && IsDigest(a.enforcementDigest)
    && OptionalDigest(a.resultDigest) && OptionalDigest(a.shadowRequest) && OptionalDigest(a.shadowDecision)
    && IsIdentifier(a.kind) && a.size > 0 && (a.observedSize.Some? ==> a.observedSize.value >= 0)
  }

  /** `_inspect_task_pre_effect_receipt`, under an enforcing binding */
  function PreEffectIssues(k: Records, row: Row, pre: PreEffect): set<Word> {
    When(row.sequence == None || row.occurredAt == None || row.occurredAt.value < pre.startedAt || pre.startedAt < 0.0,
         "task_publication_pre_effect_timestamp_invalid")
    + When(pre.receiptDigest != pre.OwnDigest(), "task_publication_pre_effect_digest_mismatch")
    + When(k.facts.permissionClass != Some(pre.requestedClass) || !pre.accepted || !pre.scanned
           || !WellAnnounced(pre), "task_publication_pre_effect_receipt_invalid")
    + When(Some(pre.bindingDigest) != k.facts.bindingDigest, "task_publication_pre_effect_binding_mismatch")
    + When(!row.identified, "task_publication_pre_effect_event_identifier_mismatch")
  }

  /** `_inspect_task_enforcement_receipt`.  Its results, in canonical order, are what the action
      receipt projects, so that the separate check of that projection has nothing to add. */
  predicate EnforcementFits(a: ActionReceipt) {
    var e := a.enforcement;
    && a.enforcementDigest == Digest(e.ToJson()) && IsDigest(e.receiptId) && e.executorId == EXECUTOR
    && e.requestDigest == a.requestDigest && e.decisionDigest == a.decisionDigest
    && e.enforcedActionDigest == a.actionDigest && e.startedAt == a.effectStartedAt && e.completedAt == a.completedAt
    && e.outcome == a.outcome && e.resultDigest == a.resultDigest
    && (forall o | o in e.results :: o.satisfied) && Distinct(Map(e.results, ResultPair))
    && Met(e.results) == FIXED_OBLIGATIONS && a.results == Map(SortBy(e.results, ResultKey), Project)
  }

  /** `_inspect_task_action_receipt`, under an enforcing binding */
  function ActionIssues(k: Records, row: Row, a: ActionReceipt): set<Word> {
    When(row.sequence == None || row.occurredAt == None || row.occurredAt.value < a.completedAt
         || !(0.0 <= a.startedAt <= a.effectStartedAt <= a.completedAt), "task_publication_action_timestamp_invalid")
    + When(a.receiptDigest != a.OwnDigest(), "task_publication_action_receipt_digest_mismatch")
    + When(a.executorId != EXECUTOR || k.facts.permissionClass != Some(a.requestedClass) || !a.accepted || !a.scanned
           || !WellRecorded(a), "task_publication_action_receipt_invalid")
    + When(Some(a.bindingDigest) != k.facts.bindingDigest, "task_publication_action_receipt_binding_mismatch")
    + When(a.receiptId != ActionReceiptId(a.destination, a.preEffectDigest, a.bindingDigest),
           "task_publication_action_receipt_identifier_mismatch")
    + When(!row.identified, "task_publication_action_event_identifier_mismatch")
    + When(!OutcomeFits(a.outcome, a.artifact, a.size, a.resultDigest, a.observedSize, a.failureCode),
           "task_publication_action_outcome_invalid")
    + When(!EnforcementFits(a), "task_publication_enforcement_receipt_invalid")
  }

  /** `_inspect_local_candidate_publication_receipt_binding`, of the announcement: it names the
      permit's event, request, decision and action, and repeats what the permit is about. */
  predicate PreEffectBinds(doc: Option<Document>, eventId: Option<Text>, pre: PreEffect) {
    && doc.Some? && doc.value.wrapper.PublicationWrapper? && !doc.value.failed && doc.value.effect == "permit"
    && doc.value.eligible
    && var w := doc.value.wrapper;
       && Some(pre.eventId) == eventId && Some(pre.requestDigest) == doc.value.requestDigest
       && Some(pre.decisionDigest) == doc.value.decisionDigest && pre.actionDigest == ActionOf(doc.value)
       && pre.bindingDigest == w.bindingDigest && pre.destination == w.destination && pre.metadata == w.metadata
       && Some(pre.disposition) == w.disposition && pre.artifact == w.artifact && pre.requestedClass == w.requestedClass
  }

  /** The same, of the action. */
  predicate ActionBinds(doc: Option<Document>, eventId: Option<Text>, a: ActionReceipt) {
    && doc.Some? && doc.value.wrapper.PublicationWrapper? && !doc.value.failed && doc.value.effect == "permit"
    && doc.value.eligible
    && var w := doc.value.wrapper;
       && Some(a.eventId) == eventId && Some(a.requestDigest) == doc.value.requestDigest
       && Some(a.decisionDigest) == doc.value.decisionDigest && a.actionDigest == ActionOf(doc.value)
       && a.bindingDigest == w.bindingDigest && a.destination == w.destination && a.metadata == w.metadata
       && Some(a.disposition) == w.disposition && a.artifact == w.artifact && a.requestedClass == w.requestedClass
       && a.enforcement.receiptId == EnforcementId(a.decisionDigest, w.destination, a.requestDigest, w.bindingDigest)
       && ResultsMatch(Entry(doc.value.decision, 6), a.enforcement.results)
  }

  /** `_inspect_task_receipt_linkage` */
  predicate Linked(pre: PreEffect, a: ActionReceipt) {
    && a.preEffectDigest == pre.receiptDigest && a.bindingDigest == pre.bindingDigest
    && a.shadowPersisted == pre.shadowPersisted && a.requestDigest == pre.requestDigest
    && a.decisionDigest == pre.decisionDigest && a.actionDigest == pre.actionDigest && a.startedAt == pre.startedAt
    && a.requestedClass == pre.requestedClass && a.kind == pre.kind && a.destination == pre.destination
    && a.metadata == pre.metadata && a.disposition == pre.disposition && a.accepted == pre.accepted
    && a.scanned == pre.scanned && a.eventId == pre.eventId && a.shadowRequest == pre.shadowRequest
    && a.shadowDecision == pre.shadowDecision && a.artifact == pre.artifact && a.size == pre.size
  }

  /** A row of artifact metadata.  `sound` stands for the types and lengths of its columns, `local`
      for a normal path below the run's directory. */
  datatype Metadata = Metadata(
    id: Text, runId: Text, kind: Word, path: Text, artifact: Text, media: Text, size: int, createdAt: Option<real>,
    sound: bool, local: bool)
  {
    function Destination(): Text { Canon.Digest(Obj(PATH, [Str(path)])) }

    function Digest(): (t: Text)
      ensures IsDigest(t)
    {
      Canon.Digest(Obj(METADATA, [
        Str(artifact), Str(Canon.Digest(Obj(ARTIFACT_REF, [Str(id)]))), Plain(kind), Str(Destination()), Str(media),
        Str(Canon.Digest(Obj(RUN_REF, [Str(runId)]))), Num(size as real)]))
    }
  }

  predicate Describes(k: Records, a: ActionReceipt, m: Metadata) {
    && m.sound && m.runId == k.facts.runId && a.metadata == m.Digest() && a.kind == m.kind
    && a.destination == m.Destination() && a.artifact == m.artifact && a.size == m.size
  }

  /** `_matching_task_artifact_metadata_count` */
  function Matching(k: Records, a: ActionReceipt, rows: seq<Metadata>): nat {
    |Filter(rows, (m: Metadata) => Describes(k, a, m))|
  }

  /** The metadata is what the action calls for: one row that describes it if it succeeded, at most
      one otherwise, and no other row. */
  predicate MetadataFits(k: Records, a: ActionReceipt, rows: seq<Metadata>) {
    && |rows| <= 1 && (a.outcome == "succeeded" ==> |rows| == 1)
    && forall m | m in rows :: m.local && m.createdAt == Some(a.startedAt) && Describes(k, a, m)
  }

  /** The checks of metadata rows, as the inspector makes them. */
  function MetadataIssues(k: Records, action: Option<ActionReceipt>, rows: seq<Metadata>): set<Word> {
    When(exists m | m in rows :: !m.local, "task_artifact_destination_invalid")
    + When(exists m | m in rows :: m.createdAt == None, "task_artifact_metadata_timestamp_invalid")
    + When(|rows| > METADATA_LIMIT, "task_artifact_metadata_limit_exceeded")
    + match action
      case None => When(rows != [], "task_artifact_metadata_unlinked")
      case Some(a) =>
        var count := Matching(k, a, rows);
        When(exists m | m in rows :: m.createdAt.Some? && m.createdAt != Some(a.startedAt),
             "task_artifact_metadata_timestamp_mismatch")
        + When((a.outcome == "succeeded" && count != 1) || count > 1 || |rows| != count,
               "task_action_receipt_artifact_mismatch")
  }

  /** The artifact is on record: one row describes it, and nothing says that it was not made. */
  predicate Observed(k: Records, a: ActionReceipt, rows: seq<Metadata>) {
    a.outcome in {"succeeded", "unknown"} && Matching(k, a, rows) == 1
  }

  /** What `_inspect_task_artifact_receipts` asks of accounting and billing once there is either
      receipt. */
  predicate AccountedFor(t: Trail, dispositions: seq<Text>) {
    var k := t.records;
    && t.Disposition().Some? && (forall d | d in dispositions :: t.Disposition() == Some(d))
    && (k.accounting.Some? ==> k.accounting.value.Publishable())
    && (k.accounting.Some? && k.assessment.Some? && k.assessment.value.route == "mock" ==> k.accounting.value.InMemory())
  }

  // ---- Metadata.

  lemma {:induction false} MatchingAll(k: Records, a: ActionReceipt, rows: seq<Metadata>)
    ensures Matching(k, a, rows) <= |rows|
    ensures Matching(k, a, rows) == |rows| <==> forall m | m in rows :: Describes(k, a, m)
  {
    hide Describes;
    if rows != [] {
      assert rows == rows[..|rows| - 1] + [rows[|rows| - 1]];
      MatchingAll(k, a, rows[..|rows| - 1]);
    }
  }

  /** The counting amounts to this: no row without an action, and otherwise what the action calls
      for. */
  lemma MetadataExactly(k: Records, action: Option<ActionReceipt>, rows: seq<Metadata>)
    ensures MetadataIssues(k, action, rows) == {} <==>
      if action.Some? then MetadataFits(k, action.value, rows) else rows == []
  {
    hide Matching, Describes;
    SomeElement(rows);
    if action.Some? { MatchingAll(k, action.value, rows); }
  }

  // ---- The announcement.

  function ShadowOf(pre: PreEffect): Shadowed { Shadowed(pre.shadowPersisted, pre.shadowRequest, pre.shadowDecision) }

  lemma PublicationDocument(x: Candidate, now: real)
    requires x.Accepted(now) && Publishing(x, now).doc.eligible
    ensures
      var a := Publishing(x, now);
      && a.decision == Evaluate(a.request, a.policy) && a.decision.effect == "permit" && 1 <= ClassOf(a.request)
      && a.doc.request == a.request.ToJson() && a.doc.requestDigest == Some(a.request.Digest()) && !a.doc.failed
      && a.doc.decision == a.decision.ToJson() && a.doc.decisionDigest == Some(a.decision.Digest()) && a.doc.effect == "permit"
      && 0.0 <= a.decision.issuedAt < a.decision.expiresAt && a.policy == PublicationPolicy()
      && a.doc.wrapper == PublicationWrapperOf(x) && a.policy.ttl > 0.0 && a.request.environment.evaluatedAt >= 0.0
      && a.request.action.parametersDigest == Digest(PublicationParameters(x))
  {
    hide Evaluate, Request.ToJson, Policy.ToJson, Decision.ToJson, Derive, ObligationsSupported, Proposed, Bind, Lineage,
         CommonBlocks, PublicationParameters, PublicationIdentifier, IsIdentifier, StageEvidence;
    var bare, p := BarePublication(x, now), PublicationPolicy();
    PublicationMoment(x, now);
    ProposedSame(PUBLICATION_SCOPE, bare);
    ProposalExactly(PublicationWrapperOf(x), PublicationBlocks(x), x.lineageDigest, PUBLICATION_SCOPE, bare, p);
    ProposalTimes(PUBLICATION_SCOPE, bare, p);
  }

  /** The parameters of the permitted request fix the kind and the size of the candidate. */
  lemma ParametersTell(x: Candidate, t: Trail, w: Wrapper, pre: PreEffect)
    requires w.PublicationWrapper? && t.records.intent.Some? && t.records.facts.bindingDigest.Some?
    requires t.records.facts.selectionDigest.Some? && t.records.facts.permissionClass.Some?
    requires PublicationParameters(x) == RecordedPublicationParameters(t, w, pre)
    ensures pre.kind == x.kind && pre.size == x.size
  {
    hide Trail.ReceiptDigest, Trail.AccountingDigest, Trail.Disposition, RequestOf, DecisionDigestOf, Intent.ToJson;
    var a, b := PublicationParameters(x).values, RecordedPublicationParameters(t, w, pre).values;
    assert a[1] == b[1] && a[3] == b[3];
  }

  lemma AnnouncedKind(x: Candidate, now: real, t: Trail, pre: PreEffect)
    requires x.Accepted(now) && x.attempt.Typed() && Publishing(x, now).doc.eligible
    requires t.intended == Some(pre) && PublicationIssues(t, Publishing(x, now).doc) == {}
    ensures pre.kind == x.kind && pre.size == x.size
  {
    hide BarePublication, PublicationIssues, Evaluate, Request.ToJson, Policy.ToJson, Decision.ToJson, ReadRequest, ReadPolicy,
         Proposed, Derive, EvidenceBound, Lineage, NormalRequest, NormalPolicy, PartsValid, PublicationPolicy, Fixed,
         RecordedPublication, PublicationWrapperOf, RecordedPublicationParameters, PublicationParameters, PublicationBinds,
         Publishing;
    var bare, p, doc := BarePublication(x, now), PublicationPolicy(), Publishing(x, now).doc;
    PublicationDocument(x, now);
    PublishingIs(x, now);
    PublicationPolicyIsFixed();
    BarePublicationParts(x, now);
    ReadBack(PUBLICATION_SCOPE, bare, p);
    NormalParameters(Proposed(PUBLICATION_SCOPE, bare));
    EligiblePublication(t, doc);
    ParametersTell(x, t, doc.wrapper, pre);
  }

  lemma NormalParameters(r: Request)
    ensures NormalRequest(r).action.parametersDigest == r.action.parametersDigest
  {
    hide SortBy;
  }

  /** The announcement is the controller's own, and recorded under its own digest no earlier than
      it says. */
  predicate AsAnnounced(x: Candidate, now: real, eventId: Text, row: Row, pre: PreEffect) {
    && InPlace(row, pre.startedAt) && 0.0 <= pre.startedAt && ShadowOf(pre).Valid()
    && pre == Announcement(x, Publishing(x, now).doc, eventId, ShadowOf(pre), pre.startedAt)
  }

  /** Nothing speaks against the announcement, beside the decision that it names. */
  predicate CleanAnnouncement(t: Trail, doc: Document, eventId: Text, row: Row, pre: PreEffect) {
    PreEffectIssues(t.records, row, pre) == {} && PreEffectBinds(Some(doc), Some(eventId), pre)
  }

  lemma PreEffectParts(k: Records, row: Row, pre: PreEffect)
    ensures PreEffectIssues(k, row, pre) == {} <==>
      && InPlace(row, pre.startedAt) && 0.0 <= pre.startedAt && pre.receiptDigest == pre.OwnDigest()
      && k.facts.permissionClass == Some(pre.requestedClass) && pre.accepted && pre.scanned && WellAnnounced(pre)
      && Some(pre.bindingDigest) == k.facts.bindingDigest
  {
    hide PreEffect.OwnDigest, WellAnnounced;
  }

  lemma AnnouncementDigest(x: Candidate, doc: Document, eventId: Text, shadow: Shadowed, startedAt: real)
    ensures
      var pre := Announcement(x, doc, eventId, shadow, startedAt);
      pre.receiptDigest == pre.OwnDigest() && ShadowOf(pre) == shadow
  {
    hide ActionOf;
  }

  lemma AnnouncedAgain(x: Candidate, now: real, eventId: Text, pre: PreEffect)
    requires pre.receiptDigest == pre.OwnDigest()
    ensures
      var doc, w := Publishing(x, now).doc, PublicationWrapperOf(x);
      pre == Announcement(x, doc, eventId, ShadowOf(pre), pre.startedAt) <==>
        && pre.eventId == eventId && pre.requestDigest == Digest(doc.request) && pre.decisionDigest == Digest(doc.decision)
        && pre.actionDigest == ActionOf(doc) && pre.bindingDigest == w.bindingDigest && pre.requestedClass == w.requestedClass
        && pre.kind == x.kind && pre.destination == x.destination && pre.artifact == x.artifact && pre.size == x.size
        && pre.metadata == x.metadata && pre.disposition == x.disposition && pre.accepted && pre.scanned
  {
    hide ActionOf, Publishing;
    AnnouncementDigest(x, Publishing(x, now).doc, eventId, ShadowOf(pre), pre.startedAt);
  }

  lemma EligibleTold(x: Candidate, now: real)
    requires x.Accepted(now) && Publishing(x, now).doc.eligible
    ensures x.attempt.ownMockRunner && x.safe && x.accepted && x.scanned && x.attempt.requestClass == 1
    ensures IsDigest(x.destination) && IsDigest(x.artifact) && IsDigest(x.metadata) && IsDigest(x.disposition)
    ensures IsDigest(x.attempt.bindingDigest) && IsIdentifier(x.kind) && x.size > 0
  {
    hide Publishing, IsIdentifier, Lineage;
    PublicationGateExactly(x, now);
  }

  /** The checks of the announcement, with those of the decision that it completes, add up to this:
      it is the one the controller builds. */
  lemma AnnouncementExactly(x: Candidate, now: real, t: Trail, eventId: Text, row: Row, pre: PreEffect)
    requires x.Accepted(now) && x.attempt.Typed() && TrailRecorded(t.(intended := None), x) && t.intended == Some(pre)
    requires Publishing(x, now).doc.eligible && IsDigest(eventId)
    ensures AsAnnounced(x, now, eventId, row, pre) <==>
      && PublicationIssues(t, Publishing(x, now).doc) == {}
      && CleanAnnouncement(t, Publishing(x, now).doc, eventId, row, pre)
  {
    hide BarePublication, PublicationIssues, Evaluate, Request.ToJson, Policy.ToJson, Decision.ToJson, Derive, Lineage,
         Publishing, PreEffect.OwnDigest, PreEffectIssues, IsIdentifier, ActionOf, Announcement, TrailRecorded;
    var doc := Publishing(x, now).doc;
    PublicationDocument(x, now);
    EligibleTold(x, now);
    PreEffectParts(t.records, row, pre);
    ActionIsDigest(doc);
    RecordedClass(x, t);
    if AsAnnounced(x, now, eventId, row, pre) {
      AnnouncementDigest(x, doc, eventId, ShadowOf(pre), pre.startedAt);
      AnnouncedAgain(x, now, eventId, pre);
      IntendedIsRecorded(x, t, pre);
      PublicationAgreement(x, now, t);
    } else if PublicationIssues(t, doc) == {} && CleanAnnouncement(t, doc, eventId, row, pre) {
      AnnouncedKind(x, now, t, pre);
      AnnouncedAgain(x, now, eventId, pre);
    }
  }

  lemma ActionIsDigest(doc: Document)
    ensures IsDigest(ActionOf(doc))
  {
  }

  lemma RecordedClass(x: Candidate, t: Trail)
    requires TrailRecorded(t.(intended := None), x)
    ensures t.records.facts.permissionClass == Some(x.attempt.requestClass)
    ensures t.records.facts.bindingDigest == Some(x.attempt.bindingDigest)
  {
    hide Trail.ReceiptDigest, Trail.AccountingDigest, Trail.Disposition, Trail.Safe, RequestOf, DecisionDigestOf, Intent.ToJson;
  }

  lemma IntendedIsRecorded(x: Candidate, t: Trail, pre: PreEffect)
    requires TrailRecorded(t.(intended := None), x) && t.intended == Some(pre)
    requires x.attempt.ownMockRunner && x.safe && x.accepted && x.scanned && pre.kind == x.kind && pre.size == x.size
    requires pre.artifact == x.artifact && pre.metadata == x.metadata && pre.destination == x.destination
    ensures TrailRecorded(t, x)
  {
    hide RequestOf, DecisionDigestOf, Intent.ToJson, Accounting.Harmless;
  }

  // ---- The action.

  lemma PublicationLasts()
    ensures PublicationPolicy().ttl == 60.0
  {
  }

  lemma BareIsFixedPublication(x: Candidate, now: real)
    ensures FixedPublication(x.attempt, x.artifact, Proposed(PUBLICATION_SCOPE, BarePublication(x, now)))
  {
    hide PublicationParameters, PublicationIdentifier, Bind;
  }

  /** At the moment of the effect the whole list of checks adds one thing to the decision: that the
      effect starts inside the window. */
  lemma PublicationCurrentExactly(x: Candidate, now: real, startedAt: real)
    requires x.Accepted(now) && x.attempt.requestClass == x.attempt.contractClass
    ensures PublicationCurrent(x, Publishing(x, now), startedAt) <==>
      Publishing(x, now).doc.eligible && InWindow(Publishing(x, now).decision, startedAt)
  {
    hide Evaluate, Request.ToJson, Policy.ToJson, Decision.ToJson, Derive, ObligationsSupported, Proposed, BarePublication,
         FixedPublication, Lineage, PublicationPolicy, StillPermits, CommonBlocks, Intent.ToJson, IsIdentifier, Propose;
    var bare, p := BarePublication(x, now), PublicationPolicy();
    BareIsFixedPublication(x, now);
    PublicationMoment(x, now);
    PublicationLasts();
    PublicationGateExactly(x, now);
    ProposeKeeps(PublicationWrapperOf(x), PublicationBlocks(x), x.lineageDigest, Proposed(PUBLICATION_SCOPE, bare), p);
    StillPermitsExactly(PublicationWrapperOf(x), PublicationBlocks(x), x.lineageDigest, PUBLICATION_SCOPE, bare, p,
                        x.attempt.contractClass, startedAt);
  }

  /** What the controller's receipt of the enforcement says. */
  function Enforcement(
    x: Candidate, now: real, startedAt: real, completedAt: real, outcome: Word, result: Option<Text>): Receipt
  {
    var a := Publishing(x, now);
    Receipt(EnforcementId(a.decision.Digest(), x.destination, a.request.Digest(), x.attempt.bindingDigest),
            a.decision.Digest(), a.request.Digest(), Enforced(a.request), EXECUTOR, startedAt, completedAt, outcome,
            Map(a.decision.obligations, Fulfilled), result)
  }

  function ControllerAction(
    x: Candidate, now: real, pre: PreEffect, effectStartedAt: real, completedAt: real, outcome: Word,
    result: Option<Text>, observedSize: Option<int>, failureCode: Option<Word>): ActionReceipt
  {
    ActionOn(x, pre, effectStartedAt, completedAt, outcome, result, observedSize, failureCode,
             Enforcement(x, now, effectStartedAt, completedAt, outcome, result))
  }

  lemma EnforcementBuilds(
    x: Candidate, now: real, startedAt: real, completedAt: real, outcome: Word, result: Option<Text>)
    requires x.Accepted(now) && x.attempt.requestClass == x.attempt.contractClass
    requires outcome in OUTCOMES && (result.Some? ==> IsDigest(result.value))
    ensures BuildEnforcement(x, Publishing(x, now), startedAt, completedAt, outcome, result) ==
      if Publishing(x, now).doc.eligible && InWindow(Publishing(x, now).decision, startedAt) then
        Ok(Enforcement(x, now, startedAt, if completedAt < startedAt then startedAt else completedAt, outcome, result))
      else Raised(AuthorizationBlocked)
  {
    hide Evaluate, Request.ToJson, Policy.ToJson, Decision.ToJson, Derive, Lineage, PublicationCurrent, Record, Publishing,
         EnforcementId, Receipt.ToJson, PublicationPolicy, Enforced, IsIdentifier, PublicationParameters, PublicationBlocks,
         BarePublication, Proposed, Intent.ToJson, Candidate.Accepted;
    var a, ended := Publishing(x, now), if completedAt < startedAt then startedAt else completedAt;
    PublicationCurrentExactly(x, now, startedAt);
    PublishingIs(x, now);
    if PublicationCurrent(x, a, startedAt) {
      PublicationDocument(x, now);
      PermitReceipt(EnforcementId(a.decision.Digest(), x.destination, a.request.Digest(), x.attempt.bindingDigest),
                    a.request, a.policy, EXECUTOR, startedAt, ended, outcome, result);
    }
  }

  /** When the controller puts an action on record, and what it records. */
  lemma ActionBuilds(
    x: Candidate, now: real, pre: PreEffect, effectStartedAt: real, completedAt: real, outcome: Word,
    result: Option<Text>, observedSize: Option<int>, failureCode: Option<Word>)
    requires x.Accepted(now) && x.attempt.requestClass == x.attempt.contractClass
    requires outcome in OUTCOMES && (result.Some? ==> IsDigest(result.value))
    ensures
      BuildAction(x, Publishing(x, now), pre, effectStartedAt, completedAt, outcome, result, observedSize, failureCode) ==
        if !(Publishing(x, now).doc.eligible && InWindow(Publishing(x, now).decision, effectStartedAt)) then
          Raised(AuthorizationBlocked)
        else if !(pre.startedAt <= effectStartedAt <= completedAt)
                || !OutcomeFits(outcome, x.artifact, x.size, result, observedSize, failureCode) then
          Raised(ValidationError)
        else Ok(ControllerAction(x, now, pre, effectStartedAt, completedAt, outcome, result, observedSize, failureCode))
  {
    hide Publishing, Enforcement, ActionOn, BuildEnforcement, OutcomeFits;
    EnforcementBuilds(x, now, effectStartedAt, completedAt, outcome, result);
  }

  /** The same receipt, whatever the order of the results in its enforcement receipt. */
  predicate SameAction(a: ActionReceipt, b: ActionReceipt) {
    a.(enforcement := Ordered(a.enforcement)) == b.(enforcement := Ordered(b.enforcement))
  }

  lemma OwnDigestInOrder(a: ActionReceipt, digest: Text)
    ensures a.(enforcement := Ordered(a.enforcement), receiptDigest := digest).OwnDigest() == a.OwnDigest()
  {
    hide Receipt.ToJson, Projected.ToJson;
    ReceiptInOrder(a.enforcement);
  }

  lemma SameActionFields(a: ActionReceipt, b: ActionReceipt)
    requires b.receiptDigest == b.OwnDigest()
    ensures SameAction(a, b) <==>
      && a.receiptDigest == a.OwnDigest()
      && a.(enforcement := b.enforcement, receiptDigest := b.receiptDigest) == b
      && a.enforcement.(results := []) == b.enforcement.(results := [])
      && SortBy(a.enforcement.results, ResultKey) == SortBy(b.enforcement.results, ResultKey)
  {
    hide SortBy, ActionReceipt.OwnDigest;
    OwnDigestInOrder(a, Lit(""));
    OwnDigestInOrder(b, Lit(""));
    var x, y := a.(enforcement := Ordered(a.enforcement), receiptDigest := Lit("")),
                b.(enforcement := Ordered(b.enforcement), receiptDigest := Lit(""));
    if a.(enforcement := b.enforcement, receiptDigest := b.receiptDigest) == b
       && a.enforcement.(results := []) == b.enforcement.(results := [])
       && SortBy(a.enforcement.results, ResultKey) == SortBy(b.enforcement.results, ResultKey) {
      assert Ordered(a.enforcement) == a.enforcement.(results := []).(results := SortBy(a.enforcement.results, ResultKey));
      assert Ordered(b.enforcement) == b.enforcement.(results := []).(results := SortBy(b.enforcement.results, ResultKey));
      assert x == y;
    }
    if SameAction(a, b) { assert x == y; }
  }

  lemma ActionParts(k: Records, row: Row, a: ActionReceipt)
    ensures ActionIssues(k, row, a) == {} <==>
      && InPlace(row, a.completedAt) && 0.0 <= a.startedAt <= a.effectStartedAt <= a.completedAt
      && a.receiptDigest == a.OwnDigest() && a.executorId == EXECUTOR && k.facts.permissionClass == Some(a.requestedClass)
      && a.accepted && a.scanned && WellRecorded(a) && Some(a.bindingDigest) == k.facts.bindingDigest
      && a.receiptId == ActionReceiptId(a.destination, a.preEffectDigest, a.bindingDigest)
      && OutcomeFits(a.outcome, a.artifact, a.size, a.resultDigest, a.observedSize, a.failureCode) && EnforcementFits(a)
  {
    hide ActionReceipt.OwnDigest, WellRecorded, OutcomeFits, EnforcementFits, ActionReceiptId, IsIdentifier;
  }

  /** The action's own record, completed inside the window of the permit that was announced. */
  predicate AsActed(x: Candidate, now: real, row: Row, pre: PreEffect, a: ActionReceipt) {
    && InPlace(row, a.completedAt) && pre.startedAt <= a.effectStartedAt <= a.completedAt
    && InWindow(Publishing(x, now).decision, a.effectStartedAt)
    && OutcomeFits(a.outcome, x.artifact, x.size, a.resultDigest, a.observedSize, a.failureCode)
    && SameAction(a, ControllerAction(x, now, pre, a.effectStartedAt, a.completedAt, a.outcome, a.resultDigest,
                                      a.observedSize, a.failureCode))
  }

  /** Nothing speaks against the action, beside the decision and the announcement that it names. */
  predicate CleanAction(k: Records, doc: Document, eventId: Text, row: Row, pre: PreEffect, a: ActionReceipt) {
    && ActionIssues(k, row, a) == {} && ActionBinds(Some(doc), Some(eventId), a) && Linked(pre, a)
    && Held(Some(doc), a.effectStartedAt)
  }

  lemma ActionOnSays(
    x: Candidate, pre: PreEffect, effectStartedAt: real, completedAt: real, outcome: Word, result: Option<Text>,
    observedSize: Option<int>, failureCode: Option<Word>, enforcement: Receipt)
    ensures
      var c := ActionOn(x, pre, effectStartedAt, completedAt, outcome, result, observedSize, failureCode, enforcement);
      && c.receiptDigest == c.OwnDigest() && c.enforcement == enforcement && c.enforcementDigest == Digest(enforcement.ToJson())
      && c.results == Map(SortBy(enforcement.results, ResultKey), Project)
  {
    hide SortBy, Receipt.ToJson, ActionReceiptId, Projected.ToJson;
  }

  /** What the results of a permit's receipt come to. */
  lemma ResultsFit(r: Request, p: Policy, results: seq<ObligationResult>)
    requires Evaluate(r, p).effect == "permit" && 1 <= ClassOf(r)
    requires SortBy(results, ResultKey) == SortBy(Map(Evaluate(r, p).obligations, Fulfilled), ResultKey)
    ensures (forall o | o in results :: o.satisfied) && Distinct(Map(results, ResultPair)) && Met(results) == FIXED_OBLIGATIONS
  {
    hide Evaluate, Derive, SortBy, Decision.ToJson, Entry, PairOf;
    OrderedResults(r, p, results);
    SatisfiesExactly(results, Evaluate(r, p));
    SatisfiedResults(results, r, p);
    PermitIsSupported(r, p);
  }

  /** The checks of the enforcement receipt, with those that bind it to the permit, add up to this:
      it is the one the controller builds. */
  lemma EnforcementExactly(x: Candidate, now: real, a: ActionReceipt)
    requires x.Accepted(now) && Publishing(x, now).doc.eligible
    requires a.requestDigest == Publishing(x, now).request.Digest() && a.decisionDigest == Publishing(x, now).decision.Digest()
    requires a.actionDigest == Enforced(Publishing(x, now).request) && a.destination == x.destination
    requires a.bindingDigest == x.attempt.bindingDigest
    ensures
      && EnforcementFits(a)
      && a.enforcement.receiptId == EnforcementId(a.decisionDigest, a.destination, a.requestDigest, a.bindingDigest)
      && ResultsMatch(Entry(Publishing(x, now).doc.decision, 6), a.enforcement.results)
      <==>
      var e := Enforcement(x, now, a.effectStartedAt, a.completedAt, a.outcome, a.resultDigest);
      && a.enforcement.(results := []) == e.(results := [])
      && SortBy(a.enforcement.results, ResultKey) == SortBy(e.results, ResultKey)
      && a.enforcementDigest == Digest(a.enforcement.ToJson())
      && a.results == Map(SortBy(a.enforcement.results, ResultKey), Project)
  {
    hide Evaluate, Request.ToJson, Policy.ToJson, Decision.ToJson, Derive, Receipt.ToJson, Publishing, Enforced, ResultsMatch,
         Entry, SortBy, Met, EnforcementId, PublicationPolicy;
    var permit := Publishing(x, now);
    PublicationDocument(x, now);
    OrderedResults(permit.request, permit.policy, a.enforcement.results);
    if ResultsMatch(Entry(permit.doc.decision, 6), a.enforcement.results) {
      ResultsFit(permit.request, permit.policy, a.enforcement.results);
    }
    EnforcementIsDigest(a);
  }

  lemma EnforcementIsDigest(a: ActionReceipt)
    ensures IsDigest(EnforcementId(a.decisionDigest, a.destination, a.requestDigest, a.bindingDigest))
  {
  }

  /** Everything that the action repeats of the announcement and of the controller's own. */
  predicate Repeats(pre: PreEffect, a: ActionReceipt) {
    && Linked(pre, a) && a.executorId == EXECUTOR && a.accepted && a.scanned
    && a.receiptId == ActionReceiptId(a.destination, a.preEffectDigest, a.bindingDigest)
  }

  lemma ControllerRepeats(x: Candidate, now: real, eventId: Text, row: Row, pre: PreEffect, a: ActionReceipt)
    requires AsAnnounced(x, now, eventId, row, pre)
    ensures
      var c := ControllerAction(x, now, pre, a.effectStartedAt, a.completedAt, a.outcome, a.resultDigest, a.observedSize,
                                a.failureCode);
      a.(enforcement := c.enforcement, receiptDigest := c.receiptDigest) == c <==>
        Repeats(pre, a) && a.enforcementDigest == Digest(c.enforcement.ToJson())
        && a.results == Map(SortBy(c.enforcement.results, ResultKey), Project)
  {
    hide Publishing, Enforcement, ActionOf, SortBy, Receipt.ToJson, PreEffect.OwnDigest, ActionReceipt.OwnDigest,
         ActionReceiptId;
  }

  lemma RepeatsBinds(x: Candidate, now: real, k: Records, eventId: Text, row: Row, pre: PreEffect, a: ActionReceipt)
    requires x.Accepted(now) && Publishing(x, now).doc.eligible && AsAnnounced(x, now, eventId, row, pre)
    requires Linked(pre, a) && Consistent(k.facts, x.attempt)
    ensures
      var doc := Publishing(x, now).doc;
      && a.requestDigest == Publishing(x, now).request.Digest() && a.decisionDigest == Publishing(x, now).decision.Digest()
      && a.actionDigest == Enforced(Publishing(x, now).request) && a.destination == x.destination && a.artifact == x.artifact
      && a.size == x.size && a.bindingDigest == x.attempt.bindingDigest && Some(a.bindingDigest) == k.facts.bindingDigest
      && k.facts.permissionClass == Some(a.requestedClass)
      && (ActionBinds(Some(doc), Some(eventId), a) <==>
            && a.enforcement.receiptId == EnforcementId(a.decisionDigest, a.destination, a.requestDigest, a.bindingDigest)
            && ResultsMatch(Entry(doc.decision, 6), a.enforcement.results))
  {
    hide Evaluate, Request.ToJson, Policy.ToJson, Decision.ToJson, Derive, Publishing, ResultsMatch, Entry, EnforcementId,
         PublicationPolicy, PreEffect.OwnDigest, IsIdentifier, Lineage, ActionOf, Enforced;
    PublicationDocument(x, now);
    RequestIsEnforced(Publishing(x, now).request, Publishing(x, now).doc);
  }

  lemma RepeatsIsWellFormed(x: Candidate, now: real, eventId: Text, row: Row, pre: PreEffect, a: ActionReceipt)
    requires x.Accepted(now) && Publishing(x, now).doc.eligible && AsAnnounced(x, now, eventId, row, pre) && IsDigest(eventId)
    requires Repeats(pre, a) && IsDigest(a.enforcementDigest)
    requires OutcomeFits(a.outcome, a.artifact, a.size, a.resultDigest, a.observedSize, a.failureCode)
    ensures WellRecorded(a)
  {
    hide Publishing, IsIdentifier, Lineage;
    EligibleTold(x, now);
    ActionIsDigest(Publishing(x, now).doc);
  }

  /** The checks of the action receipt add up to this: it is the one the controller builds for the
      announcement and the permit, completed in order and within the permit's window. */
  lemma ActionExactly(
    x: Candidate, now: real, k: Records, eventId: Text, preRow: Row, pre: PreEffect, row: Row, a: ActionReceipt)
    requires x.Accepted(now) && Publishing(x, now).doc.eligible && Consistent(k.facts, x.attempt) && IsDigest(eventId)
    requires AsAnnounced(x, now, eventId, preRow, pre)
    ensures CleanAction(k, Publishing(x, now).doc, eventId, row, pre, a) <==> AsActed(x, now, row, pre, a)
  {
    hide Evaluate, Request.ToJson, Policy.ToJson, Decision.ToJson, Derive, Receipt.ToJson, Publishing, Enforced, ResultsMatch,
         Entry, SortBy, EnforcementId, PublicationPolicy, ActionIssues, ActionBinds, Linked, PermitHeld, WellRecorded,
         EnforcementFits, OutcomeFits, SameAction, Enforcement, ActionOn, ActionReceipt.OwnDigest, ActionReceiptId,
         IsIdentifier, Announcement;
    var doc := Publishing(x, now).doc;
    var c := ControllerAction(x, now, pre, a.effectStartedAt, a.completedAt, a.outcome, a.resultDigest, a.observedSize,
                              a.failureCode);
    var e := Enforcement(x, now, a.effectStartedAt, a.completedAt, a.outcome, a.resultDigest);
    PublicationDocument(x, now);
    HeldByWindow(Publishing(x, now).decision, a.effectStartedAt);
    ActionParts(k, row, a);
    ActionOnSays(x, pre, a.effectStartedAt, a.completedAt, a.outcome, a.resultDigest, a.observedSize, a.failureCode, e);
    SameActionFields(a, c);
    ControllerRepeats(x, now, eventId, preRow, pre, a);
    if Linked(pre, a) {
      RepeatsBinds(x, now, k, eventId, preRow, pre, a);
      EnforcementExactly(x, now, a);
      if a.enforcement.(results := []) == e.(results := [])
         && SortBy(a.enforcement.results, ResultKey) == SortBy(e.results, ResultKey) {
        SameEnforcement(a.enforcement, e);
      }
      if Repeats(pre, a) && IsDigest(a.enforcementDigest)
         && OutcomeFits(a.outcome, a.artifact, a.size, a.resultDigest, a.observedSize, a.failureCode) {
        RepeatsIsWellFormed(x, now, eventId, preRow, pre, a);
      }
      StartsLinked(pre, a);
    }
  }

  lemma StartsLinked(pre: PreEffect, a: ActionReceipt)
    requires Linked(pre, a)
    ensures a.startedAt == pre.startedAt
  {
  }

  lemma SameEnforcement(a: Receipt, b: Receipt)
    requires a.(results := []) == b.(results := []) && SortBy(a.results, ResultKey) == SortBy(b.results, ResultKey)
    ensures a.ToJson() == b.ToJson()
  {
    hide SortBy;
    ReceiptInOrder(a);
    ReceiptInOrder(b);
    assert Ordered(a) == a.(results := []).(results := SortBy(a.results, ResultKey));
    assert Ordered(b) == b.(results := []).(results := SortBy(b.results, ResultKey));
  }
}
