/** One whole attempt that the gates authorize, from admission to its artifact. */
module SampleRun {
  import opened Prelude
  import opened Canon
  import opened Sequences
  import opened Authorization
  import opened Evaluator
  import opened EvaluatorLaws
  import opened Receipts
  import opened Proposals
  import opened Admission
  import opened AdmissionInspection
  import opened RunRecords
  import opened EnforcingDecisions
  import opened DispatchBoundary
  import opened PublicationBoundary
  import opened PublicationReceipts
  import opened RunInspection
  import opened RunHistories
  import opened Witnesses

  const SOURCE := "task_contract"
  const ASSESSED :=
    Assessment(false, false, "not_applicable", "high", "not_applicable", "unknown", "mock", MOCK, None)
  const ACCOUNT :=
    Accounting(false, [], true, false, "not_applicable", Some("in_memory_mock"), None, Some(false), true, "none", "none",
               Some(false), "not_applicable", true, "succeeded", 1, None, Some(false), "not_applicable", Some(1.0))

  function Task(): Attempt { Sample(false) }
  function TaskLineage(): Text { Lineage(SOURCE, Task().definitionHash, Task().requestClass, Task().intent) }
  function TaskDispatch(): DispatchAttempt {
    DispatchAttempt(Task(), ASSESSED, ASSESSED.Digest(), SOURCE, TaskLineage())
  }

  /** The rest of the run's records. */
  function TaskRecords(): Records {
    var x := Task();
    Records(
      Facts(x.runId, x.runDirectory, Some(1), true, Some(x.bindingDigest), Some(x.selectionDigest),
            Binding(x.RunRef(), x.ProfileRef(), x.profileVersionRef, x.profileConfigurationDigest, x.contextDigest,
                    x.promptDigest, Digest(x.intent.ToJson()), x.number, Digest(x.outputSchema), x.ApprovalsDigest(),
                    x.RepositoryRef(), Digest(x.overrides), x.definitionHash, x.timeout, x.WorkspaceRef(),
                    x.selectionDigest)),
      MOCK, MOCK, Some(x.profileId), Some(x.intent), Some(TaskLineage()), Some(ASSESSED), Some(ACCOUNT), None)
  }

  function TaskResult(): Text { DispatchResult(ACCOUNT, TaskRecords().facts.RunRef(), MOCK) }
  function TaskExecution(now: real): DispatchReceipt {
    ControllerReceipt(TaskDispatch(), now, now, now, "succeeded", Some(TaskResult()))
  }

  function Draft(now: real): Metadata {
    Metadata(Lit("artifact-1"), Task().runId, "draft", Lit("/runs/1/draft.md"), DIGEST, Lit("text/markdown"), 1, Some(now),
             true, true)
  }

  function TaskCandidate(now: real): Candidate {
    var a, m := Dispatching(TaskDispatch(), now), Draft(now);
    Candidate(Task(), SOURCE, TaskLineage(), a.request.Digest(), a.decision.Digest(), TaskExecution(now).receiptDigest,
              ACCOUNT.Digest(), ACCOUNT.Disposition(), m.artifact, m.Destination(), m.Digest(), m.kind, m.size, true, true,
              true)
  }

  const SHADOW := Shadowed(true, None, None)

  function TaskAnnouncement(now: real): PreEffect {
    Announcement(TaskCandidate(now), Publishing(TaskCandidate(now), now).doc, DIGEST, SHADOW, now)
  }
  function TaskAction(now: real): ActionReceipt {
    ControllerAction(TaskCandidate(now), now, TaskAnnouncement(now), now, now, "succeeded", Some(DIGEST), Some(1), None)
  }

  /** Its history, everything at one moment. */
  function TaskStory(now: real, admitted: ReceiptPayload): Story {
    Story(
      ToPayload(AuthorizationOf(Task(), now)), admitted, Dispatching(TaskDispatch(), now).doc, TaskExecution(now),
      Publishing(TaskCandidate(now), now).doc, DIGEST, TaskAnnouncement(now), TaskAction(now),
      Conclusion(true, true, true, true, true, false, false, "succeeded"), Draft(now), now)
  }

  lemma TaskIsRecorded(now: real)
    requires now >= 0.0
    ensures Task().Accepted(now) && Task().Typed() && TaskDispatch().Accepted(now) && TaskDispatch().Typed()
    ensures Recorded(TaskRecords(), TaskDispatch())
  {
    hide Lineage, Intent.ToJson, Assessment.Digest;
    SampleIsAccepted(false, now);
    assert |"run-1"| == 5;
  }

  lemma TaskIsClassOne(now: real)
    ensures ClassOf(BareDispatch(TaskDispatch(), now)) == 1 && ClassOf(BarePublication(TaskCandidate(now), now)) == 1
  {
    hide DispatchParameters, PublicationParameters, Dispatching, TaskExecution, Lineage, Assessment.Digest;
  }

  lemma TaskIsDispatched(now: real)
    requires now >= 0.0
    ensures
      var a := Dispatching(TaskDispatch(), now);
      && a.doc.eligible && InWindow(a.decision, now)
      && BuildDispatchReceipt(TaskDispatch(), a, now, now, "succeeded", Some(TaskResult())) == Ok(TaskExecution(now))
  {
    hide Dispatching, BuildDispatchReceipt, ControllerReceipt, DispatchAttempt.Accepted, DispatchAttempt.Typed, Lineage,
         Assessment.Digest, BareDispatch, Recorded, DispatchResult;
    TaskIsRecorded(now);
    TaskIsClassOne(now);
    DispatchGateExactly(TaskDispatch(), now);
    DispatchDocument(TaskDispatch(), now);
    DispatchIssued(TaskDispatch(), now);
    DispatchReceiptBuilds(TaskDispatch(), now, now, now, "succeeded", Some(TaskResult()));
  }

  lemma DispatchIssued(x: DispatchAttempt, now: real)
    ensures Dispatching(x, now).decision.issuedAt == now
  {
    hide Evaluate, Proposed, BareDispatch, PolicyOf, CommonBlocks, ObligationsSupported, DecisionMatches, WrapperOf;
    BareMoment(x, now);
    ProposedSame(DISPATCH_SCOPE, BareDispatch(x, now));
    DecisionBinds(Proposed(DISPATCH_SCOPE, BareDispatch(x, now)), PolicyOf(x.attempt));
  }

  lemma PublicationIssued(x: Candidate, now: real)
    ensures Publishing(x, now).decision.issuedAt == now
  {
    hide Evaluate, Proposed, BarePublication, PublicationPolicy, CommonBlocks, ObligationsSupported, DecisionMatches,
         PublicationWrapperOf, PublicationBlocks;
    PublicationMoment(x, now);
    ProposedSame(PUBLICATION_SCOPE, BarePublication(x, now));
    DecisionBinds(Proposed(PUBLICATION_SCOPE, BarePublication(x, now)), PublicationPolicy());
  }

  lemma TaskIsAdmitted(now: real) returns (admitted: ReceiptPayload)
    requires now >= 0.0
    ensures AdmittedBy(TaskStory(now, admitted), Task(), now, now, now)
  {
    hide TaskExecution, TaskCandidate, TaskAnnouncement, TaskAction, Dispatching, Publishing, ToPayload, BuildReceipt,
         AuthorizationOf, Sample, Attempt.Accepted, Attempt.Typed;
    SampleIsAccepted(false, now);
    SampleIsAuthorized(now);
    ReceiptExactly(Task(), now, now, now);
    AdmissionIssued(Task(), now);
    admitted := BuildReceipt(AuthorizationOf(Task(), now), now, now).value;
  }

  lemma AdmissionIssued(x: Attempt, now: real)
    requires now >= 0.0
    ensures AuthorizationOf(x, now).decision.issuedAt <= now < AuthorizationOf(x, now).decision.expiresAt
  {
    hide AdmissionRequest, AdmissionPolicy, Evaluate, Blocks, ObligationsSupported, DecisionMatches;
    GateDecision(x, now);
  }

  lemma CandidateIsAccepted(now: real)
    requires now >= 0.0
    ensures TaskCandidate(now).Accepted(now)
  {
    hide Lineage, Dispatching, Request.ToJson, Decision.ToJson, Receipt.ToJson, Accounting.ToJson, Accounting.Disposition;
    SampleIsAccepted(false, now);
    DraftIsIdentifier();
    assert IsDigest(TaskExecution(now).receiptDigest);
  }

  lemma DraftIsIdentifier()
    ensures IsIdentifier("draft")
  {
  }

  lemma DispatchIsNamed(now: real)
    requires now >= 0.0
    ensures
      var a := Dispatching(TaskDispatch(), now);
      RequestOf(Some(a.doc)) == Some(a.request.Digest()) && DecisionDigestOf(Some(a.doc)) == Some(a.decision.Digest())
  {
    hide Dispatching, DispatchAttempt.Accepted, DispatchAttempt.Typed, Recorded, Request.ToJson, Decision.ToJson, TaskDispatch;
    TaskIsRecorded(now);
    TaskIsDispatched(now);
    DispatchDocument(TaskDispatch(), now);
  }

  lemma ExecutionSucceeds(now: real)
    ensures TaskExecution(now).receipt.outcome == "succeeded" && ACCOUNT.Harmless()
  {
    hide Dispatching, DispatchReceiptId, Enforced, Receipt.ToJson, TaskDispatch, TaskResult;
  }

  function TaskTrail(now: real): Trail {
    Trail(TaskRecords(), Some(Dispatching(TaskDispatch(), now).doc), Some(TaskExecution(now)), None)
  }

  lemma TrailIsRecorded(now: real)
    requires now >= 0.0
    ensures TrailRecorded(TaskTrail(now), TaskCandidate(now))
  {
    hide Dispatching, TaskLineage, Intent.ToJson, Accounting.ToJson, Accounting.Disposition, TaskExecution, RequestOf,
         DecisionDigestOf, Request.ToJson, Decision.ToJson, Metadata.Digest, Metadata.Destination, Consistent,
         DispatchAttempt.Accepted, DispatchAttempt.Typed, TaskDispatch, Accounting.Harmless, Attempt.Accepted, Attempt.Typed;
    TaskIsRecorded(now);
    DispatchIsNamed(now);
    ExecutionSucceeds(now);
    RecordsAreOfTask();
  }

  lemma RecordsAreOfTask()
    ensures Consistent(TaskRecords().facts, Task()) && TaskRecords().intent == Some(Task().intent)
    ensures Task().ownMockRunner && Task().legacyExecutable && Task().requestClass == Task().contractClass
  {
    hide TaskLineage, Intent.ToJson;
  }

  lemma TaskIsEligible(now: real)
    requires now >= 0.0
    ensures TaskCandidate(now).Accepted(now) && TaskCandidate(now).attempt == Task()
    ensures Publishing(TaskCandidate(now), now).doc.eligible && InWindow(Publishing(TaskCandidate(now), now).decision, now)
  {
    hide Publishing, Candidate.Accepted, BarePublication, TaskExecution, Dispatching, Evaluate, Metadata.Digest,
         Metadata.Destination, TaskLineage;
    var p := TaskCandidate(now);
    CandidateIsAccepted(now);
    TaskIsClassOne(now);
    PublicationGateExactly(p, now);
    PublicationDocument(p, now);
    PublicationIssued(p, now);
  }

  lemma TaskIsPublished(now: real, admitted: ReceiptPayload)
    requires now >= 0.0
    ensures PublishedBy(TaskStory(now, admitted), TaskCandidate(now), now, SHADOW, now, now, now)
  {
    hide Publishing, BuildAction, ControllerAction, Announcement, Candidate.Accepted, TaskExecution, Dispatching, ToPayload,
         AuthorizationOf, Evaluate, Metadata.Digest, Metadata.Destination, TaskLineage, Sample, TaskDispatch, Authorizes;
    var p := TaskCandidate(now);
    TaskIsEligible(now);
    RecordsAreOfTask();
    TaskAuthorizes(now);
    ActionBuilds(p, now, TaskAnnouncement(now), now, now, "succeeded", Some(DIGEST), Some(1), None);
    AnnouncementStarts(p, Publishing(p, now).doc, DIGEST, SHADOW, now);
  }

  lemma AnnouncementStarts(x: Candidate, doc: Document, eventId: Text, shadow: Shadowed, startedAt: real)
    ensures Announcement(x, doc, eventId, shadow, startedAt).startedAt == startedAt
  {
    hide PreEffect.OwnDigest;
  }

  lemma TaskAuthorizes(now: real)
    requires now >= 0.0 && TaskCandidate(now).Accepted(now) && Publishing(TaskCandidate(now), now).doc.eligible
    ensures Authorizes(Publishing(TaskCandidate(now), now).doc, DIGEST)
  {
    hide Publishing, Candidate.Accepted, TaskCandidate, Evaluate, Decision.ToJson, Request.ToJson, Policy.ToJson, Entry;
    var a := Publishing(TaskCandidate(now), now);
    PublicationDocument(TaskCandidate(now), now);
    DecisionEntries(a.decision);
    DecisionBinds(a.request, a.policy);
  }

  lemma TaskIsAccountedFor(now: real)
    ensures
      AccountedFor(TaskTrail(now).(intended := Some(TaskAnnouncement(now))), [TaskAnnouncement(now).disposition, TaskAction(now).disposition])
    ensures MetadataFits(TaskRecords(), TaskAction(now), [Draft(now)])
  {
    hide Dispatching, Publishing, TaskExecution, Accounting.Disposition, Metadata.Digest, Metadata.Destination, ActionOf,
         Enforcement, PreEffect.OwnDigest, ActionReceipt.OwnDigest, Receipt.ToJson, SortBy, Task;
  }

  /** The history of the task raises no issue: what the laws of runs ask for can all be had. */
  lemma SampleRunIsClean(now: real) returns (admitted: ReceiptPayload)
    requires now >= 0.0
    ensures RunIssues(RunOf(TaskStory(now, admitted), TaskRecords())) == {}
  {
    hide RunIssues, RunOf, TaskExecution, TaskCandidate, TaskAnnouncement, TaskAction, Dispatching, Publishing, ToPayload,
         AuthorizationOf, Recorded, TrailRecorded, AdmittedBy, PublishedBy, AccountedFor, MetadataFits, Attempt.Accepted,
         DispatchAttempt.Accepted, DispatchAttempt.Typed, BuildDispatchReceipt, TaskLineage, Intent.ToJson;
    admitted := TaskIsAdmitted(now);
    TaskIsRecorded(now);
    TaskIsDispatched(now);
    TrailIsRecorded(now);
    TaskIsPublished(now, admitted);
    TaskIsAccountedFor(now);
    CandidateIsOfTask(now);
    AuthorizedAttemptIsClean(TaskStory(now, admitted), TaskRecords(), TaskDispatch(), TaskCandidate(now), SHADOW,
                             (now, now, now), (now, now, now), (now, now, now, now));
  }

  lemma CandidateIsOfTask(now: real)
    ensures TaskCandidate(now).attempt == TaskDispatch().attempt
  {
    hide Dispatching, TaskExecution, TaskLineage;
  }
}
