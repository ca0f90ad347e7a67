/** What the boundaries of a clean run rest on, in the fields of the run's own records. */
module RunGrounds {
  import opened Prelude
  import opened Canon
  import opened Authorization
  import opened Evaluator
  import opened PermissionClasses
  import opened CanonicalParsing
  import opened Proposals
  import opened Admission
  import opened AdmissionInspection
  import opened RunRecords
  import opened EnforcingDecisions
  import opened DispatchBoundary
  import opened PublicationBoundary
  import opened PublicationReceipts
  import opened RunInspection
  import opened RunLaws

  // ---- Dispatch.

  /** The mock route, verified with high confidence for the mock runner, of a Class 1 run. */
  predicate OnMockRoute(k: Records) {
    && k.facts.permissionClass == Some(1) && k.assessment.Some?
    && k.assessment.value.runnerId == Lit("mock") && k.assessment.value.route == "mock"
    && k.assessment.value.confidence == "high"
  }

  /** The recorded intent of the task is that of a local draft. */
  predicate DraftIntended(k: Records) {
    && k.intent.Some?
    && LocalDraft(k.intent.value.guarded, k.intent.value.sensitivity, k.intent.value.consequences)
  }

  lemma DispatchGrounds(k: Records, doc: Document)
    requires DispatchPermits(k, doc)
    ensures OnMockRoute(k) && DraftIntended(k)
  {
    hide Evaluate, ReadRequest, ReadPolicy, Policy.ToJson, EvidenceBound, DispatchPolicy, Derive, DispatchBinds,
         DispatchEnvironment, DispatchSubject, RecordedParameters, DispatchIdentifier, Request.ToJson, LocalDraft;
    var r := ReadRequest(doc.request).value;
    ReadIsTyped(doc.request);
    DraftExactly(r.action, r.resource, r.consequences);
  }

  lemma ReadIsTyped(j: Json)
    requires ReadRequest(j).Some?
    ensures ReadRequest(j).value.resource.sensitivity in IMPACTS && ReadRequest(j).value.consequences.Valid()
  {
    hide IsRequestShape, AssembleRequest, Request.ToJson, Consequences.Valid;
  }

  /** A clean run that may be dispatched is a Class 1 run on the mock route, of a task that intends
      no more than a local draft. */
  lemma DispatchRestsOn(run: Run)
    requires RunIssues(run) == {} && Schema(run) in DISPATCH_ENFORCING && Eligible(run, Dispatch)
    ensures OnMockRoute(run.records) && DraftIntended(run.records)
  {
    hide RunIssues, Schema, Eligible, DecisionOf, CleanlyDecided, DispatchPermits, OnMockRoute, DraftIntended;
    EligibleIsPermitted(run);
    DispatchGrounds(run.records, DecisionOf(run, Dispatch).value);
  }

  lemma EligibleIsPermitted(run: Run)
    requires RunIssues(run) == {} && Schema(run) in DISPATCH_ENFORCING && Eligible(run, Dispatch)
    ensures DispatchPermitted(run)
  {
    hide RunIssues, FirstHalfMisplaced, SecondHalfMisplaced, Schema, DispatchDecisionIssues, DispatchReceiptIssues,
         AdmissionDecisionIssues, ArtifactIssues, PublicationDecisionIssues, HistoryIssues, TerminalIssues, DecisionOf,
         AdmissionReceiptIssues, Decisions, MarksOf, CleanlyDecided, DispatchRequired, DispatchPermitted;
    CleanRun(run);
    DecidedWasRequired(run);
    CleanDispatchDecision(run);
    PermittedDispatch(run);
  }

  // ---- Publication.

  /** Nothing was charged or consumed, and nothing is in doubt. */
  predicate Settled(a: Accounting) {
    && a.billingMatches && a.aiCharge == "none" && a.capacity == "not_applicable" && a.paidCapacity == "not_applicable"
    && !a.quarantine && !a.circuitBreaker && a.reasons == []
  }

  /** The controller's own mock runner executed the run, and succeeded at no cost. */
  predicate SucceededAtNoCost(t: Trail) {
    && t.records.bound == Lit("mock") && t.records.facts.selectedMock && t.records.facts.permissionClass == Some(1)
    && t.execution.Some? && t.execution.value.receipt.outcome == "succeeded"
    && t.records.accounting.Some? && Settled(t.records.accounting.value)
  }

  /** The task's recorded intent has no impact beyond the lowest and touches nothing protected. */
  predicate LowImpactIntended(k: Records) { k.intent.Some? && LowImpact(k.intent.value) }

  lemma PublicationGrounds(t: Trail, doc: Document)
    requires PublicationPermits(t, doc)
    ensures SucceededAtNoCost(t) && LowImpactIntended(t.records)
  {
    hide Evaluate, ReadRequest, ReadPolicy, Policy.ToJson, EvidenceBound, PublicationPolicy, Derive, PublicationBinds,
         PublicationEnvironment, AnnouncementProjects, Request.ToJson;
    var r := ReadRequest(doc.request).value;
    ReadIsTyped(doc.request);
    DraftExactly(r.action, r.resource, r.consequences);
  }

  /** A clean run that may be published was executed by the controller's own mock runner, succeeded,
      and cost nothing. */
  lemma PublicationRestsOn(run: Run)
    requires RunIssues(run) == {} && Schema(run) in PUBLICATION_ENFORCING && Eligible(run, Publication)
    ensures SucceededAtNoCost(TrailOf(run)) && LowImpactIntended(run.records)
  {
    hide RunIssues, Schema, Eligible, DecisionOf, CleanlyDecided, PublicationPermits, SucceededAtNoCost, LowImpactIntended,
         TrailOf;
    EligibleIsPublishable(run);
    PublicationGrounds(TrailOf(run), DecisionOf(run, Publication).value);
    TrailIsOfRun(run);
  }

  lemma EligibleWasObserved(run: Run)
    requires Eligible(run, Publication)
    ensures PublicationObserved(run)
  {
    hide Decisions, Statuses, Of, PreEffects, Actions;
  }

  lemma EligibleIsPublishable(run: Run)
    requires RunIssues(run) == {} && Schema(run) in PUBLICATION_ENFORCING && Eligible(run, Publication)
    ensures PublicationPermitted(run)
  {
    hide RunIssues, FirstHalfMisplaced, SecondHalfMisplaced, Schema, DispatchDecisionIssues, DispatchReceiptIssues,
         AdmissionDecisionIssues, ArtifactIssues, PublicationDecisionIssues, HistoryIssues, TerminalIssues, DecisionOf,
         AdmissionReceiptIssues, Decisions, MarksOf, CleanlyDecided, PublicationPermitted, PublicationObserved;
    CleanRun(run);
    EligibleWasObserved(run);
    CleanPublicationDecision(run);
    PermittedPublication(run);
  }

  // ---- The artifact.

  /** What accounting says of a run with an artifact, or with a record of making one; on the mock
      route, that nothing left the process. */
  predicate PaidFor(k: Records) {
    && k.accounting.Some?
    && var a := k.accounting.value;
       && a.observed && a.status == "succeeded" && a.identityMatches && a.billingMatches && !a.quarantine && !a.circuitBreaker
       && (a.capacity == "available" || a.capacity == "not_applicable")
       && (a.paidCapacity == "no" || a.paidCapacity == "not_applicable")
       && a.aiCharge == "none" && a.apiCharge == "none" && a.failureCode == None
       && (k.assessment.Some? && k.assessment.value.route == "mock" ==>
             && a.processStarted == Some(false) && a.liveModel == Some(false) && a.capacityConsumed == Some(false)
             && a.usage == "not_applicable" && a.mode == Some("in_memory_mock"))
  }

  lemma AccountedIsPaidFor(t: Trail, dispositions: seq<Text>)
    requires AccountedFor(t, dispositions)
    ensures PaidFor(t.records)
    ensures forall d | d in dispositions :: t.Disposition() == Some(d)
  {
  }

  predicate RepeatsDisposition(run: Run) {
    var disposition := TrailOf(run).Disposition();
    && (Announced(run).Some? ==> disposition == Some(Announced(run).value.disposition))
    && (ActionTaken(run).Some? ==> disposition == Some(ActionTaken(run).value.disposition))
  }

  /** A clean run with an announcement or an action was paid for, and each repeats its billing
      disposition. */
  lemma ArtifactRestsOn(run: Run)
    requires RunIssues(run) == {} && Schema(run) in PUBLICATION_ENFORCING && (PreEffects(run) != [] || Actions(run) != [])
    ensures PaidFor(run.records)
    ensures RepeatsDisposition(run)
  {
    hide RunIssues, FirstHalfMisplaced, SecondHalfMisplaced, Schema, DispatchDecisionIssues, DispatchReceiptIssues,
         AdmissionDecisionIssues, PublicationDecisionIssues, HistoryIssues, TerminalIssues, DecisionOf, ReceiptsIssues,
         AdmissionReceiptIssues, MarksOf, PreEffects, Actions, Announced, ActionTaken, PaidFor, AccountedFor, TrailOf,
         PresenceIssues, MetadataIssues, Trail.Disposition;
    CleanRun(run);
    AccountedIsPaidFor(TrailOf(run), Dispositions(Announced(run), ActionTaken(run)));
    TrailIsOfRun(run);
  }
}
