/** The history the controller means to leave, and that the inspector accepts it. */
module RunHistories {
  import opened Prelude
  import opened Canon
  import opened Sequences
  import opened Authorization
  import opened Evaluator
  import opened EvaluatorLaws
  import opened Receipts
  import opened CanonicalParsing
  import opened Admission
  import opened AdmissionInspection
  import opened Proposals
  import opened RunRecords
  import opened EnforcingDecisions
  import opened DispatchBoundary
  import opened PublicationBoundary
  import opened PublicationReceipts
  import opened RunInspection
  import opened RunLaws

  /** What goes into the history of a successful attempt, all of it recorded by `at`; `decided` is
      the identifier of the publication decision. */
  datatype Story = Story(
    admitting: Payload, admitted: ReceiptPayload, dispatch: Document, execution: DispatchReceipt, publication: Document,
    decided: Text, announcement: PreEffect, action: ActionReceipt, conclusion: Conclusion, artifact: Metadata, at: real)

  const LENGTH: nat := 18

  function BodyAt(w: Story, i: nat): Body {
    if i == 1 then Selected
    else if i == 2 then Bound(6)
    else if i == 3 then Admitting(w.admitting)
    else if i == 4 then Admitted(w.admitted)
    else if i == 5 then Shadow(AdmissionScope)
    else if i == 6 then Billed
    else if i == 7 then Decided(Dispatch, w.dispatch)
    else if i == 9 then Shadow(DispatchScope)
    else if i == 10 then RunnerObserved
    else if i == 11 then Dispatched(w.execution)
    else if i == 12 then Accounted
    else if i == 13 then Shadow(PublicationScope)
    else if i == 14 then Decided(Publication, w.publication)
    else if i == 15 then Intended(w.announcement)
    else if i == 16 then Acted(w.action)
    else if i == 17 then Concluded(w.conclusion)
    else Lifecycle(None, None)
  }

  function StatusAt(i: nat): Option<Word> {
    if i == 0 then Some("created") else if i == 8 then Some("running") else if i == 17 then Some("succeeded") else None
  }

  function EventAt(w: Story, i: nat): Event { Event(i, w.at, w.decided, true, StatusAt(i), BodyAt(w, i)) }

  function History(w: Story): seq<Event> { seq(LENGTH, i requires 0 <= i < LENGTH => EventAt(w, i)) }

  /** The one event that a query is after. */
  lemma {:induction false} FilterOne(s: seq<Event>, keep: Event -> bool, k: nat)
    requires k < |s| && keep(s[k]) && forall i | 0 <= i < |s| && i != k :: !keep(s[i])
    ensures Filter(s, keep) == [s[k]]
  {
    var n := |s| - 1;
    if k < n {
      FilterOne(s[..n], keep, k);
    } else {
      SomeElement(Filter(s[..n], keep));
    }
  }

  function RunOf(w: Story, k: Records): Run { Run(History(w), [w.artifact], k, {}) }

  lemma Statused(run: Run, w: Story)
    requires run.events == History(w)
    ensures Statuses(run, "created") == [EventAt(w, 0)] && Statuses(run, "running") == [EventAt(w, 8)]
    ensures Statuses(run, "succeeded") == [EventAt(w, 17)]
  {
    hide BodyAt;
    assert |"created"| == |"running"| == 7 && "created"[0] != "running"[0] && |"succeeded"| == 9;
    FilterOne(run.events, (e: Event) => e.status == Some("created"), 0);
    FilterOne(run.events, (e: Event) => e.status == Some("running"), 8);
    FilterOne(run.events, (e: Event) => e.status == Some("succeeded"), 17);
  }

  lemma NotTerminal()
    ensures "created" !in TERMINAL && "running" !in TERMINAL && "succeeded" in TERMINAL
  {
    assert |"created"| == |"running"| == 7 && |"succeeded"| == 9 && |"failed"| == 6 && |"quarantined"| == 11;
    assert |"blocked"| == 7 && "blocked"[0] == 'b' && "created"[0] == 'c' && "running"[0] == 'r' && |"cancelled"| == 9;
  }

  lemma Ended(run: Run, w: Story)
    requires run.events == History(w)
    ensures Terminals(run) == [EventAt(w, 17)] && Latest(run) == Some("succeeded")
  {
    hide BodyAt;
    NotTerminal();
    FilterOne(run.events, (e: Event) => e.status.Some? && e.status.value in TERMINAL, 17);
    LastStatus(run, w);
  }

  lemma LastStatus(run: Run, w: Story)
    requires run.events == History(w)
    ensures Latest(run) == Some("succeeded")
  {
    hide BodyAt;
    var init, last := run.events[..17], run.events[17];
    assert run.events[..|run.events| - 1] == init && run.events[|run.events| - 1] == last && last.status == Some("succeeded");
  }

  lemma Bodied(run: Run, w: Story, b: Body, k: nat)
    requires run.events == History(w) && k < LENGTH && BodyAt(w, k) == b && k !in {0, 8, 17}
    requires b.Selected? || b.Shadow? || b.Billed? || b.RunnerObserved? || b.Accounted?
    ensures Of(run, b) == [EventAt(w, k)]
  {
    FilterOne(run.events, (e: Event) => e.body == b, k);
  }

  lemma Kinds(run: Run, w: Story)
    requires run.events == History(w)
    ensures Bindings(run) == [EventAt(w, 2)] && Admissions(run) == [EventAt(w, 3)]
    ensures AdmissionReceipts(run) == [EventAt(w, 4)]
  {
    FilterOne(run.events, (e: Event) => e.body.Bound?, 2);
    FilterOne(run.events, (e: Event) => e.body.Admitting?, 3);
    FilterOne(run.events, (e: Event) => e.body.Admitted?, 4);
  }

  lemma Effects(run: Run, w: Story)
    requires run.events == History(w)
    ensures DispatchReceipts(run) == [EventAt(w, 11)]
    ensures PreEffects(run) == [EventAt(w, 15)] && Actions(run) == [EventAt(w, 16)]
  {
    hide DispatchReceipts, PreEffects, Actions;
    Executions(run, w);
    Intentions(run, w);
    Takings(run, w);
  }

  lemma Executions(run: Run, w: Story)
    requires run.events == History(w)
    ensures DispatchReceipts(run) == [EventAt(w, 11)]
  {
    hide StatusAt;
    FilterOne(run.events, (e: Event) => e.body.Dispatched?, 11);
  }

  lemma Intentions(run: Run, w: Story)
    requires run.events == History(w)
    ensures PreEffects(run) == [EventAt(w, 15)]
  {
    hide StatusAt;
    FilterOne(run.events, (e: Event) => e.body.Intended?, 15);
  }

  lemma Takings(run: Run, w: Story)
    requires run.events == History(w)
    ensures Actions(run) == [EventAt(w, 16)]
  {
    hide StatusAt;
    FilterOne(run.events, (e: Event) => e.body.Acted?, 16);
  }

  lemma Decideds(run: Run, w: Story)
    requires run.events == History(w)
    ensures Decisions(run, Dispatch) == [EventAt(w, 7)] && Decisions(run, Publication) == [EventAt(w, 14)]
  {
    FilterOne(run.events, (e: Event) => e.body.Decided? && e.body.boundary == Dispatch, 7);
    FilterOne(run.events, (e: Event) => e.body.Decided? && e.body.boundary == Publication, 14);
  }

  lemma Once(run: Run, w: Story)
    requires run.events == History(w)
    ensures Of(run, Selected) == [EventAt(w, 1)] && Of(run, Shadow(AdmissionScope)) == [EventAt(w, 5)]
    ensures Of(run, Billed) == [EventAt(w, 6)] && Of(run, Shadow(DispatchScope)) == [EventAt(w, 9)]
    ensures Of(run, RunnerObserved) == [EventAt(w, 10)] && Of(run, Accounted) == [EventAt(w, 12)]
    ensures Of(run, Shadow(PublicationScope)) == [EventAt(w, 13)]
  {
    hide Of;
    Bodied(run, w, Selected, 1);
    Bodied(run, w, Shadow(AdmissionScope), 5);
    Bodied(run, w, Billed, 6);
    Bodied(run, w, Shadow(DispatchScope), 9);
    Bodied(run, w, RunnerObserved, 10);
    Bodied(run, w, Accounted, 12);
    Bodied(run, w, Shadow(PublicationScope), 13);
  }

  /** The intended history has every boundary once, in the one order. */
  lemma HistoryIsInOrder(run: Run, w: Story)
    requires run.events == History(w)
    ensures Successful(run) && InOrder(MarksOf(run)) && Numbered(run.events)
  {
    hide Statuses, Running, Terminals, Bindings, Admissions, AdmissionReceipts, DispatchReceipts, PreEffects, Actions,
         Decisions, Of;
    Statused(run, w);
    Ended(run, w);
    Kinds(run, w);
    Effects(run, w);
    Decideds(run, w);
    Once(run, w);
    assert Running(run) == Statuses(run, "running") by { RunningIsStatus(run); }
  }

  lemma RunningIsStatus(run: Run)
    ensures Running(run) == Statuses(run, "running")
  {
  }

  /** The receipts and decisions of the history are those of the story. */
  lemma HistoryTells(run: Run, w: Story)
    requires run.events == History(w) && IsDigest(w.decided)
    ensures AdmissionOf(run) == Some(w.admitting) && ReceiptOf(run) == Some(w.admitted)
    ensures DecisionOf(run, Dispatch) == Some(w.dispatch) && Execution(run) == Some(w.execution)
    ensures DecisionOf(run, Publication) == Some(w.publication) && PublicationEvent(run) == Some(w.decided)
    ensures Announced(run) == Some(w.announcement) && ActionTaken(run) == Some(w.action)
    ensures Sole(Decisions(run, Dispatch)) == Some(EventAt(w, 7)) && Sole(Decisions(run, Publication)) == Some(EventAt(w, 14))
  {
    hide Bindings, Admissions, AdmissionReceipts, DispatchReceipts, PreEffects, Actions, Decisions;
    Kinds(run, w);
    Effects(run, w);
    Decideds(run, w);
  }

  /** The row of an event recorded at the story's end. */
  function RowAt(w: Story, i: nat): Row { Row(Some(i), Some(w.at), true) }
  function ExecutionRow(w: Story): Row { RowAt(w, 11) }
  function AnnouncementRow(w: Story): Row { RowAt(w, 15) }
  function ActionRow(w: Story): Row { RowAt(w, 16) }

  /** Nothing is wrong with the admission, nor with the dispatch and its receipt. */
  predicate StoryAdmits(w: Story, k: Records) {
    hide DecisionIssues, ReceiptIssues;
    && DecisionIssues(k.facts, RowAt(w, 3), w.admitting) == {}
    && ReceiptIssues(k.facts, w.admitting, RowAt(w, 4), w.admitted) == {}
  }

  predicate StoryDispatches(w: Story, k: Records) {
    hide DispatchIssues, DispatchedIssues;
    && DispatchIssues(k, w.dispatch) == {} && 0.0 <= w.dispatch.evaluatedAt <= w.at
    && DispatchedIssues(k, Some(w.dispatch), ExecutionRow(w), w.execution) == {}
  }

  function StoryTrail(w: Story, k: Records): Trail { Trail(k, Some(w.dispatch), Some(w.execution), Some(w.announcement)) }

  /** Nor with the publication, its two receipts, and what they call for. */
  predicate StoryPublishes(w: Story, k: Records) {
    hide PublicationIssues, CleanAnnouncement, CleanAction, MetadataFits, AccountedFor;
    && PublicationIssues(StoryTrail(w, k), w.publication) == {} && 0.0 <= w.publication.evaluatedAt <= w.at
    && CleanAnnouncement(StoryTrail(w, k), w.publication, w.decided, AnnouncementRow(w), w.announcement)
    && w.announcement.shadowPersisted
    && CleanAction(k, w.publication, w.decided, ActionRow(w), w.announcement, w.action) && w.action.outcome == "succeeded"
    && MetadataFits(k, w.action, [w.artifact])
    && AccountedFor(StoryTrail(w, k), [w.announcement.disposition, w.action.disposition])
  }

  /** The terminal event repeats what accounting and announcement say. */
  predicate StoryEnds(w: Story, k: Records) {
    && k.accounting.Some?
    && w.conclusion == Conclusion(true, true, true, true, k.accounting.value.billingMatches,
                                  k.accounting.value.circuitBreaker, k.accounting.value.quarantine, k.accounting.value.status)
  }

  lemma AdmissionIsRecorded(w: Story, k: Records)
    requires StoryAdmits(w, k) && IsDigest(w.decided)
    ensures AdmissionRecorded(RunOf(w, k))
  {
    hide DecisionIssues, ReceiptIssues, Admissions, AdmissionReceipts, AdmissionOf, ReceiptOf;
    HistoryTells(RunOf(w, k), w);
    Kinds(RunOf(w, k), w);
  }

  lemma DecidedFrom(run: Run, b: Boundary, e: Event, doc: Document)
    requires Sole(Decisions(run, b)) == Some(e) && DecisionOf(run, b) == Some(doc) && e.identified
    requires 0.0 <= doc.evaluatedAt <= e.at && DocumentIssues(doc, Around(run, b, doc)) == {}
    ensures CleanlyDecided(run, b)
  {
    hide DocumentIssues, Around, Decisions, DecisionOf;
  }

  lemma DispatchIsRecorded(w: Story, k: Records)
    requires StoryDispatches(w, k) && IsDigest(w.decided)
    ensures CleanlyDecided(RunOf(w, k), Dispatch) && Executed(RunOf(w, k))
  {
    hide DocumentIssues, DispatchAround, DispatchedIssues, Decisions, DecisionOf, DispatchReceipts, Execution, History, BodyAt,
         StatusAt, CleanlyDecided;
    HistoryTells(RunOf(w, k), w);
    Effects(RunOf(w, k), w);
    DecidedFrom(RunOf(w, k), Dispatch, EventAt(w, 7), w.dispatch);
  }

  lemma TrailIsOfStory(w: Story, k: Records)
    requires IsDigest(w.decided)
    ensures TrailOf(RunOf(w, k)) == StoryTrail(w, k)
  {
    hide Decisions, DecisionOf, DispatchReceipts, Execution, Announced, History;
    HistoryTells(RunOf(w, k), w);
  }

  lemma PublicationIsDecided(w: Story, k: Records)
    requires StoryPublishes(w, k) && IsDigest(w.decided)
    ensures CleanlyDecided(RunOf(w, k), Publication)
  {
    hide DocumentIssues, PublicationAround, Decisions, DecisionOf, CleanAnnouncement, CleanAction, MetadataFits, AccountedFor,
         TrailOf, History, BodyAt, StatusAt, StoryTrail, CleanlyDecided;
    HistoryTells(RunOf(w, k), w);
    TrailIsOfStory(w, k);
    DecidedFrom(RunOf(w, k), Publication, EventAt(w, 14), w.publication);
  }

  lemma EffectIsRecorded(w: Story, k: Records)
    requires StoryPublishes(w, k) && StoryEnds(w, k) && IsDigest(w.decided)
    ensures Effected(RunOf(w, k))
  {
    hide PreEffectIssues, PreEffectBinds, ActionIssues, ActionBinds, Linked, Held, AccountedFor, TrailOf, PublicationIssues,
         Decisions, DecisionOf, PreEffects, Actions, Announced, ActionTaken, TerminalFits, Concludes, MetadataFits, Of,
         PublicationEvent;
    var run := RunOf(w, k);
    HistoryTells(run, w);
    TrailIsOfStory(w, k);
    Effects(run, w);
    Once(run, w);
    EndIsRecorded(w, k);
  }

  lemma EndIsRecorded(w: Story, k: Records)
    requires StoryPublishes(w, k) && StoryEnds(w, k) && IsDigest(w.decided)
    ensures TerminalFits(RunOf(w, k), w.action) && Concludes(RunOf(w, k), w.action)
  {
    hide PreEffectBinds, CleanAction, AccountedFor, TrailOf, PublicationIssues, Decisions, DecisionOf, Announced, Terminals,
         Latest, Describes, Matching, PreEffect.OwnDigest;
    var run := RunOf(w, k);
    HistoryTells(run, w);
    Ended(run, w);
    NotTerminal();
    MatchingAll(k, w.action, run.metadata);
    PreEffectParts(k, AnnouncementRow(w), w.announcement);
  }

  /** Completeness: whenever decisions, receipts and end are those of the story, the history that
      records them in order is reported clean. */
  lemma IntendedHistoryIsClean(w: Story, k: Records)
    requires StoryAdmits(w, k) && StoryDispatches(w, k) && StoryPublishes(w, k) && StoryEnds(w, k) && IsDigest(w.decided)
    ensures RunIssues(RunOf(w, k)) == {}
  {
    hide *;
    var run := RunOf(w, k);
    RunOfStory(w, k);
    HistoryIsInOrder(run, w);
    SuccessfulExactly(run);
    AdmissionIsRecorded(w, k);
    DispatchIsRecorded(w, k);
    PublicationIsDecided(w, k);
    EffectIsRecorded(w, k);
  }

  lemma RunOfStory(w: Story, k: Records)
    ensures RunOf(w, k).events == History(w) && RunOf(w, k).others == {}
  {
    hide History;
  }

  // ---- The controller's own attempts.

  /** The story's admission is the gate's, and its receipt the one built for it. */
  predicate AdmittedBy(w: Story, x: Attempt, now: real, startedAt: real, completedAt: real) {
    hide BuildReceipt, ToPayload, AuthorizationOf;
    && x.Accepted(now) && now <= w.at && completedAt <= w.at
    && w.admitting == ToPayload(AuthorizationOf(x, now))
    && BuildReceipt(AuthorizationOf(x, now), startedAt, completedAt) == Ok(w.admitted)
  }

  /** The story's dispatch is the gate's, and its receipt the one built for its success. */
  predicate DispatchedBy(w: Story, k: Records, d: DispatchAttempt, now: real, startedAt: real, completedAt: real) {
    hide Dispatching, BuildDispatchReceipt;
    && d.Accepted(now) && now <= w.at && completedAt <= w.at && w.dispatch == Dispatching(d, now).doc
    && k.accounting.Some? && k.accounting.value.status == "succeeded"
    && BuildDispatchReceipt(d, Dispatching(d, now), startedAt, completedAt, "succeeded",
                            Some(DispatchResult(k.accounting.value, k.facts.RunRef(), k.runner))) == Ok(w.execution)
  }

  /** The story's publication is the gate's, and its receipts those built for its success. */
  predicate PublishedBy(
    w: Story, p: Candidate, now: real, shadow: Shadowed, startedAt: real, effectStartedAt: real, completedAt: real)
  {
    hide Publishing, BuildPreEffect, BuildAction;
    && p.Accepted(now) && now <= w.at && startedAt <= w.at && completedAt <= w.at
    && w.publication == Publishing(p, now).doc && p.attempt.requestClass == p.attempt.contractClass
    && shadow.persisted && shadow.Valid() && IsDigest(w.decided)
    && BuildPreEffect(p, w.publication, w.decided, shadow, startedAt) == Ok(w.announcement)
    && BuildAction(p, Publishing(p, now), w.announcement, effectStartedAt, completedAt, "succeeded", Some(p.artifact),
                   Some(p.size), None) == Ok(w.action)
  }

  lemma AdmittedCleanly(w: Story, k: Records, x: Attempt, now: real, startedAt: real, completedAt: real)
    requires AdmittedBy(w, x, now, startedAt, completedAt) && x.Typed() && x.ownMockRunner && x.legacyExecutable
    requires Consistent(k.facts, x)
    ensures StoryAdmits(w, k)
  {
    hide DecisionIssues, ReceiptIssues, AuthorizationOf, ToPayload, BuildReceipt, Consistent, Attempt.Accepted, Attempt.Typed;
    DecisionAgreement(x, now, k.facts, RowAt(w, 3));
    ReceiptAgreement(x, now, k.facts, RowAt(w, 4), startedAt, completedAt, w.admitted);
  }

  lemma ExecutedAsBuilt(w: Story, k: Records, d: DispatchAttempt, now: real, startedAt: real, completedAt: real)
    requires DispatchedBy(w, k, d, now, startedAt, completedAt)
    ensures Dispatching(d, now).doc.eligible && AsControllerBuilds(d, now, w.execution) && ResultMatches(k, w.execution.receipt)
    ensures w.execution.receipt.completedAt == completedAt
  {
    hide Dispatching, BuildDispatchReceipt, DispatchResult, DispatchAttempt.Accepted, Receipt.ToJson, Evaluate,
         DispatchReceiptId, Enforced, SortBy;
    DispatchReceiptBuilds(d, now, startedAt, completedAt, "succeeded",
                          Some(DispatchResult(k.accounting.value, k.facts.RunRef(), k.runner)));
  }

  lemma DispatchedCleanly(w: Story, k: Records, d: DispatchAttempt, now: real, startedAt: real, completedAt: real)
    requires DispatchedBy(w, k, d, now, startedAt, completedAt) && d.Typed() && d.attempt.legacyExecutable && Recorded(k, d)
    ensures StoryDispatches(w, k)
  {
    hide Dispatching, BuildDispatchReceipt, AsControllerBuilds, ResultMatches, DispatchIssues, DispatchedIssues,
         DispatchAttempt.Typed, Consistent, Lineage, Assessment.Digest;
    ExecutedAsBuilt(w, k, d, now, startedAt, completedAt);
    DispatchAgreement(d, now, k);
    DispatchReceiptExactly(d, now, k, ExecutionRow(w), w.execution);
    DispatchingAt(d, now);
  }

  lemma DispatchingAt(d: DispatchAttempt, now: real)
    ensures Dispatching(d, now).doc.evaluatedAt == now
  {
    hide Evaluate, Bind, DispatchParameters, StageEvidence, CommonBlocks;
  }

  lemma AnnouncedAsBuilt(
    w: Story, p: Candidate, now: real, shadow: Shadowed, startedAt: real, effectStartedAt: real, completedAt: real)
    requires PublishedBy(w, p, now, shadow, startedAt, effectStartedAt, completedAt)
    ensures AsAnnounced(p, now, w.decided, AnnouncementRow(w), w.announcement) && w.announcement.shadowPersisted
  {
    hide Publishing, BuildAction, ActionOf, PreEffect.OwnDigest, Candidate.Accepted, Authorizes;
    AnnouncementDigest(p, w.publication, w.decided, shadow, startedAt);
  }

  lemma ActedAsBuilt(
    w: Story, p: Candidate, now: real, shadow: Shadowed, startedAt: real, effectStartedAt: real, completedAt: real)
    requires PublishedBy(w, p, now, shadow, startedAt, effectStartedAt, completedAt)
    ensures Publishing(p, now).doc.eligible && AsActed(p, now, ActionRow(w), w.announcement, w.action)
    ensures w.action.outcome == "succeeded"
  {
    hide Publishing, BuildAction, BuildPreEffect, Enforcement, SortBy, Receipt.ToJson, ActionReceipt.OwnDigest, Lineage,
         IsIdentifier, ActionReceiptId;
    ActionBuilds(p, now, w.announcement, effectStartedAt, completedAt, "succeeded", Some(p.artifact), Some(p.size), None);
  }

  lemma PublishingAt(p: Candidate, now: real)
    ensures Publishing(p, now).doc.evaluatedAt == now
  {
    hide Evaluate, Bind, PublicationParameters, StageEvidence, CommonBlocks, PublicationWrapperOf, PublicationBlocks;
  }

  lemma PublishedCleanly(
    w: Story, k: Records, p: Candidate, now: real, shadow: Shadowed, startedAt: real, effectStartedAt: real, completedAt: real)
    requires PublishedBy(w, p, now, shadow, startedAt, effectStartedAt, completedAt) && p.attempt.Typed()
    requires TrailRecorded(StoryTrail(w, k).(intended := None), p)
    requires MetadataFits(k, w.action, [w.artifact])
    requires AccountedFor(StoryTrail(w, k), [w.announcement.disposition, w.action.disposition])
    ensures StoryPublishes(w, k)
  {
    hide Publishing, BuildAction, BuildPreEffect, AsAnnounced, AsActed, PublicationIssues, CleanAnnouncement, CleanAction,
         MetadataFits, AccountedFor, Attempt.Typed, IsIdentifier, Lineage, TrailRecorded;
    AnnouncedAsBuilt(w, p, now, shadow, startedAt, effectStartedAt, completedAt);
    ActedAsBuilt(w, p, now, shadow, startedAt, effectStartedAt, completedAt);
    AnnouncementExactly(p, now, StoryTrail(w, k), w.decided, AnnouncementRow(w), w.announcement);
    TrailIsConsistent(w, k, p);
    ActionExactly(p, now, k, w.decided, AnnouncementRow(w), w.announcement, ActionRow(w), w.action);
    PublishingAt(p, now);
  }

  lemma TrailIsConsistent(w: Story, k: Records, p: Candidate)
    requires TrailRecorded(StoryTrail(w, k).(intended := None), p)
    ensures Consistent(k.facts, p.attempt)
  {
    hide Consistent, RequestOf, DecisionDigestOf, Trail.Safe;
  }

  /** Every attempt that all three gates authorize has a clean history: their decisions and the
      receipts that the controller builds for them, each used in its window, raise no issue, once
      the run's other records describe the attempt and its terminal event repeats them. */
  lemma AuthorizedAttemptIsClean(
    w: Story, k: Records, d: DispatchAttempt, p: Candidate, shadow: Shadowed, admission: (real, real, real),
    dispatch: (real, real, real), publication: (real, real, real, real))
    requires AdmittedBy(w, d.attempt, admission.0, admission.1, admission.2)
    requires DispatchedBy(w, k, d, dispatch.0, dispatch.1, dispatch.2) && d.Typed()
    requires PublishedBy(w, p, publication.0, shadow, publication.1, publication.2, publication.3)
    requires p.attempt == d.attempt && d.attempt.ownMockRunner && d.attempt.legacyExecutable
    requires Recorded(k, d) && TrailRecorded(StoryTrail(w, k).(intended := None), p)
    requires MetadataFits(k, w.action, [w.artifact]) && StoryEnds(w, k)
    requires AccountedFor(StoryTrail(w, k), [w.announcement.disposition, w.action.disposition])
    ensures RunIssues(RunOf(w, k)) == {}
  {
    hide AdmittedBy, DispatchedBy, TrailRecorded, MetadataFits, AccountedFor, StoryEnds, RunIssues, Consistent, Attempt.Typed,
         StoryAdmits, StoryDispatches, StoryPublishes, RunOf, Publishing, BuildPreEffect, BuildAction, Candidate.Accepted;
    AdmittedCleanly(w, k, d.attempt, admission.0, admission.1, admission.2);
    DispatchedCleanly(w, k, d, dispatch.0, dispatch.1, dispatch.2);
    PublishedCleanly(w, k, p, publication.0, shadow, publication.1, publication.2, publication.3);
    IntendedHistoryIsClean(w, k);
  }

  // ---- And nobody else's.

  lemma CleanStory(w: Story, k: Records)
    requires RunIssues(RunOf(w, k)) == {} && IsDigest(w.decided)
    ensures DispatchedIssues(k, Some(w.dispatch), ExecutionRow(w), w.execution) == {}
    ensures PublicationIssues(StoryTrail(w, k), w.publication) == {}
    ensures CleanAnnouncement(StoryTrail(w, k), w.publication, w.decided, AnnouncementRow(w), w.announcement)
    ensures CleanAction(k, w.publication, w.decided, ActionRow(w), w.announcement, w.action)
  {
    hide RunIssues, PreEffectIssues, PreEffectBinds, ActionIssues, ActionBinds, Linked, Held, AccountedFor, TrailOf,
         DocumentIssues, PublicationAround, Decisions, DecisionOf, PreEffects, Actions, Announced, ActionTaken, TerminalFits,
         Concludes, MetadataFits, PublicationEvent, DispatchedIssues, Execution, DispatchReceipts, Successful, InOrder,
         AdmissionRecorded, History, DispatchAround, MarksOf, Of;
    var run := RunOf(w, k);
    HistoryIsInOrder(run, w);
    SuccessfulExactly(run);
    HistoryTells(run, w);
    TrailIsOfStory(w, k);
    Effects(run, w);
    DecidedDocument(run, Publication);
  }

  /** Soundness of the same history: where the decisions are the gates' own, no receipt goes
      unchallenged but the ones that the controller builds for them. */
  lemma CleanReceiptsAreTheControllers(
    w: Story, k: Records, d: DispatchAttempt, p: Candidate, dispatchedAt: real, publishedAt: real)
    requires d.Accepted(dispatchedAt) && Consistent(k.facts, d.attempt) && p.Accepted(publishedAt) && p.attempt.Typed()
    requires w.dispatch == Dispatching(d, dispatchedAt).doc && w.publication == Publishing(p, publishedAt).doc
    requires w.dispatch.eligible && w.publication.eligible && IsDigest(w.decided)
    requires TrailRecorded(StoryTrail(w, k).(intended := None), p)
    requires RunIssues(RunOf(w, k)) == {}
    ensures AsControllerBuilds(d, dispatchedAt, w.execution) && ResultMatches(k, w.execution.receipt)
    ensures AsAnnounced(p, publishedAt, w.decided, AnnouncementRow(w), w.announcement)
    ensures AsActed(p, publishedAt, ActionRow(w), w.announcement, w.action)
  {
    hide RunIssues, Dispatching, Publishing, AsControllerBuilds, ResultMatches, AsAnnounced, AsActed, DispatchedIssues,
         PublicationIssues, CleanAnnouncement, CleanAction, Consistent, Attempt.Typed, DispatchAttempt.Accepted,
         Candidate.Accepted, TrailRecorded;
    CleanStory(w, k);
    DispatchReceiptExactly(d, dispatchedAt, k, ExecutionRow(w), w.execution);
    AnnouncementExactly(p, publishedAt, StoryTrail(w, k), w.decided, AnnouncementRow(w), w.announcement);
    TrailIsConsistent(w, k, p);
    ActionExactly(p, publishedAt, k, w.decided, AnnouncementRow(w), w.announcement, ActionRow(w), w.action);
  }
}
