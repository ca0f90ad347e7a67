/** How a run may end that has not come to its end: from a clean history alone, which records
    there are, which there are not, and what its last event says. */
module RunEndings {
  import opened Prelude
  import opened Authorization
  import opened AdmissionInspection
  import opened EnforcingDecisions
  import opened DispatchBoundary
  import opened PublicationReceipts
  import opened RunInspection
  import opened RunLaws

  /** The one terminal event is recorded under its own identifier, is the latest status, and says
      no more than the phase in which the run ended. */
  predicate EndedAs(run: Run, phase: Word, statuses: set<Word>) {
    var ended := Terminals(run);
    && |ended| == 1 && ended[0].identified && ended[0].body == Lifecycle(Some(phase), None)
    && ended[0].status.Some? && ended[0].status.value in statuses && Latest(run) == ended[0].status
  }

  /** There is one such row, and the run ended after it. */
  predicate EndedAfter(run: Run, rows: seq<Event>) {
    |rows| == 1 && |Terminals(run)| == 1 && rows[0].sequence < Terminals(run)[0].sequence
  }

  /** Nothing was executed, accounted for, announced or made, and nothing succeeded. */
  predicate Inert(run: Run) {
    && Of(run, RunnerObserved) == [] && Of(run, Accounted) == [] && PreEffects(run) == [] && Actions(run) == []
    && run.metadata == [] && Statuses(run, "succeeded") == []
  }

  /** Nothing came of the attempt beyond its admission. */
  predicate StoppedAtAdmission(run: Run) {
    && AdmissionReceipts(run) == [] && Of(run, Billed) == [] && Running(run) == [] && Shadows(run) == [] && Inert(run)
    && EndedAfter(run, Bindings(run))
  }

  predicate PermittedAdmission(run: Run) { AdmissionOf(run).Some? && AdmissionOf(run).value.eligible }

  /** The permit, its decision or its receipt came to nothing. */
  predicate AdmissionLapsed(run: Run) {
    || EndedAs(run, "task_admission_authorization_persistence", {"failed", "cancelled"})
    || EndedAs(run, "task_admission_authorization_freshness", {"blocked"})
    || EndedAs(run, "task_admission_action_receipt_persistence", {"failed", "cancelled"})
  }

  lemma AdmissionStopMeans(run: Run)
    requires AdmissionStop(run)
    ensures StoppedAtAdmission(run)
    ensures Admissions(run) == [] ==>
      EndedAs(run, "task_admission_authorization_persistence", {"failed", "cancelled"})
    ensures Admissions(run) != [] ==> EndedAfter(run, Admissions(run))
    ensures Admissions(run) != [] && PermittedAdmission(run) ==> AdmissionLapsed(run)
  {
    hide AdmissionOf, Of, Running, AdmissionReceipts, PreEffects, Actions, Statuses, Terminals, Latest, Shadows, Bindings,
         Admissions;
  }

  lemma UndecidedAdmissionIsStop(run: Run)
    requires AdmissionDecisionIssues(run) == {} && Schema(run) in ADMISSION_ENFORCING && Admissions(run) == []
    ensures AdmissionStop(run)
  {
    hide AdmissionStop, Schema, Admissions, AdmissionOf, DecisionIssues;
  }

  /** A clean run without an admission decision failed to record one, and stopped. */
  lemma UndecidedAdmissionEnds(run: Run)
    requires RunIssues(run) == {} && Schema(run) in ADMISSION_ENFORCING && Admissions(run) == []
    ensures StoppedAtAdmission(run)
    ensures EndedAs(run, "task_admission_authorization_persistence", {"failed", "cancelled"})
  {
    hide RunIssues, FirstHalfMisplaced, SecondHalfMisplaced, DispatchDecisionIssues, DispatchReceiptIssues, Schema,
         ArtifactIssues, PublicationDecisionIssues, HistoryIssues, TerminalIssues, AdmissionOf, EndedAs,
         AdmissionDecisionIssues, AdmissionStop, AdmissionReceiptIssues, StoppedAtAdmission, Admissions, MarksOf;
    CleanRun(run);
    UndecidedAdmissionIsStop(run);
    AdmissionStopMeans(run);
  }

  /** A clean run that was permitted but has no admission receipt stopped before its first boundary:
      the permit had lapsed, or its decision or its receipt could not be recorded. */
  lemma UnreceiptedAdmissionEnds(run: Run)
    requires RunIssues(run) == {} && Schema(run) in ADMISSION_ENFORCING
    requires PermittedAdmission(run) && AdmissionReceipts(run) == []
    ensures StoppedAtAdmission(run) && EndedAfter(run, Admissions(run)) && AdmissionLapsed(run)
  {
    hide RunIssues, FirstHalfMisplaced, SecondHalfMisplaced, DispatchDecisionIssues, DispatchReceiptIssues, Schema,
         ArtifactIssues, PublicationDecisionIssues, HistoryIssues, TerminalIssues, AdmissionOf, EndedAs, EndedAfter,
         AdmissionStop, AdmissionDecisionIssues, StoppedAtAdmission, Admissions, AdmissionReceipts, MarksOf;
    CleanRun(run);
    AdmissionWasMade(run);
    AdmissionStopMeans(run);
  }

  /** Nor did anything come of a refused attempt. */
  lemma RefusedAdmissionIsInert(run: Run)
    requires RunIssues(run) == {} && Schema(run) in ADMISSION_ENFORCING && NotAdmitted(run)
    ensures StoppedAtAdmission(run)
    ensures EndedAs(run, "billing_assessment_persistence", {"failed", "cancelled"}) || EndedAfter(run, Admissions(run))
  {
    hide RunIssues, FirstHalfMisplaced, SecondHalfMisplaced, DispatchDecisionIssues, DispatchReceiptIssues, Schema,
         AdmissionDecisionIssues, ArtifactIssues, PublicationDecisionIssues, HistoryIssues, TerminalIssues, AdmissionOf,
         AdmissionStop, AbsenceStop, AdmissionReceiptIssues, Shadows, Of, Running, Decisions, MarksOf, Inert, EndedAfter,
         EndedAs, Admissions, AdmissionReceipts, Bindings;
    CleanRun(run);
    RefusedAdmissionStops(run);
    NoShadowsOfAdmission(run);
    UndecidedWithoutShadow(run);
    UndecidedStops(run);
    AdmissionWasMade(run);
    if AdmissionStop(run) { AdmissionStopMeans(run); } else { AbsenceStopMeans(run); }
  }

  // ---- Dispatch.

  /** Only the shadow of the admission was recorded, and that before `limit`. */
  predicate OnlyAdmissionShadow(run: Run, limit: Event) {
    forall e | e in Shadows(run) :: e.body == Shadow(AdmissionScope) && e.sequence < limit.sequence
  }

  /** The run ended before its dispatch was decided: without a billing assessment, or with one. */
  predicate EndedUndecided(run: Run) {
    var bills, ended := Of(run, Billed), Terminals(run);
    && DispatchReceipts(run) == [] && Running(run) == [] && Inert(run)
    && EndedAfter(run, Bindings(run)) && EndedAfter(run, Of(run, Selected))
    && if bills == [] then
         && EndedAs(run, "billing_assessment_persistence", {"failed", "cancelled"})
         && OnlyAdmissionShadow(run, ended[0])
       else
         && EndedAfter(run, bills) && EndedAs(run, "mock_dispatch_authorization_persistence", {"failed", "cancelled"})
         && OnlyAdmissionShadow(run, bills[0])
  }

  lemma AbsenceStopMeans(run: Run)
    requires AbsenceStop(run)
    ensures EndedUndecided(run)
  {
    hide Of, Running, DispatchReceipts, PreEffects, Actions, Statuses, Terminals, Latest, Shadows, Bindings;
  }

  /** A clean run that got past its admission but has no dispatch decision failed to record that
      decision, or the billing assessment before it, and stopped. */
  lemma UndecidedDispatchEnds(run: Run)
    requires RunIssues(run) == {} && Schema(run) in DISPATCH_ENFORCING && Decisions(run, Dispatch) == []
    requires Schema(run) in ADMISSION_ENFORCING ==> AdmissionReceipts(run) != [] || Of(run, Billed) != []
    ensures EndedUndecided(run)
  {
    hide RunIssues, FirstHalfMisplaced, SecondHalfMisplaced, DispatchReceiptIssues, Schema, EndedUndecided, Of,
         AdmissionDecisionIssues, ArtifactIssues, PublicationDecisionIssues, HistoryIssues, TerminalIssues, AdmissionReceipts,
         AdmissionStop, AbsenceStop, AdmissionReceiptIssues, Decisions, MarksOf, EndedAs, EndedAfter, StoppedAtAdmission,
         DispatchDecisionIssues;
    CleanRun(run);
    if AdmissionStop(run) { PastAdmission(run); }
    UndecidedDispatchIsStop(run);
    AbsenceStopMeans(run);
  }

  lemma UndecidedDispatchIsStop(run: Run)
    requires DispatchDecisionIssues(run) == {} && Schema(run) in DISPATCH_ENFORCING && Decisions(run, Dispatch) == []
    requires Schema(run) in ADMISSION_ENFORCING ==> !AdmissionStop(run)
    ensures AbsenceStop(run)
  {
    hide AdmissionStop, AbsenceStop, Schema, Decisions, DecisionOf, DecisionEventIssues, Around;
  }

  lemma PastAdmission(run: Run)
    requires AdmissionStop(run)
    ensures AdmissionReceipts(run) == [] && Of(run, Billed) == []
  {
    AdmissionStopMeans(run);
  }

  /** The run ended after a permit to dispatch and without a receipt for it: the permit lapsed,
      before or after the run was marked as running, or it never was so marked. */
  predicate EndedUnreceipted(run: Run) {
    var bills, decided, ended, running := Of(run, Billed), Decisions(run, Dispatch), Terminals(run), Running(run);
    && Inert(run) && EndedAfter(run, decided) && bills != [] && bills[0].sequence < decided[0].sequence
    && if running != [] then
         && EndedAs(run, "mock_dispatch_authorization_freshness", {"blocked", "failed", "cancelled"})
         && decided[0].sequence < running[0].sequence < ended[0].sequence
       else
         || EndedAs(run, "mock_dispatch_authorization_freshness", {"blocked", "failed", "cancelled"})
         || EndedAs(run, "mock_dispatch_authorization_persistence", {"failed", "cancelled"})
         || EndedAs(run, "runner_execution_transition", {"failed", "cancelled"})
  }

  lemma DispatchStopMeans(run: Run)
    requires DispatchStop(run)
    ensures EndedUnreceipted(run)
  {
    hide Of, Running, Decisions, PreEffects, Actions, Statuses, Terminals, Latest, CleanPermit;
  }

  lemma UnreceiptedDispatchEnds(run: Run)
    requires RunIssues(run) == {} && Schema(run) in DISPATCH_ENFORCING
    requires Eligible(run, Dispatch) && DispatchReceipts(run) == []
    ensures EndedUnreceipted(run)
  {
    hide RunIssues, FirstHalfMisplaced, SecondHalfMisplaced, Schema, DispatchDecisionIssues, DispatchReceiptIssues,
         AdmissionDecisionIssues, ArtifactIssues, PublicationDecisionIssues, HistoryIssues, TerminalIssues, DecisionOf,
         AdmissionReceiptIssues, Decisions, MarksOf, EndedUnreceipted, DispatchStop, DispatchReceipts, CleanlyDecided,
         DispatchRequired;
    CleanRun(run);
    DecidedWasRequired(run);
    CleanDispatchDecision(run);
    ReceiptOrStop(run);
    DispatchStopMeans(run);
  }

  predicate Permits(run: Run) { DecisionOf(run, Dispatch).Some? && DecisionOf(run, Dispatch).value.effect == "permit" }

  lemma EligibleIsPermit(run: Run)
    requires CleanlyDecided(run, Dispatch) && Eligible(run, Dispatch)
    ensures Permits(run)
  {
    hide DocumentIssues, CleanlyDecided, DecisionOf, Around, Reevaluates;
    DecidedDocument(run, Dispatch);
    var doc := DecisionOf(run, Dispatch).value;
    EligibleIsAuthority(doc, Around(run, Dispatch, doc));
  }

  lemma PermitIsClean(run: Run)
    requires CleanlyDecided(run, Dispatch) && Eligible(run, Dispatch)
    ensures CleanPermit(run)
  {
    hide Decisions, DecisionOf, DecisionEventIssues, Around, CleanlyDecided;
    EligibleIsPermit(run);
  }

  lemma ReceiptOrStop(run: Run)
    requires DispatchReceiptIssues(run) == {} && Schema(run) in DISPATCH_ENFORCING
    requires CleanlyDecided(run, Dispatch) && Eligible(run, Dispatch)
    requires DispatchReceipts(run) == []
    ensures DispatchStop(run)
  {
    hide Schema, DispatchReceipts, DispatchStop, CleanlyDecided, Running, CleanNonPermit, NonPermitStop, DecisionOf;
    PermitIsClean(run);
  }

  // ---- Publication.

  /** A clean run that was permitted to publish but has no receipt of the action had announced it,
      and stopped because the permit had lapsed. */
  lemma UnreceiptedPublicationEnds(run: Run)
    requires RunIssues(run) == {} && Schema(run) in PUBLICATION_ENFORCING
    requires Eligible(run, Publication) && Actions(run) == []
    ensures |PreEffects(run)| == 1 && EndedAfter(run, Decisions(run, Publication))
    ensures EndedAs(run, "local_candidate_publication_authorization_freshness", {"blocked"})
  {
    hide RunIssues, FirstHalfMisplaced, SecondHalfMisplaced, Schema, DispatchDecisionIssues, DispatchReceiptIssues,
         AdmissionDecisionIssues, PublicationDecisionIssues, HistoryIssues, TerminalIssues, DecisionOf, ReceiptsIssues,
         AdmissionReceiptIssues, Decisions, MarksOf, FreshnessStop, PreEffects, Actions, EndedAs, EndedAfter, Announced,
         ActionTaken;
    CleanRun(run);
    FreshnessStopMeans(run);
  }

  lemma FreshnessStopMeans(run: Run)
    ensures FreshnessStop(run) ==>
      && EndedAfter(run, Decisions(run, Publication))
      && EndedAs(run, "local_candidate_publication_authorization_freshness", {"blocked"})
  {
    hide Decisions, DecisionOf, Terminals, Latest;
  }

  /** A clean run that was refused publication has neither announced nor made anything. */
  lemma RefusedPublicationLeavesNothing(run: Run)
    requires RunIssues(run) == {} && Schema(run) in PUBLICATION_ENFORCING && !Eligible(run, Publication)
    ensures PreEffects(run) == [] && Actions(run) == [] && run.metadata == []
  {
    hide RunIssues, FirstHalfMisplaced, SecondHalfMisplaced, Schema, DispatchDecisionIssues, DispatchReceiptIssues,
         AdmissionDecisionIssues, PublicationDecisionIssues, HistoryIssues, TerminalIssues, DecisionOf, ReceiptsIssues,
         AdmissionReceiptIssues, MarksOf, FreshnessStop, PreEffects, Actions, Announced, ActionTaken;
    CleanRun(run);
  }

  /** A clean run under such a binding that claims success, or has left anything of a publication,
      was decided upon once. */
  lemma SuccessWasDecided(run: Run)
    requires RunIssues(run) == {} && Schema(run) in PUBLICATION_ENFORCING
    requires
      || Statuses(run, "succeeded") != [] || Of(run, Shadow(PublicationScope)) != [] || PreEffects(run) != []
      || Actions(run) != [] || run.metadata != []
    ensures |Decisions(run, Publication)| == 1 && DecidedCleanly(run, Publication)
  {
    hide RunIssues, FirstHalfMisplaced, SecondHalfMisplaced, Schema, DispatchDecisionIssues, DispatchReceiptIssues,
         AdmissionDecisionIssues, PublicationDecisionIssues, HistoryIssues, TerminalIssues, ArtifactIssues, Statuses, Of,
         AdmissionReceiptIssues, MarksOf, PreEffects, Actions, Decisions, PublicationDecisionIssues, DecidedCleanly,
         PublicationObserved;
    CleanRun(run);
    assert PublicationObserved(run) by { WasObserved(run); }
    PublicationWasDecided(run);
  }

  lemma WasObserved(run: Run)
    requires
      || Statuses(run, "succeeded") != [] || Of(run, Shadow(PublicationScope)) != [] || PreEffects(run) != []
      || Actions(run) != [] || run.metadata != []
    ensures PublicationObserved(run)
  {
    hide Statuses, Of, PreEffects, Actions, Decisions;
  }

  lemma PublicationWasDecided(run: Run)
    requires PublicationDecisionIssues(run) == {} && Schema(run) in PUBLICATION_ENFORCING && PublicationObserved(run)
    ensures |Decisions(run, Publication)| == 1 && DecidedCleanly(run, Publication)
  {
    hide Schema, PublicationObserved, PublicationDecisionIssues, Decisions, CleanlyDecided, DecidedCleanly;
    DecidedOnce(run);
    DecidedDocument(run, Publication);
    CleanlyOne(run);
  }

  lemma CleanlyOne(run: Run)
    requires CleanlyDecided(run, Publication)
    ensures |Decisions(run, Publication)| == 1
  {
    hide Decisions, DecisionOf, DecisionEventIssues, Around;
  }

  lemma DecidedOnce(run: Run)
    requires PublicationDecisionIssues(run) == {} && Schema(run) in PUBLICATION_ENFORCING && PublicationObserved(run)
    ensures CleanlyDecided(run, Publication)
  {
    hide Schema, PublicationObserved, DecisionEventIssues, Decisions, Around;
  }

  // ---- What older bindings have, and what every run has at most once.

  /** No record of a boundary that the binding of the run does not enforce. */
  lemma NothingUnexpected(run: Run)
    requires RunIssues(run) == {}
    ensures Schema(run) !in {5, 6} ==> Admissions(run) == [] && AdmissionReceipts(run) == []
    ensures Schema(run) !in {3, 4, 5, 6} ==> Decisions(run, Dispatch) == [] && DispatchReceipts(run) == []
    ensures Schema(run) !in {4, 5, 6} ==> Decisions(run, Publication) == []
  {
    hide RunIssues, FirstHalfMisplaced, SecondHalfMisplaced, Schema, HistoryIssues, TerminalIssues, ArtifactIssues, MarksOf,
         DispatchDecisionIssues, DispatchReceiptIssues, AdmissionDecisionIssues, AdmissionReceiptIssues,
         PublicationDecisionIssues, Admissions, AdmissionReceipts, Decisions, DispatchReceipts;
    CleanRun(run);
    UnexpectedAdmission(run);
    UnexpectedDispatch(run);
    UnexpectedPublication(run);
  }

  lemma UnexpectedAdmission(run: Run)
    requires AdmissionDecisionIssues(run) == {} && AdmissionReceiptIssues(run) == {}
    ensures Schema(run) !in {5, 6} ==> Admissions(run) == [] && AdmissionReceipts(run) == []
  {
    hide Schema, Admissions, AdmissionReceipts, AdmissionOf, AdmissionStop, EffectAfterNonPermit, DecisionIssues,
         ReceiptIssues;
  }

  lemma UnexpectedDispatch(run: Run)
    requires DispatchDecisionIssues(run) == {} && DispatchReceiptIssues(run) == {}
    ensures Schema(run) !in {3, 4, 5, 6} ==> Decisions(run, Dispatch) == [] && DispatchReceipts(run) == []
  {
    hide Schema, Decisions, DispatchReceipts, DecisionOf, AdmissionStop, DecisionEventIssues, Around, DispatchedIssues,
         DispatchStop, CleanPermit, CleanNonPermit, Running, NonPermitStop;
  }

  lemma UnexpectedPublication(run: Run)
    requires PublicationDecisionIssues(run) == {}
    ensures Schema(run) !in {4, 5, 6} ==> Decisions(run, Publication) == []
  {
    hide Schema, Decisions, DecisionOf, DecisionEventIssues, Around, PublicationObserved;
  }

  predicate StartsBeforeTheEnd(run: Run, rows: seq<Event>) {
    rows != [] ==> Terminals(run) != [] && rows[0].sequence < Terminals(run)[0].sequence
  }

  predicate Bounded(run: Run) {
    && |Bindings(run)| <= 1 && (forall scope: Scope :: |Of(run, Shadow(scope))| <= 1)
    && if Bindings(run) == [] then PreEffects(run) == [] && Actions(run) == []
       else StartsBeforeTheEnd(run, Of(run, Billed)) && StartsBeforeTheEnd(run, Of(run, Accounted))
  }

  /** Every boundary is recorded at most once, there is no artifact without a binding, and a bound
      run that was assessed or accounted for has ended, and only afterwards. */
  lemma HistoryIsBounded(run: Run)
    requires RunIssues(run) == {}
    ensures Bounded(run)
  {
    hide RunIssues, FirstHalfMisplaced, SecondHalfMisplaced, Schema, DispatchDecisionIssues, DispatchReceiptIssues,
         AdmissionDecisionIssues, PublicationDecisionIssues, TerminalIssues, ArtifactIssues, AdmissionReceiptIssues,
         Bindings, Of, PreEffects, Actions, Terminals, Decisions, Statuses, Admissions, AdmissionReceipts, Running,
         DispatchReceipts;
    CleanRun(run);
    forall scope: Scope ensures |Of(run, Shadow(scope))| <= 1 {
      match scope case AdmissionScope => case DispatchScope => case PublicationScope =>
    }
  }

  // ---- The end of an action.

  /** What the last terminal event says of the artifact. */
  predicate SaysObserved(run: Run, said: bool) {
    var ended := Terminals(run);
    && ended != []
    && var last := ended[|ended| - 1].body;
       (last.Lifecycle? && last.observed == Some(said)) || (last.Concluded? && last.conclusion.observed == said)
  }

  /** A run ends as its action did: with a success it succeeded, and says what announcement and
      accounting say; a failed or a cancelled action has left nothing to be observed; and what is
      unknown is quarantined. */
  predicate EndsAsActed(run: Run, a: ActionReceipt) {
    && Latest(run).Some?
    && match a.outcome
       case "succeeded" => ConcludesSuccess(run) && Observed(run.records, a, run.metadata)
       case "failed" => SaysObserved(run, false) && Latest(run).value in {"failed", "quarantined"}
       case "cancelled" => SaysObserved(run, false) && Latest(run).value in {"cancelled", "quarantined"}
       case "unknown" =>
         (SaysObserved(run, false) || SaysObserved(run, true)) && Latest(run).value == "quarantined"
       case _ => Latest(run).value in {"succeeded", "failed", "blocked", "quarantined", "cancelled"}
  }

  predicate ConcludesSuccess(run: Run) {
    var ended := Terminals(run);
    && |ended| == 1 && ended[0].identified && ended[0].status == Some("succeeded") && Latest(run) == Some("succeeded")
    && ended[0].body.Concluded? && Announced(run).Some? && run.records.accounting.Some?
    && Announced(run).value.accepted && Announced(run).value.scanned
    && var accounting := run.records.accounting.value;
       ended[0].body.conclusion
         == Conclusion(true, true, true, true, accounting.billingMatches, accounting.circuitBreaker, accounting.quarantine,
                       accounting.status)
  }

  lemma TerminalExactly(run: Run)
    requires Schema(run) in PUBLICATION_ENFORCING && ActionTaken(run).Some?
    ensures TerminalIssues(run) == {} <==> EndsAsActed(run, ActionTaken(run).value)
  {
    hide Schema, ActionTaken, TerminalFits, Concludes, EndsAsActed;
    FitsAndConcludes(run, ActionTaken(run).value);
  }

  lemma FitsAndConcludes(run: Run, a: ActionReceipt)
    ensures TerminalFits(run, a) && Concludes(run, a) <==> EndsAsActed(run, a)
  {
    hide Terminals, Latest, Announced, Observed, TerminalObserved, SaysObserved, ConcludesSuccess;
    Says(run, true);
    Says(run, false);
    if a.outcome == "succeeded" { SuccessConcludes(run, a); }
    if TerminalObserved(run).Some? { assert TerminalObserved(run).value == true || TerminalObserved(run).value == false; }
  }

  lemma Says(run: Run, said: bool)
    ensures SaysObserved(run, said) <==> TerminalObserved(run) == Some(said)
  {
    hide Terminals;
  }

  lemma SuccessConcludes(run: Run, a: ActionReceipt)
    requires a.outcome == "succeeded"
    ensures Concludes(run, a) <==> ConcludesSuccess(run)
    ensures ConcludesSuccess(run) ==> TerminalObserved(run) == Some(true) && Latest(run) == Some("succeeded")
  {
    hide Terminals, Latest, Announced;
  }
}
