/** What the inspector's silence about a run means. */
module RunLaws {
  import opened Prelude
  import opened Canon
  import opened Sequences
  import opened Authorization
  import opened Evaluator
  import opened Receipts
  import opened CanonicalParsing
  import opened Admission
  import opened AdmissionInspection
  import opened Proposals
  import opened RunRecords
  import opened EnforcingDecisions
  import opened DispatchBoundary
  import opened PublicationBoundary
  import opened PublicationReceipts
  import opened RunInspection

  // ---- Order.

  /** Every boundary of a successful run under a schema 5 or 6 binding was recorded. */
  predicate Complete(m: Marks) {
    && m.created.Some? && m.selection.Some? && m.binding.Some? && m.admissionDecision.Some? && m.admissionReceipt.Some?
    && m.admission.Some? && m.billing.Some? && m.dispatchDecision.Some? && m.running.Some? && m.dispatch.Some?
    && m.runnerFirst.Some? && m.runnerLast.Some? && m.runnerFirst.value <= m.runnerLast.value
    && m.dispatchReceipt.Some? && m.accounting.Some? && m.publication.Some? && m.publicationDecision.Some?
    && m.preEffect.Some? && m.action.Some? && m.terminal.Some?
  }

  /** One chain. */
  predicate InOrder(m: Marks) {
    && Complete(m)
    && m.created.value < m.selection.value < m.binding.value < m.admissionDecision.value < m.admissionReceipt.value
    && m.admissionReceipt.value < m.admission.value < m.billing.value < m.dispatchDecision.value < m.running.value
    && m.running.value < m.dispatch.value < m.runnerFirst.value && m.runnerLast.value < m.dispatchReceipt.value
    && m.dispatchReceipt.value < m.accounting.value < m.publication.value < m.publicationDecision.value
    && m.publicationDecision.value < m.preEffect.value < m.action.value < m.terminal.value
  }

  predicate FirstHalfMisplaced(m: Marks) {
    || AdmissionDecisionMisplaced(m) || AdmissionReceiptMisplaced(m) || SelectionMisplaced(m) || BindingMisplaced(m)
    || AdmissionMisplaced(m) || DispatchDecisionMisplaced(m) || BillingMisplaced(m) || DispatchMisplaced(m)
  }

  predicate SecondHalfMisplaced(m: Marks, enforcing: bool) {
    || RunnerMisplaced(m) || DispatchReceiptMisplaced(m) || AccountingMisplaced(m) || PublicationMisplaced(m)
    || PublicationDecisionMisplaced(m) || PreEffectMisplaced(m, enforcing) || ActionMisplaced(m)
  }

  lemma NoOrderIssues(m: Marks, enforcing: bool)
    ensures OrderIssues(m, enforcing) == {} <==>
      !FirstHalfMisplaced(m) && !SecondHalfMisplaced(m, enforcing)
      && !(m.binding.Some? && m.running.Some? && m.billing == None)
  {
    hide AdmissionDecisionMisplaced, AdmissionReceiptMisplaced, SelectionMisplaced, BindingMisplaced, AdmissionMisplaced,
         DispatchDecisionMisplaced, BillingMisplaced, DispatchMisplaced, RunnerMisplaced, DispatchReceiptMisplaced,
         AccountingMisplaced, PublicationMisplaced, PublicationDecisionMisplaced, PreEffectMisplaced, ActionMisplaced;
  }

  lemma ChainIfPlaced(m: Marks)
    requires Complete(m) && !FirstHalfMisplaced(m) && !SecondHalfMisplaced(m, true)
    ensures InOrder(m)
  {
  }

  lemma PlacedIfChain(m: Marks)
    requires Complete(m) && InOrder(m)
    ensures !FirstHalfMisplaced(m) && !SecondHalfMisplaced(m, true)
  {
  }

  /** The scattered checks add up to one chain, no more and no less. */
  lemma OrderExactly(m: Marks)
    requires Complete(m)
    ensures OrderIssues(m, true) == {} <==> InOrder(m)
  {
    hide FirstHalfMisplaced, SecondHalfMisplaced, OrderIssues, InOrder;
    NoOrderIssues(m, true);
    if OrderIssues(m, true) == {} {
      ChainIfPlaced(m);
    } else if InOrder(m) {
      PlacedIfChain(m);
    }
  }

  // ---- Authority before effect.

  /** Selecting events keeps their order. */
  lemma {:induction false} SelectionIsNumbered(events: seq<Event>, keep: Event -> bool)
    requires Numbered(events)
    ensures Numbered(Filter(events, keep))
  {
    if events != [] {
      var init, last := events[..|events| - 1], events[|events| - 1];
      SelectionIsNumbered(init, keep);
      forall e | e in Filter(init, keep) ensures e.sequence < last.sequence {
        var i :| 0 <= i < |init| && init[i] == e;
        assert events[i] == e;
      }
    }
  }

  /** `MIN(sequence)` is no greater than any. */
  lemma FirstIsLeast(rows: seq<Event>, e: Event)
    requires Numbered(rows) && e in rows
    ensures First(rows).Some? && First(rows).value <= e.sequence
  {
    var i :| 0 <= i < |rows| && rows[i] == e;
    if i > 0 { assert rows[0].sequence < rows[i].sequence; }
  }

  lemma PrecedesFirst(mark: Option<nat>, rows: seq<Event>)
    requires Numbered(rows) && mark.Some? && (First(rows).Some? ==> mark.value < First(rows).value)
    ensures Precedes(mark, rows)
  {
    forall e | e in rows ensures mark.value < e.sequence { FirstIsLeast(rows, e); }
  }

  lemma CleanRun(run: Run)
    requires RunIssues(run) == {}
    ensures AdmissionDecisionIssues(run) == {} && AdmissionReceiptIssues(run) == {}
    ensures DispatchDecisionIssues(run) == {} && DispatchReceiptIssues(run) == {}
    ensures PublicationDecisionIssues(run) == {} && ArtifactIssues(run) == {} && TerminalIssues(run) == {}
    ensures HistoryIssues(run) == {} && run.others == {}
    ensures
      var enforcing := Schema(run) in PUBLICATION_ENFORCING;
      !FirstHalfMisplaced(MarksOf(run)) && !SecondHalfMisplaced(MarksOf(run), enforcing)
  {
    hide *;
    hide RunIssues;
    RunIssuesAre(run);
    NoOrderIssues(MarksOf(run), Schema(run) in PUBLICATION_ENFORCING);
  }

  lemma RunIssuesAre(run: Run)
    ensures RunIssues(run) == {} <==>
      && AdmissionDecisionIssues(run) == {} && AdmissionReceiptIssues(run) == {} && DispatchDecisionIssues(run) == {}
      && DispatchReceiptIssues(run) == {} && PublicationDecisionIssues(run) == {} && ArtifactIssues(run) == {}
      && TerminalIssues(run) == {} && HistoryIssues(run) == {} && run.others == {}
      && OrderIssues(MarksOf(run), Schema(run) in PUBLICATION_ENFORCING) == {}
  {
    hide AdmissionDecisionIssues, AdmissionReceiptIssues, DispatchDecisionIssues, DispatchReceiptIssues,
         PublicationDecisionIssues, ArtifactIssues, TerminalIssues, HistoryIssues, OrderIssues, MarksOf, Schema;
  }

  predicate Precedes(mark: Option<nat>, rows: seq<Event>) {
    mark.Some? && forall e | e in rows :: mark.value < e.sequence
  }

  lemma CleanDispatchDecision(run: Run)
    requires DispatchDecisionIssues(run) == {} && Schema(run) in DISPATCH_ENFORCING
    requires Running(run) != [] || (Decisions(run, Dispatch) != [] && DispatchRequired(run))
    ensures Only(Decisions(run, Dispatch)).Some? && CleanlyDecided(run, Dispatch)
  {
    hide DecisionEventIssues, Decisions, Running, Admissions, AdmissionReceipts, DecisionOf, NothingHappened, Stops, Ends,
         DispatchReceipts, Of, Shadows, Schema, Around;
  }

  /** The sole decision at the boundary is eligible. */
  predicate Eligible(run: Run, b: Boundary) { DecisionOf(run, b).Some? && DecisionOf(run, b).value.eligible }
  predicate Refused(run: Run, b: Boundary) { DecisionOf(run, b).Some? && !DecisionOf(run, b).value.eligible }

  lemma StartedMeansEligible(run: Run)
    requires DispatchReceiptIssues(run) == {} && Schema(run) in DISPATCH_ENFORCING
    requires Running(run) != [] || DispatchReceipts(run) != []
    ensures Eligible(run, Dispatch)
    ensures if DispatchReceipts(run) == [] then DispatchStop(run) else Executed(run)
  {
    hide DispatchedIssues, Running, DecisionOf, DispatchReceipts, Schema, NonPermitStop, CleanNonPermit, CleanPermit,
         DispatchStop, Eligible;
    if DispatchReceipts(run) != [] { ExecutedIsHeld(run); } else if DispatchStop(run) { StopIsEligible(run); }
  }

  lemma StopIsEligible(run: Run)
    requires DispatchStop(run)
    ensures Eligible(run, Dispatch)
  {
    hide DecisionEventIssues, Decisions, DecisionOf, NothingHappened, Stops, Ends, Of, First, Only, Around;
  }

  /** There is one dispatch receipt, and nothing is wrong with it. */
  predicate Executed(run: Run) {
    hide DispatchedIssues;
    && |DispatchReceipts(run)| == 1 && Execution(run).Some?
    && DispatchedIssues(run.records, DecisionOf(run, Dispatch), RowOf(DispatchReceipts(run)[0]), Execution(run).value) == {}
  }

  lemma ExecutedIsHeld(run: Run)
    requires Executed(run)
    ensures Eligible(run, Dispatch) && Held(DecisionOf(run, Dispatch), Execution(run).value.receipt.startedAt)
  {
    hide DispatchReceipts, DecisionOf, DispatchedIssues;
    DispatchedIsHeld(run.records, DecisionOf(run, Dispatch), RowOf(DispatchReceipts(run)[0]), Execution(run).value);
  }

  lemma DispatchedIsHeld(k: Records, doc: Option<Document>, row: Row, rp: DispatchReceipt)
    requires DispatchedIssues(k, doc, row, rp) == {}
    ensures doc.Some? && doc.value.eligible && Held(doc, rp.receipt.startedAt)
  {
    hide DispatchReceiptBinds, DispatchReceiptNamed, ActionOf, Entry, ResultsMatch, ResultMatches, Receipt.ToJson, PermitHeld;
    if doc.Some? {
      DispatchReceiptParts(k, doc.value, row, rp);
      HeldIsEligible(doc.value.effect, doc.value.eligible, doc.value.decision, rp.receipt.startedAt);
    }
  }

  /** The one dispatch decision is clean, and the evaluator permits in it the one request that the
      run's own records call for, freshly backed, under the fixed dispatch policy. */
  ghost predicate DispatchPermitted(run: Run) {
    hide *;
    && CleanlyDecided(run, Dispatch) && DecisionOf(run, Dispatch).Some?
    && DispatchPermits(run.records, DecisionOf(run, Dispatch).value)
  }

  /** The one publication decision is clean, and the evaluator permits in it the one request that
      the run's own records call for, freshly backed, under the fixed publication policy. */
  ghost predicate PublicationPermitted(run: Run) {
    hide *;
    && CleanlyDecided(run, Publication) && DecisionOf(run, Publication).Some?
    && PublicationPermits(TrailOf(run), DecisionOf(run, Publication).value)
  }

  lemma DecidedDocument(run: Run, b: Boundary)
    requires CleanlyDecided(run, b)
    ensures DecidedCleanly(run, b)
  {
    hide DocumentIssues, Decisions, DecisionOf, Around;
  }

  predicate DecidedCleanly(run: Run, b: Boundary) {
    hide DocumentIssues, Around;
    && DecisionOf(run, b).Some?
    && DocumentIssues(DecisionOf(run, b).value, Around(run, b, DecisionOf(run, b).value)) == {}
  }

  lemma PermittedDispatch(run: Run)
    requires CleanlyDecided(run, Dispatch) && Eligible(run, Dispatch)
    ensures DispatchPermitted(run)
  {
    hide DocumentIssues, DecisionOf, CleanlyDecided, DispatchAround, DispatchPermits;
    DecidedDocument(run, Dispatch);
    EligibleDispatch(run.records, DecisionOf(run, Dispatch).value);
  }

  lemma PermittedPublication(run: Run)
    requires CleanlyDecided(run, Publication) && Eligible(run, Publication)
    ensures PublicationPermitted(run)
  {
    hide DocumentIssues, DecisionOf, CleanlyDecided, PublicationAround, TrailOf, PublicationPermits;
    DecidedDocument(run, Publication);
    EligiblePublication(TrailOf(run), DecisionOf(run, Publication).value);
  }

  lemma TrailIsOfRun(run: Run)
    ensures TrailOf(run).records == run.records
  {
  }

  lemma DecisionBeforeRunning(m: Marks)
    requires !FirstHalfMisplaced(m) && m.dispatchDecision.Some? && m.running.Some?
    ensures m.dispatchDecision.value < m.running.value
    ensures m.admission.Some? && m.admission.value < m.dispatchDecision.value
  {
  }

  /** No run that the inspector reports clean under an enforcing binding starts executing without
      an earlier dispatch decision that permits this very run's dispatch under the fixed policy. */
  lemma DispatchAuthority(run: Run)
    requires Numbered(run.events) && RunIssues(run) == {} && Schema(run) in DISPATCH_ENFORCING
    requires Running(run) != []
    ensures DispatchPermitted(run) && Precedes(Only(Decisions(run, Dispatch)), Running(run))
  {
    hide RunIssues, FirstHalfMisplaced, SecondHalfMisplaced, DispatchDecisionIssues, DispatchReceiptIssues, DispatchPermitted,
         Decisions, DecisionOf, CleanlyDecided, Schema, AdmissionDecisionIssues, AdmissionReceiptIssues, ArtifactIssues,
         PublicationDecisionIssues, HistoryIssues, TerminalIssues, DispatchStop, Executed;
    CleanRun(run);
    CleanDispatchDecision(run);
    StartedMeansEligible(run);
    PermittedDispatch(run);
    DecisionBeforeRunning(MarksOf(run));
    SelectionIsNumbered(run.events, (e: Event) => e.status == Some("running"));
    PrecedesFirst(Only(Decisions(run, Dispatch)), Running(run));
  }

  // ---- Admission.

  /** The sole admission receipt, when there is one. */
  function ReceiptOf(run: Run): Option<ReceiptPayload> {
    var e := Sole(AdmissionReceipts(run));
    if e.Some? && e.value.body.Admitted? then Some(e.value.body.receipt) else None
  }

  /** There is one admission decision, and nothing is wrong with it. */
  predicate AdmissionDecided(run: Run) {
    hide DecisionIssues;
    && |Admissions(run)| == 1 && AdmissionOf(run).Some?
    && DecisionIssues(run.records.facts, RowOf(Admissions(run)[0]), AdmissionOf(run).value) == {}
  }

  /** There is one admission receipt, and nothing is wrong with it. */
  predicate AdmissionReceipted(run: Run) {
    hide ReceiptIssues;
    && |AdmissionReceipts(run)| == 1 && ReceiptOf(run).Some? && AdmissionOf(run).Some?
    && ReceiptIssues(run.records.facts, AdmissionOf(run).value, RowOf(AdmissionReceipts(run)[0]), ReceiptOf(run).value) == {}
  }

  lemma CleanAdmissionDecision(run: Run)
    requires AdmissionDecisionIssues(run) == {} && Schema(run) in ADMISSION_ENFORCING && Running(run) != []
    ensures AdmissionDecided(run)
  {
    hide DecisionIssues, Admissions, Running, AdmissionReceipts, AdmissionOf, NothingHappened, Stops, Ends, Of, Shadows,
         Schema;
  }

  lemma CleanAdmissionReceipt(run: Run)
    requires AdmissionReceiptIssues(run) == {} && Schema(run) in ADMISSION_ENFORCING && Running(run) != []
    requires AdmissionOf(run).Some?
    ensures AdmissionReceipted(run)
  {
    hide ReceiptIssues, Admissions, Running, AdmissionReceipts, AdmissionOf, NothingHappened, Stops, Ends, Of, Shadows,
         Schema;
  }

  /** The marks are all there, each before the next. */
  predicate InTurn(marks: seq<Option<nat>>) {
    && (forall i | 0 <= i < |marks| :: marks[i].Some?)
    && forall i | 0 < i < |marks| :: marks[i - 1].value < marks[i].value
  }

  /** The evaluator permits the persisted request, and nothing blocks it. */
  ghost predicate AdmissionPermits(w: Payload) {
    hide Evaluate, ReadRequest, ReadPolicy;
    && w.failureStage == None && w.eligible && Reevaluates(w.request, w.policy, w.decision)
    && Evaluate(ReadRequest(w.request).value, ReadPolicy(w.policy).value).effect == "permit"
  }

  /** The attempt was admitted: it was permitted, and the admission took effect inside the window of
      the permit. */
  ghost predicate Granted(run: Run) {
    hide *;
    && AdmissionOf(run).Some? && ReceiptOf(run).Some? && AdmissionPermits(AdmissionOf(run).value)
    && var w := AdmissionOf(run).value;
       PermitHeld(w.effect, w.eligible, w.decision, ReceiptOf(run).value.receipt.startedAt)
  }

  lemma CleanAdmission(f: Facts, row: Row, w: Payload, receiptRow: Row, rp: ReceiptPayload)
    requires DecisionIssues(f, row, w) == {} && ReceiptIssues(f, w, receiptRow, rp) == {}
    ensures AdmissionPermits(w) && PermitHeld(w.effect, w.eligible, w.decision, rp.receipt.startedAt)
  {
    hide DecisionIssues, ReceiptIssues, Evaluate, Reevaluates, PermitHeld, ReadRequest, ReadPolicy, BindingMatches,
         RequestProjects, EvidenceProjects, PolicyProjects, Projects, Decision.ToJson, AdmissionPolicy, Owed;
    CleanReceiptParts(f, w, receiptRow, rp);
    HeldIsEligible(w.effect, w.eligible, w.decision, rp.receipt.startedAt);
    if w.failureStage.Some? { FailureIsNotEligible(f, row, w); }
    CleanParts(f, row, w);
    ReevaluatesReads(w);
    EligibleDecision(f, row, w, ReadRequest(w.request).value, ReadPolicy(w.policy).value);
  }

  lemma ReevaluatesReads(w: Payload)
    requires Reevaluates(w.request, w.policy, w.decision)
    ensures ReadRequest(w.request).Some? && ReadPolicy(w.policy).Some?
  {
    hide ReadRequest, ReadPolicy, Evaluate, Decision.ToJson;
  }

  lemma FailureIsNotEligible(f: Facts, row: Row, w: Payload)
    requires DecisionIssues(f, row, w) == {} && w.failureStage.Some?
    ensures !w.eligible
  {
    hide BindingMatches, EvaluationIssues;
  }

  lemma AdmissionChain(m: Marks)
    requires !FirstHalfMisplaced(m)
    requires m.admissionDecision.Some? && m.admissionReceipt.Some? && m.dispatchDecision.Some? && m.running.Some?
    ensures InTurn([m.admissionDecision, m.admissionReceipt, m.admission, m.dispatchDecision, m.running])
  {
  }

  /** Under an admission-enforcing binding a run that executes was first admitted, and only then
      was its dispatch decided. */
  lemma AdmissionAuthority(run: Run)
    requires Numbered(run.events) && RunIssues(run) == {} && Schema(run) in ADMISSION_ENFORCING
    requires Running(run) != []
    ensures Granted(run)
    ensures InTurn([Only(Admissions(run)), Only(AdmissionReceipts(run)), Last(Of(run, Shadow(AdmissionScope))),
                    Only(Decisions(run, Dispatch)), First(Running(run))])
  {
    hide RunIssues, FirstHalfMisplaced, SecondHalfMisplaced, DispatchDecisionIssues, DispatchReceiptIssues, CleanlyDecided,
         Decisions, DecisionOf, Schema, AdmissionDecisionIssues, AdmissionReceiptIssues, ArtifactIssues, InTurn,
         PublicationDecisionIssues, HistoryIssues, Admissions, AdmissionReceipts, AdmissionOf, ReceiptOf, DecisionIssues,
         ReceiptIssues, AdmissionPermits, PermitHeld, TerminalIssues;
    CleanRun(run);
    CleanAdmissionDecision(run);
    CleanAdmissionReceipt(run);
    CleanAdmission(run.records.facts, RowOf(Admissions(run)[0]), AdmissionOf(run).value, RowOf(AdmissionReceipts(run)[0]),
                   ReceiptOf(run).value);
    CleanDispatchDecision(run);
    AdmissionChain(MarksOf(run));
  }

  // ---- Publication.

  lemma CleanPublicationDecision(run: Run)
    requires PublicationDecisionIssues(run) == {} && Schema(run) in PUBLICATION_ENFORCING && PublicationObserved(run)
    ensures Only(Decisions(run, Publication)).Some? && CleanlyDecided(run, Publication)
  {
    hide DecisionEventIssues, Decisions, DecisionOf, Schema, PublicationObserved, Around;
  }

  /** There is one announcement, and nothing is wrong with it, nor with its place in the run. */
  predicate AnnouncedCleanly(run: Run) {
    hide PreEffectIssues, PreEffectBinds;
    && |PreEffects(run)| == 1 && Announced(run).Some?
    && var pre := Announced(run).value;
       && PreEffectIssues(run.records, RowOf(PreEffects(run)[0]), pre) == {}
       && PreEffectBinds(DecisionOf(run, Publication), PublicationEvent(run), pre)
       && pre.shadowPersisted == (|Of(run, Shadow(PublicationScope))| == 1)
  }

  /** There is one action receipt, nothing is wrong with it, and the announcement, the metadata, the
      accounting and the end of the run are those it calls for. */
  predicate ActedCleanly(run: Run) {
    hide ActionIssues, ActionBinds, Linked, MetadataFits, AccountedFor, TerminalFits, Concludes, TrailOf;
    && |Actions(run)| == 1 && ActionTaken(run).Some? && Announced(run).Some?
    && var pre, a := Announced(run).value, ActionTaken(run).value;
       && ActionIssues(run.records, RowOf(Actions(run)[0]), a) == {}
       && ActionBinds(DecisionOf(run, Publication), PublicationEvent(run), a) && Linked(pre, a)
       && Held(DecisionOf(run, Publication), a.effectStartedAt) && MetadataFits(run.records, a, run.metadata)
       && AccountedFor(TrailOf(run), [pre.disposition, a.disposition]) && TerminalFits(run, a) && Concludes(run, a)
  }

  predicate Effected(run: Run) { AnnouncedCleanly(run) && ActedCleanly(run) }

  /** With one announcement and one action, the checks of the effect are those of `Effected`. */
  lemma EffectedExactly(run: Run)
    requires Schema(run) in PUBLICATION_ENFORCING && |PreEffects(run)| == 1 && |Actions(run)| == 1
    ensures ArtifactIssues(run) == {} && TerminalIssues(run) == {} <==> Effected(run)
  {
    hide *;
    ArtifactParts(run);
    TerminalParts(run);
    EffectedParts(run);
  }

  predicate BothReceipts(run: Run) { |PreEffects(run)| == 1 && |Actions(run)| == 1 && Announced(run).Some? && ActionTaken(run).Some? }

  lemma ArtifactParts(run: Run)
    requires Schema(run) in PUBLICATION_ENFORCING && |PreEffects(run)| == 1 && |Actions(run)| == 1
    ensures BothReceipts(run) && ActionTaken(run).Some?
    ensures ArtifactIssues(run) == {} <==>
      && Eligible(run, Publication) && ReceiptsIssues(run) == {}
      && MetadataFits(run.records, ActionTaken(run).value, run.metadata)
      && AccountedFor(TrailOf(run), Dispositions(Announced(run), ActionTaken(run)))
  {
    hide Schema, DecisionOf, MetadataFits, AccountedFor, TrailOf, MetadataIssues, PreEffects, Actions, Dispositions,
         ReceiptsIssues, PresenceIssues, Announced, ActionTaken;
    BothOnRecord(run);
    BothPresent(run);
    MetadataExactly(run.records, ActionTaken(run), run.metadata);
  }

  lemma BothPresent(run: Run)
    requires BothReceipts(run)
    ensures PresenceIssues(run) == {} <==> Eligible(run, Publication)
  {
    hide FreshnessStop, DecisionOf, PreEffects, Actions, Announced, ActionTaken;
  }

  lemma TerminalParts(run: Run)
    requires Schema(run) in PUBLICATION_ENFORCING && ActionTaken(run).Some?
    ensures TerminalIssues(run) == {} <==> TerminalFits(run, ActionTaken(run).value) && Concludes(run, ActionTaken(run).value)
  {
    hide Schema, TerminalFits, Concludes, ActionTaken;
  }

  lemma EffectedParts(run: Run)
    requires BothReceipts(run)
    ensures Effected(run) <==>
      && Eligible(run, Publication) && ReceiptsIssues(run) == {}
      && MetadataFits(run.records, ActionTaken(run).value, run.metadata)
      && AccountedFor(TrailOf(run), Dispositions(Announced(run), ActionTaken(run)))
      && TerminalFits(run, ActionTaken(run).value) && Concludes(run, ActionTaken(run).value)
  {
    hide DecisionOf, PreEffectIssues, ActionIssues, ActionBinds, Linked, MetadataFits, PreEffectBinds, AccountedFor, TerminalFits,
         Concludes, TrailOf, PermitHeld, PublicationEvent, Of, PreEffects, Actions, Announced, ActionTaken;
    BoundIsEligible(DecisionOf(run, Publication), PublicationEvent(run), Announced(run).value);
    assert Dispositions(Announced(run), ActionTaken(run)) ==
      [Announced(run).value.disposition, ActionTaken(run).value.disposition];
  }

  lemma BothOnRecord(run: Run)
    ensures |PreEffects(run)| == 1 ==> Announced(run).Some?
    ensures |Actions(run)| == 1 ==> ActionTaken(run).Some?
  {
    if |PreEffects(run)| == 1 { assert PreEffects(run)[0] in PreEffects(run); }
    if |Actions(run)| == 1 { assert Actions(run)[0] in Actions(run); }
  }

  lemma BoundIsEligible(doc: Option<Document>, event: Option<Text>, pre: PreEffect)
    ensures PreEffectBinds(doc, event, pre) ==> doc.Some? && doc.value.eligible
  {
  }

  lemma CleanEffect(run: Run)
    requires ArtifactIssues(run) == {} && TerminalIssues(run) == {} && Schema(run) in PUBLICATION_ENFORCING
    requires run.metadata != [] || Actions(run) != []
    ensures Eligible(run, Publication) && Effected(run)
    ensures |PreEffects(run)| == 1 && |Actions(run)| == 1
  {
    hide Schema, DecisionOf, FreshnessStop, Effected, TerminalIssues, ReceiptsIssues, AccountedFor, TrailOf, PreEffects, Actions,
         MetadataIssues;
    BothOnRecord(run);
    MetadataExactly(run.records, ActionTaken(run), run.metadata);
    EffectedExactly(run);
  }

  lemma EffectChain(m: Marks)
    requires !FirstHalfMisplaced(m) && !SecondHalfMisplaced(m, true)
    requires m.publicationDecision.Some? && m.preEffect.Some? && m.action.Some?
    ensures InTurn([m.dispatchDecision, m.running, m.dispatchReceipt, m.publicationDecision, m.preEffect, m.action])
    ensures m.running.Some? && m.dispatchReceipt.Some?
  {
  }

  lemma ReceiptedMeansExecuted(run: Run)
    requires DispatchReceiptIssues(run) == {} && Schema(run) in DISPATCH_ENFORCING && Only(DispatchReceipts(run)).Some?
    ensures Executed(run)
  {
    hide Executed, Schema, DispatchStop, DispatchReceipts, DispatchReceiptIssues, Eligible;
    OneIsSome(run);
    StartedMeansEligible(run);
  }

  lemma OneIsSome(run: Run)
    ensures Only(DispatchReceipts(run)).Some? ==> DispatchReceipts(run) != []
  {
  }

  /** No run that the inspector reports clean under a publication-enforcing binding has an
      artifact, or a record of having produced one, without every authority in turn: the dispatch
      permit before execution, its use inside its window, and the publication permit before the
      announced effect, each for this run and under the fixed policy. */
  lemma EffectAuthority(run: Run)
    requires Numbered(run.events) && RunIssues(run) == {} && Schema(run) in PUBLICATION_ENFORCING
    requires run.metadata != [] || Actions(run) != []
    ensures DispatchPermitted(run) && Executed(run) && PublicationPermitted(run) && Effected(run)
    ensures InTurn([Only(Decisions(run, Dispatch)), First(Running(run)), Only(DispatchReceipts(run)),
                    Only(Decisions(run, Publication)), Only(PreEffects(run)), Only(Actions(run))])
  {
    hide RunIssues, FirstHalfMisplaced, SecondHalfMisplaced, DispatchDecisionIssues, DispatchReceiptIssues, DispatchPermitted,
         Decisions, DecisionOf, Schema, AdmissionDecisionIssues, AdmissionReceiptIssues, ArtifactIssues, InTurn,
         PublicationDecisionIssues, HistoryIssues, TerminalIssues, CleanlyDecided, PublicationPermitted, Effected, Executed,
         Actions, PreEffects, DispatchReceipts;
    CleanRun(run);
    CleanPublicationDecision(run);
    CleanEffect(run);
    PermittedPublication(run);
    EffectChain(MarksOf(run));
    assert Running(run) != [];
    DispatchAuthority(run);
    ReceiptedMeansExecuted(run);
  }

  /** The artifact's content, its place and its own record are those that the request names. */
  predicate NamedBy(doc: Option<Document>, runRef: Text, m: Metadata) {
    hide ReadRequest;
    && doc.Some? && ReadRequest(doc.value.request).Some?
    && var resource := ReadRequest(doc.value.request).value.resource;
       && resource.version == m.artifact && resource.contentDigest == Some(m.artifact)
       && resource.identifier == PublicationIdentifier(m.Digest(), m.Destination(), runRef)
  }

  /** The artifact on record is the one that the evaluator permitted for this run. */
  lemma ArtifactIsPermitted(run: Run, m: Metadata)
    requires Numbered(run.events) && RunIssues(run) == {} && Schema(run) in PUBLICATION_ENFORCING && m in run.metadata
    ensures NamedBy(DecisionOf(run, Publication), run.records.facts.RunRef(), m) && m.runId == run.records.facts.runId
  {
    hide RunIssues, Schema, InTurn, DispatchPermitted, Executed, Evaluate, ReadRequest, ReadPolicy, DecisionOf, CleanlyDecided,
         PublicationPolicy, Policy.ToJson, EvidenceBound, AnnouncementProjects, PublicationBinds, TrailOf, Trail.Safe,
         PublicationIdentifier, ActionIssues, ResultsMatch, Linked, PermitHeld, AccountedFor, TerminalFits, Concludes,
         AnnouncedCleanly, Metadata.Digest, Metadata.Destination, EnforcementId, PublicationEvent, Actions;
    EffectAuthority(run);
    TrailIsOfRun(run);
  }

  // ---- Refusals.

  lemma RefusalIsExact(run: Run)
    requires DispatchReceiptIssues(run) == {} && Schema(run) in DISPATCH_ENFORCING
    requires DispatchReceipts(run) == [] && CleanNonPermit(run)
    ensures NonPermitStop(run)
  {
    hide DispatchStop, NonPermitStop, Schema, Running, DispatchReceipts, CleanNonPermit, CleanPermit;
    NotBoth(run);
  }

  lemma NotBoth(run: Run)
    requires CleanNonPermit(run)
    ensures !CleanPermit(run) && !DispatchStop(run)
  {
    hide CleanlyDecided, DecisionOf, EndsDecided, Stops;
  }

  /** Nothing was executed, accounted for, announced, or made. */
  predicate NoTrace(run: Run) {
    && Running(run) == [] && DispatchReceipts(run) == [] && Of(run, RunnerObserved) == [] && Of(run, Accounted) == []
    && PreEffects(run) == [] && Actions(run) == [] && run.metadata == [] && Statuses(run, "succeeded") == []
  }

  /** How an attempt may end once its dispatch was refused: by status and phase. */
  predicate RefusalEnding(doc: Document, status: Word, phase: Word) {
    || (phase == "mock_dispatch_authorization" && status == "blocked")
    || (phase == "mock_dispatch_authorization_persistence" && (status == "failed" || status == "cancelled"))
    || (phase == "mock_dispatch_authorization_evaluation" && status == "cancelled" && doc.failed
        && doc.effect == "indeterminate")
  }

  /** The one terminal event is recorded under its own identifier, after the one decision, which
      comes after the billing assessment; and it says nothing but how the attempt ended. */
  predicate EndedRefused(run: Run) {
    var billed, decided, ended := Of(run, Billed), Decisions(run, Dispatch), Terminals(run);
    && billed != [] && |decided| == 1 && |ended| == 1 && DecisionOf(run, Dispatch).Some?
    && billed[0].sequence < decided[0].sequence < ended[0].sequence
    && ended[0].identified && ended[0].status.Some? && Latest(run) == ended[0].status
    && ended[0].body.Lifecycle? && ended[0].body.phase.Some? && ended[0].body.observed == None
    && RefusalEnding(DecisionOf(run, Dispatch).value, ended[0].status.value, ended[0].body.phase.value)
  }

  lemma NonPermitStopTells(run: Run)
    requires NonPermitStop(run)
    ensures NoTrace(run) && EndedRefused(run)
  {
    hide Decisions, DecisionOf, Of, Running, DispatchReceipts, PreEffects, Actions, Statuses, Terminals, Latest,
         CleanlyDecided;
    CleanlyDecidedOnce(run);
  }

  lemma CleanlyDecidedOnce(run: Run)
    requires CleanNonPermit(run)
    ensures |Decisions(run, Dispatch)| == 1 && DecisionOf(run, Dispatch).Some?
  {
    hide Decisions, DecisionEventIssues, Around;
  }

  /** A clean run whose dispatch was refused ended there, exactly and without a trace. */
  lemma RefusedDispatchStops(run: Run)
    requires RunIssues(run) == {} && Schema(run) in DISPATCH_ENFORCING && Refused(run, Dispatch)
    ensures NoTrace(run) && EndedRefused(run)
  {
    hide *;
    hide RunIssues;
    RefusalStops(run);
    NonPermitStopTells(run);
  }

  lemma RefusalStops(run: Run)
    requires RunIssues(run) == {} && Schema(run) in DISPATCH_ENFORCING && Refused(run, Dispatch)
    ensures NonPermitStop(run)
  {
    hide RunIssues, FirstHalfMisplaced, SecondHalfMisplaced, DispatchDecisionIssues, Decisions, Schema, NonPermitStop,
         AdmissionDecisionIssues, AdmissionReceiptIssues, ArtifactIssues, PublicationDecisionIssues, DispatchReceiptIssues,
         HistoryIssues, TerminalIssues, DispatchStop, Running, DispatchReceipts, DecisionOf, DispatchRequired, CleanlyDecided,
         Executed;
    CleanRun(run);
    if DispatchReceipts(run) != [] { StartedMeansEligible(run); }
    DecidedWasRequired(run);
    CleanDispatchDecision(run);
    RefusalIsExact(run);
  }

  lemma DecidedWasRequired(run: Run)
    requires DispatchDecisionIssues(run) == {} && DecisionOf(run, Dispatch).Some?
    ensures Decisions(run, Dispatch) != [] && DispatchRequired(run)
  {
    hide Decisions, DispatchRequired, DecisionEventIssues, Around;
  }

  predicate NotAdmitted(run: Run) { AdmissionOf(run).Some? && !AdmissionOf(run).value.eligible }

  /** A clean run that was refused admission has no boundary, no execution and no artifact. */
  lemma RefusedAdmissionStops(run: Run)
    requires RunIssues(run) == {} && Schema(run) in ADMISSION_ENFORCING && NotAdmitted(run)
    ensures AdmissionReceipts(run) == [] && Shadows(run) == [] && Of(run, Billed) == [] && Running(run) == []
    ensures Of(run, Accounted) == [] && Of(run, RunnerObserved) == [] && run.metadata == []
  {
    hide RunIssues, FirstHalfMisplaced, SecondHalfMisplaced, DispatchDecisionIssues, DispatchReceiptIssues, Schema,
         AdmissionDecisionIssues, ArtifactIssues, PublicationDecisionIssues, HistoryIssues, TerminalIssues, AdmissionOf, AdmissionStop,
         AdmissionReceipts, Shadows, Of, Running, PermitHeld, ReceiptBinds, ReceiptNamed, ResultsMatch, ReceiptIssues;
    CleanRun(run);
    if |AdmissionReceipts(run)| == 1 && AdmissionReceipts(run)[0].body.Admitted? {
      var rp := AdmissionReceipts(run)[0].body.receipt;
      CleanReceiptParts(run.records.facts, AdmissionOf(run).value, RowOf(AdmissionReceipts(run)[0]), rp);
      HeldIsEligible(AdmissionOf(run).value.effect, AdmissionOf(run).value.eligible, AdmissionOf(run).value.decision,
                     rp.receipt.startedAt);
    }
  }

  /** How it may end, by status and phase.  The last of these is meant for an attempt that was
      admitted; nothing tells the inspector that this one was not. */
  predicate UnadmittedEnding(doc: Payload, status: Word, phase: Word) {
    || (phase == "task_admission_authorization" && status == "blocked")
    || (phase == "task_admission_authorization_persistence" && (status == "failed" || status == "cancelled"))
    || (phase == "task_admission_authorization_evaluation" && status == "cancelled" && doc.effect == "indeterminate")
    || (phase == "billing_assessment_persistence" && (status == "failed" || status == "cancelled"))
  }

  predicate EndedUnadmitted(run: Run) {
    var ended := Terminals(run);
    && |ended| == 1 && AdmissionOf(run).Some? && ended[0].identified && ended[0].status.Some?
    && Latest(run) == ended[0].status
    && ended[0].body.Lifecycle? && ended[0].body.phase.Some? && ended[0].body.observed == None
    && UnadmittedEnding(AdmissionOf(run).value, ended[0].status.value, ended[0].body.phase.value)
  }

  lemma AdmissionStopTells(run: Run)
    requires AdmissionStop(run) && NotAdmitted(run)
    ensures EndedUnadmitted(run)
  {
    hide AdmissionOf, Of, Running, AdmissionReceipts, PreEffects, Actions, Statuses, Terminals, Latest, Shadows, Bindings,
         NothingHappened;
    AdmissionWasMade(run);
  }

  lemma AdmissionWasMade(run: Run)
    requires AdmissionOf(run).Some?
    ensures Admissions(run) != []
  {
    hide Admissions;
  }

  lemma AbsenceStopTells(run: Run)
    requires AbsenceStop(run) && NotAdmitted(run) && Of(run, Billed) == []
    ensures EndedUnadmitted(run)
  {
    hide AdmissionOf, Of, Running, DispatchReceipts, PreEffects, Actions, Statuses, Terminals, Latest, Shadows, Bindings,
         NothingHappened;
  }

  lemma UndecidedWithoutShadow(run: Run)
    requires Of(run, Shadow(AdmissionScope)) == [] && !FirstHalfMisplaced(MarksOf(run))
    ensures |Decisions(run, Dispatch)| != 1
  {
    hide Decisions, Of, Statuses, Bindings, Admissions, AdmissionReceipts, Running, DispatchReceipts, PreEffects, Actions,
         Terminals;
  }

  lemma NoShadowsOfAdmission(run: Run)
    requires Shadows(run) == []
    ensures Of(run, Shadow(AdmissionScope)) == []
  {
    SomeElement(Of(run, Shadow(AdmissionScope)));
    forall e | e in Of(run, Shadow(AdmissionScope)) ensures e in Shadows(run) {}
  }

  lemma UndecidedStops(run: Run)
    requires DispatchDecisionIssues(run) == {} && Schema(run) in ADMISSION_ENFORCING && |Decisions(run, Dispatch)| != 1
    ensures AdmissionStop(run) || AbsenceStop(run)
  {
    hide AdmissionStop, AbsenceStop, Decisions, DecisionOf, DecisionEventIssues, Around, Schema;
  }

  /** And it ended in one of the ways that are meant for it. */
  lemma RefusedAdmissionEnds(run: Run)
    requires RunIssues(run) == {} && Schema(run) in ADMISSION_ENFORCING && NotAdmitted(run)
    ensures EndedUnadmitted(run)
  {
    hide RunIssues, FirstHalfMisplaced, SecondHalfMisplaced, DispatchDecisionIssues, DispatchReceiptIssues, Schema,
         AdmissionDecisionIssues, ArtifactIssues, PublicationDecisionIssues, HistoryIssues, TerminalIssues, AdmissionOf,
         AdmissionStop, AbsenceStop, AdmissionReceiptIssues, Shadows, Of, Running, EndedUnadmitted, Decisions, MarksOf;
    CleanRun(run);
    RefusedAdmissionStops(run);
    NoShadowsOfAdmission(run);
    UndecidedWithoutShadow(run);
    UndecidedStops(run);
    if AdmissionStop(run) { AdmissionStopTells(run); } else { AbsenceStopTells(run); }
  }

  /** A dispatch decision is reported wherever the admission shadow, which the controller records
      only as well as it can, was lost. */
  lemma LostShadowIsReported(run: Run)
    requires |Decisions(run, Dispatch)| == 1 && Of(run, Shadow(AdmissionScope)) == []
    ensures RunIssues(run) != {}
  {
    hide RunIssues, FirstHalfMisplaced, SecondHalfMisplaced, MarksOf, Decisions, Of, Schema, DispatchDecisionIssues,
         DispatchReceiptIssues, AdmissionDecisionIssues, AdmissionReceiptIssues, ArtifactIssues, PublicationDecisionIssues,
         HistoryIssues, TerminalIssues;
    if RunIssues(run) == {} {
      CleanRun(run);
      UndecidedWithoutShadow(run);
    }
  }

  // ---- Successful runs.

  /** A run under a schema 5 or 6 binding that succeeded, with every boundary recorded once. */
  predicate Successful(run: Run) {
    && Schema(run) in ADMISSION_ENFORCING && Complete(MarksOf(run)) && Statuses(run, "succeeded") != []
    && |Of(run, Shadow(AdmissionScope))| == 1 && |Of(run, Shadow(DispatchScope))| == 1
    && |Of(run, Shadow(PublicationScope))| == 1
  }

  predicate AdmissionRecorded(run: Run) { AdmissionDecided(run) && AdmissionReceipted(run) }

  lemma AdmissionExactly(run: Run)
    requires Successful(run)
    ensures AdmissionDecisionIssues(run) == {} && AdmissionReceiptIssues(run) == {} <==> AdmissionRecorded(run)
  {
    hide ReceiptIssues, DecisionIssues, Running, Of, Stops, Ends, Shadows, Schema, Complete, MarksOf, EffectAfterNonPermit;
    SuccessLeavesTraces(run);
    assert Admissions(run)[0] in Admissions(run) && AdmissionReceipts(run)[0] in AdmissionReceipts(run);
  }

  lemma SuccessLeavesTraces(run: Run)
    requires Successful(run)
    ensures !NothingHappened(run) && |Admissions(run)| == 1 && |AdmissionReceipts(run)| == 1 && |Bindings(run)| == 1
    ensures |Decisions(run, Dispatch)| == 1 && |Decisions(run, Publication)| == 1 && |DispatchReceipts(run)| == 1
    ensures |PreEffects(run)| == 1 && |Actions(run)| == 1 && PublicationObserved(run)
  {
    hide Admissions, AdmissionReceipts, Bindings, Decisions, DispatchReceipts, PreEffects, Actions, Of, Statuses, Running,
         Terminals, Schema;
  }

  lemma DispatchExactly(run: Run)
    requires Successful(run)
    ensures DispatchDecisionIssues(run) == {} && DispatchReceiptIssues(run) == {}
      <==> CleanlyDecided(run, Dispatch) && Executed(run)
  {
    hide DecisionEventIssues, Running, Of, Stops, Ends, Shadows, Schema, Complete, MarksOf, Around, DispatchedIssues,
         NothingHappened, Admissions, AdmissionReceipts, Bindings, CleanPermit, CleanNonPermit, AdmissionOf;
    SuccessLeavesTraces(run);
    assert Decisions(run, Dispatch)[0] in Decisions(run, Dispatch);
    assert DispatchReceipts(run)[0] in DispatchReceipts(run);
  }

  lemma PublicationExactly(run: Run)
    requires Successful(run)
    ensures PublicationDecisionIssues(run) == {} <==> CleanlyDecided(run, Publication)
    ensures ArtifactIssues(run) == {} && TerminalIssues(run) == {} <==> Effected(run)
  {
    hide DecisionEventIssues, Schema, Complete, MarksOf, PublicationObserved, NothingHappened, Of, ArtifactIssues, Effected,
         TerminalIssues, Around;
    SuccessLeavesTraces(run);
    assert Decisions(run, Publication)[0] in Decisions(run, Publication);
    EffectedExactly(run);
  }

  lemma HistoryExactly(run: Run)
    requires Successful(run) && InOrder(MarksOf(run))
    ensures HistoryIssues(run) == {}
  {
    SuccessLeavesTraces(run);
    hide Admissions, AdmissionReceipts, Bindings, Decisions, DispatchReceipts, PreEffects, Actions, Of, Statuses, Running,
         Terminals, Schema;
  }

  /** The inspector reports a successful run clean exactly when each of its three decisions and each
      of its receipts is in itself clean, all boundaries were recorded in one order, and nothing
      speaks against the rows whose contents are no part of this model. */
  lemma SuccessfulExactly(run: Run)
    requires Successful(run)
    ensures RunIssues(run) == {} <==>
      && AdmissionRecorded(run) && CleanlyDecided(run, Dispatch) && Executed(run)
      && CleanlyDecided(run, Publication) && Effected(run) && InOrder(MarksOf(run)) && run.others == {}
  {
    hide *;
    RunIssuesAre(run);
    AdmissionExactly(run);
    DispatchExactly(run);
    PublicationExactly(run);
    SuccessIsEnforced(run);
    OrderExactly(MarksOf(run));
    if InOrder(MarksOf(run)) { HistoryExactly(run); }
  }

  lemma SuccessIsEnforced(run: Run)
    requires Successful(run)
    ensures Schema(run) in PUBLICATION_ENFORCING && Complete(MarksOf(run))
  {
    hide Schema, Complete, MarksOf;
  }
}
