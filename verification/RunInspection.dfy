/** Inspecting the whole history of one run: which events there are, and in what order. */
module RunInspection {
  import opened Prelude
  import opened Canon
  import opened Sequences
  import opened Authorization
  import opened Admission
  import opened AdmissionInspection
  import opened RunRecords
  import opened EnforcingDecisions
  import opened DispatchBoundary
  import opened PublicationBoundary
  import opened PublicationReceipts

  datatype Boundary = Dispatch | Publication
  datatype Scope = AdmissionScope | DispatchScope | PublicationScope

  /** What the terminal event of a successful attempt says. */
  datatype Conclusion = Conclusion(
    accepted: bool, scanned: bool, observed: bool, recorded: bool, billingMatched: bool, circuitBreaker: bool,
    quarantine: bool, runnerStatus: Word)

  /** What an event records.  A lifecycle event has a phase when its payload is nothing else, and
      may say whether the artifact was observed. */
  datatype Body =
    | Lifecycle(phase: Option<Word>, observed: Option<bool>)
    | Concluded(conclusion: Conclusion)
    | Selected
    | Bound(schema: nat)
    | Admitting(payload: Payload)
    | Admitted(receipt: ReceiptPayload)
    | Shadow(scope: Scope)
    | Billed
    | RunnerObserved
    | Accounted
    | Decided(boundary: Boundary, doc: Document)
    | Dispatched(execution: DispatchReceipt)
    | Intended(announcement: PreEffect)
    | Acted(action: ActionReceipt)

  /** `identified` says that the identifier is the one that the event's content calls for. */
  datatype Event = Event(sequence: nat, at: real, id: Text, identified: bool, status: Option<Word>, body: Body)

  /** The events of a run in order, its rows of artifact metadata, and what the inspector makes of
      the rows whose contents are no part of this model: the binding, the selection, the billing
      assessment, the accounting and the shadows.  Their contents count as `records`, and what
      there is to say against them as `others`. */
  datatype Run = Run(events: seq<Event>, metadata: seq<Metadata>, records: Records, others: set<Word>)

  const TERMINAL: set<Word> := {"succeeded", "failed", "blocked", "quarantined", "cancelled"}
  const DISPATCH_ENFORCING: set<nat> := {3, 4, 5, 6}
  const PUBLICATION_ENFORCING: set<nat> := {4, 5, 6}
  const ADMISSION_ENFORCING: set<nat> := {5, 6}

  /** Sequence numbers are unique and increase. */
  predicate Numbered(events: seq<Event>) {
    forall i, j | 0 <= i < j < |events| :: events[i].sequence < events[j].sequence
  }

  // ---- Queries.

  function Rows(run: Run, keep: Event -> bool): seq<Event> { Filter(run.events, keep) }

  /** `SELECT MIN(sequence)` and `SELECT MAX(sequence)` */
  function First(rows: seq<Event>): Option<nat> { if rows == [] then None else Some(rows[0].sequence) }
  function Last(rows: seq<Event>): Option<nat> { if rows == [] then None else Some(rows[|rows| - 1].sequence) }
  /** An event that must be the only one of its kind. */
  function Sole(rows: seq<Event>): Option<Event> { if |rows| == 1 then Some(rows[0]) else None }
  function Only(rows: seq<Event>): Option<nat> { if |rows| == 1 then Some(rows[0].sequence) else None }

  function Statuses(run: Run, s: Word): seq<Event> { Rows(run, (e: Event) => e.status == Some(s)) }
  function Terminals(run: Run): seq<Event> { Rows(run, (e: Event) => e.status.Some? && e.status.value in TERMINAL) }
  function Running(run: Run): seq<Event> { Statuses(run, "running") }
  function Of(run: Run, b: Body): seq<Event> { Rows(run, (e: Event) => e.body == b) }
  function Bindings(run: Run): seq<Event> { Rows(run, (e: Event) => e.body.Bound?) }
  function Shadows(run: Run): seq<Event> { Rows(run, (e: Event) => e.body.Shadow?) }
  function Admissions(run: Run): seq<Event> { Rows(run, (e: Event) => e.body.Admitting?) }
  function AdmissionReceipts(run: Run): seq<Event> { Rows(run, (e: Event) => e.body.Admitted?) }
  function Decisions(run: Run, b: Boundary): seq<Event> { Rows(run, (e: Event) => e.body.Decided? && e.body.boundary == b) }
  function DispatchReceipts(run: Run): seq<Event> { Rows(run, (e: Event) => e.body.Dispatched?) }
  function PreEffects(run: Run): seq<Event> { Rows(run, (e: Event) => e.body.Intended?) }
  function Actions(run: Run): seq<Event> { Rows(run, (e: Event) => e.body.Acted?) }

  function Latest(run: Run): Option<Word> {
    var rows := Rows(run, (e: Event) => e.status.Some?);
    if rows == [] then None else rows[|rows| - 1].status
  }

  function Schema(run: Run): nat {
    var e := Sole(Bindings(run));
    if e.Some? && e.value.body.Bound? then e.value.body.schema else 0
  }

  function AdmissionOf(run: Run): Option<Payload> {
    var e := Sole(Admissions(run));
    if e.Some? && e.value.body.Admitting? then Some(e.value.body.payload) else None
  }

  function DecisionOf(run: Run, b: Boundary): Option<Document> {
    var e := Sole(Decisions(run, b));
    if e.Some? && e.value.body.Decided? then Some(e.value.body.doc) else None
  }

  /** The sole receipt of each kind. */
  function Execution(run: Run): Option<DispatchReceipt> {
    var e := Sole(DispatchReceipts(run));
    if e.Some? && e.value.body.Dispatched? then Some(e.value.body.execution) else None
  }
  function Announced(run: Run): Option<PreEffect> {
    var e := Sole(PreEffects(run));
    if e.Some? && e.value.body.Intended? then Some(e.value.body.announcement) else None
  }
  function ActionTaken(run: Run): Option<ActionReceipt> {
    var e := Sole(Actions(run));
    if e.Some? && e.value.body.Acted? then Some(e.value.body.action) else None
  }

  /** What the publication decision is held against. */
  function TrailOf(run: Run): Trail { Trail(run.records, DecisionOf(run, Dispatch), Execution(run), Announced(run)) }

  function Around(run: Run, b: Boundary, doc: Document): Surroundings {
    if b == Dispatch then DispatchAround(run.records, doc) else PublicationAround(TrailOf(run), doc)
  }

  /** The event of the publication decision, as its receipts have to name it. */
  function PublicationEvent(run: Run): Option<Text> {
    var e := Sole(Decisions(run, Publication));
    if e.Some? && IsDigest(e.value.id) then Some(e.value.id) else None
  }

  // ---- Exact stops.

  /** The run has left no trace of execution or of an artifact. */
  predicate NothingHappened(run: Run) {
    && Statuses(run, "succeeded") == [] && Of(run, Accounted) == [] && Of(run, RunnerObserved) == []
    && PreEffects(run) == [] && Actions(run) == [] && run.metadata == []
  }

  /** The one terminal event is an exact status record of this phase, and still the latest. */
  predicate Stops(run: Run, phase: Word, statuses: set<Word>) {
    var e := Sole(Terminals(run));
    && e.Some? && e.value.body == Lifecycle(Some(phase), None) && e.value.identified
    && e.value.status.Some? && e.value.status.value in statuses && Latest(run) == e.value.status
  }

  /** The one terminal event comes after `earlier`, which there is. */
  predicate Ends(run: Run, earlier: Option<nat>) {
    var last := Only(Terminals(run));
    last.Some? && earlier.Some? && last.value > earlier.value
  }

  /** `_is_task_admission_pre_effect_stop` */
  predicate AdmissionStop(run: Run) {
    var doc := AdmissionOf(run);
    && AdmissionReceipts(run) == [] && Of(run, Billed) == [] && Running(run) == [] && NothingHappened(run)
    && Shadows(run) == [] && Ends(run, Only(Bindings(run)))
    && if Admissions(run) == [] then
         Stops(run, "task_admission_authorization_persistence", {"failed", "cancelled"})
       else
         && Ends(run, Only(Admissions(run))) && doc.Some?
         && (|| Stops(run, "task_admission_authorization_persistence", {"failed", "cancelled"})
             || if doc.value.eligible then
                  && doc.value.effect == "permit"
                  && (|| Stops(run, "task_admission_authorization_freshness", {"blocked"})
                      || Stops(run, "task_admission_action_receipt_persistence", {"failed", "cancelled"}))
                else
                  || Stops(run, "task_admission_authorization", {"blocked"})
                  || (doc.value.effect == "indeterminate"
                      && Stops(run, "task_admission_authorization_evaluation", {"cancelled"})))
  }

  /** `_is_mock_dispatch_decision_absence_stop`: the run ended before there was a decision. */
  predicate AbsenceStop(run: Run) {
    var bills := Of(run, Billed);
    && Ends(run, Only(Bindings(run))) && Ends(run, Only(Of(run, Selected)))
    && DispatchReceipts(run) == [] && Running(run) == [] && NothingHappened(run)
    && (|| (bills == [] && Stops(run, "billing_assessment_persistence", {"failed", "cancelled"}))
        || (|bills| == 1 && Ends(run, First(bills))
            && Stops(run, "mock_dispatch_authorization_persistence", {"failed", "cancelled"})))
    && forall e | e in Shadows(run) ::
         e.body == Shadow(AdmissionScope) && !Early(First(if bills == [] then Terminals(run) else bills), e.sequence)
  }

  /** What both boundaries check of a decision event. */
  function DecisionEventIssues(e: Event, doc: Document, around: Surroundings): set<Word> {
    When(!e.identified, "decision_event_identifier_mismatch")
    + When(doc.evaluatedAt < 0.0 || e.at < doc.evaluatedAt, "decision_timestamp_invalid")
    + DocumentIssues(doc, around)
  }

  /** There is one decision at this boundary, and nothing is wrong with it or its event. */
  predicate CleanlyDecided(run: Run, b: Boundary) {
    hide DocumentIssues, DispatchAround, PublicationAround, DecisionIssues, ReceiptIssues, DispatchedIssues;
    var e, doc := Sole(Decisions(run, b)), DecisionOf(run, b);
    e.Some? && doc.Some? && DecisionEventIssues(e.value, doc.value, Around(run, b, doc.value)) == {}
  }

  predicate CleanPermit(run: Run) {
    hide DocumentIssues, DispatchAround, PublicationAround, DecisionIssues, ReceiptIssues, DispatchedIssues;
    && CleanlyDecided(run, Dispatch) && DecisionOf(run, Dispatch).value.effect == "permit"
    && DecisionOf(run, Dispatch).value.eligible
  }

  predicate CleanNonPermit(run: Run) {
    hide DocumentIssues, DispatchAround, PublicationAround, DecisionIssues, ReceiptIssues, DispatchedIssues;
    CleanlyDecided(run, Dispatch) && !DecisionOf(run, Dispatch).value.eligible
  }

  /** The dispatch decision follows the billing assessment, and the run ended after it. */
  predicate EndsDecided(run: Run) {
    && Ends(run, Only(Decisions(run, Dispatch))) && NothingHappened(run)
    && First(Of(run, Billed)).Some? && !Late(First(Of(run, Billed)), Only(Decisions(run, Dispatch)).value)
  }

  /** `_is_mock_dispatch_pre_effect_stop`, whatever receipts there are. */
  predicate DispatchStop(run: Run) {
    hide DocumentIssues, DispatchAround, PublicationAround, DecisionIssues, ReceiptIssues, DispatchedIssues;
    var running, last := First(Running(run)), Only(Terminals(run));
    && EndsDecided(run) && CleanPermit(run)
    && if Stops(run, "mock_dispatch_authorization_freshness", {"blocked", "cancelled", "failed"}) then
         running == None || Only(Decisions(run, Dispatch)).value < running.value < last.value
       else
         && running == None
         && (|| Stops(run, "mock_dispatch_authorization_persistence", {"failed", "cancelled"})
             || Stops(run, "runner_execution_transition", {"failed", "cancelled"}))
  }

  /** `_is_mock_dispatch_nonpermit_stop` */
  predicate NonPermitStop(run: Run) {
    hide DocumentIssues, DispatchAround, PublicationAround, DecisionIssues, ReceiptIssues, DispatchedIssues;
    var doc := DecisionOf(run, Dispatch);
    && EndsDecided(run) && CleanNonPermit(run) && DispatchReceipts(run) == [] && Running(run) == []
    && (|| Stops(run, "mock_dispatch_authorization_persistence", {"failed", "cancelled"})
        || Stops(run, "mock_dispatch_authorization", {"blocked"})
        || (doc.value.failed && doc.value.effect == "indeterminate"
            && Stops(run, "mock_dispatch_authorization_evaluation", {"cancelled"})))
  }

  /** `_is_local_candidate_publication_freshness_stop` */
  predicate FreshnessStop(run: Run) {
    var doc := DecisionOf(run, Publication);
    && Ends(run, Only(Decisions(run, Publication))) && doc.Some? && doc.value.effect == "permit" && doc.value.eligible
    && Stops(run, "local_candidate_publication_authorization_freshness", {"blocked"})
  }

  // ---- Admission.

  function RowOf(e: Event): Row { Row(Some(e.sequence), Some(e.at), e.identified) }

  /** `_inspect_task_admission_decision` */
  function AdmissionDecisionIssues(run: Run): set<Word> {
    hide DocumentIssues, DispatchAround, PublicationAround, DecisionIssues, ReceiptIssues, DispatchedIssues;
    var rows, doc := Admissions(run), AdmissionOf(run);
    if Schema(run) !in ADMISSION_ENFORCING then When(rows != [], "task_admission_decision_unexpected")
    else if rows == [] then When(!AdmissionStop(run), "task_admission_decision_missing")
    else if |rows| > 1 || doc == None then {"task_admission_decision_duplicate"}
    else DecisionIssues(run.records.facts, RowOf(rows[0]), doc.value)
  }

  predicate EffectAfterNonPermit(run: Run) {
    && AdmissionOf(run).Some? && !AdmissionOf(run).value.eligible
    && (Shadows(run) != [] || Of(run, Billed) != [] || Running(run) != [] || Of(run, Accounted) != []
        || Of(run, RunnerObserved) != [] || run.metadata != [])
  }

  /** `_inspect_task_admission_receipt` */
  function AdmissionReceiptIssues(run: Run): set<Word> {
    var rows, doc := AdmissionReceipts(run), AdmissionOf(run);
    if Schema(run) !in ADMISSION_ENFORCING then When(rows != [], "task_admission_receipt_unexpected")
    else if |rows| != 1 then
      if EffectAfterNonPermit(run) then {"task_admission_effect_after_nonpermit"}
      else if rows != [] then {"task_admission_receipt_duplicate"}
      else When(doc.Some? && doc.value.eligible && !AdmissionStop(run), "task_admission_receipt_missing")
    else if doc == None || !rows[0].body.Admitted? then {"task_admission_receipt_permit_not_current"}
    else ReceiptIssues(run.records.facts, doc.value, RowOf(rows[0]), rows[0].body.receipt)
  }

  // ---- Dispatch.

  predicate DispatchRequired(run: Run) {
    Schema(run) in DISPATCH_ENFORCING && !(Schema(run) in ADMISSION_ENFORCING && AdmissionStop(run))
  }

  /** `_inspect_mock_dispatch_decision` */
  function DispatchDecisionIssues(run: Run): set<Word> {
    hide DocumentIssues, DispatchAround, PublicationAround, DecisionIssues, ReceiptIssues, DispatchedIssues;
    var rows, doc := Decisions(run, Dispatch), DecisionOf(run, Dispatch);
    if !DispatchRequired(run) then When(rows != [], "mock_dispatch_decision_unexpected")
    else if rows == [] then When(!AbsenceStop(run), "mock_dispatch_decision_missing")
    else if |rows| > 1 || doc == None then {"mock_dispatch_decision_duplicate"}
    else DecisionEventIssues(rows[0], doc.value, Around(run, Dispatch, doc.value))
  }

  /** `_inspect_mock_dispatch_receipt` */
  function DispatchReceiptIssues(run: Run): set<Word> {
    hide DocumentIssues, DispatchAround, PublicationAround, DecisionIssues, ReceiptIssues, DispatchedIssues;
    var rows, doc := DispatchReceipts(run), DecisionOf(run, Dispatch);
    if Schema(run) !in DISPATCH_ENFORCING then When(rows != [], "mock_dispatch_receipt_unexpected")
    else if rows == [] then
      if !DispatchStop(run) && (Running(run) != [] || CleanPermit(run)) then {"mock_dispatch_receipt_missing"}
      else When(CleanNonPermit(run) && !NonPermitStop(run), "mock_dispatch_nonpermit_terminal_invalid")
    else if |rows| > 1 || !rows[0].body.Dispatched? then {"mock_dispatch_receipt_duplicate"}
    else
      When(DispatchStop(run), "mock_dispatch_receipt_after_pre_effect_stop")
      + DispatchedIssues(run.records, doc, RowOf(rows[0]), rows[0].body.execution)
  }

  // ---- Publication.

  /** `_local_candidate_publication_boundary_observed` */
  predicate PublicationObserved(run: Run) {
    || Decisions(run, Publication) != [] || Of(run, Shadow(PublicationScope)) != []
    || PreEffects(run) != [] || Actions(run) != [] || run.metadata != [] || Statuses(run, "succeeded") != []
  }

  /** `_inspect_local_candidate_publication_decision` */
  function PublicationDecisionIssues(run: Run): set<Word> {
    hide DocumentIssues, DispatchAround, PublicationAround, DecisionIssues, ReceiptIssues, DispatchedIssues;
    var rows, doc := Decisions(run, Publication), DecisionOf(run, Publication);
    if Schema(run) !in PUBLICATION_ENFORCING then When(rows != [], "local_candidate_publication_decision_unexpected")
    else if !PublicationObserved(run) then {}
    else if rows == [] then {"local_candidate_publication_decision_missing"}
    else if |rows| > 1 || doc == None then {"local_candidate_publication_decision_duplicate"}
    else DecisionEventIssues(rows[0], doc.value, Around(run, Publication, doc.value))
  }

  /** `_inspect_task_artifact_receipts`, of each receipt and of the two together. */
  function ReceiptsIssues(run: Run): set<Word> {
    var k, doc, event, pre, action := run.records, DecisionOf(run, Publication), PublicationEvent(run), Announced(run), ActionTaken(run);
    (if pre.Some? then
       PreEffectIssues(k, RowOf(PreEffects(run)[0]), pre.value)
       + When(!PreEffectBinds(doc, event, pre.value), "local_candidate_publication_receipt_authorization_mismatch")
       + When(pre.value.shadowPersisted != (|Of(run, Shadow(PublicationScope))| == 1),
              "task_publication_shadow_persistence_mismatch")
     else {})
    + (if action.Some? then
         ActionIssues(k, RowOf(Actions(run)[0]), action.value)
         + When(!ActionBinds(doc, event, action.value), "local_candidate_publication_receipt_authorization_mismatch")
         + When(!Held(doc, action.value.effectStartedAt), "local_candidate_publication_receipt_permit_not_current")
       else {})
    + When(pre.Some? && action.Some? && !Linked(pre.value, action.value), "task_publication_receipt_linkage_mismatch")
  }

  function Dispositions(pre: Option<PreEffect>, action: Option<ActionReceipt>): seq<Text> {
    (if pre.Some? then [pre.value.disposition] else []) + if action.Some? then [action.value.disposition] else []
  }

  /** Which receipts there are. */
  function PresenceIssues(run: Run): set<Word> {
    var pre, actions, doc := PreEffects(run), Actions(run), DecisionOf(run, Publication);
    var eligible := doc.Some? && doc.value.eligible;
    When(!eligible && (pre != [] || actions != [] || run.metadata != []), "local_candidate_publication_effect_after_nonpermit")
    + When(pre == [] && eligible, "task_publication_pre_effect_receipt_missing")
    + When(|pre| > 1, "task_publication_pre_effect_receipt_duplicate")
    + When(actions == [] && eligible && !FreshnessStop(run), "task_publication_action_receipt_missing")
    + When(|actions| > 1, "task_publication_action_receipt_duplicate")
    + When(Announced(run) == None && ActionTaken(run).Some?, "task_publication_action_receipt_orphaned")
  }

  /** `_inspect_task_artifact_receipts`, under an enforcing binding; under an older one its
      receipts are no part of this model. */
  function ArtifactIssues(run: Run): set<Word> {
    if Schema(run) !in PUBLICATION_ENFORCING then {}
    else
      PresenceIssues(run) + ReceiptsIssues(run)
      + MetadataIssues(run.records, ActionTaken(run), run.metadata)
      + When((PreEffects(run) != [] || Actions(run) != []) && !AccountedFor(TrailOf(run), Dispositions(Announced(run), ActionTaken(run))),
             "task_publication_billing_or_accounting_mismatch")
  }

  // ---- The terminal event.

  /** Whether the terminal event says that the artifact was observed. */
  function TerminalObserved(run: Run): Option<bool> {
    var rows := Terminals(run);
    if rows == [] then None
    else
      match rows[|rows| - 1].body
      case Lifecycle(_, observed) => observed
      case Concluded(c) => Some(c.observed)
      case _ => None
  }

  /** `_inspect_task_action_terminal_linkage`: the run ended as its action did. */
  predicate TerminalFits(run: Run, a: ActionReceipt) {
    var status, observed := Latest(run), TerminalObserved(run);
    && status.Some? && status.value in TERMINAL
    && if a.outcome == "succeeded" then
         Observed(run.records, a, run.metadata) && observed == Some(true) && status.value in {"succeeded", "quarantined"}
       else if a.outcome == "failed" then observed == Some(false) && status.value in {"failed", "quarantined"}
       else if a.outcome == "cancelled" then observed == Some(false) && status.value in {"cancelled", "quarantined"}
       else a.outcome == "unknown" ==> observed.Some? && status.value == "quarantined"
  }

  /** `_inspect_task_terminal_evidence`: a successful action has one terminal event, which says so
      and repeats what accounting and announcement say. */
  predicate Concludes(run: Run, a: ActionReceipt) {
    a.outcome == "succeeded" ==>
      var e, pre, accounting := Sole(Terminals(run)), Announced(run), run.records.accounting;
      && e.Some? && e.value.identified && e.value.status == Some("succeeded") && Latest(run) == Some("succeeded")
      && e.value.body.Concluded? && pre.Some? && accounting.Some?
      && var c := e.value.body.conclusion;
         && c.accepted && c.recorded && c.observed && c.scanned && pre.value.accepted && pre.value.scanned
         && c.runnerStatus == accounting.value.status && c.billingMatched == accounting.value.billingMatches
         && c.quarantine == accounting.value.quarantine && c.circuitBreaker == accounting.value.circuitBreaker
  }

  function TerminalIssues(run: Run): set<Word> {
    if Schema(run) !in PUBLICATION_ENFORCING || ActionTaken(run) == None then {}
    else
      When(!TerminalFits(run, ActionTaken(run).value), "task_action_receipt_terminal_mismatch")
      + When(!Concludes(run, ActionTaken(run).value), "task_terminal_record_mismatch")
  }

  // ---- Order.

  /** Where each boundary of the run was recorded. */
  datatype Marks = Marks(
    created: Option<nat>, selection: Option<nat>, binding: Option<nat>, admissionDecision: Option<nat>,
    admissionReceipt: Option<nat>, admission: Option<nat>, billing: Option<nat>, dispatchDecision: Option<nat>,
    running: Option<nat>, dispatch: Option<nat>, runnerFirst: Option<nat>, runnerLast: Option<nat>,
    dispatchReceipt: Option<nat>, accounting: Option<nat>, publication: Option<nat>, publicationDecision: Option<nat>,
    preEffect: Option<nat>, action: Option<nat>, terminal: Option<nat>)

  function MarksOf(run: Run): Marks {
    Marks(
      First(Statuses(run, "created")), Only(Of(run, Selected)), Only(Bindings(run)), Only(Admissions(run)),
      Only(AdmissionReceipts(run)), Last(Of(run, Shadow(AdmissionScope))), First(Of(run, Billed)),
      Only(Decisions(run, Dispatch)), First(Running(run)), Last(Of(run, Shadow(DispatchScope))),
      First(Of(run, RunnerObserved)), Last(Of(run, RunnerObserved)), Only(DispatchReceipts(run)),
      First(Of(run, Accounted)), Last(Of(run, Shadow(PublicationScope))), Only(Decisions(run, Publication)),
      Only(PreEffects(run)), Only(Actions(run)), First(Terminals(run)))
  }

  /** Something that should precede `x` does not; something that should follow `x` does not. */
  predicate Late(earlier: Option<nat>, x: nat) { earlier.Some? && earlier.value >= x }
  predicate Early(later: Option<nat>, x: nat) { later.Some? && later.value <= x }

  predicate AdmissionDecisionMisplaced(m: Marks) {
    && m.admissionDecision.Some?
    && var x := m.admissionDecision.value;
       m.binding == None || Late(m.binding, x) || Late(m.selection, x) || Early(m.admissionReceipt, x)
       || Early(m.admission, x) || Early(m.billing, x) || Early(m.running, x) || Early(m.terminal, x)
  }

  predicate AdmissionReceiptMisplaced(m: Marks) {
    && m.admissionReceipt.Some?
    && var x := m.admissionReceipt.value;
       m.admissionDecision == None || Late(m.admissionDecision, x) || Early(m.admission, x) || Early(m.billing, x)
       || Early(m.running, x) || Early(m.terminal, x)
  }

  predicate SelectionMisplaced(m: Marks) {
    && m.selection.Some?
    && var x := m.selection.value;
       Late(m.created, x) || Early(m.binding, x) || Early(m.admission, x) || Early(m.billing, x) || Early(m.running, x)
       || Early(m.terminal, x)
  }

  predicate BindingMisplaced(m: Marks) {
    && m.binding.Some?
    && var x := m.binding.value;
       Late(m.created, x) || Early(m.admission, x) || Early(m.billing, x) || Early(m.running, x) || Early(m.terminal, x)
  }

  predicate AdmissionMisplaced(m: Marks) {
    && m.admission.Some?
    && var x := m.admission.value;
       Early(m.billing, x) || Early(m.running, x) || Early(m.terminal, x)
  }

  predicate DispatchDecisionMisplaced(m: Marks) {
    && m.dispatchDecision.Some?
    && var x := m.dispatchDecision.value;
       m.admission == None || Late(m.admission, x) || Late(m.billing, x) || Early(m.running, x) || Early(m.terminal, x)
       || Early(m.dispatch, x)
  }

  predicate BillingMisplaced(m: Marks) {
    && m.binding.Some? && m.billing.Some?
    && (Early(m.running, m.billing.value) || Early(m.terminal, m.billing.value))
  }

  predicate DispatchMisplaced(m: Marks) {
    && m.dispatch.Some?
    && var x := m.dispatch.value;
       m.running == None || Late(m.running, x) || Early(m.accounting, x) || Early(m.runnerFirst, x)
       || Early(m.terminal, x)
  }

  predicate RunnerMisplaced(m: Marks) {
    && m.runnerFirst.Some? && m.runnerLast.Some?
    && (m.running == None || m.dispatch == None || Late(m.dispatch, m.runnerFirst.value)
        || Early(m.accounting, m.runnerLast.value) || Early(m.terminal, m.runnerLast.value))
  }

  predicate DispatchReceiptMisplaced(m: Marks) {
    && m.dispatchReceipt.Some?
    && var x := m.dispatchReceipt.value;
       m.dispatchDecision == None || Late(m.dispatchDecision, x) || m.running == None || Late(m.running, x)
       || Late(m.runnerLast, x) || Late(m.dispatch, x) || Early(m.accounting, x) || Early(m.terminal, x)
  }

  predicate AccountingMisplaced(m: Marks) {
    && m.binding.Some? && m.accounting.Some?
    && var x := m.accounting.value;
       m.dispatch == None || Late(m.dispatch, x) || Early(m.terminal, x)
  }

  predicate PublicationMisplaced(m: Marks) {
    && m.publication.Some?
    && var x := m.publication.value;
       m.accounting == None || Late(m.accounting, x) || Early(m.terminal, x)
  }

  predicate PublicationDecisionMisplaced(m: Marks) {
    && m.publicationDecision.Some?
    && var x := m.publicationDecision.value;
       m.accounting == None || Late(m.accounting, x) || m.dispatchReceipt == None || Late(m.dispatchReceipt, x)
       || Late(m.publication, x) || Early(m.preEffect, x) || Early(m.terminal, x)
  }

  predicate PreEffectMisplaced(m: Marks, enforcing: bool) {
    && m.preEffect.Some?
    && var x := m.preEffect.value;
       m.accounting == None || Late(m.accounting, x) || (!enforcing && m.publication == None) || Late(m.publication, x)
       || (enforcing && (m.publicationDecision == None || Late(m.publicationDecision, x))) || Early(m.terminal, x)
  }

  predicate ActionMisplaced(m: Marks) {
    && m.action.Some?
    && var x := m.action.value;
       m.preEffect == None || Late(m.preEffect, x) || Early(m.terminal, x)
  }

  /** The pairwise checks scattered over the run loop. */
  function OrderIssues(m: Marks, enforcing: bool): set<Word> {
    When(AdmissionDecisionMisplaced(m), "task_admission_decision_order_invalid")
    + When(AdmissionReceiptMisplaced(m), "task_admission_receipt_order_invalid")
    + When(SelectionMisplaced(m), "execution_selection_order_invalid")
    + When(BindingMisplaced(m), "task_binding_order_invalid")
    + When(AdmissionMisplaced(m), "admission_boundary_order_invalid")
    + When(DispatchDecisionMisplaced(m), "mock_dispatch_decision_order_invalid")
    + When(m.binding.Some? && m.running.Some? && m.billing == None, "task_billing_missing")
    + When(BillingMisplaced(m), "task_billing_order_invalid")
    + When(DispatchMisplaced(m), "dispatch_boundary_order_invalid")
    + When(RunnerMisplaced(m), "runner_event_order_invalid")
    + When(DispatchReceiptMisplaced(m), "mock_dispatch_receipt_order_invalid")
    + When(AccountingMisplaced(m), "task_execution_accounting_order_invalid")
    + When(PublicationMisplaced(m), "publication_boundary_order_invalid")
    + When(PublicationDecisionMisplaced(m), "local_candidate_publication_decision_order_invalid")
    + When(PreEffectMisplaced(m, enforcing), "task_publication_pre_effect_order_invalid")
    + When(ActionMisplaced(m), "task_publication_action_receipt_order_invalid")
  }

  // ---- The run.

  /** What the loop itself checks of the run. */
  function HistoryIssues(run: Run): set<Word> {
    var bindings, m := Bindings(run), MarksOf(run);
    When(|bindings| > 1, "task_binding_duplicate")
    + When(bindings == [] && (PreEffects(run) != [] || Actions(run) != []), "task_binding_missing")
    + When(|Of(run, Shadow(AdmissionScope))| > 1 || |Of(run, Shadow(DispatchScope))| > 1
           || |Of(run, Shadow(PublicationScope))| > 1, "duplicate_boundary_event")
    + When(bindings != [] && (m.billing.Some? || m.accounting.Some?)
           && (m.terminal == None || Late(m.billing, m.terminal.value) || Late(m.accounting, m.terminal.value)),
           "bound_run_history_incomplete")
  }

  /** What there is to say against the run: about its decisions and receipts, about its order and
      its end, and `others`, about the rows whose contents are no part of this model.  Several
      issues of the source can share a name here; the set is empty exactly when the source's is. */
  function RunIssues(run: Run): set<Word> {
    AdmissionDecisionIssues(run) + AdmissionReceiptIssues(run) + DispatchDecisionIssues(run) + DispatchReceiptIssues(run)
    + PublicationDecisionIssues(run) + ArtifactIssues(run) + TerminalIssues(run) + HistoryIssues(run)
    + OrderIssues(MarksOf(run), Schema(run) in PUBLICATION_ENFORCING) + run.others
  }
}
