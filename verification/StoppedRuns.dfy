/** The histories of attempts that the controller stopped, and which of them the inspector accepts. */
module StoppedRuns {
  import opened Prelude
  import opened Canon
  import opened Sequences
  import opened Authorization
  import opened Evaluator
  import opened CanonicalParsing
  import opened Admission
  import opened AdmissionInspection
  import opened RunRecords
  import opened EnforcingDecisions
  import opened DispatchBoundary
  import opened PublicationBoundary
  import opened PublicationReceipts
  import opened RunInspection
  import opened RunLaws
  import opened RunHistories

  /** How an attempt is stopped: the phase that its terminal event names, and its status. */
  datatype Stop = Stop(phase: Word, status: Word)

  predicate Unsuccessful(stop: Stop) { stop.status in {"failed", "blocked", "quarantined", "cancelled"} }
  predicate Ended(stop: Stop) { Unsuccessful(stop) || stop.status == "succeeded" }

  /** The terminal event of an attempt that was stopped after `n` events. */
  function Ending(w: Story, n: nat, stop: Stop): Event {
    Event(n, w.at, w.decided, true, Some(stop.status), Lifecycle(Some(stop.phase), None))
  }

  /** The first `n` events of the story, and then the end. */
  function CutEvents(w: Story, n: nat, stop: Stop): seq<Event> {
    seq(n, i requires 0 <= i < n => EventAt(w, i)) + [Ending(w, n, stop)]
  }

  function CutRun(w: Story, n: nat, stop: Stop, k: Records): Run { Run(CutEvents(w, n, stop), [], k, {}) }

  /** The `j`th event, if it was recorded. */
  function Upto(w: Story, n: nat, j: nat): seq<Event> { if j < n then [EventAt(w, j)] else [] }

  lemma CutShape(w: Story, n: nat, stop: Stop)
    requires n <= LENGTH
    ensures |History(w)| == LENGTH && |CutEvents(w, n, stop)| == n + 1 && CutEvents(w, n, stop)[n] == Ending(w, n, stop)
    ensures forall i | 0 <= i < n :: CutEvents(w, n, stop)[i] == History(w)[i] == EventAt(w, i)
    ensures CutEvents(w, n, stop)[..n] == History(w)[..n]
  {
    hide EventAt;
  }

  /** A query that is after one event of the whole story is after the same one here. */
  lemma CutOne(w: Story, n: nat, stop: Stop, keep: Event -> bool, j: nat)
    requires n <= LENGTH && j < LENGTH && Filter(History(w), keep) == [EventAt(w, j)] && !keep(Ending(w, n, stop))
    ensures Filter(CutEvents(w, n, stop), keep) == Upto(w, n, j)
  {
    hide BodyAt, StatusAt;
    var s, cut := History(w), CutEvents(w, n, stop);
    forall i | 0 <= i < LENGTH ensures keep(s[i]) <==> i == j {
      assert s[i] in s;
      if keep(s[i]) { assert s[i] in Filter(s, keep); }
      assert EventAt(w, j) in Filter(s, keep);
    }
    assert forall i | 0 <= i < n :: cut[i] == s[i];
    if j < n {
      FilterOne(cut, keep, j);
    } else {
      assert forall e | e in cut :: !keep(e);
      SomeElement(Filter(cut, keep));
    }
  }

  // ---- What the inspector's queries find.

  lemma CutKinds(w: Story, n: nat, stop: Stop, k: Records)
    requires n <= LENGTH
    ensures
      var run := CutRun(w, n, stop, k);
      && Bindings(run) == Upto(w, n, 2) && Admissions(run) == Upto(w, n, 3) && AdmissionReceipts(run) == Upto(w, n, 4)
      && DispatchReceipts(run) == Upto(w, n, 11) && PreEffects(run) == Upto(w, n, 15) && Actions(run) == Upto(w, n, 16)
  {
    hide BodyAt, StatusAt, History, Upto;
    var whole := RunOf(w, k);
    Kinds(whole, w);
    Effects(whole, w);
    CutOne(w, n, stop, (e: Event) => e.body.Bound?, 2);
    CutOne(w, n, stop, (e: Event) => e.body.Admitting?, 3);
    CutOne(w, n, stop, (e: Event) => e.body.Admitted?, 4);
    CutOne(w, n, stop, (e: Event) => e.body.Dispatched?, 11);
    CutOne(w, n, stop, (e: Event) => e.body.Intended?, 15);
    CutOne(w, n, stop, (e: Event) => e.body.Acted?, 16);
  }

  lemma CutDecisions(w: Story, n: nat, stop: Stop, k: Records)
    requires n <= LENGTH
    ensures
      var run := CutRun(w, n, stop, k);
      Decisions(run, Dispatch) == Upto(w, n, 7) && Decisions(run, Publication) == Upto(w, n, 14)
  {
    hide BodyAt, StatusAt, History, Upto;
    Decideds(RunOf(w, k), w);
    var b: Boundary := Dispatch;
    CutOne(w, n, stop, (e: Event) => e.body.Decided? && e.body.boundary == b, 7);
    var c: Boundary := Publication;
    CutOne(w, n, stop, (e: Event) => e.body.Decided? && e.body.boundary == c, 14);
  }

  lemma CutOf(w: Story, n: nat, stop: Stop, k: Records, b: Body, j: nat)
    requires n <= LENGTH && j < LENGTH && Of(RunOf(w, k), b) == [EventAt(w, j)] && !b.Lifecycle?
    ensures Of(CutRun(w, n, stop, k), b) == Upto(w, n, j)
  {
    hide BodyAt, StatusAt, History, Upto;
    CutOne(w, n, stop, (e: Event) => e.body == b, j);
  }

  lemma CutOnce(w: Story, n: nat, stop: Stop, k: Records)
    requires n <= LENGTH
    ensures
      var run := CutRun(w, n, stop, k);
      && Of(run, Selected) == Upto(w, n, 1) && Of(run, Shadow(AdmissionScope)) == Upto(w, n, 5)
      && Of(run, Billed) == Upto(w, n, 6) && Of(run, Shadow(DispatchScope)) == Upto(w, n, 9)
      && Of(run, RunnerObserved) == Upto(w, n, 10) && Of(run, Accounted) == Upto(w, n, 12)
      && Of(run, Shadow(PublicationScope)) == Upto(w, n, 13)
  {
    hide BodyAt, StatusAt, History, Upto, Of;
    Once(RunOf(w, k), w);
    CutOf(w, n, stop, k, Selected, 1);
    CutOf(w, n, stop, k, Shadow(AdmissionScope), 5);
    CutOf(w, n, stop, k, Billed, 6);
    CutOf(w, n, stop, k, Shadow(DispatchScope), 9);
    CutOf(w, n, stop, k, RunnerObserved, 10);
    CutOf(w, n, stop, k, Accounted, 12);
    CutOf(w, n, stop, k, Shadow(PublicationScope), 13);
  }

  lemma CutStatus(w: Story, n: nat, stop: Stop, k: Records, s: Word, j: nat)
    requires n <= LENGTH && j < LENGTH && Statuses(RunOf(w, k), s) == [EventAt(w, j)] && s != stop.status
    ensures Statuses(CutRun(w, n, stop, k), s) == Upto(w, n, j)
  {
    hide BodyAt, StatusAt, History, Upto;
    CutOne(w, n, stop, (e: Event) => e.status == Some(s), j);
  }

  lemma EndedIsTerminal(stop: Stop)
    requires Ended(stop)
    ensures stop.status in TERMINAL && stop.status !in {"created", "running"}
    ensures Unsuccessful(stop) <==> stop.status != "succeeded"
  {
    assert |"created"| == |"running"| == |"blocked"| == 7 && |"succeeded"| == |"cancelled"| == 9;
    assert |"failed"| == 6 && |"quarantined"| == 11;
    assert "blocked"[0] == 'b' && "created"[0] == 'c' && "running"[0] == 'r' && "cancelled"[0] == 'c' && "succeeded"[0] == 's';
  }

  lemma CutStatuses(w: Story, n: nat, stop: Stop, k: Records)
    requires n < LENGTH && Ended(stop)
    ensures
      var run := CutRun(w, n, stop, k);
      && Statuses(run, "created") == Upto(w, n, 0) && Running(run) == Upto(w, n, 8)
      && (Unsuccessful(stop) ==> Statuses(run, "succeeded") == [])
  {
    hide BodyAt, StatusAt, History, Statuses, Ended;
    EndedIsTerminal(stop);
    Statused(RunOf(w, k), w);
    CutStatus(w, n, stop, k, "created", 0);
    CutStatus(w, n, stop, k, "running", 8);
    if Unsuccessful(stop) { CutStatus(w, n, stop, k, "succeeded", 17); }
    RunningIsStatus(CutRun(w, n, stop, k));
  }

  lemma CutEnds(w: Story, n: nat, stop: Stop, k: Records)
    requires n < LENGTH && Ended(stop)
    ensures
      var run := CutRun(w, n, stop, k);
      Terminals(run) == [Ending(w, n, stop)] && Latest(run) == Some(stop.status)
  {
    hide BodyAt, StatusAt, History, Ended;
    EndedIsTerminal(stop);
    var run := CutRun(w, n, stop, k);
    var cut, keep := run.events, (e: Event) => e.status.Some? && e.status.value in TERMINAL;
    CutShape(w, n, stop);
    NothingEndsEarly(w, n);
    FilterOne(cut, keep, n);
    var stated := (e: Event) => e.status.Some?;
    assert cut[..|cut| - 1] == History(w)[..n];
    assert Filter(cut, stated) == Filter(History(w)[..n], stated) + [Ending(w, n, stop)];
  }

  lemma NothingEndsEarly(w: Story, n: nat)
    requires n < LENGTH
    ensures forall i | 0 <= i < n :: !(History(w)[i].status.Some? && History(w)[i].status.value in TERMINAL)
  {
    hide BodyAt;
    NotTerminal();
  }

  lemma ShadowAt(w: Story, i: nat)
    ensures EventAt(w, i).body.Shadow? <==> i in {5, 9, 13}
  {
    hide StatusAt;
  }

  /** The shadows that were recorded. */
  lemma CutShadows(w: Story, n: nat, stop: Stop, k: Records)
    requires n < LENGTH
    ensures
      var shadows := Shadows(CutRun(w, n, stop, k));
      (shadows == [] <==> n <= 5) && (n <= 9 ==> forall e | e in shadows :: e == EventAt(w, 5))
  {
    hide StatusAt, History, BodyAt, EventAt;
    var run := CutRun(w, n, stop, k);
    var shadows := Shadows(run);
    CutShape(w, n, stop);
    forall e | e in shadows ensures exists i | 0 <= i < n :: e == EventAt(w, i) && i in {5, 9, 13} {
      var i :| 0 <= i < |run.events| && run.events[i] == e;
      if i < n { ShadowAt(w, i); }
    }
    if shadows != [] { assert shadows[0] in shadows; }
    if n > 5 {
      ShadowAt(w, 5);
      assert run.events[5] in shadows;
    }
  }

  // ---- Order, and what is not there.

  function At(n: nat, j: nat): Option<nat> { if j < n then Some(j) else None }

  function CutMarks(n: nat): Marks {
    Marks(At(n, 0), At(n, 1), At(n, 2), At(n, 3), At(n, 4), At(n, 5), At(n, 6), At(n, 7), At(n, 8), At(n, 9), At(n, 10),
          At(n, 10), At(n, 11), At(n, 12), At(n, 13), At(n, 14), At(n, 15), At(n, 16), Some(n))
  }

  lemma MarksOfCut(w: Story, n: nat, stop: Stop, k: Records)
    requires n < LENGTH && Ended(stop)
    ensures MarksOf(CutRun(w, n, stop, k)) == CutMarks(n)
  {
    hide BodyAt, StatusAt, History, Ended, Of, Statuses, Running, Bindings, Admissions, AdmissionReceipts, Decisions,
         DispatchReceipts, PreEffects, Actions, Terminals, CutRun;
    CutKinds(w, n, stop, k);
    CutDecisions(w, n, stop, k);
    CutOnce(w, n, stop, k);
    CutStatuses(w, n, stop, k);
    CutEnds(w, n, stop, k);
  }

  lemma CutIsPlaced(n: nat, enforcing: bool)
    ensures !FirstHalfMisplaced(CutMarks(n)) && !SecondHalfMisplaced(CutMarks(n), enforcing)
    ensures CutMarks(n).running.Some? ==> CutMarks(n).billing.Some?
  {
  }

  lemma CutHistory(w: Story, n: nat, stop: Stop, k: Records)
    requires n < LENGTH && Ended(stop) && n >= 3
    ensures HistoryIssues(CutRun(w, n, stop, k)) == {}
    ensures OrderIssues(MarksOf(CutRun(w, n, stop, k)), Schema(CutRun(w, n, stop, k)) in PUBLICATION_ENFORCING) == {}
  {
    hide BodyAt, StatusAt, History, Ended, Of, Statuses, Running, Bindings, Admissions, AdmissionReceipts, Decisions,
         DispatchReceipts, PreEffects, Actions, Terminals, CutRun, MarksOf, OrderIssues, FirstHalfMisplaced,
         SecondHalfMisplaced, Schema;
    var run := CutRun(w, n, stop, k);
    MarksOfCut(w, n, stop, k);
    CutIsPlaced(n, Schema(run) in PUBLICATION_ENFORCING);
    NoOrderIssues(MarksOf(run), Schema(run) in PUBLICATION_ENFORCING);
    CutKinds(w, n, stop, k);
    CutOnce(w, n, stop, k);
  }

  lemma CutSchema(w: Story, n: nat, stop: Stop, k: Records)
    requires 3 <= n < LENGTH
    ensures Schema(CutRun(w, n, stop, k)) == 6
  {
    hide History, Bindings, CutRun;
    CutKinds(w, n, stop, k);
  }

  /** The documents that the queries find. */
  lemma CutTells(w: Story, n: nat, stop: Stop, k: Records)
    requires n < LENGTH
    ensures
      var run := CutRun(w, n, stop, k);
      && AdmissionOf(run) == (if 3 < n then Some(w.admitting) else None)
      && DecisionOf(run, Dispatch) == (if 7 < n then Some(w.dispatch) else None)
      && DecisionOf(run, Publication) == (if 14 < n then Some(w.publication) else None)
      && Execution(run) == (if 11 < n then Some(w.execution) else None)
      && Announced(run) == (if 15 < n then Some(w.announcement) else None)
      && ActionTaken(run) == (if 16 < n then Some(w.action) else None)
  {
    hide History, Admissions, Decisions, DispatchReceipts, PreEffects, Actions, CutRun, StatusAt;
    CutKinds(w, n, stop, k);
    CutDecisions(w, n, stop, k);
  }

  /** The run is stopped exactly as its terminal event says. */
  lemma CutStops(w: Story, n: nat, stop: Stop, k: Records, phase: Word, statuses: set<Word>)
    requires n < LENGTH && Ended(stop)
    ensures Stops(CutRun(w, n, stop, k), phase, statuses) <==> stop.phase == phase && stop.status in statuses
  {
    hide History, Terminals, Latest, CutRun, Ended;
    CutEnds(w, n, stop, k);
  }

  lemma CutEndsAfter(w: Story, n: nat, stop: Stop, k: Records, earlier: Option<nat>)
    requires n < LENGTH && Ended(stop) && earlier.Some? && earlier.value < n
    ensures Ends(CutRun(w, n, stop, k), earlier)
  {
    hide History, Terminals, Latest, CutRun, Ended;
    CutEnds(w, n, stop, k);
  }

  /** Nothing happened in the attempt as long as nothing was observed of the runner. */
  lemma CutHappened(w: Story, n: nat, stop: Stop, k: Records)
    requires n < LENGTH && Ended(stop)
    ensures Unsuccessful(stop) ==> (NothingHappened(CutRun(w, n, stop, k)) <==> n <= 10)
    ensures n > 10 ==> !NothingHappened(CutRun(w, n, stop, k))
  {
    hide History, Statuses, Of, PreEffects, Actions, Ended, BodyAt, StatusAt;
    CutStatuses(w, n, stop, k);
    CutOnce(w, n, stop, k);
    CutKinds(w, n, stop, k);
  }

  lemma NothingObserved(w: Story, n: nat, stop: Stop, k: Records)
    requires 3 <= n <= 13 && Unsuccessful(stop)
    ensures !PublicationObserved(CutRun(w, n, stop, k))
  {
    hide History, Statuses, Of, PreEffects, Actions, Unsuccessful, BodyAt, StatusAt, Decisions, CutEvents;
    CutStatuses(w, n, stop, k);
    CutOnce(w, n, stop, k);
    CutKinds(w, n, stop, k);
    CutDecisions(w, n, stop, k);
  }

  predicate NoReceipts(run: Run) {
    PreEffects(run) == [] && Actions(run) == [] && run.metadata == [] && DecisionOf(run, Publication) == None
  }

  lemma NoArtifactIssues(run: Run)
    requires NoReceipts(run)
    ensures ArtifactIssues(run) == {} && TerminalIssues(run) == {}
  {
    hide PreEffects, Actions, DecisionOf, Schema, PresenceIssues, ReceiptsIssues, MetadataIssues, AccountedFor, TrailOf,
         Announced, ActionTaken, TerminalFits, Concludes;
    NothingReceived(run);
    NothingAnnounced(run);
    MetadataExactly(run.records, None, run.metadata);
  }

  lemma NothingReceived(run: Run)
    requires PreEffects(run) == [] && Actions(run) == []
    ensures Announced(run) == None && ActionTaken(run) == None
  {
    hide PreEffects, Actions;
  }

  /** Before there is a publication shadow, nothing is asked of the publication. */
  lemma CutUnpublished(w: Story, n: nat, stop: Stop, k: Records)
    requires 3 <= n <= 13 && Unsuccessful(stop)
    ensures
      var run := CutRun(w, n, stop, k);
      PublicationDecisionIssues(run) == {} && ArtifactIssues(run) == {} && TerminalIssues(run) == {}
  {
    hide History, PreEffects, Actions, Unsuccessful, Decisions, DecisionOf, Schema, DecisionEventIssues, PublicationObserved,
         CutEvents, ArtifactIssues, TerminalIssues, Around, BodyAt, StatusAt;
    CutSchema(w, n, stop, k);
    CutKinds(w, n, stop, k);
    CutTells(w, n, stop, k);
    NothingObserved(w, n, stop, k);
    NoArtifactIssues(CutRun(w, n, stop, k));
  }

  // ---- Admission.

  const BROKEN: set<Word> := {"failed", "cancelled"}

  predicate Halts(stop: Stop, phase: Word, statuses: set<Word>) { stop.phase == phase && stop.status in statuses }

  /** What may stop an attempt whose admission was decided but not acted upon. */
  predicate HaltsAdmission(doc: Payload, stop: Stop) {
    || Halts(stop, "task_admission_authorization_persistence", BROKEN)
    || (doc.eligible && doc.effect == "permit"
        && (|| Halts(stop, "task_admission_authorization_freshness", {"blocked"})
            || Halts(stop, "task_admission_action_receipt_persistence", BROKEN)))
    || (!doc.eligible
        && (|| Halts(stop, "task_admission_authorization", {"blocked"})
            || (doc.effect == "indeterminate" && Halts(stop, "task_admission_authorization_evaluation", {"cancelled"}))))
  }

  predicate HaltsBeforeAdmission(w: Story, n: nat, stop: Stop) {
    || (n == 3 && Halts(stop, "task_admission_authorization_persistence", BROKEN))
    || (n == 4 && HaltsAdmission(w.admitting, stop))
  }

  lemma CutAdmissionStop(w: Story, n: nat, stop: Stop, k: Records)
    requires 3 <= n < LENGTH && Ended(stop)
    ensures AdmissionStop(CutRun(w, n, stop, k)) <==> HaltsBeforeAdmission(w, n, stop)
  {
    hide History, Statuses, Of, Ended, BodyAt, StatusAt, CutEvents, CutRun, NothingHappened, Stops, Ends, Bindings,
         Admissions, AdmissionReceipts, AdmissionOf, Running, Shadows;
    var run := CutRun(w, n, stop, k);
    CutKinds(w, n, stop, k);
    CutOnce(w, n, stop, k);
    CutStatuses(w, n, stop, k);
    CutTells(w, n, stop, k);
    CutShadows(w, n, stop, k);
    CutHappened(w, n, stop, k);
    CutEndsAfter(w, n, stop, k, Only(Bindings(run)));
    if n > 3 { CutEndsAfter(w, n, stop, k, Only(Admissions(run))); }
    CutStops(w, n, stop, k, "task_admission_authorization_persistence", BROKEN);
    CutStops(w, n, stop, k, "task_admission_authorization_freshness", {"blocked"});
    CutStops(w, n, stop, k, "task_admission_action_receipt_persistence", BROKEN);
    CutStops(w, n, stop, k, "task_admission_authorization", {"blocked"});
    CutStops(w, n, stop, k, "task_admission_authorization_evaluation", {"cancelled"});
  }

  predicate AdmissionSound(w: Story, n: nat, k: Records) {
    hide DecisionIssues, ReceiptIssues;
    && (n > 3 ==> DecisionIssues(k.facts, RowAt(w, 3), w.admitting) == {})
    && (n > 4 ==> ReceiptIssues(k.facts, w.admitting, RowAt(w, 4), w.admitted) == {})
  }

  lemma CutAdmission(w: Story, n: nat, stop: Stop, k: Records)
    requires 3 <= n < LENGTH && Ended(stop)
    ensures
      var run := CutRun(w, n, stop, k);
      AdmissionDecisionIssues(run) == {} && AdmissionReceiptIssues(run) == {} <==>
      && AdmissionSound(w, n, k)
      && (n == 3 || (n == 4 && w.admitting.eligible) ==> HaltsBeforeAdmission(w, n, stop))
  {
    hide History, Statuses, Of, Ended, BodyAt, StatusAt, CutEvents, CutRun, Bindings, AdmissionStop, Schema,
         Admissions, AdmissionReceipts, AdmissionOf, Running, Shadows, HaltsBeforeAdmission, DecisionIssues, ReceiptIssues;
    CutSchema(w, n, stop, k);
    CutAdmissionStop(w, n, stop, k);
    CutKinds(w, n, stop, k);
    CutOnce(w, n, stop, k);
    CutStatuses(w, n, stop, k);
    CutTells(w, n, stop, k);
    CutShadows(w, n, stop, k);
    CutRecords(w, n, stop, k);
    BodiesAt(w);
  }

  lemma BodiesAt(w: Story)
    ensures EventAt(w, 3).body == Admitting(w.admitting) && EventAt(w, 4).body == Admitted(w.admitted)
    ensures EventAt(w, 7).body == Decided(Dispatch, w.dispatch) && EventAt(w, 11).body == Dispatched(w.execution)
    ensures EventAt(w, 14).body == Decided(Publication, w.publication) && EventAt(w, 15).body == Intended(w.announcement)
    ensures forall i :: RowOf(EventAt(w, i)) == RowAt(w, i)
  {
    hide StatusAt;
  }

  lemma CutRecords(w: Story, n: nat, stop: Stop, k: Records)
    ensures CutRun(w, n, stop, k).records == k && CutRun(w, n, stop, k).metadata == [] && CutRun(w, n, stop, k).others == {}
  {
  }

  // ---- Dispatch.

  /** What may stop an attempt before its dispatch was decided. */
  predicate HaltsUndecided(n: nat, stop: Stop) {
    || (n <= 6 && Halts(stop, "billing_assessment_persistence", BROKEN))
    || (n == 7 && Halts(stop, "mock_dispatch_authorization_persistence", BROKEN))
  }

  lemma CutAbsenceStop(w: Story, n: nat, stop: Stop, k: Records)
    requires 3 <= n <= 7 && Ended(stop)
    ensures AbsenceStop(CutRun(w, n, stop, k)) <==> HaltsUndecided(n, stop)
  {
    hide History, Statuses, Of, Ended, StatusAt, CutEvents, CutRun, NothingHappened, Stops, Ends, Bindings,
         DispatchReceipts, Running, Shadows, Terminals;
    var run := CutRun(w, n, stop, k);
    CutKinds(w, n, stop, k);
    CutOnce(w, n, stop, k);
    CutStatuses(w, n, stop, k);
    CutShadows(w, n, stop, k);
    CutHappened(w, n, stop, k);
    CutEnds(w, n, stop, k);
    CutEndsAfter(w, n, stop, k, Only(Bindings(run)));
    CutEndsAfter(w, n, stop, k, Only(Of(run, Selected)));
    if n == 7 { CutEndsAfter(w, n, stop, k, First(Of(run, Billed))); }
    CutStops(w, n, stop, k, "billing_assessment_persistence", BROKEN);
    CutStops(w, n, stop, k, "mock_dispatch_authorization_persistence", BROKEN);
  }

  predicate DispatchSound(w: Story, n: nat, k: Records) {
    hide DispatchIssues, DispatchedIssues;
    && (n > 7 ==> DispatchIssues(k, w.dispatch) == {} && 0.0 <= w.dispatch.evaluatedAt <= w.at)
    && (n > 11 ==> DispatchedIssues(k, Some(w.dispatch), ExecutionRow(w), w.execution) == {})
  }

  lemma DispatchIssuesOfEvent(w: Story, k: Records)
    ensures DecisionEventIssues(EventAt(w, 7), w.dispatch, DispatchAround(k, w.dispatch)) == {} <==>
      DispatchIssues(k, w.dispatch) == {} && 0.0 <= w.dispatch.evaluatedAt <= w.at
  {
    hide DocumentIssues, DispatchAround, BodyAt, StatusAt;
  }

  lemma CutDispatchDecision(w: Story, n: nat, stop: Stop, k: Records)
    requires 3 <= n < LENGTH && Ended(stop)
    ensures DispatchDecisionIssues(CutRun(w, n, stop, k)) == {} <==>
      if n <= 7 then HaltsBeforeAdmission(w, n, stop) || HaltsUndecided(n, stop)
      else DispatchIssues(k, w.dispatch) == {} && 0.0 <= w.dispatch.evaluatedAt <= w.at
  {
    hide History, Ended, BodyAt, StatusAt, CutEvents, CutRun, AdmissionStop, AbsenceStop, Schema, Decisions, DecisionOf,
         HaltsBeforeAdmission, HaltsUndecided, DecisionEventIssues, DispatchIssues, DispatchAround;
    CutSchema(w, n, stop, k);
    CutAdmissionStop(w, n, stop, k);
    if n <= 7 { CutAbsenceStop(w, n, stop, k); }
    CutDecisions(w, n, stop, k);
    CutTells(w, n, stop, k);
    CutRecords(w, n, stop, k);
    DispatchIssuesOfEvent(w, k);
    NotHaltedLater(w, n, stop);
  }

  lemma NotHaltedLater(w: Story, n: nat, stop: Stop)
    ensures n > 4 ==> !HaltsBeforeAdmission(w, n, stop)
  {
    hide HaltsAdmission, Halts;
  }

  /** What may stop an attempt whose dispatch was permitted, or refused. */
  predicate HaltsPermitted(n: nat, stop: Stop) {
    || Halts(stop, "mock_dispatch_authorization_freshness", {"blocked", "cancelled", "failed"})
    || (n == 8 && (|| Halts(stop, "mock_dispatch_authorization_persistence", BROKEN)
                   || Halts(stop, "runner_execution_transition", BROKEN)))
  }

  predicate HaltsRefused(doc: Document, stop: Stop) {
    || Halts(stop, "mock_dispatch_authorization_persistence", BROKEN)
    || Halts(stop, "mock_dispatch_authorization", {"blocked"})
    || (doc.failed && doc.effect == "indeterminate"
        && Halts(stop, "mock_dispatch_authorization_evaluation", {"cancelled"}))
  }

  lemma CutEndsDecided(w: Story, n: nat, stop: Stop, k: Records)
    requires 3 <= n < LENGTH && Ended(stop)
    ensures EndsDecided(CutRun(w, n, stop, k)) ==> 8 <= n <= 10
    ensures Unsuccessful(stop) && 8 <= n <= 10 ==> EndsDecided(CutRun(w, n, stop, k))
  {
    hide History, Of, Ended, BodyAt, StatusAt, CutEvents, CutRun, NothingHappened, Ends, Decisions;
    var run := CutRun(w, n, stop, k);
    CutDecisions(w, n, stop, k);
    CutOnce(w, n, stop, k);
    CutHappened(w, n, stop, k);
    if n > 7 { CutEndsAfter(w, n, stop, k, Only(Decisions(run, Dispatch))); } else { NothingToEnd(run); }
  }

  lemma NothingToEnd(run: Run)
    ensures !Ends(run, None)
  {
  }

  /** The decision is on record, without issue. */
  lemma CutDecided(w: Story, n: nat, stop: Stop, k: Records)
    requires 3 <= n < LENGTH && Ended(stop)
    ensures CleanlyDecided(CutRun(w, n, stop, k), Dispatch) <==>
      n > 7 && DispatchIssues(k, w.dispatch) == {} && 0.0 <= w.dispatch.evaluatedAt <= w.at
  {
    hide History, Ended, BodyAt, StatusAt, CutEvents, CutRun, Decisions, DecisionOf, DecisionEventIssues, DispatchIssues,
         DispatchAround;
    CutDecisions(w, n, stop, k);
    CutTells(w, n, stop, k);
    CutRecords(w, n, stop, k);
    DispatchIssuesOfEvent(w, k);
  }

  lemma CutDispatchStop(w: Story, n: nat, stop: Stop, k: Records)
    requires 3 <= n < LENGTH && Ended(stop)
    ensures DispatchStop(CutRun(w, n, stop, k)) <==>
      8 <= n <= 10 && CleanPermit(CutRun(w, n, stop, k)) && HaltsPermitted(n, stop)
  {
    hide History, Ended, BodyAt, StatusAt, CutEvents, CutRun, Decisions, EndsDecided, CleanPermit, Stops, Running,
         Terminals;
    CutEndsDecided(w, n, stop, k);
    CutDecisions(w, n, stop, k);
    CutStatuses(w, n, stop, k);
    CutEnds(w, n, stop, k);
    CutStops(w, n, stop, k, "mock_dispatch_authorization_freshness", {"blocked", "cancelled", "failed"});
    CutStops(w, n, stop, k, "mock_dispatch_authorization_persistence", BROKEN);
    CutStops(w, n, stop, k, "runner_execution_transition", BROKEN);
  }

  lemma CutNonPermitStop(w: Story, n: nat, stop: Stop, k: Records)
    requires 3 <= n < LENGTH && Ended(stop)
    ensures NonPermitStop(CutRun(w, n, stop, k)) <==>
      n == 8 && CleanNonPermit(CutRun(w, n, stop, k)) && HaltsRefused(w.dispatch, stop)
  {
    hide History, Ended, BodyAt, StatusAt, CutEvents, CutRun, Decisions, DecisionOf, EndsDecided, CleanNonPermit, Stops,
         Running, DispatchReceipts;
    CutEndsDecided(w, n, stop, k);
    CutKinds(w, n, stop, k);
    CutStatuses(w, n, stop, k);
    CutTells(w, n, stop, k);
    CutStops(w, n, stop, k, "mock_dispatch_authorization_persistence", BROKEN);
    CutStops(w, n, stop, k, "mock_dispatch_authorization", {"blocked"});
    CutStops(w, n, stop, k, "mock_dispatch_authorization_evaluation", {"cancelled"});
  }

  predicate Decidedly(w: Story, k: Records) {
    hide DispatchIssues;
    DispatchIssues(k, w.dispatch) == {} && 0.0 <= w.dispatch.evaluatedAt <= w.at
  }

  /** A clean eligible decision is a permit. */
  lemma EligibleIsPermit(w: Story, k: Records)
    requires Decidedly(w, k) && w.dispatch.eligible
    ensures w.dispatch.effect == "permit"
  {
    hide DispatchAround, Evaluate, ReadRequest, ReadPolicy, DocumentIssues;
    DispatchReads(k, w.dispatch);
    EligibleDocument(w.dispatch, DispatchAround(k, w.dispatch), ReadRequest(w.dispatch.request).value,
                     ReadPolicy(w.dispatch.policy).value);
  }

  lemma CutClean(w: Story, n: nat, stop: Stop, k: Records)
    requires 3 <= n < LENGTH && Ended(stop)
    ensures CleanPermit(CutRun(w, n, stop, k)) <==> n > 7 && Decidedly(w, k) && w.dispatch.eligible
    ensures CleanNonPermit(CutRun(w, n, stop, k)) <==> n > 7 && Decidedly(w, k) && !w.dispatch.eligible
  {
    hide History, Ended, BodyAt, StatusAt, CutEvents, CutRun, Decisions, DecisionOf, CleanlyDecided, DispatchIssues;
    CutDecided(w, n, stop, k);
    CutTells(w, n, stop, k);
    if Decidedly(w, k) && w.dispatch.eligible { EligibleIsPermit(w, k); }
  }

  /** What the receipt of a dispatch is missed, or not missed, for. */
  predicate ReceiptSettled(w: Story, n: nat, stop: Stop, k: Records) {
    hide DispatchedIssues;
    if n <= 7 then true
    else if n == 8 then if w.dispatch.eligible then HaltsPermitted(n, stop) else HaltsRefused(w.dispatch, stop)
    else if n <= 10 then w.dispatch.eligible && HaltsPermitted(n, stop)
    else n > 11 && DispatchedIssues(k, Some(w.dispatch), ExecutionRow(w), w.execution) == {}
  }

  lemma CutDispatchReceipt(w: Story, n: nat, stop: Stop, k: Records)
    requires 3 <= n < LENGTH && Ended(stop) && (n > 7 ==> Decidedly(w, k))
    ensures DispatchReceiptIssues(CutRun(w, n, stop, k)) == {} <==> ReceiptSettled(w, n, stop, k)
  {
    hide History, Ended, BodyAt, StatusAt, CutEvents, CutRun, Decisions, DecisionOf, DispatchStop, NonPermitStop,
         CleanPermit, CleanNonPermit, Running, DispatchReceipts, Schema, HaltsPermitted, HaltsRefused, DispatchedIssues,
         DispatchIssues;
    CutSchema(w, n, stop, k);
    CutKinds(w, n, stop, k);
    CutStatuses(w, n, stop, k);
    CutTells(w, n, stop, k);
    CutRecords(w, n, stop, k);
    CutClean(w, n, stop, k);
    CutDispatchStop(w, n, stop, k);
    CutNonPermitStop(w, n, stop, k);
    BodiesAt(w);
  }

  // ---- Stopped before anything was published.

  /** Everything that was recorded is in itself sound. */
  predicate Sound(w: Story, n: nat, k: Records) { AdmissionSound(w, n, k) && DispatchSound(w, n, k) }

  /** The attempt may be stopped so, after `n` of the story's events. */
  predicate Accepted(w: Story, n: nat, stop: Stop) {
    if n == 3 then Halts(stop, "task_admission_authorization_persistence", BROKEN)
    else if n == 4 then HaltsAdmission(w.admitting, stop) || (!w.admitting.eligible && HaltsUndecided(n, stop))
    else if n <= 7 then HaltsUndecided(n, stop)
    else if n == 8 && !w.dispatch.eligible then HaltsRefused(w.dispatch, stop)
    else if n <= 10 then w.dispatch.eligible && HaltsPermitted(n, stop)
    else n > 11
  }

  /** A history cut short is reported clean exactly when what was recorded is sound and the attempt
      was stopped in one of the ways that are accepted at this point. */
  lemma StoppedExactly(w: Story, n: nat, stop: Stop, k: Records)
    requires 3 <= n <= 13 && Unsuccessful(stop)
    ensures RunIssues(CutRun(w, n, stop, k)) == {} <==> Sound(w, n, k) && Accepted(w, n, stop)
  {
    hide RunIssues, CutRun, Unsuccessful, AdmissionDecisionIssues, AdmissionReceiptIssues, DispatchDecisionIssues,
         DispatchReceiptIssues, PublicationDecisionIssues, ArtifactIssues, TerminalIssues, HistoryIssues, OrderIssues, MarksOf,
         Schema, DecisionIssues, ReceiptIssues, DispatchIssues, DispatchedIssues, Halts, HaltsAdmission, HaltsRefused,
         HaltsPermitted, HaltsUndecided, RowAt, ExecutionRow;
    var run := CutRun(w, n, stop, k);
    RunIssuesAre(run);
    CutAdmission(w, n, stop, k);
    CutDispatchDecision(w, n, stop, k);
    if n <= 7 || Decidedly(w, k) { CutDispatchReceipt(w, n, stop, k); }
    CutUnpublished(w, n, stop, k);
    CutHistory(w, n, stop, k);
    CutRecords(w, n, stop, k);
  }

  // ---- Stopped at the publication.

  /** What the publication decision was held against. */
  function CutTrail(w: Story, n: nat, k: Records): Trail {
    Trail(k, Some(w.dispatch), Some(w.execution), if n > 15 then Some(w.announcement) else None)
  }

  lemma TrailOfCut(w: Story, n: nat, stop: Stop, k: Records)
    requires 12 <= n < LENGTH
    ensures TrailOf(CutRun(w, n, stop, k)) == CutTrail(w, n, k)
  {
    hide CutRun, Decisions, DecisionOf, Execution, Announced;
    CutTells(w, n, stop, k);
    CutRecords(w, n, stop, k);
  }

  predicate PublicationSound(w: Story, n: nat, k: Records) {
    hide PublicationIssues;
    PublicationIssues(CutTrail(w, n, k), w.publication) == {} && 0.0 <= w.publication.evaluatedAt <= w.at
  }

  lemma PublicationIssuesOfEvent(w: Story, t: Trail)
    ensures DecisionEventIssues(EventAt(w, 14), w.publication, PublicationAround(t, w.publication)) == {} <==>
      PublicationIssues(t, w.publication) == {} && 0.0 <= w.publication.evaluatedAt <= w.at
  {
    hide DocumentIssues, PublicationAround, BodyAt, StatusAt;
  }

  lemma CutPublicationDecision(w: Story, n: nat, stop: Stop, k: Records)
    requires 14 <= n < LENGTH && Ended(stop)
    ensures PublicationDecisionIssues(CutRun(w, n, stop, k)) == {} <==> n > 14 && PublicationSound(w, n, k)
  {
    hide History, Ended, BodyAt, StatusAt, CutEvents, CutRun, Decisions, DecisionOf, DecisionEventIssues,
         PublicationIssues, PublicationAround, TrailOf, CutTrail, Schema, Of, PreEffects, Actions, Statuses;
    CutSchema(w, n, stop, k);
    CutOnce(w, n, stop, k);
    CutDecisions(w, n, stop, k);
    CutTells(w, n, stop, k);
    TrailOfCut(w, n, stop, k);
    PublicationIssuesOfEvent(w, CutTrail(w, n, k));
  }

  lemma CutFreshnessStop(w: Story, n: nat, stop: Stop, k: Records)
    requires 14 < n < LENGTH && Ended(stop)
    ensures FreshnessStop(CutRun(w, n, stop, k)) <==>
      && w.publication.effect == "permit" && w.publication.eligible
      && Halts(stop, "local_candidate_publication_authorization_freshness", {"blocked"})
  {
    hide History, Ended, BodyAt, StatusAt, CutEvents, CutRun, Decisions, DecisionOf, Stops, Ends;
    var run := CutRun(w, n, stop, k);
    CutDecisions(w, n, stop, k);
    CutTells(w, n, stop, k);
    CutEndsAfter(w, n, stop, k, Only(Decisions(run, Publication)));
    CutStops(w, n, stop, k, "local_candidate_publication_authorization_freshness", {"blocked"});
  }

  /** Without an action and without an artifact, what the inspector asks of the effect. */
  lemma UnactedExactly(run: Run)
    requires Schema(run) == 6 && Actions(run) == [] && ActionTaken(run) == None && run.metadata == []
    ensures ArtifactIssues(run) == {} && TerminalIssues(run) == {} <==>
      && PresenceIssues(run) == {} && ReceiptsIssues(run) == {}
      && (PreEffects(run) != [] ==> AccountedFor(TrailOf(run), Dispositions(Announced(run), None)))
  {
    hide Schema, PresenceIssues, ReceiptsIssues, PreEffects, Actions, AccountedFor, TrailOf, Announced, ActionTaken,
         Dispositions;
  }

  lemma CutActs(w: Story, n: nat, stop: Stop, k: Records)
    requires 14 < n <= 16
    ensures
      var run := CutRun(w, n, stop, k);
      Schema(run) == 6 && Actions(run) == [] && ActionTaken(run) == None && run.metadata == []
  {
    hide CutRun, Schema, Actions, ActionTaken;
    CutSchema(w, n, stop, k);
    CutKinds(w, n, stop, k);
    CutTells(w, n, stop, k);
    CutRecords(w, n, stop, k);
  }

  lemma NothingAnnounced(run: Run)
    requires PreEffects(run) == [] && Actions(run) == [] && run.metadata == []
    requires Announced(run) == None && ActionTaken(run) == None
    ensures PresenceIssues(run) == {} && ReceiptsIssues(run) == {} <==>
      !(DecisionOf(run, Publication).Some? && DecisionOf(run, Publication).value.eligible)
  {
    hide PreEffects, Actions, DecisionOf, Announced, ActionTaken, FreshnessStop, ReceiptsIssues;
    NothingToSay(run);
  }

  lemma NothingToSay(run: Run)
    requires Announced(run) == None && ActionTaken(run) == None
    ensures ReceiptsIssues(run) == {}
  {
    hide PreEffects, Actions, DecisionOf, Announced, ActionTaken, PreEffectIssues, ActionIssues, PreEffectBinds, ActionBinds,
         Linked, PublicationEvent, Of, Held;
  }

  /** A decision without an announcement leaves nothing to inspect, unless it was a permit. */
  lemma CutUnannounced(w: Story, stop: Stop, k: Records)
    requires Ended(stop)
    ensures
      var run := CutRun(w, 15, stop, k);
      ArtifactIssues(run) == {} && TerminalIssues(run) == {} <==> !w.publication.eligible
  {
    hide Ended, CutRun, DecisionOf, Schema, PreEffects, Actions, AccountedFor, TrailOf, ArtifactIssues, TerminalIssues,
         Announced, ActionTaken, BodyAt, StatusAt, PresenceIssues, ReceiptsIssues;
    CutActs(w, 15, stop, k);
    CutKinds(w, 15, stop, k);
    CutTells(w, 15, stop, k);
    UnactedExactly(CutRun(w, 15, stop, k));
    NothingAnnounced(CutRun(w, 15, stop, k));
  }

  /** The announcement of a permitted publication that went no further. */
  predicate AnnouncementSound(w: Story, k: Records) {
    hide CleanAnnouncement, AccountedFor;
    && CleanAnnouncement(StoryTrail(w, k), w.publication, w.decided, AnnouncementRow(w), w.announcement)
    && w.announcement.shadowPersisted && AccountedFor(StoryTrail(w, k), [w.announcement.disposition])
  }

  lemma CutPresence(w: Story, stop: Stop, k: Records)
    ensures PresenceIssues(CutRun(w, 16, stop, k)) == {} <==> w.publication.eligible && FreshnessStop(CutRun(w, 16, stop, k))
  {
    hide CutRun, DecisionOf, PreEffects, Actions, FreshnessStop, Announced, ActionTaken, BodyAt, StatusAt;
    CutActs(w, 16, stop, k);
    CutKinds(w, 16, stop, k);
    CutTells(w, 16, stop, k);
  }

  lemma AnnouncedOnly(run: Run, row: Row, event: Option<Text>, doc: Option<Document>)
    requires Announced(run).Some? && ActionTaken(run) == None && |Of(run, Shadow(PublicationScope))| == 1
    requires PreEffects(run) != [] && RowOf(PreEffects(run)[0]) == row && PublicationEvent(run) == event
    requires DecisionOf(run, Publication) == doc
    ensures ReceiptsIssues(run) == {} <==>
      && PreEffectIssues(run.records, row, Announced(run).value) == {}
      && PreEffectBinds(doc, event, Announced(run).value) && Announced(run).value.shadowPersisted
  {
    hide DecisionOf, PreEffects, Announced, ActionTaken, PreEffectIssues, PreEffectBinds, PublicationEvent, Of;
  }

  lemma CutReceipts(w: Story, stop: Stop, k: Records)
    requires IsDigest(w.decided)
    ensures ReceiptsIssues(CutRun(w, 16, stop, k)) == {} <==>
      CleanAnnouncement(StoryTrail(w, k), w.publication, w.decided, AnnouncementRow(w), w.announcement)
      && w.announcement.shadowPersisted
  {
    hide CutRun, DecisionOf, PreEffects, Actions, Announced, ActionTaken, PreEffectIssues, PreEffectBinds, BodyAt, StatusAt,
         PublicationEvent, Of, ReceiptsIssues;
    CutActs(w, 16, stop, k);
    CutKinds(w, 16, stop, k);
    CutOnce(w, 16, stop, k);
    CutTells(w, 16, stop, k);
    CutRecords(w, 16, stop, k);
    CutPublicationEvent(w, stop, k);
    BodiesAt(w);
    AnnouncedOnly(CutRun(w, 16, stop, k), AnnouncementRow(w), Some(w.decided), Some(w.publication));
  }

  lemma CutAnnounced(w: Story, stop: Stop, k: Records)
    requires Ended(stop) && IsDigest(w.decided)
    ensures
      var run := CutRun(w, 16, stop, k);
      ArtifactIssues(run) == {} && TerminalIssues(run) == {} <==>
        AnnouncementSound(w, k) && w.publication.eligible && FreshnessStop(run)
  {
    hide Ended, CutRun, Schema, PreEffects, Actions, AccountedFor, TrailOf, FreshnessStop, ArtifactIssues,
         TerminalIssues, Announced, ActionTaken, PresenceIssues, ReceiptsIssues, CleanAnnouncement, BodyAt, StatusAt;
    CutActs(w, 16, stop, k);
    CutKinds(w, 16, stop, k);
    CutTells(w, 16, stop, k);
    TrailOfCut(w, 16, stop, k);
    CutPresence(w, stop, k);
    CutReceipts(w, stop, k);
    UnactedExactly(CutRun(w, 16, stop, k));
    assert Dispositions(Some(w.announcement), None) == [w.announcement.disposition];
  }

  lemma CutPublicationEvent(w: Story, stop: Stop, k: Records)
    requires IsDigest(w.decided)
    ensures PublicationEvent(CutRun(w, 16, stop, k)) == Some(w.decided)
  {
    hide History, BodyAt, StatusAt, CutEvents, CutRun, Decisions;
    CutDecisions(w, 16, stop, k);
  }

  /** A history cut short at the publication is reported clean exactly when what was recorded is
      sound and either the publication was refused before it was announced, or it was permitted,
      announced, and stopped because the permit had lapsed. */
  lemma StoppedAtPublicationExactly(w: Story, n: nat, stop: Stop, k: Records)
    requires 14 <= n <= 16 && Ended(stop) && IsDigest(w.decided)
    ensures RunIssues(CutRun(w, n, stop, k)) == {} <==>
      && n > 14 && Sound(w, n, k) && PublicationSound(w, n, k)
      && (n == 15 ==> !w.publication.eligible)
      && (n == 16 ==>
            && AnnouncementSound(w, k) && w.publication.eligible && w.publication.effect == "permit"
            && Halts(stop, "local_candidate_publication_authorization_freshness", {"blocked"}))
  {
    hide RunIssues, CutRun, Ended, AdmissionDecisionIssues, AdmissionReceiptIssues, DispatchDecisionIssues,
         DispatchReceiptIssues, PublicationDecisionIssues, ArtifactIssues, TerminalIssues, HistoryIssues, OrderIssues, MarksOf,
         Schema, DecisionIssues, ReceiptIssues, DispatchIssues, DispatchedIssues, Halts, RowAt, ExecutionRow,
         PublicationSound, AnnouncementSound, FreshnessStop;
    var run := CutRun(w, n, stop, k);
    RunIssuesAre(run);
    CutAdmission(w, n, stop, k);
    CutDispatchDecision(w, n, stop, k);
    if Decidedly(w, k) { CutDispatchReceipt(w, n, stop, k); }
    CutPublicationDecision(w, n, stop, k);
    if n == 15 { CutUnannounced(w, stop, k); }
    if n == 16 {
      CutAnnounced(w, stop, k);
      CutFreshnessStop(w, n, stop, k);
    }
    CutHistory(w, n, stop, k);
    CutRecords(w, n, stop, k);
  }

  // ---- The controller's own stops.

  /** What is persisted when the evaluation of an admission fails. */
  function FailedAdmission(x: Attempt, evaluatedAt: real): Payload {
    Payload(x.RunRef(), x.ProfileRef(), x.bindingDigest, x.selectionDigest, x.profileVersionRef,
            x.profileConfigurationDigest, x.contextDigest, x.promptDigest, Digest(x.intent.ToJson()),
            Digest(AdmissionIntent(x.intent).ToJson()), x.requestClass, x.ownMockRunner, x.legacyExecutable,
            x.requiredBeforeRun, x.ApproverRef(), Null, None, Null, None, Null, None, "indeterminate", None, false, false,
            false, false, ["authorization_evaluation_failed"], evaluatedAt, Some("request_or_evaluation"))
  }

  /** And when that of a dispatch does. */
  function FailedDispatch(d: DispatchAttempt, evaluatedAt: real): Document {
    Document(WrapperOf(d), Null, None, Null, None, Null, None, "indeterminate", None, false, false, false, false,
             ["authorization_evaluation_failed"], evaluatedAt, true)
  }

  /** What a failed evaluation leaves of a persisted admission: all that was decided about is gone. */
  function WithoutDecision(w: Payload): Payload {
    w.(request := Null, requestDigest := None, policy := Null, policyDigest := None, decision := Null,
       decisionDigest := None, effect := "indeterminate", derived := None, current := false, ceilingSatisfied := false,
       obligationsSupported := false, eligible := false, blocks := ["authorization_evaluation_failed"],
       failureStage := Some("request_or_evaluation"))
  }

  /** The inspector accepts no other failed admission than such a one. */
  lemma FailedAdmissionIsBare(f: Facts, row: Row, w: Payload)
    requires DecisionIssues(f, row, w) == {} && w.failureStage.Some?
    ensures w == WithoutDecision(w)
  {
    hide EvaluationIssues, BindingMatches;
  }

  /** And of the later boundaries, no other failed decision. */
  lemma FailedDecisionIsBare(doc: Document, around: Surroundings)
    requires DocumentIssues(doc, around) == {} && doc.failed
    ensures
      doc == Document(doc.wrapper, Null, None, Null, None, Null, None, "indeterminate", None, false, false, false, false,
                      ["authorization_evaluation_failed"], doc.evaluatedAt, true)
  {
    hide DocumentProjects, ReadRequest, ReadPolicy, Evaluate, Decision.ToJson;
  }

  lemma FailedAdmissionIsSound(x: Attempt, now: real, f: Facts, row: Row)
    requires Consistent(f, x) && x.ownMockRunner && x.legacyExecutable && x.requestClass in {0, 1} && InPlace(row, now)
    requires 0.0 <= now
    ensures DecisionIssues(f, row, FailedAdmission(x, now)) == {}
  {
    hide EvaluationIssues, Intent.ToJson;
  }

  lemma FailedDispatchIsSound(d: DispatchAttempt, now: real, k: Records)
    requires Recorded(k, d) && d.attempt.legacyExecutable && d.attempt.requestClass in {0, 1}
    requires d.assessmentDigest == d.assessment.Digest()
    ensures DispatchIssues(k, FailedDispatch(d, now)) == {}
  {
    hide Assessment.Digest, Lineage, Intent.ToJson, DocumentProjects, Reevaluates;
  }

  /** The admission decision is the gate's, or that of a failed evaluation. */
  predicate AdmissionDecidedBy(w: Story, x: Attempt, now: real) {
    hide ToPayload, AuthorizationOf, FailedAdmission;
    && x.Typed() && x.ownMockRunner && x.legacyExecutable && x.requestClass in {0, 1} && 0.0 <= now <= w.at
    && (|| (x.Accepted(now) && w.admitting == ToPayload(AuthorizationOf(x, now)))
        || w.admitting == FailedAdmission(x, now))
  }

  /** And so is the dispatch decision. */
  predicate DispatchDecidedBy(w: Story, d: DispatchAttempt, now: real) {
    hide Dispatching, FailedDispatch;
    && d.Typed() && d.attempt.legacyExecutable && d.attempt.requestClass in {0, 1} && 0.0 <= now <= w.at
    && d.assessmentDigest == d.assessment.Digest()
    && ((d.Accepted(now) && w.dispatch == Dispatching(d, now).doc) || w.dispatch == FailedDispatch(d, now))
  }

  /** Whatever the first `n` events record of decisions and receipts is the controller's. */
  predicate Controlled(
    w: Story, n: nat, k: Records, d: DispatchAttempt, admission: (real, real, real), dispatch: (real, real, real))
  {
    hide AdmissionDecidedBy, DispatchDecidedBy, AdmittedBy, DispatchedBy, Recorded;
    && Recorded(k, d)
    && (n > 3 ==> AdmissionDecidedBy(w, d.attempt, admission.0))
    && (n > 4 ==> AdmittedBy(w, d.attempt, admission.0, admission.1, admission.2))
    && (n > 7 ==> DispatchDecidedBy(w, d, dispatch.0))
    && (n > 11 ==> DispatchedBy(w, k, d, dispatch.0, dispatch.1, dispatch.2))
  }

  lemma AdmissionIsSound(w: Story, k: Records, x: Attempt, now: real)
    requires AdmissionDecidedBy(w, x, now) && Consistent(k.facts, x)
    ensures DecisionIssues(k.facts, RowAt(w, 3), w.admitting) == {}
  {
    hide DecisionIssues, AuthorizationOf, ToPayload, Consistent, Attempt.Accepted, Attempt.Typed, FailedAdmission;
    if w.admitting == FailedAdmission(x, now) {
      FailedAdmissionIsSound(x, now, k.facts, RowAt(w, 3));
    } else {
      DecisionAgreement(x, now, k.facts, RowAt(w, 3));
    }
  }

  lemma DispatchIsSound(w: Story, k: Records, d: DispatchAttempt, now: real)
    requires DispatchDecidedBy(w, d, now) && Recorded(k, d)
    ensures Decidedly(w, k)
  {
    hide Dispatching, FailedDispatch, DispatchIssues, DispatchAttempt.Typed, Consistent, Assessment.Digest;
    if w.dispatch == FailedDispatch(d, now) {
      FailedDispatchIsSound(d, now, k);
      FailedAt(d, now);
    } else {
      DispatchAgreement(d, now, k);
      DispatchingAt(d, now);
    }
  }

  lemma FailedAt(d: DispatchAttempt, now: real)
    ensures FailedDispatch(d, now).evaluatedAt == now
  {
  }

  lemma AdmissionReceiptIsSound(w: Story, k: Records, x: Attempt, now: real, startedAt: real, completedAt: real)
    requires AdmittedBy(w, x, now, startedAt, completedAt) && AdmissionDecidedBy(w, x, now) && Consistent(k.facts, x)
    ensures StoryAdmits(w, k)
  {
    hide AdmittedBy, Consistent, Attempt.Typed, StoryAdmits, ToPayload, AuthorizationOf, FailedAdmission;
    AdmittedCleanly(w, k, x, now, startedAt, completedAt);
  }

  /** What the controller records is sound. */
  lemma ControlledIsSound(
    w: Story, n: nat, k: Records, d: DispatchAttempt, admission: (real, real, real), dispatch: (real, real, real))
    requires Controlled(w, n, k, d, admission, dispatch)
    ensures Sound(w, n, k)
  {
    hide AdmissionDecidedBy, DispatchDecidedBy, AdmittedBy, DispatchedBy, DecisionIssues, ReceiptIssues, DispatchIssues,
         DispatchedIssues, Consistent, RowAt, ExecutionRow;
    if n > 3 { AdmissionIsSound(w, k, d.attempt, admission.0); }
    if n > 4 { AdmissionReceiptIsSound(w, k, d.attempt, admission.0, admission.1, admission.2); }
    if n > 7 { DispatchIsSound(w, k, d, dispatch.0); }
    if n > 11 { DispatchReceiptIsSound(w, k, d, dispatch.0, dispatch.1, dispatch.2); }
  }

  lemma DispatchReceiptIsSound(w: Story, k: Records, d: DispatchAttempt, now: real, startedAt: real, completedAt: real)
    requires DispatchedBy(w, k, d, now, startedAt, completedAt) && DispatchDecidedBy(w, d, now) && Recorded(k, d)
    ensures StoryDispatches(w, k)
  {
    hide DispatchedBy, Recorded, DispatchAttempt.Typed, StoryDispatches, Dispatching, FailedDispatch;
    DispatchedCleanly(w, k, d, now, startedAt, completedAt);
  }

  /** Of the histories that the controller leaves when it stops an attempt before publication, the
      inspector accepts exactly those that end in an accepted way. */
  lemma ControllerStopsExactly(
    w: Story, n: nat, stop: Stop, k: Records, d: DispatchAttempt, admission: (real, real, real),
    dispatch: (real, real, real))
    requires 3 <= n <= 13 && Unsuccessful(stop) && Controlled(w, n, k, d, admission, dispatch)
    ensures RunIssues(CutRun(w, n, stop, k)) == {} <==> Accepted(w, n, stop)
  {
    hide Controlled, Sound, Accepted, RunIssues, CutRun, Unsuccessful;
    StoppedExactly(w, n, stop, k);
    ControlledIsSound(w, n, k, d, admission, dispatch);
  }

  /** The history of an attempt that was refused admission raises no issue. */
  lemma RefusedAdmissionIsClean(w: Story, n: nat, stop: Stop, k: Records, d: DispatchAttempt, now: real)
    requires n == 4 && stop.phase == "task_admission_authorization" && stop.status == "blocked"
    requires Recorded(k, d) && AdmissionDecidedBy(w, d.attempt, now) && !w.admitting.eligible
    ensures RunIssues(CutRun(w, n, stop, k)) == {}
  {
    hide Recorded, AdmissionDecidedBy, RunIssues, CutRun, AdmittedBy, DispatchedBy, DispatchDecidedBy;
    ControllerStopsExactly(w, n, stop, k, d, (now, now, now), (now, now, now));
  }

  /** Nor does that of an attempt whose dispatch was refused. */
  lemma RefusedDispatchIsClean(
    w: Story, n: nat, stop: Stop, k: Records, d: DispatchAttempt, admission: (real, real, real),
    dispatch: (real, real, real))
    requires n == 8 && stop.phase == "mock_dispatch_authorization" && stop.status == "blocked"
    requires Controlled(w, n, k, d, admission, dispatch) && !w.dispatch.eligible
    ensures RunIssues(CutRun(w, n, stop, k)) == {}
  {
    hide Controlled, RunIssues, CutRun;
    ControllerStopsExactly(w, n, stop, k, d, admission, dispatch);
  }

  /** Nor that of one whose permit had lapsed, before or after it was marked as running. */
  lemma LapsedDispatchIsClean(
    w: Story, n: nat, stop: Stop, k: Records, d: DispatchAttempt, admission: (real, real, real),
    dispatch: (real, real, real))
    requires 8 <= n <= 10 && Controlled(w, n, k, d, admission, dispatch) && w.dispatch.eligible
    requires stop.phase == "mock_dispatch_authorization_freshness" && stop.status in {"blocked", "cancelled", "failed"}
    ensures RunIssues(CutRun(w, n, stop, k)) == {}
  {
    hide Controlled, RunIssues, CutRun;
    ControllerStopsExactly(w, n, stop, k, d, admission, dispatch);
  }

  /** The publication decision is the gate's, about an accepted and scanned candidate. */
  predicate PublicationDecidedBy(w: Story, n: nat, k: Records, p: Candidate, now: real) {
    hide Publishing, TrailRecorded;
    && p.Accepted(now) && p.attempt.Typed() && p.accepted && p.scanned && 0.0 <= now <= w.at
    && w.publication == Publishing(p, now).doc && TrailRecorded(CutTrail(w, n, k).(intended := None), p)
  }

  /** Nor does the history of an attempt whose publication was refused, however it ends: even when
      its last event claims success. */
  lemma RefusedPublicationIsClean(
    w: Story, n: nat, stop: Stop, k: Records, d: DispatchAttempt, p: Candidate, admission: (real, real, real),
    dispatch: (real, real, real), now: real)
    requires n == 15 && Ended(stop) && IsDigest(w.decided)
    requires Controlled(w, n, k, d, admission, dispatch) && PublicationDecidedBy(w, n, k, p, now)
    requires !w.publication.eligible
    ensures RunIssues(CutRun(w, n, stop, k)) == {}
  {
    hide Controlled, RunIssues, CutRun, Publishing, TrailRecorded, Candidate.Accepted, Attempt.Typed, PublicationIssues, Sound,
         Ended, AnnouncementSound;
    ControlledIsSound(w, n, k, d, admission, dispatch);
    PublicationAgreement(p, now, CutTrail(w, n, k));
    PublishingAt(p, now);
    StoppedAtPublicationExactly(w, n, stop, k);
  }

  /** The announcement is the one that the controller builds, with a recorded shadow. */
  predicate AnnouncedBy(w: Story, k: Records, p: Candidate, shadow: Shadowed, startedAt: real) {
    hide BuildPreEffect, AccountedFor;
    && shadow.persisted && shadow.Valid() && startedAt <= w.at
    && BuildPreEffect(p, w.publication, w.decided, shadow, startedAt) == Ok(w.announcement)
    && AccountedFor(StoryTrail(w, k), [w.announcement.disposition])
  }

  lemma AnnouncementAsBuilt(w: Story, n: nat, k: Records, p: Candidate, now: real, shadow: Shadowed, startedAt: real)
    requires PublicationDecidedBy(w, n, k, p, now) && AnnouncedBy(w, k, p, shadow, startedAt)
    ensures AsAnnounced(p, now, w.decided, AnnouncementRow(w), w.announcement) && w.announcement.shadowPersisted
    ensures w.publication.effect == "permit"
  {
    hide Publishing, PreEffect.OwnDigest, Candidate.Accepted, TrailRecorded, AccountedFor, Entry;
    AnnouncementDigest(p, w.publication, w.decided, shadow, startedAt);
  }

  /** Nor does that of one whose publication was permitted and announced, and whose permit lapsed
      before it took effect. */
  lemma LapsedPublicationIsClean(
    w: Story, n: nat, stop: Stop, k: Records, d: DispatchAttempt, p: Candidate, admission: (real, real, real),
    dispatch: (real, real, real), now: real, shadow: Shadowed, startedAt: real)
    requires n == 16 && stop.phase == "local_candidate_publication_authorization_freshness" && stop.status == "blocked"
    requires Controlled(w, n, k, d, admission, dispatch) && PublicationDecidedBy(w, n, k, p, now)
    requires AnnouncedBy(w, k, p, shadow, startedAt) && w.publication.eligible && IsDigest(w.decided)
    ensures RunIssues(CutRun(w, n, stop, k)) == {}
  {
    hide Controlled, RunIssues, CutRun, Publishing, TrailRecorded, Candidate.Accepted, Attempt.Typed, PublicationIssues, Sound,
         AsAnnounced, CleanAnnouncement, AccountedFor, BuildPreEffect;
    ControlledIsSound(w, n, k, d, admission, dispatch);
    AnnouncementAsBuilt(w, n, k, p, now, shadow, startedAt);
    AnnouncementExactly(p, now, StoryTrail(w, k), w.decided, AnnouncementRow(w), w.announcement);
    PublishingAt(p, now);
    EligibleTold(p, now);
    StoppedAtPublicationExactly(w, n, stop, k);
  }

  // ---- Stops that the inspector does not accept.

  /** Where the controller stops an attempt although nothing was refused and the record it was
      waiting for had been written, or before billing for another reason than a failed write. */
  predicate Unexpected(n: nat, stop: Stop) {
    || (n in {5, 6}
        && stop.phase in {"task_admission_action_receipt_persistence", "mock_dispatch_authorization_freshness",
                          "billing_preflight"})
    || (n == 7 && stop.phase == "billing_assessment_persistence")
    || (n == 9 && stop.phase == "runner_execution_transition")
  }

  lemma PhasesDiffer()
    ensures "billing_assessment_persistence" !in
      {"task_admission_action_receipt_persistence", "mock_dispatch_authorization_freshness", "billing_preflight"}
    ensures "billing_assessment_persistence" != "mock_dispatch_authorization_persistence"
    ensures "runner_execution_transition" != "mock_dispatch_authorization_freshness"
  {
    assert |"billing_assessment_persistence"| == 30 && |"billing_preflight"| == 17;
    assert |"mock_dispatch_authorization_persistence"| == 39 && |"mock_dispatch_authorization_freshness"| == 37;
    assert |"task_admission_action_receipt_persistence"| == 41 && |"runner_execution_transition"| == 27;
  }

  /** These histories are reported, although the controller stopped as it should. */
  lemma UnexpectedStopsAreReported(w: Story, n: nat, stop: Stop, k: Records)
    requires Unsuccessful(stop) && Unexpected(n, stop)
    ensures RunIssues(CutRun(w, n, stop, k)) != {}
  {
    hide RunIssues, CutRun, Sound, Unsuccessful;
    PhasesDiffer();
    StoppedExactly(w, n, stop, k);
  }

  /** And this one is not, although the controller never leaves it: refused admission, the attempt
      ends as if its billing could not be recorded. */
  lemma MislabelledRefusalIsClean(w: Story, n: nat, stop: Stop, k: Records)
    requires n == 4 && stop.phase == "billing_assessment_persistence" && stop.status in BROKEN
    requires AdmissionSound(w, n, k) && !w.admitting.eligible
    ensures RunIssues(CutRun(w, n, stop, k)) == {}
  {
    hide RunIssues, CutRun, AdmissionSound;
    StoppedExactly(w, n, stop, k);
  }
}
