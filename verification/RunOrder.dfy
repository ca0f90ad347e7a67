/** The order of what a run records, wherever it ended: the pairwise checks that the inspector
    scatters over its loop amount to one order and to rules of presence. */
module RunOrder {
  import opened Prelude
  import opened Sequences
  import opened RunInspection
  import opened RunLaws

  /** The marks in the order in which they belong. */
  function Chain(m: Marks): (r: seq<Option<nat>>)
    ensures |r| == 19
  {
    [m.created, m.selection, m.binding, m.admissionDecision, m.admissionReceipt, m.admission, m.billing,
     m.dispatchDecision, m.running, m.dispatch, m.runnerFirst, m.runnerLast, m.dispatchReceipt, m.accounting,
     m.publication, m.publicationDecision, m.preEffect, m.action, m.terminal]
  }

  /** What calls for something else to be recorded. */
  predicate Founded(m: Marks, enforcing: bool) {
    && (m.admissionDecision.Some? ==> m.binding.Some?)
    && (m.admissionReceipt.Some? ==> m.admissionDecision.Some?)
    && (m.running.Some? ==> m.billing.Some?)
    && (m.dispatchDecision.Some? ==> m.admission.Some?)
    && (m.dispatch.Some? ==> m.running.Some?)
    && (m.runnerFirst.Some? ==> m.running.Some? && m.dispatch.Some?)
    && (m.dispatchReceipt.Some? ==> m.running.Some? && m.dispatchDecision.Some?)
    && (m.accounting.Some? ==> m.dispatch.Some?)
    && (m.publication.Some? ==> m.accounting.Some?)
    && (m.publicationDecision.Some? ==> m.accounting.Some? && m.dispatchReceipt.Some?)
    && (m.preEffect.Some? ==> m.accounting.Some? && if enforcing then m.publicationDecision.Some? else m.publication.Some?)
    && (m.action.Some? ==> m.preEffect.Some?)
  }

  /** The one pair that nothing compares: a run marked as running that was not dispatched, against
      its end.  The first and the last event of a runner may be the same. */
  predicate Uncompared(m: Marks, i: nat, j: nat) {
    (i == 8 && j == 18 && m.dispatch == None && m.dispatchReceipt == None) || (i == 10 && j == 11)
  }

  predicate Before(x: Option<nat>, y: Option<nat>) { x.Some? && y.Some? ==> x.value < y.value }

  predicate Ascending(m: Marks) {
    forall i, j | 0 <= i < j < 19 && !Uncompared(m, i, j) :: Before(Chain(m)[i], Chain(m)[j])
  }

  /** A bound run, whose runner's events are read off in order. */
  predicate Bound(m: Marks) {
    && m.binding.Some? && (m.runnerFirst.Some? <==> m.runnerLast.Some?)
    && (m.runnerFirst.Some? ==> m.runnerFirst.value <= m.runnerLast.value)
  }

  predicate Placed(m: Marks, enforcing: bool) {
    && !FirstHalfMisplaced(m) && !SecondHalfMisplaced(m, enforcing)
    && (m.running.Some? ==> m.billing.Some?)
  }

  lemma PlacedIsFounded(m: Marks, enforcing: bool)
    requires Bound(m) && Placed(m, enforcing)
    ensures Founded(m, enforcing)
  {
  }

  /** Mark `i` precedes every later mark with which it is compared. */
  predicate Ahead(m: Marks, i: nat)
    requires i < 19
  {
    forall j | i < j < 19 && !Uncompared(m, i, j) :: Before(Chain(m)[i], Chain(m)[j])
  }

  lemma CreatedMark(m: Marks, enforcing: bool)
    requires Bound(m) && Placed(m, enforcing) && Founded(m, enforcing)
    ensures Ahead(m, 0)
  {
    hide Founded, FirstHalfMisplaced, SecondHalfMisplaced;
    assert Before(m.created, m.selection) && Before(m.created, m.binding) by { CreatedFirst(m); }
    BindingMark(m, enforcing, 2);
    assert Chain(m)[0] == m.created && Chain(m)[1] == m.selection && Chain(m)[2] == m.binding;
  }

  lemma CreatedFirst(m: Marks)
    requires !FirstHalfMisplaced(m)
    ensures Before(m.created, m.selection) && Before(m.created, m.binding)
  {
  }

  lemma SelectionMark(m: Marks, enforcing: bool, i: nat)
    requires Bound(m) && Placed(m, enforcing) && Founded(m, enforcing) && i == 1
    ensures Ahead(m, i)
  {
  }

  lemma BindingMark(m: Marks, enforcing: bool, i: nat)
    requires Bound(m) && Placed(m, enforcing) && Founded(m, enforcing) && i == 2
    ensures Ahead(m, i)
  {
  }

  lemma AdmissionMarks(m: Marks, enforcing: bool, i: nat)
    requires Bound(m) && Placed(m, enforcing) && Founded(m, enforcing) && 3 <= i < 5
    ensures Ahead(m, i)
  {
  }

  lemma EarlyMarks(m: Marks, enforcing: bool, i: nat)
    requires Bound(m) && Placed(m, enforcing) && Founded(m, enforcing) && 5 <= i < 7
    ensures Ahead(m, i)
  {
  }

  lemma MiddleMarks(m: Marks, enforcing: bool, i: nat)
    requires Bound(m) && Placed(m, enforcing) && Founded(m, enforcing) && 7 <= i < 9
    ensures Ahead(m, i)
  {
  }

  lemma RunnerMarks(m: Marks, enforcing: bool, i: nat)
    requires Bound(m) && Placed(m, enforcing) && Founded(m, enforcing) && 9 <= i < 12
    ensures Ahead(m, i)
  {
  }

  lemma LateMarks(m: Marks, enforcing: bool, i: nat)
    requires Bound(m) && Placed(m, enforcing) && Founded(m, enforcing) && 12 <= i < 19
    ensures Ahead(m, i)
  {
  }

  lemma AscendingIsPlaced(m: Marks, enforcing: bool)
    requires Bound(m) && Founded(m, enforcing) && Ascending(m)
    ensures Placed(m, enforcing)
  {
    hide Ascending, AdmissionDecisionMisplaced, AdmissionReceiptMisplaced, SelectionMisplaced, BindingMisplaced,
         AdmissionMisplaced, DispatchDecisionMisplaced, BillingMisplaced, DispatchMisplaced, RunnerMisplaced,
         DispatchReceiptMisplaced, AccountingMisplaced, PublicationMisplaced, PublicationDecisionMisplaced,
         PreEffectMisplaced, ActionMisplaced;
    AdmissionPlaced(m, enforcing);
    BindingPlaced(m, enforcing);
    DispatchPlaced(m, enforcing);
    RunnerPlaced(m, enforcing);
    PublicationPlaced(m, enforcing);
    EffectPlaced(m, enforcing);
  }

  lemma AdmissionPlaced(m: Marks, enforcing: bool)
    requires Bound(m) && Founded(m, enforcing) && Ascending(m)
    ensures !AdmissionDecisionMisplaced(m) && !AdmissionReceiptMisplaced(m)
  {
    var c := Chain(m);
    assert c[1] == m.selection && c[2] == m.binding && c[3] == m.admissionDecision && c[4] == m.admissionReceipt
        && c[5] == m.admission && c[6] == m.billing && c[8] == m.running && c[18] == m.terminal;
  }

  lemma BindingPlaced(m: Marks, enforcing: bool)
    requires Bound(m) && Founded(m, enforcing) && Ascending(m)
    ensures !SelectionMisplaced(m) && !BindingMisplaced(m) && !AdmissionMisplaced(m)
  {
    var c := Chain(m);
    assert c[0] == m.created && c[1] == m.selection && c[2] == m.binding && c[5] == m.admission
        && c[6] == m.billing && c[8] == m.running && c[18] == m.terminal;
  }

  lemma DispatchPlaced(m: Marks, enforcing: bool)
    requires Bound(m) && Founded(m, enforcing) && Ascending(m)
    ensures !DispatchDecisionMisplaced(m) && !BillingMisplaced(m) && !DispatchMisplaced(m)
  {
    var c := Chain(m);
    assert c[5] == m.admission && c[6] == m.billing && c[7] == m.dispatchDecision && c[8] == m.running
        && c[9] == m.dispatch && c[10] == m.runnerFirst && c[13] == m.accounting && c[18] == m.terminal;
  }

  lemma RunnerPlaced(m: Marks, enforcing: bool)
    requires Bound(m) && Founded(m, enforcing) && Ascending(m)
    ensures !RunnerMisplaced(m) && !DispatchReceiptMisplaced(m)
  {
    var c := Chain(m);
    assert c[7] == m.dispatchDecision && c[8] == m.running && c[9] == m.dispatch && c[10] == m.runnerFirst
        && c[11] == m.runnerLast && c[12] == m.dispatchReceipt && c[13] == m.accounting && c[18] == m.terminal;
  }

  lemma PublicationPlaced(m: Marks, enforcing: bool)
    requires Bound(m) && Founded(m, enforcing) && Ascending(m)
    ensures !AccountingMisplaced(m) && !PublicationMisplaced(m) && !PublicationDecisionMisplaced(m)
  {
    var c := Chain(m);
    assert c[9] == m.dispatch && c[12] == m.dispatchReceipt && c[13] == m.accounting && c[14] == m.publication
        && c[15] == m.publicationDecision && c[16] == m.preEffect && c[18] == m.terminal;
  }

  lemma EffectPlaced(m: Marks, enforcing: bool)
    requires Bound(m) && Founded(m, enforcing) && Ascending(m)
    ensures !PreEffectMisplaced(m, enforcing) && !ActionMisplaced(m)
  {
    var c := Chain(m);
    assert c[13] == m.accounting && c[14] == m.publication && c[15] == m.publicationDecision
        && c[16] == m.preEffect && c[17] == m.action && c[18] == m.terminal;
  }

  /** However far a bound run came, its order is accepted exactly when nothing is there without what
      it calls for and any two of its marks stand in the order of the chain, but for that pair. */
  lemma OrderHolds(m: Marks, enforcing: bool)
    requires Bound(m)
    ensures OrderIssues(m, enforcing) == {} <==> Founded(m, enforcing) && Ascending(m)
  {
    hide OrderIssues, FirstHalfMisplaced, SecondHalfMisplaced, Founded, Chain, Before, Uncompared;
    NoOrderIssues(m, enforcing);
    if Placed(m, enforcing) {
      PlacedIsFounded(m, enforcing);
      forall i: nat, j: nat | i < j < 19 && !Uncompared(m, i, j) ensures Before(Chain(m)[i], Chain(m)[j]) {
        if i == 0 { CreatedMark(m, enforcing); }
        else if i == 1 { SelectionMark(m, enforcing, i); }
        else if i == 2 { BindingMark(m, enforcing, i); }
        else if i < 5 { AdmissionMarks(m, enforcing, i); }
        else if i < 7 { EarlyMarks(m, enforcing, i); }
        else if i < 9 { MiddleMarks(m, enforcing, i); }
        else if i < 12 { RunnerMarks(m, enforcing, i); }
        else { LateMarks(m, enforcing, i); }
      }
    }
    if Founded(m, enforcing) && Ascending(m) { AscendingIsPlaced(m, enforcing); }
  }

  /** A run that was marked as running only after it had ended. */
  function EndedFirst(): Marks {
    Marks(
      Some(0), Some(1), Some(2), None, None, Some(3), Some(4), Some(5), Some(7), None, None, None, None, None, None, None,
      None, None, Some(6))
  }

  /** Its order alone is not reported. */
  lemma EndedFirstIsAccepted()
    ensures OrderIssues(EndedFirst(), true) == {} && !Before(EndedFirst().running, EndedFirst().terminal)
  {
    hide OrderIssues;
    NoOrderIssues(EndedFirst(), true);
  }

  // ---- Of runs.

  lemma MarksAreBound(run: Run)
    requires Numbered(run.events) && |Bindings(run)| == 1
    ensures Bound(MarksOf(run))
  {
    hide Of, Bindings, Statuses, Admissions, AdmissionReceipts, Decisions, Running, DispatchReceipts, PreEffects, Actions,
         Terminals;
    var rows := Of(run, RunnerObserved);
    if rows != [] { FirstIsFirst(run); }
  }

  lemma FirstIsFirst(run: Run)
    requires Numbered(run.events) && Of(run, RunnerObserved) != []
    ensures
      var rows := Of(run, RunnerObserved);
      rows[0].sequence <= rows[|rows| - 1].sequence
  {
    SelectionIsNumbered(run.events, (e: Event) => e.body == RunnerObserved);
  }

  /** A clean bound run recorded what it recorded in this order, wherever it ended. */
  lemma CleanRunsAreOrdered(run: Run)
    requires Numbered(run.events) && RunIssues(run) == {} && |Bindings(run)| == 1
    ensures Founded(MarksOf(run), Schema(run) in PUBLICATION_ENFORCING) && Ascending(MarksOf(run))
  {
    hide *;
    RunIssuesAre(run);
    MarksAreBound(run);
    OrderHolds(MarksOf(run), Schema(run) in PUBLICATION_ENFORCING);
  }
}
