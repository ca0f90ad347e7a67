/** The three boundaries that one attempt passes: what one of them decides about the next. */
module Boundaries {
  import opened Prelude
  import opened Canon
  import opened Authorization
  import opened Evaluator
  import opened PermissionClasses
  import opened Admission
  import opened EnforcingDecisions
  import opened DispatchBoundary
  import opened PublicationBoundary

  predicate Admitted(x: Attempt, now: real) { AuthorizationOf(x, now).blocks == [] }

  /** The two gates give the attempt the same answer, at any two moments: what is admitted is
      dispatched, and of the rest only an attempt that is not the controller's own runner's. */
  lemma AdmittedIsDispatched(d: DispatchAttempt, admitted: real, dispatched: real)
    requires d.attempt.Accepted(admitted) && d.Accepted(dispatched) && d.Typed()
    ensures Admitted(d.attempt, admitted) <==> d.attempt.ownMockRunner && Dispatching(d, dispatched).doc.eligible
  {
    hide Dispatching, Attempt.Modest, AuthorizationOf, Attempt.Accepted, DispatchAttempt.Accepted, Attempt.Typed, BareDispatch,
         AdmissionRequest;
    GateAuthorizesExactly(d.attempt, admitted);
    DispatchGateExactly(d, dispatched);
  }

  lemma ModestIsLow(x: Attempt)
    requires x.Modest()
    ensures LowImpact(x.intent)
  {
  }

  /** For an admitted attempt the last gate turns on three things alone that the others could not
      know: that the run was safe, and its result accepted and scanned. */
  lemma AdmittedIsPublished(p: Candidate, admitted: real, published: real)
    requires p.attempt.Accepted(admitted) && p.Accepted(published) && p.attempt.Typed()
    requires Admitted(p.attempt, admitted)
    ensures Publishing(p, published).doc.eligible <==> p.safe && p.accepted && p.scanned
  {
    hide Publishing, Attempt.Modest, AuthorizationOf, Attempt.Accepted, Candidate.Accepted, Attempt.Typed, LowImpact,
         BarePublication, AdmissionRequest;
    GateAuthorizesExactly(p.attempt, admitted);
    PublicationGateExactly(p, published);
    ModestIsLow(p.attempt);
  }

  /** It is no second admission: whatever is asked beforehand of the operator, and however far the
      task's own effects reach, does not come up again. */
  lemma PublishedUnadmitted(p: Candidate, admitted: real, published: real)
    requires p.attempt.Accepted(admitted) && p.Accepted(published) && p.attempt.Typed()
    requires Publishing(p, published).doc.eligible
    ensures Admitted(p.attempt, admitted) <==> !p.attempt.requiredBeforeRun && p.attempt.Modest()
  {
    hide Publishing, Attempt.Modest, AuthorizationOf, Attempt.Accepted, Candidate.Accepted, Attempt.Typed, LowImpact,
         BarePublication, AdmissionRequest;
    GateAuthorizesExactly(p.attempt, admitted);
    PublicationGateExactly(p, published);
  }
}
