/** The reasons that the three gates give, told from the fields of the attempt. */
module GateReasons {
  import opened Prelude
  import opened Canon
  import opened Sequences
  import opened Authorization
  import opened Evaluator
  import opened EvaluatorLaws
  import opened PermissionClasses
  import opened Receipts
  import opened Proposals
  import opened Admission
  import opened AdmissionInspection
  import opened RunRecords
  import opened EnforcingDecisions
  import opened DispatchBoundary
  import opened PublicationBoundary

  function Due(b: bool, reason: Word): seq<Word> { if b then [reason] else [] }

  /** The admission gate gives each reason that applies, in a fixed order, and no other: its own
      decision is never mismatched, never out of date, and never owes what is not supported. */
  lemma AdmissionReasons(x: Attempt, now: real)
    requires x.Accepted(now) && x.Typed()
    ensures AuthorizationOf(x, now).blocks ==
      Due(!x.ownMockRunner, "controller_owned_mock_runner_not_verified")
      + Due(x.requestClass != 1, "task_permission_class_not_local_draft")
      + Due(!x.legacyExecutable, "legacy_gate_not_executable")
      + Due(x.requiredBeforeRun, "pre_run_approval_not_supported")
      + Due(!x.Modest() || x.requiredBeforeRun, "authorization_effect_not_permit")
      + Due(!x.Modest() || x.requestClass != 1, "authorization_class_ceiling_exceeded")
  {
    hide AdmissionRequest, AdmissionPolicy, Evaluate, Derive, ObligationsSupported, DecisionMatches, Blocks, Attempt.Modest;
    var r, p := AdmissionRequest(x, now), AdmissionPolicy(x.requiredBeforeRun, x.ApproverRef());
    var d := Evaluate(r, p);
    GateDecision(x, now);
    AdmissionIsDraft(x, now);
    AdmissionBlocks(x.ownMockRunner, x.requestClass, x.legacyExecutable, x.requiredBeforeRun, d.effect == "permit",
                    d.derived <= x.requestClass && d.derived <= 1);
  }

  lemma AdmissionBlocks(own: bool, requested: Class, legacy: bool, required: bool, permit: bool, ceiling: bool)
    ensures Blocks(own, requested, legacy, required, true, permit, true, ceiling, true) ==
      Due(!own, "controller_owned_mock_runner_not_verified")
      + Due(requested != 1, "task_permission_class_not_local_draft")
      + Due(!legacy, "legacy_gate_not_executable")
      + Due(required, "pre_run_approval_not_supported")
      + Due(!permit, "authorization_effect_not_permit")
      + Due(!ceiling, "authorization_class_ceiling_exceeded")
  {
    var a := Due(!own, "controller_owned_mock_runner_not_verified")
      + Due(requested != 1, "task_permission_class_not_local_draft")
      + Due(!legacy, "legacy_gate_not_executable")
      + Due(required, "pre_run_approval_not_supported");
    var b := a + Due(!permit, "authorization_effect_not_permit");
    assert a + [] == a && b + [] == b;
    assert b + Due(!ceiling, "authorization_class_ceiling_exceeded") + []
        == b + Due(!ceiling, "authorization_class_ceiling_exceeded");
  }

  /** What every proposal can be blocked for, beside the boundary's own reasons. */
  lemma ProposalReasons(w: Wrapper, own: seq<Word>, lineage: Text, scope: string, bare: Request, p: Policy)
    requires bare.environment.evaluatedAt >= 0.0 && p.ttl > 0.0 && 1 <= ClassOf(bare)
    requires Evaluate(Proposed(scope, bare), p).effect == "permit" ==> ClassOf(bare) == 1
    ensures Propose(w, own, lineage, Proposed(scope, bare), p).doc.blocks ==
      own + Due(Evaluate(Proposed(scope, bare), p).effect != "permit", "authorization_effect_not_permit")
          + Due(!(ClassOf(bare) == 1 <= w.requestedClass), "authorization_class_ceiling_exceeded")
  {
    hide Evaluate, Request.ToJson, Policy.ToJson, Decision.ToJson, Derive, Bind, ObligationsSupported, DecisionMatches,
         CommonBlocks;
    var r := Proposed(scope, bare);
    ProposalTimes(scope, bare, p);
    ProposedSame(scope, bare);
    DecisionMatchesItself(r, p);
    DecisionBinds(r, p);
    if Evaluate(r, p).effect == "permit" { PermitIsSupported(r, p); } else { NothingToSupport(Evaluate(r, p)); }
    CommonReasons(own, Evaluate(r, p).effect == "permit", ClassOf(bare) == 1 <= w.requestedClass);
  }

  lemma NothingToSupport(d: Decision)
    requires d.effect != "permit"
    ensures ObligationsSupported(d)
  {
  }

  lemma DecisionMatchesItself(r: Request, p: Policy)
    ensures DecisionMatches(r, p, Evaluate(r, p), r.environment.evaluatedAt)
  {
    hide Evaluate, Request.ToJson, Policy.ToJson;
    DecisionBinds(r, p);
  }

  lemma CommonReasons(own: seq<Word>, permit: bool, ceiling: bool)
    ensures own + CommonBlocks(true, permit, true, ceiling, true) ==
      own + Due(!permit, "authorization_effect_not_permit") + Due(!ceiling, "authorization_class_ceiling_exceeded")
  {
    var a, b := Due(!permit, "authorization_effect_not_permit"), Due(!ceiling, "authorization_class_ceiling_exceeded");
    assert CommonBlocks(true, permit, true, ceiling, true) == a + b;
    assert own + (a + b) == own + a + b;
  }

  /** The dispatch gate's reasons. */
  lemma DispatchReasons(x: DispatchAttempt, now: real)
    requires x.Accepted(now) && x.Typed()
    ensures
      var a := x.attempt;
      Dispatching(x, now).doc.blocks ==
        Due(!a.legacyExecutable, "legacy_gate_not_executable")
        + Due(!a.Modest() || a.requiredBeforeRun || a.requestClass == 0, "authorization_effect_not_permit")
        + Due(!a.Modest() || a.requestClass == 0, "authorization_class_ceiling_exceeded")
  {
    hide Propose, Derive, Proposed, GatesOpen, DispatchParameters, DispatchIdentifier, StageEvidence, Bind, Lineage,
         Policy.Valid, Evaluate, ApprovalRequirement.Matches, Assessment.Digest, Attempt.Modest;
    var bare, p := BareDispatch(x, now), PolicyOf(x.attempt);
    var r := Proposed(DISPATCH_SCOPE, bare);
    var approverRef := if x.attempt.requiredBeforeRun then Some(x.attempt.ApproverRef()) else None;
    DispatchPolicyIsFixed(approverRef, x.attempt.requestClass);
    ExecuteIsNotReadOnly(bare.action, bare.resource, bare.consequences);
    ProposedSame(DISPATCH_SCOPE, bare);
    DispatchGates(r, approverRef, x.attempt.requestClass);
    ProposedPermits(DISPATCH_SCOPE, bare, p);
    ApprovalsDue(approverRef, x.attempt.requestClass);
    DispatchIsDraft(x, now);
    ProposalReasons(WrapperOf(x), Legacy(x.attempt.legacyExecutable), x.lineageDigest, DISPATCH_SCOPE, bare, p);
  }

  /** The publication gate's reasons. */
  lemma PublicationReasons(x: Candidate, now: real)
    requires x.Accepted(now) && x.attempt.Typed()
    ensures
      var a := x.attempt;
      Publishing(x, now).doc.blocks ==
        Due(!a.ownMockRunner, "controller_owned_mock_runner_not_verified")
        + Due(!a.legacyExecutable, "legacy_gate_not_executable")
        + Due(!x.safe, "safe_publication_prerequisites_not_satisfied")
        + Due(!x.accepted, "evaluation_not_accepted") + Due(!x.scanned, "credential_scan_not_passed")
        + Due(!LowImpact(a.intent), "authorization_effect_not_permit")
        + Due(!LowImpact(a.intent) || a.requestClass == 0, "authorization_class_ceiling_exceeded")
  {
    hide Propose, Proposed, Lineage, Evaluate, LowImpact, BarePublication, PublicationPolicy, PublicationBlocks, ClassOf,
         Candidate.Accepted, Attempt.Typed, Due;
    PublicationEffect(x, now);
    ProposalReasons(PublicationWrapperOf(x), PublicationBlocks(x), x.lineageDigest, PUBLICATION_SCOPE,
                    BarePublication(x, now), PublicationPolicy());
    OwnReasons(x);
    AskedFor(x, now);
  }

  lemma AskedFor(x: Candidate, now: real)
    requires x.Accepted(now)
    ensures PublicationWrapperOf(x).requestedClass == x.attempt.requestClass && x.attempt.requestClass in {0, 1}
  {
    hide Lineage, IsIdentifier;
  }

  lemma PublicationEffect(x: Candidate, now: real)
    requires x.Accepted(now) && x.attempt.Typed()
    ensures
      var bare, p := BarePublication(x, now), PublicationPolicy();
      && bare.environment.evaluatedAt >= 0.0 && p.ttl > 0.0 && 1 <= ClassOf(bare)
      && (ClassOf(bare) == 1 <==> LowImpact(x.attempt.intent))
      && (Evaluate(Proposed(PUBLICATION_SCOPE, bare), p).effect == "permit" <==> LowImpact(x.attempt.intent))
  {
    hide Derive, Proposed, GatesOpen, PublicationParameters, PublicationIdentifier, StageEvidence, Bind, Lineage,
         Evaluate, ApprovalRequirement.Matches, IsIdentifier, LowImpact;
    var bare, p := BarePublication(x, now), PublicationPolicy();
    PublicationMoment(x, now);
    ProposedSame(PUBLICATION_SCOPE, bare);
    PublicationGates(Proposed(PUBLICATION_SCOPE, bare));
    ProposedPermits(PUBLICATION_SCOPE, bare, p);
    PublicationIsDraft(x, now);
  }

  lemma OwnReasons(x: Candidate)
    ensures
      PublicationBlocks(x) ==
        Due(!x.attempt.ownMockRunner, "controller_owned_mock_runner_not_verified")
        + Due(!x.attempt.legacyExecutable, "legacy_gate_not_executable")
        + Due(!x.safe, "safe_publication_prerequisites_not_satisfied")
        + Due(!x.accepted, "evaluation_not_accepted") + Due(!x.scanned, "credential_scan_not_passed")
  {
  }
}
