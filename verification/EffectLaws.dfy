/** Which of the four effects a request gets, and for which reason, told from its fields. */
module EffectLaws {
  import opened Prelude
  import opened Canon
  import opened Sequences
  import opened Authorization
  import opened Evaluator
  import opened EvaluatorLaws
  import opened Approvals

  /** One thing that is looked at: whether it passes, and what is said when it does not. */
  datatype Gate = Gate(open: bool, reason: Word, rule: Word)

  predicate AllOpen(gates: seq<Gate>) { forall i | 0 <= i < |gates| :: gates[i].open }

  predicate FirstClosed(gates: seq<Gate>, k: int) {
    && 0 <= k < |gates| && !gates[k].open
    && forall i | 0 <= i < k :: gates[i].open
  }

  lemma {:induction false} SomeFirstClosed(gates: seq<Gate>)
    ensures !AllOpen(gates) ==> exists k :: FirstClosed(gates, k)
  {
    if gates != [] {
      var front := gates[..|gates| - 1];
      SomeFirstClosed(front);
      if AllOpen(front) {
        assert forall i | 0 <= i < |front| :: front[i] == gates[i];
        assert !gates[|front|].open ==> FirstClosed(gates, |front|);
      } else {
        var k :| FirstClosed(front, k);
        assert forall i | 0 <= i <= k :: front[i] == gates[i];
        assert FirstClosed(gates, k);
      }
    }
  }

  /** The gates that deny. */
  function MandatoryGates(r: Request, p: Policy): seq<Gate> {
    var e, included := r.environment, r.environment.billing == "subscription_included";
    [Gate(ClassOf(r) <= 1 && ClassOf(r) in p.enabledClasses, "class_disabled", "phase-1c-class-ceiling"),
     Gate(r.subject.role in p.roles, "role_not_allowed", "phase-1c-role-allowlist"),
     Gate(r.action.verb in p.verbs, "verb_not_allowed", "phase-1c-verb-allowlist"),
     Gate(r.action.operation in p.operations, "operation_not_allowed", "phase-1c-operation-allowlist"),
     Gate(r.resource.resourceType in p.resourceTypes, "resource_not_allowed", "phase-1c-resource-allowlist"),
     Gate(r.resource.trustBoundary in p.trustBoundaries, "trust_boundary_not_allowed",
          "phase-1c-trust-boundary-allowlist"),
     Gate(e.flowState in p.flowStates, "flow_state_not_allowed", "phase-1c-flow-state-allowlist"),
     Gate(e.circuit != "open", "circuit_open", "phase-1c-circuit-hard-stop"),
     Gate(e.network in p.networks + ["unknown"], "network_prohibited", "phase-1c-network-allowlist"),
     Gate(e.isolation != "absent" && e.isolation != "not_required", "isolation_required",
          "phase-1c-isolation-requirement"),
     Gate(e.billing in p.routes + ["unknown"], "billing_prohibited", "phase-1c-billing-hard-stop"),
     Gate(included ==> e.capacity == "available" || e.capacity == "unknown", "billing_prohibited",
          "phase-1c-capacity-hard-stop"),
     Gate(included ==>
            || e.protection == "provider_enforced_disabled"
            || e.protection == "verified_zero_balance_and_auto_top_up_disabled" || e.protection == "unknown",
          "billing_prohibited", "phase-1c-paid-continuation-hard-stop")]
  }

  /** What must be known of the environment. */
  function KnownGates(e: Environment): seq<Gate> {
    var rule, included := "phase-1c-environment-evidence", e.billing == "subscription_included";
    [Gate(e.circuit == "closed", "circuit_unknown", rule), Gate(e.network != "unknown", "network_unknown", rule),
     Gate(e.isolation != "unknown" && e.isolation != "unverified", "isolation_unknown", rule),
     Gate(e.billing != "unknown", "billing_evidence_unknown", rule),
     Gate(included ==> e.capacity != "unknown", "billing_evidence_unknown", rule),
     Gate(included ==> e.protection != "unknown", "billing_evidence_unknown", rule)]
  }

  // ---- Evidence and approvals, on their fields.

  /** The record is about the attribute, and from a source that may speak of it. */
  predicate Speaks(q: EvidenceRequirement, e: Evidence) {
    && e.attribute == Lit(q.attribute) && e.source in q.trusted
    && e.source != "mcp_claim" && e.source != "provider_claim" && e.source != "model_claim"
  }

  /** What can be wrong with a record that speaks, first things first. */
  function RecordGates(q: EvidenceRequirement, e: Evidence, r: Request): seq<Gate> {
    var now, rule := r.environment.evaluatedAt, "phase-1c-evidence";
    [Gate(e.authenticated, "evidence_unauthenticated", rule), Gate(e.observedAt <= now, "evidence_from_future", rule),
     Gate(e.observedAt < e.expiresAt && now < e.expiresAt && now <= e.observedAt + q.maxAge, "evidence_stale", rule),
     Gate(e.valueDigest == Digest(r.Attribute(q.attribute)), "evidence_value_mismatch", rule)]
  }

  predicate Sustains(q: EvidenceRequirement, e: Evidence, r: Request) { AllOpen(RecordGates(q, e, r)) }

  predicate Spoken(q: EvidenceRequirement, r: Request) { exists e | e in r.evidence :: Speaks(q, e) }

  /** Some record speaks for the requirement, and every one that speaks sustains it. */
  predicate Met(q: EvidenceRequirement, r: Request) {
    && Spoken(q, r)
    && forall e | e in r.evidence && Speaks(q, e) :: Sustains(q, e, r)
  }

  predicate Asks(q: ApprovalRequirement, r: Request) {
    && (q.verbs != [] ==> r.action.verb in q.verbs)
    && (q.resourceTypes != [] ==> r.resource.resourceType in q.resourceTypes)
    && (q.classes != [] ==> ClassOf(r) in q.classes)
  }

  /** An authority's grant, by somebody who may approve, for this request under this policy, in date. */
  predicate Settles(q: ApprovalRequirement, g: Grant, r: Request, p: Policy) {
    && g.authenticated && g.source == "approval_authority" && g.approverRole in q.roles
    && (q.approvers != [] ==> g.approverId in q.approvers)
    && (q.distinct ==> g.approverId != r.subject.principalId)
    && g.scopeDigest == r.ScopeDigest() && g.policyDigest == p.Digest()
    && p.issuedAt <= g.issuedAt <= r.environment.evaluatedAt < g.expiresAt
  }

  predicate Granted(q: ApprovalRequirement, r: Request) {
    exists g | g in r.environment.grants :: g.requirementId == q.id
  }

  predicate Unspoilt(q: ApprovalRequirement, r: Request, p: Policy) {
    forall g | g in r.environment.grants && g.requirementId == q.id :: Settles(q, g, r, p)
  }

  // ---- The two readings agree.

  lemma DeniesNothing(r: Request, p: Policy)
    ensures MandatoryDeny(r, p, ClassOf(r)) == None <==> AllOpen(MandatoryGates(r, p))
  {
    hide Derive, MandatoryDeny;
    NotDenied(r, p, ClassOf(r));
    var gates := MandatoryGates(r, p);
    assert AllOpen(gates) <==>
      && gates[0].open && gates[1].open && gates[2].open && gates[3].open && gates[4].open && gates[5].open
      && gates[6].open && gates[7].open && gates[8].open && gates[9].open && gates[10].open && gates[11].open
      && gates[12].open;
  }

  predicate DeniedBy(r: Request, p: Policy, g: Gate) {
    var denial := MandatoryDeny(r, p, ClassOf(r));
    denial.Some? && denial.value.reason == g.reason && denial.value.rule == g.rule
  }

  lemma DeniedByPlace(r: Request, p: Policy, k: int)
    requires FirstClosed(MandatoryGates(r, p), k) && k < 7
    ensures DeniedBy(r, p, MandatoryGates(r, p)[k])
  {
    hide Derive, ClassName;
    var gates := MandatoryGates(r, p);
    assert k > 0 ==> gates[0].open;
    assert k > 1 ==> gates[1].open;
    assert k > 2 ==> gates[2].open;
    assert k > 3 ==> gates[3].open;
    assert k > 4 ==> gates[4].open;
    assert k > 5 ==> gates[5].open;
  }

  lemma DeniedByState(r: Request, p: Policy, k: int)
    requires FirstClosed(MandatoryGates(r, p), k) && 7 <= k < 10
    ensures DeniedBy(r, p, MandatoryGates(r, p)[k])
  {
    hide Derive, ClassName;
    var gates := MandatoryGates(r, p);
    assert gates[0].open && gates[1].open && gates[2].open && gates[3].open && gates[4].open && gates[5].open;
    assert gates[6].open;
    assert k > 7 ==> gates[7].open;
    assert k > 8 ==> gates[8].open;
  }

  lemma DeniedByRoute(r: Request, p: Policy, k: int)
    requires FirstClosed(MandatoryGates(r, p), k) && k == 10
    ensures DeniedBy(r, p, MandatoryGates(r, p)[k])
  {
    hide Derive, ClassName;
    var gates := MandatoryGates(r, p);
    assert gates[0].open && gates[1].open && gates[2].open && gates[3].open && gates[4].open && gates[5].open;
    assert gates[6].open && gates[7].open && gates[8].open && gates[9].open;
  }

  lemma DeniedBySubscription(r: Request, p: Policy, k: int)
    requires FirstClosed(MandatoryGates(r, p), k) && k >= 11
    ensures DeniedBy(r, p, MandatoryGates(r, p)[k])
  {
    hide Derive, ClassName;
    var gates := MandatoryGates(r, p);
    assert gates[0].open && gates[1].open && gates[2].open && gates[3].open && gates[4].open && gates[5].open;
    assert gates[6].open && gates[7].open && gates[8].open && gates[9].open && gates[10].open;
    assert k > 11 ==> gates[11].open;
  }

  lemma DeniesFirst(r: Request, p: Policy, k: int)
    requires FirstClosed(MandatoryGates(r, p), k)
    ensures DeniedBy(r, p, MandatoryGates(r, p)[k])
  {
    hide MandatoryGates, DeniedBy;
    if k < 7 {
      DeniedByPlace(r, p, k);
    } else if k < 10 {
      DeniedByState(r, p, k);
    } else if k == 10 {
      DeniedByRoute(r, p, k);
    } else {
      DeniedBySubscription(r, p, k);
    }
  }

  lemma UnknownFirst(e: Environment, k: int)
    ensures EnvironmentUnknown(e) == None <==> AllOpen(KnownGates(e))
    ensures FirstClosed(KnownGates(e), k) ==>
      EnvironmentUnknown(e).Some? && EnvironmentUnknown(e).value.0 == KnownGates(e)[k].reason
  {
    var gates := KnownGates(e);
    assert AllOpen(gates) <==>
      gates[0].open && gates[1].open && gates[2].open && gates[3].open && gates[4].open && gates[5].open;
  }

  lemma MetIsBacked(q: EvidenceRequirement, r: Request)
    ensures Met(q, r) <==> Backed(q, r)
  {
    hide Request.Attribute;
    forall e | e in r.evidence ensures Speaks(q, e) <==> Trusts(q, e) {}
    forall e | e in r.evidence && Speaks(q, e)
      ensures Sustains(q, e, r) <==>
        && e.authenticated && e.observedAt <= r.environment.evaluatedAt < e.expiresAt
        && r.environment.evaluatedAt - e.observedAt <= q.maxAge
        && e.valueDigest == Digest(r.Attribute(q.attribute))
    {
      var gates := RecordGates(q, e, r);
      assert AllOpen(gates) <==> gates[0].open && gates[1].open && gates[2].open && gates[3].open;
    }
  }

  /** Some record that speaks for the requirement is stopped at the gate. */
  predicate StoppedAt(q: EvidenceRequirement, r: Request, k: int)
    requires 0 <= k < 4
  {
    exists e | e in r.evidence && Speaks(q, e) :: !RecordGates(q, e, r)[k].open
  }

  predicate Disagree(q: EvidenceRequirement, r: Request) {
    exists e, f | e in r.evidence && f in r.evidence && Speaks(q, e) && Speaks(q, f) :: e.valueDigest != f.valueDigest
  }

  /** Claims are all there is about it. */
  predicate Claimed(q: EvidenceRequirement, r: Request) {
    && (exists e | e in r.evidence :: e.attribute == Lit(q.attribute))
    && forall e | e in r.evidence && e.attribute == Lit(q.attribute) :: e.source in UNTRUSTED
  }

  /** What is said of a requirement that is not met. */
  predicate Blamed(q: EvidenceRequirement, r: Request, reason: Word) {
    match reason
    case "untrusted_claim_only" => Claimed(q, r)
    case "evidence_missing" => !Claimed(q, r) && !Spoken(q, r)
    case "evidence_unauthenticated" => StoppedAt(q, r, 0)
    case "evidence_from_future" => StoppedAt(q, r, 1) && !StoppedAt(q, r, 0)
    case "evidence_stale" => StoppedAt(q, r, 2) && !StoppedAt(q, r, 0) && !StoppedAt(q, r, 1)
    case "evidence_contradictory" =>
      Disagree(q, r) && !StoppedAt(q, r, 0) && !StoppedAt(q, r, 1) && !StoppedAt(q, r, 2)
    case "evidence_value_mismatch" =>
      && StoppedAt(q, r, 3) && !Disagree(q, r) && !StoppedAt(q, r, 0) && !StoppedAt(q, r, 1) && !StoppedAt(q, r, 2)
    case _ => false
  }

  lemma RecordsStop(q: EvidenceRequirement, r: Request)
    ensures Untrusted(q, r) <==> !Spoken(q, r)
    ensures Unauthenticated(q, r) <==> StoppedAt(q, r, 0)
    ensures FromFuture(q, r) <==> StoppedAt(q, r, 1)
    ensures OutOfDate(q, r) <==> StoppedAt(q, r, 2)
    ensures Unbound(q, r) <==> StoppedAt(q, r, 3)
    ensures Conflicting(q, r) <==> Disagree(q, r)
    ensures OnlyClaimed(q, r) <==> Claimed(q, r)
    ensures Claimed(q, r) ==> Untrusted(q, r)
    ensures Untrusted(q, r) ==>
      !StoppedAt(q, r, 0) && !StoppedAt(q, r, 1) && !StoppedAt(q, r, 2) && !StoppedAt(q, r, 3) && !Disagree(q, r)
  {
    hide Request.Attribute;
    forall e | e in r.evidence ensures Speaks(q, e) <==> Trusts(q, e) {}
  }

  /** A requirement that is not met is blamed for one reason, which is the finding's. */
  lemma BlamedExactly(q: EvidenceRequirement, r: Request, reason: Word)
    ensures Judge(q, r).Rejected? && Judge(q, r).reason == reason <==> !Met(q, r) && Blamed(q, r, reason)
  {
    hide Backed, Met, Speaks, Trusts, RecordGates, StoppedAt, Disagree, Spoken, Claimed, OnlyClaimed, Untrusted,
         Unauthenticated, FromFuture, OutOfDate, Unbound, Conflicting;
    MetIsBacked(q, r);
    JudgeBacked(q, r);
    RecordsStop(q, r);
  }

  lemma ApprovalTells(q: ApprovalRequirement, r: Request, p: Policy)
    ensures Asks(q, r) <==> q.Matches(r, ClassOf(r))
    ensures Granted(q, r) <==> !Unapproved(q, r)
    ensures Unspoilt(q, r, p) <==> !Invalid(q, r, p)
  {
    hide Derive, Request.ScopeDigest, Policy.Digest;
    forall g ensures Settles(q, g, r, p) <==> !Misbound(q, g, r, p) {}
  }

  predicate SomeSpoilt(r: Request, p: Policy) {
    exists q | q in p.approvalRequirements :: Asks(q, r) && !Unspoilt(q, r, p)
  }

  predicate SomeUngranted(r: Request, p: Policy) {
    exists q | q in p.approvalRequirements :: Asks(q, r) && !Granted(q, r)
  }

  lemma ApprovalStages(r: Request, p: Policy)
    ensures
      var a := ApprovalEffect(r, p, ClassOf(r));
      && (SomeSpoilt(r, p) <==> a.Some? && a.value.effect == "indeterminate")
      && (!SomeSpoilt(r, p) && SomeUngranted(r, p) <==> a.Some? && a.value.effect == "defer")
      && (SomeSpoilt(r, p) ==> a.value.reasons == ["approval_invalid"])
      && (a.Some? && a.value.effect == "defer" ==> a.value.reasons == ["approval_required"])
  {
    hide Derive, Unapproved, Invalid, Granted, Unspoilt, Asks, ApprovalRequirement.Matches, Until, Earliest, Map;
    var reqs := Applicable(r, p, ClassOf(r));
    forall q ensures Asks(q, r) <==> q.Matches(r, ClassOf(r)) { ApprovalTells(q, r, p); }
    forall q ensures Granted(q, r) <==> !Unapproved(q, r) { ApprovalTells(q, r, p); }
    forall q ensures Unspoilt(q, r, p) <==> !Invalid(q, r, p) { ApprovalTells(q, r, p); }
    var missing := Filter(reqs, (q: ApprovalRequirement) => Unapproved(q, r));
    var n := Sound(reqs, r, p);
    if n < |reqs| {
      assert reqs[n] in reqs;
    } else {
      forall q | q in reqs ensures !Invalid(q, r, p) {
        var i :| 0 <= i < |reqs| && reqs[i] == q;
      }
    }
    if missing != [] {
      assert missing[0] in missing;
    } else {
      assert forall q | q in reqs :: q !in missing;
    }
  }

  // ---- The four effects.

  predicate InForce(r: Request, p: Policy) { p.issuedAt <= r.environment.evaluatedAt }
  predicate AllMet(r: Request, p: Policy) { forall q | q in p.evidenceRequirements :: Met(q, r) }

  /** Nothing but approvals can be missing. */
  predicate Ready(r: Request, p: Policy) {
    && AllOpen(MandatoryGates(r, p)) && InForce(r, p) && Distinct(Ids(r.evidence)) && AllMet(r, p)
    && AllOpen(KnownGates(r.environment))
  }

  lemma ReadyStages(r: Request, p: Policy)
    ensures Ready(r, p) <==>
      && MandatoryDeny(r, p, ClassOf(r)) == None && InForce(r, p) && Validate(r, p).valid
      && EnvironmentUnknown(r.environment) == None
    ensures AllOpen(MandatoryGates(r, p)) <==> MandatoryDeny(r, p, ClassOf(r)) == None
    ensures AllOpen(KnownGates(r.environment)) <==> EnvironmentUnknown(r.environment) == None
    ensures Validate(r, p).valid <==> Distinct(Ids(r.evidence)) && AllMet(r, p)
  {
    hide MandatoryGates, KnownGates, AllOpen, MandatoryDeny, EnvironmentUnknown, Validate, Met, Backed, Distinct, Ids;
    DeniesNothing(r, p);
    UnknownFirst(r.environment, 0);
    ValidExactly(r, p);
    forall q | q in p.evidenceRequirements ensures Met(q, r) <==> Backed(q, r) { MetIsBacked(q, r); }
  }

  lemma EffectStages(r: Request, p: Policy)
    ensures
      var denial, unknown := MandatoryDeny(r, p, ClassOf(r)), EnvironmentUnknown(r.environment);
      var v, approval, d := Validate(r, p), ApprovalEffect(r, p, ClassOf(r)), Evaluate(r, p);
      && d.effect in EFFECTS
      && (d.effect == "deny" <==> denial.Some?)
      && (denial.Some? ==> d.reasons == [denial.value.reason] && d.rules == [denial.value.rule])
      && (denial == None ==>
            && (!InForce(r, p) ==> d.effect == "indeterminate" && d.reasons == ["policy_not_current"])
            && (InForce(r, p) && !v.valid ==> d.effect == "indeterminate" && d.reasons == v.reasons)
            && (InForce(r, p) && v.valid && unknown.Some? ==>
                  d.effect == "indeterminate" && d.reasons == [unknown.value.0])
            && (InForce(r, p) && v.valid && unknown == None && approval.Some? ==>
                  d.effect == approval.value.effect && d.reasons == approval.value.reasons)
            && (InForce(r, p) && v.valid && unknown == None && approval == None ==>
                  d.effect == "permit" && d.reasons == ["current_stage_permit"]))
  {
    hide Derive, MandatoryDeny, EnvironmentUnknown, Validate, ApprovalEffect, Request.Digest, Policy.Digest, ClassName;
    ApprovalNeverPermits(r, p);
  }

  /** Every request gets one of four effects, and which one is told by its fields. */
  lemma EffectsExactly(r: Request, p: Policy)
    ensures Evaluate(r, p).effect in {"deny", "permit", "defer", "indeterminate"}
    ensures Evaluate(r, p).effect == "deny" <==> !AllOpen(MandatoryGates(r, p))
    ensures Evaluate(r, p).effect == "permit" <==> Ready(r, p) && !SomeSpoilt(r, p) && !SomeUngranted(r, p)
    ensures Evaluate(r, p).effect == "defer" <==> Ready(r, p) && !SomeSpoilt(r, p) && SomeUngranted(r, p)
    ensures Evaluate(r, p).effect == "indeterminate" <==>
      AllOpen(MandatoryGates(r, p)) && (!Ready(r, p) || SomeSpoilt(r, p))
  {
    hide MandatoryGates, KnownGates, AllOpen, MandatoryDeny, EnvironmentUnknown, Validate, Evaluate, ApprovalEffect, Ready,
         SomeSpoilt, SomeUngranted, InForce;
    ReadyStages(r, p);
    EffectStages(r, p);
    ApprovalStages(r, p);
    ApprovalNeverPermits(r, p);
  }

  /** A denial gives the reason, and the rule, of the first mandatory gate that is closed. */
  lemma DeniedExactly(r: Request, p: Policy)
    ensures Evaluate(r, p).effect == "deny" <==> exists k :: FirstClosed(MandatoryGates(r, p), k)
    ensures forall k | FirstClosed(MandatoryGates(r, p), k) ::
      && Evaluate(r, p).reasons == [MandatoryGates(r, p)[k].reason]
      && Evaluate(r, p).rules == [MandatoryGates(r, p)[k].rule]
  {
    hide MandatoryGates, KnownGates, MandatoryDeny, EnvironmentUnknown, Validate, Evaluate, ApprovalEffect, Derive;
    DeniesNothing(r, p);
    EffectStages(r, p);
    SomeFirstClosed(MandatoryGates(r, p));
    forall k | FirstClosed(MandatoryGates(r, p), k) ensures DeniedBy(r, p, MandatoryGates(r, p)[k]) {
      DeniesFirst(r, p, k);
    }
  }

  lemma {:induction false} FindingsCollect(reqs: seq<EvidenceRequirement>, r: Request, w: Word)
    ensures w in Reasons(Findings(reqs, r)) <==> exists q | q in reqs :: Judge(q, r).Rejected? && Judge(q, r).reason == w
  {
    hide Judge;
    if reqs != [] {
      var init, last := reqs[..|reqs| - 1], reqs[|reqs| - 1];
      FindingsCollect(init, r, w);
      assert reqs == init + [last];
      var more := if Judge(last, r).Rejected? then [Judge(last, r)] else [];
      assert Reasons(Findings(reqs, r)) == Reasons(Findings(init, r)) + Reasons(more);
      assert more != [] ==> Reasons(more) == [more[0].reason];
      assert forall q :: q in reqs <==> q in init || q == last;
    }
  }

  predicate BlamedForSome(r: Request, p: Policy, w: Word) {
    exists q | q in p.evidenceRequirements :: !Met(q, r) && Blamed(q, r, w)
  }

  lemma ValidationBlames(r: Request, p: Policy)
    requires Distinct(Ids(r.evidence))
    ensures Distinct(Validate(r, p).reasons)
    ensures forall w :: w in Validate(r, p).reasons <==> BlamedForSome(r, p, w)
  {
    hide Findings, Judge, Backing, Met, Blamed, Reasons, Earliest, Expiries, Ids;
    forall w ensures w in Reasons(Findings(p.evidenceRequirements, r)) <==> BlamedForSome(r, p, w) {
      FindingsCollect(p.evidenceRequirements, r, w);
      forall q | q in p.evidenceRequirements
        ensures Judge(q, r).Rejected? && Judge(q, r).reason == w <==> !Met(q, r) && Blamed(q, r, w)
      {
        BlamedExactly(q, r, w);
      }
    }
  }

  lemma DuplicatesAreNamed(r: Request, p: Policy)
    requires !Distinct(Ids(r.evidence))
    ensures Validate(r, p).reasons == ["evidence_identifier_duplicated"]
  {
    hide Distinct;
  }

  /** Past the mandatory gates the reasons follow the order in which things are looked at: the
      policy's date, the identifiers of the records, the evidence - with one reason for each way in
      which a requirement is not met - then the environment, then the approvals. */
  lemma ReasonsExactly(r: Request, p: Policy)
    requires AllOpen(MandatoryGates(r, p))
    ensures !InForce(r, p) ==> Evaluate(r, p).reasons == ["policy_not_current"]
    ensures InForce(r, p) && !Distinct(Ids(r.evidence)) ==>
      Evaluate(r, p).reasons == ["evidence_identifier_duplicated"]
    ensures InForce(r, p) && Distinct(Ids(r.evidence)) && !AllMet(r, p) ==>
      Distinct(Evaluate(r, p).reasons) && forall w :: w in Evaluate(r, p).reasons <==> BlamedForSome(r, p, w)
    ensures InForce(r, p) && Distinct(Ids(r.evidence)) && AllMet(r, p) ==>
      forall k | FirstClosed(KnownGates(r.environment), k) ::
        Evaluate(r, p).reasons == [KnownGates(r.environment)[k].reason]
    ensures Ready(r, p) ==>
      Evaluate(r, p).reasons ==
        [if SomeSpoilt(r, p) then "approval_invalid"
         else if SomeUngranted(r, p) then "approval_required" else "current_stage_permit"]
  {
    hide MandatoryGates, KnownGates, AllOpen, MandatoryDeny, EnvironmentUnknown, Validate, Evaluate, ApprovalEffect, Ready,
         SomeSpoilt, SomeUngranted, InForce, AllMet, Distinct, Ids, BlamedForSome;
    ReadyStages(r, p);
    EffectStages(r, p);
    ApprovalStages(r, p);
    ApprovalNeverPermits(r, p);
    if Distinct(Ids(r.evidence)) { ValidationBlames(r, p); } else { DuplicatesAreNamed(r, p); }
    forall k | FirstClosed(KnownGates(r.environment), k)
      ensures EnvironmentUnknown(r.environment).Some?
      ensures EnvironmentUnknown(r.environment).value.0 == KnownGates(r.environment)[k].reason
    {
      UnknownFirst(r.environment, k);
    }
  }

  // ---- What a trusted record is bound to.

  /** The attribute that a requirement can name is the same in both requests, up to the order of
      claims and of grants. */
  predicate SameAttribute(a: Word, r: Request, s: Request) {
    match a
    case "subject" => r.subject == s.subject
    case "action" => r.action.(claims := []) == s.action.(claims := [])
                     && multiset(r.action.claims) == multiset(s.action.claims)
    case "resource" => r.resource == s.resource
    case "environment" => r.environment.(grants := []) == s.environment.(grants := [])
                          && multiset(r.environment.grants) == multiset(s.environment.grants)
    case "consequences" => r.consequences == s.consequences
    case _ => true
  }

  lemma EnvironmentsBind(a: Environment, b: Environment)
    ensures a.ToJson() == b.ToJson() <==> a.(grants := []) == b.(grants := []) && multiset(a.grants) == multiset(b.grants)
  {
    hide Grant.ToJson, SortBy, GrantKey;
    var x, y := SortBy(a.grants, GrantKey), SortBy(b.grants, GrantKey);
    if a.ToJson() == b.ToJson() {
      EnvironmentFieldsBind(a, b);
      var c, d := a.ToJson().values[0].items, b.ToJson().values[0].items;
      assert c == d && |c| == |x| && |d| == |y|;
      forall i | 0 <= i < |x| ensures x[i] == y[i] {
        assert c[i] == x[i].ToJson() && d[i] == y[i].ToJson();
        GrantJsonInjective(x[i], y[i]);
      }
      assert x == y;
    } else if a.(grants := []) == b.(grants := []) && multiset(a.grants) == multiset(b.grants) {
      GrantsReordered(a.grants, b.grants);
    }
  }

  lemma EnvironmentFieldsBind(a: Environment, b: Environment)
    requires a.ToJson() == b.ToJson()
    ensures a.(grants := []) == b.(grants := [])
  {
    hide SortBy;
    var x, y := a.ToJson().values, b.ToJson().values;
    assert forall i | 0 <= i < 9 :: x[i] == y[i];
    assert x[1] == Plain(a.billing) && x[2] == Plain(a.capacity) && x[3] == Plain(a.circuit) && x[4] == Num(a.evaluatedAt)
        && x[5] == Str(a.flowState) && x[6] == Plain(a.isolation) && x[7] == Plain(a.network)
        && x[8] == Plain(a.protection);
  }

  lemma AttributesBind(a: Word, r: Request, s: Request)
    requires a in ATTRIBUTES
    ensures r.Attribute(a) == s.Attribute(a) <==> SameAttribute(a, r, s)
  {
    hide Subject.ToJson, Action.ToJson, Resource.ToJson, Environment.ToJson, Consequences.ToJson;
    ActionsBind(r.action, s.action);
    EnvironmentsBind(r.environment, s.environment);
    if r.subject.ToJson() == s.subject.ToJson() { SubjectJsonInjective(r.subject, s.subject); }
    if r.resource.ToJson() == s.resource.ToJson() { ResourceJsonInjective(r.resource, s.resource); }
    if r.consequences.ToJson() == s.consequences.ToJson() { ConsequencesJsonInjective(r.consequences, s.consequences); }
  }

  /** A record cannot serve two requests that differ in what it is about: where it speaks for a
      requirement of either policy and both requests are permitted, they agree in that attribute. */
  lemma EvidenceBinds(
    r: Request, p: Policy, s: Request, t: Policy, q: EvidenceRequirement, u: EvidenceRequirement, e: Evidence)
    requires Evaluate(r, p).effect == "permit" && Evaluate(s, t).effect == "permit"
    requires q in p.evidenceRequirements && u in t.evidenceRequirements && q.attribute == u.attribute
    requires q.attribute in ATTRIBUTES
    requires e in r.evidence && e in s.evidence && Speaks(q, e) && Speaks(u, e)
    ensures SameAttribute(q.attribute, r, s)
  {
    hide Evaluate, GatesOpen, Approved, Derive, ApprovalRequirement.Matches, Request.Attribute, SameAttribute;
    PermitExactly(r, p);
    PermitExactly(s, t);
    assert Backed(q, r) && Backed(u, s);
    assert Trusts(q, e) && Trusts(u, e);
    AttributesBind(q.attribute, r, s);
  }
}
