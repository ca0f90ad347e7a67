/** The terms of a decision: how long it lasts, what it rests on, and what it obliges to. */
module DecisionTerms {
  import opened Prelude
  import opened Canon
  import opened Sequences
  import opened Authorization
  import opened Evaluator
  import opened EvaluatorLaws
  import opened Approvals
  import opened EffectLaws

  function Limit(r: Request, p: Policy): real { r.environment.evaluatedAt + p.ttl }

  /** The record speaks for a requirement of the policy that is met. */
  predicate Relied(r: Request, p: Policy, e: Evidence) {
    e in r.evidence && exists q | q in p.evidenceRequirements :: Speaks(q, e) && Met(q, r)
  }

  /** The grant is for a requirement that the request has to meet. */
  predicate Drawn(r: Request, p: Policy, g: Grant) {
    g in r.environment.grants && exists q | q in p.approvalRequirements :: Asks(q, r) && g.requirementId == q.id
  }

  lemma BackingIsRelied(r: Request, p: Policy)
    ensures forall e :: e in Backing(p.evidenceRequirements, r) <==> Relied(r, p, e)
  {
    hide Judge, Trusts, Backed, Met, Speaks;
    forall q | q in p.evidenceRequirements ensures Judge(q, r).Accepted? <==> Met(q, r) {
      JudgeBacked(q, r);
      MetIsBacked(q, r);
    }
    forall q, e ensures Trusts(q, e) <==> Speaks(q, e) { SpeaksIsTrusted(q, e); }
  }

  lemma SpeaksIsTrusted(q: EvidenceRequirement, e: Evidence)
    ensures Trusts(q, e) <==> Speaks(q, e)
  {
  }

  // ---- What a decision rests on.

  /** Once nothing is denied and the policy is in force, the references of a decision are the
      identifiers of the records relied on, each once; before that there are none. */
  lemma ReferencesExactly(r: Request, p: Policy)
    ensures
      var d := Evaluate(r, p);
      if AllOpen(MandatoryGates(r, p)) && InForce(r, p) && Distinct(Ids(r.evidence)) then
        && Distinct(d.evidenceRefs)
        && forall id :: id in d.evidenceRefs <==> exists e :: Relied(r, p, e) && id == e.id
      else d.evidenceRefs == []
  {
    hide MandatoryGates, AllOpen, InForce, Distinct, Ids, Evaluate, Validate, Relied, SortBy, Backing;
    ReferenceStages(r, p);
    if AllOpen(MandatoryGates(r, p)) && InForce(r, p) && Distinct(Ids(r.evidence)) {
      RelyingIds(r, p);
    }
  }

  lemma ReferenceStages(r: Request, p: Policy)
    ensures Evaluate(r, p).evidenceRefs ==
      if AllOpen(MandatoryGates(r, p)) && InForce(r, p) && Distinct(Ids(r.evidence))
      then SortBy(Ids(Backing(p.evidenceRequirements, r)), TextKey) else []
  {
    hide MandatoryGates, AllOpen, Distinct, Ids, Backing, Findings, Derive, MandatoryDeny, EnvironmentUnknown,
         ApprovalEffect, Request.Digest, Policy.Digest, ClassName, SortBy, Earliest, Expiries;
    DeniesNothing(r, p);
  }

  lemma RelyingIds(r: Request, p: Policy)
    requires Distinct(Ids(r.evidence))
    ensures
      var refs := SortBy(Ids(Backing(p.evidenceRequirements, r)), TextKey);
      && Distinct(refs)
      && forall id :: id in refs <==> exists e :: Relied(r, p, e) && id == e.id
  {
    hide Relied, SortBy, Counts;
    var backing := Backing(p.evidenceRequirements, r);
    BackingIsRelied(r, p);
    DistinctIdsOfSome(r.evidence, (e: Evidence) => Counts(p.evidenceRequirements, r, e));
    DistinctReordered(Ids(backing), SortBy(Ids(backing), TextKey));
    Reordered(Ids(backing), SortBy(Ids(backing), TextKey));
    forall id ensures id in Ids(backing) <==> exists e :: Relied(r, p, e) && id == e.id {
      if id in Ids(backing) {
        var i :| 0 <= i < |backing| && Ids(backing)[i] == id;
        assert backing[i] in backing;
      }
      if e :| Relied(r, p, e) && id == e.id {
        var i :| 0 <= i < |backing| && backing[i] == e;
        assert Ids(backing)[i] == id;
      }
    }
  }

  lemma {:induction false} DistinctIdsOfSome(s: seq<Evidence>, keep: Evidence -> bool)
    requires Distinct(Ids(s))
    ensures Distinct(Ids(Filter(s, keep)))
  {
    if s != [] {
      var n := |s| - 1;
      var init := s[..n];
      forall i, j | 0 <= i < j < n ensures Ids(init)[i] != Ids(init)[j] {
        assert Ids(s)[i] == Ids(init)[i] && Ids(s)[j] == Ids(init)[j];
      }
      DistinctIdsOfSome(init, keep);
      var kept := Filter(init, keep);
      forall i | 0 <= i < |kept| ensures Ids(kept)[i] != s[n].id {
        assert kept[i] in kept;
        var k :| 0 <= k < n && init[k] == kept[i];
        assert Ids(s)[k] == kept[i].id && Ids(s)[n] == s[n].id;
      }
    }
  }

  // ---- What it obliges to.

  /** A permit obliges to its audit and to its class's own restriction, a deferral to the approvals
      that are still to be given, and nothing else obliges. */
  lemma ObligationsExactly(r: Request, p: Policy, o: Obligation)
    ensures
      o in Evaluate(r, p).obligations <==>
        match Evaluate(r, p).effect
        case "permit" =>
          || (o.kind == "audit_receipt" && o.value == Lit("append_after_action"))
          || (o.value == Lit("required") && o.kind == if ClassOf(r) == 0 then "read_only" else "isolated_local_only")
        case "defer" =>
          o.kind == "approval"
          && exists q | q in p.approvalRequirements :: Asks(q, r) && !Granted(q, r) && o.value == Lit(q.id)
        case _ => false
  {
    hide Evaluate, Asks, Granted, ClassOf;
    ObligationStages(r, p);
    if Evaluate(r, p).effect == "defer" { DeferredObligations(r, p, o); }
  }

  function Missing(r: Request, p: Policy): seq<ApprovalRequirement> {
    Filter(Applicable(r, p, ClassOf(r)), (q: ApprovalRequirement) => Unapproved(q, r))
  }

  lemma ObligationStages(r: Request, p: Policy)
    ensures Evaluate(r, p).effect == "defer" ==>
      Evaluate(r, p).obligations == Map(Missing(r, p), (q: ApprovalRequirement) => Obligation("approval", Lit(q.id)))
    ensures Evaluate(r, p).effect == "permit" ==>
      Evaluate(r, p).obligations ==
        [Obligation("audit_receipt", Lit("append_after_action")),
         Obligation(if ClassOf(r) == 0 then "read_only" else "isolated_local_only", Lit("required"))]
    ensures Evaluate(r, p).effect !in {"permit", "defer"} ==> Evaluate(r, p).obligations == []
  {
    hide Derive, MandatoryDeny, EnvironmentUnknown, Validate, Request.Digest, Policy.Digest, ClassName, Invalid, Unapproved,
         Filter, Until, Earliest, ApprovalRequirement.Matches;
    ApprovalNeverPermits(r, p);
  }

  lemma DeferredObligations(r: Request, p: Policy, o: Obligation)
    ensures
      o in Map(Missing(r, p), (q: ApprovalRequirement) => Obligation("approval", Lit(q.id))) <==>
        && o.kind == "approval"
        && exists q | q in p.approvalRequirements :: Asks(q, r) && !Granted(q, r) && o.value == Lit(q.id)
  {
    hide Asks, Granted, Unapproved, ApprovalRequirement.Matches, ClassOf;
    var missing := Missing(r, p);
    var owed := Map(missing, (q: ApprovalRequirement) => Obligation("approval", Lit(q.id)));
    forall q ensures q in missing <==> q in p.approvalRequirements && Asks(q, r) && !Granted(q, r) { ApprovalTells(q, r, p); }
    if o in owed {
      var i :| 0 <= i < |owed| && owed[i] == o;
      assert missing[i] in missing;
    }
    if o.kind == "approval" {
      forall q | q in missing && o.value == Lit(q.id) ensures o in owed {
        var i :| 0 <= i < |missing| && missing[i] == q;
        assert owed[i] == o;
      }
    }
  }

  // ---- How long it lasts.

  /** A denial, and a decision under a policy not yet in force, lasts for the policy's time to live. */
  lemma EarlyDecisionsLast(r: Request, p: Policy)
    requires p.ttl > 0.0 && (Evaluate(r, p).effect == "deny" || !InForce(r, p))
    ensures Evaluate(r, p).expiresAt == Limit(r, p)
  {
    hide Derive, MandatoryDeny, EnvironmentUnknown, Validate, ApprovalEffect, Request.Digest, Policy.Digest, ClassName;
    EffectStages(r, p);
  }

  lemma UntilBy(reqs: seq<ApprovalRequirement>, r: Request, t: real)
    ensures t in Until(reqs, r) <==>
      exists q, g :: q in reqs && g in r.environment.grants && g.requirementId == q.id && t == g.expiresAt
  {
    if reqs != [] {
      var n := |reqs| - 1;
      UntilBy(reqs[..n], r, t);
      assert reqs == reqs[..n] + [reqs[n]];
      var grants := GrantsFor(reqs[n], r);
      var times := Map(grants, (g: Grant) => g.expiresAt);
      if t in times {
        var i :| 0 <= i < |times| && times[i] == t;
        assert grants[i] in grants;
      }
      forall g | g in grants ensures g.expiresAt in times {
        var i :| 0 <= i < |grants| && grants[i] == g;
        assert times[i] == g.expiresAt;
      }
    }
  }

  /** A deferral ends by `limit` exactly when the policy's time to live does, or a record relied on,
      or one of the grants already given. */
  lemma DeferralEndsBy(r: Request, p: Policy, limit: real)
    requires p.ttl > 0.0 && Evaluate(r, p).effect == "defer"
    ensures Evaluate(r, p).expiresAt <= limit <==>
      || Limit(r, p) <= limit
      || (exists e :: Relied(r, p, e) && e.expiresAt <= limit)
      || (exists g :: Drawn(r, p, g) && g.expiresAt <= limit)
  {
    hide Evaluate, Validate, Relied, Drawn, Backing, Earliest, Expiries, Distinct, Ids, MandatoryDeny, EnvironmentUnknown,
         ApprovalEffect, Derive, Until, Applicable, InForce;
    DeferStages(r, p);
    ValidExactly(r, p);
    DeferralEnds(r, p);
    EarliestOfBacking(r, p);
    EarliestBy(Limit(r, p), Backing(p.evidenceRequirements, r), limit);
    BackingIsRelied(r, p);
    GrantsEndBy(r, p, limit);
  }

  lemma DrawnUntil(r: Request, p: Policy, t: real)
    ensures t in Until(Applicable(r, p, ClassOf(r)), r) <==> exists g :: Drawn(r, p, g) && t == g.expiresAt
  {
    hide Until, Asks, ApprovalRequirement.Matches, ClassOf;
    var reqs := Applicable(r, p, ClassOf(r));
    forall q ensures q in reqs <==> q in p.approvalRequirements && Asks(q, r) { ApprovalTells(q, r, p); }
    UntilBy(reqs, r, t);
  }

  lemma GrantsEndBy(r: Request, p: Policy, limit: real)
    ensures Earliest([Limit(r, p)] + Until(Applicable(r, p, ClassOf(r)), r)) <= limit <==>
      Limit(r, p) <= limit || exists g :: Drawn(r, p, g) && g.expiresAt <= limit
  {
    hide Until, Asks, ApprovalRequirement.Matches, ClassOf, Drawn;
    var reqs := Applicable(r, p, ClassOf(r));
    var times := [Limit(r, p)] + Until(reqs, r);
    var first := Earliest(times);
    forall t ensures t in Until(reqs, r) <==> exists g :: Drawn(r, p, g) && t == g.expiresAt { DrawnUntil(r, p, t); }
    assert times[0] in times;
    if first <= limit && first != Limit(r, p) {
      assert first in Until(reqs, r);
    }
    forall g | Drawn(r, p, g) ensures g.expiresAt in times {
      assert g.expiresAt in Until(reqs, r);
      var i :| 0 <= i < |Until(reqs, r)| && Until(reqs, r)[i] == g.expiresAt;
      assert times[i + 1] == g.expiresAt;
    }
  }

  lemma DeferralEnds(r: Request, p: Policy)
    requires p.ttl > 0.0 && Evaluate(r, p).effect == "defer"
    ensures Evaluate(r, p).expiresAt ==
      Least(Validate(r, p).earliest, Earliest([Limit(r, p)] + Until(Applicable(r, p, ClassOf(r)), r)))
  {
    hide Derive, MandatoryDeny, EnvironmentUnknown, Request.Digest, Policy.Digest, ClassName, Findings, Until, Applicable,
         Backing, Expiries, Sound;
    DeferStages(r, p);
    ValidationIsCurrent(r, p);
    ApprovalIsCurrent(r, p);
  }
}
