/** What every evaluation satisfies, and how decisions respond to changes of a request. */
module EvaluatorLaws {
  import opened Prelude
  import opened Canon
  import opened Sequences
  import opened Authorization
  import opened Evaluator

  function ClassOf(r: Request): Class { Derive(r.action, r.resource, r.consequences) }

  // ---- When a request is permitted.

  /** Every gate of the current stage is open. */
  predicate GatesOpen(r: Request, p: Policy) {
    var e, derived := r.environment, ClassOf(r);
    && derived <= 1 && derived in p.enabledClasses
    && r.subject.role in p.roles && r.action.verb in p.verbs && r.action.operation in p.operations
    && r.resource.resourceType in p.resourceTypes && r.resource.trustBoundary in p.trustBoundaries
    && e.flowState in p.flowStates
    && e.circuit == "closed" && e.network in p.networks && e.network != "unknown"
    && e.isolation !in {"absent", "not_required", "unknown", "unverified"}
    && e.billing in p.routes && e.billing != "unknown"
    && (e.billing == "subscription_included" ==>
          e.capacity == "available" && e.protection in {"provider_enforced_disabled", ZERO_BALANCE})
  }

  /** The requirement is backed, and nothing trusted speaks against it. */
  predicate Backed(q: EvidenceRequirement, r: Request) {
    && (exists e | e in r.evidence :: Trusts(q, e))
    && forall e | e in r.evidence && Trusts(q, e) ::
         && e.authenticated && e.observedAt <= r.environment.evaluatedAt < e.expiresAt
         && r.environment.evaluatedAt - e.observedAt <= q.maxAge
         && e.valueDigest == Digest(r.Attribute(q.attribute))
  }

  /** The requirement has grants, and all of them settle it. */
  predicate Approved(q: ApprovalRequirement, r: Request, p: Policy) {
    && (exists g | g in r.environment.grants :: g.requirementId == q.id)
    && forall g | g in r.environment.grants && g.requirementId == q.id :: !Misbound(q, g, r, p)
  }

  lemma JudgeBacked(q: EvidenceRequirement, r: Request)
    ensures Judge(q, r).Accepted? <==> Backed(q, r)
  {
    hide Untrusted, OnlyClaimed, Unauthenticated, FromFuture, OutOfDate, Conflicting, Unbound, Backed;
    BackedTells(q, r);
  }

  lemma BackedTells(q: EvidenceRequirement, r: Request)
    ensures Backed(q, r) <==>
      !Untrusted(q, r) && !Unauthenticated(q, r) && !FromFuture(q, r) && !OutOfDate(q, r) && !Unbound(q, r)
    ensures !Unbound(q, r) ==> !Conflicting(q, r)
  {
    hide Trusts, Request.Attribute;
    var now := r.environment.evaluatedAt;
    if Backed(q, r) {
      forall e | e in r.evidence && Trusts(q, e) ensures !Stale(q, e, now) {}
    } else if !OutOfDate(q, r) && !FromFuture(q, r) {
      forall e | e in r.evidence && Trusts(q, e) ensures !Stale(q, e, now) && e.observedAt <= now {}
    }
  }

  lemma {:induction false} NoFindings(reqs: seq<EvidenceRequirement>, r: Request)
    ensures Findings(reqs, r) == [] <==> forall q | q in reqs :: Judge(q, r).Accepted?
  {
    hide Judge;
    if reqs != [] {
      NoFindings(reqs[..|reqs| - 1], r);
      assert reqs == reqs[..|reqs| - 1] + [reqs[|reqs| - 1]];
    }
  }

  lemma ApprovalSettled(r: Request, p: Policy)
    ensures ApprovalEffect(r, p, ClassOf(r)) == None <==>
      forall q | q in p.approvalRequirements && q.Matches(r, ClassOf(r)) :: Approved(q, r, p)
  {
    hide Misbound;
    var reqs := Applicable(r, p, ClassOf(r));
    var missing := Filter(reqs, (q: ApprovalRequirement) => Unapproved(q, r));
    forall q | q in reqs ensures Approved(q, r, p) <==> !Unapproved(q, r) && !Invalid(q, r, p) {}
    if Sound(reqs, r, p) < |reqs| {
      assert reqs[Sound(reqs, r, p)] in reqs;
    } else {
      forall q | q in reqs ensures !Invalid(q, r, p) {
        var i :| 0 <= i < |reqs| && reqs[i] == q;
      }
      if missing != [] { assert missing[0] in missing; }
      else { assert forall q | q in reqs :: q !in missing; }
    }
  }

  lemma ApprovalNeverPermits(r: Request, p: Policy)
    ensures
      var a := ApprovalEffect(r, p, ClassOf(r));
      a.Some? ==> a.value.effect in {"defer", "indeterminate"}
  {
    hide Derive, Sound, Until, Filter;
  }

  lemma PermitStages(r: Request, p: Policy)
    ensures Evaluate(r, p).effect == "permit" <==>
      && MandatoryDeny(r, p, ClassOf(r)) == None && p.issuedAt <= r.environment.evaluatedAt && Validate(r, p).valid
      && EnvironmentUnknown(r.environment) == None && ApprovalEffect(r, p, ClassOf(r)) == None
  {
    hide Derive, MandatoryDeny, EnvironmentUnknown, Validate, ApprovalEffect, Request.Digest, Policy.Digest, ClassName;
    ApprovalNeverPermits(r, p);
  }

  lemma GatesExactly(r: Request, p: Policy)
    ensures GatesOpen(r, p) <==> MandatoryDeny(r, p, ClassOf(r)) == None && EnvironmentUnknown(r.environment) == None
  {
    hide Derive, MandatoryDeny, EnvironmentUnknown;
    NotDenied(r, p, ClassOf(r));
    NothingUnknown(r.environment);
  }

  lemma NotDenied(r: Request, p: Policy, derived: Class)
    ensures MandatoryDeny(r, p, derived) == None <==>
      var e := r.environment;
      && derived <= 1 && derived in p.enabledClasses
      && r.subject.role in p.roles && r.action.verb in p.verbs && r.action.operation in p.operations
      && r.resource.resourceType in p.resourceTypes && r.resource.trustBoundary in p.trustBoundaries
      && e.flowState in p.flowStates && e.circuit != "open" && (e.network == "unknown" || e.network in p.networks)
      && e.isolation !in {"absent", "not_required"} && (e.billing == "unknown" || e.billing in p.routes)
      && (e.billing == "subscription_included" ==>
            && e.capacity in {"available", "unknown"}
            && e.protection in {"provider_enforced_disabled", ZERO_BALANCE, "unknown"})
  {
    hide ClassName;
  }

  lemma NothingUnknown(e: Environment)
    ensures EnvironmentUnknown(e) == None <==>
      && e.circuit == "closed" && e.network != "unknown" && e.isolation !in {"unknown", "unverified"}
      && e.billing != "unknown"
      && (e.billing == "subscription_included" ==> e.capacity != "unknown" && e.protection != "unknown")
  {
  }

  lemma ValidExactly(r: Request, p: Policy)
    ensures Validate(r, p).valid <==> Distinct(Ids(r.evidence)) && forall q | q in p.evidenceRequirements :: Backed(q, r)
  {
    hide Judge, Backed;
    NoFindings(p.evidenceRequirements, r);
    forall q | q in p.evidenceRequirements ensures Judge(q, r).Accepted? <==> Backed(q, r) { JudgeBacked(q, r); }
  }

  /** A request is permitted exactly when every gate is open, the policy is in force, the
      evidence records are told apart, each evidence requirement is backed and each approval
      requirement that applies is settled. */
  lemma PermitExactly(r: Request, p: Policy)
    ensures Evaluate(r, p).effect == "permit" <==>
      && GatesOpen(r, p) && p.issuedAt <= r.environment.evaluatedAt && Distinct(Ids(r.evidence))
      && (forall q | q in p.evidenceRequirements :: Backed(q, r))
      && (forall q | q in p.approvalRequirements && q.Matches(r, ClassOf(r)) :: Approved(q, r, p))
  {
    hide *;
    PermitStages(r, p);
    GatesExactly(r, p);
    ValidExactly(r, p);
    ApprovalSettled(r, p);
  }

  // ---- Expiry.

  lemma BackingIsCurrent(reqs: seq<EvidenceRequirement>, r: Request)
    ensures forall e | e in Backing(reqs, r) :: r.environment.evaluatedAt < e.expiresAt
  {
    forall e | e in Backing(reqs, r) ensures r.environment.evaluatedAt < e.expiresAt {
      var q :| q in reqs && Trusts(q, e) && Judge(q, r).Accepted?;
      JudgeBacked(q, r);
    }
  }

  lemma {:induction false} SoundGrantsAreCurrent(reqs: seq<ApprovalRequirement>, r: Request, p: Policy)
    requires forall q | q in reqs :: !Invalid(q, r, p)
    ensures forall t | t in Until(reqs, r) :: r.environment.evaluatedAt < t
  {
    if reqs != [] {
      var q := reqs[|reqs| - 1];
      SoundGrantsAreCurrent(reqs[..|reqs| - 1], r, p);
      assert q in reqs;
      var grants := GrantsFor(q, r);
      forall i | 0 <= i < |grants| ensures r.environment.evaluatedAt < grants[i].expiresAt {
        assert grants[i] in grants && !Misbound(q, grants[i], r, p);
      }
    }
  }

  lemma ValidationIsCurrent(r: Request, p: Policy)
    requires p.ttl > 0.0
    ensures r.environment.evaluatedAt < Validate(r, p).earliest
  {
    hide Backing, Findings;
    BackingIsCurrent(p.evidenceRequirements, r);
    var backing := Backing(p.evidenceRequirements, r);
    var times := [r.environment.evaluatedAt + p.ttl] + Expiries(backing);
    forall i | 0 <= i < |times| ensures r.environment.evaluatedAt < times[i] {
      if i > 0 { assert backing[i - 1] in backing; }
    }
  }

  lemma ApprovalIsCurrent(r: Request, p: Policy)
    requires p.ttl > 0.0 && ApprovalEffect(r, p, ClassOf(r)).Some?
    ensures r.environment.evaluatedAt < ApprovalEffect(r, p, ClassOf(r)).value.expiry
  {
    hide Until, Invalid, Derive;
    var reqs := Applicable(r, p, ClassOf(r));
    var n := Sound(reqs, r, p);
    assert n == |reqs| ==> reqs[..n] == reqs;
    SoundGrantsAreCurrent(reqs[..n], r, p);
  }

  /** Every decision expires strictly after it is issued. */
  lemma ExpiryFollowsIssue(r: Request, p: Policy)
    requires p.ttl > 0.0
    ensures Evaluate(r, p).issuedAt == r.environment.evaluatedAt < Evaluate(r, p).expiresAt
  {
    hide Derive, MandatoryDeny, EnvironmentUnknown, Validate, ApprovalEffect, Request.Digest, Policy.Digest, ClassName;
    ValidationIsCurrent(r, p);
    if ApprovalEffect(r, p, ClassOf(r)).Some? { ApprovalIsCurrent(r, p); }
  }

  /** Every decision satisfies all that its constructor checks. */
  lemma DecisionIsValid(r: Request, p: Policy)
    requires r.Valid() && p.Valid()
    ensures Evaluate(r, p).Valid()
  {
    hide Derive, MandatoryDeny, EnvironmentUnknown, Validate, ApprovalEffect, Request.Digest, Policy.Digest, ClassName;
    ExpiryFollowsIssue(r, p);
    DeriveInRange(r.action, r.resource, r.consequences);
    DenialIsNamed(r, p, ClassOf(r));
    UnknownIsNamed(r.environment);
    ValidationIsNamed(r, p);
    ApprovalIsNamed(r, p);
    DigestsAreDigests(r, p);
    ApprovalNeverPermits(r, p);
    assert |"append_after_action"| == 19 && |"required"| == 8;
  }

  lemma DigestsAreDigests(r: Request, p: Policy)
    ensures IsDigest(r.Digest()) && IsDigest(p.Digest())
  {
    hide Request.ToJson, Policy.ToJson;
  }

  lemma DeriveInRange(a: Action, r: Resource, c: Consequences)
    ensures 0 <= Derive(a, r, c) <= 3
  {
  }

  lemma DenialIsNamed(r: Request, p: Policy, derived: Class)
    ensures MandatoryDeny(r, p, derived).Some? ==> MandatoryDeny(r, p, derived).value.reason in REASONS
  {
  }

  lemma UnknownIsNamed(e: Environment)
    ensures EnvironmentUnknown(e).Some? ==> EnvironmentUnknown(e).value.0 in REASONS
  {
  }

  lemma {:induction false} FindingsAreNamed(reqs: seq<EvidenceRequirement>, r: Request)
    ensures forall f | f in Findings(reqs, r) :: f.reason in REASONS
  {
    if reqs != [] {
      FindingsAreNamed(reqs[..|reqs| - 1], r);
      FindingIsNamed(reqs[|reqs| - 1], r);
    }
  }

  lemma FindingIsNamed(q: EvidenceRequirement, r: Request)
    ensures Judge(q, r).Rejected? ==> Judge(q, r).reason in REASONS
  {
    hide Trusts, About, Stale, Request.Attribute;
  }

  lemma ValidationIsNamed(r: Request, p: Policy)
    ensures forall w | w in Validate(r, p).reasons :: w in REASONS
  {
    hide Findings, Backing, Earliest, Judge;
    var findings := Findings(p.evidenceRequirements, r);
    FindingsAreNamed(p.evidenceRequirements, r);
    forall w | w in Reasons(findings) ensures w in REASONS {
      var i :| 0 <= i < |findings| && Reasons(findings)[i] == w;
      assert findings[i] in findings;
    }
  }

  /** The obligations of a deferral name requirements of the policy. */
  lemma ApprovalIsNamed(r: Request, p: Policy)
    requires p.Valid()
    ensures
      var a := ApprovalEffect(r, p, ClassOf(r));
      a.Some? ==>
        && (forall w | w in a.value.reasons :: w in REASONS)
        && forall o | o in a.value.obligations :: o.kind in OBLIGATION_KINDS && ValidText(o.value)
  {
    hide Derive, Misbound, Until, Sound, Unapproved, Earliest;
    var a := ApprovalEffect(r, p, ClassOf(r));
    var missing := Filter(Applicable(r, p, ClassOf(r)), (q: ApprovalRequirement) => Unapproved(q, r));
    if a.Some? {
      forall o | o in a.value.obligations ensures o.kind in OBLIGATION_KINDS && ValidText(o.value) {
        var i :| 0 <= i < |a.value.obligations| && a.value.obligations[i] == o;
        assert missing[i] in missing && missing[i] in p.approvalRequirements;
      }
    }
  }

  lemma CountedBounds(r: Request, p: Policy, e: Evidence)
    requires Distinct(Ids(r.evidence)) && e in r.evidence && Counts(p.evidenceRequirements, r, e)
    ensures Validate(r, p).earliest <= e.expiresAt
  {
    hide Counts, Findings;
    var backing := Backing(p.evidenceRequirements, r);
    assert e in backing;
    var i :| 0 <= i < |backing| && backing[i] == e;
    var times := [r.environment.evaluatedAt + p.ttl] + Expiries(backing);
    assert times[i + 1] == e.expiresAt && e.expiresAt in times;
    assert Validate(r, p).earliest == Earliest(times);
  }

  lemma PermitExpiry(r: Request, p: Policy)
    requires p.ttl > 0.0 && Evaluate(r, p).effect == "permit"
    ensures Evaluate(r, p).expiresAt <= Validate(r, p).earliest
  {
    hide Derive, MandatoryDeny, EnvironmentUnknown, Validate, ApprovalEffect, Request.Digest, Policy.Digest, ClassName;
    ValidationIsCurrent(r, p);
    ApprovalNeverPermits(r, p);
  }

  /** Within the window of a permit all the evidence it rests on stays current. */
  lemma PermitWindow(r: Request, p: Policy, q: EvidenceRequirement, e: Evidence, t: real)
    requires p.ttl > 0.0 && Evaluate(r, p).effect == "permit"
    requires Evaluate(r, p).issuedAt <= t < Evaluate(r, p).expiresAt
    requires q in p.evidenceRequirements && e in r.evidence && Trusts(q, e)
    ensures e.authenticated && e.observedAt <= t < e.expiresAt && e.valueDigest == Digest(r.Attribute(q.attribute))
  {
    hide Evaluate, Judge, Trusts, Validate;
    PermitStages(r, p);
    ValidExactly(r, p);
    JudgeBacked(q, r);
    ExpiryFollowsIssue(r, p);
    PermitExpiry(r, p);
    CountedBounds(r, p, e);
  }

  // ---- What the window does not promise.

  predicate InWindow(d: Decision, t: real) { d.issuedAt <= t < d.expiresAt }

  /** A permit ends with the policy's time to live or with the first evidence it rests on.  The
      approvals it rests on do not shorten it. */
  lemma PermitEnds(r: Request, p: Policy)
    requires p.ttl > 0.0 && Evaluate(r, p).effect == "permit"
    ensures Evaluate(r, p).expiresAt == Validate(r, p).earliest <= r.environment.evaluatedAt + p.ttl
  {
    hide Derive, MandatoryDeny, EnvironmentUnknown, ApprovalEffect, Request.Digest, Policy.Digest, ClassName, Findings,
         Backing, Expiries;
    ValidationIsCurrent(r, p);
    ApprovalNeverPermits(r, p);
  }

  /** The record is trusted for a requirement of the policy. */
  predicate Required(p: Policy, e: Evidence) {
    exists q | q in p.evidenceRequirements :: Trusts(q, e)
  }

  /** A permit ends by `limit` exactly when the policy's time to live does, or one of the records
      that the policy requires. */
  lemma PermitEndsBy(r: Request, p: Policy, limit: real)
    requires p.ttl > 0.0 && Evaluate(r, p).effect == "permit"
    ensures Evaluate(r, p).expiresAt <= limit <==>
      r.environment.evaluatedAt + p.ttl <= limit || exists e | e in r.evidence && Required(p, e) :: e.expiresAt <= limit
  {
    hide Evaluate, Validate, Required, Backing, Earliest, Expiries, Distinct, Ids, Backed, MandatoryDeny, EnvironmentUnknown,
         ApprovalEffect, Derive;
    PermitEnds(r, p);
    PermitStages(r, p);
    ValidExactly(r, p);
    EarliestOfBacking(r, p);
    EarliestBy(r.environment.evaluatedAt + p.ttl, Backing(p.evidenceRequirements, r), limit);
    RequiredBack(r, p);
  }

  /** In a permit what counts is what is required. */
  lemma RequiredBack(r: Request, p: Policy)
    requires forall q | q in p.evidenceRequirements :: Backed(q, r)
    ensures forall e :: e in Backing(p.evidenceRequirements, r) <==> e in r.evidence && Required(p, e)
  {
    hide Judge, Trusts, Backed;
    forall q | q in p.evidenceRequirements ensures Judge(q, r).Accepted? { JudgeBacked(q, r); }
  }

  lemma EarliestBy(until: real, backing: seq<Evidence>, limit: real)
    ensures Earliest([until] + Expiries(backing)) <= limit <==>
      until <= limit || exists e | e in backing :: e.expiresAt <= limit
  {
    var times := [until] + Expiries(backing);
    var first := Earliest(times);
    assert times[0] in times;
    if first <= limit < until {
      var i :| 0 <= i < |times| && times[i] == first;
      assert backing[i - 1] in backing && backing[i - 1].expiresAt == first;
    }
    forall e | e in backing ensures first <= e.expiresAt {
      var i :| 0 <= i < |backing| && backing[i] == e;
      assert times[i + 1] == e.expiresAt && times[i + 1] in times;
    }
  }

  lemma EarliestOfBacking(r: Request, p: Policy)
    requires Distinct(Ids(r.evidence))
    ensures Validate(r, p).earliest ==
      Earliest([r.environment.evaluatedAt + p.ttl] + Expiries(Backing(p.evidenceRequirements, r)))
  {
    hide Findings, Backing, Earliest, Expiries, Ids;
  }

  /** So a grant that an applicable requirement rests on lasts through the permit exactly when the
      policy's time to live, or a required record, ends no later than the grant. */
  lemma GrantCoversWindow(r: Request, p: Policy, q: ApprovalRequirement, g: Grant)
    requires p.ttl > 0.0 && Evaluate(r, p).effect == "permit"
    requires q in Applicable(r, p, ClassOf(r)) && g in r.environment.grants && g.requirementId == q.id
    ensures (forall t | InWindow(Evaluate(r, p), t) :: t < g.expiresAt) <==>
      || r.environment.evaluatedAt + p.ttl <= g.expiresAt
      || exists e | e in r.evidence && Required(p, e) :: e.expiresAt <= g.expiresAt
  {
    hide Evaluate, Required;
    PermitEndsBy(r, p, g.expiresAt);
    ExpiryFollowsIssue(r, p);
    var d := Evaluate(r, p);
    if g.expiresAt < d.expiresAt {
      var t := if g.expiresAt < d.issuedAt then d.issuedAt else g.expiresAt;
      assert InWindow(d, t) && !(t < g.expiresAt);
    }
  }

  /** And the age that a requirement tolerates of a record is kept through the permit exactly when
      the policy's time to live, or a required record, ends before the record is too old. */
  lemma AgeHoldsThroughWindow(r: Request, p: Policy, q: EvidenceRequirement, e: Evidence)
    requires p.ttl > 0.0 && Evaluate(r, p).effect == "permit"
    requires q in p.evidenceRequirements && e in r.evidence && Trusts(q, e)
    ensures (forall t | InWindow(Evaluate(r, p), t) :: t - e.observedAt <= q.maxAge) <==>
      || r.environment.evaluatedAt + p.ttl <= e.observedAt + q.maxAge
      || exists f | f in r.evidence && Required(p, f) :: f.expiresAt <= e.observedAt + q.maxAge
  {
    hide Evaluate, Required;
    var d, limit := Evaluate(r, p), e.observedAt + q.maxAge;
    PermitEndsBy(r, p, limit);
    ExpiryFollowsIssue(r, p);
    if limit < d.expiresAt {
      var from := if limit < d.issuedAt then d.issuedAt else limit;
      var t := (from + d.expiresAt) / 2.0;
      assert InWindow(d, t) && !(t - e.observedAt <= q.maxAge);
    }
  }

  // ---- Reordering and adding evidence.

  lemma {:induction false} FindingsDependOn(reqs: seq<EvidenceRequirement>, r: Request, s: Request)
    requires forall q | q in reqs :: Judge(q, r) == Judge(q, s)
    ensures Findings(reqs, r) == Findings(reqs, s)
  {
    hide Judge;
    if reqs != [] {
      assert reqs[|reqs| - 1] in reqs;
      FindingsDependOn(reqs[..|reqs| - 1], r, s);
    }
  }

  lemma JudgeDependsOn(q: EvidenceRequirement, r: Request, s: Request)
    requires forall e :: e in r.evidence <==> e in s.evidence
    requires r.environment.evaluatedAt == s.environment.evaluatedAt && r.Attribute(q.attribute) == s.Attribute(q.attribute)
    ensures Judge(q, r) == Judge(q, s)
  {
    hide Untrusted, OnlyClaimed, Unauthenticated, FromFuture, OutOfDate, Conflicting, Unbound, Request.Attribute;
    SameFaults(q, r, s);
  }

  lemma SameFaults(q: EvidenceRequirement, r: Request, s: Request)
    requires forall e :: e in r.evidence <==> e in s.evidence
    requires r.environment.evaluatedAt == s.environment.evaluatedAt && r.Attribute(q.attribute) == s.Attribute(q.attribute)
    ensures Untrusted(q, r) == Untrusted(q, s) && OnlyClaimed(q, r) == OnlyClaimed(q, s)
    ensures Unauthenticated(q, r) == Unauthenticated(q, s) && FromFuture(q, r) == FromFuture(q, s)
    ensures OutOfDate(q, r) == OutOfDate(q, s) && Conflicting(q, r) == Conflicting(q, s) && Unbound(q, r) == Unbound(q, s)
  {
    hide Trusts, About, Stale, Request.Attribute;
  }

  lemma BackingDependsOn(reqs: seq<EvidenceRequirement>, r: Request, s: Request)
    requires multiset(r.evidence) == multiset(s.evidence)
    requires forall q | q in reqs :: Judge(q, r) == Judge(q, s)
    ensures multiset(Backing(reqs, r)) == multiset(Backing(reqs, s))
  {
    hide Judge, Trusts;
    forall e: Evidence ensures multiset(Backing(reqs, r))[e] == multiset(Backing(reqs, s))[e] {
      FilterCounts(r.evidence, (e: Evidence) => Counts(reqs, r, e), e);
      FilterCounts(s.evidence, (e: Evidence) => Counts(reqs, s, e), e);
    }
  }

  /** Validation does not see the order of the evidence. */
  lemma ValidateReordered(r: Request, s: Request, p: Policy)
    requires s == r.(evidence := s.evidence) && multiset(r.evidence) == multiset(s.evidence)
    ensures Validate(r, p) == Validate(s, p)
  {
    hide Judge, Findings, Backing;
    var reqs := p.evidenceRequirements;
    Reordered(r.evidence, s.evidence);
    forall q | q in reqs ensures Judge(q, r) == Judge(q, s) { JudgeDependsOn(q, r, s); }
    FindingsDependOn(reqs, r, s);
    MapReordered(r.evidence, s.evidence, (e: Evidence) => e.id);
    DistinctReordered(Ids(r.evidence), Ids(s.evidence));
    BackingDependsOn(reqs, r, s);
    ReorderedRefs(Backing(reqs, r), Backing(reqs, s), r.environment.evaluatedAt + p.ttl);
  }

  lemma ReorderedRefs(a: seq<Evidence>, b: seq<Evidence>, until: real)
    requires multiset(a) == multiset(b)
    ensures SortBy(Ids(a), TextKey) == SortBy(Ids(b), TextKey)
    ensures Earliest([until] + Expiries(a)) == Earliest([until] + Expiries(b))
  {
    MapReordered(a, b, (e: Evidence) => e.id);
    SortedIdsForgetOrder(Ids(a), Ids(b));
    MapReordered(a, b, (e: Evidence) => e.expiresAt);
    Reordered(Expiries(a), Expiries(b));
    EarliestOfSame([until] + Expiries(a), [until] + Expiries(b));
  }

  lemma EvidenceKeyTells(s: seq<Evidence>)
    requires Distinct(Ids(s))
    ensures KeyTells(s, EvidenceKey)
  {
    forall i, j | 0 <= i < |s| && 0 <= j < |s| && EvidenceKey(s[i]) == EvidenceKey(s[j]) ensures s[i] == s[j] {
      TextCode(s[i].attribute, s[j].attribute, EncodeText(s[i].id), EncodeText(s[j].id));
      TextCodeInjective(s[i].id, s[j].id);
      assert Ids(s)[i] == Ids(s)[j];
    }
  }

  lemma EvidenceListReordered(a: seq<Evidence>, b: seq<Evidence>)
    requires Distinct(Ids(a)) && multiset(a) == multiset(b)
    ensures EvidenceList(a) == EvidenceList(b)
  {
    EvidenceKeyTells(a);
    SortForgetsOrder(a, b, EvidenceKey);
  }

  lemma ReboundReordered(a: seq<Evidence>, b: seq<Evidence>, digest: Text)
    requires Distinct(Ids(a)) && multiset(a) == multiset(b)
    ensures EvidenceList(Rebound(a, digest)) == EvidenceList(Rebound(b, digest))
  {
    var bind := (e: Evidence) => if e.attribute == Lit("environment") then e.(valueDigest := digest) else e;
    assert Rebound(a, digest) == Map(a, bind) && Rebound(b, digest) == Map(b, bind);
    MapReordered(a, b, bind);
    assert Ids(Rebound(a, digest)) == Ids(a);
    EvidenceListReordered(Rebound(a, digest), Rebound(b, digest));
  }

  /** The parts of a request that evaluation reads. */
  lemma EvaluateDependsOn(r: Request, s: Request, p: Policy)
    requires r.id == s.id && r.Digest() == s.Digest() && r.environment.evaluatedAt == s.environment.evaluatedAt
    requires ClassOf(r) == ClassOf(s) && MandatoryDeny(r, p, ClassOf(r)) == MandatoryDeny(s, p, ClassOf(s))
    requires Validate(r, p) == Validate(s, p) && EnvironmentUnknown(r.environment) == EnvironmentUnknown(s.environment)
    requires ApprovalEffect(r, p, ClassOf(r)) == ApprovalEffect(s, p, ClassOf(s))
    ensures Evaluate(r, p) == Evaluate(s, p)
  {
    hide Derive, MandatoryDeny, EnvironmentUnknown, Validate, ApprovalEffect, Request.Digest, Policy.Digest, ClassName;
  }

  /** Two requests that the approval rules cannot tell apart. */
  predicate SameForApproval(r: Request, s: Request) {
    && multiset(r.environment.grants) == multiset(s.environment.grants)
    && r.environment.evaluatedAt == s.environment.evaluatedAt && r.ScopeDigest() == s.ScopeDigest()
    && r.subject == s.subject && r.action == s.action && r.resource == s.resource
  }

  lemma InvalidDependsOn(q: ApprovalRequirement, r: Request, s: Request, p: Policy)
    requires SameForApproval(r, s)
    ensures Invalid(q, r, p) == Invalid(q, s, p) && Unapproved(q, r) == Unapproved(q, s)
  {
    hide Request.ScopeDigest, Policy.Digest;
    Reordered(r.environment.grants, s.environment.grants);
    forall g ensures Misbound(q, g, r, p) == Misbound(q, g, s, p) {}
  }

  lemma {:induction false} SoundDependsOn(reqs: seq<ApprovalRequirement>, r: Request, s: Request, p: Policy)
    requires SameForApproval(r, s)
    ensures Sound(reqs, r, p) == Sound(reqs, s, p)
  {
    hide Invalid, Unapproved;
    if reqs != [] {
      InvalidDependsOn(reqs[0], r, s, p);
      SoundDependsOn(reqs[1..], r, s, p);
    }
  }

  lemma {:induction false} UntilDependsOn(reqs: seq<ApprovalRequirement>, r: Request, s: Request)
    requires multiset(r.environment.grants) == multiset(s.environment.grants)
    ensures forall t :: t in Until(reqs, r) <==> t in Until(reqs, s)
  {
    if reqs != [] {
      var q := reqs[|reqs| - 1];
      UntilDependsOn(reqs[..|reqs| - 1], r, s);
      FilterReordered(r.environment.grants, s.environment.grants, (g: Grant) => g.requirementId == q.id);
      MapReordered(GrantsFor(q, r), GrantsFor(q, s), (g: Grant) => g.expiresAt);
      Reordered(Map(GrantsFor(q, r), (g: Grant) => g.expiresAt), Map(GrantsFor(q, s), (g: Grant) => g.expiresAt));
    }
  }

  lemma EarliestDependsOn(reqs: seq<ApprovalRequirement>, r: Request, s: Request, until: real)
    requires multiset(r.environment.grants) == multiset(s.environment.grants)
    ensures Earliest([until] + Until(reqs, r)) == Earliest([until] + Until(reqs, s))
  {
    hide Until;
    UntilDependsOn(reqs, r, s);
    EarliestOfSame([until] + Until(reqs, r), [until] + Until(reqs, s));
  }

  lemma MissingDependsOn(reqs: seq<ApprovalRequirement>, r: Request, s: Request, p: Policy)
    requires SameForApproval(r, s)
    ensures Filter(reqs, (q: ApprovalRequirement) => Unapproved(q, r))
         == Filter(reqs, (q: ApprovalRequirement) => Unapproved(q, s))
  {
    hide Invalid, Unapproved, Filter, Request.ScopeDigest;
    forall q ensures Unapproved(q, r) == Unapproved(q, s) { InvalidDependsOn(q, r, s, p); }
    FilterSame(reqs, (q: ApprovalRequirement) => Unapproved(q, r), (q: ApprovalRequirement) => Unapproved(q, s));
  }

  lemma ApplicableDependsOn(r: Request, s: Request, p: Policy, derived: Class)
    requires r.action == s.action && r.resource == s.resource
    ensures Applicable(r, p, derived) == Applicable(s, p, derived)
  {
    FilterSame(p.approvalRequirements, (q: ApprovalRequirement) => q.Matches(r, derived),
               (q: ApprovalRequirement) => q.Matches(s, derived));
  }

  lemma ApprovalDependsOn(r: Request, s: Request, p: Policy, derived: Class)
    requires SameForApproval(r, s)
    ensures ApprovalEffect(r, p, derived) == ApprovalEffect(s, p, derived)
  {
    hide Invalid, Unapproved, Until, Filter, Applicable, Sound, Request.ScopeDigest;
    var reqs := Applicable(r, p, derived);
    ApplicableDependsOn(r, s, p, derived);
    SoundDependsOn(reqs, r, s, p);
    MissingDependsOn(reqs, r, s, p);
    EarliestDependsOn(reqs, r, s, r.environment.evaluatedAt + p.ttl);
    EarliestDependsOn(reqs[..Sound(reqs, r, p)], r, s, r.environment.evaluatedAt + p.ttl);
  }

  lemma DigestsReordered(r: Request, s: Request)
    requires s == r.(evidence := s.evidence) && multiset(r.evidence) == multiset(s.evidence) && Distinct(Ids(r.evidence))
    ensures r.Digest() == s.Digest() && r.ScopeDigest() == s.ScopeDigest()
  {
    hide EvidenceList, Subject.ToJson, Action.ToJson, Resource.ToJson, Environment.ToJson, Consequences.ToJson;
    EvidenceListReordered(r.evidence, s.evidence);
    ReboundReordered(r.evidence, s.evidence, Digest(r.environment.ScopeJson()));
  }

  /** Reordering told-apart evidence changes nothing: not the decision, nor any digest. */
  lemma EvidenceOrderIsForgotten(r: Request, s: Request, p: Policy)
    requires s == r.(evidence := s.evidence) && multiset(r.evidence) == multiset(s.evidence) && Distinct(Ids(r.evidence))
    ensures r.Digest() == s.Digest() && Evaluate(r, p) == Evaluate(s, p)
  {
    hide Validate, ApprovalEffect, Evaluate, Derive, MandatoryDeny, EnvironmentUnknown, Request.Digest, Request.ScopeDigest;
    DigestsReordered(r, s);
    ValidateReordered(r, s, p);
    ApprovalDependsOn(r, s, p, ClassOf(r));
    assert MandatoryDeny(r, p, ClassOf(r)) == MandatoryDeny(s, p, ClassOf(s)) by { DenyDependsOn(r, s, p, ClassOf(r)); }
    EvaluateDependsOn(r, s, p);
  }

  lemma DenyDependsOn(r: Request, s: Request, p: Policy, derived: Class)
    requires r.subject == s.subject && r.action == s.action && r.resource == s.resource
    requires r.environment.(grants := []) == s.environment.(grants := [])
    ensures MandatoryDeny(r, p, derived) == MandatoryDeny(s, p, derived)
    ensures EnvironmentUnknown(r.environment) == EnvironmentUnknown(s.environment)
  {
    hide DenyFor;
  }

  lemma GrantsReordered(a: seq<Grant>, b: seq<Grant>)
    requires multiset(a) == multiset(b)
    ensures SortBy(a, GrantKey) == SortBy(b, GrantKey)
  {
    forall i, j | 0 <= i < |a| && 0 <= j < |a| && GrantKey(a[i]) == GrantKey(a[j]) ensures a[i] == a[j] {
      JsonCodeInjective(a[i].ToJson(), a[j].ToJson());
      GrantJsonInjective(a[i], a[j]);
    }
    SortForgetsOrder(a, b, GrantKey);
  }

  lemma GrantJsonInjective(a: Grant, b: Grant)
    requires a.ToJson() == b.ToJson()
    ensures a == b
  {
    var x, y := a.ToJson().values, b.ToJson().values;
    assert forall i | 0 <= i < 10 :: x[i] == y[i];
    assert x[0] == Str(a.approvalId) && x[1] == Str(a.approverId) && x[2] == Plain(a.approverRole)
        && x[3] == Bool(a.authenticated) && x[4] == Num(a.expiresAt) && x[5] == Num(a.issuedAt)
        && x[6] == Str(a.policyDigest) && x[7] == Plain(a.requirementId) && x[8] == Str(a.scopeDigest)
        && x[9] == Plain(a.source);
  }

  lemma EnvironmentReordered(e: Environment, f: Environment)
    requires f == e.(grants := f.grants) && multiset(e.grants) == multiset(f.grants)
    ensures e.ToJson() == f.ToJson() && e.ScopeJson() == f.ScopeJson()
  {
    GrantsReordered(e.grants, f.grants);
  }

  lemma GrantDigestsReordered(r: Request, s: Request)
    requires s == r.(environment := r.environment.(grants := s.environment.grants))
    requires multiset(r.environment.grants) == multiset(s.environment.grants)
    ensures r.Digest() == s.Digest() && r.ScopeDigest() == s.ScopeDigest()
    ensures forall a :: r.Attribute(a) == s.Attribute(a)
  {
    hide EvidenceList, Subject.ToJson, Action.ToJson, Resource.ToJson, Consequences.ToJson, Environment.ToJson,
         Environment.ScopeJson;
    EnvironmentReordered(r.environment, s.environment);
  }

  /** Reordering approval grants changes nothing either. */
  lemma GrantOrderIsForgotten(r: Request, s: Request, p: Policy)
    requires s == r.(environment := r.environment.(grants := s.environment.grants))
    requires multiset(r.environment.grants) == multiset(s.environment.grants)
    ensures r.Digest() == s.Digest() && Evaluate(r, p) == Evaluate(s, p)
  {
    hide Validate, ApprovalEffect, Evaluate, Derive, MandatoryDeny, EnvironmentUnknown, Request.Digest,
         Request.ScopeDigest, Request.Attribute;
    GrantDigestsReordered(r, s);
    ValidateByAttributes(r, s, p);
    ApprovalDependsOn(r, s, p, ClassOf(r));
    DenyDependsOn(r, s, p, ClassOf(r));
    EvaluateDependsOn(r, s, p);
  }

  lemma ValidateByAttributes(r: Request, s: Request, p: Policy)
    requires r.evidence == s.evidence && r.environment.evaluatedAt == s.environment.evaluatedAt
    requires forall a :: r.Attribute(a) == s.Attribute(a)
    ensures Validate(r, p) == Validate(s, p)
  {
    hide Judge, Findings, Backing, Request.Attribute, Reasons, Details, SortBy, Distinct;
    var reqs := p.evidenceRequirements;
    forall q | q in reqs ensures Judge(q, r) == Judge(q, s) { JudgeDependsOn(q, r, s); }
    FindingsDependOn(reqs, r, s);
    BackingDependsOn(reqs, r, s);
    ReorderedRefs(Backing(reqs, r), Backing(reqs, s), r.environment.evaluatedAt + p.ttl);
  }

  /** Adding a record of a fresh identifier whose source can never be trusted. */
  function WithClaim(r: Request, e: Evidence): Request {
    r.(evidence := r.evidence + [e])
  }

  lemma ClaimNeverCounts(q: EvidenceRequirement, r: Request, e: Evidence)
    requires e.source in UNTRUSTED
    ensures Backed(q, WithClaim(r, e)) <==> Backed(q, r)
  {
    var s := WithClaim(r, e);
    assert forall a :: s.Attribute(a) == r.Attribute(a);
    assert forall x :: x in s.evidence <==> x in r.evidence || x == e;
  }

  /** Metadata from MCP, a provider or a model never changes the effect, unless an approval
      bound to the exact evidence is at stake. */
  lemma ClaimsNeverDecide(r: Request, p: Policy, e: Evidence)
    requires e.source in UNTRUSTED && e.id !in Ids(r.evidence)
    requires Applicable(r, p, ClassOf(r)) == []
    ensures Evaluate(WithClaim(r, e), p).effect == Evaluate(r, p).effect
  {
    hide Backed, Derive, MandatoryDeny, EnvironmentUnknown, Validate;
    var s := WithClaim(r, e);
    ValidExactly(r, p);
    ValidExactly(s, p);
    forall q | q in p.evidenceRequirements ensures Backed(q, s) <==> Backed(q, r) { ClaimNeverCounts(q, r, e); }
    assert Ids(s.evidence) == Ids(r.evidence) + [e.id];
    DenyDependsOn(r, s, p, ClassOf(r));
    DistinctMore(Ids(r.evidence), e.id);
    ApplicableDependsOn(r, s, p, ClassOf(r));
    NoneApplicable(r, p);
    NoneApplicable(s, p);
    EffectDependsOn(r, s, p);
  }

  lemma NoneApplicable(r: Request, p: Policy)
    requires Applicable(r, p, ClassOf(r)) == []
    ensures ApprovalEffect(r, p, ClassOf(r)) == None
  {
  }

  lemma EffectDependsOn(r: Request, s: Request, p: Policy)
    requires r.environment.evaluatedAt == s.environment.evaluatedAt && ClassOf(r) == ClassOf(s)
    requires MandatoryDeny(r, p, ClassOf(r)) == MandatoryDeny(s, p, ClassOf(s))
    requires EnvironmentUnknown(r.environment) == EnvironmentUnknown(s.environment)
    requires Validate(r, p).valid == Validate(s, p).valid
    requires ApprovalEffect(r, p, ClassOf(r)) == ApprovalEffect(s, p, ClassOf(s)) == None
    ensures Evaluate(r, p).effect == Evaluate(s, p).effect
  {
    hide Derive, MandatoryDeny, EnvironmentUnknown, Validate, ApprovalEffect, Request.Digest, Policy.Digest, ClassName;
  }
}
