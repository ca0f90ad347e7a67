/** When evaluating what was persisted and read back gives the original decision. */
module Reevaluations {
  import opened Prelude
  import opened Canon
  import opened Sequences
  import opened Authorization
  import opened Evaluator
  import opened EvaluatorLaws
  import opened CanonicalParsing

  // ---- Lists of requirements, as they are and in canonical order.

  lemma {:induction false} FilterSorted<T(!new)>(s: seq<T>, keep: T -> bool, key: T -> Key)
    requires SortedBy(s, key)
    ensures SortedBy(Filter(s, keep), key)
  {
    if s != [] {
      var init, last := s[..|s| - 1], s[|s| - 1];
      FilterSorted(init, keep, key);
      forall x | x in Filter(init, keep) ensures Before(key(x), key(last)) {
        var i :| 0 <= i < |init| && init[i] == x;
        assert s[i] == x;
      }
    }
  }

  /** Selecting from the sorted list is sorting the selection. */
  lemma SortFiltered<T(!new)>(s: seq<T>, keep: T -> bool, key: T -> Key)
    requires KeyTells(s, key)
    ensures Filter(SortBy(s, key), keep) == SortBy(Filter(s, keep), key)
  {
    hide SortedBy, KeyTells;
    var sorted, kept := SortBy(s, key), Filter(s, keep);
    FilterSorted(sorted, keep, key);
    FilterReordered(s, sorted, keep);
    KeptTell(s, kept, key);
    SortedUniqueOf(Filter(sorted, keep), SortBy(kept, key), kept, key);
  }

  lemma KeptTell<T(!new)>(s: seq<T>, kept: seq<T>, key: T -> Key)
    requires KeyTells(s, key) && forall x | x in kept :: x in s
    ensures KeyTells(kept, key)
  {
    forall i, j | 0 <= i < |kept| && 0 <= j < |kept| && key(kept[i]) == key(kept[j]) ensures kept[i] == kept[j] {
      assert kept[i] in s && kept[j] in s;
    }
  }

  lemma SortedUniqueOf<T(!new)>(a: seq<T>, b: seq<T>, s: seq<T>, key: T -> Key)
    requires SortedBy(a, key) && SortedBy(b, key) && multiset(a) == multiset(s) && multiset(b) == multiset(s)
    requires KeyTells(s, key)
    ensures a == b
  {
    forall i, j | 0 <= i < |a| && 0 <= j < |a| && key(a[i]) == key(a[j]) ensures a[i] == a[j] {
      assert a[i] in multiset(s) && a[j] in multiset(s);
    }
    SortedUnique(a, b, key);
  }

  /** The requirements that the request's evidence does not meet, in the order of the policy. */
  function RejectedBy(reqs: seq<EvidenceRequirement>, r: Request): (s: seq<EvidenceRequirement>)
    ensures forall q :: q in s <==> q in reqs && Judge(q, r).Rejected?
  {
    Filter(reqs, (q: EvidenceRequirement) => Judge(q, r).Rejected?)
  }

  function Judged(reqs: seq<EvidenceRequirement>, r: Request): (f: seq<Finding>)
    ensures |f| == |reqs| && forall i | 0 <= i < |f| :: f[i] == Judge(reqs[i], r)
  {
    Map(reqs, (q: EvidenceRequirement) => Judge(q, r))
  }

  lemma {:induction false} FindingsAreJudged(reqs: seq<EvidenceRequirement>, r: Request)
    ensures Findings(reqs, r) == Judged(RejectedBy(reqs, r), r)
  {
    hide Judge;
    if reqs != [] {
      var n := |reqs| - 1;
      FindingsAreJudged(reqs[..n], r);
      assert RejectedBy(reqs, r) == RejectedBy(reqs[..n], r) + if Judge(reqs[n], r).Rejected? then [reqs[n]] else [];
    }
  }

  lemma NormalFindings(reqs: seq<EvidenceRequirement>, r: Request)
    requires KeyTells(reqs, EvidenceRequirementKey)
    ensures Findings(NormalEvidenceRequirements(reqs), r)
      == Judged(SortBy(RejectedBy(reqs, r), EvidenceRequirementKey), r)
  {
    hide Judge, NormalEvidenceRequirement, SortBy, Trusts, EvidenceRequirementKey;
    var sorted, normal := SortBy(reqs, EvidenceRequirementKey), NormalEvidenceRequirements(reqs);
    var rejected := (q: EvidenceRequirement) => Judge(q, r).Rejected?;
    forall q ensures Judge(NormalEvidenceRequirement(q), r) == Judge(q, r) { NormalJudges(q, r); }
    assert normal == Map(sorted, NormalEvidenceRequirement);
    FindingsAreJudged(normal, r);
    FilterMap(sorted, NormalEvidenceRequirement, rejected, rejected);
    SortFiltered(reqs, rejected, EvidenceRequirementKey);
    assert RejectedBy(normal, r) == Filter(normal, rejected);
    assert RejectedBy(reqs, r) == Filter(reqs, rejected);
  }

  /** A detail names its attribute. */
  lemma DetailTells(a: EvidenceRequirement, b: EvidenceRequirement, r: Request)
    requires a.attribute in ATTRIBUTES && b.attribute in ATTRIBUTES && Judge(a, r).Rejected? && Judge(b, r).Rejected?
    requires Judge(a, r).detail == Judge(b, r).detail
    ensures a.attribute == b.attribute
  {
    DetailStarts(a, r);
    DetailStarts(b, r);
  }

  lemma DetailStarts(q: EvidenceRequirement, r: Request)
    requires q.attribute in ATTRIBUTES && Judge(q, r).Rejected?
    ensures q.attribute != "" && Judge(q, r).detail != "" && Judge(q, r).detail[0] == q.attribute[0]
  {
    hide Judge;
    assert q.attribute != "";
    var rest := DetailRest(q, r);
    assert (q.attribute + rest)[0] == q.attribute[0];
  }

  /** What a rejection says after naming the attribute. */
  lemma DetailRest(q: EvidenceRequirement, r: Request) returns (rest: string)
    requires Judge(q, r).Rejected?
    ensures Judge(q, r).detail == q.attribute + rest
  {
    hide Untrusted, OnlyClaimed, Unauthenticated, FromFuture, OutOfDate, Conflicting, Unbound;
    rest :=
      if Untrusted(q, r) then
        if OnlyClaimed(q, r) then " has only MCP/provider/model claims" else " lacks evidence from a trusted source"
      else if Unauthenticated(q, r) then " evidence is unauthenticated"
      else if FromFuture(q, r) then " evidence is from the future"
      else if OutOfDate(q, r) then " evidence is stale or malformed"
      else if Conflicting(q, r) then " evidence values conflict"
      else " evidence is not bound to this request";
  }

  /** Requirements of a policy are told apart by what they are about. */
  lemma AttributesTell(reqs: seq<EvidenceRequirement>)
    requires Distinct(AttributesOf(reqs))
    ensures KeyTells(reqs, EvidenceRequirementKey)
    ensures forall a, b | a in reqs && b in reqs && a.attribute == b.attribute :: a == b
  {
    forall i, j | 0 <= i < |reqs| && 0 <= j < |reqs| && reqs[i].attribute == reqs[j].attribute ensures i == j {
      assert AttributesOf(reqs)[i] == AttributesOf(reqs)[j];
    }
    forall i, j | 0 <= i < |reqs| && 0 <= j < |reqs| && EvidenceRequirementKey(reqs[i]) == EvidenceRequirementKey(reqs[j])
      ensures reqs[i] == reqs[j] {
      StringCode(reqs[i].attribute, reqs[j].attribute, [], []);
    }
  }

  /** The details come out the same exactly when the rejected requirements are in canonical order. */
  lemma SameDetails(reqs: seq<EvidenceRequirement>, r: Request)
    requires Distinct(AttributesOf(reqs)) && forall q | q in reqs :: q.attribute in ATTRIBUTES
    ensures
      var rejected := RejectedBy(reqs, r);
      && (SortedBy(rejected, EvidenceRequirementKey) ==> Findings(NormalEvidenceRequirements(reqs), r) == Findings(reqs, r))
      && (Details(Findings(NormalEvidenceRequirements(reqs), r)) == Details(Findings(reqs, r)) ==>
            SortedBy(rejected, EvidenceRequirementKey))
  {
    hide Judge, SortBy, EvidenceRequirementKey, NormalEvidenceRequirements, Findings, AttributesOf;
    AttributesTell(reqs);
    FindingsAreJudged(reqs, r);
    NormalFindings(reqs, r);
    var rejected := RejectedBy(reqs, r);
    var sorted := SortBy(rejected, EvidenceRequirementKey);
    Reordered(sorted, rejected);
    if SortedBy(rejected, EvidenceRequirementKey) { SortedIsFixed(rejected, EvidenceRequirementKey); }
    if Details(Judged(sorted, r)) == Details(Judged(rejected, r)) {
      forall i | 0 <= i < |rejected| ensures sorted[i] == rejected[i] {
        assert sorted[i] in sorted && rejected[i] in rejected;
        assert Details(Judged(sorted, r))[i] == Details(Judged(rejected, r))[i];
        DetailTells(sorted[i], rejected[i], r);
      }
      assert sorted == rejected;
    }
  }

  // ---- The same for approvals.

  /** Without grants every applicable requirement is missing. */
  lemma NothingGranted(r: Request, p: Policy, derived: Class)
    requires r.environment.grants == []
    ensures
      var missing := Applicable(r, p, derived);
      ApprovalEffect(r, p, derived) ==
        if missing == [] then None else Some(DeferFor(missing, Earliest([r.environment.evaluatedAt + p.ttl])))
  {
    hide Applicable, Sound, Until, Filter, DeferFor, Earliest;
    NoGrants(r, Applicable(r, p, derived), p);
    assert [r.environment.evaluatedAt + p.ttl] + [] == [r.environment.evaluatedAt + p.ttl];
  }

  lemma RequirementIdsTell(reqs: seq<ApprovalRequirement>)
    requires Distinct(RequirementIdsOf(reqs))
    ensures KeyTells(reqs, ApprovalRequirementKey)
    ensures forall a, b | a in reqs && b in reqs && a.id == b.id :: a == b
  {
    forall i, j | 0 <= i < |reqs| && 0 <= j < |reqs| && reqs[i].id == reqs[j].id ensures i == j {
      assert RequirementIdsOf(reqs)[i] == RequirementIdsOf(reqs)[j];
    }
    forall i, j | 0 <= i < |reqs| && 0 <= j < |reqs| && ApprovalRequirementKey(reqs[i]) == ApprovalRequirementKey(reqs[j])
      ensures reqs[i] == reqs[j] {
      StringCode(reqs[i].id, reqs[j].id, [], []);
    }
  }

  lemma NormalMissing(r: Request, p: Policy, derived: Class)
    requires KeyTells(p.approvalRequirements, ApprovalRequirementKey)
    ensures Applicable(r, NormalPolicy(p), derived)
      == Map(SortBy(Applicable(r, p, derived), ApprovalRequirementKey), NormalApprovalRequirement)
  {
    hide NormalApprovalRequirement, ApprovalRequirement.Matches, SortBy, NormalEvidenceRequirements, ApprovalRequirementKey;
    var reqs := p.approvalRequirements;
    var sorted := SortBy(reqs, ApprovalRequirementKey);
    var matches := (q: ApprovalRequirement) => q.Matches(r, derived);
    forall q ensures matches(NormalApprovalRequirement(q)) == matches(q) { NormalMatches(q, r, derived); }
    FilterMap(sorted, NormalApprovalRequirement, matches, matches);
    SortFiltered(reqs, matches, ApprovalRequirementKey);
    assert Applicable(r, p, derived) == Filter(reqs, matches);
    assert Applicable(r, NormalPolicy(p), derived) == Filter(Map(sorted, NormalApprovalRequirement), matches);
  }

  lemma DeferTells(a: seq<ApprovalRequirement>, b: seq<ApprovalRequirement>, expiry: real)
    requires DeferFor(a, expiry).details == DeferFor(b, expiry).details
    ensures |a| == |b| && forall i | 0 <= i < |a| :: a[i].id == b[i].id
  {
    var x, y := DeferFor(a, expiry).details, DeferFor(b, expiry).details;
    assert |x| == |a| && |y| == |b|;
    forall i | 0 <= i < |a| ensures a[i].id == b[i].id {
      var front, back := "digest-bound approval ", " is required";
      assert x[i] == front + a[i].id + back && y[i] == front + b[i].id + back && x[i] == y[i];
      assert |a[i].id| == |b[i].id|;
      assert x[i][|front|..|front| + |a[i].id|] == a[i].id && y[i][|front|..|front| + |b[i].id|] == b[i].id;
    }
  }

  /** The approval effects come out the same exactly when the missing requirements are in canonical
      order. */
  lemma SameApprovals(r: Request, p: Policy, derived: Class)
    requires r.environment.grants == [] && Distinct(RequirementIdsOf(p.approvalRequirements))
    ensures
      var missing, before, after :=
        Applicable(r, p, derived), ApprovalEffect(r, p, derived), ApprovalEffect(r, NormalPolicy(p), derived);
      && (before == None <==> after == None)
      && (SortedBy(missing, ApprovalRequirementKey) ==> after == before)
      && (before.Some? && after.Some? && after.value.details == before.value.details ==>
            SortedBy(missing, ApprovalRequirementKey))
  {
    hide Applicable, ApprovalEffect, SortBy, ApprovalRequirementKey, DeferFor, NormalApprovalRequirement, NormalPolicy,
         RequirementIdsOf, Earliest;
    var missing := Applicable(r, p, derived);
    var sorted := SortBy(missing, ApprovalRequirementKey);
    var expiry := Earliest([r.environment.evaluatedAt + p.ttl]);
    NormalLife(p);
    NothingGranted(r, p, derived);
    NothingGranted(r, NormalPolicy(p), derived);
    RequirementIdsTell(p.approvalRequirements);
    NormalMissing(r, p, derived);
    DeferForNormal(sorted, expiry);
    Reordered(sorted, missing);
    ApplicableAreOf(r, p, derived);
    if SortedBy(missing, ApprovalRequirementKey) { SortedIsFixed(missing, ApprovalRequirementKey); }
    if DeferFor(sorted, expiry).details == DeferFor(missing, expiry).details {
      DeferTells(sorted, missing, expiry);
      forall i | 0 <= i < |missing| ensures sorted[i] == missing[i] {
        assert sorted[i] in sorted && missing[i] in missing;
      }
      assert sorted == missing;
    }
  }

  lemma NormalLife(p: Policy)
    ensures NormalPolicy(p).ttl == p.ttl
  {
  }

  lemma ApplicableAreOf(r: Request, p: Policy, derived: Class)
    ensures forall q | q in Applicable(r, p, derived) :: q in p.approvalRequirements
  {
  }

  // ---- Evaluation.

  /** The re-evaluation does not depend on the order of the policy's requirements: an earlier gate
      decides, or the requirements that the decision lists are in canonical order anyway. */
  predicate OrderKept(r: Request, p: Policy) {
    || MandatoryDeny(r, p, ClassOf(r)).Some? || p.issuedAt > r.environment.evaluatedAt || !Distinct(Ids(r.evidence))
    || var rejected := RejectedBy(p.evidenceRequirements, r);
       if rejected != [] then SortedBy(rejected, EvidenceRequirementKey)
       else EnvironmentUnknown(r.environment).Some? || SortedBy(Applicable(r, p, ClassOf(r)), ApprovalRequirementKey)
  }

  /** The parts of a policy that evaluation reads, as far as it gets. */
  lemma EvaluateAsFar(r: Request, p: Policy, n: Policy)
    requires p.bundleId == n.bundleId && p.version == n.version && p.issuedAt == n.issuedAt && p.ttl == n.ttl
    requires p.Digest() == n.Digest()
    requires MandatoryDeny(r, n, ClassOf(r)) == MandatoryDeny(r, p, ClassOf(r))
    requires
      || MandatoryDeny(r, p, ClassOf(r)).Some? || p.issuedAt > r.environment.evaluatedAt
      || (Validate(r, n) == Validate(r, p)
          && (!Validate(r, p).valid || EnvironmentUnknown(r.environment).Some?
              || ApprovalEffect(r, n, ClassOf(r)) == ApprovalEffect(r, p, ClassOf(r))))
    ensures Evaluate(r, n) == Evaluate(r, p)
  {
    hide Derive, MandatoryDeny, EnvironmentUnknown, Validate, ApprovalEffect, Request.Digest, Policy.Digest, ClassName;
  }

  /** What a decision says of the stage that stops it. */
  lemma DetailsOfStage(r: Request, p: Policy)
    requires MandatoryDeny(r, p, ClassOf(r)) == None && p.issuedAt <= r.environment.evaluatedAt
    ensures !Validate(r, p).valid ==> Evaluate(r, p).details == Validate(r, p).details
    ensures Validate(r, p).valid && EnvironmentUnknown(r.environment) == None && ApprovalEffect(r, p, ClassOf(r)).Some? ==>
      Evaluate(r, p).details == ApprovalEffect(r, p, ClassOf(r)).value.details
  {
    hide Derive, MandatoryDeny, EnvironmentUnknown, Validate, ApprovalEffect, Request.Digest, Policy.Digest, ClassName;
  }

  lemma SameFindings(reqs: seq<EvidenceRequirement>, r: Request)
    requires Distinct(AttributesOf(reqs)) && forall q | q in reqs :: q.attribute in ATTRIBUTES
    ensures
      var rejected, f, g := RejectedBy(reqs, r), Findings(reqs, r), Findings(NormalEvidenceRequirements(reqs), r);
      && (rejected == [] <==> f == []) && (rejected == [] <==> g == [])
      && (SortedBy(rejected, EvidenceRequirementKey) ==> g == f)
      && (Details(g) == Details(f) ==> SortedBy(rejected, EvidenceRequirementKey))
  {
    hide Judge, SortBy, EvidenceRequirementKey, NormalEvidenceRequirements, Findings, AttributesOf, Details, RejectedBy,
         SortedBy;
    SameDetails(reqs, r);
    FindingsAreJudged(reqs, r);
    AttributesTell(reqs);
    NormalFindings(reqs, r);
  }

  /** Validation comes out the same exactly when the rejected requirements are in order. */
  lemma SameValidation(r: Request, p: Policy)
    requires p.Valid() && Distinct(Ids(r.evidence))
    ensures
      var rejected := RejectedBy(p.evidenceRequirements, r);
      && (rejected == [] <==> Validate(r, p).valid) && (rejected == [] <==> Validate(r, NormalPolicy(p)).valid)
      && (SortedBy(rejected, EvidenceRequirementKey) ==> Validate(r, NormalPolicy(p)) == Validate(r, p))
      && (Validate(r, NormalPolicy(p)).details == Validate(r, p).details ==> SortedBy(rejected, EvidenceRequirementKey))
  {
    hide Judge, SortBy, EvidenceRequirementKey, NormalEvidenceRequirements, Findings, Backing, AttributesOf, Ids, Details,
         RejectedBy, Dedupe, Earliest, Validate, NormalPolicy, Reasons, Expiries, Policy.Valid, SortedBy, Distinct;
    PolicyTells(p);
    NormalFields(p);
    SameFindings(p.evidenceRequirements, r);
    NormalBacking(p.evidenceRequirements, r);
    ValidationParts(r, p);
    ValidationParts(r, NormalPolicy(p));
  }

  lemma ValidationParts(r: Request, p: Policy)
    requires Distinct(Ids(r.evidence))
    ensures
      var findings, backing := Findings(p.evidenceRequirements, r), Backing(p.evidenceRequirements, r);
      Validate(r, p) == Validation(
        findings == [], Dedupe(Reasons(findings)), Details(findings), SortBy(Ids(backing), TextKey),
        Earliest([r.environment.evaluatedAt + p.ttl] + Expiries(backing)))
  {
    hide Findings, Backing, SortBy, Dedupe, Earliest, Ids, Expiries, Details;
  }

  lemma NormalFields(p: Policy)
    ensures
      var n := NormalPolicy(p);
      && n.bundleId == p.bundleId && n.version == p.version && n.issuedAt == p.issuedAt && n.ttl == p.ttl
      && n.evidenceRequirements == NormalEvidenceRequirements(p.evidenceRequirements)
  {
  }

  lemma DuplicatesValidate(r: Request, p: Policy)
    requires !Distinct(Ids(r.evidence))
    ensures Validate(r, NormalPolicy(p)) == Validate(r, p) && !Validate(r, p).valid
  {
    hide Distinct, Ids;
    NormalFields(p);
  }

  /** A policy and its canonical form decide a request alike exactly when the order is kept; if it
      is not, even the details differ. */
  lemma PolicyOrderExactly(r: Request, p: Policy)
    requires p.Valid() && r.environment.grants == []
    ensures OrderKept(r, p) ==> Evaluate(r, NormalPolicy(p)) == Evaluate(r, p)
    ensures !OrderKept(r, p) ==> Evaluate(r, NormalPolicy(p)).details != Evaluate(r, p).details
  {
    hide Derive, MandatoryDeny, EnvironmentUnknown, Validate, ApprovalEffect, Evaluate, Policy.ToJson, NormalPolicy,
         Applicable, RejectedBy, SortedBy, Distinct, Ids, AttributesOf, RequirementIdsOf;
    NormalDenies(r, p, ClassOf(r));
    NormalFields(p);
    NormalPolicySame(p);
    PolicyTells(p);
    if Distinct(Ids(r.evidence)) { SameValidation(r, p); } else { DuplicatesValidate(r, p); }
    SameApprovals(r, p, ClassOf(r));
    NothingGranted(r, p, ClassOf(r));
    if RejectedBy(p.evidenceRequirements, r) == [] { NothingIsSorted(); }
    if OrderKept(r, p) {
      EvaluateAsFar(r, p, NormalPolicy(p));
    } else {
      DetailsOfStage(r, p);
      DetailsOfStage(r, NormalPolicy(p));
      if Applicable(r, p, ClassOf(r)) == [] { NothingIsSorted(); }
    }
  }

  lemma NothingIsSorted()
    ensures SortedBy<EvidenceRequirement>([], EvidenceRequirementKey) && SortedBy<ApprovalRequirement>([], ApprovalRequirementKey)
  {
  }

  lemma PolicyTells(p: Policy)
    requires p.Valid()
    ensures Distinct(AttributesOf(p.evidenceRequirements)) && Distinct(RequirementIdsOf(p.approvalRequirements))
    ensures forall q | q in p.evidenceRequirements :: q.attribute in ATTRIBUTES
  {
  }

  /** The order of the evidence never matters, not even when identifiers are repeated. */
  lemma EvidenceOrderAnyway(r: Request, p: Policy)
    ensures Evaluate(NormalRequest(r), p) == Evaluate(r, p)
  {
    hide Evaluate, Distinct, Ids, SortBy, Request.ToJson, Validate, ApprovalEffect, MandatoryDeny, Derive, EnvironmentUnknown;
    var q := NormalRequest(r);
    NormalRequestSame(r);
    if Distinct(Ids(r.evidence)) {
      EvidenceOrderIsForgotten(r, q, p);
    } else {
      MapReordered(r.evidence, q.evidence, (e: Evidence) => e.id);
      IdsReordered(r, q);
      RepeatedIds(r, p);
      RepeatedIds(q, p);
      DenyDependsOn(r, q, p, ClassOf(r));
      RepeatedDecision(r, p);
      RepeatedDecision(q, p);
    }
  }

  lemma IdsReordered(r: Request, q: Request)
    requires multiset(r.evidence) == multiset(q.evidence)
    ensures Distinct(Ids(r.evidence)) <==> Distinct(Ids(q.evidence))
  {
    MapReordered(r.evidence, q.evidence, (e: Evidence) => e.id);
    DistinctReordered(Ids(r.evidence), Ids(q.evidence));
  }

  lemma RepeatedIds(r: Request, p: Policy)
    requires !Distinct(Ids(r.evidence))
    ensures Validate(r, p) == Validation(
      false, ["evidence_identifier_duplicated"], ["evidence identifiers must be unique"], [], r.environment.evaluatedAt + p.ttl)
  {
    hide Distinct, Ids;
  }

  /** What a request with repeated identifiers is decided by. */
  lemma RepeatedDecision(r: Request, p: Policy)
    requires !Validate(r, p).valid
    ensures
      var now, v, denial := r.environment.evaluatedAt, Validate(r, p), MandatoryDeny(r, p, ClassOf(r));
      Evaluate(r, p) ==
        if denial.Some? then
          Decide(r, p, "deny", [denial.value.reason], [denial.value.detail], [denial.value.rule], [], now + p.ttl, [])
        else if p.issuedAt > now then
          Decide(r, p, "indeterminate", ["policy_not_current"], ["the policy bundle is not yet current"],
                 ["phase-1c-policy-time"], [], now + p.ttl, [])
        else
          Decide(r, p, "indeterminate", v.reasons, v.details, ["phase-1c-evidence"], v.refs, Least(now + p.ttl, v.earliest), [])
  {
    hide Derive, MandatoryDeny, EnvironmentUnknown, Validate, ApprovalEffect, Decide, ClassName;
  }

  lemma DetailsInJson(d: Decision, e: Decision)
    requires d.ToJson() == e.ToJson()
    ensures d.details == e.details
  {
    hide SortBy, ObligationList;
    var x, y := d.ToJson().values, e.ToJson().values;
    assert x[11] == WordList(d.details) && y[11] == WordList(e.details) && x[11] == y[11];
    assert |WordList(d.details).items| == |d.details| && |WordList(e.details).items| == |e.details|;
    forall i | 0 <= i < |d.details| ensures |d.details| == |e.details| && d.details[i] == e.details[i] {
      assert WordList(d.details).items[i] == Plain(d.details[i]) && WordList(e.details).items[i] == Plain(e.details[i]);
    }
  }

  /** Re-evaluating what was persisted and read back gives the original decision, canonical form and
      all, if and only if the order is kept. */
  lemma ReevaluationExactly(r: Request, p: Policy)
    requires Readable(r) && p.Valid()
    ensures ReadRequest(r.ToJson()).Some? && ReadPolicy(p.ToJson()).Some?
    ensures
      var d := Evaluate(ReadRequest(r.ToJson()).value, ReadPolicy(p.ToJson()).value);
      && (d == Evaluate(r, p) <==> OrderKept(r, p))
      && (d.ToJson() == Evaluate(r, p).ToJson() <==> OrderKept(r, p))
  {
    hide Evaluate, Policy.ToJson, Request.ToJson, Policy.Valid, ReadRequest, ReadPolicy, OrderKept, Decision.ToJson,
         NormalPolicy, NormalRequest, Request.Valid;
    RequestRoundTrip(r);
    PolicyRoundTrip(p);
    EvidenceOrderAnyway(r, NormalPolicy(p));
    PolicyOrderExactly(r, p);
    var d, e := Evaluate(r, NormalPolicy(p)), Evaluate(r, p);
    if d.ToJson() == e.ToJson() { DetailsInJson(d, e); }
  }
}
