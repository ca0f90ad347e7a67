/** The deny-by-default evaluator. */
module Evaluator {
  import opened Prelude
  import opened Canon
  import opened Sequences
  import opened Authorization

  // ---- Permission class.

  predicate Consequential(a: Action, r: Resource, c: Consequences) {
    || "high" in {c.confidentiality, c.integrity, c.availability, c.sensitivity, r.sensitivity}
    || c.reach == "external" || c.blast == "broad"
    || c.destructive || !c.reversible || a.verb in {"delete", "send", "approve"}
  }

  predicate Internal(r: Resource, c: Consequences) {
    || "moderate" in {c.confidentiality, c.integrity, c.availability, c.sensitivity, r.sensitivity}
    || c.reach == "shared" || c.blast == "bounded" || r.guarded
  }

  /** The class of a request is the highest that any of its dimensions calls for. */
  function Derive(a: Action, r: Resource, c: Consequences): Class {
    if Consequential(a, r, c) then 3
    else if Internal(r, c) then 2
    else if a.verb == "read" then 0
    else 1
  }

  /** `derive_permission_class_from_attributes`: each dimension in turn raises the result. */
  method DerivePermissionClass(a: Action, r: Resource, c: Consequences) returns (result: Class)
    ensures result == Derive(a, r, c)
  {
    result := if a.verb == "read" then 0 else 1;
    var impacts := {c.confidentiality, c.integrity, c.availability, c.sensitivity, r.sensitivity};
    if "moderate" in impacts { result := Max(result, 2); }
    if "high" in impacts { result := 3; }
    if c.reach == "shared" { result := Max(result, 2); } else if c.reach == "external" { result := 3; }
    if r.guarded { result := Max(result, 2); }
    if c.blast == "bounded" { result := Max(result, 2); } else if c.blast == "broad" { result := 3; }
    if c.destructive || !c.reversible || a.verb in {"delete", "send", "approve"} { result := 3; }
  }

  function Max(a: int, b: int): int { if a < b then b else a }

  function ClassName(c: Class): string {
    if c == 0 then "0" else if c == 1 then "1" else if c == 2 then "2" else "3"
  }

  // ---- Mandatory denials.

  datatype Denial = Denial(reason: Word, detail: string, rule: Word)

  /** `_mandatory_deny_effect`: the first gate that does not hold.  Grants have no say. */
  function MandatoryDeny(r: Request, p: Policy, derived: Class): Option<Denial> {
    DenyFor(r.subject, r.action, r.resource, r.environment.(grants := []), p, derived)
  }

  function DenyFor(
    subject: Subject, action: Action, resource: Resource, e: Environment, p: Policy, derived: Class): Option<Denial>
  {
    if derived > 1 || derived !in p.enabledClasses then
      Some(Denial("class_disabled", "current stage disables derived Class " + ClassName(derived), "phase-1c-class-ceiling"))
    else if subject.role !in p.roles then
      Some(Denial("role_not_allowed", "the subject role is not enabled", "phase-1c-role-allowlist"))
    else if action.verb !in p.verbs then
      Some(Denial("verb_not_allowed", "the action verb is not enabled", "phase-1c-verb-allowlist"))
    else if action.operation !in p.operations then
      Some(Denial("operation_not_allowed", "the operation is not enabled", "phase-1c-operation-allowlist"))
    else if resource.resourceType !in p.resourceTypes then
      Some(Denial("resource_not_allowed", "the resource type is not enabled", "phase-1c-resource-allowlist"))
    else if resource.trustBoundary !in p.trustBoundaries then
      Some(Denial("trust_boundary_not_allowed", "the resource trust boundary is not enabled",
                  "phase-1c-trust-boundary-allowlist"))
    else if e.flowState !in p.flowStates then
      Some(Denial("flow_state_not_allowed", "the workflow state is not eligible for admission",
                  "phase-1c-flow-state-allowlist"))
    else if e.circuit == "open" then
      Some(Denial("circuit_open", "the applicable circuit breaker is open", "phase-1c-circuit-hard-stop"))
    else if e.network != "unknown" && e.network !in p.networks then
      Some(Denial("network_prohibited", "the effective network state is not enabled", "phase-1c-network-allowlist"))
    else if e.isolation in {"absent", "not_required"} then
      Some(Denial("isolation_required", "current-stage work requires verified isolation",
                  "phase-1c-isolation-requirement"))
    else if e.billing != "unknown" && e.billing !in p.routes then
      Some(Denial("billing_prohibited", "billing route is prohibited by mandatory policy", "phase-1c-billing-hard-stop"))
    else if e.billing == "subscription_included" && e.capacity !in {"available", "unknown"} then
      Some(Denial("billing_prohibited", "included subscription capacity is unavailable", "phase-1c-capacity-hard-stop"))
    else if e.billing == "subscription_included"
            && e.protection !in {"provider_enforced_disabled", ZERO_BALANCE, "unknown"} then
      Some(Denial("billing_prohibited", "paid continuation is not disabled", "phase-1c-paid-continuation-hard-stop"))
    else None
  }

  /** `_environment_indeterminate_effect` */
  function EnvironmentUnknown(e: Environment): Option<(Word, string)> {
    if e.circuit != "closed" then Some(("circuit_unknown", "the applicable circuit state is unknown"))
    else if e.network == "unknown" then Some(("network_unknown", "the effective network state is unknown"))
    else if e.isolation in {"unknown", "unverified"} then
      Some(("isolation_unknown", "effective isolation has not been verified"))
    else if e.billing == "unknown" then Some(("billing_evidence_unknown", "billing route is unknown"))
    else if e.billing == "subscription_included" && e.capacity == "unknown" then
      Some(("billing_evidence_unknown", "included subscription capacity is unknown"))
    else if e.billing == "subscription_included" && e.protection == "unknown" then
      Some(("billing_evidence_unknown", "paid-continuation protection is unknown"))
    else None
  }

  // ---- Evidence.

  predicate About(q: EvidenceRequirement, e: Evidence) {
    e.attribute == Lit(q.attribute)
  }

  predicate Trusts(q: EvidenceRequirement, e: Evidence) {
    About(q, e) && e.source in q.trusted && e.source !in UNTRUSTED
  }

  datatype Finding = Accepted | Rejected(reason: Word, detail: string)

  predicate Stale(q: EvidenceRequirement, e: Evidence, now: real) {
    e.expiresAt <= e.observedAt || now >= e.expiresAt || now - e.observedAt > q.maxAge
  }

  // What can be wrong with the records that are about a requirement, or with those it trusts.

  predicate Untrusted(q: EvidenceRequirement, r: Request) { forall e | e in r.evidence :: !Trusts(q, e) }
  predicate OnlyClaimed(q: EvidenceRequirement, r: Request) {
    (exists e | e in r.evidence :: About(q, e)) && forall e | e in r.evidence && About(q, e) :: e.source in UNTRUSTED
  }
  predicate Unauthenticated(q: EvidenceRequirement, r: Request) {
    exists e | e in r.evidence && Trusts(q, e) :: !e.authenticated
  }
  predicate FromFuture(q: EvidenceRequirement, r: Request) {
    exists e | e in r.evidence && Trusts(q, e) :: e.observedAt > r.environment.evaluatedAt
  }
  predicate OutOfDate(q: EvidenceRequirement, r: Request) {
    exists e | e in r.evidence && Trusts(q, e) :: Stale(q, e, r.environment.evaluatedAt)
  }
  predicate Conflicting(q: EvidenceRequirement, r: Request) {
    exists e, f | e in r.evidence && f in r.evidence && Trusts(q, e) && Trusts(q, f) :: e.valueDigest != f.valueDigest
  }
  predicate Unbound(q: EvidenceRequirement, r: Request) {
    exists e | e in r.evidence && Trusts(q, e) :: e.valueDigest != Digest(r.Attribute(q.attribute))
  }

  /** What the evidence has to say about one requirement. */
  function Judge(q: EvidenceRequirement, r: Request): Finding
  {
    if Untrusted(q, r) then
      if OnlyClaimed(q, r) then Rejected("untrusted_claim_only", q.attribute + " has only MCP/provider/model claims")
      else Rejected("evidence_missing", q.attribute + " lacks evidence from a trusted source")
    else if Unauthenticated(q, r) then
      Rejected("evidence_unauthenticated", q.attribute + " evidence is unauthenticated")
    else if FromFuture(q, r) then Rejected("evidence_from_future", q.attribute + " evidence is from the future")
    else if OutOfDate(q, r) then Rejected("evidence_stale", q.attribute + " evidence is stale or malformed")
    else if Conflicting(q, r) then Rejected("evidence_contradictory", q.attribute + " evidence values conflict")
    else if Unbound(q, r) then
      Rejected("evidence_value_mismatch", q.attribute + " evidence is not bound to this request")
    else Accepted
  }

  /** The record backs a requirement that is met. */
  predicate Counts(reqs: seq<EvidenceRequirement>, r: Request, e: Evidence)
  {
    exists q | q in reqs :: Trusts(q, e) && Judge(q, r).Accepted?
  }

  /** The findings against the request, in the order of the requirements. */
  function Findings(reqs: seq<EvidenceRequirement>, r: Request): (f: seq<Finding>)
    ensures forall x | x in f :: x.Rejected?
  {
    if reqs == [] then []
    else
      var last := Judge(reqs[|reqs| - 1], r);
      Findings(reqs[..|reqs| - 1], r) + if last.Rejected? then [last] else []
  }

  datatype Validation = Validation(
    valid: bool, reasons: seq<Word>, details: seq<string>, refs: seq<Text>, earliest: real)

  function Backing(reqs: seq<EvidenceRequirement>, r: Request): seq<Evidence>
  {
    Filter(r.evidence, (e: Evidence) => Counts(reqs, r, e))
  }

  function Ids(evidence: seq<Evidence>): seq<Text> { Map(evidence, (e: Evidence) => e.id) }
  function Expiries(evidence: seq<Evidence>): seq<real> { Map(evidence, (e: Evidence) => e.expiresAt) }
  function Reasons(findings: seq<Finding>): seq<Word>
    requires forall f | f in findings :: f.Rejected?
  {
    seq(|findings|, i requires 0 <= i < |findings| => findings[i].reason)
  }
  function Details(findings: seq<Finding>): seq<string>
    requires forall f | f in findings :: f.Rejected?
  {
    seq(|findings|, i requires 0 <= i < |findings| => findings[i].detail)
  }

  /** `_validate_evidence`, stated over the evidence as a whole. */
  function Validate(r: Request, p: Policy): Validation {
    var until := r.environment.evaluatedAt + p.ttl;
    if !Distinct(Ids(r.evidence)) then
      Validation(false, ["evidence_identifier_duplicated"], ["evidence identifiers must be unique"], [], until)
    else
      var findings, backing := Findings(p.evidenceRequirements, r), Backing(p.evidenceRequirements, r);
      Validation(findings == [], Dedupe(Reasons(findings)), Details(findings), SortBy(Ids(backing), TextKey),
                 Earliest([until] + Expiries(backing)))
  }

  // ---- Approvals.

  function GrantsFor(q: ApprovalRequirement, r: Request): seq<Grant> {
    Filter(r.environment.grants, (g: Grant) => g.requirementId == q.id)
  }

  /** The grant does not settle the requirement for exactly this request and policy, now. */
  predicate Misbound(q: ApprovalRequirement, g: Grant, r: Request, p: Policy) {
    var now := r.environment.evaluatedAt;
    || !g.authenticated || g.source != "approval_authority"
    || (q.approvers != [] && g.approverId !in q.approvers)
    || g.approverRole !in q.roles
    || (q.distinct && g.approverId == r.subject.principalId)
    || g.scopeDigest != r.ScopeDigest() || g.policyDigest != p.Digest()
    || g.issuedAt < p.issuedAt || g.issuedAt > now || g.expiresAt <= g.issuedAt || now >= g.expiresAt
  }

  predicate Unapproved(q: ApprovalRequirement, r: Request) {
    forall g | g in r.environment.grants :: g.requirementId != q.id
  }

  predicate Invalid(q: ApprovalRequirement, r: Request, p: Policy) {
    exists g | g in r.environment.grants :: g.requirementId == q.id && Misbound(q, g, r, p)
  }

  function Applicable(r: Request, p: Policy, derived: Class): seq<ApprovalRequirement> {
    Filter(p.approvalRequirements, (q: ApprovalRequirement) => q.Matches(r, derived))
  }

  /** The requirements before the first one whose grants are invalid. */
  function Sound(reqs: seq<ApprovalRequirement>, r: Request, p: Policy): (n: nat)
    ensures n <= |reqs| && (forall i | 0 <= i < n :: !Invalid(reqs[i], r, p)) && (n < |reqs| ==> Invalid(reqs[n], r, p))
  {
    if reqs == [] || Invalid(reqs[0], r, p) then 0 else 1 + Sound(reqs[1..], r, p)
  }

  function Until(reqs: seq<ApprovalRequirement>, r: Request): seq<real> {
    if reqs == [] then []
    else Until(reqs[..|reqs| - 1], r) + Map(GrantsFor(reqs[|reqs| - 1], r), (g: Grant) => g.expiresAt)
  }

  datatype Outstanding = Outstanding(
    effect: Word, reasons: seq<Word>, details: seq<string>, obligations: seq<Obligation>, expiry: real)

  function DeferFor(missing: seq<ApprovalRequirement>, expiry: real): Outstanding {
    Outstanding("defer", ["approval_required"],
                Map(missing, (q: ApprovalRequirement) => "digest-bound approval " + q.id + " is required"),
                Map(missing, (q: ApprovalRequirement) => Obligation("approval", Lit(q.id))), expiry)
  }

  /** `_approval_effect`, stated over the requirements as a whole. */
  function ApprovalEffect(r: Request, p: Policy, derived: Class): Option<Outstanding> {
    var reqs := Applicable(r, p, derived);
    var until := r.environment.evaluatedAt + p.ttl;
    var n := Sound(reqs, r, p);
    var missing := Filter(reqs, (q: ApprovalRequirement) => Unapproved(q, r));
    if n < |reqs| then
      Some(Outstanding("indeterminate", ["approval_invalid"], ["approval " + reqs[n].id + " is stale or misbound"], [],
                       Earliest([until] + Until(reqs[..n], r))))
    else if missing != [] then
      Some(DeferFor(missing, Earliest([until] + Until(reqs, r))))
    else None
  }

  // ---- Evaluation.

  function Decide(
    r: Request, p: Policy, effect: Word, reasons: seq<Word>, details: seq<string>, rules: seq<Word>, refs: seq<Text>,
    expiry: real, obligations: seq<Obligation>): Decision
  {
    var now := r.environment.evaluatedAt;
    Decision(r.id, r.Digest(), p.bundleId, p.version, p.Digest(), effect,
             Derive(r.action, r.resource, r.consequences), reasons, details, rules, refs, now,
             if expiry < now then now else expiry, obligations)
  }

  function Least(a: real, b: real): real { if b < a then b else a }

  /** `evaluate` */
  function Evaluate(r: Request, p: Policy): Decision {
    var now := r.environment.evaluatedAt;
    var derived := Derive(r.action, r.resource, r.consequences);
    var denial := MandatoryDeny(r, p, derived);
    if denial.Some? then
      Decide(r, p, "deny", [denial.value.reason], [denial.value.detail], [denial.value.rule], [], now + p.ttl, [])
    else if p.issuedAt > now then
      Decide(r, p, "indeterminate", ["policy_not_current"], ["the policy bundle is not yet current"],
             ["phase-1c-policy-time"], [], now + p.ttl, [])
    else
      var v := Validate(r, p);
      var expiry := Least(now + p.ttl, v.earliest);
      if !v.valid then
        Decide(r, p, "indeterminate", v.reasons, v.details, ["phase-1c-evidence"], v.refs, expiry, [])
      else
        var unknown := EnvironmentUnknown(r.environment);
        if unknown.Some? then
          Decide(r, p, "indeterminate", [unknown.value.0], [unknown.value.1], ["phase-1c-environment-evidence"], v.refs,
                 expiry, [])
        else
          var approval := ApprovalEffect(r, p, derived);
          if approval.Some? then
            var a := approval.value;
            Decide(r, p, a.effect, a.reasons, a.details, ["phase-1c-digest-bound-approval"], v.refs,
                   Least(expiry, a.expiry), a.obligations)
          else
            Decide(r, p, "permit", ["current_stage_permit"],
                   ["derived Class " + ClassName(derived) + " is enabled in shadow policy"],
                   ["phase-1c-class-" + ClassName(derived)], v.refs, expiry,
                   [Obligation("audit_receipt", Lit("append_after_action")),
                    Obligation(if derived == 0 then "read_only" else "isolated_local_only", Lit("required"))])
  }

  // ---- The loops of the source, proved to compute the functions above.

  lemma FilterEither<T(!new)>(s: seq<T>, a: T -> bool, b: T -> bool, either: T -> bool)
    requires forall x | x in s :: !(a(x) && b(x)) && (either(x) <==> a(x) || b(x))
    ensures multiset(Filter(s, either)) == multiset(Filter(s, a)) + multiset(Filter(s, b))
  {
    forall x: T ensures multiset(Filter(s, either))[x] == multiset(Filter(s, a))[x] + multiset(Filter(s, b))[x] {
      FilterCounts(s, either, x);
      FilterCounts(s, a, x);
      FilterCounts(s, b, x);
    }
  }

  /** Accepting one more requirement adds exactly the records it trusts. */
  lemma BackingGrows(reqs: seq<EvidenceRequirement>, i: nat, r: Request)
    requires i < |reqs| && Distinct(AttributesOf(reqs))
    ensures
      var trusted := Filter(r.evidence, (e: Evidence) => Trusts(reqs[i], e));
      multiset(Backing(reqs[..i + 1], r)) ==
        multiset(Backing(reqs[..i], r) + if Judge(reqs[i], r).Accepted? then trusted else [])
  {
    hide Judge;
    var q := reqs[i];
    var attributes := AttributesOf(reqs);
    assert reqs[..i + 1] == reqs[..i] + [q];
    if Judge(q, r).Accepted? {
      assert forall k | 0 <= k < i :: attributes[k] != attributes[i];
      FilterEither(r.evidence, (e: Evidence) => Counts(reqs[..i], r, e), (e: Evidence) => Trusts(q, e),
                   (e: Evidence) => Counts(reqs[..i + 1], r, e));
    } else {
      FilterEither(r.evidence, (e: Evidence) => Counts(reqs[..i], r, e), (e: Evidence) => false,
                   (e: Evidence) => Counts(reqs[..i + 1], r, e));
      FilterNone(r.evidence);
    }
  }

  lemma {:induction false} FilterNone<T(!new)>(s: seq<T>)
    ensures Filter(s, (x: T) => false) == []
  {
    if s != [] { FilterNone(s[..|s| - 1]); }
  }

  /** One round of the evidence loop: the tests in the order the source makes them. */
  method JudgeInTurn(q: EvidenceRequirement, r: Request) returns (finding: Finding, trusted: seq<Evidence>)
    ensures finding == Judge(q, r) && trusted == Filter(r.evidence, (e: Evidence) => Trusts(q, e))
  {
    hide Trusts, Stale, About, Filter, Untrusted, OnlyClaimed, Unauthenticated, FromFuture, OutOfDate, Conflicting, Unbound;
    var now := r.environment.evaluatedAt;
    var records := Filter(r.evidence, (e: Evidence) => About(q, e));
    trusted := Filter(r.evidence, (e: Evidence) => Trusts(q, e));
    ClaimsTell(q, r, records);
    TrustedTell(q, r, trusted);
    if trusted == [] {
      if records != [] && forall e | e in records :: e.source in UNTRUSTED {
        finding := Rejected("untrusted_claim_only", q.attribute + " has only MCP/provider/model claims");
      } else {
        finding := Rejected("evidence_missing", q.attribute + " lacks evidence from a trusted source");
      }
      return;
    }
    ValuesTell(q, r, trusted);
    if exists e | e in trusted :: !e.authenticated {
      finding := Rejected("evidence_unauthenticated", q.attribute + " evidence is unauthenticated");
    } else if exists e | e in trusted :: e.observedAt > now {
      finding := Rejected("evidence_from_future", q.attribute + " evidence is from the future");
    } else if exists e | e in trusted :: Stale(q, e, now) {
      finding := Rejected("evidence_stale", q.attribute + " evidence is stale or malformed");
    } else if |set e | e in trusted :: e.valueDigest| != 1 {
      OneValue(trusted);
      finding := Rejected("evidence_contradictory", q.attribute + " evidence values conflict");
    } else {
      OneValue(trusted);
      if trusted[0].valueDigest != Digest(r.Attribute(q.attribute)) {
        finding := Rejected("evidence_value_mismatch", q.attribute + " evidence is not bound to this request");
      } else {
        finding := Accepted;
      }
    }
  }

  lemma ClaimsTell(q: EvidenceRequirement, r: Request, records: seq<Evidence>)
    requires forall e :: e in records <==> e in r.evidence && About(q, e)
    ensures OnlyClaimed(q, r) <==> records != [] && forall e | e in records :: e.source in UNTRUSTED
  {
    hide About;
    SomeElement(records);
  }

  lemma TrustedTell(q: EvidenceRequirement, r: Request, trusted: seq<Evidence>)
    requires forall e :: e in trusted <==> e in r.evidence && Trusts(q, e)
    ensures Untrusted(q, r) <==> trusted == []
    ensures Unauthenticated(q, r) <==> exists e | e in trusted :: !e.authenticated
    ensures FromFuture(q, r) <==> exists e | e in trusted :: e.observedAt > r.environment.evaluatedAt
    ensures OutOfDate(q, r) <==> exists e | e in trusted :: Stale(q, e, r.environment.evaluatedAt)
  {
    hide Trusts, Stale;
    SomeElement(trusted);
  }

  lemma ValuesTell(q: EvidenceRequirement, r: Request, trusted: seq<Evidence>)
    requires trusted != [] && forall e :: e in trusted <==> e in r.evidence && Trusts(q, e)
    ensures Conflicting(q, r) <==> exists e | e in trusted :: e.valueDigest != trusted[0].valueDigest
    ensures !Conflicting(q, r) ==>
      (Unbound(q, r) <==> trusted[0].valueDigest != Digest(r.Attribute(q.attribute)))
  {
    hide Trusts, Request.Attribute;
    assert trusted[0] in trusted;
  }

  lemma OneValue(trusted: seq<Evidence>)
    requires trusted != []
    ensures |set e | e in trusted :: e.valueDigest| == 1 <==>
      forall e | e in trusted :: e.valueDigest == trusted[0].valueDigest
  {
    var values, first := set e | e in trusted :: e.valueDigest, trusted[0].valueDigest;
    assert trusted[0] in trusted;
    assert values == {first} + (values - {first});
    if |values| == 1 {
      forall e | e in trusted ensures e.valueDigest == first {
        assert e.valueDigest in values && e.valueDigest !in values - {first};
      }
    } else {
      var v :| v in values - {first};
    }
  }

  lemma IdsOfSum(a: seq<Evidence>, b: seq<Evidence>, c: seq<Evidence>)
    requires multiset(a) == multiset(b + c)
    ensures multiset(Ids(a)) == multiset(Ids(b)) + multiset(Ids(c))
    ensures forall x :: x in Expiries(a) <==> x in Expiries(b) || x in Expiries(c)
  {
    MapReordered(a, b + c, (e: Evidence) => e.id);
    MapReordered(a, b + c, (e: Evidence) => e.expiresAt);
    assert Ids(b + c) == Ids(b) + Ids(c) && Expiries(b + c) == Expiries(b) + Expiries(c);
    Reordered(Expiries(a), Expiries(b) + Expiries(c));
  }

  lemma FindingsGrow(reqs: seq<EvidenceRequirement>, i: nat, r: Request)
    requires i < |reqs|
    ensures Findings(reqs[..i + 1], r) ==
      Findings(reqs[..i], r) + if Judge(reqs[i], r).Rejected? then [Judge(reqs[i], r)] else []
  {
    hide Judge;
    assert reqs[..i + 1][..i] == reqs[..i];
  }

  lemma NothingBacksNothing(r: Request)
    ensures Backing([], r) == [] && Findings([], r) == [] && Ids([]) == [] && Expiries([]) == []
  {
    FilterNone(r.evidence);
    FilterEither(r.evidence, (e: Evidence) => false, (e: Evidence) => false, (e: Evidence) => Counts([], r, e));
  }

  /** What the loop has gathered amounts to these backing records, in whatever order. */
  ghost predicate Amounts(accepted: seq<Text>, expiries: seq<real>, backing: seq<Evidence>, until: real) {
    && multiset(accepted) == multiset(Ids(backing))
    && forall x :: x in expiries <==> x in [until] + Expiries(backing)
  }

  lemma AmountsStill(accepted: seq<Text>, expiries: seq<real>, before: seq<Evidence>, after: seq<Evidence>, until: real)
    requires Amounts(accepted, expiries, before, until) && multiset(after) == multiset(before + [])
    ensures Amounts(accepted, expiries, after, until)
  {
    hide Ids, Expiries;
    IdsOfSum(after, before, []);
    assert Ids([]) == [] && Expiries([]) == [] by { NoIds(); }
  }

  lemma NoIds()
    ensures Ids([]) == [] && Expiries([]) == []
  {
  }

  lemma AmountsMore(
    accepted: seq<Text>, expiries: seq<real>, before: seq<Evidence>, trusted: seq<Evidence>, after: seq<Evidence>,
    until: real)
    requires Amounts(accepted, expiries, before, until) && multiset(after) == multiset(before + trusted)
    ensures Amounts(accepted + Ids(trusted), expiries + Expiries(trusted), after, until)
  {
    hide Ids, Expiries;
    IdsOfSum(after, before, trusted);
  }

  /** `_validate_evidence` */
  method ValidateEvidence(r: Request, p: Policy) returns (v: Validation)
    requires Distinct(AttributesOf(p.evidenceRequirements))
    ensures v == Validate(r, p)
  {
    hide Judge, Trusts, Backing, Filter, Findings, Ids, Expiries;
    var until, reqs := r.environment.evaluatedAt + p.ttl, p.evidenceRequirements;
    if !Distinct(Ids(r.evidence)) {
      return Validation(false, ["evidence_identifier_duplicated"], ["evidence identifiers must be unique"], [], until);
    }
    var findings: seq<Finding>, accepted: seq<Text>, expiries := [], [], [until];
    NothingBacksNothing(r);
    assert reqs[..0] == [];
    for i := 0 to |reqs|
      invariant findings == Findings(reqs[..i], r) && expiries != []
      invariant Amounts(accepted, expiries, Backing(reqs[..i], r), until)
    {
      hide Amounts;
      var finding, trusted := JudgeInTurn(reqs[i], r);
      FindingsGrow(reqs, i, r);
      BackingGrows(reqs, i, r);
      ghost var before, after := Backing(reqs[..i], r), Backing(reqs[..i + 1], r);
      if finding.Rejected? {
        findings := findings + [finding];
        AmountsStill(accepted, expiries, before, after, until);
      } else {
        AmountsMore(accepted, expiries, before, trusted, after, until);
        accepted, expiries := accepted + Ids(trusted), expiries + Expiries(trusted);
      }
    }
    assert reqs[..|reqs|] == reqs;
    v := Validation(findings == [], Dedupe(Reasons(findings)), Details(findings), SortBy(accepted, TextKey),
                    Earliest(expiries));
    SortedIdsForgetOrder(accepted, Ids(Backing(reqs, r)));
    EarliestOfSame(expiries, [until] + Expiries(Backing(reqs, r)));
  }

  lemma SortedIdsForgetOrder(a: seq<Text>, b: seq<Text>)
    requires multiset(a) == multiset(b)
    ensures SortBy(a, TextKey) == SortBy(b, TextKey)
  {
    forall i, j | 0 <= i < |a| && 0 <= j < |a| && TextKey(a[i]) == TextKey(a[j]) ensures a[i] == a[j] {
      TextCodeInjective(a[i], a[j]);
    }
    SortForgetsOrder(a, b, TextKey);
  }

  lemma GrantsTell(q: ApprovalRequirement, r: Request, p: Policy)
    ensures Unapproved(q, r) <==> GrantsFor(q, r) == []
    ensures Invalid(q, r, p) <==> exists g | g in GrantsFor(q, r) :: Misbound(q, g, r, p)
  {
    hide Misbound, Filter;
    SomeElement(GrantsFor(q, r));
  }

  lemma UnapprovedGrow(reqs: seq<ApprovalRequirement>, i: nat, r: Request)
    requires i < |reqs|
    ensures Filter(reqs[..i + 1], (q: ApprovalRequirement) => Unapproved(q, r)) ==
      Filter(reqs[..i], (q: ApprovalRequirement) => Unapproved(q, r)) + if Unapproved(reqs[i], r) then [reqs[i]] else []
    ensures Until(reqs[..i + 1], r) ==
      Until(reqs[..i], r) + Map(GrantsFor(reqs[i], r), (g: Grant) => g.expiresAt)
  {
    hide Unapproved, GrantsFor;
    assert reqs[..i + 1][..i] == reqs[..i];
  }

  lemma NothingUntil(r: Request)
    ensures Until([], r) == []
  {
  }

  /** `_approval_effect` */
  method SettleApprovals(r: Request, p: Policy, derived: Class) returns (a: Option<Outstanding>)
    ensures a == ApprovalEffect(r, p, derived)
  {
    hide Misbound, Until, Filter, Applicable, DeferFor, Unapproved, Invalid, GrantsFor;
    var reqs := Applicable(r, p, derived);
    if reqs == [] { return None; }
    var missing, expiries := [], [r.environment.evaluatedAt + p.ttl];
    assert reqs[..0] == [];
    NothingUntil(r);
    for i := 0 to |reqs|
      invariant missing == Filter(reqs[..i], (q: ApprovalRequirement) => Unapproved(q, r))
      invariant expiries == [r.environment.evaluatedAt + p.ttl] + Until(reqs[..i], r)
      invariant forall j | 0 <= j < i :: !Invalid(reqs[j], r, p)
    {
      var grants := GrantsFor(reqs[i], r);
      UnapprovedGrow(reqs, i, r);
      GrantsTell(reqs[i], r, p);
      if grants == [] {
        missing := missing + [reqs[i]];
        continue;
      }
      if exists g | g in grants :: Misbound(reqs[i], g, r, p) {
        assert Sound(reqs, r, p) == i;
        return Some(Outstanding("indeterminate", ["approval_invalid"],
                                ["approval " + reqs[i].id + " is stale or misbound"], [], Earliest(expiries)));
      }
      expiries := expiries + Map(grants, (g: Grant) => g.expiresAt);
    }
    assert reqs[..|reqs|] == reqs && Sound(reqs, r, p) == |reqs|;
    if missing == [] { return None; }
    a := Some(DeferFor(missing, Earliest(expiries)));
  }
}
