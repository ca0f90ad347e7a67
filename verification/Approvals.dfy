/** Approval grants: how they unblock a request, and how they are bound to it. */
module Approvals {
  import opened Prelude
  import opened Canon
  import opened Sequences
  import opened Authorization
  import opened Evaluator
  import opened EvaluatorLaws

  /** `ApprovalGrant.for_request` */
  function ForRequest(
    approvalId: Text, requirementId: string, approverId: Text, r: Request, p: Policy, issuedAt: real, expiresAt: real,
    role: Word): Grant
  {
    Grant(approvalId, requirementId, approverId, r.ScopeDigest(), p.Digest(), issuedAt, expiresAt, role,
          "approval_authority", true)
  }

  /** The grant was made for this request under this policy. */
  predicate MadeFor(g: Grant, r: Request, p: Policy) {
    g == ForRequest(g.approvalId, g.requirementId, g.approverId, r, p, g.issuedAt, g.expiresAt, g.approverRole)
  }

  /** Its approver may settle the requirement, and it is in date. */
  predicate Acceptable(q: ApprovalRequirement, g: Grant, r: Request, p: Policy) {
    && (q.approvers == [] || g.approverId in q.approvers) && g.approverRole in q.roles
    && (q.distinct ==> g.approverId != r.subject.principalId)
    && p.issuedAt <= g.issuedAt <= r.environment.evaluatedAt < g.expiresAt
  }

  lemma MadeForIsBound(q: ApprovalRequirement, g: Grant, r: Request, p: Policy)
    requires MadeFor(g, r, p)
    ensures Misbound(q, g, r, p) <==> !Acceptable(q, g, r, p)
  {
    hide Request.ScopeDigest, Policy.Digest;
  }

  /** The request with more grants, its environment evidence bound to the new environment. */
  function Approve(r: Request, grants: seq<Grant>): Request {
    var environment := r.environment.(grants := r.environment.grants + grants);
    r.(environment := environment, evidence := Rebound(r.evidence, Digest(environment.ToJson())))
  }

  /** The scope a grant is bound to does not contain grants, so granting cannot chase itself. */
  lemma ScopeIgnoresGrants(r: Request, grants: seq<Grant>)
    ensures Approve(r, grants).ScopeDigest() == r.ScopeDigest()
  {
    var s := Approve(r, grants);
    assert s.environment.ScopeJson() == r.environment.ScopeJson();
    var digest := Digest(r.environment.ScopeJson());
    assert Rebound(s.evidence, digest) == Rebound(r.evidence, digest);
  }

  lemma ReboundAt(r: Request, grants: seq<Grant>, e: Evidence)
    requires e in Approve(r, grants).evidence
    ensures exists f :: f in r.evidence && e == f.(valueDigest := e.valueDigest)
              && e.valueDigest == if f.attribute == Lit("environment")
                                  then Digest(Approve(r, grants).environment.ToJson()) else f.valueDigest
  {
    var s := Approve(r, grants);
    var i :| 0 <= i < |s.evidence| && s.evidence[i] == e;
    assert r.evidence[i] in r.evidence;
  }

  lemma StillBacked(q: EvidenceRequirement, r: Request, grants: seq<Grant>)
    requires Backed(q, r)
    ensures Backed(q, Approve(r, grants))
  {
    hide Environment.ToJson, Subject.ToJson, Action.ToJson, Resource.ToJson, Consequences.ToJson;
    var s := Approve(r, grants);
    forall e | e in s.evidence && Trusts(q, e)
      ensures e.authenticated && e.observedAt <= r.environment.evaluatedAt < e.expiresAt
      ensures r.environment.evaluatedAt - e.observedAt <= q.maxAge
      ensures e.valueDigest == Digest(s.Attribute(q.attribute))
    {
      ReboundAt(r, grants, e);
    }
    var f :| f in r.evidence && Trusts(q, f);
    var i :| 0 <= i < |r.evidence| && r.evidence[i] == f;
    assert s.evidence[i] in s.evidence && Trusts(q, s.evidence[i]);
  }

  lemma DeferStages(r: Request, p: Policy)
    requires Evaluate(r, p).effect == "defer"
    ensures MandatoryDeny(r, p, ClassOf(r)) == None && p.issuedAt <= r.environment.evaluatedAt && Validate(r, p).valid
    ensures EnvironmentUnknown(r.environment) == None
    ensures forall q | q in Applicable(r, p, ClassOf(r)) :: !Invalid(q, r, p)
  {
    hide Derive, MandatoryDeny, EnvironmentUnknown, Validate, Request.Digest, Policy.Digest, ClassName, Invalid,
         Unapproved, Filter, Until;
    var reqs := Applicable(r, p, ClassOf(r));
    forall q | q in reqs ensures !Invalid(q, r, p) {
      var i :| 0 <= i < |reqs| && reqs[i] == q;
      assert Sound(reqs, r, p) == |reqs|;
    }
  }

  /** What the new grants have to be. */
  predicate Suffice(grants: seq<Grant>, r: Request, p: Policy) {
    && (forall g | g in grants :: MadeFor(g, r, p))
    && (forall g, q | g in grants && q in Applicable(r, p, ClassOf(r)) && g.requirementId == q.id ::
          Acceptable(q, g, r, p))
    && (forall q | q in Applicable(r, p, ClassOf(r)) && Unapproved(q, r) ::
          exists g :: g in grants && g.requirementId == q.id)
  }

  lemma AllApproved(r: Request, p: Policy, grants: seq<Grant>, q: ApprovalRequirement)
    requires Suffice(grants, r, p) && q in Applicable(r, p, ClassOf(r)) && !Invalid(q, r, p)
    ensures Approved(q, Approve(r, grants), p)
  {
    hide Derive, Request.ScopeDigest, Policy.Digest, Environment.ToJson, Applicable;
    var s := Approve(r, grants);
    ScopeIgnoresGrants(r, grants);
    forall g | g in s.environment.grants && g.requirementId == q.id ensures !Misbound(q, g, s, p) {
      if g in grants {
        assert MadeFor(g, s, p);
        MadeForIsBound(q, g, s, p);
      } else {
        assert g in r.environment.grants && !Misbound(q, g, r, p);
      }
    }
    if Unapproved(q, r) {
      var g :| g in grants && g.requirementId == q.id;
      assert g in s.environment.grants;
    } else {
      var g :| g in r.environment.grants && g.requirementId == q.id;
      assert g in s.environment.grants;
    }
  }

  /** Progress: a request deferred for approvals becomes a permit once each missing
      requirement has a grant made for it, and the environment evidence is bound again. */
  lemma ApprovalProgress(r: Request, p: Policy, grants: seq<Grant>)
    requires Evaluate(r, p).effect == "defer" && Suffice(grants, r, p)
    ensures Evaluate(Approve(r, grants), p).effect == "permit"
  {
    hide Evaluate, Derive, Backed, Approved, MandatoryDeny, EnvironmentUnknown, Suffice, Invalid, Validate, GatesOpen,
         Environment.ToJson;
    var s := Approve(r, grants);
    DeferStages(r, p);
    ValidExactly(r, p);
    forall q | q in p.evidenceRequirements ensures Backed(q, s) { StillBacked(q, r, grants); }
    assert Ids(s.evidence) == Ids(r.evidence);
    DenyDependsOn(r, s, p, ClassOf(r));
    GatesExactly(s, p);
    ApplicableDependsOn(r, s, p, ClassOf(r));
    forall q | q in p.approvalRequirements && q.Matches(s, ClassOf(s)) ensures Approved(q, s, p) {
      assert q in Applicable(s, p, ClassOf(s));
      AllApproved(r, p, grants, q);
    }
    PermitExactly(s, p);
  }

  // ---- Binding.

  lemma SubjectJsonInjective(a: Subject, b: Subject)
    requires a.ToJson() == b.ToJson()
    ensures a == b
  {
    var x, y := a.ToJson().values, b.ToJson().values;
    assert forall i | 0 <= i < 7 :: x[i] == y[i];
    assert x[0] == Str(a.controllerId) && x[1] == Str(a.principalId) && x[2] == Str(a.profileId) && x[3] == Plain(a.role)
        && x[4] == Str(a.roleVersion) && x[5] == Str(a.runnerId) && x[6] == Optional(a.sessionId);
  }

  lemma ResourceJsonInjective(a: Resource, b: Resource)
    requires a.ToJson() == b.ToJson()
    ensures a == b
  {
    var x, y := a.ToJson().values, b.ToJson().values;
    assert forall i | 0 <= i < 9 :: x[i] == y[i];
    assert x[0] == Optional(a.contentDigest) && x[1] == Str(a.identifier) && x[2] == Str(a.owner)
        && x[3] == Bool(a.guarded) && x[4] == Optional(a.repositoryId) && x[5] == Str(a.resourceType)
        && x[6] == Plain(a.sensitivity) && x[7] == Str(a.trustBoundary) && x[8] == Str(a.version);
  }

  lemma ConsequencesJsonInjective(a: Consequences, b: Consequences)
    requires a.ToJson() == b.ToJson()
    ensures a == b
  {
    var x, y := a.ToJson().values, b.ToJson().values;
    assert forall i | 0 <= i < 8 :: x[i] == y[i];
    assert x[0] == Plain(a.availability) && x[1] == Plain(a.blast) && x[2] == Plain(a.confidentiality)
        && x[3] == Bool(a.destructive) && x[4] == Plain(a.integrity) && x[5] == Plain(a.reach)
        && x[6] == Bool(a.reversible) && x[7] == Plain(a.sensitivity);
  }

  lemma ScopeEnvironmentInjective(a: Environment, b: Environment)
    requires a.ScopeJson() == b.ScopeJson()
    ensures a.(grants := []) == b.(grants := [])
  {
    var x, y := a.ScopeJson().values, b.ScopeJson().values;
    assert forall i | 0 <= i < 8 :: x[i] == y[i];
    assert x[0] == Plain(a.billing) && x[1] == Plain(a.capacity) && x[2] == Plain(a.circuit) && x[3] == Num(a.evaluatedAt)
        && x[4] == Str(a.flowState) && x[5] == Plain(a.isolation) && x[6] == Plain(a.network)
        && x[7] == Plain(a.protection);
  }

  lemma ActionJsonInjective(a: Action, b: Action)
    requires a.ToJson() == b.ToJson()
    ensures a.(claims := []) == b.(claims := [])
  {
    var x, y := a.ToJson().values, b.ToJson().values;
    assert forall i | 0 <= i < 6 :: x[i] == y[i];
    assert x[1] == Str(a.intendedEffect) && x[2] == Str(a.operation) && x[3] == Str(a.parametersDigest)
        && x[4] == Optional(a.toolId) && x[5] == Plain(a.verb);
  }

  lemma ClaimJsonInjective(a: Claim, b: Claim)
    requires a.ToJson() == b.ToJson()
    ensures a == b
  {
    var x, y := a.ToJson().values, b.ToJson().values;
    assert x[0] == y[0] && x[1] == y[1] && x[2] == y[2];
  }

  lemma EvidenceJsonInjective(a: Evidence, b: Evidence)
    requires a.ToJson() == b.ToJson()
    ensures a == b
  {
    var x, y := a.ToJson().values, b.ToJson().values;
    assert forall i | 0 <= i < 8 :: x[i] == y[i];
    assert x[0] == Str(a.attribute) && x[1] == Bool(a.authenticated) && x[2] == Str(a.id) && x[3] == Num(a.expiresAt)
        && x[4] == Num(a.observedAt) && x[5] == Plain(a.source) && x[6] == Str(a.sourceId) && x[7] == Str(a.valueDigest);
  }

  /** Actions have one canonical form exactly when they differ in the order of their claims only. */
  lemma ActionsBind(a: Action, b: Action)
    ensures a.ToJson() == b.ToJson() <==> a.(claims := []) == b.(claims := []) && multiset(a.claims) == multiset(b.claims)
  {
    hide Claim.ToJson, SortBy, ClaimKey;
    var x, y := SortBy(a.claims, ClaimKey), SortBy(b.claims, ClaimKey);
    if a.ToJson() == b.ToJson() {
      ActionJsonInjective(a, b);
      var c, d := a.ToJson().values[0].items, b.ToJson().values[0].items;
      assert c == d && |c| == |x| && |d| == |y|;
      forall i | 0 <= i < |x| ensures x[i] == y[i] {
        assert c[i] == x[i].ToJson() && d[i] == y[i].ToJson();
        ClaimJsonInjective(x[i], y[i]);
      }
      assert x == y;
    } else if multiset(a.claims) == multiset(b.claims) {
      ClaimKeysTell(a.claims);
      SortForgetsOrder(a.claims, b.claims, ClaimKey);
    }
  }

  lemma ClaimKeysTell(claims: seq<Claim>)
    ensures KeyTells(claims, ClaimKey)
  {
    hide Claim.ToJson, Encode;
    forall i, j | 0 <= i < |claims| && 0 <= j < |claims| && ClaimKey(claims[i]) == ClaimKey(claims[j])
      ensures claims[i] == claims[j] {
      JsonCodeInjective(claims[i].ToJson(), claims[j].ToJson());
      ClaimJsonInjective(claims[i], claims[j]);
    }
  }

  lemma EvidenceListBinds(a: seq<Evidence>, b: seq<Evidence>)
    requires EvidenceList(a) == EvidenceList(b)
    ensures multiset(a) == multiset(b)
  {
    hide Evidence.ToJson, SortBy, EvidenceKey;
    var x, y := SortBy(a, EvidenceKey), SortBy(b, EvidenceKey);
    var c, d := EvidenceList(a).items, EvidenceList(b).items;
    assert c == d && |c| == |x| && |d| == |y|;
    forall i | 0 <= i < |x| ensures x[i] == y[i] {
      assert c[i] == x[i].ToJson() && d[i] == y[i].ToJson();
      EvidenceJsonInjective(x[i], y[i]);
    }
    assert x == y;
  }

  /** The evidence as the scope sees it: the environment records bound to the environment without
      its grants. */
  function ScopeEvidence(r: Request): seq<Evidence> {
    Rebound(r.evidence, Digest(r.environment.ScopeJson()))
  }

  /** Two requests of the same scope: they differ in their grants, in the value of their
      environment records, and in the order of their claims and records, and in nothing else. */
  predicate SameScope(r: Request, s: Request) {
    && r.id == s.id && r.subject == s.subject && r.resource == s.resource && r.consequences == s.consequences
    && r.environment.(grants := []) == s.environment.(grants := [])
    && r.action.(claims := []) == s.action.(claims := []) && multiset(r.action.claims) == multiset(s.action.claims)
    && multiset(ScopeEvidence(r)) == multiset(ScopeEvidence(s))
  }

  lemma ScopeParts(r: Request, s: Request)
    ensures r.ScopeDigest() == s.ScopeDigest() <==>
      && r.action.ToJson() == s.action.ToJson() && r.consequences.ToJson() == s.consequences.ToJson()
      && r.environment.ScopeJson() == s.environment.ScopeJson()
      && EvidenceList(ScopeEvidence(r)) == EvidenceList(ScopeEvidence(s)) && r.id == s.id
      && r.resource.ToJson() == s.resource.ToJson() && r.subject.ToJson() == s.subject.ToJson()
  {
    hide Subject.ToJson, Action.ToJson, Resource.ToJson, Consequences.ToJson, Environment.ScopeJson, EvidenceList, Rebound;
    var x, y := r.ScopeDigest().of.values, s.ScopeDigest().of.values;
    assert x[0] == r.action.ToJson() && x[1] == r.consequences.ToJson() && x[2] == r.environment.ScopeJson()
        && x[3] == EvidenceList(ScopeEvidence(r)) && x[4] == Str(r.id) && x[5] == r.resource.ToJson()
        && x[6] == r.subject.ToJson();
    if r.ScopeDigest() == s.ScopeDigest() { assert forall i | 0 <= i < 7 :: x[i] == y[i]; }
  }

  /** One scope digest, one scope; and where records are told apart, one scope, one digest. */
  lemma ScopeBinds(r: Request, s: Request)
    ensures r.ScopeDigest() == s.ScopeDigest() ==> SameScope(r, s)
    ensures Distinct(Ids(r.evidence)) && SameScope(r, s) ==> r.ScopeDigest() == s.ScopeDigest()
  {
    hide Subject.ToJson, Action.ToJson, Resource.ToJson, Consequences.ToJson, Environment.ScopeJson, EvidenceList, Rebound,
         Request.ScopeDigest, ScopeEvidence, Ids, Distinct;
    ScopeParts(r, s);
    ActionsBind(r.action, s.action);
    if r.ScopeDigest() == s.ScopeDigest() {
      SubjectJsonInjective(r.subject, s.subject);
      ResourceJsonInjective(r.resource, s.resource);
      ConsequencesJsonInjective(r.consequences, s.consequences);
      ScopeEnvironmentInjective(r.environment, s.environment);
      EvidenceListBinds(ScopeEvidence(r), ScopeEvidence(s));
    } else if Distinct(Ids(r.evidence)) && SameScope(r, s) {
      ScopeJsonIgnoresGrants(r.environment, s.environment);
      ScopeKeepsIds(r);
      EvidenceListReordered(ScopeEvidence(r), ScopeEvidence(s));
    }
  }

  lemma ScopeKeepsIds(r: Request)
    ensures Ids(ScopeEvidence(r)) == Ids(r.evidence)
  {
    hide Environment.ScopeJson;
  }

  lemma ScopeJsonIgnoresGrants(a: Environment, b: Environment)
    requires a.(grants := []) == b.(grants := [])
    ensures a.ScopeJson() == b.ScopeJson()
  {
  }

  /** Binding: carried over to a request of another scope, a grant is worse than none. */
  lemma ApprovalBinding(r: Request, s: Request, p: Policy, q: ApprovalRequirement, g: Grant)
    requires MadeFor(g, r, p) && r.ScopeDigest() != s.ScopeDigest()
    requires g in s.environment.grants && q in Applicable(s, p, ClassOf(s)) && g.requirementId == q.id
    requires MandatoryDeny(s, p, ClassOf(s)) == None && p.issuedAt <= s.environment.evaluatedAt
    requires Validate(s, p).valid && EnvironmentUnknown(s.environment) == None
    ensures Evaluate(s, p).effect == "indeterminate" && Evaluate(s, p).reasons == ["approval_invalid"]
  {
    hide Derive, MandatoryDeny, EnvironmentUnknown, Validate, Request.Digest, Policy.Digest, ClassName, Request.ScopeDigest,
         Filter, Until;
    assert Misbound(q, g, s, p);
    assert Invalid(q, s, p);
    var reqs := Applicable(s, p, ClassOf(s));
    var i :| 0 <= i < |reqs| && reqs[i] == q;
    assert Sound(reqs, s, p) <= i;
  }
}
