/**
 Authorization requests, policies and decisions, and the evaluator that turns a
 request under a policy into a decision.  Enumerated values are their strings.
 */
module Authorization {
  import opened Prelude
  import opened Canon
  import opened Sequences

  type Word = string

  const VERBS: set<Word> := {"read", "create", "modify", "execute", "delete", "send", "approve"}
  const ROLES: set<Word> := {"operator", "controller", "planner", "implementer", "verifier", "reviewer", "recovery"}
  const IMPACTS: set<Word> := {"low", "moderate", "high"}
  const REACHES: set<Word> := {"local", "shared", "external"}
  const BLASTS: set<Word> := {"single_resource", "bounded", "broad"}
  const ISOLATIONS: set<Word> := {"verified", "not_required", "unverified", "absent", "unknown"}
  const NETWORKS: set<Word> := {"disabled", "restricted", "open", "unknown"}
  const CIRCUITS: set<Word> := {"closed", "open", "unknown"}
  const CLAIM_SOURCES: set<Word> := {"mcp", "provider", "model"}
  const UNTRUSTED: set<Word> := {"mcp_claim", "provider_claim", "model_claim"}
  const SOURCES: set<Word> :=
    {"controller", "operator_policy", "local_registry", "verified_attestation", "approval_authority"} + UNTRUSTED
  const PROHIBITED_ROUTES: set<Word> :=
    {"purchased_product_credit", "subscription_overage", "separately_billed_api", "cloud_provider_billing", "unknown"}
  const ROUTES: set<Word> := {"subscription_included", "local_non_ai", "mock"} + PROHIBITED_ROUTES
  const CAPACITIES: set<Word> :=
    {"available", "limit_reached", "blocked_until_reset", "cooldown", "unknown", "not_applicable"}
  const ZERO_BALANCE := "verified_zero_balance_and_auto_top_up_disabled"
  const PROTECTIONS: set<Word> := {"provider_enforced_disabled", ZERO_BALANCE, "enabled", "unknown", "not_applicable"}
  const EFFECTS: set<Word> := {"permit", "defer", "deny", "indeterminate"}
  /** `DecisionReason` and `ObligationKind` */
  const REASONS: set<Word> := {
    "current_stage_permit", "class_disabled", "role_not_allowed", "verb_not_allowed", "operation_not_allowed",
    "resource_not_allowed", "trust_boundary_not_allowed", "flow_state_not_allowed", "policy_not_current",
    "evidence_missing", "evidence_stale", "evidence_from_future", "evidence_unauthenticated", "evidence_contradictory",
    "evidence_value_mismatch", "evidence_identifier_duplicated", "untrusted_claim_only", "approval_required",
    "approval_invalid", "billing_prohibited", "billing_evidence_unknown", "circuit_open", "circuit_unknown",
    "network_prohibited", "network_unknown", "isolation_required", "isolation_unknown"}
  const OBLIGATION_KINDS: set<Word> := {"audit_receipt", "read_only", "isolated_local_only", "approval"}
  const ATTRIBUTES: set<Word> := {"subject", "action", "resource", "environment", "consequences"}

  /** `PermissionClass`: read only, local draft, reversible internal write, external. */
  type Class = int

  // ---- Canonical documents.  Each kind of object has its own set of keys.

  const CLAIM := 0
  const SUBJECT := 1
  const ACTION := 2
  const RESOURCE := 3
  const GRANT := 4
  const ENVIRONMENT := 5
  const SCOPE_ENVIRONMENT := 6
  const CONSEQUENCES := 7
  const EVIDENCE := 8
  const REQUEST := 9
  const EVIDENCE_REQUIREMENT := 11
  const APPROVAL_REQUIREMENT := 12
  const POLICY := 13
  const OBLIGATION := 14
  const DECISION := 15
  const OBLIGATION_RESULT := 16
  const RECEIPT := 17
  const ENFORCED := 18

  function Plain(w: Word): Json { Str(Lit(w)) }
  function Optional(t: Option<Text>): Json { if t.Some? then Str(t.value) else Null }
  function WordKey(w: Word): Key { EncodeString(w) }
  function TextKey(t: Text): Key { EncodeText(t) }
  function ClassKey(c: Class): Key { [c as real] }
  function WordList(ws: seq<Word>): Json { Arr(seq(|ws|, i requires 0 <= i < |ws| => Plain(ws[i]))) }
  function TextList(ts: seq<Text>): Json { Arr(seq(|ts|, i requires 0 <= i < |ts| => Str(ts[i]))) }
  function ClassList(cs: seq<Class>): Json { Arr(seq(|cs|, i requires 0 <= i < |cs| => Num(cs[i] as real))) }

  // ---- What the constructors accept.

  /** `_require_text`, as far as length is concerned. */
  predicate ValidText(t: Text) {
    t.Lit? ==> 0 < |t.s| <= 4096
  }

  predicate ValidOptional(t: Option<Text>) { t.Some? ==> ValidText(t.value) }
  predicate ValidTexts(ts: seq<Text>) { forall t | t in ts :: ValidText(t) }
  predicate ValidWords(ws: seq<Word>, allowed: set<Word>) { forall w | w in ws :: w in allowed }

  // ---- Requests.

  datatype Claim = Claim(source: Word, name: Text, value: Text) {
    predicate Valid() { source in CLAIM_SOURCES && ValidText(name) && ValidText(value) }

    function ToJson(): Json { Obj(CLAIM, [Str(name), Plain(source), Str(value)]) }
  }

  datatype Subject = Subject(
    principalId: Text, controllerId: Text, role: Word, roleVersion: Text, profileId: Text, runnerId: Text,
    sessionId: Option<Text>)
  {
    predicate Valid() {
      && role in ROLES && ValidTexts([principalId, controllerId, roleVersion, profileId, runnerId])
      && ValidOptional(sessionId)
    }

    function ToJson(): Json {
      Obj(SUBJECT, [Str(controllerId), Str(principalId), Str(profileId), Plain(role), Str(roleVersion), Str(runnerId),
                    Optional(sessionId)])
    }
  }

  datatype Action = Action(
    verb: Word, operation: Text, parametersDigest: Text, intendedEffect: Text, toolId: Option<Text>, claims: seq<Claim>)
  {
    predicate Valid() {
      && verb in VERBS && ValidText(operation) && ValidText(intendedEffect) && IsDigest(parametersDigest)
      && ValidOptional(toolId) && forall c | c in claims :: c.Valid()
    }

    function ToJson(): Json {
      var sorted := SortBy(claims, ClaimKey);
      Obj(ACTION, [Arr(seq(|sorted|, i requires 0 <= i < |sorted| => sorted[i].ToJson())), Str(intendedEffect),
                   Str(operation), Str(parametersDigest), Optional(toolId), Plain(verb)])
    }
  }

  function ClaimKey(c: Claim): Key { Encode(c.ToJson()) }

  datatype Resource = Resource(
    resourceType: Text, identifier: Text, version: Text, owner: Text, trustBoundary: Text, guarded: bool,
    sensitivity: Word, repositoryId: Option<Text>, contentDigest: Option<Text>)
  {
    predicate Valid() {
      && sensitivity in IMPACTS && ValidTexts([resourceType, identifier, version, owner, trustBoundary])
      && ValidOptional(repositoryId) && (contentDigest.Some? ==> IsDigest(contentDigest.value))
    }

    function ToJson(): Json {
      Obj(RESOURCE, [Optional(contentDigest), Str(identifier), Str(owner), Bool(guarded), Optional(repositoryId),
                     Str(resourceType), Plain(sensitivity), Str(trustBoundary), Str(version)])
    }
  }

  datatype Grant = Grant(
    approvalId: Text, requirementId: string, approverId: Text, scopeDigest: Text, policyDigest: Text, issuedAt: real,
    expiresAt: real, approverRole: Word, source: Word, authenticated: bool)
  {
    predicate Valid() {
      && approverRole in ROLES && source in SOURCES && ValidTexts([approvalId, Lit(requirementId), approverId])
      && IsDigest(scopeDigest) && IsDigest(policyDigest) && 0.0 <= issuedAt < expiresAt
    }

    function ToJson(): Json {
      Obj(GRANT, [Str(approvalId), Str(approverId), Plain(approverRole), Bool(authenticated), Num(expiresAt),
                  Num(issuedAt), Str(policyDigest), Plain(requirementId), Str(scopeDigest), Plain(source)])
    }
  }

  function GrantKey(g: Grant): Key { Encode(g.ToJson()) }

  datatype Environment = Environment(
    evaluatedAt: real, isolation: Word, network: Word, billing: Word, capacity: Word, protection: Word, circuit: Word,
    flowState: Text, grants: seq<Grant>)
  {
    predicate Valid() {
      && evaluatedAt >= 0.0 && ValidText(flowState)
      && isolation in ISOLATIONS && network in NETWORKS && billing in ROUTES && capacity in CAPACITIES
      && protection in PROTECTIONS && circuit in CIRCUITS
      && (forall g | g in grants :: g.Valid())
      && Distinct(seq(|grants|, i requires 0 <= i < |grants| => grants[i].approvalId))
    }

    function ToJson(): Json {
      var sorted := SortBy(grants, GrantKey);
      Obj(ENVIRONMENT, [Arr(seq(|sorted|, i requires 0 <= i < |sorted| => sorted[i].ToJson())), Plain(billing),
                        Plain(capacity), Plain(circuit), Num(evaluatedAt), Str(flowState), Plain(isolation),
                        Plain(network), Plain(protection)])
    }

    /** `approval_scope_canonical`: the same facts without the grants. */
    function ScopeJson(): Json {
      Obj(SCOPE_ENVIRONMENT, [Plain(billing), Plain(capacity), Plain(circuit), Num(evaluatedAt), Str(flowState),
                              Plain(isolation), Plain(network), Plain(protection)])
    }
  }

  datatype Consequences = Consequences(
    confidentiality: Word, integrity: Word, availability: Word, reach: Word, destructive: bool, reversible: bool,
    sensitivity: Word, blast: Word)
  {
    predicate Valid() {
      ValidWords([confidentiality, integrity, availability, sensitivity], IMPACTS) && reach in REACHES && blast in BLASTS
    }

    function ToJson(): Json {
      Obj(CONSEQUENCES, [Plain(availability), Plain(blast), Plain(confidentiality), Bool(destructive),
                         Plain(integrity), Plain(reach), Bool(reversible), Plain(sensitivity)])
    }
  }

  datatype Evidence = Evidence(
    id: Text, attribute: Text, valueDigest: Text, source: Word, sourceId: Text, observedAt: real, expiresAt: real,
    authenticated: bool)
  {
    predicate Valid() {
      && source in SOURCES && ValidTexts([id, attribute, sourceId]) && IsDigest(valueDigest)
      && observedAt >= 0.0 && expiresAt >= 0.0
    }

    function ToJson(): Json {
      Obj(EVIDENCE, [Str(attribute), Bool(authenticated), Str(id), Num(expiresAt), Num(observedAt), Plain(source),
                     Str(sourceId), Str(valueDigest)])
    }
  }

  function EvidenceKey(e: Evidence): Key { EncodeText(e.attribute) + EncodeText(e.id) }

  function EvidenceList(evidence: seq<Evidence>): Json {
    var sorted := SortBy(evidence, EvidenceKey);
    Arr(seq(|sorted|, i requires 0 <= i < |sorted| => sorted[i].ToJson()))
  }

  datatype Request = Request(
    id: Text, subject: Subject, action: Action, resource: Resource, environment: Environment,
    consequences: Consequences, evidence: seq<Evidence>)
  {
    predicate Valid() {
      && ValidText(id) && subject.Valid() && action.Valid() && resource.Valid() && environment.Valid()
      && consequences.Valid() && forall e | e in evidence :: e.Valid()
    }

    function ToJson(): Json {
      Obj(REQUEST, [action.ToJson(), consequences.ToJson(), environment.ToJson(), EvidenceList(evidence), Str(id),
                    resource.ToJson(), subject.ToJson()])
    }

    function Digest(): Text { Canon.Digest(ToJson()) }

    /** `attribute_value`, for the five attributes a requirement can name. */
    function Attribute(attribute: Word): Json {
      if attribute == "subject" then subject.ToJson()
      else if attribute == "action" then action.ToJson()
      else if attribute == "resource" then resource.ToJson()
      else if attribute == "environment" then environment.ToJson()
      else consequences.ToJson()
    }

    /** `approval_scope_digest`: everything but the grants, and the environment evidence
        bound to the environment without them. */
    function ScopeDigest(): Text {
      Canon.Digest(
        Obj(REQUEST, [action.ToJson(), consequences.ToJson(), environment.ScopeJson(),
                      EvidenceList(Rebound(evidence, Canon.Digest(environment.ScopeJson()))), Str(id),
                      resource.ToJson(), subject.ToJson()]))
    }
  }

  /** The evidence with every environment record bound to `digest`. */
  function Rebound(evidence: seq<Evidence>, digest: Text): (r: seq<Evidence>)
    ensures |r| == |evidence|
  {
    seq(|evidence|, i requires 0 <= i < |evidence| =>
      if evidence[i].attribute == Lit("environment") then evidence[i].(valueDigest := digest) else evidence[i])
  }

  // ---- Policies.

  datatype EvidenceRequirement = EvidenceRequirement(attribute: Word, trusted: seq<Word>, maxAge: real) {
    predicate Valid() {
      && attribute in ATTRIBUTES && trusted != [] && ValidWords(trusted, SOURCES - UNTRUSTED) && maxAge > 0.0
    }

    function ToJson(): Json {
      Obj(EVIDENCE_REQUIREMENT, [Plain(attribute), Num(maxAge), WordList(SortBy(trusted, WordKey))])
    }
  }

  function AttributesOf(reqs: seq<EvidenceRequirement>): seq<Word> { Map(reqs, (q: EvidenceRequirement) => q.attribute) }
  function EvidenceRequirementKey(q: EvidenceRequirement): Key { WordKey(q.attribute) }

  function EvidenceRequirementList(reqs: seq<EvidenceRequirement>): Json {
    var sorted := SortBy(reqs, EvidenceRequirementKey);
    Arr(seq(|sorted|, i requires 0 <= i < |sorted| => sorted[i].ToJson()))
  }

  datatype ApprovalRequirement = ApprovalRequirement(
    id: string, verbs: seq<Word>, resourceTypes: seq<Text>, classes: seq<Class>, approvers: seq<Text>, roles: seq<Word>,
    distinct: bool)
  {
    predicate Valid() {
      && ValidText(Lit(id)) && ValidWords(verbs, VERBS) && ValidTexts(resourceTypes)
      && (forall c | c in classes :: 0 <= c <= 3)
      && approvers != [] && ValidTexts(approvers) && Distinct(approvers)
      && roles != [] && ValidWords(roles, ROLES) && Distinct(roles)
    }

    function ToJson(): Json {
      Obj(APPROVAL_REQUIREMENT, [TextList(SortBy(approvers, TextKey)), WordList(SortBy(roles, WordKey)),
                                 ClassList(SortBy(classes, ClassKey)), Bool(distinct), Plain(id),
                                 TextList(SortBy(resourceTypes, TextKey)), WordList(SortBy(verbs, WordKey))])
    }

    predicate Matches(r: Request, derived: Class) {
      && (verbs == [] || r.action.verb in verbs)
      && (resourceTypes == [] || r.resource.resourceType in resourceTypes)
      && (classes == [] || derived in classes)
    }
  }

  function RequirementIdsOf(reqs: seq<ApprovalRequirement>): seq<Word> { Map(reqs, (q: ApprovalRequirement) => q.id) }
  function ApprovalRequirementKey(q: ApprovalRequirement): Key { WordKey(q.id) }

  function ApprovalRequirementList(reqs: seq<ApprovalRequirement>): Json {
    var sorted := SortBy(reqs, ApprovalRequirementKey);
    Arr(seq(|sorted|, i requires 0 <= i < |sorted| => sorted[i].ToJson()))
  }

  datatype Policy = Policy(
    bundleId: Text, version: Text, issuedAt: real, evidenceRequirements: seq<EvidenceRequirement>,
    enabledClasses: seq<Class>, verbs: seq<Word>, roles: seq<Word>, operations: seq<Text>, resourceTypes: seq<Text>,
    trustBoundaries: seq<Text>, flowStates: seq<Text>, networks: seq<Word>, routes: seq<Word>,
    approvalRequirements: seq<ApprovalRequirement>, ttl: real)
  {
    predicate Valid() {
      && ValidTexts([bundleId, version]) && issuedAt >= 0.0 && ttl > 0.0
      && evidenceRequirements != [] && (forall q | q in evidenceRequirements :: q.Valid()) && Distinct(AttributesOf(evidenceRequirements))
      && enabledClasses != [] && (forall c | c in enabledClasses :: 0 <= c <= 1) && Distinct(enabledClasses)
      && verbs != [] && ValidWords(verbs, VERBS) && Distinct(verbs)
      && roles != [] && ValidWords(roles, ROLES) && Distinct(roles)
      && operations != [] && ValidTexts(operations) && Distinct(operations)
      && resourceTypes != [] && ValidTexts(resourceTypes) && Distinct(resourceTypes)
      && trustBoundaries != [] && ValidTexts(trustBoundaries) && Distinct(trustBoundaries)
      && flowStates != [] && ValidTexts(flowStates) && Distinct(flowStates)
      && networks != [] && ValidWords(networks, NETWORKS) && Distinct(networks)
      && routes != [] && ValidWords(routes, ROUTES - PROHIBITED_ROUTES) && Distinct(routes)
      && (forall q | q in approvalRequirements :: q.Valid()) && Distinct(RequirementIdsOf(approvalRequirements))
    }

    function ToJson(): Json {
      Obj(POLICY, [
        WordList(SortBy(routes, WordKey)), TextList(SortBy(flowStates, TextKey)), WordList(SortBy(networks, WordKey)),
        TextList(SortBy(operations, TextKey)), TextList(SortBy(resourceTypes, TextKey)),
        WordList(SortBy(roles, WordKey)), TextList(SortBy(trustBoundaries, TextKey)), WordList(SortBy(verbs, WordKey)),
        ApprovalRequirementList(approvalRequirements),
        Str(bundleId), Num(ttl), ClassList(SortBy(enabledClasses, ClassKey)),
        EvidenceRequirementList(evidenceRequirements),
        Num(issuedAt), Num(1.0), Str(version)])
    }

    function Digest(): Text { Canon.Digest(ToJson()) }
  }

  // ---- Decisions.

  datatype Obligation = Obligation(kind: Word, value: Text) {
    function ToJson(): Json { Obj(OBLIGATION, [Plain(kind), Str(value)]) }
  }

  function ObligationKey(o: Obligation): Key { EncodeString(o.kind) + EncodeText(o.value) }

  function ObligationList(obligations: seq<Obligation>): Json {
    var sorted := SortBy(obligations, ObligationKey);
    Arr(seq(|sorted|, i requires 0 <= i < |sorted| => sorted[i].ToJson()))
  }

  datatype Decision = Decision(
    requestId: Text, requestDigest: Text, bundleId: Text, policyVersion: Text, policyDigest: Text, effect: Word,
    derived: Class, reasons: seq<Word>, details: seq<string>, rules: seq<Word>, evidenceRefs: seq<Text>,
    issuedAt: real, expiresAt: real, obligations: seq<Obligation>)
  {
    predicate Valid() {
      && ValidTexts([requestId, bundleId, policyVersion]) && IsDigest(requestDigest) && IsDigest(policyDigest)
      && 0.0 <= issuedAt < expiresAt && effect in EFFECTS && 0 <= derived <= 3
      && (forall w | w in reasons :: w in REASONS)
      && forall o | o in obligations :: o.kind in OBLIGATION_KINDS && ValidText(o.value)
    }

    function ToJson(): Json {
      Obj(DECISION, [Num(derived as real), Plain(effect), TextList(SortBy(evidenceRefs, TextKey)), Num(expiresAt),
                     Num(issuedAt), WordList(SortBy(rules, WordKey)),
                     ObligationList(obligations), Str(bundleId), Str(policyDigest), Str(policyVersion), WordList(reasons), WordList(details),
                     Str(requestDigest), Str(requestId)])
    }

    function Digest(): Text { Canon.Digest(ToJson()) }
  }
}
