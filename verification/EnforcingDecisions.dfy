/** What the inspector checks of every enforcing decision, whatever boundary it guards. */
module EnforcingDecisions {
  import opened Prelude
  import opened Canon
  import opened Sequences
  import opened Authorization
  import opened Evaluator
  import opened EvaluatorLaws
  import opened Receipts
  import opened CanonicalParsing
  import opened Proposals
  import opened Admission
  import opened AdmissionInspection

  /** What a decision event says of the run, beside the request, the policy and the decision. */
  datatype Wrapper =
    | DispatchWrapper(
        bindingDigest: Text, selectionDigest: Text, assessmentDigest: Option<Text>, intentDigest: Text,
        requestedClass: Class, legacyExecutable: bool)
    | PublicationWrapper(
        bindingDigest: Text, selectionDigest: Text, intentDigest: Text, publicationIntentDigest: Text,
        dispatchRequest: Option<Text>, dispatchDecision: Option<Text>, dispatchReceipt: Option<Text>,
        accounting: Option<Text>, disposition: Option<Text>, artifact: Text, destination: Text, metadata: Text,
        requestedClass: Class, ownMockRunner: bool, legacyExecutable: bool, safePrerequisites: bool, accepted: bool,
        scanned: bool)

  /** A persisted decision of the dispatch or the publication boundary. */
  datatype Document = Document(
    wrapper: Wrapper, request: Json, requestDigest: Option<Text>, policy: Json, policyDigest: Option<Text>, decision: Json,
    decisionDigest: Option<Text>, effect: Word, derived: Option<Class>, current: bool, ceilingSatisfied: bool,
    obligationsSupported: bool, eligible: bool, blocks: seq<Word>, evaluatedAt: real, failed: bool)

  /** What the rest of the run's records call for: the issues about what ties the document to
      them, the block reasons particular to the boundary, and the class the run was asked for. */
  datatype Surroundings = Surroundings(links: set<Word>, own: seq<Word>, permissionClass: Option<Class>)

  predicate ExactlyFailed(doc: Document) {
    && doc.request == Null && doc.requestDigest == None && doc.policy == Null && doc.policyDigest == None
    && doc.decision == Null && doc.decisionDigest == None && doc.effect == "indeterminate" && doc.derived == None
    && !doc.current && !doc.ceilingSatisfied && !doc.obligationsSupported && !doc.eligible
    && doc.blocks == ["authorization_evaluation_failed"]
  }

  function CommonBlocks(matches: bool, permit: bool, current: bool, ceiling: bool, supported: bool): seq<Word> {
    (if !matches then ["authorization_policy_mismatch"] else [])
    + (if !permit then ["authorization_effect_not_permit"] else [])
    + (if !current then ["authorization_decision_not_current"] else [])
    + (if !ceiling then ["authorization_class_ceiling_exceeded"] else [])
    + (if !supported then ["authorization_obligation_unsupported"] else [])
  }

  /** The recomputed part of the document. */
  predicate DocumentProjects(doc: Document, around: Surroundings, r: Option<Request>, p: Option<Policy>) {
    var issuedAt, expiresAt := Moment(Entry(doc.decision, 4)), Moment(Entry(doc.decision, 3));
    var derived := ReadClass(Entry(doc.decision, 0));
    var current := issuedAt.Some? && expiresAt.Some? && issuedAt.value <= doc.evaluatedAt < expiresAt.value;
    var ceiling :=
      derived.Some? && around.permissionClass.Some? && derived.value <= around.permissionClass.value && derived.value <= 1;
    var supported := ListSupported(doc.effect, Entry(doc.decision, 6));
    var matches :=
      && r.Some? && p.Some? && Entry(doc.decision, 13) == Str(r.value.id)
      && Entry(doc.decision, 12) == Str(r.value.Digest()) && Entry(doc.decision, 7) == Str(p.value.bundleId)
      && Entry(doc.decision, 9) == Str(p.value.version) && Entry(doc.decision, 8) == Str(p.value.Digest())
      && issuedAt == Some(doc.evaluatedAt);
    var blocks := around.own + CommonBlocks(matches, doc.effect == "permit", current, ceiling, supported);
    && Plain(doc.effect) == Entry(doc.decision, 1) && doc.derived == derived && doc.current == current
    && doc.ceilingSatisfied == ceiling && doc.obligationsSupported == supported && doc.eligible == (blocks == [])
    && doc.blocks == blocks
  }

  /** The issues of `_inspect_mock_dispatch_decision` and of
      `_inspect_local_candidate_publication_decision` that concern one document. */
  function DocumentIssues(doc: Document, around: Surroundings): set<Word> {
    hide ReadRequest, ReadPolicy, Evaluate, Decision.ToJson, DocumentProjects, ExactlyFailed;
    around.links
    + When(doc.effect !in EFFECTS, "decision_projection_invalid")
    + if doc.failed then When(!ExactlyFailed(doc), "decision_failure_invalid")
      else
        var r, p := ReadRequest(doc.request), ReadPolicy(doc.policy);
        When(doc.requestDigest != Some(Digest(doc.request)), "request_digest_mismatch")
        + When(doc.policyDigest != Some(Digest(doc.policy)), "policy_digest_mismatch")
        + When(doc.decisionDigest != Some(Digest(doc.decision)), "decision_digest_mismatch")
        + When(r == None, "request_invalid") + When(p == None, "policy_invalid")
        + When(r.Some? && p.Some? && doc.decision != Evaluate(r.value, p.value).ToJson(), "reevaluation_mismatch")
        + When(!DocumentProjects(doc, around, r, p), "decision_projection_mismatch")
  }

  /** The document is authority to act: the evaluator permits the persisted request under the
      persisted policy, and nothing blocks it. */
  ghost predicate Authority(doc: Document) {
    hide ReadRequest, ReadPolicy, Evaluate, Decision.ToJson;
    && doc.eligible && doc.effect == "permit" && Reevaluates(doc.request, doc.policy, doc.decision)
    && Evaluate(ReadRequest(doc.request).value, ReadPolicy(doc.policy).value).effect == "permit"
  }

  lemma CleanDocument(doc: Document, around: Surroundings)
    requires DocumentIssues(doc, around) == {}
    ensures if doc.failed then !doc.eligible && doc.effect == "indeterminate"
            else Reevaluates(doc.request, doc.policy, doc.decision)
                 && DocumentProjects(doc, around, ReadRequest(doc.request), ReadPolicy(doc.policy))
  {
    hide DocumentProjects, Evaluate, ReadRequest, ReadPolicy, Decision.ToJson;
  }

  /** No clean document is eligible without being authority to act. */
  lemma EligibleIsAuthority(doc: Document, around: Surroundings)
    requires DocumentIssues(doc, around) == {} && doc.eligible
    ensures Authority(doc) && !doc.failed && around.own == []
  {
    hide DocumentIssues, Evaluate, ReadRequest, ReadPolicy, Decision.ToJson, Entry, ListSupported, Request.ToJson,
         Policy.ToJson;
    CleanDocument(doc, around);
    var r, p := ReadRequest(doc.request).value, ReadPolicy(doc.policy).value;
    DecisionEntries(Evaluate(r, p));
  }

  lemma CleanDigests(doc: Document, around: Surroundings)
    requires DocumentIssues(doc, around) == {}
    ensures around.links == {}
    ensures !doc.failed ==> doc.requestDigest == Some(Digest(doc.request)) && doc.decisionDigest == Some(Digest(doc.decision))
  {
    hide DocumentProjects, Evaluate, ReadRequest, ReadPolicy, Decision.ToJson, ExactlyFailed;
  }

  /** What an eligible document comes to: the permit of the very request and policy it holds, of
      a class the run was asked for, made at the moment it says. */
  lemma EligibleDocument(doc: Document, around: Surroundings, r: Request, p: Policy)
    requires DocumentIssues(doc, around) == {} && doc.eligible
    requires ReadRequest(doc.request) == Some(r) && ReadPolicy(doc.policy) == Some(p)
    ensures Evaluate(r, p).effect == "permit" && doc.decision == Evaluate(r, p).ToJson() && doc.effect == "permit"
    ensures around.permissionClass.Some? && ClassOf(r) <= around.permissionClass.value && ClassOf(r) <= 1
    ensures r.environment.evaluatedAt == doc.evaluatedAt == Evaluate(r, p).issuedAt && !doc.failed && around.own == []
    ensures doc.requestDigest == Some(r.Digest()) && doc.decisionDigest == Some(Evaluate(r, p).Digest())
  {
    hide DocumentIssues, Evaluate, ReadRequest, ReadPolicy, Decision.ToJson, Entry, ListSupported, Request.ToJson,
         Policy.ToJson, Derive;
    EligibleIsAuthority(doc, around);
    CleanDocument(doc, around);
    CleanDigests(doc, around);
    ReadsValid(doc.request, doc.policy, doc.decision, r, p);
    DecisionBinds(r, p);
    DecisionEntries(Evaluate(r, p));
    DeriveInRange(r.action, r.resource, r.consequences);
    ClassReads(ClassOf(r));
  }

  /** What authority means at the moment it is used: the permit is in its window, so every
      trusted record of every required attribute is current. */
  lemma AuthorityHolds(doc: Document, startedAt: real, q: EvidenceRequirement, e: Evidence)
    requires Authority(doc) && PermitHeld(doc.effect, doc.eligible, doc.decision, startedAt)
    requires q in ReadPolicy(doc.policy).value.evidenceRequirements
    requires e in ReadRequest(doc.request).value.evidence && Trusts(q, e)
    ensures e.authenticated && e.observedAt <= startedAt < e.expiresAt
  {
    hide Evaluate, ReadRequest, ReadPolicy, Decision.ToJson, Entry, Request.ToJson, Policy.ToJson, Trusts, PermitHeld, Backed;
    var r, p := ReadRequest(doc.request).value, ReadPolicy(doc.policy).value;
    ReadsValid(doc.request, doc.policy, doc.decision, r, p);
    DecisionBinds(r, p);
    ExpiryFollowsIssue(r, p);
    HeldIsEligible(doc.effect, doc.eligible, doc.decision, startedAt);
    HeldByWindow(Evaluate(r, p), startedAt);
    PermitWindow(r, p, q, e, startedAt);
  }

  // ---- Gate and inspector agree.

  /** What a gate proposes, decides and persists, and the lineage it was told. */
  datatype Permit = Permit(lineage: Text, request: Request, policy: Policy, decision: Decision, doc: Document)

  /** The common part of both gates: the decision on a proposal, with everything that can block
      it, `own` being the boundary's own reasons. */
  function Propose(w: Wrapper, own: seq<Word>, lineage: Text, r: Request, p: Policy): Permit {
    var d, now := Evaluate(r, p), r.environment.evaluatedAt;
    var current := d.issuedAt <= now < d.expiresAt;
    var ceiling := d.derived <= w.requestedClass && d.derived <= 1;
    var supported := ObligationsSupported(d);
    var blocks := own + CommonBlocks(DecisionMatches(r, p, d, now), d.effect == "permit", current, ceiling, supported);
    Permit(lineage, r, p, d,
           Document(w, r.ToJson(), Some(r.Digest()), p.ToJson(), Some(p.Digest()), d.ToJson(), Some(d.Digest()), d.effect,
                    Some(d.derived), current, ceiling, supported, blocks == [], blocks, now, false))
  }

  lemma ProposeKeeps(w: Wrapper, own: seq<Word>, lineage: Text, r: Request, p: Policy)
    ensures
      var a := Propose(w, own, lineage, r, p);
      && a.doc.wrapper == w && a.lineage == lineage && a.request == r && a.policy == p && a.decision == Evaluate(r, p)
  {
    hide Evaluate, Request.ToJson, Policy.ToJson, Decision.ToJson, CommonBlocks, ObligationsSupported;
  }

  /** A policy a gate may fix: the evidence of the current stage, and at most one approval. */
  predicate Fixed(p: Policy) {
    p.Valid() && p.evidenceRequirements == StageEvidence() && |p.approvalRequirements| <= 1 && p.issuedAt == 0.0
  }

  lemma ApplicableAreFew(r: Request, p: Policy)
    requires |p.approvalRequirements| <= 1
    ensures |Applicable(r, p, ClassOf(r))| <= 1
  {
    hide Derive, ApprovalRequirement.Matches;
  }

  lemma ReadBack(scope: string, bare: Request, p: Policy)
    requires PartsValid(bare) && |scope| <= 200 && Fixed(p)
    ensures
      var r := Proposed(scope, bare);
      && ReadRequest(r.ToJson()) == Some(NormalRequest(r)) && NormalRequest(r).Digest() == r.Digest()
      && ReadPolicy(p.ToJson()) == Some(NormalPolicy(p)) && NormalPolicy(p).Digest() == p.Digest()
      && Evaluate(NormalRequest(r), NormalPolicy(p)) == Evaluate(r, p)
      && NormalRequest(r).id == r.id && NormalPolicy(p).bundleId == p.bundleId && NormalPolicy(p).version == p.version
  {
    hide Evaluate, Request.ToJson, Policy.ToJson, ReadRequest, ReadPolicy, Readable, Policy.Valid, Validate, Applicable,
         Derive, NormalPolicy, Proposed, StageEvidence, PartsValid;
    var r := Proposed(scope, bare);
    ProposedReadable(scope, bare);
    ProposedValidates(scope, bare, p);
    ApplicableAreFew(r, p);
    RequestRoundTrip(r);
    PolicyRoundTrip(p);
    Reevaluation(r, p);
    NormalPolicyNames(p);
  }

  lemma ProposalTimes(scope: string, bare: Request, p: Policy)
    requires bare.environment.evaluatedAt >= 0.0 && p.ttl > 0.0
    ensures
      var d := Evaluate(Proposed(scope, bare), p);
      && d.issuedAt == bare.environment.evaluatedAt && 0.0 <= d.issuedAt < d.expiresAt && 0 <= d.derived <= 3
      && d.derived == ClassOf(bare)
  {
    hide Evaluate, Derive, Bind;
    ProposedSame(scope, bare);
    DecisionBinds(Proposed(scope, bare), p);
    ExpiryFollowsIssue(Proposed(scope, bare), p);
    DeriveInRange(bare.action, bare.resource, bare.consequences);
  }

  /** A document that restates its decision, with the blocks it calls for, projects. */
  lemma RestatedDocumentProjects(doc: Document, around: Surroundings, r: Request, p: Policy, d: Decision)
    requires doc.decision == d.ToJson() && doc.effect == d.effect && doc.derived == Some(d.derived) && 0 <= d.derived <= 3
    requires doc.evaluatedAt == d.issuedAt && 0.0 <= d.issuedAt < d.expiresAt && doc.current
    requires d.requestId == r.id && d.requestDigest == r.Digest() && d.bundleId == p.bundleId
    requires d.policyVersion == p.version && d.policyDigest == p.Digest() && around.permissionClass.Some?
    requires doc.ceilingSatisfied == (d.derived <= around.permissionClass.value && d.derived <= 1)
    requires doc.obligationsSupported == ObligationsSupported(d)
    requires doc.eligible == (doc.blocks == [])
    requires doc.blocks == around.own + CommonBlocks(true, d.effect == "permit", true, doc.ceilingSatisfied,
                                                     doc.obligationsSupported)
    ensures DocumentProjects(doc, around, Some(r), Some(p))
  {
    hide Decision.ToJson, Entry, ListSupported, ObligationsSupported, ObligationList, Request.Digest, Policy.Digest,
         CommonBlocks;
    DecisionEntries(d);
    SupportAgrees(d);
    ClassReads(d.derived);
  }

  /** Whatever a gate decides about a proposal, the document raises no issue of its own: only what
      ties it to the run is left. */
  lemma ProposalIsClean(
    w: Wrapper, own: seq<Word>, lineage: Text, scope: string, bare: Request, p: Policy, around: Surroundings)
    requires PartsValid(bare) && |scope| <= 200 && Fixed(p)
    requires around.own == own && around.permissionClass == Some(w.requestedClass)
    ensures DocumentIssues(Propose(w, own, lineage, Proposed(scope, bare), p).doc, around) == around.links
  {
    hide Evaluate, Request.ToJson, Policy.ToJson, Decision.ToJson, ReadRequest, ReadPolicy, Policy.Valid, Derive, Bind,
         NormalPolicy, NormalRequest, DocumentProjects, ObligationsSupported, CommonBlocks, StageEvidence,
         Subject.Valid, Action.Valid, Resource.Valid, Consequences.Valid, ValidText;
    var r := Proposed(scope, bare);
    PolicyLasts(p);
    ReadBack(scope, bare, p);
    DecisionBinds(r, p);
    ProposalTimes(scope, bare, p);
    ProposedSame(scope, bare);
    RestatedDocumentProjects(Propose(w, own, lineage, r, p).doc, around, NormalRequest(r), NormalPolicy(p), Evaluate(r, p));
  }

  lemma PolicyLasts(p: Policy)
    requires p.Valid()
    ensures p.ttl > 0.0
  {
  }

  /** A proposal is unblocked exactly when the boundary has no reason of its own, the evaluator
      permits it, and its class is no more than was asked for. */
  lemma ProposalExactly(w: Wrapper, own: seq<Word>, lineage: Text, scope: string, bare: Request, p: Policy)
    requires bare.environment.evaluatedAt >= 0.0 && p.ttl > 0.0 && 1 <= ClassOf(bare)
    ensures
      var permit := Propose(w, own, lineage, Proposed(scope, bare), p);
      && permit.doc.eligible == (permit.doc.blocks == [])
      && (permit.doc.eligible <==>
            own == [] && Evaluate(Proposed(scope, bare), p).effect == "permit" && ClassOf(bare) == 1 <= w.requestedClass)
  {
    hide Evaluate, Request.ToJson, Policy.ToJson, Decision.ToJson, Derive, Bind, ObligationsSupported;
    var r := Proposed(scope, bare);
    DecisionBinds(r, p);
    ProposalTimes(scope, bare, p);
    ProposedSame(scope, bare);
    if Evaluate(r, p).effect == "permit" && ClassOf(r) == 1 { PermitIsSupported(r, p); }
  }

  lemma PermitIsSupported(r: Request, p: Policy)
    requires Evaluate(r, p).effect == "permit" && 1 <= ClassOf(r)
    ensures ObligationsSupported(Evaluate(r, p)) && Owed(Evaluate(r, p)) == FIXED_OBLIGATIONS
    ensures |Evaluate(r, p).obligations| == 2
  {
    hide Evaluate, Derive;
    PermitOwesTwo(r, p);
    var os := Evaluate(r, p).obligations;
    assert os[0] in os && os[1] in os;
  }

  // ---- Using the permit.

  /** What both boundaries check again when the permit is used, under the policy they fix. */
  predicate StillPermits(a: Permit, fixed: Policy, contractClass: Class, startedAt: real) {
    var r, p, d, w := a.request, a.policy, a.decision, a.doc.wrapper;
    && a.doc.eligible && w.legacyExecutable && a.doc.ceilingSatisfied && a.doc.obligationsSupported
    && w.requestedClass == contractClass
    && p == fixed && d == Evaluate(r, fixed) && d.effect == "permit"
    && d.requestId == r.id && d.requestDigest == r.Digest() && d.bundleId == p.bundleId && d.policyVersion == p.version
    && d.policyDigest == p.Digest()
    && |d.obligations| == 2 && Owed(d) == FIXED_OBLIGATIONS
    && d.derived <= w.requestedClass && d.derived <= 1
    && startedAt >= 0.0 && d.issuedAt <= startedAt < d.expiresAt
  }

  lemma StillPermitsExactly(
    w: Wrapper, own: seq<Word>, lineage: Text, scope: string, bare: Request, p: Policy, contractClass: Class, startedAt: real)
    requires bare.environment.evaluatedAt >= 0.0 && p.ttl > 0.0 && 1 <= ClassOf(bare)
    requires w.requestedClass == contractClass && (w.legacyExecutable || own != [])
    ensures
      var a := Propose(w, own, lineage, Proposed(scope, bare), p);
      StillPermits(a, p, contractClass, startedAt) <==> a.doc.eligible && InWindow(a.decision, startedAt)
  {
    hide Evaluate, Request.ToJson, Policy.ToJson, Decision.ToJson, Derive, Bind, ObligationsSupported;
    var r := Proposed(scope, bare);
    ProposalExactly(w, own, lineage, scope, bare, p);
    DecisionBinds(r, p);
    ProposalTimes(scope, bare, p);
    ProposedSame(scope, bare);
    if Evaluate(r, p).effect == "permit" { PermitIsSupported(r, p); }
  }

  // ---- What a receipt has to repeat.

  /** The digests of request and decision that a receipt has to repeat; a failed evaluation has
      neither. */
  function RequestOf(doc: Option<Document>): Option<Text> {
    if doc.Some? && !doc.value.failed then doc.value.requestDigest else None
  }
  function DecisionDigestOf(doc: Option<Document>): Option<Text> {
    if doc.Some? && !doc.value.failed then doc.value.decisionDigest else None
  }
  function ActionOf(doc: Document): Text {
    Digest(Obj(ENFORCED, [RequestPart(doc.request, 0), RequestPart(doc.request, 5)]))
  }
  predicate Held(doc: Option<Document>, startedAt: real) {
    doc.Some? && PermitHeld(doc.value.effect, doc.value.eligible, doc.value.decision, startedAt)
  }

  /** The receipt with its results in canonical order. */
  function Ordered(receipt: Receipt): Receipt { receipt.(results := SortBy(receipt.results, ResultKey)) }

  lemma RequestIsEnforced(r: Request, doc: Document)
    requires doc.request == r.ToJson()
    ensures ActionOf(doc) == Enforced(r)
  {
    hide RequestPart, Request.ToJson, Action.ToJson, Resource.ToJson;
    RequestParts(r);
  }

  /** The results of a receipt pass the check exactly when, in canonical order, they are those a
      boundary reports. */
  lemma OrderedResults(r: Request, p: Policy, results: seq<ObligationResult>)
    requires Evaluate(r, p).effect == "permit" && 1 <= ClassOf(r)
    ensures ResultsMatch(Entry(Evaluate(r, p).ToJson(), 6), results) <==>
      SortBy(results, ResultKey) == SortBy(Map(Evaluate(r, p).obligations, Fulfilled), ResultKey)
  {
    hide Evaluate, Decision.ToJson, Entry, ResultsMatch, Satisfies, SortBy, Derive, ObligationList;
    var d := Evaluate(r, p);
    DecisionEntries(d);
    PermitOwesTwo(r, p);
    assert Map(d.obligations, OwedPair)[0] != Map(d.obligations, OwedPair)[1];
    ResultsExactly(d, results);
    SatisfiesExactly(results, d);
  }
}
