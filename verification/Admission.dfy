/** The admission gate: one fixed Class 1 policy, evaluated for one exact task attempt. */
module Admission {
  import opened Prelude
  import opened Canon
  import opened Sequences
  import opened Authorization
  import opened Evaluator
  import opened EvaluatorLaws
  import opened PermissionClasses
  import opened Receipts
  import opened Proposals

  const OPERATION := Lit("task_attempt_admission")
  const RESOURCE_TYPE := Lit("isolated_worktree")
  const EFFECT := Lit("admit_profile_backed_mock_task_attempt")
  const BOUNDARY := Lit("isolated_run_workspace")
  const SCOPE := "ordinary_profile_backed_mock_task_admission_only"
  const POLICY_ID := Lit("ordomata.phase-1c.mock-task-admission-enforcement")
  const POLICY_VERSION := Lit("1.0.0")
  const EXECUTOR := Lit("ordomata:local-controller")
  const PRE_RUN_APPROVAL := "task_contract_pre_run_operator_approval"

  // Kinds of document beside those of the evaluator.
  const RUN_REF := 20
  const PROFILE_REF := 21
  const REPOSITORY_REF := 22
  const WORKSPACE_REF := 23
  const RUN_DIRECTORY_REF := 24
  const APPROVER_REF := 25
  const APPROVALS_REF := 26
  const PARAMETERS := 27
  const IDENTIFIER := 28
  const INTENT := 29
  const INTENT_ACTION := 30
  const INTENT_RESOURCE := 31
  const ADMISSION_RESULT := 32
  const RECEIPT_ID := 33

  /** What a task asks to be allowed to do. */
  datatype Intent = Intent(
    verb: Word, operation: Text, effect: Text, resourceType: Text, boundary: Text, guarded: bool, sensitivity: Word,
    consequences: Consequences)
  {
    function ToJson(): Json {
      Obj(INTENT, [Obj(INTENT_ACTION, [Str(effect), Str(operation), Plain(verb)]), consequences.ToJson(),
                   Obj(INTENT_RESOURCE, [Bool(guarded), Str(resourceType), Plain(sensitivity), Str(boundary)])])
    }
  }

  /** `_task_admission_intent`: the admission of a task carries the task's own consequences. */
  function AdmissionIntent(i: Intent): Intent {
    i.(verb := "create", operation := OPERATION, effect := EFFECT, resourceType := RESOURCE_TYPE, boundary := BOUNDARY)
  }

  /** What the gate is told: the contract, the run request, and the bindings of the attempt. */
  datatype Attempt = Attempt(
    definitionHash: Text, approver: Text, requiredBeforeRun: bool, intent: Intent, contractClass: Class,
    runId: Text, number: int, workspace: Text, runDirectory: Text, requestClass: Class, outputSchema: Json,
    contractSchema: Json, timeout: real, contractTimeout: real, overrides: Json, laidOut: bool, runnerId: Text,
    profileId: Text, projectRoot: Text, ownMockRunner: bool, bindingDigest: Text, selectionDigest: Text,
    profileVersionRef: Text, profileConfigurationDigest: Text, contextDigest: Text, promptDigest: Text,
    legacyExecutable: bool)
  {
    /** Nothing that the task asks for goes beyond a local draft. */
    predicate Modest() { LocalDraft(intent.guarded, intent.sensitivity, intent.consequences) }

    function RunRef(): Text { Digest(Obj(RUN_REF, [Str(runId)])) }
    function ProfileRef(): Text { Digest(Obj(PROFILE_REF, [Str(profileId)])) }
    function RepositoryRef(): Text { Digest(Obj(REPOSITORY_REF, [Str(projectRoot)])) }
    function WorkspaceRef(): Text { Digest(Obj(WORKSPACE_REF, [Str(workspace)])) }
    function RunDirectoryRef(): Text { Digest(Obj(RUN_DIRECTORY_REF, [Str(runDirectory)])) }
    function ApproverRef(): Text { Digest(Obj(APPROVER_REF, [Str(approver)])) }
    function ApprovalsDigest(): Text { Digest(Obj(APPROVALS_REF, [Str(approver), Bool(requiredBeforeRun)])) }

    /** `_validate_evaluation_inputs`; `laidOut` stands for the checks on paths and on the
        prompt, and on the identity of task and profile. */
    predicate Accepted(evaluatedAt: real) {
      && runnerId == Lit("mock") && laidOut
      && requestClass == contractClass && requestClass in {0, 1}
      && timeout == contractTimeout && number == 1 && Digest(outputSchema) == Digest(contractSchema)
      && IsDigest(bindingDigest) && IsDigest(selectionDigest) && IsDigest(profileVersionRef)
      && IsDigest(profileConfigurationDigest) && IsDigest(contextDigest) && IsDigest(promptDigest)
      && evaluatedAt >= 0.0
    }

    /** What the types of the contract already guarantee. */
    predicate Typed() {
      IsDigest(definitionHash) && intent.sensitivity in IMPACTS && intent.consequences.Valid()
    }
  }

  function Parameters(x: Attempt): Json {
    Obj(PARAMETERS, [
      Str(Digest(AdmissionIntent(x.intent).ToJson())), Num(x.number as real), Str(x.contextDigest), Bool(x.ownMockRunner),
      Str(x.selectionDigest), Num(x.requestClass as real), Str(Digest(x.outputSchema)), Str(x.ApprovalsDigest()),
      Str(x.profileConfigurationDigest), Str(x.ProfileRef()), Str(x.profileVersionRef), Str(x.promptDigest),
      Str(x.RepositoryRef()), Str(x.RunDirectoryRef()), Str(x.RunRef()), Str(Digest(x.overrides)), Str(x.bindingDigest),
      Str(Digest(x.intent.ToJson())), Str(x.definitionHash), Num(x.timeout), Str(x.WorkspaceRef())])
  }

  function Identifier(selectionDigest: Text, runRef: Text, bindingDigest: Text, workspaceRef: Text): Text {
    Digest(Obj(IDENTIFIER, [Str(selectionDigest), Str(RESOURCE_TYPE), Str(runRef), Str(bindingDigest), Str(workspaceRef)]))
  }

  function AdmissionEnvironment(evaluatedAt: real): Environment {
    Environment(evaluatedAt, "verified", "disabled", "mock", "not_applicable", "not_applicable", "closed",
                Lit("admission_proposed"), [])
  }

  /** The request before it carries evidence. */
  function BareRequest(x: Attempt, evaluatedAt: real): Request {
    var intent := AdmissionIntent(x.intent);
    Request(
      Prefixed(SCOPE + ":", x.RunRef()),
      Subject(Lit("agent:task-attempt"), EXECUTOR, "implementer", Lit("1"), x.ProfileRef(), Lit("mock"),
              Some(Prefixed("attempt:", x.RunRef()))),
      Action("create", OPERATION, Digest(Parameters(x)), EFFECT, None, []),
      Resource(RESOURCE_TYPE, Identifier(x.selectionDigest, x.RunRef(), x.bindingDigest, x.WorkspaceRef()),
               x.definitionHash, Lit("operator:local"), BOUNDARY, intent.guarded, intent.sensitivity,
               Some(x.RepositoryRef()), Some(x.contextDigest)),
      AdmissionEnvironment(evaluatedAt), intent.consequences, [])
  }

  function AdmissionRequest(x: Attempt, evaluatedAt: real): Request { Proposed(SCOPE, BareRequest(x, evaluatedAt)) }

  /** `_task_admission_policy`, over the requirements of `PolicyBundle.current_stage`. */
  function AdmissionPolicy(required: bool, approverRef: Text): Policy {
    Policy(
      POLICY_ID, POLICY_VERSION, 0.0, StageEvidence(),
      [1], ["create"], ["implementer"], [OPERATION], [RESOURCE_TYPE], [BOUNDARY], [Lit("admission_proposed")],
      ["disabled"], ["mock"],
      if required then
        [ApprovalRequirement(PRE_RUN_APPROVAL, ["create"], [RESOURCE_TYPE], [], [approverRef], ["operator"], true)]
      else [],
      60.0)
  }

  const FIXED_OBLIGATIONS: set<(Word, Text)> :=
    {("audit_receipt", Lit("append_after_action")), ("isolated_local_only", Lit("required"))}

  /** `_obligations_supported` */
  predicate ObligationsSupported(d: Decision) {
    d.effect == "permit" ==> |d.obligations| == 2 && Owed(d) == FIXED_OBLIGATIONS
  }

  /** `_policy_and_decision_match` */
  predicate DecisionMatches(r: Request, p: Policy, d: Decision, evaluatedAt: real) {
    && d.requestId == r.id && d.requestDigest == r.Digest() && d.bundleId == p.bundleId && d.policyVersion == p.version
    && d.policyDigest == p.Digest() && d.issuedAt == evaluatedAt
  }

  function Blocks(
    ownMockRunner: bool, requested: Class, legacyExecutable: bool, required: bool, matches: bool, permit: bool,
    current: bool, ceiling: bool, supported: bool): seq<Word>
  {
    (if !ownMockRunner then ["controller_owned_mock_runner_not_verified"] else [])
    + (if requested != 1 then ["task_permission_class_not_local_draft"] else [])
    + (if !legacyExecutable then ["legacy_gate_not_executable"] else [])
    + (if required then ["pre_run_approval_not_supported"] else [])
    + (if !matches then ["authorization_policy_mismatch"] else [])
    + (if !permit then ["authorization_effect_not_permit"] else [])
    + (if !current then ["authorization_decision_not_current"] else [])
    + (if !ceiling then ["authorization_class_ceiling_exceeded"] else [])
    + (if !supported then ["authorization_obligation_unsupported"] else [])
  }

  /** `TaskAdmissionAuthorization` */
  datatype Authorized = Authorized(
    request: Request, policy: Policy, decision: Decision, runRef: Text, profileRef: Text, bindingDigest: Text,
    selectionDigest: Text, profileVersionRef: Text, profileConfigurationDigest: Text, contextDigest: Text,
    promptDigest: Text, taskIntentDigest: Text, admissionIntentDigest: Text, requestedClass: Class,
    ownMockRunner: bool, legacyExecutable: bool, preRunApprovalRequired: bool, approverRef: Text,
    ceilingSatisfied: bool, obligationsSupported: bool, current: bool, blocks: seq<Word>)

  function AuthorizationOf(x: Attempt, evaluatedAt: real): Authorized {
    var r, p := AdmissionRequest(x, evaluatedAt), AdmissionPolicy(x.requiredBeforeRun, x.ApproverRef());
    var d := Evaluate(r, p);
    var current := d.issuedAt <= evaluatedAt < d.expiresAt;
    var ceiling := d.derived <= x.requestClass && d.derived <= 1;
    Authorized(
      r, p, d, x.RunRef(), x.ProfileRef(), x.bindingDigest, x.selectionDigest, x.profileVersionRef,
      x.profileConfigurationDigest, x.contextDigest, x.promptDigest, Digest(x.intent.ToJson()),
      Digest(AdmissionIntent(x.intent).ToJson()), x.requestClass, x.ownMockRunner, x.legacyExecutable,
      x.requiredBeforeRun, x.ApproverRef(), ceiling, ObligationsSupported(d), current,
      Blocks(x.ownMockRunner, x.requestClass, x.legacyExecutable, x.requiredBeforeRun,
             DecisionMatches(r, p, d, evaluatedAt), d.effect == "permit", current, ceiling, ObligationsSupported(d)))
  }

  /** `evaluate_task_admission_authorization` */
  function Gate(x: Attempt, evaluatedAt: real): Outcome<Authorized> {
    if x.Accepted(evaluatedAt) then Ok(AuthorizationOf(x, evaluatedAt)) else Raised(ValidationError)
  }

  /** The decision as it is persisted.  A failed evaluation is persisted too, without
      request, policy and decision. */
  datatype Payload = Payload(
    runRef: Text, profileRef: Text, bindingDigest: Text, selectionDigest: Text, profileVersionRef: Text,
    profileConfigurationDigest: Text, contextDigest: Text, promptDigest: Text, taskIntentDigest: Text,
    admissionIntentDigest: Text, requestedClass: Class, ownMockRunner: bool, legacyExecutable: bool,
    preRunApprovalRequired: bool, approverRef: Text, request: Json, requestDigest: Option<Text>, policy: Json,
    policyDigest: Option<Text>, decision: Json, decisionDigest: Option<Text>, effect: Word, derived: Option<Class>,
    current: bool, ceilingSatisfied: bool, obligationsSupported: bool, eligible: bool, blocks: seq<Word>,
    evaluatedAt: real, failureStage: Option<Word>)

  /** `to_event_payload` */
  function ToPayload(a: Authorized): Payload {
    Payload(a.runRef, a.profileRef, a.bindingDigest, a.selectionDigest, a.profileVersionRef,
            a.profileConfigurationDigest, a.contextDigest, a.promptDigest, a.taskIntentDigest, a.admissionIntentDigest,
            a.requestedClass, a.ownMockRunner, a.legacyExecutable, a.preRunApprovalRequired, a.approverRef,
            a.request.ToJson(), Some(a.request.Digest()), a.policy.ToJson(), Some(a.policy.Digest()),
            a.decision.ToJson(), Some(a.decision.Digest()), a.decision.effect, Some(a.decision.derived), a.current,
            a.ceilingSatisfied, a.obligationsSupported, a.blocks == [], a.blocks, a.request.environment.evaluatedAt, None)
  }

  /** What every admission request looks like. */
  predicate FixedRequest(r: Request) {
    && r.subject.runnerId == Lit("mock") && r.subject.role == "implementer" && r.action.verb == "create"
    && r.action.operation == OPERATION && r.action.intendedEffect == EFFECT
    && r.resource.resourceType == RESOURCE_TYPE && r.resource.trustBoundary == BOUNDARY
    && r.environment.isolation == "verified" && r.environment.network == "disabled" && r.environment.billing == "mock"
    && r.environment.capacity == "not_applicable" && r.environment.protection == "not_applicable"
    && r.environment.circuit == "closed" && r.environment.flowState == Lit("admission_proposed")
  }

  predicate Contained(c: Consequences) {
    c.reach == "local" && !c.destructive && c.reversible && c.blast == "single_resource"
  }

  /** `_assert_task_admission_permit_current`: the whole list of conditions, one by one. */
  predicate PermitCurrent(a: Authorized, startedAt: real) {
    var r, p, d := a.request, a.policy, a.decision;
    var fixed := AdmissionPolicy(a.preRunApprovalRequired, a.approverRef);
    && a.blocks == [] && a.ownMockRunner && a.legacyExecutable && !a.preRunApprovalRequired && IsDigest(a.approverRef)
    && a.requestedClass == 1 && a.ceilingSatisfied && a.obligationsSupported
    && p == fixed && d == Evaluate(r, fixed) && d.effect == "permit"
    && d.requestId == r.id && d.requestDigest == r.Digest() && d.bundleId == p.bundleId && d.policyVersion == p.version
    && d.policyDigest == p.Digest()
    && FixedRequest(r) && Contained(r.consequences)
    && |d.obligations| == 2 && Owed(d) == FIXED_OBLIGATIONS
    && d.derived <= a.requestedClass && d.derived <= 1
    && startedAt >= 0.0 && d.issuedAt <= startedAt < d.expiresAt
  }

  /** `assert_task_admission_authorized`: rebuilds the permit at the moment of action. */
  function AssertAuthorized(a: Authorized, startedAt: real, persisted: Payload, x: Attempt): Outcome<()> {
    var rebuilt := Gate(x, a.request.environment.evaluatedAt);
    if rebuilt != Ok(a) || ToPayload(a) != persisted || !PermitCurrent(a, startedAt) then Raised(AuthorizationBlocked)
    else Ok(())
  }

  /** The receipt of a durable admission, as it is persisted. */
  datatype ReceiptPayload = ReceiptPayload(
    runRef: Text, profileRef: Text, bindingDigest: Text, selectionDigest: Text, requestDigest: Text,
    decisionDigest: Text, resultDigest: Text, receipt: Receipt, receiptDigest: Text)

  function AdmissionResult(selectionDigest: Text, runRef: Text, bindingDigest: Text): Text {
    Digest(Obj(ADMISSION_RESULT, [Plain("admitted"), Str(selectionDigest), Str(runRef), Str(bindingDigest)]))
  }

  function ReceiptId(decisionDigest: Text, selectionDigest: Text, requestDigest: Text, bindingDigest: Text): Text {
    Digest(Obj(RECEIPT_ID, [Str(decisionDigest), Str(selectionDigest), Plain("task_admission_action"),
                            Str(requestDigest), Str(bindingDigest)]))
  }

  /** `build_task_admission_action_receipt` */
  function BuildReceipt(a: Authorized, startedAt: real, completedAt: real): Outcome<ReceiptPayload> {
    if !PermitCurrent(a, startedAt) then Raised(AuthorizationBlocked)
    else if completedAt < startedAt then Raised(ValidationError)
    else
      var results := Map(a.decision.obligations, Fulfilled);
      var result := AdmissionResult(a.selectionDigest, a.runRef, a.bindingDigest);
      var id := ReceiptId(a.decision.Digest(), a.selectionDigest, a.request.Digest(), a.bindingDigest);
      var recorded := Record(id, a.decision, a.request, EXECUTOR, startedAt, completedAt, "succeeded", results, Some(result));
      match recorded
      case Raised(error) => Raised(error)
      case Ok(receipt) =>
        Ok(ReceiptPayload(a.runRef, a.profileRef, a.bindingDigest, a.selectionDigest, a.request.Digest(),
                          a.decision.Digest(), result, receipt, Digest(receipt.ToJson())))
  }

  // ---- What the gate guarantees.

  /** An admission creates something, so its class is at least 1. */
  lemma CreateIsNotReadOnly(a: Action, r: Resource, c: Consequences)
    requires a.verb == "create"
    ensures 1 <= Derive(a, r, c) <= 3
  {
  }

  lemma GateIdsDistinct(x: Attempt, now: real)
    ensures Distinct(Ids(AdmissionRequest(x, now).evidence))
  {
    ProposedIds(SCOPE, BareRequest(x, now));
  }

  lemma GateBacked(x: Attempt, now: real, q: EvidenceRequirement)
    requires q in AdmissionPolicy(x.requiredBeforeRun, x.ApproverRef()).evidenceRequirements
    ensures Backed(q, AdmissionRequest(x, now))
  {
    hide BareRequest, StageEvidence, Backed, Proposed;
    ProposedBacked(SCOPE, BareRequest(x, now), q);
  }

  lemma AttributeIgnoresEvidence(x: Attempt, now: real, a: Word)
    ensures AdmissionRequest(x, now).Attribute(a) == BareRequest(x, now).Attribute(a)
    ensures AdmissionRequest(x, now).environment.evaluatedAt == now && BareRequest(x, now).environment.evaluatedAt == now
  {
    hide Request.Attribute, Bind, Proposed;
    ProposedSame(SCOPE, BareRequest(x, now));
  }

  lemma GateValidates(x: Attempt, now: real)
    ensures Validate(AdmissionRequest(x, now), AdmissionPolicy(x.requiredBeforeRun, x.ApproverRef())).valid
  {
    hide BareRequest, StageEvidence, Proposed, Validate;
    ProposedValidates(SCOPE, BareRequest(x, now), AdmissionPolicy(x.requiredBeforeRun, x.ApproverRef()));
  }

  lemma GateGates(x: Attempt, now: real)
    requires now >= 0.0
    ensures
      var r, p := AdmissionRequest(x, now), AdmissionPolicy(x.requiredBeforeRun, x.ApproverRef());
      GatesOpen(r, p) <==> ClassOf(r) == 1
  {
    hide Parameters, Identifier, Derive;
  }

  lemma GateApprovals(x: Attempt, now: real)
    ensures
      var r, p := AdmissionRequest(x, now), AdmissionPolicy(x.requiredBeforeRun, x.ApproverRef());
      && (forall q | q in p.approvalRequirements && q.Matches(r, ClassOf(r)) :: Approved(q, r, p)) <==> !x.requiredBeforeRun
  {
    hide Parameters, Identifier, Derive, Misbound;
    var r, p := AdmissionRequest(x, now), AdmissionPolicy(x.requiredBeforeRun, x.ApproverRef());
    if x.requiredBeforeRun {
      var q := p.approvalRequirements[0];
      assert q in p.approvalRequirements && q.Matches(r, ClassOf(r));
      assert r.environment.grants == [] && !Approved(q, r, p);
    }
  }

  /** The gate permits exactly the Class 1 attempts that need no approval before the run. */
  lemma GatePermits(x: Attempt, now: real)
    requires now >= 0.0
    ensures
      var r, p := AdmissionRequest(x, now), AdmissionPolicy(x.requiredBeforeRun, x.ApproverRef());
      Evaluate(r, p).effect == "permit" <==> ClassOf(r) == 1 && !x.requiredBeforeRun
  {
    hide AdmissionRequest, Evaluate, Derive, Validate, GatesOpen, Approved, Backed;
    var r, p := AdmissionRequest(x, now), AdmissionPolicy(x.requiredBeforeRun, x.ApproverRef());
    GateValidates(x, now);
    ValidExactly(r, p);
    GateGates(x, now);
    GateApprovals(x, now);
    PermitExactly(r, p);
    AttributeIgnoresEvidence(x, now, "subject");
  }

  lemma GateObligations(x: Attempt, now: real)
    requires now >= 0.0
    ensures
      var d := Evaluate(AdmissionRequest(x, now), AdmissionPolicy(x.requiredBeforeRun, x.ApproverRef()));
      ObligationsSupported(d) && (d.effect == "permit" ==> |d.obligations| == 2 && Owed(d) == FIXED_OBLIGATIONS)
  {
    hide AdmissionRequest, AdmissionPolicy, Evaluate, Derive;
    var r, p := AdmissionRequest(x, now), AdmissionPolicy(x.requiredBeforeRun, x.ApproverRef());
    if Evaluate(r, p).effect == "permit" {
      GatePermits(x, now);
      PermitOwesTwo(r, p);
      var os := Evaluate(r, p).obligations;
      assert os[0] in os && os[1] in os;
    }
  }

  lemma PolicyLives(required: bool, approverRef: Text)
    ensures AdmissionPolicy(required, approverRef).ttl == 60.0
  {
  }

  lemma GateCreates(x: Attempt, now: real)
    ensures 1 <= ClassOf(AdmissionRequest(x, now)) <= 3 && FixedRequest(AdmissionRequest(x, now))
    ensures AdmissionRequest(x, now).consequences == x.intent.consequences
  {
    hide Derive, Bind, Parameters, Identifier;
    var r := AdmissionRequest(x, now);
    CreateIsNotReadOnly(r.action, r.resource, r.consequences);
  }

  /** The admission of a typed attempt is Class 1 exactly for a modest task. */
  lemma AdmissionIsDraft(x: Attempt, now: real)
    requires x.Typed()
    ensures ClassOf(AdmissionRequest(x, now)) == 1 <==> x.Modest()
  {
    hide Derive, Bind, Parameters, Identifier;
    var r := AdmissionRequest(x, now);
    DraftExactly(r.action, r.resource, r.consequences);
    CreateIsNotReadOnly(r.action, r.resource, r.consequences);
  }

  /** Whatever the attempt, the decision matches its request and policy, is current when it is
      made, and owes only what the controller can satisfy. */
  lemma GateDecision(x: Attempt, now: real)
    requires now >= 0.0
    ensures
      var r, p := AdmissionRequest(x, now), AdmissionPolicy(x.requiredBeforeRun, x.ApproverRef());
      var d := Evaluate(r, p);
      && DecisionMatches(r, p, d, now) && d.issuedAt <= now < d.expiresAt && ObligationsSupported(d)
      && d.derived == ClassOf(r) && 1 <= d.derived <= 3
      && (d.effect == "permit" <==> d.derived == 1 && !x.requiredBeforeRun)
      && (x.Typed() ==> (d.effect == "permit" <==> x.Modest() && !x.requiredBeforeRun))
      && (d.effect == "permit" ==> |d.obligations| == 2 && Owed(d) == FIXED_OBLIGATIONS)
  {
    hide AdmissionRequest, AdmissionPolicy, Evaluate, Derive, ObligationsSupported, Request.Digest, Policy.Digest,
         FixedRequest, LocalDraft;
    var r, p := AdmissionRequest(x, now), AdmissionPolicy(x.requiredBeforeRun, x.ApproverRef());
    AttributeIgnoresEvidence(x, now, "subject");
    GateObligations(x, now);
    GatePermits(x, now);
    DecisionBinds(r, p);
    PolicyLives(x.requiredBeforeRun, x.ApproverRef());
    ExpiryFollowsIssue(r, p);
    GateCreates(x, now);
    if x.Typed() { AdmissionIsDraft(x, now); }
  }

  lemma NoBlocks(
    ownMockRunner: bool, requested: Class, legacyExecutable: bool, required: bool, matches: bool, permit: bool,
    current: bool, ceiling: bool, supported: bool)
    ensures Blocks(ownMockRunner, requested, legacyExecutable, required, matches, permit, current, ceiling, supported) == []
       <==> ownMockRunner && requested == 1 && legacyExecutable && !required && matches && permit && current && ceiling
            && supported
  {
  }

  /** An attempt is authorized exactly when the controller's own mock runner serves it, it asks
      for Class 1, the legacy gate would run it, no approval is due before the run, and nothing
      in its consequences goes beyond a local draft. */
  lemma GateAuthorizesExactly(x: Attempt, now: real)
    requires x.Accepted(now)
    ensures AuthorizationOf(x, now).blocks == [] <==>
      && x.ownMockRunner && x.requestClass == 1 && x.legacyExecutable && !x.requiredBeforeRun
      && ClassOf(AdmissionRequest(x, now)) == 1
    ensures x.Typed() ==>
      (AuthorizationOf(x, now).blocks == [] <==>
         x.ownMockRunner && x.requestClass == 1 && x.legacyExecutable && !x.requiredBeforeRun && x.Modest())
  {
    hide AdmissionRequest, AdmissionPolicy, Evaluate, Derive, ObligationsSupported, DecisionMatches, Blocks, LocalDraft;
    var r, p := AdmissionRequest(x, now), AdmissionPolicy(x.requiredBeforeRun, x.ApproverRef());
    var d := Evaluate(r, p);
    GateDecision(x, now);
    if x.Typed() { AdmissionIsDraft(x, now); }
    NoBlocks(x.ownMockRunner, x.requestClass, x.legacyExecutable, x.requiredBeforeRun, DecisionMatches(r, p, d, now),
             d.effect == "permit", d.issuedAt <= now < d.expiresAt, d.derived <= x.requestClass && d.derived <= 1,
             ObligationsSupported(d));
  }

  lemma ClassOneIsContained(c: Consequences, a: Action, r: Resource)
    requires c.Valid() && Derive(a, r, c) <= 1
    ensures Contained(c)
  {
  }

  /** For what the gate authorized, the independent check at the moment of action adds exactly
      one thing: that the action starts inside the permit's window. */
  lemma PermitCurrentExactly(x: Attempt, now: real, startedAt: real)
    requires x.Accepted(now) && x.Typed()
    ensures
      var a := AuthorizationOf(x, now);
      PermitCurrent(a, startedAt) <==> a.blocks == [] && a.decision.issuedAt <= startedAt < a.decision.expiresAt
  {
    hide AdmissionRequest, AdmissionPolicy, Evaluate, Derive, ObligationsSupported, Blocks, Contained, FixedRequest;
    var r := AdmissionRequest(x, now);
    GateAuthorizesExactly(x, now);
    GateDecision(x, now);
    GateCreates(x, now);
    if ClassOf(r) == 1 {
      ClassOneIsContained(r.consequences, r.action, r.resource);
    }
  }

  /** At the moment of action: the permit must be the one the gate would grant again, and the
      one that was persisted. */
  lemma AssertExactly(a: Authorized, startedAt: real, persisted: Payload, x: Attempt)
    requires x.Typed()
    ensures AssertAuthorized(a, startedAt, persisted, x).Ok? <==>
      && Gate(x, a.request.environment.evaluatedAt) == Ok(a) && persisted == ToPayload(a)
      && a.blocks == [] && a.decision.issuedAt <= startedAt < a.decision.expiresAt
  {
    hide PermitCurrent, ToPayload, AuthorizationOf;
    var now := a.request.environment.evaluatedAt;
    if Gate(x, now) == Ok(a) {
      PermitCurrentExactly(x, now, startedAt);
    }
  }

  /** The receipt of an authorized admission is accepted exactly inside the window. */
  lemma ReceiptExactly(x: Attempt, now: real, startedAt: real, completedAt: real)
    requires x.Accepted(now) && x.Typed()
    ensures
      var a := AuthorizationOf(x, now);
      BuildReceipt(a, startedAt, completedAt).Ok? <==>
        a.blocks == [] && a.decision.issuedAt <= startedAt < a.decision.expiresAt && startedAt <= completedAt
  {
    hide AdmissionRequest, AdmissionPolicy, Evaluate, Derive, PermitCurrent, Record, Blocks, ObligationsSupported,
         AdmissionResult, Decision.ToJson, Request.ToJson, Satisfies;
    var a := AuthorizationOf(x, now);
    PermitCurrentExactly(x, now, startedAt);
    if PermitCurrent(a, startedAt) && startedAt <= completedAt {
      GateAuthorizesExactly(x, now);
      GateDecision(x, now);
      AttributeIgnoresEvidence(x, now, "subject");
      PolicyLives(x.requiredBeforeRun, x.ApproverRef());
      var results := Map(a.decision.obligations, Fulfilled);
      AllSatisfied(a.decision);
      var result := AdmissionResult(a.selectionDigest, a.runRef, a.bindingDigest);
      AdmissionResultIsDigest(a);
      PermitIsUsable(ReceiptId(a.decision.Digest(), a.selectionDigest, a.request.Digest(), a.bindingDigest), a.request,
                     a.policy, EXECUTOR, startedAt, completedAt, "succeeded", results, Some(result));
    }
  }

  lemma AllSatisfied(d: Decision)
    ensures Satisfies(Map(d.obligations, Fulfilled), d)
  {
  }

  lemma AdmissionResultIsDigest(a: Authorized)
    ensures IsDigest(AdmissionResult(a.selectionDigest, a.runRef, a.bindingDigest))
  {
  }
}
