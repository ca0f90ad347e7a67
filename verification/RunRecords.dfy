/** What the records of a run say, apart from its decisions and receipts. */
module RunRecords {
  import opened Prelude
  import opened Canon
  import opened Authorization
  import opened Admission
  import opened AdmissionInspection

  // Kinds of document beside those of the gates.
  const ASSESSMENT := 40
  const DISPOSITION := 41
  const ACCOUNTING := 42
  const LINEAGE := 43
  const DISPATCH_RESULT := 44

  const MOCK := Lit("mock")

  function OptionalBool(b: Option<bool>): Json { if b.Some? then Bool(b.value) else Null }
  function OptionalWord(w: Option<Word>): Json { if w.Some? then Plain(w.value) else Null }
  function OptionalNum(n: Option<real>): Json { if n.Some? then Num(n.value) else Null }

  /** The billing assessment made before dispatch. */
  datatype Assessment = Assessment(
    accountVerified: bool, attested: bool, capacity: Word, confidence: Word, protection: Word, balance: Word, route: Word,
    runnerId: Text, subscription: Option<Text>)
  {
    function ToJson(): Json {
      Obj(ASSESSMENT, [Bool(accountVerified), Bool(attested), Plain(capacity), Plain(confidence), Plain(protection),
                       Plain(balance), Plain(route), Str(runnerId), Num(1.0), Optional(subscription)])
    }

    function Digest(): Text { Canon.Digest(ToJson()) }

    /** Verified evidence of the mock route. */
    predicate Mock() { runnerId == MOCK && route == "mock" && confidence == "high" }
  }

  /** The accounting of the execution. */
  datatype Accounting = Accounting(
    circuitBreaker: bool, reasons: seq<Word>, billingMatches: bool, quarantine: bool, capacity: Word, mode: Option<Word>,
    failureCode: Option<Word>, processStarted: Option<bool>, identityMatches: bool, aiCharge: Word, apiCharge: Word,
    liveModel: Option<bool>, paidCapacity: Word, observed: bool, status: Word, runnerEvents: nat,
    runnerVersion: Option<Text>, capacityConsumed: Option<bool>, usage: Word, wallSeconds: Option<real>)
  {
    /** The digest of the billing disposition that the accounting restates. */
    function Disposition(): (t: Text)
      ensures IsDigest(t)
    {
      Canon.Digest(Obj(DISPOSITION, [Bool(billingMatches), Plain(capacity), Bool(circuitBreaker), Bool(identityMatches),
                                     Plain(aiCharge), Plain(paidCapacity), Bool(quarantine), WordList(reasons)]))
    }

    function ToJson(): Json {
      Obj(ACCOUNTING, [Bool(circuitBreaker), Str(Disposition()), WordList(reasons), Bool(billingMatches), Bool(quarantine),
                       Plain(capacity), OptionalWord(mode), OptionalWord(failureCode), OptionalBool(processStarted),
                       Bool(identityMatches), Plain(aiCharge), Plain(apiCharge), OptionalBool(liveModel),
                       Plain(paidCapacity), Bool(observed), Plain(status), Num(runnerEvents as real),
                       Optional(runnerVersion), Num(2.0), OptionalBool(capacityConsumed), Plain(usage),
                       OptionalNum(wallSeconds)])
    }

    function Digest(): Text { Canon.Digest(ToJson()) }

    /** Nothing was charged and nothing is in doubt, as a publication demands. */
    predicate Harmless() {
      && billingMatches && capacity == "not_applicable" && paidCapacity == "not_applicable" && aiCharge == "none"
      && !quarantine && !circuitBreaker && reasons == []
    }

    /** `_inspect_task_artifact_receipts`, of the accounting alone */
    predicate Publishable() {
      && observed && status == "succeeded" && identityMatches && billingMatches && !quarantine && !circuitBreaker
      && capacity in {"available", "not_applicable"} && paidCapacity in {"no", "not_applicable"} && aiCharge == "none"
      && apiCharge == "none" && failureCode == None
    }

    /** The same, of a run on the mock route */
    predicate InMemory() {
      && processStarted == Some(false) && liveModel == Some(false) && capacityConsumed == Some(false)
      && usage == "not_applicable" && mode == Some("in_memory_mock")
    }
  }

  /** What a dispatch receipt digests as its result. */
  function DispatchResult(a: Accounting, runRef: Text, runner: Text): (t: Text)
    ensures IsDigest(t)
  {
    Digest(Obj(DISPATCH_RESULT, [OptionalBool(a.processStarted), OptionalBool(a.liveModel), Str(runRef),
                                 Num(a.runnerEvents as real), Str(runner), Plain(a.status)]))
  }

  /** `_mock_dispatch_outcome_for_status` */
  function OutcomeFor(status: Word): Option<Word> {
    if status == "succeeded" then Some("succeeded")
    else if status == "cancelled" then Some("cancelled")
    else if status in {"failed", "blocked", "quarantined"} then Some("failed")
    else None
  }

  /** `_task_authorization_intent_lineage` */
  function Lineage(source: Word, definition: Text, requested: Class, intent: Intent): Text {
    Digest(Obj(LINEAGE, [Str(Digest(intent.ToJson())), Plain(source), Plain("task_authorization_intent_lineage"),
                         Num(requested as real), Num(1.0), intent.ToJson(), Str(definition)]))
  }

  /** The sole publication shadow: its intent, and the resource of its request. */
  datatype ShadowRecord = ShadowRecord(intentDigest: Text, version: Text, contentDigest: Option<Text>)

  /** `runner` is the run's own runner, `bound` that of its binding; the lineage is that of a
      schema 6 binding, and the intent the one that lineage, or an older shadow, restores. */
  datatype Records = Records(
    facts: Facts, runner: Text, bound: Text, selectedProfile: Option<Text>, intent: Option<Intent>, lineage: Option<Text>,
    assessment: Option<Assessment>, accounting: Option<Accounting>, shadow: Option<ShadowRecord>)
  {
    /** The controller's own mock runner served the run, as far as its records say. */
    predicate OwnMock() { bound == MOCK && facts.selectedMock }

    /** The profile reference that both the binding and the selection name. */
    predicate ProfileAgrees() {
      selectedProfile.Some? ==> facts.binding.profileRef == Digest(Obj(PROFILE_REF, [Str(selectedProfile.value)]))
    }

    predicate Legacy() { facts.permissionClass.Some? && facts.permissionClass.value in {0, 1} }
  }
}
