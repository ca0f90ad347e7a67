/** Recording that a permitted action was carried out. */
module Receipts {
  import opened Prelude
  import opened Canon
  import opened Sequences
  import opened Authorization
  import opened Evaluator
  import opened EvaluatorLaws

  const OUTCOMES: set<Word> := {"succeeded", "failed", "unknown", "cancelled"}

  datatype ObligationResult = ObligationResult(kind: Word, value: Text, satisfied: bool) {
    function ToJson(): Json { Obj(OBLIGATION_RESULT, [Plain(kind), Bool(satisfied), Str(value)]) }
  }

  /** The obligation, reported as satisfied. */
  function Fulfilled(o: Obligation): ObligationResult { ObligationResult(o.kind, o.value, true) }

  function ResultKey(o: ObligationResult): Key { EncodeString(o.kind) + EncodeText(o.value) }

  datatype Receipt = Receipt(
    receiptId: Text, decisionDigest: Text, requestDigest: Text, enforcedActionDigest: Text, executorId: Text,
    startedAt: real, completedAt: real, outcome: Word, results: seq<ObligationResult>, resultDigest: Option<Text>)
  {
    predicate Valid() {
      && ValidTexts([receiptId, executorId]) && IsDigest(decisionDigest) && IsDigest(requestDigest)
      && IsDigest(enforcedActionDigest) && (resultDigest.Some? ==> IsDigest(resultDigest.value))
      && 0.0 <= startedAt <= completedAt && outcome in OUTCOMES && forall o | o in results :: ValidText(o.value)
    }

    function ToJson(): Json {
      var sorted := SortBy(results, ResultKey);
      Obj(RECEIPT, [Num(completedAt), Str(decisionDigest), Str(enforcedActionDigest), Str(executorId),
                    Arr(seq(|sorted|, i requires 0 <= i < |sorted| => sorted[i].ToJson())), Plain(outcome),
                    Str(receiptId), Str(requestDigest), Optional(resultDigest), Num(startedAt)])
    }
  }

  /** What an action receipt says was done. */
  function Enforced(r: Request): (t: Text)
    ensures IsDigest(t)
  {
    Digest(Obj(ENFORCED, [r.action.ToJson(), r.resource.ToJson()]))
  }

  function Owed(d: Decision): set<(Word, Text)> { set o | o in d.obligations :: (o.kind, o.value) }
  function Met(results: seq<ObligationResult>): set<(Word, Text)> { set o | o in results :: (o.kind, o.value) }

  /** `ActionReceipt.record` */
  function Record(
    receiptId: Text, d: Decision, r: Request, executorId: Text, startedAt: real, completedAt: real, outcome: Word,
    results: seq<ObligationResult>, resultDigest: Option<Text>): Outcome<Receipt>
  {
    if d.effect != "permit" || d.requestDigest != r.Digest() || startedAt < d.issuedAt || startedAt >= d.expiresAt
       || |Met(results)| != |results| || Met(results) != Owed(d) || (exists o | o in results :: !o.satisfied) then
      Raised(ValidationError)
    else
      var receipt := Receipt(receiptId, Digest(d.ToJson()), r.Digest(), Enforced(r), executorId, startedAt, completedAt,
                             outcome, results, resultDigest);
      if receipt.Valid() then Ok(receipt) else Raised(ValidationError)
  }

  /** Every obligation reported as satisfied, in any order. */
  predicate Satisfies(results: seq<ObligationResult>, d: Decision) {
    multiset(results) == multiset(Map(d.obligations, Fulfilled))
  }

  lemma ResultKeyTells(results: seq<ObligationResult>)
    requires forall o | o in results :: o.satisfied
    ensures KeyTells(results, ResultKey)
  {
    forall i, j | 0 <= i < |results| && 0 <= j < |results| && ResultKey(results[i]) == ResultKey(results[j])
      ensures results[i] == results[j]
    {
      var a, b := results[i], results[j];
      assert a in results && b in results;
      StringCode(a.kind, b.kind, EncodeText(a.value), EncodeText(b.value));
      TextCodeInjective(a.value, b.value);
    }
  }

  /** In canonical order there is one way to report every obligation as satisfied. */
  lemma SatisfiesExactly(results: seq<ObligationResult>, d: Decision)
    ensures Satisfies(results, d) <==> SortBy(results, ResultKey) == SortBy(Map(d.obligations, Fulfilled), ResultKey)
  {
    hide ResultKey, SortBy;
    var owed := Map(d.obligations, Fulfilled);
    ResultKeyTells(owed);
    if Satisfies(results, d) { SortForgetsOrder(owed, results, ResultKey); }
  }

  lemma PermitOwesTwo(r: Request, p: Policy)
    requires Evaluate(r, p).effect == "permit"
    ensures
      var kind := if ClassOf(r) == 0 then "read_only" else "isolated_local_only";
      Evaluate(r, p).obligations ==
        [Obligation("audit_receipt", Lit("append_after_action")), Obligation(kind, Lit("required"))]
  {
    hide Derive, MandatoryDeny, EnvironmentUnknown, Validate, ApprovalEffect, Request.Digest, Policy.Digest, ClassName;
    ApprovalNeverPermits(r, p);
  }

  lemma PairMet(results: seq<ObligationResult>, a: ObligationResult, b: ObligationResult)
    requires multiset(results) == multiset([a, b]) && a.kind != b.kind
    ensures Met(results) == {(a.kind, a.value), (b.kind, b.value)} && |Met(results)| == |results|
    ensures forall o | o in results :: o in {a, b}
  {
    Reordered(results, [a, b]);
    assert a in [a, b] && b in [a, b];
    forall o | o in results ensures o in {a, b} { assert o in [a, b]; }
  }

  lemma SatisfiedResults(results: seq<ObligationResult>, r: Request, p: Policy)
    requires Evaluate(r, p).effect == "permit" && Satisfies(results, Evaluate(r, p))
    ensures Met(results) == Owed(Evaluate(r, p)) && |Met(results)| == |results|
    ensures forall o | o in results :: o.satisfied && ValidText(o.value)
  {
    hide Evaluate, Derive;
    PermitOwesTwo(r, p);
    var os := Evaluate(r, p).obligations;
    var a, b := ObligationResult(os[0].kind, os[0].value, true), ObligationResult(os[1].kind, os[1].value, true);
    assert Map(os, Fulfilled) == [a, b];
    PairMet(results, a, b);
    forall o | o in os ensures o in {os[0], os[1]} {}
    assert os[0] in os && os[1] in os;
  }

  /** A permit can be used at any moment of its window: with exactly its obligations satisfied
      and a completion no earlier than the start, the receipt is accepted. */
  lemma PermitIsUsable(
    receiptId: Text, r: Request, p: Policy, executorId: Text, startedAt: real, completedAt: real, outcome: Word,
    results: seq<ObligationResult>, resultDigest: Option<Text>)
    requires r.environment.evaluatedAt >= 0.0 && p.ttl > 0.0 && Evaluate(r, p).effect == "permit"
    requires Evaluate(r, p).issuedAt <= startedAt < Evaluate(r, p).expiresAt && startedAt <= completedAt
    requires ValidTexts([receiptId, executorId]) && outcome in OUTCOMES
    requires resultDigest.Some? ==> IsDigest(resultDigest.value)
    requires Satisfies(results, Evaluate(r, p))
    ensures
      var d := Evaluate(r, p);
      Record(receiptId, d, r, executorId, startedAt, completedAt, outcome, results, resultDigest).Ok?
  {
    hide Evaluate, Enforced, Met, Owed, Decision.ToJson, Receipt.ToJson, Satisfies, Request.ToJson, Policy.ToJson, ValidTexts, ValidText;
    ExpiryFollowsIssue(r, p);
    SatisfiedResults(results, r, p);
    DecisionBinds(r, p);
  }

  /** The receipt of a permit used in its window, with everything owed reported as satisfied. */
  lemma PermitReceipt(
    receiptId: Text, r: Request, p: Policy, executorId: Text, startedAt: real, completedAt: real, outcome: Word,
    resultDigest: Option<Text>)
    requires r.environment.evaluatedAt >= 0.0 && p.ttl > 0.0 && Evaluate(r, p).effect == "permit"
    requires Evaluate(r, p).issuedAt <= startedAt < Evaluate(r, p).expiresAt && startedAt <= completedAt
    requires ValidTexts([receiptId, executorId]) && outcome in OUTCOMES
    requires resultDigest.Some? ==> IsDigest(resultDigest.value)
    ensures
      var d := Evaluate(r, p);
      Record(receiptId, d, r, executorId, startedAt, completedAt, outcome, Map(d.obligations, Fulfilled), resultDigest)
        == Ok(Receipt(receiptId, d.Digest(), r.Digest(), Enforced(r), executorId, startedAt, completedAt, outcome,
                      Map(d.obligations, Fulfilled), resultDigest))
  {
    hide Evaluate, Enforced, Met, Owed, Decision.ToJson, Request.ToJson, Policy.ToJson, ValidTexts, Receipt.Valid;
    PermitIsUsable(receiptId, r, p, executorId, startedAt, completedAt, outcome, Map(Evaluate(r, p).obligations, Fulfilled),
                   resultDigest);
  }

  /** A decision names the request and the policy it was made for. */
  lemma DecisionBinds(r: Request, p: Policy)
    ensures
      var d := Evaluate(r, p);
      && d.requestId == r.id && d.requestDigest == r.Digest() && d.derived == ClassOf(r)
      && d.bundleId == p.bundleId && d.policyVersion == p.version && d.policyDigest == p.Digest()
      && d.issuedAt == r.environment.evaluatedAt && d.effect in EFFECTS
  {
    hide Derive, MandatoryDeny, EnvironmentUnknown, Validate, ApprovalEffect, Request.Digest, Policy.Digest, ClassName;
    ApprovalNeverPermits(r, p);
  }
}
