/** What receipts are evidence of: when one may be made, and that its digest leaves nothing open. */
module ReceiptLaws {
  import opened Prelude
  import opened Canon
  import opened Sequences
  import opened Authorization
  import opened Evaluator
  import opened EvaluatorLaws
  import opened Receipts
  import opened Admission
  import opened AdmissionInspection
  import opened RunRecords
  import opened EnforcingDecisions
  import opened DispatchBoundary
  import opened PublicationBoundary
  import opened PublicationReceipts

  // ---- Recording an action.

  predicate Reports(o: ObligationResult, owed: Obligation) { o.kind == owed.kind && o.value == owed.value }

  /** No two of the results are about the same thing. */
  predicate Once(results: seq<ObligationResult>) {
    forall i, j | 0 <= i < j < |results| :: results[i].kind != results[j].kind || results[i].value != results[j].value
  }

  /** Every obligation was met, each is reported once, and nothing else is. */
  predicate Discharged(results: seq<ObligationResult>, obligations: seq<Obligation>) {
    && (forall owed | owed in obligations :: exists o :: o in results && Reports(o, owed))
    && (forall o | o in results :: o.satisfied && exists owed :: owed in obligations && Reports(o, owed))
    && Once(results)
  }

  predicate BoundedText(t: Text) { t.Lit? ==> 1 <= |t.s| <= 4096 }

  lemma {:induction false} MetOnce(results: seq<ObligationResult>)
    ensures |Met(results)| == |results| <==> Once(results)
    ensures |Met(results)| <= |results|
  {
    hide Once;
    if results != [] {
      var n := |results| - 1;
      var init, last := results[..n], results[n];
      MetOnce(init);
      assert results == init + [last];
      assert Met(results) == Met(init) + {(last.kind, last.value)};
      OnceMore(init, last);
    } else {
      assert Once(results) by { NothingTwice(results); }
    }
  }

  lemma NothingTwice(results: seq<ObligationResult>)
    requires results == []
    ensures Once(results)
  {
  }

  lemma OnceMore(init: seq<ObligationResult>, last: ObligationResult)
    ensures Once(init + [last]) <==> Once(init) && (last.kind, last.value) !in Met(init)
  {
    var results := init + [last];
    if (last.kind, last.value) in Met(init) {
      var o :| o in init && o.kind == last.kind && o.value == last.value;
      var i :| 0 <= i < |init| && init[i] == o;
      assert results[i] == o && results[|init|] == last;
    }
    if Once(results) {
      forall i, j | 0 <= i < j < |init| ensures init[i].kind != init[j].kind || init[i].value != init[j].value {
        assert results[i] == init[i] && results[j] == init[j];
      }
    }
    if (last.kind, last.value) !in Met(init) {
      forall i | 0 <= i < |init| ensures init[i].kind != last.kind || init[i].value != last.value {
        assert init[i] in init;
      }
    }
  }

  lemma MetIsOwed(results: seq<ObligationResult>, d: Decision)
    requires forall o | o in results :: o.satisfied
    ensures Met(results) == Owed(d) <==>
      && (forall owed | owed in d.obligations :: exists o :: o in results && Reports(o, owed))
      && (forall o | o in results :: exists owed :: owed in d.obligations && Reports(o, owed))
  {
    if Met(results) == Owed(d) {
      forall owed | owed in d.obligations ensures exists o :: o in results && Reports(o, owed) {
        assert (owed.kind, owed.value) in Met(results);
      }
      forall o | o in results ensures exists owed :: owed in d.obligations && Reports(o, owed) {
        assert (o.kind, o.value) in Owed(d);
      }
    }
  }

  /** An action goes on record exactly for a permit of this very request, started in its window and
      not completed before, with the permit's obligations discharged and nothing malformed. */
  lemma RecordExactly(
    receiptId: Text, d: Decision, r: Request, executorId: Text, startedAt: real, completedAt: real, outcome: Word,
    results: seq<ObligationResult>, resultDigest: Option<Text>)
    ensures
      Record(receiptId, d, r, executorId, startedAt, completedAt, outcome, results, resultDigest).Ok? <==>
        && d.effect == "permit" && d.requestDigest == r.Digest()
        && d.issuedAt <= startedAt < d.expiresAt && 0.0 <= startedAt <= completedAt
        && Discharged(results, d.obligations)
        && outcome in {"succeeded", "failed", "unknown", "cancelled"}
        && BoundedText(receiptId) && BoundedText(executorId) && (forall o | o in results :: BoundedText(o.value))
        && (resultDigest.Some? ==> IsDigest(resultDigest.value))
  {
    hide Met, Owed, Enforced, Decision.ToJson, Request.ToJson, Discharged, ValidTexts, ValidText, BoundedText;
    DischargedExactly(results, d);
    RequestDigestIsDigest(r);
    TextsAreBounded(receiptId, executorId, results);
  }

  lemma DischargedExactly(results: seq<ObligationResult>, d: Decision)
    ensures |Met(results)| == |results| && Met(results) == Owed(d) && (forall o | o in results :: o.satisfied)
      <==> Discharged(results, d.obligations)
  {
    hide Met, Owed, Reports, Once;
    MetOnce(results);
    if forall o | o in results :: o.satisfied { MetIsOwed(results, d); }
  }

  lemma TextsAreBounded(a: Text, b: Text, results: seq<ObligationResult>)
    ensures ValidTexts([a, b]) <==> BoundedText(a) && BoundedText(b)
    ensures forall o | o in results :: ValidText(o.value) <==> BoundedText(o.value)
  {
    assert a in [a, b] && b in [a, b];
  }

  lemma RequestDigestIsDigest(r: Request)
    ensures IsDigest(r.Digest())
  {
  }

  // ---- Digests.

  lemma OptionalsTell(a: Option<Text>, b: Option<Text>)
    ensures Optional(a) == Optional(b) <==> a == b
  {
  }

  lemma OptionalFieldsTell(
    w: Option<Word>, v: Option<Word>, p: Option<bool>, q: Option<bool>, x: Option<real>, y: Option<real>)
    ensures OptionalWord(w) == OptionalWord(v) <==> w == v
    ensures OptionalBool(p) == OptionalBool(q) <==> p == q
    ensures OptionalNum(x) == OptionalNum(y) <==> x == y
  {
  }

  lemma WordListsTell(a: seq<Word>, b: seq<Word>)
    requires WordList(a) == WordList(b)
    ensures a == b
  {
    var x, y := WordList(a).items, WordList(b).items;
    forall i | 0 <= i < |a| ensures a[i] == b[i] { assert x[i] == y[i]; }
  }

  /** One digest of an announcement means one announcement. */
  lemma AnnouncementDigestBinds(a: PreEffect, b: PreEffect)
    requires a.OwnDigest() == b.OwnDigest()
    ensures a.(receiptDigest := b.receiptDigest) == b
  {
    hide Optional;
    OptionalsTell(a.shadowDecision, b.shadowDecision);
    OptionalsTell(a.shadowRequest, b.shadowRequest);
  }

  lemma ResultsTell(a: seq<ObligationResult>, b: seq<ObligationResult>)
    requires |a| == |b| && forall i | 0 <= i < |a| :: a[i].ToJson() == b[i].ToJson()
    ensures a == b
  {
    forall i | 0 <= i < |a| ensures a[i] == b[i] {}
  }

  /** One document of an enforcement receipt means one receipt, but for the order of its results. */
  lemma EnforcementBinds(a: Receipt, b: Receipt)
    requires a.ToJson() == b.ToJson()
    ensures Ordered(a) == Ordered(b)
  {
    hide SortBy, Optional, ObligationResult.ToJson;
    OptionalsTell(a.resultDigest, b.resultDigest);
    var x, y := SortBy(a.results, ResultKey), SortBy(b.results, ResultKey);
    assert a.ToJson().values[4] == b.ToJson().values[4];
    var u, v := seq(|x|, i requires 0 <= i < |x| => x[i].ToJson()), seq(|y|, i requires 0 <= i < |y| => y[i].ToJson());
    assert u == v;
    forall i | 0 <= i < |x| ensures x[i].ToJson() == y[i].ToJson() { assert u[i] == v[i]; }
    ResultsTell(x, y);
  }

  function Projections(results: seq<Projected>): seq<Json> {
    seq(|results|, i requires 0 <= i < |results| => results[i].ToJson())
  }

  lemma ProjectionsTell(a: seq<Projected>, b: seq<Projected>)
    requires Projections(a) == Projections(b)
    ensures a == b
  {
    var u, v := Projections(a), Projections(b);
    forall i | 0 <= i < |a| ensures a[i] == b[i] { assert u[i] == v[i]; }
  }

  /** One digest of an action means one action. */
  lemma ActionDigestBinds(a: ActionReceipt, b: ActionReceipt)
    requires a.OwnDigest() == b.OwnDigest()
    ensures SameAction(a.(receiptDigest := b.receiptDigest), b)
  {
    hide Optional, OptionalNum, OptionalWord, OptionalBool, Receipt.ToJson, Projected.ToJson, Ordered;
    OptionalsTell(a.shadowDecision, b.shadowDecision);
    OptionalsTell(a.shadowRequest, b.shadowRequest);
    OptionalsTell(a.resultDigest, b.resultDigest);
    var x := if a.observedSize.Some? then Some(a.observedSize.value as real) else None;
    var y := if b.observedSize.Some? then Some(b.observedSize.value as real) else None;
    OptionalFieldsTell(a.failureCode, b.failureCode, None, None, x, y);
    EnforcementBinds(a.enforcement, b.enforcement);
    assert a.OwnDigest().of.values[15].items == Projections(a.results);
    assert b.OwnDigest().of.values[15].items == Projections(b.results);
    ProjectionsTell(a.results, b.results);
  }

  /** One digest of a billing assessment means one assessment. */
  lemma AssessmentDigestBinds(a: Assessment, b: Assessment)
    requires a.Digest() == b.Digest()
    ensures a == b
  {
    hide Optional;
    OptionalsTell(a.subscription, b.subscription);
  }

  /** One digest of an accounting means one accounting. */
  lemma AccountingDigestBinds(a: Accounting, b: Accounting)
    requires a.Digest() == b.Digest()
    ensures a == b
  {
    hide Optional, OptionalNum, OptionalWord, OptionalBool, WordList, Accounting.Disposition;
    OptionalsTell(a.runnerVersion, b.runnerVersion);
    OptionalFieldsTell(a.mode, b.mode, a.processStarted, b.processStarted, a.wallSeconds, b.wallSeconds);
    OptionalFieldsTell(a.failureCode, b.failureCode, a.liveModel, b.liveModel, None, None);
    OptionalFieldsTell(None, None, a.capacityConsumed, b.capacityConsumed, None, None);
    WordListsTell(a.reasons, b.reasons);
  }

  /** One digest of a billing disposition means one disposition. */
  lemma DispositionBinds(a: Accounting, b: Accounting)
    requires a.Disposition() == b.Disposition()
    ensures a.billingMatches == b.billingMatches && a.capacity == b.capacity && a.circuitBreaker == b.circuitBreaker
    ensures a.identityMatches == b.identityMatches && a.aiCharge == b.aiCharge && a.paidCapacity == b.paidCapacity
    ensures a.quarantine == b.quarantine && a.reasons == b.reasons
  {
    hide WordList;
    WordListsTell(a.reasons, b.reasons);
  }

  /** One digest of a row of artifact metadata means one artifact, at one place, of one run. */
  lemma MetadataDigestBinds(a: Metadata, b: Metadata)
    requires a.Digest() == b.Digest()
    ensures a.(createdAt := b.createdAt, sound := b.sound, local := b.local) == b
  {
  }

  // ---- Announcing and acting.

  /** What may be said of an outcome: the artifact itself and its size of a success, and of anything
      else no more than why. */
  datatype Said = Said(outcome: Word, result: Option<Text>, size: Option<int>, failure: Option<Word>)

  function Sayable(artifact: Text, size: int): set<Said> {
    {Said("succeeded", Some(artifact), Some(size), None),
     Said("failed", None, None, Some("artifact_persistence_failed")),
     Said("cancelled", None, None, Some("artifact_persistence_interrupted")),
     Said("unknown", None, None, Some("artifact_publication_outcome_unknown"))}
  }

  lemma OutcomesAreSayable(
    outcome: Word, artifact: Text, size: int, result: Option<Text>, observed: Option<int>, failure: Option<Word>)
    ensures OutcomeFits(outcome, artifact, size, result, observed, failure)
      <==> Said(outcome, result, observed, failure) in Sayable(artifact, size)
  {
  }

  /** The controller announces exactly what it was permitted to publish. */
  lemma AnnouncementBuilds(x: Candidate, now: real, eventId: Text, shadow: Shadowed, startedAt: real)
    requires x.Accepted(now)
    ensures
      var doc := Publishing(x, now).doc;
      BuildPreEffect(x, doc, eventId, shadow, startedAt) ==
        if doc.eligible && IsDigest(eventId) && 0.0 <= startedAt then Ok(Announcement(x, doc, eventId, shadow, startedAt))
        else Raised(ValidationError)
  {
    hide Publishing, Announcement, Entry, Decision.ToJson, Request.ToJson, Evaluate, PublicationPolicy, PublicationWrapperOf,
         PublicationParameters, Candidate.Accepted;
    var a := Publishing(x, now);
    if a.doc.eligible {
      PublicationDocument(x, now);
      DecisionEntries(a.decision);
      DecisionBinds(a.request, a.policy);
    }
  }

  /** And it puts an action on record exactly within the window of that permit, in order, and with
      an outcome that may be said. */
  lemma ActionBuildsExactly(
    x: Candidate, now: real, pre: PreEffect, effectStartedAt: real, completedAt: real, outcome: Word,
    result: Option<Text>, observed: Option<int>, failure: Option<Word>)
    requires x.Accepted(now) && x.attempt.requestClass == x.attempt.contractClass
    requires outcome in {"succeeded", "failed", "unknown", "cancelled"} && (result.Some? ==> IsDigest(result.value))
    ensures
      var permit := Publishing(x, now);
      BuildAction(x, permit, pre, effectStartedAt, completedAt, outcome, result, observed, failure).Ok? <==>
        && permit.doc.eligible && permit.decision.issuedAt <= effectStartedAt < permit.decision.expiresAt
        && pre.startedAt <= effectStartedAt <= completedAt
        && Said(outcome, result, observed, failure) in Sayable(x.artifact, x.size)
  {
    hide Publishing, BuildAction, ControllerAction, OutcomeFits, Candidate.Accepted, Sayable;
    ActionBuilds(x, now, pre, effectStartedAt, completedAt, outcome, result, observed, failure);
    OutcomesAreSayable(outcome, x.artifact, x.size, result, observed, failure);
  }
}
