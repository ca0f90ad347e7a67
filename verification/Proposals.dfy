/** What every enforcement point proposes to the evaluator: a request of its own scope, with one
    freshly bound record for each attribute, under the evidence rules of the current stage. */
module Proposals {
  import opened Prelude
  import opened Canon
  import opened Sequences
  import opened Authorization
  import opened Evaluator
  import opened EvaluatorLaws
  import opened CanonicalParsing

  const EVIDENCE_LIFETIME := 120.0

  function ExpectedSource(attribute: Word): Word {
    if attribute in {"subject", "environment"} then "controller" else "local_registry"
  }

  /** `AttributeEvidence.bind`, as the controller calls it. */
  function Bind(scope: string, r: Request, attribute: Word): Evidence {
    var now := r.environment.evaluatedAt;
    Evidence(Lit(scope + ":" + attribute), Lit(attribute), Digest(r.Attribute(attribute)), ExpectedSource(attribute),
             Lit("ordomata:" + ExpectedSource(attribute)), now, now + EVIDENCE_LIFETIME, true)
  }

  /** The request with its records. */
  function Proposed(scope: string, bare: Request): Request {
    bare.(evidence := [Bind(scope, bare, "subject"), Bind(scope, bare, "action"), Bind(scope, bare, "resource"),
                       Bind(scope, bare, "environment"), Bind(scope, bare, "consequences")])
  }

  /** `PolicyBundle.current_stage`, its evidence requirements */
  function StageEvidence(): seq<EvidenceRequirement> {
    [EvidenceRequirement("subject", ["controller"], 300.0),
     EvidenceRequirement("action", ["controller", "local_registry"], 300.0),
     EvidenceRequirement("resource", ["controller", "local_registry"], 300.0),
     EvidenceRequirement("environment", ["controller", "verified_attestation"], 300.0),
     EvidenceRequirement("consequences", ["controller", "local_registry"], 300.0)]
  }

  /** One record for each attribute, from its own source, of this moment. */
  predicate EvidenceBound(scope: string, r: Request) {
    && |r.evidence| == |ATTRIBUTES|
    && (forall a | a in ATTRIBUTES :: exists e | e in r.evidence :: e.attribute == Lit(a))
    && forall e | e in r.evidence :: exists a | a in ATTRIBUTES :: e.attribute == Lit(a) && e == Bind(scope, r, a)
  }

  // ---- Attributes do not see the records.

  lemma AttributeByParts(r: Request, evidence: seq<Evidence>, a: Word)
    ensures r.(evidence := evidence).Attribute(a) == r.Attribute(a)
  {
    hide Subject.ToJson, Action.ToJson, Resource.ToJson, Environment.ToJson, Consequences.ToJson;
  }

  lemma BindIgnoresEvidence(scope: string, r: Request, evidence: seq<Evidence>, a: Word)
    ensures Bind(scope, r.(evidence := evidence), a) == Bind(scope, r, a)
  {
    hide Request.Attribute;
    AttributeByParts(r, evidence, a);
  }

  lemma ProposedSame(scope: string, bare: Request)
    ensures
      var r := Proposed(scope, bare);
      && r == bare.(evidence := r.evidence) && r.environment == bare.environment && ClassOf(r) == ClassOf(bare)
      && forall a :: r.Attribute(a) == bare.Attribute(a)
  {
    hide Bind, Derive;
    var r := Proposed(scope, bare);
    forall a ensures r.Attribute(a) == bare.Attribute(a) { AttributeByParts(bare, r.evidence, a); }
  }

  // ---- The records validate.

  lemma ProposedRecords(scope: string, bare: Request)
    ensures
      var ev := Proposed(scope, bare).evidence;
      && |ev| == 5 && (forall a | a in ATTRIBUTES :: Bind(scope, bare, a) in ev)
      && forall e | e in ev :: exists a | a in ATTRIBUTES :: e == Bind(scope, bare, a)
  {
    hide Bind;
    var ev := Proposed(scope, bare).evidence;
    assert ev[0] in ev && ev[1] in ev && ev[2] in ev && ev[3] in ev && ev[4] in ev;
  }

  lemma ProposedLast(scope: string, bare: Request, e: Evidence)
    requires e in Proposed(scope, bare).evidence
    ensures e.expiresAt == bare.environment.evaluatedAt + EVIDENCE_LIFETIME
  {
    hide Request.Attribute, Proposed;
    ProposedRecords(scope, bare);
  }

  lemma BoundAttribute(scope: string, r: Request, a: Word)
    ensures Bind(scope, r, a).attribute == Lit(a)
  {
  }

  lemma FiveAttributes()
    ensures |ATTRIBUTES| == 5
  {
    assert "subject" != "action" && "resource" !in {"subject", "action"};
    assert ATTRIBUTES == {"subject"} + {"action"} + {"resource"} + {"environment"} + {"consequences"};
  }

  lemma ProposedIds(scope: string, bare: Request)
    ensures Distinct(Ids(Proposed(scope, bare).evidence))
  {
    hide Request.Attribute;
    var ids := Ids(Proposed(scope, bare).evidence);
    assert forall a | a in ATTRIBUTES :: |(scope + ":" + a)| == |scope| + 1 + |a|;
    assert |"subject"| == 7 && |"action"| == 6 && |"resource"| == 8 && |"environment"| == 11 && |"consequences"| == 12;
    forall i, j | 0 <= i < j < 5 ensures ids[i] != ids[j] {
      assert ids[i].s != ids[j].s by { assert |ids[i].s| != |ids[j].s|; }
    }
  }

  lemma ProposedTrusts(scope: string, bare: Request, q: EvidenceRequirement, e: Evidence)
    requires e in Proposed(scope, bare).evidence && About(q, e)
    ensures e == Bind(scope, bare, q.attribute)
  {
  }

  lemma ProposedBacked(scope: string, bare: Request, q: EvidenceRequirement)
    requires q in StageEvidence()
    ensures Backed(q, Proposed(scope, bare))
  {
    hide Request.Attribute;
    var r, e := Proposed(scope, bare), Bind(scope, bare, q.attribute);
    assert e in r.evidence && Trusts(q, e);
    ProposedSame(scope, bare);
    forall f | f in r.evidence && Trusts(q, f) ensures f == e { ProposedTrusts(scope, bare, q, f); }
  }

  lemma ProposedValidates(scope: string, bare: Request, p: Policy)
    requires p.evidenceRequirements == StageEvidence()
    ensures Validate(Proposed(scope, bare), p).valid
  {
    hide Proposed, StageEvidence, Backed, Validate;
    ProposedIds(scope, bare);
    forall q | q in p.evidenceRequirements ensures Backed(q, Proposed(scope, bare)) { ProposedBacked(scope, bare, q); }
    ValidExactly(Proposed(scope, bare), p);
  }

  /** A proposal without grants is permitted exactly when the gates of its policy are open and no
      approval is called for. */
  lemma ProposedPermits(scope: string, bare: Request, p: Policy)
    requires p.evidenceRequirements == StageEvidence() && bare.environment.grants == []
    requires p.issuedAt <= bare.environment.evaluatedAt
    ensures Evaluate(Proposed(scope, bare), p).effect == "permit" <==>
      GatesOpen(Proposed(scope, bare), p)
      && forall q | q in p.approvalRequirements :: !q.Matches(Proposed(scope, bare), ClassOf(bare))
  {
    hide Evaluate, Derive, Validate, GatesOpen, Backed, Bind, StageEvidence, ApprovalRequirement.Matches, Misbound;
    var r := Proposed(scope, bare);
    ProposedSame(scope, bare);
    ProposedValidates(scope, bare, p);
    ValidExactly(r, p);
    PermitExactly(r, p);
    forall q ensures !Approved(q, r, p) {}
  }

  // ---- The proposal can be persisted and read back.

  /** What the constructors of the request's parts check. */
  predicate PartsValid(r: Request) {
    && ValidText(r.id) && r.subject.Valid() && r.action.Valid() && r.resource.Valid() && r.environment.Valid()
    && r.consequences.Valid() && r.action.claims == [] && r.environment.grants == []
  }

  lemma BoundValid(scope: string, r: Request, a: Word)
    requires a in ATTRIBUTES && r.environment.evaluatedAt >= 0.0 && |scope| <= 200
    ensures Bind(scope, r, a).Valid()
  {
    hide Request.Attribute;
    assert |scope + ":" + a| == |scope| + 1 + |a| && |"ordomata:" + ExpectedSource(a)| == 9 + |ExpectedSource(a)|;
  }

  lemma ProposedReadable(scope: string, bare: Request)
    requires PartsValid(bare) && |scope| <= 200
    ensures Readable(Proposed(scope, bare))
  {
    hide Subject.Valid, Action.Valid, Resource.Valid, Consequences.Valid, Evidence.Valid, Bind, ValidText;
    forall a | a in ATTRIBUTES ensures Bind(scope, bare, a).Valid() { BoundValid(scope, bare, a); }
  }

  /** Five records that are each bound to an attribute of the request, in any order. */
  lemma BoundRecordsProject(scope: string, r: Request, bare: Request)
    requires |r.evidence| == 5 && r == bare.(evidence := r.evidence)
    requires forall a | a in ATTRIBUTES :: Bind(scope, bare, a) in r.evidence
    requires forall e | e in r.evidence :: exists a | a in ATTRIBUTES :: e == Bind(scope, bare, a)
    ensures EvidenceBound(scope, r)
  {
    hide Bind;
    FiveAttributes();
    forall a | a in ATTRIBUTES ensures Bind(scope, r, a) == Bind(scope, bare, a) && Bind(scope, bare, a).attribute == Lit(a) {
      BoundAttribute(scope, bare, a);
      BindIgnoresEvidence(scope, bare, r.evidence, a);
    }
    forall a | a in ATTRIBUTES ensures exists e | e in r.evidence :: e.attribute == Lit(a) {
      assert Bind(scope, bare, a) in r.evidence;
    }
  }

  /** Read back, the proposal is the bare request with its records in canonical order. */
  lemma ProposedReadsBack(scope: string, bare: Request)
    ensures
      var n := NormalRequest(Proposed(scope, bare));
      n == bare.(evidence := n.evidence) && EvidenceBound(scope, n)
  {
    hide Bind, SortBy, EvidenceBound;
    var r := Proposed(scope, bare);
    Reordered(NormalRequest(r).evidence, r.evidence);
    ProposedRecords(scope, bare);
    BoundRecordsProject(scope, NormalRequest(r), bare);
  }
}
