/** Reading persisted canonical documents back into typed requests and policies. */
module CanonicalParsing {
  import opened Prelude
  import opened Canon
  import opened Sequences
  import opened Authorization
  import opened Evaluator
  import opened EvaluatorLaws

  const MAX_EVIDENCE_RECORDS := 32

  predicate IsObject(j: Json, shape: nat, size: nat) { j.Obj? && j.shape == shape && |j.values| == size }
  predicate IsWord(j: Json) { j.Str? && j.t.Lit? }
  predicate IsOptional(j: Json) { j.Null? || j.Str? }
  function OptionalOf(j: Json): Option<Text>
    requires IsOptional(j)
  {
    if j.Str? then Some(j.t) else None
  }

  /** Every item read, or nothing. */
  function ReadAll<T>(items: seq<Json>, read: Json -> Option<T>): (r: Option<seq<T>>)
    ensures r.Some? ==> |r.value| == |items|
  {
    if items == [] then Some([])
    else
      var first, rest := read(items[0]), ReadAll(items[1..], read);
      if first.Some? && rest.Some? then Some([first.value] + rest.value) else None
  }

  lemma {:induction false} ReadAllBack<T>(s: seq<T>, items: seq<Json>, read: Json -> Option<T>)
    requires |items| == |s| && forall i | 0 <= i < |s| :: read(items[i]) == Some(s[i])
    ensures ReadAll(items, read) == Some(s)
  {
    if s != [] {
      ReadAllBack(s[1..], items[1..], read);
      assert s == [s[0]] + s[1..];
    }
  }

  function ReadList<T>(j: Json, read: Json -> Option<T>): Option<seq<T>> {
    if j.Arr? then ReadAll(j.items, read) else None
  }

  function ReadWord(j: Json): Option<Word> { if IsWord(j) then Some(j.t.s) else None }
  function ReadText(j: Json): Option<Text> { if j.Str? then Some(j.t) else None }
  function ReadClass(j: Json): Option<Class> {
    if j == Num(0.0) then Some(0) else if j == Num(1.0) then Some(1) else if j == Num(2.0) then Some(2)
    else if j == Num(3.0) then Some(3) else None
  }

  // ---- Requests.

  function ReadSubject(j: Json): Option<Subject> {
    if IsObject(j, SUBJECT, 7) && (forall i | 0 <= i < 6 :: j.values[i].Str?) && IsWord(j.values[3])
       && IsOptional(j.values[6]) then
      var v := j.values;
      Some(Subject(v[1].t, v[0].t, v[3].t.s, v[4].t, v[2].t, v[5].t, OptionalOf(v[6])))
    else None
  }

  function ReadAction(j: Json): Option<Action> {
    if IsObject(j, ACTION, 6) && j.values[0] == Arr([]) && (forall i | 1 <= i < 4 :: j.values[i].Str?)
       && IsOptional(j.values[4]) && IsWord(j.values[5]) then
      var v := j.values;
      Some(Action(v[5].t.s, v[2].t, v[3].t, v[1].t, OptionalOf(v[4]), []))
    else None
  }

  function ReadResource(j: Json): Option<Resource> {
    if IsObject(j, RESOURCE, 9) && IsOptional(j.values[0]) && j.values[1].Str? && j.values[2].Str? && j.values[3].Bool?
       && IsOptional(j.values[4]) && j.values[5].Str? && IsWord(j.values[6]) && j.values[7].Str? && j.values[8].Str? then
      var v := j.values;
      Some(Resource(v[5].t, v[1].t, v[8].t, v[2].t, v[7].t, v[3].b, v[6].t.s, OptionalOf(v[4]), OptionalOf(v[0])))
    else None
  }

  function ReadEnvironment(j: Json): Option<Environment> {
    if IsObject(j, ENVIRONMENT, 9) && j.values[0] == Arr([]) && IsWord(j.values[1]) && IsWord(j.values[2])
       && IsWord(j.values[3]) && j.values[4].Num? && j.values[5].Str? && IsWord(j.values[6]) && IsWord(j.values[7])
       && IsWord(j.values[8]) then
      var v := j.values;
      Some(Environment(v[4].n, v[6].t.s, v[7].t.s, v[1].t.s, v[2].t.s, v[8].t.s, v[3].t.s, v[5].t, []))
    else None
  }

  function ReadConsequences(j: Json): Option<Consequences> {
    if IsObject(j, CONSEQUENCES, 8) && IsWord(j.values[0]) && IsWord(j.values[1]) && IsWord(j.values[2])
       && j.values[3].Bool? && IsWord(j.values[4]) && IsWord(j.values[5]) && j.values[6].Bool? && IsWord(j.values[7]) then
      var v := j.values;
      Some(Consequences(v[2].t.s, v[4].t.s, v[0].t.s, v[5].t.s, v[3].b, v[6].b, v[7].t.s, v[1].t.s))
    else None
  }

  function ReadEvidence(j: Json): Option<Evidence> {
    if IsObject(j, EVIDENCE, 8) && j.values[0].Str? && j.values[1].Bool? && j.values[2].Str? && j.values[3].Num?
       && j.values[4].Num? && IsWord(j.values[5]) && j.values[6].Str? && j.values[7].Str? then
      var v := j.values;
      Some(Evidence(v[2].t, v[0].t, v[7].t, v[5].t.s, v[6].t, v[4].n, v[3].n, v[1].b))
    else None
  }

  predicate IsRequestShape(j: Json) {
    IsObject(j, REQUEST, 7) && j.values[3].Arr? && |j.values[3].items| <= MAX_EVIDENCE_RECORDS && j.values[4].Str?
  }

  /** The typed request a document describes, before it is checked. */
  function AssembleRequest(j: Json): Option<Request>
    requires IsRequestShape(j)
  {
    var v := j.values;
    var action, consequences, environment := ReadAction(v[0]), ReadConsequences(v[1]), ReadEnvironment(v[2]);
    var evidence, resource, subject := ReadList(v[3], ReadEvidence), ReadResource(v[5]), ReadSubject(v[6]);
    if action == None || consequences == None || environment == None || evidence == None || resource == None
       || subject == None then None
    else
      Some(Request(v[4].t, subject.value, action.value, resource.value, environment.value, consequences.value,
                   evidence.value))
  }

  /** `_mock_dispatch_request_from_mapping` */
  function ReadRequest(j: Json): Option<Request> {
    if !IsRequestShape(j) then None
    else
      var r := AssembleRequest(j);
      if r.Some? && r.value.Valid() && r.value.ToJson() == j then r else None
  }

  /** The request as its canonical form gives it back. */
  function NormalRequest(r: Request): Request {
    r.(evidence := SortBy(r.evidence, EvidenceKey))
  }

  /** The requests whose canonical form can be read back. */
  predicate Readable(r: Request) {
    r.Valid() && r.action.claims == [] && r.environment.grants == [] && |r.evidence| <= MAX_EVIDENCE_RECORDS
  }

  lemma SubjectBack(x: Subject)
    ensures ReadSubject(x.ToJson()) == Some(x)
  {
  }

  lemma ActionBack(x: Action)
    requires x.claims == []
    ensures ReadAction(x.ToJson()) == Some(x)
  {
  }

  lemma ResourceBack(x: Resource)
    ensures ReadResource(x.ToJson()) == Some(x)
  {
  }

  lemma EnvironmentBack(x: Environment)
    requires x.grants == []
    ensures ReadEnvironment(x.ToJson()) == Some(x)
  {
  }

  lemma ConsequencesBack(x: Consequences)
    ensures ReadConsequences(x.ToJson()) == Some(x)
  {
  }

  lemma EvidenceBack(e: Evidence)
    ensures ReadEvidence(e.ToJson()) == Some(e)
  {
  }

  lemma EvidenceListBack(evidence: seq<Evidence>)
    ensures ReadList(EvidenceList(evidence), ReadEvidence) == Some(SortBy(evidence, EvidenceKey))
  {
    var sorted := SortBy(evidence, EvidenceKey);
    forall i | 0 <= i < |sorted| ensures ReadEvidence(sorted[i].ToJson()) == Some(sorted[i]) { EvidenceBack(sorted[i]); }
    ReadAllBack(sorted, EvidenceList(evidence).items, ReadEvidence);
  }

  lemma NormalRequestSame(r: Request)
    ensures NormalRequest(r).ToJson() == r.ToJson() && multiset(NormalRequest(r).evidence) == multiset(r.evidence)
    ensures r.Valid() ==> NormalRequest(r).Valid()
  {
    SortTwice(r.evidence, EvidenceKey);
    Reordered(SortBy(r.evidence, EvidenceKey), r.evidence);
  }

  lemma Assembled(r: Request)
    requires Readable(r)
    ensures IsRequestShape(r.ToJson()) && AssembleRequest(r.ToJson()) == Some(NormalRequest(r))
  {
    hide Subject.ToJson, Action.ToJson, Resource.ToJson, Environment.ToJson, Consequences.ToJson, ReadSubject, ReadAction,
         ReadResource, ReadEnvironment, ReadConsequences, ReadEvidence, ReadList, Request.Valid, Insert, SortBy;
    SubjectBack(r.subject);
    ActionBack(r.action);
    ResourceBack(r.resource);
    EnvironmentBack(r.environment);
    ConsequencesBack(r.consequences);
    EvidenceListBack(r.evidence);
  }

  /** Round trip: the canonical form of a readable request reads back as that request with its
      evidence in order, and has the same canonical form again. */
  lemma RequestRoundTrip(r: Request)
    requires Readable(r)
    ensures ReadRequest(r.ToJson()) == Some(NormalRequest(r)) && NormalRequest(r).ToJson() == r.ToJson()
  {
    hide Request.ToJson, AssembleRequest, Request.Valid;
    Assembled(r);
    NormalRequestSame(r);
  }

  /** Nothing is accepted that is not canonical. */
  lemma ReadRequestIsCanonical(j: Json)
    requires ReadRequest(j).Some?
    ensures ReadRequest(j).value.ToJson() == j && Readable(ReadRequest(j).value)
    ensures NormalRequest(ReadRequest(j).value).ToJson() == j
  {
    hide Request.ToJson, Request.Valid;
    NormalRequestSame(ReadRequest(j).value);
  }

  // ---- Policies.

  function ReadEvidenceRequirement(j: Json): Option<EvidenceRequirement> {
    if IsObject(j, EVIDENCE_REQUIREMENT, 3) && IsWord(j.values[0]) && j.values[1].Num? then
      var trusted := ReadList(j.values[2], ReadWord);
      if trusted.Some? then Some(EvidenceRequirement(j.values[0].t.s, trusted.value, j.values[1].n)) else None
    else None
  }

  function ReadApprovalRequirement(j: Json): Option<ApprovalRequirement> {
    if IsObject(j, APPROVAL_REQUIREMENT, 7) && j.values[3].Bool? && IsWord(j.values[4]) then
      var v := j.values;
      var approvers, roles, classes := ReadList(v[0], ReadText), ReadList(v[1], ReadWord), ReadList(v[2], ReadClass);
      var resourceTypes, verbs := ReadList(v[5], ReadText), ReadList(v[6], ReadWord);
      if approvers.Some? && roles.Some? && classes.Some? && resourceTypes.Some? && verbs.Some? then
        Some(ApprovalRequirement(v[4].t.s, verbs.value, resourceTypes.value, classes.value, approvers.value, roles.value,
                                 v[3].b))
      else None
    else None
  }

  predicate IsPolicyShape(j: Json) {
    && IsObject(j, POLICY, 16) && j.values[9].Str? && j.values[10].Num? && j.values[13].Num?
    && j.values[14] == Num(1.0) && j.values[15].Str?
  }

  /** The typed policy a document describes, before it is checked. */
  function AssemblePolicy(j: Json): Option<Policy>
    requires IsPolicyShape(j)
  {
    var v := j.values;
    var routes, flowStates, networks := ReadList(v[0], ReadWord), ReadList(v[1], ReadText), ReadList(v[2], ReadWord);
    var operations, resourceTypes, roles := ReadList(v[3], ReadText), ReadList(v[4], ReadText), ReadList(v[5], ReadWord);
    var boundaries, verbs := ReadList(v[6], ReadText), ReadList(v[7], ReadWord);
    var approvals, classes := ReadList(v[8], ReadApprovalRequirement), ReadList(v[11], ReadClass);
    var evidence := ReadList(v[12], ReadEvidenceRequirement);
    if routes.Some? && flowStates.Some? && networks.Some? && operations.Some? && resourceTypes.Some? && roles.Some?
       && boundaries.Some? && verbs.Some? && approvals.Some? && classes.Some? && evidence.Some? then
      Some(Policy(v[9].t, v[15].t, v[13].n, evidence.value, classes.value, verbs.value, roles.value, operations.value,
                  resourceTypes.value, boundaries.value, flowStates.value, networks.value, routes.value,
                  approvals.value, v[10].n))
    else None
  }

  /** `_mock_dispatch_policy_from_mapping` */
  function ReadPolicy(j: Json): Option<Policy> {
    if !IsPolicyShape(j) then None
    else
      var p := AssemblePolicy(j);
      if p.Some? && p.value.Valid() && p.value.ToJson() == j then p else None
  }

  function NormalEvidenceRequirement(q: EvidenceRequirement): EvidenceRequirement {
    q.(trusted := SortBy(q.trusted, WordKey))
  }

  function NormalApprovalRequirement(q: ApprovalRequirement): ApprovalRequirement {
    q.(verbs := SortBy(q.verbs, WordKey), resourceTypes := SortBy(q.resourceTypes, TextKey),
       classes := SortBy(q.classes, ClassKey), approvers := SortBy(q.approvers, TextKey),
       roles := SortBy(q.roles, WordKey))
  }

  /** The policy as its canonical form gives it back: every list in order. */
  function NormalPolicy(p: Policy): Policy {
    Policy(p.bundleId, p.version, p.issuedAt,
           NormalEvidenceRequirements(p.evidenceRequirements),
           SortBy(p.enabledClasses, ClassKey), SortBy(p.verbs, WordKey), SortBy(p.roles, WordKey),
           SortBy(p.operations, TextKey), SortBy(p.resourceTypes, TextKey), SortBy(p.trustBoundaries, TextKey),
           SortBy(p.flowStates, TextKey), SortBy(p.networks, WordKey), SortBy(p.routes, WordKey),
           NormalApprovalRequirements(p.approvalRequirements), p.ttl)
  }

  function NormalEvidenceRequirements(reqs: seq<EvidenceRequirement>): seq<EvidenceRequirement> {
    Map(SortBy(reqs, EvidenceRequirementKey), NormalEvidenceRequirement)
  }

  function NormalApprovalRequirements(reqs: seq<ApprovalRequirement>): seq<ApprovalRequirement> {
    Map(SortBy(reqs, ApprovalRequirementKey), NormalApprovalRequirement)
  }

  lemma WordsBack(ws: seq<Word>)
    ensures ReadList(WordList(ws), ReadWord) == Some(ws)
  {
    ReadAllBack(ws, WordList(ws).items, ReadWord);
  }

  lemma TextsBack(ts: seq<Text>)
    ensures ReadList(TextList(ts), ReadText) == Some(ts)
  {
    ReadAllBack(ts, TextList(ts).items, ReadText);
  }

  lemma ClassesBack(cs: seq<Class>)
    requires forall c | c in cs :: 0 <= c <= 3
    ensures ReadList(ClassList(cs), ReadClass) == Some(cs)
  {
    forall i | 0 <= i < |cs| ensures ReadClass(Num(cs[i] as real)) == Some(cs[i]) { assert cs[i] in cs; }
    ReadAllBack(cs, ClassList(cs).items, ReadClass);
  }

  lemma EvidenceRequirementBack(q: EvidenceRequirement)
    ensures ReadEvidenceRequirement(q.ToJson()) == Some(NormalEvidenceRequirement(q))
    ensures NormalEvidenceRequirement(q).ToJson() == q.ToJson()
  {
    hide ReadList, WordList, SortBy;
    WordsBack(SortBy(q.trusted, WordKey));
    SortTwice(q.trusted, WordKey);
  }

  lemma ApprovalRequirementBack(q: ApprovalRequirement)
    requires forall c | c in q.classes :: 0 <= c <= 3
    ensures ReadApprovalRequirement(q.ToJson()) == Some(NormalApprovalRequirement(q))
    ensures NormalApprovalRequirement(q).ToJson() == q.ToJson()
  {
    hide ReadList, WordList, TextList, ClassList, SortBy;
    Reordered(SortBy(q.classes, ClassKey), q.classes);
    WordsBack(SortBy(q.verbs, WordKey));
    TextsBack(SortBy(q.resourceTypes, TextKey));
    ClassesBack(SortBy(q.classes, ClassKey));
    TextsBack(SortBy(q.approvers, TextKey));
    WordsBack(SortBy(q.roles, WordKey));
    SortTwice(q.verbs, WordKey);
    SortTwice(q.resourceTypes, TextKey);
    SortTwice(q.classes, ClassKey);
    SortTwice(q.approvers, TextKey);
    SortTwice(q.roles, WordKey);
  }

  lemma NormalKeepsAttribute(q: EvidenceRequirement)
    ensures NormalEvidenceRequirement(q).attribute == q.attribute
  {
  }

  lemma EvidenceRequirementsBack(reqs: seq<EvidenceRequirement>)
    ensures ReadList(EvidenceRequirementList(reqs), ReadEvidenceRequirement) == Some(NormalEvidenceRequirements(reqs))
  {
    hide ReadEvidenceRequirement, EvidenceRequirement.ToJson, NormalEvidenceRequirement, SortBy;
    var sorted, normal := SortBy(reqs, EvidenceRequirementKey), NormalEvidenceRequirements(reqs);
    forall i | 0 <= i < |sorted| ensures ReadEvidenceRequirement(sorted[i].ToJson()) == Some(normal[i]) {
      EvidenceRequirementBack(sorted[i]);
    }
    ReadAllBack(normal, EvidenceRequirementList(reqs).items, ReadEvidenceRequirement);
  }

  lemma EvidenceRequirementsSame(reqs: seq<EvidenceRequirement>)
    ensures EvidenceRequirementList(NormalEvidenceRequirements(reqs)) == EvidenceRequirementList(reqs)
  {
    hide EvidenceRequirement.ToJson, NormalEvidenceRequirement, SortBy;
    var sorted, normal := SortBy(reqs, EvidenceRequirementKey), NormalEvidenceRequirements(reqs);
    forall i | 0 <= i < |sorted| ensures normal[i].ToJson() == sorted[i].ToJson() && normal[i].attribute == sorted[i].attribute {
      EvidenceRequirementBack(sorted[i]);
      NormalKeepsAttribute(sorted[i]);
    }
    SortedIsFixed(normal, EvidenceRequirementKey);
  }

  lemma ApprovalRequirementsBack(reqs: seq<ApprovalRequirement>)
    requires forall q | q in reqs :: q.Valid()
    ensures ReadList(ApprovalRequirementList(reqs), ReadApprovalRequirement) == Some(NormalApprovalRequirements(reqs))
  {
    hide ReadApprovalRequirement, ApprovalRequirement.ToJson, NormalApprovalRequirement, SortBy;
    var sorted, normal := SortBy(reqs, ApprovalRequirementKey), NormalApprovalRequirements(reqs);
    Reordered(sorted, reqs);
    forall i | 0 <= i < |sorted| ensures ReadApprovalRequirement(sorted[i].ToJson()) == Some(normal[i]) {
      assert sorted[i] in sorted;
      ApprovalRequirementBack(sorted[i]);
    }
    ReadAllBack(normal, ApprovalRequirementList(reqs).items, ReadApprovalRequirement);
  }

  lemma ApprovalRequirementsSame(reqs: seq<ApprovalRequirement>)
    requires forall q | q in reqs :: q.Valid()
    ensures ApprovalRequirementList(NormalApprovalRequirements(reqs)) == ApprovalRequirementList(reqs)
  {
    hide ApprovalRequirement.ToJson, NormalApprovalRequirement, SortBy;
    var sorted, normal := SortBy(reqs, ApprovalRequirementKey), NormalApprovalRequirements(reqs);
    Reordered(sorted, reqs);
    forall i | 0 <= i < |sorted| ensures normal[i].ToJson() == sorted[i].ToJson() && normal[i].id == sorted[i].id {
      assert sorted[i] in sorted;
      ApprovalRequirementBack(sorted[i]);
      NormalKeepsId(sorted[i]);
    }
    SortedIsFixed(normal, ApprovalRequirementKey);
  }

  lemma NormalKeepsId(q: ApprovalRequirement)
    ensures NormalApprovalRequirement(q).id == q.id
  {
  }

  lemma PolicyAssembled(p: Policy)
    requires p.Valid()
    ensures IsPolicyShape(p.ToJson()) && AssemblePolicy(p.ToJson()) == Some(NormalPolicy(p))
  {
    hide ReadList, WordList, TextList, ClassList, SortBy, EvidenceRequirementList, ApprovalRequirementList,
         NormalEvidenceRequirements, NormalApprovalRequirements;
    Reordered(SortBy(p.enabledClasses, ClassKey), p.enabledClasses);
    WordsBack(SortBy(p.routes, WordKey));
    TextsBack(SortBy(p.flowStates, TextKey));
    WordsBack(SortBy(p.networks, WordKey));
    TextsBack(SortBy(p.operations, TextKey));
    TextsBack(SortBy(p.resourceTypes, TextKey));
    WordsBack(SortBy(p.roles, WordKey));
    TextsBack(SortBy(p.trustBoundaries, TextKey));
    WordsBack(SortBy(p.verbs, WordKey));
    ClassesBack(SortBy(p.enabledClasses, ClassKey));
    EvidenceRequirementsBack(p.evidenceRequirements);
    ApprovalRequirementsBack(p.approvalRequirements);
  }

  lemma NormalPolicySame(p: Policy)
    requires p.Valid()
    ensures NormalPolicy(p).ToJson() == p.ToJson()
  {
    hide WordList, TextList, ClassList, SortBy, EvidenceRequirementList, ApprovalRequirementList,
         NormalEvidenceRequirements, NormalApprovalRequirements;
    SortTwice(p.routes, WordKey);
    SortTwice(p.flowStates, TextKey);
    SortTwice(p.networks, WordKey);
    SortTwice(p.operations, TextKey);
    SortTwice(p.resourceTypes, TextKey);
    SortTwice(p.roles, WordKey);
    SortTwice(p.trustBoundaries, TextKey);
    SortTwice(p.verbs, WordKey);
    SortTwice(p.enabledClasses, ClassKey);
    EvidenceRequirementsSame(p.evidenceRequirements);
    ApprovalRequirementsSame(p.approvalRequirements);
  }

  lemma SortedWordsValid(ws: seq<Word>, allowed: set<Word>)
    requires ws != [] && ValidWords(ws, allowed) && Distinct(ws)
    ensures var s := SortBy(ws, WordKey); s != [] && ValidWords(s, allowed) && Distinct(s)
  {
    Reordered(SortBy(ws, WordKey), ws);
    DistinctReordered(SortBy(ws, WordKey), ws);
  }

  lemma SortedTextsValid(ts: seq<Text>)
    requires ts != [] && ValidTexts(ts) && Distinct(ts)
    ensures var s := SortBy(ts, TextKey); s != [] && ValidTexts(s) && Distinct(s)
  {
    hide ValidText;
    Reordered(SortBy(ts, TextKey), ts);
    DistinctReordered(SortBy(ts, TextKey), ts);
  }

  lemma NormalEvidenceRequirementsValid(reqs: seq<EvidenceRequirement>)
    requires reqs != [] && (forall q | q in reqs :: q.Valid()) && Distinct(AttributesOf(reqs))
    ensures
      var n := NormalEvidenceRequirements(reqs);
      n != [] && (forall q | q in n :: q.Valid()) && Distinct(AttributesOf(n))
  {
    var sorted, n := SortBy(reqs, EvidenceRequirementKey), NormalEvidenceRequirements(reqs);
    Reordered(sorted, reqs);
    forall i | 0 <= i < |n| ensures n[i].Valid() {
      assert sorted[i] in sorted;
      Reordered(SortBy(sorted[i].trusted, WordKey), sorted[i].trusted);
    }
    assert AttributesOf(n) == AttributesOf(sorted);
    MapReordered(sorted, reqs, (q: EvidenceRequirement) => q.attribute);
    DistinctReordered(AttributesOf(sorted), AttributesOf(reqs));
  }

  lemma NormalApprovalRequirementValid(q: ApprovalRequirement)
    requires q.Valid()
    ensures NormalApprovalRequirement(q).Valid()
  {
    hide ValidText;
    Reordered(SortBy(q.verbs, WordKey), q.verbs);
    Reordered(SortBy(q.resourceTypes, TextKey), q.resourceTypes);
    Reordered(SortBy(q.classes, ClassKey), q.classes);
    SortedTextsValid(q.approvers);
    SortedWordsValid(q.roles, ROLES);
  }

  lemma NormalApprovalRequirementsValid(reqs: seq<ApprovalRequirement>)
    requires (forall q | q in reqs :: q.Valid()) && Distinct(RequirementIdsOf(reqs))
    ensures
      var n := NormalApprovalRequirements(reqs);
      (forall q | q in n :: q.Valid()) && Distinct(RequirementIdsOf(n))
  {
    hide ApprovalRequirement.Valid, NormalApprovalRequirement;
    var sorted, n := SortBy(reqs, ApprovalRequirementKey), NormalApprovalRequirements(reqs);
    Reordered(sorted, reqs);
    forall i | 0 <= i < |n| ensures n[i].Valid() && n[i].id == sorted[i].id {
      assert sorted[i] in sorted;
      NormalApprovalRequirementValid(sorted[i]);
      NormalKeepsId(sorted[i]);
    }
    assert RequirementIdsOf(n) == RequirementIdsOf(sorted);
    MapReordered(sorted, reqs, (q: ApprovalRequirement) => q.id);
    DistinctReordered(RequirementIdsOf(sorted), RequirementIdsOf(reqs));
  }

  lemma NormalPolicyValid(p: Policy)
    requires p.Valid()
    ensures NormalPolicy(p).Valid()
  {
    hide ValidText, SortBy, EvidenceRequirement.Valid, ApprovalRequirement.Valid, NormalEvidenceRequirements,
         NormalApprovalRequirements, AttributesOf, RequirementIdsOf, ValidWords, ValidTexts, Distinct;
    NormalEvidenceRequirementsValid(p.evidenceRequirements);
    NormalApprovalRequirementsValid(p.approvalRequirements);
    Reordered(SortBy(p.enabledClasses, ClassKey), p.enabledClasses);
    DistinctReordered(SortBy(p.enabledClasses, ClassKey), p.enabledClasses);
    SortedWordsValid(p.verbs, VERBS);
    SortedWordsValid(p.roles, ROLES);
    SortedTextsValid(p.operations);
    SortedTextsValid(p.resourceTypes);
    SortedTextsValid(p.trustBoundaries);
    SortedTextsValid(p.flowStates);
    SortedWordsValid(p.networks, NETWORKS);
    SortedWordsValid(p.routes, ROUTES - PROHIBITED_ROUTES);
  }

  /** Round trip: the canonical form of any policy reads back as that policy with its lists in
      order, and has the same canonical form again. */
  lemma PolicyRoundTrip(p: Policy)
    requires p.Valid()
    ensures ReadPolicy(p.ToJson()) == Some(NormalPolicy(p)) && NormalPolicy(p).ToJson() == p.ToJson()
  {
    hide Policy.ToJson, Policy.Valid, AssemblePolicy, NormalPolicy;
    PolicyAssembled(p);
    NormalPolicySame(p);
    NormalPolicyValid(p);
  }

  /** Nothing is accepted that is not canonical. */
  lemma ReadPolicyIsCanonical(j: Json)
    requires ReadPolicy(j).Some?
    ensures ReadPolicy(j).value.Valid() && ReadPolicy(j).value.ToJson() == j
    ensures NormalPolicy(ReadPolicy(j).value).ToJson() == j
  {
    hide Policy.ToJson, Policy.Valid, NormalPolicy;
    NormalPolicySame(ReadPolicy(j).value);
  }

  // ---- Evaluating what was read back.

  lemma NormalTrusts(q: EvidenceRequirement)
    ensures forall e :: Trusts(NormalEvidenceRequirement(q), e) <==> Trusts(q, e)
    ensures NormalEvidenceRequirement(q).attribute == q.attribute && NormalEvidenceRequirement(q).maxAge == q.maxAge
  {
    hide SortBy;
    Reordered(SortBy(q.trusted, WordKey), q.trusted);
  }

  lemma NormalJudges(q: EvidenceRequirement, r: Request)
    ensures forall e :: Trusts(NormalEvidenceRequirement(q), e) <==> Trusts(q, e)
    ensures Judge(NormalEvidenceRequirement(q), r) == Judge(q, r)
  {
    hide NormalEvidenceRequirement, Trusts, Untrusted, OnlyClaimed, Unauthenticated, FromFuture, OutOfDate, Conflicting, Unbound;
    NormalTrusts(q);
    NormalFaults(q, r);
  }

  lemma NormalFaults(q: EvidenceRequirement, r: Request)
    ensures
      var n := NormalEvidenceRequirement(q);
      && n.attribute == q.attribute && Untrusted(n, r) == Untrusted(q, r) && OnlyClaimed(n, r) == OnlyClaimed(q, r)
      && Unauthenticated(n, r) == Unauthenticated(q, r) && FromFuture(n, r) == FromFuture(q, r)
      && OutOfDate(n, r) == OutOfDate(q, r) && Conflicting(n, r) == Conflicting(q, r) && Unbound(n, r) == Unbound(q, r)
  {
    hide NormalEvidenceRequirement, Trusts, Request.Attribute;
    NormalTrusts(q);
  }

  lemma NormalMembers(reqs: seq<EvidenceRequirement>)
    ensures forall q | q in reqs :: NormalEvidenceRequirement(q) in NormalEvidenceRequirements(reqs)
    ensures forall n | n in NormalEvidenceRequirements(reqs) :: exists q :: q in reqs && n == NormalEvidenceRequirement(q)
  {
    hide NormalEvidenceRequirement;
    var sorted, normal := SortBy(reqs, EvidenceRequirementKey), NormalEvidenceRequirements(reqs);
    Reordered(sorted, reqs);
    forall q | q in reqs ensures NormalEvidenceRequirement(q) in normal {
      var i :| 0 <= i < |sorted| && sorted[i] == q;
      assert normal[i] == NormalEvidenceRequirement(q);
    }
    forall n | n in normal ensures exists q :: q in reqs && n == NormalEvidenceRequirement(q) {
      var i :| 0 <= i < |normal| && normal[i] == n;
      assert sorted[i] in sorted;
    }
  }

  /** The records that count do not depend on the order of the requirements. */
  lemma NormalBacking(reqs: seq<EvidenceRequirement>, r: Request)
    ensures Backing(NormalEvidenceRequirements(reqs), r) == Backing(reqs, r)
  {
    hide Judge, Trusts, NormalEvidenceRequirement, NormalEvidenceRequirements;
    var normal := NormalEvidenceRequirements(reqs);
    NormalMembers(reqs);
    forall e | e in r.evidence ensures Counts(normal, r, e) == Counts(reqs, r, e) {
      if Counts(normal, r, e) {
        var n :| n in normal && Trusts(n, e) && Judge(n, r).Accepted?;
        var q :| q in reqs && n == NormalEvidenceRequirement(q);
        NormalJudges(q, r);
      }
      if Counts(reqs, r, e) {
        var q :| q in reqs && Trusts(q, e) && Judge(q, r).Accepted?;
        NormalJudges(q, r);
      }
    }
    FilterSame(r.evidence, (e: Evidence) => Counts(normal, r, e), (e: Evidence) => Counts(reqs, r, e));
  }

  /** When all evidence validates, the order of the requirements does not show. */
  lemma NormalPolicyValidates(r: Request, p: Policy)
    requires Validate(r, p).valid
    ensures Validate(r, NormalPolicy(p)) == Validate(r, p)
  {
    hide Judge, Trusts, NormalEvidenceRequirement, NormalEvidenceRequirements, Backing, Findings, SortBy, Earliest,
         NormalApprovalRequirements, Ids, Distinct, Expiries, Dedupe;
    var reqs, normal := p.evidenceRequirements, NormalEvidenceRequirements(p.evidenceRequirements);
    NormalMembers(reqs);
    NoFindings(reqs, r);
    NoFindings(normal, r);
    forall n | n in normal ensures Judge(n, r).Accepted? {
      var q :| q in reqs && n == NormalEvidenceRequirement(q);
      NormalJudges(q, r);
    }
    NormalBacking(reqs, r);
  }

  lemma {:induction false} FilterMap<T(!new), U(!new)>(s: seq<T>, f: T -> U, before: T -> bool, after: U -> bool)
    requires forall x | x in s :: before(x) == after(f(x))
    ensures Filter(Map(s, f), after) == Map(Filter(s, before), f)
  {
    if s != [] {
      assert Map(s, f)[..|s| - 1] == Map(s[..|s| - 1], f);
      FilterMap(s[..|s| - 1], f, before, after);
    }
  }

  lemma NormalMatches(q: ApprovalRequirement, r: Request, derived: Class)
    ensures NormalApprovalRequirement(q).Matches(r, derived) == q.Matches(r, derived)
  {
    hide SortBy;
    Reordered(SortBy(q.verbs, WordKey), q.verbs);
    Reordered(SortBy(q.resourceTypes, TextKey), q.resourceTypes);
    Reordered(SortBy(q.classes, ClassKey), q.classes);
  }

  lemma SameShortList<T>(a: seq<T>, b: seq<T>)
    requires multiset(a) == multiset(b) && |a| <= 1
    ensures a == b
  {
    assert |multiset(a)| == |multiset(b)|;
    if |a| == 1 { assert a[0] in multiset(b); }
  }

  lemma NormalApplicable(r: Request, p: Policy, derived: Class)
    requires |Applicable(r, p, derived)| <= 1
    ensures Applicable(r, NormalPolicy(p), derived) == Map(Applicable(r, p, derived), NormalApprovalRequirement)
  {
    hide NormalApprovalRequirement, ApprovalRequirement.Matches, Filter, SortBy, NormalEvidenceRequirements;
    var reqs := p.approvalRequirements;
    var sorted := SortBy(reqs, ApprovalRequirementKey);
    var matches := (q: ApprovalRequirement) => q.Matches(r, derived);
    forall q ensures matches(NormalApprovalRequirement(q)) == matches(q) { NormalMatches(q, r, derived); }
    FilterMap(sorted, NormalApprovalRequirement, matches, matches);
    FilterReordered(reqs, sorted, matches);
    assert Applicable(r, p, derived) == Filter(reqs, matches);
    SameShortList(Filter(reqs, matches), Filter(sorted, matches));
    assert Applicable(r, NormalPolicy(p), derived) == Filter(Map(sorted, NormalApprovalRequirement), matches);
  }

  lemma {:induction false} NoTimes(r: Request, reqs: seq<ApprovalRequirement>)
    requires r.environment.grants == []
    ensures Until(reqs, r) == []
  {
    if reqs != [] { NoTimes(r, reqs[..|reqs| - 1]); }
  }

  lemma {:induction false} AllSound(r: Request, reqs: seq<ApprovalRequirement>, p: Policy)
    requires r.environment.grants == []
    ensures Sound(reqs, r, p) == |reqs|
  {
    hide Misbound;
    if reqs != [] { AllSound(r, reqs[1..], p); }
  }

  lemma NoGrants(r: Request, reqs: seq<ApprovalRequirement>, p: Policy)
    requires r.environment.grants == []
    ensures Sound(reqs, r, p) == |reqs| && Filter(reqs, (q: ApprovalRequirement) => Unapproved(q, r)) == reqs
    ensures Until(reqs, r) == []
  {
    hide Sound, Until, Filter;
    NoTimes(r, reqs);
    AllSound(r, reqs, p);
    FilterAll(reqs, (q: ApprovalRequirement) => Unapproved(q, r));
  }

  lemma NormalApproval(r: Request, p: Policy, derived: Class)
    requires r.environment.grants == [] && |Applicable(r, p, derived)| <= 1
    ensures ApprovalEffect(r, NormalPolicy(p), derived) == ApprovalEffect(r, p, derived)
  {
    hide Applicable, Sound, Until, Filter, NormalApprovalRequirement, DeferFor, NormalEvidenceRequirements,
         NormalApprovalRequirements, SortBy;
    NormalApplicable(r, p, derived);
    var reqs, normal := Applicable(r, p, derived), Applicable(r, NormalPolicy(p), derived);
    NoGrants(r, reqs, p);
    NoGrants(r, normal, NormalPolicy(p));
    DeferForNormal(reqs, Earliest([r.environment.evaluatedAt + p.ttl] + []));
  }

  lemma DeferForNormal(reqs: seq<ApprovalRequirement>, expiry: real)
    ensures DeferFor(Map(reqs, NormalApprovalRequirement), expiry) == DeferFor(reqs, expiry)
  {
    hide NormalApprovalRequirement;
    forall q ensures NormalApprovalRequirement(q).id == q.id { NormalKeepsId(q); }
    var normal := Map(reqs, NormalApprovalRequirement);
    var detail := (q: ApprovalRequirement) => "digest-bound approval " + q.id + " is required";
    var obligation := (q: ApprovalRequirement) => Obligation("approval", Lit(q.id));
    assert Map(normal, detail) == Map(reqs, detail) && Map(normal, obligation) == Map(reqs, obligation);
  }

  lemma NormalDenies(r: Request, p: Policy, derived: Class)
    ensures MandatoryDeny(r, NormalPolicy(p), derived) == MandatoryDeny(r, p, derived)
  {
    hide SortBy, NormalEvidenceRequirements, NormalApprovalRequirements;
    Reordered(SortBy(p.enabledClasses, ClassKey), p.enabledClasses);
    Reordered(SortBy(p.verbs, WordKey), p.verbs);
    Reordered(SortBy(p.roles, WordKey), p.roles);
    Reordered(SortBy(p.operations, TextKey), p.operations);
    Reordered(SortBy(p.resourceTypes, TextKey), p.resourceTypes);
    Reordered(SortBy(p.trustBoundaries, TextKey), p.trustBoundaries);
    Reordered(SortBy(p.flowStates, TextKey), p.flowStates);
    Reordered(SortBy(p.networks, WordKey), p.networks);
    Reordered(SortBy(p.routes, WordKey), p.routes);
  }

  /** The parts of a policy that evaluation reads. */
  lemma EvaluateUnder(r: Request, p: Policy, n: Policy)
    requires p.bundleId == n.bundleId && p.version == n.version && p.issuedAt == n.issuedAt && p.ttl == n.ttl
    requires p.Digest() == n.Digest() && Validate(r, n) == Validate(r, p)
    requires MandatoryDeny(r, n, ClassOf(r)) == MandatoryDeny(r, p, ClassOf(r))
    requires ApprovalEffect(r, n, ClassOf(r)) == ApprovalEffect(r, p, ClassOf(r))
    ensures Evaluate(r, n) == Evaluate(r, p)
  {
    hide Derive, MandatoryDeny, EnvironmentUnknown, Validate, ApprovalEffect, Request.Digest, Policy.Digest, ClassName;
  }

  /** Re-evaluation: what was persisted and read back is decided exactly as the original was. */
  lemma Reevaluation(r: Request, p: Policy)
    requires Readable(r) && p.Valid() && Validate(r, p).valid && |Applicable(r, p, ClassOf(r))| <= 1
    ensures
      var q, n := ReadRequest(r.ToJson()), ReadPolicy(p.ToJson());
      q.Some? && n.Some? && Evaluate(q.value, n.value) == Evaluate(r, p)
  {
    hide Evaluate, Validate, MandatoryDeny, ApprovalEffect, Derive, Policy.ToJson, Request.ToJson, Policy.Valid,
         Request.Valid, ReadRequest, ReadPolicy, Applicable;
    RequestRoundTrip(r);
    PolicyRoundTrip(p);
    var q := NormalRequest(r);
    NormalRequestSame(r);
    ValidExactly(r, p);
    EvidenceOrderIsForgotten(r, q, p);
    ValidateReordered(r, q, p);
    ApplicableDependsOn(r, q, p, ClassOf(r));
    NormalPolicyValidates(q, p);
    NormalDenies(q, p, ClassOf(q));
    NormalApproval(q, p, ClassOf(q));
    EvaluateUnder(q, p, NormalPolicy(p));
  }
}
