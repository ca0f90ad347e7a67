/** What the class of a request comes to, dimension by dimension. */
module PermissionClasses {
  import opened Prelude
  import opened Authorization
  import opened Evaluator
  import opened EvaluatorLaws

  // ---- What each dimension calls for by itself.

  function ImpactClass(impact: Word): Class { if impact == "high" then 3 else if impact == "moderate" then 2 else 0 }
  function ReachClass(reach: Word): Class { if reach == "external" then 3 else if reach == "shared" then 2 else 0 }
  function BlastClass(blast: Word): Class { if blast == "broad" then 3 else if blast == "bounded" then 2 else 0 }
  function VerbClass(verb: Word): Class {
    if verb == "read" then 0 else if verb in {"delete", "send", "approve"} then 3 else 1
  }

  function Calls(a: Action, r: Resource, c: Consequences): seq<Class> {
    [VerbClass(a.verb), ImpactClass(c.confidentiality), ImpactClass(c.integrity), ImpactClass(c.availability),
     ImpactClass(c.sensitivity), ImpactClass(r.sensitivity), ReachClass(c.reach), BlastClass(c.blast),
     if r.guarded then 2 else 0, if c.destructive then 3 else 0, if c.reversible then 0 else 3]
  }

  predicate AllWithin(calls: seq<Class>, bound: Class) { forall i | 0 <= i < |calls| :: calls[i] <= bound }

  /** The derived class is the least class that satisfies every dimension. */
  lemma DerivedIsLeast(a: Action, r: Resource, c: Consequences, bound: Class)
    ensures Derive(a, r, c) <= bound <==> AllWithin(Calls(a, r, c), bound)
    ensures Derive(a, r, c) in Calls(a, r, c)
  {
    var calls := Calls(a, r, c);
    assert AllWithin(calls, bound) <==>
      && calls[0] <= bound && calls[1] <= bound && calls[2] <= bound && calls[3] <= bound && calls[4] <= bound
      && calls[5] <= bound && calls[6] <= bound && calls[7] <= bound && calls[8] <= bound && calls[9] <= bound
      && calls[10] <= bound;
    assert Derive(a, r, c) in calls by { CallsHold(a, r, c); }
  }

  lemma CallsHold(a: Action, r: Resource, c: Consequences)
    ensures Derive(a, r, c) in Calls(a, r, c)
  {
    var calls := Calls(a, r, c);
    assert forall i | 0 <= i < 11 :: calls[i] in calls;
    assert calls[0] in calls && calls[1] in calls && calls[2] in calls && calls[3] in calls && calls[4] in calls;
    assert calls[5] in calls && calls[6] in calls && calls[7] in calls && calls[8] in calls && calls[9] in calls;
    assert calls[10] in calls;
  }

  /** Raising any dimension never lowers the class. */
  lemma DeriveIsMonotone(a: Action, r: Resource, c: Consequences, b: Action, s: Resource, d: Consequences)
    requires forall i | 0 <= i < 11 :: Calls(a, r, c)[i] <= Calls(b, s, d)[i]
    ensures Derive(a, r, c) <= Derive(b, s, d)
  {
    hide Derive, Calls;
    DerivedIsLeast(b, s, d, Derive(b, s, d));
    DerivedIsLeast(a, r, c, Derive(b, s, d));
    assert |Calls(a, r, c)| == 11 && |Calls(b, s, d)| == 11 by { ElevenCalls(a, r, c); ElevenCalls(b, s, d); }
  }

  lemma ElevenCalls(a: Action, r: Resource, c: Consequences)
    ensures |Calls(a, r, c)| == 11
  {
  }

  // ---- What may be permitted.

  /** Nothing about it reaches beyond a local draft. */
  predicate LocalDraft(guarded: bool, sensitivity: Word, c: Consequences) {
    && c.confidentiality == "low" && c.integrity == "low" && c.availability == "low" && c.sensitivity == "low"
    && sensitivity == "low" && c.reach == "local" && c.blast == "single_resource" && !guarded && !c.destructive
    && c.reversible
  }

  /** The class is at most 1 exactly for a local draft by a verb that is not consequential in
      itself; it is 0 only for reading. */
  lemma DraftExactly(a: Action, r: Resource, c: Consequences)
    requires r.sensitivity in IMPACTS && c.Valid()
    ensures Derive(a, r, c) <= 1 <==>
      LocalDraft(r.guarded, r.sensitivity, c) && a.verb !in {"delete", "send", "approve"}
    ensures Derive(a, r, c) == 0 <==> LocalDraft(r.guarded, r.sensitivity, c) && a.verb == "read"
  {
    var words := [c.confidentiality, c.integrity, c.availability, c.sensitivity];
    assert words[0] in words && words[1] in words && words[2] in words && words[3] in words;
    assert words[0] in IMPACTS && words[1] in IMPACTS && words[2] in IMPACTS && words[3] in IMPACTS;
  }

  /** Whatever the policy, nothing is permitted but local drafts. */
  lemma OnlyDraftsArePermitted(r: Request, p: Policy)
    requires r.resource.sensitivity in IMPACTS && r.consequences.Valid() && Evaluate(r, p).effect == "permit"
    ensures LocalDraft(r.resource.guarded, r.resource.sensitivity, r.consequences)
    ensures r.action.verb !in {"delete", "send", "approve"}
  {
    hide Evaluate, Derive, Backed, Approved, ApprovalRequirement.Matches;
    PermitExactly(r, p);
    DraftExactly(r.action, r.resource, r.consequences);
  }
}
