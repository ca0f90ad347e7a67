/** What the billing policy lets pass, told from the fields of the assessment. */
module BillingLaws {
  import opened Prelude
  import opened Sequences
  import opened Billing

  /** One thing that is checked, and what is reported when it fails. */
  datatype Check = Check(passes: bool, code: Word)

  /** The reports, in the order of the checks. */
  function Reported(checks: seq<Check>): (codes: seq<Word>)
    ensures codes == [] <==> forall i | 0 <= i < |checks| :: checks[i].passes
  {
    if checks == [] then []
    else
      var last := checks[|checks| - 1];
      Reported(checks[..|checks| - 1]) + if last.passes then [] else [last.code]
  }

  lemma {:induction false} ReportedSum(a: seq<Check>, b: seq<Check>)
    ensures Reported(a + b) == Reported(a) + Reported(b)
  {
    if b == [] {
      assert a + b == a;
    } else {
      assert (a + b)[..|a + b| - 1] == a + b[..|b| - 1];
      ReportedSum(a, b[..|b| - 1]);
    }
  }

  lemma ReportedOne(c: Check)
    ensures Reported([c]) == Block(!c.passes, c.code)
  {
    assert Reported([c][..0]) == [];
  }

  lemma ReportedTwo(a: Check, b: Check)
    ensures Reported([a, b]) == Block(!a.passes, a.code) + Block(!b.passes, b.code)
  {
    ReportedOne(a);
    ReportedOne(b);
    ReportedSum([a], [b]);
    assert [a, b] == [a] + [b];
  }

  lemma ReportedFour(a: Check, b: Check, c: Check, d: Check)
    ensures Reported([a, b, c, d]) ==
      Block(!a.passes, a.code) + Block(!b.passes, b.code) + Block(!c.passes, c.code) + Block(!d.passes, d.code)
  {
    hide Block, Reported;
    ReportedTwo(a, b);
    ReportedTwo(c, d);
    ReportedSum([a, b], [c, d]);
    assert [a, b, c, d] == [a, b] + [c, d];
  }

  // ---- The checks.

  predicate HexFingerprint(f: Word) { |f| == 64 && forall c | c in f :: '0' <= c <= '9' || 'a' <= c <= 'f' }

  /** Observed by now, and lasting beyond the end. */
  predicate Covers(observedAt: real, expiresAt: real, now: real, end: real) { 0.0 <= observedAt <= now && end < expiresAt }

  /** The statements that an operator makes for the runner: all of them, once, and no other. */
  function Statements(runner: Word): set<Word> {
    if runner == "codex" then {"operator_attestation:" + "provider_ui_auto_top_up_disabled"}
    else if runner == "claude" then
      {"operator_attestation:" + "provider_ui_extra_usage_disabled",
       "operator_attestation:" + "provider_ui_included_capacity_available"}
    else {"operator_attestation:" + "provider_enforced_paid_continuation_disabled"}
  }

  predicate States(evidence: seq<Word>, runner: Word) {
    && Distinct(evidence) && (forall e | e in evidence :: e in Statements(runner))
    && forall e | e in Statements(runner) :: e in evidence
  }

  function RouteChecks(x: Assessment, now: real, end: real): seq<Check> {
    [Check(x.route == "subscription_included", "route_not_subscription_included"),
     Check(x.confidence == "high", "route_confidence_not_high"),
     Check(x.capacity == "available", "included_capacity_not_available"),
     Check(x.capacityObservedAt.Some? && x.capacityExpiresAt.Some?
             && Covers(x.capacityObservedAt.value, x.capacityExpiresAt.value, now, end),
           "capacity_evidence_not_current"),
     Check(x.fingerprint.Some? && HexFingerprint(x.fingerprint.value), "account_identity_unverified")]
  }

  function ClaimChecks(x: Assessment, a: Attestation): seq<Check> {
    [Check(a.runner == x.runner, "attestation_runner_mismatch"),
     Check(a.route == "subscription_included", "attestation_route_mismatch"),
     Check(a.confidence == "high", "attestation_confidence_not_high"),
     Check(a.capacity == x.capacity, "attestation_capacity_mismatch"),
     Check(a.protection == x.protection, "attestation_protection_mismatch"),
     Check(a.evidence != [], "attestation_evidence_missing"),
     Check(a.evidence != [] ==> States(a.evidence, a.runner), "attestation_evidence_not_authorized")]
  }

  function WindowChecks(x: Assessment, a: Attestation, now: real, end: real): seq<Check> {
    [Check(Covers(a.observedAt, a.expiresAt, now, end), "attestation_not_current"),
     Check(Covers(a.observedAt, a.expiresAt, now, end) ==> a.expiresAt <= a.observedAt + 86400.0,
           "attestation_lifetime_too_long"),
     Check(HexFingerprint(a.fingerprint), "attested_account_identity_invalid"),
     Check(HexFingerprint(a.fingerprint) ==> x.fingerprint == Some(a.fingerprint), "attested_account_identity_mismatch")]
  }

  function ContinuationChecks(x: Assessment): seq<Check> {
    var provider := x.protection == "provider_enforced_disabled";
    if x.runner == "codex" then
      [Check(x.protection == "verified_zero_balance_and_auto_top_up_disabled", "codex_paid_continuation_not_disabled"),
       Check(x.balance == "zero", "codex_paid_credit_balance_not_zero")]
    else if x.runner == "claude" then [Check(provider, "claude_extra_usage_not_disabled")]
    else [Check(provider, "paid_continuation_not_provider_disabled")]
  }

  function Checks(x: Assessment, now: real, end: real): seq<Check> {
    RouteChecks(x, now, end)
    + match x.attestation
      case None => [Check(false, "paid_continuation_attestation_missing")]
      case Some(a) => ClaimChecks(x, a) + WindowChecks(x, a, now, end) + ContinuationChecks(x)
  }

  // ---- The two readings agree.

  lemma FingerprintsAgree(f: Word)
    ensures ValidFingerprint(f) <==> HexFingerprint(f)
  {
    forall c: char ensures c in "0123456789abcdef" <==> '0' <= c <= '9' || 'a' <= c <= 'f' { HexDigit(c); }
  }

  lemma HexDigit(c: char)
    ensures c in "0123456789abcdef" <==> '0' <= c <= '9' || 'a' <= c <= 'f'
  {
    var digits := "0123456789abcdef";
    if '0' <= c <= '9' { assert digits[c as int - '0' as int] == c; }
    else if 'a' <= c <= 'f' { assert digits[c as int - 'a' as int + 10] == c; }
  }

  /** The words that the policy compares with. */
  function CodesFor(runner: Word): seq<Word> {
    if runner in {CODEX, CLAUDE} then Evidence(ExpectedCodes(runner))
    else [PREFIX + "provider_enforced_paid_continuation_disabled"]
  }

  lemma StatementsAreCodes(runner: Word, w: Word)
    ensures w in Statements(runner) <==> w in CodesFor(runner)
  {
    var codes := CodesFor(runner);
    if runner == CLAUDE {
      assert codes == [PREFIX + "provider_ui_extra_usage_disabled", PREFIX + "provider_ui_included_capacity_available"];
    } else if runner == CODEX {
      assert codes == [PREFIX + "provider_ui_auto_top_up_disabled"];
    }
  }

  lemma EvidenceAgrees(a: Attestation)
    ensures EvidenceAuthorized(a) <==> States(a.evidence, a.runner)
  {
    hide Evidence, ExpectedCodes, Statements;
    forall w ensures w in Statements(a.runner) <==> w in CodesFor(a.runner) { StatementsAreCodes(a.runner, w); }
    assert EvidenceAuthorized(a) <==> SameCodes(a.evidence, CodesFor(a.runner));
  }

  lemma RouteAgrees(x: Assessment, now: real, end: real)
    requires 0.0 <= now <= end
    ensures RouteBlockers(x, now, end) == Reported(RouteChecks(x, now, end))
  {
    hide Block, Reported, ValidFingerprint, HexFingerprint;
    var checks := RouteChecks(x, now, end);
    if x.fingerprint.Some? { FingerprintsAgree(x.fingerprint.value); }
    ReportedFour(checks[0], checks[1], checks[2], checks[3]);
    ReportedOne(checks[4]);
    ReportedSum(checks[..4], checks[4..]);
    assert checks == checks[..4] + checks[4..];
    assert checks[..4] == [checks[0], checks[1], checks[2], checks[3]] && checks[4..] == [checks[4]];
  }

  lemma EvidenceBlocks(none: bool, authorized: bool)
    ensures
      Block(none, "attestation_evidence_missing") + Block(!none && !authorized, "attestation_evidence_not_authorized")
      == if none then ["attestation_evidence_missing"] else Block(!authorized, "attestation_evidence_not_authorized")
  {
  }

  lemma ClaimsAgree(x: Assessment, a: Attestation)
    ensures ClaimBlockers(x, a) == Reported(ClaimChecks(x, a))
  {
    hide Reported, States, EvidenceAuthorized, Block;
    var checks := ClaimChecks(x, a);
    EvidenceBlocks(a.evidence == [], EvidenceAuthorized(a));
    EvidenceAgrees(a);
    ReportedFour(checks[0], checks[1], checks[2], checks[3]);
    ReportedOne(checks[4]);
    ReportedTwo(checks[5], checks[6]);
    ReportedSum(checks[..4], [checks[4]]);
    ReportedSum(checks[..5], [checks[5], checks[6]]);
    assert checks == checks[..5] + [checks[5], checks[6]] && checks[..5] == checks[..4] + [checks[4]];
    assert checks[..4] == [checks[0], checks[1], checks[2], checks[3]];
  }

  lemma WindowAgrees(x: Assessment, a: Attestation, now: real, end: real)
    requires 0.0 <= now <= end
    ensures WindowBlockers(x, a, now, end) == Reported(WindowChecks(x, a, now, end))
  {
    hide Reported, ValidFingerprint, HexFingerprint;
    var checks := WindowChecks(x, a, now, end);
    FingerprintsAgree(a.fingerprint);
    ReportedFour(checks[0], checks[1], checks[2], checks[3]);
  }

  lemma ContinuationAgrees(x: Assessment)
    ensures ContinuationBlockers(x) == Reported(ContinuationChecks(x))
  {
    hide Reported, Block;
    var checks := ContinuationChecks(x);
    if x.runner == CODEX { ReportedTwo(checks[0], checks[1]); } else { ReportedOne(checks[0]); }
  }

  /** The policy makes every one of the checks, in order, and reports each that fails: at a valid
      instant, for a required end that does not precede it. */
  lemma BlockersAreFailures(x: Assessment, now: real, until: Option<real>)
    ensures
      var end := if until.Some? then until.value else now;
      Blockers(x, now, until) ==
        if now < 0.0 then ["invalid_policy_clock"]
        else if end < now then ["invalid_required_valid_until"]
        else Reported(Checks(x, now, end))
  {
    hide Reported, RouteBlockers, ClaimBlockers, WindowBlockers, ContinuationBlockers, RouteChecks, ClaimChecks,
         WindowChecks, ContinuationChecks;
    var end := if until.Some? then until.value else now;
    if 0.0 <= now <= end {
      RouteAgrees(x, now, end);
      if x.attestation.Some? {
        var a := x.attestation.value;
        ClaimsAgree(x, a);
        WindowAgrees(x, a, now, end);
        ContinuationAgrees(x);
        ReportedSum(ClaimChecks(x, a), WindowChecks(x, a, now, end));
        ReportedSum(ClaimChecks(x, a) + WindowChecks(x, a, now, end), ContinuationChecks(x));
        ReportedSum(RouteChecks(x, now, end),
                    ClaimChecks(x, a) + WindowChecks(x, a, now, end) + ContinuationChecks(x));
      } else {
        var missing := Check(false, "paid_continuation_attestation_missing");
        ReportedOne(missing);
        ReportedSum(RouteChecks(x, now, end), [missing]);
      }
    }
  }

  // ---- What is let pass.

  /** The account's own evidence, as its adapter reports it. */
  predicate OwnEvidence(x: Assessment, now: real, end: real) {
    && x.route == "subscription_included" && x.confidence == "high" && x.capacity == "available"
    && x.capacityObservedAt.Some? && x.capacityExpiresAt.Some?
    && Covers(x.capacityObservedAt.value, x.capacityExpiresAt.value, now, end)
    && x.fingerprint.Some? && HexFingerprint(x.fingerprint.value)
    && (x.runner == "codex" ==>
          x.protection == "verified_zero_balance_and_auto_top_up_disabled" && x.balance == "zero")
    && (x.runner != "codex" ==> x.protection == "provider_enforced_disabled")
  }

  /** An operator has attested it: for the same runner and account, with the same capacity and
      protection, in the words for this runner, for the whole time and not for longer than a day. */
  predicate OperatorAttests(x: Assessment, now: real, end: real) {
    && x.attestation.Some?
    && var a := x.attestation.value;
       && a.runner == x.runner && Some(a.fingerprint) == x.fingerprint && a.route == "subscription_included"
       && a.confidence == "high" && a.capacity == x.capacity && a.protection == x.protection
       && States(a.evidence, x.runner) && Covers(a.observedAt, a.expiresAt, now, end)
       && a.expiresAt <= a.observedAt + 86400.0
  }

  lemma SomethingIsStated(runner: Word)
    ensures !States([], runner)
  {
    var e :| e in Statements(runner);
  }

  predicate Pass(checks: seq<Check>) { forall i | 0 <= i < |checks| :: checks[i].passes }

  lemma PassSum(a: seq<Check>, b: seq<Check>)
    ensures Pass(a + b) <==> Pass(a) && Pass(b)
  {
    if Pass(a + b) {
      assert forall i | 0 <= i < |a| :: a[i] == (a + b)[i];
      assert forall i | 0 <= i < |b| :: b[i] == (a + b)[|a| + i];
    }
  }

  lemma ContinuationPasses(x: Assessment)
    ensures Pass(ContinuationChecks(x)) <==>
      && (x.runner == "codex" ==>
            x.protection == "verified_zero_balance_and_auto_top_up_disabled" && x.balance == "zero")
      && (x.runner != "codex" ==> x.protection == "provider_enforced_disabled")
  {
    var d := ContinuationChecks(x);
    assert Pass(d) <==> d[0].passes && (|d| > 1 ==> d[1].passes);
  }

  lemma RoutePasses(x: Assessment, now: real, end: real)
    ensures Pass(RouteChecks(x, now, end)) && Pass(ContinuationChecks(x)) <==> OwnEvidence(x, now, end)
  {
    hide ContinuationChecks, HexFingerprint, Covers;
    var c := RouteChecks(x, now, end);
    assert Pass(c) <==> c[0].passes && c[1].passes && c[2].passes && c[3].passes && c[4].passes;
    ContinuationPasses(x);
  }

  lemma AttestationPasses(x: Assessment, a: Attestation, now: real, end: real)
    requires x.attestation == Some(a) && x.fingerprint.Some? && HexFingerprint(x.fingerprint.value)
    ensures Pass(ClaimChecks(x, a)) && Pass(WindowChecks(x, a, now, end)) <==> OperatorAttests(x, now, end)
  {
    hide States, HexFingerprint;
    var c, d := ClaimChecks(x, a), WindowChecks(x, a, now, end);
    SomethingIsStated(x.runner);
    assert Pass(c) <==>
      c[0].passes && c[1].passes && c[2].passes && c[3].passes && c[4].passes && c[5].passes && c[6].passes;
    assert Pass(d) <==> d[0].passes && d[1].passes && d[2].passes && d[3].passes;
  }

  lemma PassExactly(x: Assessment, now: real, end: real)
    ensures Pass(Checks(x, now, end)) <==> OwnEvidence(x, now, end) && OperatorAttests(x, now, end)
  {
    hide Pass, RouteChecks, ClaimChecks, WindowChecks, ContinuationChecks, States, HexFingerprint;
    RoutePasses(x, now, end);
    if x.attestation.Some? {
      var a := x.attestation.value;
      PassSum(ClaimChecks(x, a), WindowChecks(x, a, now, end));
      PassSum(ClaimChecks(x, a) + WindowChecks(x, a, now, end), ContinuationChecks(x));
      PassSum(RouteChecks(x, now, end), ClaimChecks(x, a) + WindowChecks(x, a, now, end) + ContinuationChecks(x));
      if Pass(RouteChecks(x, now, end)) {
        IdentityPasses(x, now, end);
        AttestationPasses(x, a, now, end);
      }
    } else {
      PassSum(RouteChecks(x, now, end), [Check(false, "paid_continuation_attestation_missing")]);
      NotPassed("paid_continuation_attestation_missing");
    }
  }

  lemma IdentityPasses(x: Assessment, now: real, end: real)
    requires Pass(RouteChecks(x, now, end))
    ensures x.fingerprint.Some? && HexFingerprint(x.fingerprint.value)
  {
    hide HexFingerprint;
    assert RouteChecks(x, now, end)[4].passes;
  }

  lemma NotPassed(code: Word)
    ensures !Pass([Check(false, code)])
  {
    assert ![Check(false, code)][0].passes;
  }

  /** Nothing blocks a route, whatever the assessment, exactly when the account's own evidence and
      an operator's attestation cover the whole time for which the route is needed. */
  lemma NothingBlocksExactly(x: Assessment, now: real, until: Option<real>)
    ensures
      var end := if until.Some? then until.value else now;
      Blockers(x, now, until) == [] <==> 0.0 <= now <= end && OwnEvidence(x, now, end) && OperatorAttests(x, now, end)
  {
    hide Blockers, States, HexFingerprint, Block, Statements;
    var end := if until.Some? then until.value else now;
    BlockersAreFailures(x, now, until);
    if 0.0 <= now <= end { PassExactly(x, now, end); }
  }

  // ---- What the loader finds.

  function Codes(runner: Word): set<Word> {
    if runner == "codex" then {"provider_ui_auto_top_up_disabled"}
    else {"provider_ui_extra_usage_disabled", "provider_ui_included_capacity_available"}
  }

  /** A record that is read as an attestation. */
  predicate Readable(r: Record) {
    && r.runner in {"codex", "claude"} && HexFingerprint(r.fingerprint) && r.route == "subscription_included"
    && r.capacity == "available" && r.confidence == "high" && 0.0 <= r.observedAt && 0.0 <= r.expiresAt
    && r.protection == (if r.runner == "codex" then "verified_zero_balance_and_auto_top_up_disabled"
                        else "provider_enforced_disabled")
    && Distinct(r.codes) && (forall c | c in r.codes :: c in Codes(r.runner))
    && forall c | c in Codes(r.runner) :: c in r.codes
  }

  lemma CodesAreExpected(runner: Word, c: Word)
    requires runner in {CODEX, CLAUDE}
    ensures c in Codes(runner) <==> c in ExpectedCodes(runner)
  {
  }

  /** The attestation that is read says what the record says, each code behind the one prefix. */
  lemma ParsedExactly(r: Record)
    ensures Parse(r).Some? <==> Readable(r)
    ensures Parse(r).Some? ==>
      var a := Parse(r).value;
      && a == Attestation(r.runner, r.fingerprint, r.route, r.capacity, r.protection, r.observedAt, r.expiresAt,
                          r.confidence, a.evidence)
      && |a.evidence| == |r.codes|
      && forall i | 0 <= i < |r.codes| :: a.evidence[i] == "operator_attestation:" + r.codes[i]
  {
    hide ValidFingerprint, HexFingerprint, Codes, ExpectedCodes;
    FingerprintsAgree(r.fingerprint);
    if r.runner in {CODEX, CLAUDE} {
      forall c ensures c in Codes(r.runner) <==> c in ExpectedCodes(r.runner) { CodesAreExpected(r.runner, c); }
    }
  }

  predicate IsOf(t: Token, runner: Word, fingerprint: Word) {
    t.Rec? && Readable(t.record) && t.record.runner == runner && t.record.fingerprint == fingerprint
  }

  /** Only the i-th element is a readable record of the account. */
  predicate Sole(elements: seq<Token>, i: nat, runner: Word, fingerprint: Word) {
    && i < |elements| && IsOf(elements[i], runner, fingerprint)
    && forall j | 0 <= j < |elements| && j != i :: !IsOf(elements[j], runner, fingerprint)
  }

  lemma {:induction false} SoleExactly(elements: seq<Token>, runner: Word, fingerprint: Word)
    ensures Matching(elements, runner, fingerprint) == [] <==>
      forall j | 0 <= j < |elements| :: !IsOf(elements[j], runner, fingerprint)
    ensures |Matching(elements, runner, fingerprint)| == 1 <==>
      exists i: nat :: Sole(elements, i, runner, fingerprint)
    ensures forall i: nat | Sole(elements, i, runner, fingerprint) ::
      Matching(elements, runner, fingerprint) == [elements[i]]
  {
    hide Readable, Parse;
    if elements != [] {
      var n := |elements| - 1;
      var init, last := elements[..n], elements[n];
      SoleExactly(init, runner, fingerprint);
      MatchingOne(elements, runner, fingerprint);
      if last.Rec? { ParsedExactly(last.record); }
      assert forall j | 0 <= j < n :: init[j] == elements[j];
      if IsOf(last, runner, fingerprint) {
        if Matching(init, runner, fingerprint) == [] { assert Sole(elements, n, runner, fingerprint); }
        forall i: nat | Sole(elements, i, runner, fingerprint)
          ensures i == n && Matching(init, runner, fingerprint) == [] {}
      } else {
        forall i: nat ensures Sole(elements, i, runner, fingerprint) <==> Sole(init, i, runner, fingerprint) {}
      }
    }
  }

  lemma MatchingOne(elements: seq<Token>, runner: Word, fingerprint: Word)
    requires elements != []
    ensures
      var n := |elements| - 1;
      Matching(elements, runner, fingerprint) ==
        Matching(elements[..n], runner, fingerprint)
        + if Matches(elements[n], runner, fingerprint) then [elements[n]] else []
  {
  }

  predicate IsList(file: Option<seq<Token>>, elements: seq<Token>) {
    file == Some([Open] + elements + [Close]) && forall t | t in elements :: t != Open && t != Close
  }

  /** A file is taken for a list exactly when it is one from end to end. */
  lemma ElementsExactly(file: Option<seq<Token>>, elements: seq<Token>)
    ensures Elements(file) == Some(elements) <==> IsList(file, elements)
  {
    var whole := [Open] + elements + [Close];
    assert whole[1..|whole| - 1] == elements;
    if Elements(file) == Some(elements) {
      assert file.value == whole;
      forall t | t in elements ensures t.Rec? || t.Junk? { assert t in file.value[1..|file.value| - 1]; }
    }
    if IsList(file, elements) {
      forall t | t in elements ensures t.Rec? || t.Junk? {}
      assert whole[0] == Open && whole[|whole| - 1] == Close && |whole| >= 2;
      assert Elements(Some(whole)) == Some(elements);
    }
  }

  /** What a file holds is loaded only when it is a list. */
  lemma LoadedFromList(file: Option<seq<Token>>, runner: Word, fingerprint: Option<Word>)
    requires Loaded(file, runner, fingerprint).Some?
    ensures fingerprint.Some? && HexFingerprint(fingerprint.value)
    ensures exists elements :: IsList(file, elements)
  {
    hide Parse, Matching, HexFingerprint, ValidFingerprint;
    FingerprintsAgree(fingerprint.value);
    ElementsExactly(file, Elements(file).value);
  }

  /** The store writes down exactly the attestations that are safe and state, under the prefix of
      an operator, all that their runner's operator has to state. */
  lemma StorableExactly(a: Attestation)
    requires a.runner in {"codex", "claude"}
    ensures Storable(a) <==>
      && States(a.evidence, a.runner) && HexFingerprint(a.fingerprint)
      && a.route == "subscription_included" && a.capacity == "available" && a.confidence == "high"
      && a.protection == (if a.runner == "codex" then "verified_zero_balance_and_auto_top_up_disabled"
                          else "provider_enforced_disabled")
  {
    hide States, Semantic, CodeOf, ExpectedCodes, ValidFingerprint, HexFingerprint;
    FingerprintsAgree(a.fingerprint);
    PrefixedCodes(a.evidence, a.runner);
  }

  lemma PrefixedCodes(evidence: seq<Word>, runner: Word)
    requires runner in {"codex", "claude"}
    ensures
      (forall e | e in evidence :: Semantic(e)) && SameCodes(Map(evidence, CodeOf), ExpectedCodes(runner))
      <==> States(evidence, runner)
  {
    hide ExpectedCodes, Semantic, CodeOf, Statements;
    var codes := Map(evidence, CodeOf);
    forall e: Word | Semantic(e) ensures e == PREFIX + CodeOf(e) { Prefixed(e); }
    forall w: Word ensures w in Statements(runner) <==> Semantic(w) && CodeOf(w) in ExpectedCodes(runner) {
      StatementsArePrefixed(runner, w);
    }
    forall c | c in ExpectedCodes(runner) ensures Semantic(PREFIX + c) && CodeOf(PREFIX + c) == c { Prefixing(c); }
    if States(evidence, runner) {
      forall c | c in ExpectedCodes(runner) ensures c in codes {
        var i :| 0 <= i < |evidence| && evidence[i] == PREFIX + c;
        assert codes[i] == c;
      }
    }
    if (forall e | e in evidence :: Semantic(e)) && SameCodes(codes, ExpectedCodes(runner)) {
      forall e | e in Statements(runner) ensures e in evidence {
        var i :| 0 <= i < |codes| && codes[i] == CodeOf(e);
        assert evidence[i] == e;
      }
    }
  }

  lemma Prefixed(e: Word)
    requires Semantic(e)
    ensures e == PREFIX + CodeOf(e)
  {
  }

  lemma Prefixing(c: Word)
    ensures Semantic(PREFIX + c) && CodeOf(PREFIX + c) == c
  {
    assert (PREFIX + c)[..|PREFIX|] == PREFIX && (PREFIX + c)[|PREFIX|..] == c;
  }

  lemma StatementsArePrefixed(runner: Word, w: Word)
    requires runner in {"codex", "claude"}
    ensures w in Statements(runner) <==> Semantic(w) && CodeOf(w) in ExpectedCodes(runner)
  {
    hide Semantic, CodeOf, ExpectedCodes, Statements;
    StatementsAreCodes(runner, w);
    if Semantic(w) { Prefixed(w); }
    forall c ensures Semantic(PREFIX + c) && CodeOf(PREFIX + c) == c { Prefixing(c); }
    assert CodesFor(runner) == Evidence(ExpectedCodes(runner));
    if w in CodesFor(runner) {
      var i :| 0 <= i < |ExpectedCodes(runner)| && w == PREFIX + ExpectedCodes(runner)[i];
    }
    if Semantic(w) && CodeOf(w) in ExpectedCodes(runner) {
      var i :| 0 <= i < |ExpectedCodes(runner)| && CodeOf(w) == ExpectedCodes(runner)[i];
      assert Evidence(ExpectedCodes(runner))[i] == w;
    }
  }

  /** The loader answers exactly when the file is a list in which one element, and no more, is a
      readable record of the account; and it answers with that record. */
  lemma LoadedExactly(elements: seq<Token>, runner: Word, fingerprint: Word, a: Attestation)
    requires forall t | t in elements :: t.Rec? || t.Junk?
    ensures Loaded(Some([Open] + elements + [Close]), runner, Some(fingerprint)) == Some(a) <==>
      exists i: nat :: Sole(elements, i, runner, fingerprint) && Parse(elements[i].record) == Some(a)
  {
    hide Readable, Parse, Matching, HexFingerprint, ValidFingerprint;
    var file := [Open] + elements + [Close];
    assert file[1..|file| - 1] == elements;
    SoleExactly(elements, runner, fingerprint);
    forall i: nat | Sole(elements, i, runner, fingerprint) ensures ValidFingerprint(fingerprint) {
      ReadableIsHex(elements[i].record);
      FingerprintsAgree(fingerprint);
    }
    forall i: nat | Sole(elements, i, runner, fingerprint) ensures Parse(elements[i].record).Some? {
      ParsedExactly(elements[i].record);
    }
  }

  lemma ReadableIsHex(r: Record)
    requires Readable(r)
    ensures HexFingerprint(r.fingerprint)
  {
    hide HexFingerprint;
  }
}
