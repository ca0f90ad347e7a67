/** What a refresh asks of the machine's evidence, what it stores, and how far that carries. */
module RefreshLaws {
  import opened Prelude
  import opened Sequences
  import opened Billing
  import opened BillingLaws
  import opened AttestationStoring

  predicate Timely(x: Assessment, t: real) {
    && 0.0 <= t && x.capacityObservedAt.Some? && x.capacityExpiresAt.Some?
    && Covers(x.capacityObservedAt.value, x.capacityExpiresAt.value, t, t)
  }

  /** A refresh is supported by an assessment that no attestation has gone into: the included route
      with high confidence, a verified account, and paid continuation not known to be enabled; for
      one runner with available capacity and a zero balance, current both before and after the
      operator's part; for the other with nothing known against its capacity or its balance. */
  lemma SupportedExactly(x: Assessment, runner: Word, before: real, observedAt: real)
    ensures Supported(x, runner, before, observedAt) <==>
      && runner in {"codex", "claude"} && x.runner == runner && x.attestation == None
      && x.route == "subscription_included" && x.confidence == "high"
      && x.fingerprint.Some? && HexFingerprint(x.fingerprint.value) && x.protection != "enabled"
      && (runner == "codex" ==>
            x.capacity == "available" && x.balance == "zero" && Timely(x, before) && Timely(x, observedAt))
      && (runner == "claude" ==>
            && x.capacity != "limit_reached" && x.capacity != "blocked_until_reset" && x.capacity != "cooldown"
            && (x.balance == "not_applicable" || x.balance == "zero"))
  {
    hide ValidFingerprint, HexFingerprint;
    if x.fingerprint.Some? { FingerprintsAgree(x.fingerprint.value); }
  }

  function Lifetime(runner: Word): real { if runner == "codex" then 3600.0 else 900.0 }

  /** What is stored: an hour for one runner, a quarter of an hour for the other. */
  lemma BuiltExactly(x: Assessment, observedAt: real)
    requires x.runner in {"codex", "claude"} && x.fingerprint.Some?
    ensures
      var a := Built(x, observedAt);
      && a.runner == x.runner && Some(a.fingerprint) == x.fingerprint && a.route == "subscription_included"
      && a.capacity == "available" && a.confidence == "high" && States(a.evidence, x.runner)
      && a.observedAt == observedAt && a.expiresAt == observedAt + Lifetime(x.runner)
      && (x.runner == "codex" ==> a.protection == "verified_zero_balance_and_auto_top_up_disabled")
      && (x.runner == "claude" ==> a.protection == "provider_enforced_disabled")
  {
    hide Evidence, ExpectedCodes, States;
    var a := Built(x, observedAt);
    EvidenceIsAuthorized(x.runner);
    EvidenceAgrees(a);
  }

  /** From a refresh to the policy: with the attestation that was stored, a route is let pass
      exactly for the same runner and account, while the account's own evidence holds and within
      the lifetime of the attestation. */
  lemma RefreshServesExactly(x: Assessment, observedAt: real, y: Assessment, now: real, until: Option<real>)
    requires x.runner in {"codex", "claude"} && x.fingerprint.Some?
    requires y.attestation == Some(Built(x, observedAt))
    ensures
      var end := if until.Some? then until.value else now;
      Blockers(y, now, until) == [] <==>
        && 0.0 <= observedAt <= now <= end < observedAt + Lifetime(x.runner)
        && y.runner == x.runner && y.fingerprint == x.fingerprint && OwnEvidence(y, now, end)
  {
    hide Built, Blockers, States, HexFingerprint;
    NothingBlocksExactly(y, now, until);
    BuiltExactly(x, observedAt);
  }

  // ---- What is kept of the file.

  /** A record in the form in which it is written: its codes in the fixed order. */
  function Written(r: Record): Record { r.(codes := ExpectedCodes(r.runner)) }

  predicate Lasts(r: Record, now: real) {
    now < r.expiresAt ==> r.observedAt <= now && r.expiresAt <= r.observedAt + 86400.0
  }

  /** Readable records, no two of one account, none observed in the future or lasting too long. */
  predicate Keepable(elements: seq<Token>, now: real) {
    && (forall t | t in elements :: t.Rec? && Readable(t.record) && Lasts(t.record, now))
    && forall i, j | 0 <= i < j < |elements| ::
         !(elements[i].record.runner == elements[j].record.runner
           && elements[i].record.fingerprint == elements[j].record.fingerprint)
  }

  /** A refresh reads the old list exactly when it is keepable, and keeps of it the records that
      have not expired; otherwise it is refused. */
  lemma {:induction false} RetainedExactly(elements: seq<Token>, now: real)
    ensures RetainedOf(elements, now).Ok? <==> Keepable(elements, now)
    ensures RetainedOf(elements, now).Ok? ==>
      forall r :: r in RetainedOf(elements, now).value <==>
        exists t | t in elements :: now < t.record.expiresAt && r == Written(t.record)
  {
    hide Readable, Parse, Lasts, Retain, Accounts, Written;
    if elements != [] {
      var n := |elements| - 1;
      var init, last := elements[..n], elements[n];
      RetainedExactly(init, now);
      RetainedOne(elements, n, now);
      assert elements[..n + 1] == elements && elements == init + [last];
      KeepableOne(elements, now);
      if RetainedOf(init, now).Ok? { RetainsOne(init, RetainedOf(init, now).value, last, now); }
    }
  }

  /** The file is read when there is none, and otherwise exactly when it is a keepable list. */
  lemma ReadsExactly(file: Content, now: real)
    ensures Retained(file, now).Ok? <==>
      file == None || exists elements :: IsList(file, elements) && Keepable(elements, now)
  {
    hide RetainedOf, Keepable, Elements, IsList;
    forall elements ensures Elements(file) == Some(elements) <==> IsList(file, elements) {
      ElementsExactly(file, elements);
    }
    if Elements(file).Some? { RetainedExactly(Elements(file).value, now); }
  }

  predicate Clashes(init: seq<Token>, last: Token)
    requires last.Rec? && forall t | t in init :: t.Rec?
  {
    exists t | t in init :: t.record.runner == last.record.runner && t.record.fingerprint == last.record.fingerprint
  }

  lemma KeepableOne(elements: seq<Token>, now: real)
    requires elements != []
    ensures
      var n := |elements| - 1;
      Keepable(elements, now) <==>
        && Keepable(elements[..n], now) && elements[n].Rec? && Readable(elements[n].record)
        && Lasts(elements[n].record, now) && !Clashes(elements[..n], elements[n])
  {
    hide Readable, Lasts;
    var n := |elements| - 1;
    var init := elements[..n];
    assert elements == init + [elements[n]];
  }

  lemma RetainsOne(init: seq<Token>, retained: seq<Record>, last: Token, now: real)
    requires forall t | t in init :: t.Rec?
    ensures
      Retain(Accounts(init), retained, last, now) ==
        if !last.Rec? || !Readable(last.record) || !Lasts(last.record, now) || Clashes(init, last)
        then Raised(ConfigurationError)
        else Ok(retained + if now < last.record.expiresAt then [Written(last.record)] else [])
  {
    hide Readable, Parse, ExpectedCodes;
    if last.Rec? {
      ParsedExactly(last.record);
      assert AccountOf(last) in Accounts(init) <==> Clashes(init, last);
      assert retained + [] == retained;
    }
  }
}
