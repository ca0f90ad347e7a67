/** The store of billing attestations: refreshed on request, replaced atomically. */
module AttestationStoring {
  import opened Prelude
  import opened Canon
  import opened Sequences
  import opened Billing

  // ---- Reading the retained records.

  type Account = (Word, Word)

  function AccountOf(t: Token): Option<Account> {
    if t.Rec? then Some((t.record.runner, t.record.fingerprint)) else None
  }

  predicate WindowValid(r: Record, now: real) {
    r.observedAt <= now && r.observedAt < r.expiresAt && r.expiresAt - r.observedAt <= MAX_LIFETIME
  }

  function Accounts(elements: seq<Token>): set<Option<Account>> { set t | t in elements :: AccountOf(t) }

  /** What one more element does to the list: it is refused, skipped or retained. */
  function Retain(seen: set<Option<Account>>, retained: seq<Record>, t: Token, now: real): Outcome<seq<Record>> {
    if !t.Rec? || Parse(t.record) == None || AccountOf(t) in seen then Raised(ConfigurationError)
    else if t.record.expiresAt <= now then Ok(retained)
    else if !WindowValid(t.record, now) then Raised(ConfigurationError)
    else Ok(retained + [RecordOf(Parse(t.record).value)])
  }

  /** The list that `_read_retained_records` builds, unless it refuses an element. */
  function RetainedOf(elements: seq<Token>, now: real): Outcome<seq<Record>> {
    if elements == [] then Ok([])
    else
      var init := elements[..|elements| - 1];
      var before := RetainedOf(init, now);
      if before.Raised? then before else Retain(Accounts(init), before.value, elements[|elements| - 1], now)
  }

  lemma RetainedOne(elements: seq<Token>, i: nat, now: real)
    requires i < |elements|
    ensures RetainedOf(elements[..i + 1], now) ==
      var before := RetainedOf(elements[..i], now);
      if before.Raised? then before else Retain(Accounts(elements[..i]), before.value, elements[i], now)
    ensures Accounts(elements[..i + 1]) == Accounts(elements[..i]) + {AccountOf(elements[i])}
  {
    hide Retain, AccountOf;
    assert elements[..i + 1][..i] == elements[..i] && elements[..i + 1] == elements[..i] + [elements[i]];
  }

  function Retained(file: Option<seq<Token>>, now: real): Outcome<seq<Record>> {
    if file == None then Ok([])
    else if Elements(file) == None then Raised(ConfigurationError)
    else RetainedOf(Elements(file).value, now)
  }

  lemma {:induction false} StaysRaised(elements: seq<Token>, now: real, n: nat)
    requires n <= |elements| && RetainedOf(elements[..n], now).Raised?
    ensures RetainedOf(elements, now).Raised?
    decreases |elements|
  {
    if n < |elements| {
      assert elements[..|elements| - 1][..n] == elements[..n];
      StaysRaised(elements[..|elements| - 1], now, n);
    } else {
      assert elements[..n] == elements;
    }
  }

  lemma {:induction false} OnlyConfigurationErrors(elements: seq<Token>, now: real)
    ensures RetainedOf(elements, now).Raised? ==> RetainedOf(elements, now) == Raised(ConfigurationError)
  {
    if elements != [] { OnlyConfigurationErrors(elements[..|elements| - 1], now); }
  }

  /** `_read_retained_records`, past the checks of the file itself */
  method ReadRetained(file: Option<seq<Token>>, now: real) returns (r: Outcome<seq<Record>>)
    ensures r == Retained(file, now)
  {
    hide Parse, Elements, WindowValid, RetainedOf, Accounts;
    if file == None { return Ok([]); }
    var elements := Elements(file);
    if elements == None { return Raised(ConfigurationError); }
    var retained: seq<Record> := [];
    var seen: set<Option<Account>> := {};
    OnlyConfigurationErrors(elements.value, now);
    NothingRetained(now);
    for i := 0 to |elements.value|
      invariant RetainedOf(elements.value[..i], now) == Ok(retained) && seen == Accounts(elements.value[..i])
    {
      var t := elements.value[i];
      RetainedOne(elements.value, i, now);
      if RetainedOf(elements.value[..i + 1], now).Raised? { StaysRaised(elements.value, now, i + 1); }
      if !t.Rec? || Parse(t.record) == None { return Raised(ConfigurationError); }
      if AccountOf(t) in seen { return Raised(ConfigurationError); }
      seen := seen + {AccountOf(t)};
      if t.record.expiresAt > now {
        if !WindowValid(t.record, now) { return Raised(ConfigurationError); }
        retained := retained + [RecordOf(Parse(t.record).value)];
      }
    }
    assert elements.value[..|elements.value|] == elements.value;
    r := Ok(retained);
  }

  lemma NothingRetained(now: real)
    ensures RetainedOf([], now) == Ok([]) && Accounts([]) == {}
  {
  }

  // ---- The document that replaces the file.

  function RecordKey(r: Record): Key { EncodeString(r.runner) + EncodeString(r.fingerprint) }

  function WithoutRunner(records: seq<Record>, runner: Word): (s: seq<Record>)
    ensures forall r :: r in s <==> r in records && r.runner != runner
  {
    Filter(records, (r: Record) => r.runner != runner)
  }

  function Merged(retained: seq<Record>, a: Attestation): seq<Record> {
    SortBy(WithoutRunner(retained, a.runner) + [RecordOf(a)], RecordKey)
  }

  function Document(records: seq<Record>): seq<Token> { [Open] + Recs(records) + [Close] }

  lemma DocumentElements(records: seq<Record>)
    ensures Elements(Some(Document(records))) == Some(Recs(records))
  {
    var d := Document(records);
    assert d[1..|d| - 1] == Recs(records);
  }

  // ---- The store's own history.

  /** Records as a refresh leaves them: in the written form, one for each runner, observed by
      now, and none with a longer life than is allowed. */
  predicate OwnRecords(records: seq<Record>, now: real) {
    && (forall r | r in records :: Canonical(r) && WindowValid(r, now))
    && Distinct(records) && forall r, s | r in records && s in records && r.runner == s.runner :: r == s
  }

  ghost predicate Own(file: Option<seq<Token>>, now: real) {
    file == None || exists records :: file == Some(Document(records)) && OwnRecords(records, now)
  }

  function Current(records: seq<Record>, now: real): (s: seq<Record>)
    ensures forall r :: r in s <==> r in records && r.expiresAt > now
  {
    Filter(records, (r: Record) => r.expiresAt > now)
  }

  lemma CurrentOne(records: seq<Record>, now: real)
    requires records != []
    ensures
      var n := |records| - 1;
      Current(records, now) == Current(records[..n], now) + if records[n].expiresAt > now then [records[n]] else []
  {
  }

  function Recs(records: seq<Record>): seq<Token> { Map(records, (r: Record) => Rec(r)) }

  /** The store reads back what it wrote: the records that have not expired, as they are. */
  lemma {:induction false} OwnReadsBack(records: seq<Record>, clock: real, now: real)
    requires OwnRecords(records, clock) && clock <= now
    ensures RetainedOf(Recs(records), now) == Ok(Current(records, now))
  {
    hide Parse, Current, RetainedOf, Retain, Accounts, WindowValid;
    if records != [] {
      var n := |records| - 1;
      var init, tokens := records[..n], Recs(records);
      assert tokens[..n] == Recs(init) && tokens[..n + 1] == tokens;
      OwnPart(records, init, clock);
      OwnReadsBack(init, clock, now);
      CurrentOne(records, now);
      RetainedOne(tokens, n, now);
      OwnIsRetained(records, clock, now);
    } else {
      NothingCurrent(now);
      NothingRetained(now);
    }
  }

  lemma OwnPart(records: seq<Record>, part: seq<Record>, now: real)
    requires OwnRecords(records, now) && Distinct(part) && forall r | r in part :: r in records
    ensures OwnRecords(part, now)
  {
    hide Canonical, WindowValid;
  }

  lemma OwnIsRetained(records: seq<Record>, clock: real, now: real)
    requires OwnRecords(records, clock) && clock <= now && records != []
    ensures
      var n := |records| - 1;
      forall before :: Retain(Accounts(Recs(records)[..n]), before, Rec(records[n]), now)
        == Ok(before + if records[n].expiresAt > now then [records[n]] else [])
  {
    hide Parse;
    var n, tokens := |records| - 1, Recs(records);
    assert records[n] in records;
    ParsedIsStorable(records[n]);
    forall t | t in tokens[..n] ensures AccountOf(t) != AccountOf(Rec(records[n])) {
      var i :| 0 <= i < n && tokens[..n][i] == t;
      assert records[i] != records[n] && records[i] in records;
    }
    forall before: seq<Record> ensures before + [] == before {}
  }

  lemma NothingCurrent(now: real)
    ensures Current([], now) == []
  {
  }

  // ---- Refreshing.

  /** An attestation as a refresh builds it. */
  predicate Formed(a: Attestation) {
    && a.runner in {CODEX, CLAUDE} && Storable(a) && a.evidence == Evidence(ExpectedCodes(a.runner))
    && a.observedAt < a.expiresAt <= a.observedAt + MAX_LIFETIME
  }

  /** And as it can be read back. */
  predicate Fresh(a: Attestation) { Formed(a) && ValidTime(a.observedAt) }

  lemma FreshIsRead(a: Attestation, now: real)
    requires Fresh(a) && a.observedAt <= now
    ensures Canonical(RecordOf(a)) && WindowValid(RecordOf(a), now) && Parse(RecordOf(a)) == Some(a)
  {
    hide Storable, Evidence, ExpectedCodes, Parse;
    StoredIsParsed(a);
  }

  lemma FilterDistinct<T(!new)>(s: seq<T>, keep: T -> bool)
    requires Distinct(s)
    ensures Distinct(Filter(s, keep))
  {
    DistinctCounts(s);
    DistinctCounts(Filter(s, keep));
    forall x: T ensures multiset(Filter(s, keep))[x] <= 1 { FilterCounts(s, keep, x); }
  }

  /** What the file holds after a refresh: the new record, and those of the other runner that
      have not expired. */
  lemma MergedHolds(records: seq<Record>, a: Attestation, now: real)
    ensures
      var after := Merged(Current(records, now), a);
      && (forall r :: r in after <==> r == RecordOf(a) || (r in records && r.runner != a.runner && r.expiresAt > now))
      && (Distinct(records) ==> Distinct(after))
  {
    hide RecordKey;
    var current := Current(records, now);
    var others := WithoutRunner(current, a.runner);
    Reordered(Merged(current, a), others + [RecordOf(a)]);
    if Distinct(records) {
      FilterDistinct(records, (r: Record) => r.expiresAt > now);
      FilterDistinct(current, (r: Record) => r.runner != a.runner);
      DistinctMore(others, RecordOf(a));
      DistinctReordered(Merged(current, a), others + [RecordOf(a)]);
    }
  }

  lemma MergedIsOwn(records: seq<Record>, clock: real, a: Attestation)
    requires OwnRecords(records, clock) && clock <= a.observedAt && Fresh(a)
    ensures OwnRecords(Merged(Current(records, a.observedAt), a), a.observedAt)
  {
    hide Canonical, Fresh, Merged, Current, RecordOf;
    MergedHolds(records, a, a.observedAt);
    FreshIsRead(a, a.observedAt);
  }

  // ---- Loading what was stored.

  lemma {:induction false} AllCount<T>(s: seq<T>, x: T)
    requires forall y | y in s :: y == x
    ensures multiset(s)[x] == |s|
  {
    if s != [] {
      var init := s[..|s| - 1];
      assert s == init + [s[|s| - 1]] && s[|s| - 1] in s;
      assert forall y | y in init :: y in s;
      AllCount(init, x);
    }
  }

  lemma Alone<T(!new)>(s: seq<T>, x: T)
    requires Distinct(s) && x in s && forall y | y in s :: y == x
    ensures s == [x]
  {
    DistinctCounts(s);
    assert multiset(s)[x] == |s| by { AllCount(s, x); }
  }

  lemma RecsDistinct(records: seq<Record>)
    requires Distinct(records)
    ensures Distinct(Recs(records)) && forall t :: t in Recs(records) <==> t.Rec? && t.record in records
  {
    var tokens := Recs(records);
    forall t ensures t in tokens <==> t.Rec? && t.record in records {
      if t.Rec? && t.record in records {
        var i :| 0 <= i < |records| && records[i] == t.record;
        assert tokens[i] == t;
      }
    }
  }

  /** The loader finds the record of an account, if the store has it. */
  lemma LoadsOwn(records: seq<Record>, clock: real, runner: Word, fingerprint: Word)
    requires OwnRecords(records, clock) && ValidFingerprint(fingerprint)
    ensures
      var loaded := Loaded(Some(Document(records)), runner, Some(fingerprint));
      && (forall r | r in records && r.runner == runner && r.fingerprint == fingerprint :: loaded == Parse(r))
      && (loaded.Some? ==> exists r :: r in records && r.runner == runner && r.fingerprint == fingerprint)
  {
    hide Parse, ValidFingerprint, Document, Elements, Recs;
    var tokens := Recs(records);
    var found := Matching(tokens, runner, fingerprint);
    DocumentElements(records);
    RecsDistinct(records);
    FilterDistinct(tokens, (t: Token) => Matches(t, runner, fingerprint));
    forall r | r in records && r.runner == runner && r.fingerprint == fingerprint
      ensures Loaded(Some(Document(records)), runner, Some(fingerprint)) == Parse(r) {
      assert Rec(r) in found;
      Alone(found, Rec(r));
    }
    if |found| == 1 { assert found[0] in found; }
  }

  /** After a refresh the loader returns the attestation just stored, no other of that runner, and
      of the other runner what it returned before, if it has not expired. */
  lemma LoadsAfterRefresh(records: seq<Record>, clock: real, a: Attestation, runner: Word, fingerprint: Word)
    requires OwnRecords(records, clock) && clock <= a.observedAt && Fresh(a) && ValidFingerprint(fingerprint)
    ensures
      var before := Loaded(Some(Document(records)), runner, Some(fingerprint));
      var after := Loaded(Some(Document(Merged(Current(records, a.observedAt), a))), runner, Some(fingerprint));
      after ==
        if runner == a.runner then if fingerprint == a.fingerprint then Some(a) else None
        else if before.Some? && before.value.expiresAt > a.observedAt then before
        else None
  {
    hide Parse, ValidFingerprint, Document, Loaded, Merged, Current, Fresh, WindowValid;
    var now := a.observedAt;
    var merged := Merged(Current(records, now), a);
    MergedHolds(records, a, now);
    MergedIsOwn(records, clock, a);
    FreshIsRead(a, now);
    LoadsOwn(records, clock, runner, fingerprint);
    LoadsOwn(merged, now, runner, fingerprint);
    forall r | r in records ensures Parse(r).Some? && Parse(r).value.expiresAt == r.expiresAt { ParsedExpiry(r); }
  }

  lemma ParsedExpiry(r: Record)
    requires Canonical(r)
    ensures Parse(r).Some? && Parse(r).value.expiresAt == r.expiresAt
  {
  }

  /** A record observed before the epoch is stored and then refused by every read. */
  lemma NegativeRecordIsRefused(a: Attestation, now: real)
    requires Formed(a) && !ValidTime(a.observedAt)
    ensures Parse(RecordOf(a)) == None && Retained(Some(Document([RecordOf(a)])), now).Raised?
  {
    hide ValidFingerprint, Storable, ExpectedCodes, Parse, Evidence;
    StoredIsParsed(a);
    DocumentElements([RecordOf(a)]);
    RetainedOne(Recs([RecordOf(a)]), 0, now);
    NothingRetained(now);
  }

  // ---- The machine evidence.

  const CODEX_TTL := 3600.0
  const CLAUDE_TTL := 900.0

  predicate CommonEvidence(x: Assessment, runner: Word) {
    && x.runner == runner && x.attestation == None && x.route == INCLUDED && x.confidence == HIGH
    && x.fingerprint.Some? && ValidFingerprint(x.fingerprint.value) && x.protection != "enabled"
  }

  predicate CodexEvidence(x: Assessment, now: real) {
    && ValidTime(now) && x.capacity == AVAILABLE && x.balance == "zero"
    && CurrentWindow(x.capacityObservedAt, x.capacityExpiresAt, now, now)
  }

  predicate ClaudeEvidence(x: Assessment) {
    && x.capacity !in {"limit_reached", "blocked_until_reset", "cooldown"} && x.balance in {"not_applicable", "zero"}
  }

  /** The attestation that a confirmed refresh builds at `observedAt`. */
  function Built(x: Assessment, observedAt: real): Attestation {
    Attestation(
      x.runner, if x.fingerprint.Some? then x.fingerprint.value else "", INCLUDED, AVAILABLE, ExpectedProtection(x.runner),
      observedAt, observedAt + if x.runner == CODEX then CODEX_TTL else CLAUDE_TTL, HIGH, Evidence(ExpectedCodes(x.runner)))
  }

  /** Whether the machine's evidence supports a refresh, before and after the operator's part. */
  predicate Supported(x: Assessment, runner: Word, before: real, observedAt: real) {
    && runner in {CODEX, CLAUDE} && CommonEvidence(x, runner)
    && if runner == CODEX then CodexEvidence(x, before) && CodexEvidence(x, observedAt) else ClaudeEvidence(x)
  }

  lemma BuiltIsFormed(x: Assessment, runner: Word, observedAt: real)
    requires runner in {CODEX, CLAUDE} && CommonEvidence(x, runner)
    ensures Formed(Built(x, observedAt))
  {
    hide ValidFingerprint, ExpectedCodes, Evidence, Semantic, CodeOf;
    CodesBack(ExpectedCodes(runner));
    ExpectedAreSame(runner);
  }

  // ---- The file.

  type Content = Option<seq<Token>>

  /** The file under its name, the temporary file being written, and what a crash would leave
      under the name: one of `crash`, and at every earlier moment one of that element of
      `history`.  Every system call may fail. */
  class AttestationStore {
    var file: Content
    var temp: Content
    ghost var synced: bool
    ghost var crash: set<Content>
    ghost var history: seq<set<Content>>
    ghost var faults: nat
    ghost var clock: real

    ghost predicate Valid()
      reads this
    {
      && file in crash && forall f | f in crash :: Own(f, clock)
    }

    constructor (ghost at: real)
      ensures Valid() && file == None && clock == at && temp == None && faults == 0
    {
      file, temp := None, None;
      synced, crash, history, faults, clock := false, {None}, [], 0, at;
    }

    /** The store after a crash: the name leads to one of its outcomes. */
    constructor Recovered(outcome: Content, ghost at: real)
      requires Own(outcome, at)
      ensures Valid() && file == outcome && clock == at && temp == None && faults == 0
    {
      file, temp := outcome, None;
      synced, crash, history, faults, clock := false, {outcome}, [], 0, at;
    }

    /** `os.open` with O_CREAT | O_EXCL under a fresh name; an earlier temporary file that could not
        be removed is abandoned. */
    method CreateTemp() returns (ok: bool)
      modifies this`temp, this`synced, this`history, this`faults
      ensures history == old(history) + [crash] && faults == old(faults) + (if ok then 0 else 1)
      ensures temp == (if ok then Some([]) else None) && !synced
    {
      ok := *;
      temp := if ok then Some([]) else None;
      synced, history, faults := false, history + [crash], faults + if ok then 0 else 1;
    }

    /** `os.write`: some part of what it is given. */
    method WriteTemp(rest: seq<Token>) returns (ok: bool, n: nat)
      requires temp.Some? && rest != []
      modifies this`temp, this`synced, this`history, this`faults
      ensures history == old(history) + [crash] && n <= |rest|
      ensures faults == old(faults) + if ok && n > 0 then 0 else 1
      ensures ok ==> temp == Some(old(temp).value + rest[..n]) && !synced
      ensures !ok ==> temp == old(temp) && synced == old(synced)
    {
      ok := *;
      n := 0;
      if ok {
        n :| 0 <= n <= |rest|;
        temp, synced := Some(temp.value + rest[..n]), false;
      }
      history, faults := history + [crash], faults + if ok && n > 0 then 0 else 1;
    }

    method SyncTemp() returns (ok: bool)
      requires temp.Some?
      modifies this`synced, this`history, this`faults
      ensures history == old(history) + [crash] && faults == old(faults) + (if ok then 0 else 1)
      ensures synced == (ok || old(synced))
    {
      ok := *;
      synced := ok || synced;
      history, faults := history + [crash], faults + if ok then 0 else 1;
    }

    /** `os.replace`: a reader sees the new file at once; a crash may leave either, and of a file
        that was not synced any part. */
    method Replace() returns (ok: bool)
      requires temp.Some?
      modifies this`file, this`temp, this`crash, this`history, this`faults
      ensures faults == old(faults) + (if ok then 0 else 1) && history == old(history) + [crash]
      ensures ok ==> file == old(temp) && temp == None
      ensures ok ==> crash == old(crash) + {old(temp)}
                              + if synced then {} else set i | 0 <= i <= |old(temp).value| :: Some(old(temp).value[..i])
      ensures !ok ==> file == old(file) && temp == old(temp) && crash == old(crash)
    {
      ok := *;
      if ok {
        crash := crash + {temp} + if synced then {} else set i | 0 <= i <= |temp.value| :: Some(temp.value[..i]);
        file, temp := temp, None;
      }
      history, faults := history + [crash], faults + if ok then 0 else 1;
    }

    method SyncDirectory() returns (ok: bool)
      modifies this`crash, this`history, this`faults
      ensures faults == old(faults) + (if ok then 0 else 1) && history == old(history) + [crash]
      ensures crash == if ok then {file} else old(crash)
    {
      ok := *;
      crash := if ok then {file} else crash;
      history, faults := history + [crash], faults + if ok then 0 else 1;
    }

    method UnlinkTemp()
      modifies this`temp, this`history, this`faults
      ensures history == old(history) + [crash]
      ensures (temp == None && faults == old(faults)) || (temp == old(temp) && faults == old(faults) + 1)
    {
      var ok: bool := *;
      temp := if ok then None else temp;
      history, faults := history + [crash], faults + if ok then 0 else 1;
    }

    /** `_write_all` */
    method WriteAll(payload: seq<Token>) returns (ok: bool)
      requires temp == Some([])
      modifies this`temp, this`synced, this`history, this`faults
      ensures |history| >= |old(history)| && history[..|old(history)|] == old(history)
      ensures forall i | |old(history)| <= i < |history| :: history[i] == crash
      ensures ok ==> temp == Some(payload) && faults == old(faults)
      ensures !ok ==> temp.Some? && faults > old(faults)
    {
      var offset := 0;
      while offset < |payload|
        invariant offset <= |payload| && temp == Some(payload[..offset]) && faults == old(faults)
        invariant |history| >= |old(history)| && history[..|old(history)|] == old(history)
        invariant forall i | |old(history)| <= i < |history| :: history[i] == crash
      {
        var written, n := WriteTemp(payload[offset..]);
        if !written || n == 0 { return false; }
        assert payload[..offset] + payload[offset..][..n] == payload[..offset + n];
        offset := offset + n;
      }
      assert payload[..|payload|] == payload;
      ok := true;
    }

    /** The new file, written and synced under its temporary name. */
    method StageTemp(payload: seq<Token>) returns (ok: bool)
      modifies this`temp, this`synced, this`history, this`faults
      ensures |history| >= |old(history)| && history[..|old(history)|] == old(history)
      ensures forall i | |old(history)| <= i < |history| :: history[i] == crash
      ensures ok ==> temp == Some(payload) && synced && faults == old(faults)
      ensures !ok ==> faults > old(faults)
    {
      ok := CreateTemp();
      if !ok { return; }
      ok := WriteAll(payload);
      if !ok { return; }
      ok := SyncTemp();
    }

    /** `_write_private_attestation`, past the checks of the directory.  The file is the new one
        exactly when it was replaced, even if the call then fails; at every moment a crash leaves
        the old file or the whole new one; an error without a failing system call means that the
        file there could not be retained; and no single failure leaves a temporary file behind. */
    method WritePrivate(a: Attestation, now: real) returns (r: Outcome<seq<Token>>, ghost replaced: bool)
      requires file in crash
      modifies this`file, this`temp, this`synced, this`crash, this`history, this`faults
      ensures |history| >= |old(history)| && history[..|old(history)|] == old(history)
      ensures faults >= old(faults)
      ensures Retained(old(file), now).Raised? ==> r.Raised? && !replaced
      ensures !replaced ==> r.Raised? && file == old(file) && crash == old(crash)
      ensures Retained(old(file), now).Ok? ==>
        var new_file := Some(Document(Merged(Retained(old(file), now).value, a)));
        && (forall i | |old(history)| <= i < |history| :: history[i] <= old(crash) + {new_file})
        && (replaced ==> file == new_file && crash == if r.Ok? then {new_file} else old(crash) + {new_file})
        && (r.Ok? ==> Some(r.value) == new_file)
        && (r.Raised? ==> faults > old(faults))
      ensures old(temp) == None && temp.Some? ==> faults >= old(faults) + 2
    {
      hide Retained, Document, Merged;
      replaced := false;
      var retained := ReadRetained(file, now);
      if retained.Raised? { return Raised(retained.error), replaced; }
      var payload := Document(Merged(retained.value, a));
      var staged := StageTemp(payload);
      if !staged {
        if temp.Some? { UnlinkTemp(); }
        return Raised(ConfigurationError), replaced;
      }
      var renamed := Replace();
      replaced := renamed;
      if !renamed {
        UnlinkTemp();
        return Raised(ConfigurationError), replaced;
      }
      var settled := SyncDirectory();
      r := if settled then Ok(payload) else Raised(ConfigurationError);
    }

    /** A refresh, whatever system calls fail and whatever is interrupted.  The file is the new one
        exactly when it was replaced; a crash at any moment leaves what it might have left before,
        or the whole new file; and with the evidence, the operator's confirmation and no failing
        call, the refresh succeeds.  What is left is a file that the store can read back, unless a
        file was put in place at an instant before the epoch, which no later read accepts. */
    method Refresh(inspected: Option<Assessment>, runner: Word, before: real, observedAt: real, confirmed: bool)
      returns (r: Outcome<Attestation>, ghost replaced: bool)
      requires Valid() && clock <= before <= observedAt
      modifies this
      ensures clock == observedAt && faults >= old(faults)
      ensures old(temp) == None && temp.Some? ==> faults >= old(faults) + 2
      ensures |history| >= |old(history)| && history[..|old(history)|] == old(history)
      ensures Valid() <==> !replaced || ValidTime(observedAt)
      ensures replaced && !ValidTime(observedAt) ==> forall later :: Retained(file, later).Raised?
      ensures
        var supported := inspected.Some? && Supported(inspected.value, runner, before, observedAt) && confirmed;
        && (r.Ok? ==> replaced) && (replaced ==> supported)
        && (!supported ==> history == old(history))
        && (!replaced ==> file == old(file) && crash == old(crash))
        && (supported && faults == old(faults) ==> r.Ok?)
        && (supported ==>
              var new_file := Replacement(old(file), Built(inspected.value, observedAt));
              && (replaced ==> file == new_file)
              && forall i | |old(history)| <= i < |history| :: history[i] <= old(crash) + {new_file})
      ensures r.Ok? ==> r.value == Built(inspected.value, observedAt) && crash == {file}
      ensures replaced && ValidTime(observedAt) ==>
        forall u: Word, fingerprint | ValidFingerprint(fingerprint) ::
          Loaded(file, u, Some(fingerprint)) == AfterRefresh(old(file), Built(inspected.value, observedAt), u, fingerprint)
    {
      hide Retained, Document, Merged, Loaded, Own, Supported, Built, AfterRefresh, ValidFingerprint, Formed;
      ClockAdvances(crash, clock, observedAt);
      clock, replaced := observedAt, false;
      if inspected == None || !Supported(inspected.value, runner, before, observedAt) || !confirmed {
        return Raised(ConfigurationError), replaced;
      }
      var a := Built(inspected.value, observedAt);
      SupportedIsFormed(inspected.value, runner, before, observedAt);
      ghost var new_file := Replacement(file, a);
      if ValidTime(observedAt) {
        RefreshReads(file, old(clock), a);
        forall u: Word, fingerprint | ValidFingerprint(fingerprint)
          ensures Loaded(new_file, u, Some(fingerprint)) == AfterRefresh(file, a, u, fingerprint) {
          RefreshLoads(file, old(clock), a, u, fingerprint);
        }
      } else {
        UnreadableRefresh(file, old(clock), a);
      }
      var written;
      written, replaced := WritePrivate(a, observedAt);
      if written.Raised? { return Raised(written.error), replaced; }
      r := Ok(a);
    }
  }

  /** The file that a refresh puts in place of `file`, when that can be read. */
  function Replacement(file: Content, a: Attestation): Content {
    var retained := Retained(file, a.observedAt);
    if retained.Ok? then Some(Document(Merged(retained.value, a))) else file
  }

  /** What the loader returns after `a` was stored. */
  function AfterRefresh(file: Content, a: Attestation, runner: Word, fingerprint: Word): Option<Attestation> {
    var before := Loaded(file, runner, Some(fingerprint));
    if runner == a.runner then if fingerprint == a.fingerprint then Some(a) else None
    else if before.Some? && before.value.expiresAt > a.observedAt then before
    else None
  }

  lemma OwnLater(file: Content, clock: real, later: real)
    requires Own(file, clock) && clock <= later
    ensures Own(file, later)
  {
    hide Canonical, Document;
    if file.Some? {
      var records :| file == Some(Document(records)) && OwnRecords(records, clock);
      assert OwnRecords(records, later);
    }
  }

  lemma ClockAdvances(outcomes: set<Content>, clock: real, later: real)
    requires (forall f | f in outcomes :: Own(f, clock)) && clock <= later
    ensures forall f | f in outcomes :: Own(f, later)
  {
    forall f | f in outcomes ensures Own(f, later) { OwnLater(f, clock, later); }
  }

  lemma SupportedIsFormed(x: Assessment, runner: Word, before: real, observedAt: real)
    requires Supported(x, runner, before, observedAt)
    ensures Formed(Built(x, observedAt)) && Built(x, observedAt).observedAt == observedAt
  {
    hide CommonEvidence, CodexEvidence, ClaudeEvidence, Formed;
    BuiltIsFormed(x, runner, observedAt);
  }

  /** The store never fails to read back its own file, and what it writes is its own again. */
  lemma RefreshReads(file: Content, clock: real, a: Attestation)
    requires Own(file, clock) && clock <= a.observedAt && Fresh(a)
    ensures
      var retained := Retained(file, a.observedAt);
      retained.Ok? && Own(Some(Document(Merged(retained.value, a))), a.observedAt)
  {
    hide OwnRecords, Document, Elements, RetainedOf, Merged, Current, Fresh, Recs;
    var records := if file == None then [] else var rs :| file == Some(Document(rs)) && OwnRecords(rs, clock); rs;
    NoRecordsAreOwn(clock);
    NothingCurrent(a.observedAt);
    DocumentElements(records);
    OwnReadsBack(records, clock, a.observedAt);
    MergedIsOwn(records, clock, a);
  }

  lemma DocumentTells(a: seq<Record>, b: seq<Record>)
    requires Document(a) == Document(b)
    ensures a == b
  {
    DocumentElements(a);
    DocumentElements(b);
    assert Recs(a) == Recs(b);
    forall i | 0 <= i < |a| ensures |a| == |b| && a[i] == b[i] {
      assert |Recs(a)| == |Recs(b)| && Recs(a)[i] == Recs(b)[i];
    }
    assert |Recs(a)| == |Recs(b)|;
  }

  /** Before the epoch the store's own file can hold no record, and what a refresh then puts in
      its place is never again accepted. */
  lemma UnreadableRefresh(file: Content, clock: real, a: Attestation)
    requires Own(file, clock) && clock <= a.observedAt && Formed(a) && !ValidTime(a.observedAt)
    ensures Retained(file, a.observedAt).Ok? && Replacement(file, a) == Some(Document([RecordOf(a)]))
    ensures !Own(Replacement(file, a), a.observedAt) && forall later :: Retained(Replacement(file, a), later).Raised?
  {
    hide Document, Elements, RetainedOf, Merged, Current, Formed, Recs, Canonical, RecordOf;
    var records := if file == None then [] else var rs :| file == Some(Document(rs)) && OwnRecords(rs, clock); rs;
    if records != [] {
      assert records[0] in records;
      OwnIsAfterEpoch(records[0], clock);
    }
    NoRecordsAreOwn(clock);
    NothingCurrent(a.observedAt);
    DocumentElements(records);
    OwnReadsBack([], clock, a.observedAt);
    MergedAlone(a);
    forall later ensures Retained(Some(Document([RecordOf(a)])), later).Raised? { NegativeRecordIsRefused(a, later); }
    NegativeRecordIsRefused(a, a.observedAt);
    forall rs | Document(rs) == Document([RecordOf(a)]) ensures !OwnRecords(rs, a.observedAt) {
      DocumentTells(rs, [RecordOf(a)]);
      NotOwn(RecordOf(a), a.observedAt);
    }
  }

  lemma OwnIsAfterEpoch(r: Record, clock: real)
    requires Canonical(r) && WindowValid(r, clock)
    ensures 0.0 <= clock
  {
  }

  lemma NotOwn(r: Record, now: real)
    requires Parse(r) == None
    ensures !OwnRecords([r], now)
  {
    hide Parse;
    assert r in [r];
  }

  lemma MergedAlone(a: Attestation)
    ensures Merged([], a) == [RecordOf(a)]
  {
    hide RecordKey;
    assert WithoutRunner([], a.runner) == [];
    assert SortBy([RecordOf(a)], RecordKey) == [RecordOf(a)];
  }

  lemma NoRecordsAreOwn(clock: real)
    ensures OwnRecords([], clock)
  {
  }

  lemma RefreshLoads(file: Content, clock: real, a: Attestation, runner: Word, fingerprint: Word)
    requires Own(file, clock) && clock <= a.observedAt && Fresh(a) && ValidFingerprint(fingerprint)
    requires Retained(file, a.observedAt).Ok?
    ensures Loaded(Some(Document(Merged(Retained(file, a.observedAt).value, a))), runner, Some(fingerprint))
      == AfterRefresh(file, a, runner, fingerprint)
  {
    hide OwnRecords, Document, Elements, RetainedOf, Merged, Current, Fresh, Recs, Loaded, ValidFingerprint, Parse;
    var records := if file == None then [] else var rs :| file == Some(Document(rs)) && OwnRecords(rs, clock); rs;
    NoRecordsAreOwn(clock);
    NothingCurrent(a.observedAt);
    DocumentElements(records);
    OwnReadsBack(records, clock, a.observedAt);
    LoadsAfterRefresh(records, clock, a, runner, fingerprint);
    LoadsOwn(records, clock, runner, fingerprint);
    if file == None { NothingLoaded(runner, fingerprint); }
  }

  lemma NothingLoaded(runner: Word, fingerprint: Word)
    ensures Loaded(None, runner, Some(fingerprint)) == None
  {
  }

  /** From a confirmed refresh to the policy: for the attested account, the stored attestation
      raises no blocker at any instant and required end within its hour or quarter of an hour. */
  lemma RefreshIsEnough(x: Assessment, observedAt: real, y: Assessment, now: real, until: real)
    requires x.runner in {CODEX, CLAUDE} && CommonEvidence(x, x.runner) && ValidTime(observedAt)
    requires Attested(y, Built(x, observedAt)) && now <= until
    ensures AttestationBlockers(y, Built(x, observedAt), now, until) == [] <==>
      observedAt <= now && until < observedAt + if x.runner == CODEX then CODEX_TTL else CLAUDE_TTL
  {
    hide Formed, AttestationBlockers, Parse, Canonical, Evidence, ExpectedCodes;
    var a := Built(x, observedAt);
    BuiltIsFormed(x, x.runner, observedAt);
    FreshIsRead(a, observedAt);
    LoadedAttestation(y, a, RecordOf(a), now, until);
  }
}
