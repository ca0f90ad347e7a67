/** Building a bounded context pack from the hits of a search. */
module ContextPacking {
  import opened Prelude
  import opened Canon
  import opened Sequences
  import opened ContextIndexing

  /** `ContextSelectionRules` */
  datatype Rules = Rules(
    strategy: string, query: string, maxCandidates: int, maxSources: nat, maxBytes: nat, maxTokens: nat,
    kinds: seq<string>, excludedIds: seq<string>, notes: seq<string>)

  /** A source of the pack, with its size. */
  datatype Included = Included(
    id: string, kind: string, title: string, timestamp: string, hash: Text, content: string, rank: nat, tokens: nat,
    bytes: nat, metadata: Json)
  datatype Reason = ExplicitlyExcluded | SourceType | MaxSources | MaxBytes | MaxTokens
  datatype Excluded = Excluded(id: string, reason: Reason, detail: string)

  datatype Pack = Pack(
    taskId: string, taskVersion: string, promptVersion: string, query: string, rules: Json, sources: seq<Included>,
    exclusions: seq<Excluded>, considered: nat, included: nat, bytes: nat, tokens: nat, snapshot: Text)

  // ---- Sizes.

  /** The length of a text in UTF-8. */
  function ByteCount(s: string): nat {
    if s == "" then 0
    else
      (if s[0] < '\U{80}' then 1 else if s[0] < '\U{800}' then 2 else if s[0] < '\U{10000}' then 3 else 4)
      + ByteCount(s[1..])
  }

  function TokenEstimate(s: string): nat { (ByteCount(s) + 3) / 4 }

  function SumBytes(s: seq<Included>): nat { if s == [] then 0 else SumBytes(s[..|s| - 1]) + s[|s| - 1].bytes }
  function SumTokens(s: seq<Included>): nat { if s == [] then 0 else SumTokens(s[..|s| - 1]) + s[|s| - 1].tokens }

  /** An included source states its own size. */
  predicate Measured(s: seq<Included>) {
    forall x | x in s :: x.bytes == ByteCount(x.content) && x.tokens == TokenEstimate(x.content)
  }

  /** Four bytes are a token, and every source is rounded up on its own. */
  lemma {:induction false} TokensBracketBytes(s: seq<Included>)
    requires Measured(s)
    ensures SumBytes(s) <= 4 * SumTokens(s) <= SumBytes(s) + 3 * |s|
  {
    if s != [] {
      assert s[|s| - 1] in s;
      TokensBracketBytes(s[..|s| - 1]);
    }
  }

  // ---- The partition.

  /** What became of one hit. */
  datatype Fate = Kept | Dropped(reason: Reason)

  function Include(s: Source, rank: nat): Included {
    Included(s.id, s.kind, s.title, s.timestamp, s.hash, s.content, rank, TokenEstimate(s.content), ByteCount(s.content),
             s.metadata)
  }

  function KeptOf(hits: seq<Source>, fates: seq<Fate>): seq<Included>
    requires |hits| == |fates|
  {
    if hits == [] then []
    else
      var n := |hits| - 1;
      KeptOf(hits[..n], fates[..n]) + if fates[n] == Kept then [Include(hits[n], |hits|)] else []
  }

  function DroppedOf(hits: seq<Source>, fates: seq<Fate>): seq<(string, Reason)>
    requires |hits| == |fates|
  {
    if hits == [] then []
    else
      var n := |hits| - 1;
      DroppedOf(hits[..n], fates[..n]) + if fates[n].Dropped? then [(hits[n].id, fates[n].reason)] else []
  }

  function Reasons(exclusions: seq<Excluded>): seq<(string, Reason)> {
    Map(exclusions, (x: Excluded) => (x.id, x.reason))
  }

  predicate Allows(rules: Rules, s: Source) {
    s.id !in rules.excludedIds && (rules.kinds == [] || s.kind in rules.kinds)
  }

  /** The fate of a hit is justified by the pack as it ended up: what was kept is allowed, and
      what was dropped for a budget would break that budget if it were added now. */
  predicate Justified(rules: Rules, sources: seq<Included>, s: Source, fate: Fate) {
    match fate
    case Kept => Allows(rules, s)
    case Dropped(ExplicitlyExcluded) => s.id in rules.excludedIds
    case Dropped(SourceType) => s.id !in rules.excludedIds && rules.kinds != [] && s.kind !in rules.kinds
    case Dropped(MaxSources) => Allows(rules, s) && |sources| + 1 > rules.maxSources
    case Dropped(MaxBytes) => Allows(rules, s) && SumBytes(sources) + ByteCount(s.content) > rules.maxBytes
    case Dropped(MaxTokens) => Allows(rules, s) && SumTokens(sources) + TokenEstimate(s.content) > rules.maxTokens
  }

  predicate Selected(rules: Rules, hits: seq<Source>, fates: seq<Fate>, sources: seq<Included>, dropped: seq<(string, Reason)>) {
    && |fates| == |hits| && sources == KeptOf(hits, fates) && dropped == DroppedOf(hits, fates)
    && |sources| <= rules.maxSources && SumBytes(sources) <= rules.maxBytes && SumTokens(sources) <= rules.maxTokens
    && forall i | 0 <= i < |hits| :: Justified(rules, sources, hits[i], fates[i])
  }

  lemma {:induction false} KeptAreMeasured(hits: seq<Source>, fates: seq<Fate>)
    requires |hits| == |fates|
    ensures Measured(KeptOf(hits, fates)) && |KeptOf(hits, fates)| + |DroppedOf(hits, fates)| == |hits|
  {
    if hits != [] { KeptAreMeasured(hits[..|hits| - 1], fates[..|hits| - 1]); }
  }

  /** Budgets only fill up: a justified fate stays so when more is kept. */
  lemma JustifiedStays(rules: Rules, sources: seq<Included>, x: Included, s: Source, fate: Fate)
    requires Justified(rules, sources, s, fate)
    ensures Justified(rules, sources + [x], s, fate)
  {
    SumsGrow(sources, x);
  }

  lemma SumsGrow(sources: seq<Included>, x: Included)
    ensures SumBytes(sources + [x]) == SumBytes(sources) + x.bytes
    ensures SumTokens(sources + [x]) == SumTokens(sources) + x.tokens
  {
    assert (sources + [x])[..|sources|] == sources;
  }

  lemma Chosen(rules: Rules, hits: seq<Source>, i: nat, fates: seq<Fate>, sources: seq<Included>,
               dropped: seq<(string, Reason)>, fate: Fate)
    requires i < |hits| && Selected(rules, hits[..i], fates, sources, dropped)
    requires fate.Dropped? ==> Justified(rules, sources, hits[i], fate)
    requires fate == Kept ==>
      && Allows(rules, hits[i]) && |sources| < rules.maxSources
      && SumBytes(sources) + ByteCount(hits[i].content) <= rules.maxBytes
      && SumTokens(sources) + TokenEstimate(hits[i].content) <= rules.maxTokens
    ensures
      Selected(rules, hits[..i + 1], fates + [fate],
               if fate == Kept then sources + [Include(hits[i], i + 1)] else sources,
               if fate == Kept then dropped else dropped + [(hits[i].id, fate.reason)])
  {
    hide Justified, Allows, ByteCount, TokenEstimate, SumBytes, SumTokens;
    var x := Include(hits[i], i + 1);
    assert hits[..i + 1][..i] == hits[..i] && (fates + [fate])[..i] == fates;
    SumsGrow(sources, x);
    forall j | 0 <= j < i && fate == Kept ensures Justified(rules, sources + [x], hits[j], fates[j]) {
      assert hits[..i][j] == hits[j];
      JustifiedStays(rules, sources, x, hits[j], fates[j]);
    }
    if fate == Kept { KeptIsJustified(rules, sources + [x], hits[i]); }
  }

  lemma KeptIsJustified(rules: Rules, sources: seq<Included>, s: Source)
    requires Allows(rules, s)
    ensures Justified(rules, sources, s, Kept)
  {
  }

  /** The selection loop over the hits of the search. */
  method Select(rules: Rules, hits: seq<Source>)
    returns (sources: seq<Included>, exclusions: seq<Excluded>, bytes: nat, tokens: nat, ghost fates: seq<Fate>)
    ensures Selected(rules, hits, fates, sources, Reasons(exclusions))
    ensures bytes == SumBytes(sources) && tokens == SumTokens(sources)
  {
    hide ByteCount, KeptOf, DroppedOf, SumBytes, SumTokens, Selected, Reasons;
    sources, exclusions, bytes, tokens, fates := [], [], 0, 0, [];
    NothingSelected(rules);
    for i := 0 to |hits|
      invariant Selected(rules, hits[..i], fates, sources, Reasons(exclusions))
      invariant bytes == SumBytes(sources) && tokens == SumTokens(sources)
    {
      var s := hits[i];
      var size, estimate := ByteCount(s.content), TokenEstimate(s.content);
      ghost var fate := Verdict(rules, sources, s);
      VerdictIsJust(rules, sources, s);
      Chosen(rules, hits, i, fates, sources, Reasons(exclusions), fate);
      fates := fates + [fate];
      if s.id in rules.excludedIds {
        exclusions := Exclude(exclusions, s.id, ExplicitlyExcluded, "source identifier is excluded by task policy");
      } else if rules.kinds != [] && s.kind !in rules.kinds {
        exclusions := Exclude(exclusions, s.id, SourceType, "source type '" + s.kind + "' is not allowed");
      } else if |sources| >= rules.maxSources {
        exclusions := Exclude(exclusions, s.id, MaxSources, "source-count budget exhausted");
      } else if bytes + size > rules.maxBytes {
        exclusions := Exclude(exclusions, s.id, MaxBytes, "raw-byte budget exhausted; sources are not silently truncated");
      } else if tokens + estimate > rules.maxTokens {
        exclusions := Exclude(
          exclusions, s.id, MaxTokens, "estimated context budget exhausted; sources are not silently truncated");
      } else {
        SumsGrow(sources, Include(s, i + 1));
        sources := sources + [Include(s, i + 1)];
        bytes, tokens := bytes + size, tokens + estimate;
      }
    }
    assert hits[..|hits|] == hits;
  }

  function Exclude(exclusions: seq<Excluded>, id: string, reason: Reason, detail: string): (r: seq<Excluded>)
    ensures Reasons(r) == Reasons(exclusions) + [(id, reason)]
  {
    exclusions + [Excluded(id, reason, detail)]
  }

  lemma NothingSelected(rules: Rules)
    ensures Selected(rules, [], [], [], Reasons([])) && SumBytes([]) == 0 && SumTokens([]) == 0
  {
  }

  /** What is to become of a hit, given what has been kept so far. */
  ghost function Verdict(rules: Rules, sources: seq<Included>, s: Source): Fate {
    if s.id in rules.excludedIds then Dropped(ExplicitlyExcluded)
    else if !Allows(rules, s) then Dropped(SourceType)
    else if |sources| >= rules.maxSources then Dropped(MaxSources)
    else if SumBytes(sources) + ByteCount(s.content) > rules.maxBytes then Dropped(MaxBytes)
    else if SumTokens(sources) + TokenEstimate(s.content) > rules.maxTokens then Dropped(MaxTokens)
    else Kept
  }

  lemma VerdictIsJust(rules: Rules, sources: seq<Included>, s: Source)
    ensures
      var fate := Verdict(rules, sources, s);
      && (fate.Dropped? ==> Justified(rules, sources, s, fate))
      && (fate == Kept ==>
            && Allows(rules, s) && |sources| < rules.maxSources
            && SumBytes(sources) + ByteCount(s.content) <= rules.maxBytes
            && SumTokens(sources) + TokenEstimate(s.content) <= rules.maxTokens)
  {
    hide ByteCount, SumBytes, SumTokens;
  }

  // ---- The pack and its snapshot hash.

  const PACK := 40
  const PACK_RULES := 41
  const PACK_SOURCE := 42
  const PACK_EXCLUSION := 43

  function Words(ws: seq<string>): Json { Arr(Map(ws, (w: string) => Str(Lit(w)))) }
  function Count(n: int): Json { Num(n as real) }

  function RulesMapping(rules: Rules): Json {
    Obj(PACK_RULES, [
      Words(rules.excludedIds), Words(rules.kinds), Count(rules.maxTokens), Count(rules.maxBytes),
      Count(rules.maxCandidates), Count(rules.maxSources), Str(Lit("fts5_bm25_then_timestamp_then_source_id")),
      Words(rules.notes), Str(Lit("untrusted")), Str(Lit(rules.strategy))])
  }

  function SourceMapping(x: Included): Json {
    Obj(PACK_SOURCE, [
      Count(x.tokens), Str(Lit(x.content)), Str(x.hash), x.metadata, Count(x.rank), Count(x.bytes), Str(Lit(x.id)),
      Str(Lit(x.kind)), Str(Lit(x.timestamp)), Str(Lit(x.title))])
  }

  function ReasonText(r: Reason): string {
    match r
    case ExplicitlyExcluded => "explicitly_excluded"
    case SourceType => "source_type"
    case MaxSources => "max_sources"
    case MaxBytes => "max_bytes"
    case MaxTokens => "max_approximate_tokens"
  }

  function ExclusionMapping(x: Excluded): Json {
    Obj(PACK_EXCLUSION, [Str(Lit(x.detail)), Str(Lit(ReasonText(x.reason))), Str(Lit(x.id))])
  }

  /** Everything but the snapshot hash. */
  function Body(p: Pack): Json {
    Obj(PACK, [
      Count(p.tokens), Arr(Map(p.exclusions, ExclusionMapping)), Str(Lit(p.promptVersion)), Count(p.bytes),
      Str(Lit(p.query)), p.rules, Arr(Map(p.sources, SourceMapping)), Count(p.considered), Count(p.included),
      Str(Lit(p.taskId)), Str(Lit(p.taskVersion))])
  }

  /** `verify_snapshot_hash` */
  predicate Verifies(p: Pack) { p.snapshot == Digest(Body(p)) }

  /** `build_context_pack`, for whatever hits the search of the index returns. */
  method BuildPack(
    rules: Rules, hits: seq<Source>, taskId: string, taskVersion: string, promptVersion: string, query: Option<string>)
    returns (r: Outcome<Pack>, ghost fates: seq<Fate>)
    ensures r == Raised(ConfigurationError) <==> rules.strategy != "sqlite_fts5"
    ensures r == Raised(ValidationError) <==> rules.strategy == "sqlite_fts5" && rules.maxCandidates < 1
    ensures r.Raised? ==> rules.strategy != "sqlite_fts5" || rules.maxCandidates < 1
    ensures r.Ok? ==>
      var p := r.value;
      && Selected(rules, hits, fates, p.sources, Reasons(p.exclusions)) && Verifies(p)
      && p.bytes == SumBytes(p.sources) && p.tokens == SumTokens(p.sources)
      && p.considered == |hits| && p.included == |p.sources|
      && (p.taskId, p.taskVersion, p.promptVersion) == (taskId, taskVersion, promptVersion)
      && p.query == (if query.Some? then query.value else rules.query) && p.rules == RulesMapping(rules)
  {
    hide Selected, SumBytes, SumTokens, RulesMapping, SourceMapping, ExclusionMapping, Reasons;
    fates := [];
    if rules.strategy != "sqlite_fts5" { return Raised(ConfigurationError), fates; }
    if rules.maxCandidates < 1 { return Raised(ValidationError), fates; }
    var sources, exclusions, bytes, tokens, found := Select(rules, hits);
    var p := Pack(
      taskId, taskVersion, promptVersion, if query.Some? then query.value else rules.query, RulesMapping(rules), sources,
      exclusions, |hits|, |sources|, bytes, tokens, Lit(""));
    fates := found;
    r := Ok(p.(snapshot := Digest(Body(p))));
  }

  /** A pack states the size of what it holds: its token estimate brackets its bytes, both stay in
      budget, and every hit is in it or excluded from it. */
  lemma PackIsBounded(rules: Rules, hits: seq<Source>, fates: seq<Fate>, sources: seq<Included>, dropped: seq<(string, Reason)>)
    requires Selected(rules, hits, fates, sources, dropped)
    ensures SumBytes(sources) <= 4 * SumTokens(sources) <= SumBytes(sources) + 3 * |sources|
    ensures SumBytes(sources) <= rules.maxBytes && SumTokens(sources) <= rules.maxTokens && |sources| <= rules.maxSources
    ensures |sources| + |dropped| == |hits|
  {
    hide Justified;
    KeptAreMeasured(hits, fates);
    TokensBracketBytes(sources);
  }

  lemma MapTells<T(!new)>(a: seq<T>, b: seq<T>, f: T -> Json)
    requires Map(a, f) == Map(b, f) && forall x, y | f(x) == f(y) :: x == y
    ensures a == b
  {
    forall i | 0 <= i < |a| ensures |a| == |b| && a[i] == b[i] {
      assert |Map(a, f)| == |Map(b, f)| && f(a[i]) == Map(a, f)[i] == Map(b, f)[i] == f(b[i]);
    }
    assert |a| == |Map(a, f)| == |b|;
  }

  lemma SourceMappingTells(x: Included, y: Included)
    requires SourceMapping(x) == SourceMapping(y)
    ensures x == y
  {
    var a, b := SourceMapping(x).values, SourceMapping(y).values;
    assert a[0] == b[0] && a[1] == b[1] && a[2] == b[2] && a[3] == b[3] && a[4] == b[4];
    assert a[5] == b[5] && a[6] == b[6] && a[7] == b[7] && a[8] == b[8] && a[9] == b[9];
  }

  lemma ExclusionMappingTells(x: Excluded, y: Excluded)
    requires ExclusionMapping(x) == ExclusionMapping(y)
    ensures x == y
  {
    var a, b := ExclusionMapping(x).values, ExclusionMapping(y).values;
    assert a[0] == b[0] && a[1] == b[1] && a[2] == b[2];
    assert |ReasonText(x.reason)| == |ReasonText(y.reason)|;
  }

  /** Two packs that verify under one snapshot hash are the same pack, content and all. */
  lemma SnapshotBinds(p: Pack, q: Pack)
    requires Verifies(p) && Verifies(q) && p.snapshot == q.snapshot
    ensures p == q
  {
    hide SourceMapping, ExclusionMapping;
    var a, b := Body(p).values, Body(q).values;
    assert a[0] == b[0] && a[1] == b[1] && a[2] == b[2] && a[3] == b[3] && a[4] == b[4] && a[5] == b[5];
    assert a[6] == b[6] && a[7] == b[7] && a[8] == b[8] && a[9] == b[9] && a[10] == b[10];
    forall x, y | SourceMapping(x) == SourceMapping(y) ensures x == y { SourceMappingTells(x, y); }
    forall x, y | ExclusionMapping(x) == ExclusionMapping(y) ensures x == y { ExclusionMappingTells(x, y); }
    MapTells(p.sources, q.sources, SourceMapping);
    MapTells(p.exclusions, q.exclusions, ExclusionMapping);
  }
}
