/** The local context index: source documents deduplicated by the hash of their content. */
module ContextIndexing {
  import opened Prelude
  import opened Canon
  import opened Sequences

  /** A normalized input.  `dated` says that its timestamp has an explicit time zone. */
  datatype Source = Source(
    id: string, kind: string, title: string, timestamp: string, dated: bool, content: string, hash: Text, metadata: Json)

  datatype Status = Inserted | Updated | Unaltered | Duplicate
  datatype Report = Report(id: string, status: Status, hash: Text, canonical: string)

  /** A row of the full-text table. */
  datatype Entry = Entry(id: string, title: string, content: string)
  datatype Tables = Tables(rows: map<string, Source>, fts: seq<Entry>)

  // ---- Content.

  /** Line ends become line feeds. */
  function Normalize(s: string): (r: string)
    ensures '\r' !in r && |r| <= |s|
  {
    if s == "" then ""
    else if |s| > 1 && s[0] == '\r' && s[1] == '\n' then "\n" + Normalize(s[2..])
    else if s[0] == '\r' then "\n" + Normalize(s[1..])
    else [s[0]] + Normalize(s[1..])
  }

  lemma {:induction false} NormalizeFixes(s: string)
    requires '\r' !in s
    ensures Normalize(s) == s
  {
    if s != "" {
      assert s == [s[0]] + s[1..];
      NormalizeFixes(s[1..]);
    }
  }

  function ContentHash(content: string): Text { Digest(Str(Lit(Normalize(content)))) }

  /** `SourceDocument.create`, past its checks */
  function Created(id: string, kind: string, title: string, timestamp: string, content: string, metadata: Json): Source {
    Source(id, kind, Normalize(title), timestamp, true, Normalize(content), ContentHash(Normalize(content)), metadata)
  }

  /** Contents have the same hash exactly when they differ in their line ends only, and a created
      source always carries the hash that an ingest recomputes. */
  lemma HashOfContent(id: string, kind: string, title: string, timestamp: string, a: string, b: string, metadata: Json)
    ensures ContentHash(a) == ContentHash(b) <==> Normalize(a) == Normalize(b)
    ensures
      var s := Created(id, kind, title, timestamp, a, metadata);
      Acceptable(s) && s.hash == ContentHash(a)
  {
    NormalizeFixes(Normalize(a));
  }

  predicate Acceptable(s: Source) { s.hash == ContentHash(s.content) && s.dated }

  // ---- The tables.

  function EntryOf(s: Source): Entry { Entry(s.id, s.title, s.content) }

  function EntriesOf(fts: seq<Entry>, id: string): (r: seq<Entry>)
    ensures forall e :: e in r <==> e in fts && e.id == id
  {
    Filter(fts, (e: Entry) => e.id == id)
  }

  function WithoutEntries(fts: seq<Entry>, id: string): (r: seq<Entry>)
    ensures forall e :: e in r <==> e in fts && e.id != id
  {
    Filter(fts, (e: Entry) => e.id != id)
  }

  /** Rows are keyed by their identifier and carry the hash of their content, hashes are unique,
      and the full-text table has exactly one entry for each row, which restates it. */
  predicate Consistent(t: Tables) {
    && (forall id | id in t.rows :: t.rows[id].id == id && Acceptable(t.rows[id]))
    && (forall a, b | a in t.rows && b in t.rows && t.rows[a].hash == t.rows[b].hash :: a == b)
    && (forall e | e in t.fts :: e.id in t.rows)
    && (forall id | id in t.rows :: EntriesOf(t.fts, id) == [EntryOf(t.rows[id])])
  }

  /** `SELECT source_id ... WHERE content_hash = ?` */
  ghost function Holder(rows: map<string, Source>, hash: Text): (r: Option<string>)
    ensures r.Some? ==> r.value in rows && rows[r.value].hash == hash
    ensures r == None ==> forall id | id in rows :: rows[id].hash != hash
  {
    if exists id :: id in rows && rows[id].hash == hash then
      var id :| id in rows && rows[id].hash == hash;
      Some(id)
    else None
  }

  /** What one ingest does to the tables, and what it reports. */
  ghost function Ingested(t: Tables, s: Source): (r: (Tables, Outcome<Report>)) {
    if !Acceptable(s) then (t, Raised(ValidationError))
    else
      var holder := Holder(t.rows, s.hash);
      if holder.Some? && holder.value != s.id then (t, Ok(Report(s.id, Duplicate, s.hash, holder.value)))
      else if holder.Some? then (t, Ok(Report(s.id, Unaltered, s.hash, s.id)))
      else
        (Tables(t.rows[s.id := s], WithoutEntries(t.fts, s.id) + [EntryOf(s)]),
         Ok(Report(s.id, if s.id in t.rows then Updated else Inserted, s.hash, s.id)))
  }

  class ContextIndex {
    var rows: map<string, Source>
    var fts: seq<Entry>

    function State(): Tables
      reads this
    {
      Tables(rows, fts)
    }

    predicate Valid()
      reads this
    {
      Consistent(State())
    }

    constructor ()
      ensures Valid() && State() == Tables(map[], [])
    {
      rows, fts := map[], [];
    }

    /** The upsert.  A hash that another row has violates the UNIQUE constraint. */
    method Upsert(s: Source) returns (ok: bool)
      modifies this`rows
      ensures ok <==> forall id | id in old(rows) && id != s.id :: old(rows)[id].hash != s.hash
      ensures rows == if ok then old(rows)[s.id := s] else old(rows)
    {
      ok := forall id | id in rows && id != s.id :: rows[id].hash != s.hash;
      if ok { rows := rows[s.id := s]; }
    }

    /** Only a wrong hash or an undated timestamp is refused: the constraint is never violated. */
    method Ingest(s: Source) returns (r: Outcome<Report>)
      requires Valid()
      modifies this
      ensures Valid()
      ensures (State(), r) == Ingested(old(State()), s)
    {
      hide ContentHash, Normalize, WithoutEntries, EntriesOf;
      if s.hash != ContentHash(s.content) || !s.dated { return Raised(ValidationError); }
      if exists id :: id in rows && rows[id].hash == s.hash {
        var duplicate :| duplicate in rows && rows[duplicate].hash == s.hash;
        if duplicate != s.id { return Ok(Report(s.id, Duplicate, s.hash, duplicate)); }
      }
      if s.id in rows && rows[s.id].hash == s.hash { return Ok(Report(s.id, Unaltered, s.hash, s.id)); }
      var existing := s.id in rows;
      IngestKeeps(State(), s);
      fts := WithoutEntries(fts, s.id);
      var ok := Upsert(s);
      assert ok;
      fts := fts + [EntryOf(s)];
      return Ok(Report(s.id, if existing then Updated else Inserted, s.hash, s.id));
    }

    /** Stops at the first source that is refused; what came before it stays. */
    method IngestMany(sources: seq<Source>) returns (r: Outcome<seq<Report>>)
      requires Valid()
      modifies this
      ensures Valid()
      ensures (State(), r) == IngestedAll(old(State()), sources)
    {
      var reports: seq<Report> := [];
      for i := 0 to |sources|
        invariant Valid() && (State(), Ok(reports)) == IngestedAll(old(State()), sources[..i])
      {
        assert sources[..i + 1][..i] == sources[..i];
        var one := Ingest(sources[i]);
        if one.Raised? {
          StaysRefused(old(State()), sources, i + 1);
          return Raised(one.error);
        }
        reports := reports + [one.value];
      }
      assert sources[..|sources|] == sources;
      r := Ok(reports);
    }
  }

  ghost function IngestedAll(t: Tables, sources: seq<Source>): (r: (Tables, Outcome<seq<Report>>)) {
    if sources == [] then (t, Ok([]))
    else
      var before := IngestedAll(t, sources[..|sources| - 1]);
      if before.1.Raised? then before
      else
        var last := Ingested(before.0, sources[|sources| - 1]);
        (last.0, if last.1.Ok? then Ok(before.1.value + [last.1.value]) else Raised(last.1.error))
  }

  lemma {:induction false} StaysRefused(t: Tables, sources: seq<Source>, n: nat)
    requires n <= |sources| && IngestedAll(t, sources[..n]).1.Raised?
    ensures IngestedAll(t, sources) == IngestedAll(t, sources[..n])
    decreases |sources|
  {
    if n < |sources| {
      assert sources[..|sources| - 1][..n] == sources[..n];
      StaysRefused(t, sources[..|sources| - 1], n);
    } else {
      assert sources[..n] == sources;
    }
  }

  // ---- What ingesting keeps.

  /** The entries of an identifier after one entry is replaced. */
  lemma EntriesAfter(fts: seq<Entry>, e: Entry, id: string)
    ensures EntriesOf(WithoutEntries(fts, e.id) + [e], id) == if id == e.id then [e] else EntriesOf(fts, id)
  {
    var kept := WithoutEntries(fts, e.id);
    FilterConcat(kept, [e], (x: Entry) => x.id == id);
    if id == e.id {
      SomeElement(EntriesOf(kept, id));
    } else {
      FilterTwice(fts, (x: Entry) => x.id != e.id, (x: Entry) => x.id == id);
    }
  }

  /** Storing a content that no row holds. */
  lemma StoreKeeps(t: Tables, s: Source)
    requires Consistent(t) && Acceptable(s) && forall id | id in t.rows :: t.rows[id].hash != s.hash
    ensures Consistent(Tables(t.rows[s.id := s], WithoutEntries(t.fts, s.id) + [EntryOf(s)]))
  {
    hide Acceptable, EntriesOf, WithoutEntries;
    forall id ensures EntriesOf(WithoutEntries(t.fts, s.id) + [EntryOf(s)], id)
      == if id == s.id then [EntryOf(s)] else EntriesOf(t.fts, id) {
      EntriesAfter(t.fts, EntryOf(s), id);
    }
  }

  /** Whatever is ingested, the tables stay consistent; the canonical identifier that is reported
      then holds the reported hash, which is that of the source's content; and no row or entry of
      another identifier changes. */
  lemma IngestKeeps(t: Tables, s: Source)
    requires Consistent(t)
    ensures
      var (after, r) := Ingested(t, s);
      && Consistent(after) && (r.Ok? <==> Acceptable(s))
      && (r.Ok? ==> r.value.hash == ContentHash(s.content) && r.value.canonical in after.rows
                    && after.rows[r.value.canonical].hash == r.value.hash)
      && (forall id | id in t.rows && id != s.id :: id in after.rows && after.rows[id] == t.rows[id])
      && (forall id | id in after.rows && id != s.id :: id in t.rows)
      && (forall id | id != s.id :: EntriesOf(after.fts, id) == EntriesOf(t.fts, id))
  {
    hide Normalize, EntriesOf, WithoutEntries, ContentHash, Consistent;
    if Acceptable(s) && Holder(t.rows, s.hash) == None { StoreKeeps(t, s); }
    forall id | id != s.id ensures EntriesOf(WithoutEntries(t.fts, s.id) + [EntryOf(s)], id) == EntriesOf(t.fts, id) {
      EntriesAfter(t.fts, EntryOf(s), id);
    }
  }

  /** Ingesting the same source again at once changes nothing, and reports the same holder. */
  lemma IngestTwice(t: Tables, s: Source)
    requires Consistent(t) && Acceptable(s)
    ensures
      var (after, first) := Ingested(t, s);
      var (again, second) := Ingested(after, s);
      && again == after && second.Ok? && second.value.canonical == first.value.canonical
      && second.value.status == if first.value.canonical == s.id then Unaltered else Duplicate
  {
    hide Normalize, EntriesOf, WithoutEntries, ContentHash;
    IngestKeeps(t, s);
  }

  /** Over any run of ingests, refused ones included, the tables stay consistent, and whatever is
      stored is what was there or one of the ingested sources. */
  lemma {:induction false} RunKeeps(t: Tables, sources: seq<Source>)
    requires Consistent(t)
    ensures
      var (after, _) := IngestedAll(t, sources);
      && Consistent(after)
      && forall id | id in after.rows :: (id in t.rows && after.rows[id] == t.rows[id]) || after.rows[id] in sources
  {
    hide Consistent, Acceptable;
    if sources != [] {
      var init, last := sources[..|sources| - 1], sources[|sources| - 1];
      RunKeeps(t, init);
      IngestKeeps(IngestedAll(t, init).0, last);
    }
  }

  /** The holder that was reported for the `i`th source has its content, unless it has since
      been given another. */
  ghost predicate Held(after: Tables, reports: seq<Report>, sources: seq<Source>, i: nat)
    requires i < |reports| == |sources|
  {
    && reports[i].canonical in after.rows
    && (after.rows[reports[i].canonical].hash == ContentHash(sources[i].content)
        || exists j | i < j < |sources| :: sources[j].id == reports[i].canonical && reports[j].status == Updated)
  }

  lemma HeldOn(t: Tables, reports: seq<Report>, sources: seq<Source>, i: nat, s: Source)
    requires Consistent(t) && Acceptable(s) && i < |reports| == |sources| && Held(t, reports, sources, i)
    ensures Held(Ingested(t, s).0, reports + [Ingested(t, s).1.value], sources + [s], i)
  {
    hide Normalize, EntriesOf, WithoutEntries, ContentHash, Consistent, Acceptable;
    IngestKeeps(t, s);
    var more, all := reports + [Ingested(t, s).1.value], sources + [s];
    assert more[i] == reports[i] && all[i] == sources[i];
    if exists j | i < j < |sources| :: sources[j].id == reports[i].canonical && reports[j].status == Updated {
      var j :| i < j < |sources| && sources[j].id == reports[i].canonical && reports[j].status == Updated;
      assert all[j].id == more[i].canonical && more[j].status == Updated;
    } else if s.id == reports[i].canonical {
      assert all[|sources|].id == more[i].canonical;
    }
  }

  /** Over any run of accepted ingests into an empty index, every content stays with the holder
      that was reported for it, until that holder is updated. */
  lemma {:induction false} ContentIsHeld(sources: seq<Source>)
    requires IngestedAll(Tables(map[], []), sources).1.Ok?
    ensures
      var (after, r) := IngestedAll(Tables(map[], []), sources);
      |r.value| == |sources| && forall i | 0 <= i < |sources| :: Held(after, r.value, sources, i)
  {
    hide Normalize, EntriesOf, WithoutEntries, ContentHash, Consistent, Acceptable, Held, Ingested;
    if sources != [] {
      var n, empty := |sources| - 1, Tables(map[], []);
      var init, last := sources[..n], sources[n];
      var before := IngestedAll(empty, init);
      EmptyIsConsistent();
      RunKeeps(empty, init);
      ContentIsHeld(init);
      IngestKeeps(before.0, last);
      assert init + [last] == sources;
      forall i | 0 <= i < n ensures Held(Ingested(before.0, last).0, before.1.value + [Ingested(before.0, last).1.value], sources, i) {
        HeldOn(before.0, before.1.value, init, i, last);
      }
      LastIsHeld(before.0, before.1.value, init, last);
    }
  }

  lemma EmptyIsConsistent()
    ensures Consistent(Tables(map[], []))
  {
  }

  lemma LastIsHeld(t: Tables, reports: seq<Report>, sources: seq<Source>, s: Source)
    requires Consistent(t) && Acceptable(s) && |reports| == |sources|
    ensures Held(Ingested(t, s).0, reports + [Ingested(t, s).1.value], sources + [s], |sources|)
  {
    hide Normalize, EntriesOf, WithoutEntries, ContentHash, Consistent, Acceptable, Ingested;
    IngestKeeps(t, s);
  }
}
