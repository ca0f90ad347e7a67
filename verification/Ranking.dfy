/** The inspector's own ranking of the profiles that may execute a task. */
module Ranking {
  import opened Prelude
  import opened Canon
  import opened Sequences

  datatype Quality = Quality(success: real, accepted: real, evidence: real, caution: real)
  /** A subscription efficiency, with what it may be compared against. */
  datatype Efficiency = Efficiency(value: real, runner: Text, pool: Text, unit: Text)

  /** What the selection says of the task, as far as scores depend on it. */
  datatype Task = Task(permissionClass: int, risk: real)

  /** What it says of a profile's record so far. */
  datatype Runtime = Runtime(
    success: real, accepted: real, failures: real, evidence: int, latency: real, efficiency: Option<Efficiency>)
  {
    function Reliability(): real { success * (1.0 - failures) }
  }

  /** A candidate of the persisted selection.  `named` says that its profile identifier is well
      formed, `numeric` that its record holds numbers. */
  datatype Candidate = Candidate(
    named: bool, eligible: bool, numeric: bool, id: string, ref: Option<Text>, maxClass: int, runtime: Runtime)
  datatype Item = Item(id: string, ref: Option<Text>, quality: Quality, efficiency: Option<Efficiency>, latency: real)

  /** Candidates whose efficiencies can be compared share a bucket; the others are alone. */
  datatype Bucket = Unavailable(id: string) | Comparable(runner: Text, pool: Text, unit: Text)

  function BucketOf(x: Item): Bucket {
    match x.efficiency
    case None => Unavailable(x.id)
    case Some(e) => Comparable(e.runner, e.pool, e.unit)
  }

  function IdKey(x: Item): Key { EncodeString(x.id) }
  function MergeKey(x: Item): Key { [x.latency] + EncodeString(x.id) }
  function EfficiencyKey(x: Item): Key {
    [if x.efficiency.Some? then -x.efficiency.value.value else 0.0, x.latency] + EncodeString(x.id)
  }
  /** Better qualities come first. */
  function QualityKey(q: Quality): Key { [-q.success, -q.accepted, -q.evidence, -q.caution] }

  function InGroup(s: seq<Item>, q: Quality): (r: seq<Item>)
    ensures forall x :: x in r <==> x in s && x.quality == q
  {
    Filter(s, (x: Item) => x.quality == q)
  }

  function InBucket(s: seq<Item>, k: Bucket): (r: seq<Item>)
    ensures forall x :: x in r <==> x in s && BucketOf(x) == k
  {
    Filter(s, (x: Item) => BucketOf(x) == k)
  }

  /** The order inside a bucket: best efficiency first, then lowest latency, then identifier. */
  function Bucketed(group: seq<Item>, k: Bucket): seq<Item> {
    var found := InBucket(SortBy(group, IdKey), k);
    if k.Comparable? then SortBy(found, EfficiencyKey) else found
  }

  function BucketsOf(group: seq<Item>): set<Bucket> { set x | x in group :: BucketOf(x) }
  function Buckets(group: seq<Item>): map<Bucket, seq<Item>> {
    map k | k in BucketsOf(group) :: Bucketed(group, k)
  }

  // ---- What a ranking is.

  /** `r` holds the elements of the buckets, those of each bucket in its own order. */
  predicate Interleaves(r: seq<Item>, buckets: map<Bucket, seq<Item>>) {
    && (forall x | x in r :: BucketOf(x) in buckets)
    && forall k | k in buckets :: InBucket(r, k) == buckets[k]
  }

  /** Where the two first differ, `a` has the lower latency, or the same latency and the lower
      identifier. */
  ghost predicate Beats(a: seq<Item>, b: seq<Item>) {
    exists i | 0 <= i < |a| && i < |b| :: a[..i] == b[..i] && a[i] != b[i] && Before(MergeKey(a[i]), MergeKey(b[i]))
  }

  ghost predicate Best(r: seq<Item>, buckets: map<Bucket, seq<Item>>) {
    && Interleaves(r, buckets)
    && forall other | Interleaves(other, buckets) :: r == other || Beats(r, other)
  }

  /** Better qualities first; within a quality the best interleaving of its buckets. */
  ghost predicate Ranks(r: seq<Item>, items: seq<Item>) {
    BestQualityFirst(r) && forall q :: Best(InGroup(r, q), Buckets(InGroup(items, q)))
  }

  ghost predicate BestQualityFirst(r: seq<Item>) {
    forall i, j | 0 <= i < j < |r| :: Before(QualityKey(r[i].quality), QualityKey(r[j].quality))
  }

  // ---- Interleavings.

  lemma InBucketConcat(a: seq<Item>, b: seq<Item>, k: Bucket)
    ensures InBucket(a + b, k) == InBucket(a, k) + InBucket(b, k)
  {
    FilterConcat(a, b, (x: Item) => BucketOf(x) == k);
  }

  lemma InBucketOne(x: Item, k: Bucket)
    ensures InBucket([x], k) == if BucketOf(x) == k then [x] else []
  {
  }

  /** Every bucket has something left, and only its own. */
  predicate Stocked(left: map<Bucket, seq<Item>>) {
    forall k | k in left :: left[k] != [] && forall x | x in left[k] :: BucketOf(x) == k
  }

  function Popped(left: map<Bucket, seq<Item>>, k: Bucket): (r: map<Bucket, seq<Item>>)
    requires k in left && left[k] != []
  {
    if |left[k]| == 1 then left - {k} else left[k := left[k][1..]]
  }

  lemma PushFront(s: seq<Item>, left: map<Bucket, seq<Item>>, k: Bucket)
    requires Stocked(left) && k in left && Interleaves(s, Popped(left, k))
    ensures Interleaves([left[k][0]] + s, left)
  {
    hide InBucket, BucketOf;
    var x := left[k][0];
    assert BucketOf(x) == k;
    forall j | j in left ensures InBucket([x] + s, j) == left[j] {
      InBucketConcat([x], s, j);
      InBucketOne(x, j);
      if j == k && |left[k]| == 1 {
        assert forall y | y in s :: BucketOf(y) != k;
        SomeElement(InBucket(s, k));
      }
    }
  }

  /** Whatever an interleaving starts with is the head of its bucket. */
  lemma HeadOfBucket(s: seq<Item>, left: map<Bucket, seq<Item>>)
    requires s != [] && Interleaves(s, left)
    ensures BucketOf(s[0]) in left && left[BucketOf(s[0])] != [] && left[BucketOf(s[0])][0] == s[0]
    ensures Stocked(left) ==> Interleaves(s[1..], Popped(left, BucketOf(s[0])))
  {
    hide InBucket, BucketOf;
    var k := BucketOf(s[0]);
    assert s == [s[0]] + s[1..];
    forall j | j in left ensures InBucket(s, j) == (if j == k then [s[0]] else []) + InBucket(s[1..], j) {
      InBucketConcat([s[0]], s[1..], j);
      InBucketOne(s[0], j);
    }
    if |left[k]| == 1 {
      assert InBucket(s[1..], k) == [];
      assert forall x | x in s[1..] && BucketOf(x) == k :: x in InBucket(s[1..], k);
    }
  }

  /** `k` leads: no other bucket has a lower head. */
  predicate Leads(k: Bucket, left: map<Bucket, seq<Item>>)
    requires Stocked(left)
  {
    k in left && forall j | j in left :: Before(MergeKey(left[k][0]), MergeKey(left[j][0]))
  }

  /** An interleaving starts with the leading head, or with a higher one. */
  lemma StartsNoLower(s: seq<Item>, left: map<Bucket, seq<Item>>, k: Bucket)
    requires Stocked(left) && Leads(k, left) && Interleaves(s, left)
    ensures s != []
    ensures (s[0] == left[k][0] && Interleaves(s[1..], Popped(left, k)))
         || (s[0] != left[k][0] && Before(MergeKey(left[k][0]), MergeKey(s[0])))
  {
    assert InBucket(s, k) != [];
    assert InBucket(s, k)[0] in InBucket(s, k);
    HeadOfBucket(s, left);
    assert BucketOf(left[k][0]) == k;
  }

  /** `min(buckets, ...)` */
  method FindLeader(left: map<Bucket, seq<Item>>) returns (k: Bucket)
    requires Stocked(left) && left != map[]
    ensures Leads(k, left)
  {
    k :| k in left;
    BeforeTotal(MergeKey(left[k][0]), MergeKey(left[k][0]));
    var rest := left.Keys - {k};
    while rest != {}
      invariant k in left && rest <= left.Keys
      invariant forall j | j in left && j !in rest :: Before(MergeKey(left[k][0]), MergeKey(left[j][0]))
    {
      var j :| j in rest;
      rest := rest - {j};
      var old_k := k;
      BeforeTotal(MergeKey(left[k][0]), MergeKey(left[j][0]));
      if !Before(MergeKey(left[k][0]), MergeKey(left[j][0])) {
        k := j;
        forall i | i in left && i !in rest ensures Before(MergeKey(left[k][0]), MergeKey(left[i][0])) {
          if i == j {
            BeforeTotal(MergeKey(left[j][0]), MergeKey(left[j][0]));
          } else {
            BeforeTransitive(MergeKey(left[j][0]), MergeKey(left[old_k][0]), MergeKey(left[i][0]));
          }
        }
      }
    }
  }

  /** How many items the buckets hold. */
  ghost function Total(left: map<Bucket, seq<Item>>): nat
    decreases |left|
  {
    if left == map[] then 0
    else
      var k :| k in left;
      assert |left - {k}| < |left| by { SmallerMap(left, k); }
      |left[k]| + Total(left - {k})
  }

  lemma SmallerMap(left: map<Bucket, seq<Item>>, k: Bucket)
    requires k in left
    ensures |left - {k}| < |left|
  {
    assert (left - {k}).Keys == left.Keys - {k};
    assert |(left - {k}).Keys| == |left - {k}| && |left.Keys| == |left|;
  }

  lemma {:induction false} TotalWithout(left: map<Bucket, seq<Item>>, k: Bucket)
    requires k in left
    ensures Total(left) == |left[k]| + Total(left - {k})
    decreases |left|
  {
    var j :| j in left && Total(left) == |left[j]| + Total(left - {j});
    if j != k {
      SmallerMap(left, j);
      SmallerMap(left, k);
      TotalWithout(left - {j}, k);
      TotalWithout(left - {k}, j);
      assert left - {j} - {k} == left - {k} - {j};
    }
  }

  lemma PoppedIsSmaller(left: map<Bucket, seq<Item>>, k: Bucket)
    requires k in left && left[k] != []
    ensures Total(Popped(left, k)) < Total(left)
  {
    TotalWithout(left, k);
    if |left[k]| > 1 {
      TotalWithout(Popped(left, k), k);
      assert Popped(left, k) - {k} == left - {k};
    }
  }

  predicate Follows(other: seq<Item>, ranked: seq<Item>, left: map<Bucket, seq<Item>>) {
    |ranked| <= |other| && other[..|ranked|] == ranked && Interleaves(other[|ranked|..], left)
  }

  lemma LedForever(other: seq<Item>, ranked: seq<Item>, left: map<Bucket, seq<Item>>, k: Bucket)
    requires Stocked(left) && Leads(k, left) && (Follows(other, ranked, left) || Beats(ranked, other))
    ensures Follows(other, ranked + [left[k][0]], Popped(left, k)) || Beats(ranked + [left[k][0]], other)
  {
    hide Before, MergeKey, Interleaves, Popped;
    var more := ranked + [left[k][0]];
    if Beats(ranked, other) {
      var i :| 0 <= i < |ranked| && i < |other| && ranked[..i] == other[..i] && ranked[i] != other[i]
        && Before(MergeKey(ranked[i]), MergeKey(other[i]));
      assert more[..i] == ranked[..i] && more[i] == ranked[i];
    } else {
      var s := other[|ranked|..];
      StartsNoLower(s, left, k);
      assert other[|ranked|] == s[0] && other[|more|..] == s[1..] && other[..|more|] == other[..|ranked|] + [s[0]];
      if s[0] != left[k][0] {
        assert more[..|ranked|] == other[..|ranked|] && more[|ranked|] == left[k][0];
      }
    }
  }

  lemma PoppedIsStocked(left: map<Bucket, seq<Item>>, k: Bucket)
    requires Stocked(left) && k in left
    ensures Stocked(Popped(left, k))
  {
  }

  /** The merge loop: always the lowest head. */
  method MergeBuckets(buckets: map<Bucket, seq<Item>>) returns (ranked: seq<Item>)
    requires Stocked(buckets)
    ensures Best(ranked, buckets)
  {
    hide Interleaves, Follows, Beats, Before, MergeKey, InBucket, Total;
    ranked := [];
    var left := buckets;
    forall other | Interleaves(other, buckets)
      ensures [] + other == other && Follows(other, [], left) { NothingRanked(other, left); }
    while left != map[]
      invariant Stocked(left)
      invariant forall s | Interleaves(s, left) :: Interleaves(ranked + s, buckets)
      invariant forall other | Interleaves(other, buckets) :: Follows(other, ranked, left) || Beats(ranked, other)
      decreases Total(left)
    {
      var k := FindLeader(left);
      PoppedIsSmaller(left, k);
      PoppedIsStocked(left, k);
      forall s | Interleaves(s, Popped(left, k)) ensures Interleaves((ranked + [left[k][0]]) + s, buckets) {
        PushFront(s, left, k);
        assert (ranked + [left[k][0]]) + s == ranked + ([left[k][0]] + s);
      }
      forall other | Interleaves(other, buckets)
        ensures Follows(other, ranked + [left[k][0]], Popped(left, k)) || Beats(ranked + [left[k][0]], other) {
        LedForever(other, ranked, left, k);
      }
      ranked := ranked + [left[k][0]];
      if |left[k]| == 1 {
        left := left - {k};
      } else {
        left := left[k := left[k][1..]];
      }
    }
    EverythingRanked();
    forall other | Interleaves(other, buckets) ensures ranked == other || Beats(ranked, other) {
      if Follows(other, ranked, left) { NothingFollows(other, ranked); }
    }
    assert ranked + [] == ranked;
  }

  lemma NothingRanked(other: seq<Item>, buckets: map<Bucket, seq<Item>>)
    requires Interleaves(other, buckets)
    ensures [] + other == other && Follows(other, [], buckets)
  {
    hide Interleaves;
    assert other[0..] == other;
  }

  lemma EverythingRanked()
    ensures Interleaves([], map[])
  {
  }

  lemma NothingFollows(other: seq<Item>, ranked: seq<Item>)
    requires Follows(other, ranked, map[])
    ensures other == ranked
  {
    SomeElement(other[|ranked|..]);
  }

  // ---- Building the buckets and the groups.

  /** One bucket for each key, in the order of the list. */
  method FillBuckets(ordered: seq<Item>) returns (found: map<Bucket, seq<Item>>)
    ensures found.Keys == BucketsOf(ordered) && forall k | k in found :: found[k] == InBucket(ordered, k)
  {
    hide InBucket, BucketOf, BucketsOf;
    found := map[];
    assert BucketsOf(ordered[..0]) == {} by { NoBuckets(); }
    for i := 0 to |ordered|
      invariant found.Keys == BucketsOf(ordered[..i])
      invariant forall k | k in found :: found[k] == InBucket(ordered[..i], k)
    {
      var k := BucketOf(ordered[i]);
      FillOne(ordered, i);
      found := found[k := (if k in found then found[k] else []) + [ordered[i]]];
    }
    assert ordered[..|ordered|] == ordered;
  }

  lemma NoBuckets()
    ensures BucketsOf([]) == {}
  {
  }

  /** Filled in the order of the identifiers, then sorted where efficiencies compare. */
  method BuildBuckets(group: seq<Item>) returns (buckets: map<Bucket, seq<Item>>)
    ensures buckets == Buckets(group)
  {
    hide InBucket, BucketOf, BucketsOf, SortBy, IdKey, EfficiencyKey;
    var ordered := SortBy(group, IdKey);
    var found := FillBuckets(ordered);
    SameBuckets(ordered, group);
    buckets := map[];
    var rest := found.Keys;
    while rest != {}
      invariant rest <= found.Keys && buckets.Keys == found.Keys - rest
      invariant forall k | k in buckets :: buckets[k] == Bucketed(group, k)
    {
      var k :| k in rest;
      rest := rest - {k};
      buckets := buckets[k := if k.Comparable? then SortBy(found[k], EfficiencyKey) else found[k]];
    }
  }

  /** What one more item adds to the buckets. */
  lemma FillOne(s: seq<Item>, i: nat)
    requires i < |s|
    ensures BucketsOf(s[..i + 1]) == BucketsOf(s[..i]) + {BucketOf(s[i])}
    ensures forall k :: InBucket(s[..i + 1], k) == InBucket(s[..i], k) + if k == BucketOf(s[i]) then [s[i]] else []
    ensures BucketOf(s[i]) !in BucketsOf(s[..i]) ==> InBucket(s[..i], BucketOf(s[i])) == []
  {
    hide InBucket, BucketOf;
    assert s[..i + 1] == s[..i] + [s[i]];
    forall k ensures InBucket(s[..i + 1], k) == InBucket(s[..i], k) + if k == BucketOf(s[i]) then [s[i]] else [] {
      InBucketConcat(s[..i], [s[i]], k);
      InBucketOne(s[i], k);
    }
    SomeElement(InBucket(s[..i], BucketOf(s[i])));
  }

  lemma SameBuckets(a: seq<Item>, b: seq<Item>)
    requires multiset(a) == multiset(b)
    ensures BucketsOf(a) == BucketsOf(b)
  {
    hide BucketOf;
    Reordered(a, b);
  }

  lemma BucketsAreStocked(group: seq<Item>)
    ensures Stocked(Buckets(group))
    ensures forall k | k in Buckets(group) :: forall x | x in Buckets(group)[k] :: x in group
  {
    hide InBucket, BucketOf, SortBy, IdKey, EfficiencyKey;
    var ordered := SortBy(group, IdKey);
    Reordered(ordered, group);
    forall k | k in Buckets(group)
      ensures Bucketed(group, k) != [] && forall x | x in Bucketed(group, k) :: BucketOf(x) == k && x in group {
      var found := InBucket(ordered, k);
      Reordered(SortBy(found, EfficiencyKey), found);
    }
  }

  ghost predicate Grouped(items: seq<Item>, qualities: seq<Quality>, groups: map<Quality, seq<Item>>) {
    && (forall q :: q in qualities <==> q in groups)
    && (forall q :: q in groups <==> InGroup(items, q) != [])
    && Distinct(qualities) && forall q | q in groups :: groups[q] == InGroup(items, q)
  }

  lemma GroupedMore(s: seq<Item>, i: nat, qualities: seq<Quality>, groups: map<Quality, seq<Item>>)
    requires i < |s| && Grouped(s[..i], qualities, groups)
    ensures
      var q := s[i].quality;
      Grouped(s[..i + 1], if q in groups then qualities else qualities + [q],
              groups[q := (if q in groups then groups[q] else []) + [s[i]]])
  {
    hide InGroup, Distinct;
    var q := s[i].quality;
    forall p ensures InGroup(s[..i + 1], p) == InGroup(s[..i], p) + if p == q then [s[i]] else [] {
      GroupOne(s, i, p);
    }
    if q !in groups {
      DistinctMore(qualities, q);
    }
  }

  /** `quality_groups`, with its keys in insertion order. */
  method GroupByQuality(items: seq<Item>) returns (qualities: seq<Quality>, groups: map<Quality, seq<Item>>)
    ensures Grouped(items, qualities, groups)
  {
    hide InGroup, Grouped;
    qualities, groups := [], map[];
    NothingGrouped();
    for i := 0 to |items|
      invariant Grouped(items[..i], qualities, groups)
    {
      var q := items[i].quality;
      GroupedMore(items, i, qualities, groups);
      if q !in groups { qualities := qualities + [q]; }
      groups := groups[q := (if q in groups then groups[q] else []) + [items[i]]];
    }
    assert items[..|items|] == items;
  }

  lemma NothingGrouped()
    ensures Grouped([], [], map[])
  {
  }

  lemma GroupOne(s: seq<Item>, i: nat, q: Quality)
    requires i < |s|
    ensures InGroup(s[..i + 1], q) == InGroup(s[..i], q) + if q == s[i].quality then [s[i]] else []
  {
    assert s[..i + 1][..i] == s[..i];
  }

  // ---- The ranking.

  /** `ranked` is the ranking of the groups in `done`. */
  ghost predicate RankedSoFar(ranked: seq<Item>, items: seq<Item>, done: seq<Quality>) {
    && BestQualityFirst(ranked) && (forall x | x in ranked :: x.quality in done)
    && forall q | q in done :: Best(InGroup(ranked, q), Buckets(InGroup(items, q)))
  }

  lemma InGroupConcat(a: seq<Item>, b: seq<Item>, q: Quality)
    ensures InGroup(a + b, q) == InGroup(a, q) + InGroup(b, q)
  {
    FilterConcat(a, b, (x: Item) => x.quality == q);
  }

  lemma InGroupAll(s: seq<Item>, q: Quality)
    ensures (forall x | x in s :: x.quality == q) ==> InGroup(s, q) == s
    ensures (forall x | x in s :: x.quality != q) ==> InGroup(s, q) == []
  {
    if forall x | x in s :: x.quality == q { FilterAll(s, (x: Item) => x.quality == q); }
    SomeElement(InGroup(s, q));
  }

  /** An interleaving of a group's buckets consists of the group's items. */
  lemma InterleavingIsOfGroup(r: seq<Item>, group: seq<Item>)
    requires Interleaves(r, Buckets(group))
    ensures forall x | x in r :: x in group
  {
    hide BucketOf, Bucketed;
    BucketsAreStocked(group);
    forall x | x in r ensures x in group {
      assert x in InBucket(r, BucketOf(x));
    }
  }

  lemma NextGroup(ranked: seq<Item>, items: seq<Item>, done: seq<Quality>, q: Quality, merged: seq<Item>)
    requires RankedSoFar(ranked, items, done) && Best(merged, Buckets(InGroup(items, q))) && q !in done
    requires forall p | p in done :: Before(QualityKey(p), QualityKey(q))
    ensures RankedSoFar(ranked + merged, items, done + [q])
  {
    hide InGroup, Buckets, Interleaves, QualityKey, Before;
    InterleavingIsOfGroup(merged, InGroup(items, q));
    var more := ranked + merged;
    BeforeTotal(QualityKey(q), QualityKey(q));
    forall i, j | 0 <= i < j < |more| ensures Before(QualityKey(more[i].quality), QualityKey(more[j].quality)) {
      if i < |ranked| <= j { assert ranked[i] in ranked; }
      if |ranked| <= j { assert more[j] == merged[j - |ranked|] && merged[j - |ranked|] in merged; }
      if |ranked| <= i { assert more[i] == merged[i - |ranked|] && merged[i - |ranked|] in merged; }
    }
    forall p | p in done + [q] ensures Best(InGroup(more, p), Buckets(InGroup(items, p))) {
      InGroupConcat(ranked, merged, p);
      InGroupAll(merged, p);
      InGroupAll(ranked, p);
      assert InGroup(ranked, p) + [] == InGroup(ranked, p) && [] + merged == merged;
    }
  }

  method RankItems(items: seq<Item>) returns (ranked: seq<Item>)
    ensures Ranks(ranked, items)
  {
    hide InGroup, Buckets, Best, RankedSoFar, Ranks, QualityKey, Before, SortBy;
    var qualities, groups := GroupByQuality(items);
    var order := SortBy(qualities, QualityKey);
    Reordered(order, qualities);
    DistinctReordered(order, qualities);
    ranked := [];
    NothingRankedYet(items);
    for i := 0 to |order|
      invariant RankedSoFar(ranked, items, order[..i])
    {
      var q := order[i];
      var buckets := BuildBuckets(groups[q]);
      BucketsAreStocked(groups[q]);
      var merged := MergeBuckets(buckets);
      assert order[..i + 1] == order[..i] + [q];
      NextGroup(ranked, items, order[..i], q, merged);
      ranked := ranked + merged;
    }
    assert order[..|order|] == order;
    AllRanked(ranked, items, order);
  }

  lemma NothingRankedYet(items: seq<Item>)
    ensures RankedSoFar([], items, [])
  {
  }

  lemma AllRanked(ranked: seq<Item>, items: seq<Item>, done: seq<Quality>)
    requires RankedSoFar(ranked, items, done) && forall q :: q in done <==> InGroup(items, q) != []
    ensures Ranks(ranked, items)
  {
    hide InGroup, Bucketed, Before, QualityKey;
    forall q | q !in done ensures Best(InGroup(ranked, q), Buckets(InGroup(items, q))) {
      InGroupAll(ranked, q);
      NothingIsBest();
    }
  }

  lemma NothingIsBest()
    ensures Best([], Buckets([]))
  {
    assert Buckets([]) == map[];
    forall other | Interleaves(other, map[]) ensures other == [] { SomeElement(other); }
  }

  // ---- Scores.

  /** `round(x, 6)`: to the nearest millionth, ties to the even one. */
  function Rounded(x: real): real {
    var n := (x * 1000000.0).Floor;
    var rest := x * 1000000.0 - n as real;
    (if rest < 0.5 || (rest == 0.5 && n % 2 == 0) then n else n + 1) as real / 1000000.0
  }

  function AtMostOne(x: real): real { if x < 1.0 then x else 1.0 }

  /** `_recompute_execution_selection_score` */
  function ScoreOf(task: Task, c: Candidate): Quality {
    Quality(Rounded(c.runtime.Reliability()), Rounded(c.runtime.accepted),
            Rounded(AtMostOne(c.runtime.evidence as real / 20.0)), -task.risk - (c.maxClass - task.permissionClass) as real)
  }

  function Scored(task: Task, c: Candidate): Item {
    Item(c.id, c.ref, ScoreOf(task, c),
         if c.runtime.efficiency.Some? then
           Some(c.runtime.efficiency.value.(value := Rounded(c.runtime.efficiency.value.value)))
         else None,
         Rounded(c.runtime.latency))
  }

  function Scorer(task: Task): Candidate -> Item { (c: Candidate) => Scored(task, c) }

  /** `_recompute_execution_selection_ranking` ranks unless an identifier is ill formed, a score
      cannot be recomputed, or an eligible candidate has no reference. */
  predicate Rankable(candidates: seq<Candidate>) {
    forall c | c in candidates :: c.named && (c.eligible ==> c.numeric && c.ref.Some?)
  }

  function Eligible(task: Task, candidates: seq<Candidate>): seq<Item> {
    Map(Filter(candidates, (c: Candidate) => c.eligible), Scorer(task))
  }

  method RankCandidates(task: Task, candidates: seq<Candidate>) returns (refs: Option<seq<Text>>, ghost order: seq<Item>)
    ensures refs.Some? <==> Rankable(candidates)
    ensures refs.Some? ==> Ranks(order, Eligible(task, candidates)) && |refs.value| == |order|
    ensures refs.Some? ==> forall i | 0 <= i < |order| :: order[i].ref == Some(refs.value[i])
  {
    hide Ranks, InGroup, Buckets, Eligible, ScoreOf, Rounded;
    refs, order := None, [];
    var items: seq<Item> := [];
    NoneEligible(task);
    for i := 0 to |candidates|
      invariant items == Eligible(task, candidates[..i])
      invariant forall c | c in candidates[..i] :: c.named && (c.eligible ==> c.numeric)
    {
      var c := candidates[i];
      assert candidates[..i + 1][..i] == candidates[..i] && c in candidates;
      if !c.named || (c.eligible && !c.numeric) { return; }
      EligibleOne(task, candidates, i);
      if c.eligible { items := items + [Scored(task, c)]; }
    }
    assert candidates[..|candidates|] == candidates;
    EligibleItems(task, candidates);
    var ranked := RankItems(items);
    RanksHolds(ranked, items);
    var found: seq<Text> := [];
    for i := 0 to |ranked|
      invariant |found| == i && forall j | 0 <= j < i :: ranked[j].ref == Some(found[j])
    {
      assert ranked[i] in items;
      if ranked[i].ref == None {
        ghost var c :| c in candidates && c.eligible && Scored(task, c) == ranked[i];
        return;
      }
      found := found + [ranked[i].ref.value];
    }
    forall x | x in items ensures x.ref.Some? {
      var j :| 0 <= j < |ranked| && ranked[j] == x;
    }
    forall c | c in candidates && c.eligible ensures c.ref.Some? { assert Scored(task, c) in items; }
    refs, order := Some(found), ranked;
  }

  lemma NoneEligible(task: Task)
    ensures Eligible(task, []) == []
  {
  }

  lemma EligibleOne(task: Task, candidates: seq<Candidate>, i: nat)
    requires i < |candidates|
    ensures Eligible(task, candidates[..i + 1]) == Eligible(task, candidates[..i])
      + if candidates[i].eligible then [Scored(task, candidates[i])] else []
  {
    hide ScoreOf, Rounded;
    assert candidates[..i + 1][..i] == candidates[..i];
  }

  lemma EligibleItems(task: Task, candidates: seq<Candidate>)
    ensures forall x :: x in Eligible(task, candidates) <==>
      exists c :: c in candidates && c.eligible && Scored(task, c) == x
  {
    hide Scored;
    var kept, items := Filter(candidates, (c: Candidate) => c.eligible), Eligible(task, candidates);
    forall x ensures x in items <==> exists c :: c in candidates && c.eligible && Scored(task, c) == x {
      if x in items {
        var i :| 0 <= i < |items| && items[i] == x;
        assert kept[i] in kept && Scored(task, kept[i]) == x;
      }
      if exists c :: c in candidates && c.eligible && Scored(task, c) == x {
        var c :| c in candidates && c.eligible && Scored(task, c) == x;
        var i :| 0 <= i < |kept| && kept[i] == c;
        assert items[i] == x;
      }
    }
  }

  /** Rounding changes a value by at most half a millionth, and never the order of two values. */
  lemma RoundedNear(x: real)
    ensures -0.0000005 <= Rounded(x) - x <= 0.0000005
  {
    var n := (x * 1000000.0).Floor;
    assert n as real <= x * 1000000.0 < n as real + 1.0;
    assert Rounded(x) * 1000000.0 == n as real || Rounded(x) * 1000000.0 == n as real + 1.0;
  }

  lemma RoundedKeepsOrder(x: real, y: real)
    requires x <= y
    ensures Rounded(x) <= Rounded(y)
  {
    var m, n := (x * 1000000.0).Floor, (y * 1000000.0).Floor;
    assert m as real <= x * 1000000.0 <= y * 1000000.0 < n as real + 1.0;
    assert m <= n;
    assert Rounded(x) * 1000000.0 == m as real || Rounded(x) * 1000000.0 == m as real + 1.0;
    assert Rounded(y) * 1000000.0 == n as real || Rounded(y) * 1000000.0 == n as real + 1.0;
  }

  /** `a` has done at least as well as `b` in every respect, and is allowed no more. */
  predicate AtLeastAsGood(a: Candidate, b: Candidate) {
    && a.runtime.success >= b.runtime.success >= 0.0 && a.runtime.accepted >= b.runtime.accepted
    && a.runtime.failures <= b.runtime.failures <= 1.0 && a.runtime.evidence >= b.runtime.evidence
    && a.maxClass <= b.maxClass
  }

  lemma MoreReliable(x: Runtime, y: Runtime)
    requires 0.0 <= x.success <= y.success && y.failures <= x.failures <= 1.0
    ensures x.Reliability() <= y.Reliability()
  {
    var a, b, c, d := x.success, y.success, 1.0 - x.failures, 1.0 - y.failures;
    assert b * d - a * c == (b - a) * c + b * (d - c);
    assert (b - a) * c >= 0.0 && b * (d - c) >= 0.0;
  }

  lemma BetterScores(task: Task, a: Candidate, b: Candidate)
    requires AtLeastAsGood(a, b)
    ensures
      var p, q := ScoreOf(task, a), ScoreOf(task, b);
      p.success >= q.success && p.accepted >= q.accepted && p.evidence >= q.evidence && p.caution >= q.caution
  {
    hide Rounded, Runtime.Reliability;
    var x, y := a.runtime, b.runtime;
    MoreReliable(y, x);
    RoundedKeepsOrder(y.Reliability(), x.Reliability());
    RoundedKeepsOrder(y.accepted, x.accepted);
    assert y.evidence as real / 20.0 <= x.evidence as real / 20.0;
    RoundedKeepsOrder(AtMostOne(y.evidence as real / 20.0), AtMostOne(x.evidence as real / 20.0));
  }

  // ---- What follows.

  lemma BucketCount(group: seq<Item>, r: seq<Item>, x: Item)
    requires Interleaves(r, Buckets(group))
    ensures multiset(r)[x] == multiset(group)[x]
  {
    hide IdKey, EfficiencyKey, BucketOf, SortBy;
    var k := BucketOf(x);
    InterleavingIsOfGroup(r, group);
    FilterCounts(r, (y: Item) => BucketOf(y) == k, x);
    if k in Buckets(group) {
      assert multiset(Bucketed(group, k)) == multiset(InBucket(SortBy(group, IdKey), k));
      FilterCounts(SortBy(group, IdKey), (y: Item) => BucketOf(y) == k, x);
    } else {
      assert x !in group && x !in r;
    }
  }

  /** A ranking is a permutation of the eligible candidates. */
  lemma RanksHolds(r: seq<Item>, items: seq<Item>)
    requires Ranks(r, items)
    ensures multiset(r) == multiset(items) && forall x :: x in r <==> x in items
  {
    hide Buckets, Interleaves, Beats, Before, QualityKey;
    forall x: Item ensures multiset(r)[x] == multiset(items)[x] {
      var q := x.quality;
      BucketCount(InGroup(items, q), InGroup(r, q), x);
      FilterCounts(r, (y: Item) => y.quality == q, x);
      FilterCounts(items, (y: Item) => y.quality == q, x);
    }
    Reordered(r, items);
  }

  /** Profiles are told apart by their identifiers. */
  predicate IdsTell(items: seq<Item>) {
    forall x, y | x in items && y in items && x.id == y.id :: x == y
  }

  lemma CodeTells(a: string, b: string, x: Key, y: Key)
    requires x + EncodeString(a) == y + EncodeString(b) && |x| == |y|
    ensures a == b
  {
    assert (x + EncodeString(a))[|x|..] == EncodeString(a) && (y + EncodeString(b))[|y|..] == EncodeString(b);
    StringCode(a, b, [], []);
  }

  lemma KeysTell(items: seq<Item>)
    requires IdsTell(items)
    ensures KeyTells(items, IdKey) && KeyTells(items, EfficiencyKey)
    ensures forall x, y | x in items && y in items && MergeKey(x) == MergeKey(y) :: x == y
  {
    hide EncodeString;
    forall x, y | x in items && y in items ensures
      && (IdKey(x) == IdKey(y) ==> x == y) && (EfficiencyKey(x) == EfficiencyKey(y) ==> x == y)
      && (MergeKey(x) == MergeKey(y) ==> x == y) {
      if IdKey(x) == IdKey(y) { StringCode(x.id, y.id, [], []); }
      if EfficiencyKey(x) == EfficiencyKey(y) {
        CodeTells(x.id, y.id, EfficiencyKey(x)[..2], EfficiencyKey(y)[..2]);
      }
      if MergeKey(x) == MergeKey(y) { CodeTells(x.id, y.id, [x.latency], [y.latency]); }
    }
  }

  lemma BucketsForgetOrder(a: seq<Item>, b: seq<Item>)
    requires multiset(a) == multiset(b) && IdsTell(a)
    ensures Buckets(a) == Buckets(b)
  {
    hide IdKey, EfficiencyKey, BucketOf, SortBy;
    SameBuckets(a, b);
    KeysTell(a);
    SortForgetsOrder(a, b, IdKey);
  }

  lemma FirstDifference(r: seq<Item>, s: seq<Item>, i: nat, j: nat)
    requires i < |r| && i < |s| && r[..i] == s[..i]
    requires j < |r| && j < |s| && r[j] != s[j]
    ensures i <= j
  {
    assert forall k | 0 <= k < i :: r[..i][k] == r[k] && s[..i][k] == s[k];
  }

  /** No two lists of identified items beat each other. */
  lemma BeatsIsStrict(r: seq<Item>, s: seq<Item>, group: seq<Item>)
    requires Beats(r, s) && IdsTell(group)
    requires forall x | x in r || x in s :: x in group
    ensures !Beats(s, r)
  {
    hide MergeKey, Before;
    if Beats(s, r) {
      var i :| 0 <= i < |r| && i < |s| && r[..i] == s[..i] && r[i] != s[i] && Before(MergeKey(r[i]), MergeKey(s[i]));
      var j :| 0 <= j < |s| && j < |r| && s[..j] == r[..j] && s[j] != r[j] && Before(MergeKey(s[j]), MergeKey(r[j]));
      KeysTell(group);
      assert r[i] in group && s[i] in group;
      FirstDifference(r, s, i, j);
      FirstDifference(r, s, j, i);
      BeforeAntisymmetric(MergeKey(r[i]), MergeKey(s[i]));
    }
  }

  /** Only one interleaving is best. */
  lemma BestIsUnique(r: seq<Item>, s: seq<Item>, group: seq<Item>)
    requires Best(r, Buckets(group)) && Best(s, Buckets(group)) && IdsTell(group)
    ensures r == s
  {
    hide Interleaves, Buckets, Beats;
    InterleavingIsOfGroup(r, group);
    InterleavingIsOfGroup(s, group);
    if Beats(r, s) { BeatsIsStrict(r, s, group); }
  }

  lemma GroupsTellFirst(r: seq<Item>, s: seq<Item>)
    requires BestQualityFirst(r) && BestQualityFirst(s) && forall q :: InGroup(r, q) == InGroup(s, q)
    requires r != []
    ensures s != [] && r[0].quality == s[0].quality
  {
    hide InGroup, QualityKey, Before, BestQualityFirst;
    assert r[0] in InGroup(r, r[0].quality);
    assert r[0] in s;
    assert s[0] in InGroup(s, s[0].quality);
    FirstIsBest(r, s[0]);
    FirstIsBest(s, r[0]);
    BeforeAntisymmetric(QualityKey(r[0].quality), QualityKey(s[0].quality));
    QualityTells(r[0].quality, s[0].quality);
  }

  lemma GroupSplits(r: seq<Item>, q: Quality)
    requires r != []
    ensures InGroup(r, q) == (if q == r[0].quality then [r[0]] else []) + InGroup(r[1..], q)
  {
    hide InGroup;
    assert r == [r[0]] + r[1..];
    InGroupConcat([r[0]], r[1..], q);
    InGroupAll([r[0]], q);
  }

  /** A list in order of quality is known from its groups. */
  lemma {:induction false} GroupsTell(r: seq<Item>, s: seq<Item>)
    requires BestQualityFirst(r) && BestQualityFirst(s) && forall q :: InGroup(r, q) == InGroup(s, q)
    ensures r == s
  {
    hide InGroup, QualityKey, Before;
    if r == [] {
      assert s == [] || s[0] in InGroup(s, s[0].quality);
    } else {
      GroupsTellFirst(r, s);
      GroupSplits(r, r[0].quality);
      GroupSplits(s, s[0].quality);
      assert r[0] == InGroup(r, r[0].quality)[0];
      forall q ensures InGroup(r[1..], q) == InGroup(s[1..], q) {
        GroupSplits(r, q);
        GroupSplits(s, q);
        assert InGroup(r[1..], q) == InGroup(r, q)[if q == r[0].quality then 1 else 0..];
      }
      GroupsTell(r[1..], s[1..]);
      assert r == [r[0]] + r[1..] && s == [s[0]] + s[1..];
    }
  }

  lemma FirstIsBest(r: seq<Item>, x: Item)
    requires BestQualityFirst(r) && x in r
    ensures Before(QualityKey(r[0].quality), QualityKey(x.quality))
  {
    hide QualityKey, Before;
    var i :| 0 <= i < |r| && r[i] == x;
    BeforeTotal(QualityKey(x.quality), QualityKey(x.quality));
  }

  lemma QualityTells(p: Quality, q: Quality)
    requires QualityKey(p) == QualityKey(q)
    ensures p == q
  {
    assert QualityKey(p)[0] == QualityKey(q)[0] && QualityKey(p)[1] == QualityKey(q)[1];
    assert QualityKey(p)[2] == QualityKey(q)[2] && QualityKey(p)[3] == QualityKey(q)[3];
  }

  /** The ranking is settled by the candidates: no order of the input, and no choice of the
      merge, leads to another. */
  lemma RankingIsUnique(r: seq<Item>, a: seq<Item>, s: seq<Item>, b: seq<Item>)
    requires Ranks(r, a) && Ranks(s, b) && multiset(a) == multiset(b) && IdsTell(a)
    ensures r == s
  {
    hide InGroup, Buckets, Best, QualityKey, Before;
    forall q ensures InGroup(r, q) == InGroup(s, q) {
      GroupForgetsOrder(a, b, q);
      BucketsForgetOrder(InGroup(a, q), InGroup(b, q));
      BestIsUnique(InGroup(r, q), InGroup(s, q), InGroup(a, q));
    }
    GroupsTell(r, s);
  }

  lemma GroupForgetsOrder(a: seq<Item>, b: seq<Item>, q: Quality)
    requires multiset(a) == multiset(b)
    ensures multiset(InGroup(a, q)) == multiset(InGroup(b, q))
  {
    FilterReordered(a, b, (x: Item) => x.quality == q);
  }

  /** The same candidates in another order are ranked alike. */
  lemma CandidateOrderIsForgotten(task: Task, a: seq<Candidate>, b: seq<Candidate>, r: seq<Item>, s: seq<Item>)
    requires multiset(a) == multiset(b) && IdsTell(Eligible(task, a))
    requires Ranks(r, Eligible(task, a)) && Ranks(s, Eligible(task, b))
    ensures r == s && (Rankable(a) <==> Rankable(b))
  {
    hide Ranks, Scored;
    Reordered(a, b);
    FilterReordered(a, b, (c: Candidate) => c.eligible);
    MapReordered(Filter(a, (c: Candidate) => c.eligible), Filter(b, (c: Candidate) => c.eligible), Scorer(task));
    assert multiset(Eligible(task, a)) == multiset(Eligible(task, b));
    RankingIsUnique(r, Eligible(task, a), s, Eligible(task, b));
  }

  lemma WorseIsBehind(p: Quality, q: Quality)
    requires p.success >= q.success && p.accepted >= q.accepted && p.evidence >= q.evidence && p.caution >= q.caution
    ensures Before(QualityKey(p), QualityKey(q))
  {
    var a, b := QualityKey(p), QualityKey(q);
    assert a[1..] == [-p.accepted, -p.evidence, -p.caution] && b[1..] == [-q.accepted, -q.evidence, -q.caution];
    assert a[1..][1..] == [-p.evidence, -p.caution] && b[1..][1..] == [-q.evidence, -q.caution];
    assert a[1..][1..][1..] == [-p.caution] && b[1..][1..][1..] == [-q.caution];
    assert Before([-p.caution], [-q.caution]) by { assert [-p.caution][1..] == [] == [-q.caution][1..]; }
  }

  /** No candidate is ranked behind one that it is at least as good as, unless their scores are
      the same. */
  lemma BetterRanksFirst(task: Task, candidates: seq<Candidate>, r: seq<Item>, a: Candidate, b: Candidate, i: nat, j: nat)
    requires Ranks(r, Eligible(task, candidates)) && AtLeastAsGood(a, b)
    requires i < |r| && j < |r| && r[i] == Scored(task, a) && r[j] == Scored(task, b)
    ensures i < j || ScoreOf(task, a) == ScoreOf(task, b)
  {
    hide InGroup, Buckets, Best, ScoreOf, Before, QualityKey;
    BetterScores(task, a, b);
    WorseIsBehind(ScoreOf(task, a), ScoreOf(task, b));
    if j < i {
      BeforeAntisymmetric(QualityKey(ScoreOf(task, a)), QualityKey(ScoreOf(task, b)));
      QualityTells(ScoreOf(task, a), ScoreOf(task, b));
    }
  }
}
