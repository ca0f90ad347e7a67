/** The order of a ranking, told from the fields of the ranked profiles. */
module RankingLaws {
  import opened Prelude
  import opened Canon
  import opened Sequences
  import opened Ranking

  // ---- The order of identifiers.

  /** Where the two first differ `a` has the lower character, or has ended. */
  ghost predicate Precedes(a: string, b: string) {
    exists k | 0 <= k <= |a| && k < |b| :: Differ(a, b, k)
  }

  predicate Differ(a: string, b: string, k: int)
    requires 0 <= k <= |a| && k < |b|
  {
    a[..k] == b[..k] && (k == |a| || a[k] < b[k])
  }

  lemma {:induction false} IdentifiersInOrder(a: string, b: string)
    ensures Before(EncodeString(a), EncodeString(b)) <==> a == b || Precedes(a, b)
  {
    if a == "" {
      assert b != "" ==> Differ(a, b, 0);
    } else if b != "" {
      IdentifiersInOrder(a[1..], b[1..]);
      assert a == [a[0]] + a[1..] && b == [b[0]] + b[1..];
      assert EncodeString(a)[1..] == EncodeString(a[1..]) && EncodeString(b)[1..] == EncodeString(b[1..]);
      if a[0] == b[0] { PrecedesBehind(a, b); } else { PrecedesAtOnce(a, b); }
    }
  }

  lemma PrecedesAtOnce(a: string, b: string)
    requires a != "" && b != "" && a[0] != b[0]
    ensures Precedes(a, b) <==> a[0] < b[0]
  {
    if a[0] < b[0] { assert Differ(a, b, 0); }
    forall k | 0 < k <= |a| && k < |b| ensures !Differ(a, b, k) { assert a[..k][0] == a[0] && b[..k][0] == b[0]; }
  }

  lemma DifferBehind(a: string, b: string, k: nat)
    requires a != "" && b != "" && a[0] == b[0] && 0 < k <= |a| && k < |b|
    ensures Differ(a, b, k) <==> Differ(a[1..], b[1..], k - 1)
  {
    var c, d := a[1..], b[1..];
    assert a[..k] == [a[0]] + c[..k - 1] && b[..k] == [b[0]] + d[..k - 1];
    assert a[..k][1..] == c[..k - 1] && b[..k][1..] == d[..k - 1];
    assert k < |a| ==> a[k] == c[k - 1];
    assert b[k] == d[k - 1];
  }

  lemma PrecedesBehind(a: string, b: string)
    requires a != "" && b != "" && a[0] == b[0]
    ensures Precedes(a, b) <==> Precedes(a[1..], b[1..])
  {
    forall k | 0 < k <= |a| && k < |b| ensures Differ(a, b, k) <==> Differ(a[1..], b[1..], k - 1) {
      DifferBehind(a, b, k);
    }
    if Precedes(a, b) {
      var k :| 0 <= k <= |a| && k < |b| && Differ(a, b, k);
      assert Differ(a[1..], b[1..], k - 1);
    }
    if Precedes(a[1..], b[1..]) {
      var k :| 0 <= k <= |a[1..]| && k < |b[1..]| && Differ(a[1..], b[1..], k);
      assert Differ(a, b, k + 1);
    }
  }

  // ---- The three orders, on fields.

  /** Reliability decides, then acceptance, then evidence, then caution. */
  predicate NoWorseQuality(p: Quality, q: Quality) {
    || p.success > q.success
    || (p.success == q.success
        && (|| p.accepted > q.accepted
            || (p.accepted == q.accepted
                && (|| p.evidence > q.evidence
                    || (p.evidence == q.evidence && p.caution >= q.caution)))))
  }

  /** Lower latency decides, then the identifier. */
  ghost predicate NoSlower(x: Item, y: Item) {
    x.latency < y.latency || (x.latency == y.latency && (x.id == y.id || Precedes(x.id, y.id)))
  }

  /** They say how efficient they are, in the same terms. */
  predicate SameTerms(x: Item, y: Item) {
    && x.efficiency.Some? && y.efficiency.Some? && x.efficiency.value.runner == y.efficiency.value.runner
    && x.efficiency.value.pool == y.efficiency.value.pool && x.efficiency.value.unit == y.efficiency.value.unit
  }

  /** Higher efficiency decides, then lower latency, then the identifier. */
  ghost predicate NoLessEfficient(x: Item, y: Item)
    requires x.efficiency.Some? && y.efficiency.Some?
  {
    || x.efficiency.value.value > y.efficiency.value.value
    || (x.efficiency.value.value == y.efficiency.value.value && NoSlower(x, y))
  }

  lemma QualitiesInOrder(p: Quality, q: Quality)
    ensures Before(QualityKey(p), QualityKey(q)) <==> NoWorseQuality(p, q)
  {
    var a, b := QualityKey(p), QualityKey(q);
    var c, d := [-p.accepted, -p.evidence, -p.caution], [-q.accepted, -q.evidence, -q.caution];
    assert a[1..] == c && b[1..] == d;
    assert c[1..] == [-p.evidence, -p.caution] && d[1..] == [-q.evidence, -q.caution];
    assert c[1..][1..] == [-p.caution] && d[1..][1..] == [-q.caution];
    assert [-p.caution][1..] == [] == [-q.caution][1..];
    assert Before([-p.caution], [-q.caution]) <==> p.caution >= q.caution;
    assert Before(c[1..], d[1..]) <==>
      p.evidence > q.evidence || (p.evidence == q.evidence && p.caution >= q.caution);
    assert Before(c, d) <==> p.accepted > q.accepted || (p.accepted == q.accepted && Before(c[1..], d[1..]));
  }

  lemma MergeInOrder(x: Item, y: Item)
    ensures Before(MergeKey(x), MergeKey(y)) <==> NoSlower(x, y)
  {
    hide EncodeString, Precedes;
    assert MergeKey(x)[1..] == EncodeString(x.id) && MergeKey(y)[1..] == EncodeString(y.id);
    IdentifiersInOrder(x.id, y.id);
  }

  lemma EfficiencyInOrder(x: Item, y: Item)
    requires x.efficiency.Some? && y.efficiency.Some?
    ensures Before(EfficiencyKey(x), EfficiencyKey(y)) <==> NoLessEfficient(x, y)
  {
    hide EncodeString, Precedes;
    var a, b := EfficiencyKey(x), EfficiencyKey(y);
    assert a[1..] == MergeKey(x) && b[1..] == MergeKey(y);
    MergeInOrder(x, y);
  }

  // ---- What the order of a ranking is.

  /** Better qualities are ranked first. */
  lemma QualityFirst(r: seq<Item>, items: seq<Item>, i: nat, j: nat)
    requires Ranks(r, items) && i < j < |r|
    ensures NoWorseQuality(r[i].quality, r[j].quality)
  {
    hide InGroup, Buckets, Best, QualityKey, Before;
    QualitiesInOrder(r[i].quality, r[j].quality);
  }

  /** Where two elements of a list stand among those that are kept of it. */
  lemma {:induction false} KeptInOrder<T(!new)>(s: seq<T>, keep: T -> bool, i: nat, j: nat) returns (a: nat, b: nat)
    requires i < j < |s| && keep(s[i]) && keep(s[j])
    ensures a < b < |Filter(s, keep)| && Filter(s, keep)[a] == s[i] && Filter(s, keep)[b] == s[j]
  {
    var init := s[..|s| - 1];
    if j == |s| - 1 {
      a := KeptAt(init, keep, i);
      b := |Filter(init, keep)|;
    } else {
      a, b := KeptInOrder(init, keep, i, j);
    }
  }

  lemma {:induction false} KeptAt<T(!new)>(s: seq<T>, keep: T -> bool, i: nat) returns (a: nat)
    requires i < |s| && keep(s[i])
    ensures a < |Filter(s, keep)| && Filter(s, keep)[a] == s[i]
  {
    var init := s[..|s| - 1];
    if i == |s| - 1 { a := |Filter(init, keep)|; } else { a := KeptAt(init, keep, i); }
  }

  /** Of two profiles of one quality that say how efficient they are in the same terms, the more
      efficient is ranked first; then the faster; then the one of the lower identifier. */
  lemma MoreEfficientFirst(r: seq<Item>, items: seq<Item>, i: nat, j: nat)
    requires Ranks(r, items) && i < j < |r| && r[i].quality == r[j].quality && SameTerms(r[i], r[j])
    ensures NoLessEfficient(r[i], r[j])
  {
    hide IdKey, EfficiencyKey, Before, SortBy, Beats, NoLessEfficient;
    var q, k := r[i].quality, BucketOf(r[i]);
    var group := InGroup(r, q);
    var a, b := KeptInOrder(r, (x: Item) => x.quality == q, i, j);
    var c, d := KeptInOrder(group, (x: Item) => BucketOf(x) == k, a, b);
    assert Best(group, Buckets(InGroup(items, q)));
    assert group[a] in group && k in Buckets(InGroup(items, q));
    assert InBucket(group, k) == Bucketed(InGroup(items, q), k);
    assert SortedBy(InBucket(group, k), EfficiencyKey);
    EfficiencyInOrder(r[i], r[j]);
  }

  // ---- How buckets are merged.

  function Moved(s: seq<Item>, i: nat, j: nat): seq<Item>
    requires i < j < |s|
  {
    s[..i] + [s[j]] + s[i..j] + s[j + 1..]
  }

  /** No element of `s` between the two positions is in the bucket. */
  predicate NoneBetween(s: seq<Item>, i: nat, j: nat, k: Bucket)
    requires i <= j <= |s|
  {
    forall h | i <= h < j :: BucketOf(s[h]) != k
  }

  lemma {:induction false} NoneInBucket(s: seq<Item>, k: Bucket)
    requires forall x | x in s :: BucketOf(x) != k
    ensures InBucket(s, k) == []
  {
    SomeElement(InBucket(s, k));
  }

  /** Taking an element forward, past none of its own bucket, leaves every bucket as it is. */
  lemma MovingKeepsBuckets(s: seq<Item>, i: nat, j: nat, k: Bucket)
    requires i < j < |s| && NoneBetween(s, i, j, BucketOf(s[j]))
    ensures InBucket(Moved(s, i, j), k) == InBucket(s, k)
  {
    hide InBucket, BucketOf;
    var a, b, c, d := s[..i], s[i..j], [s[j]], s[j + 1..];
    assert s == a + b + c + d && Moved(s, i, j) == a + c + b + d;
    InBucketConcat(a + b + c, d, k);
    InBucketConcat(a + b, c, k);
    InBucketConcat(a, b, k);
    InBucketConcat(a + c + b, d, k);
    InBucketConcat(a + c, b, k);
    InBucketConcat(a, c, k);
    InBucketOne(s[j], k);
    if BucketOf(s[j]) == k {
      forall x | x in b ensures BucketOf(x) != k { var h :| 0 <= h < |b| && b[h] == x; }
      NoneInBucket(b, k);
      assert InBucket(a, k) + InBucket(b, k) + InBucket(c, k) == InBucket(a, k) + InBucket(c, k) + InBucket(b, k);
    }
  }

  lemma MovingInterleaves(s: seq<Item>, buckets: map<Bucket, seq<Item>>, i: nat, j: nat)
    requires Interleaves(s, buckets) && i < j < |s| && NoneBetween(s, i, j, BucketOf(s[j]))
    ensures Interleaves(Moved(s, i, j), buckets)
  {
    hide InBucket, BucketOf;
    forall k ensures InBucket(Moved(s, i, j), k) == InBucket(s, k) { MovingKeepsBuckets(s, i, j, k); }
    assert forall x | x in Moved(s, i, j) :: x in s;
  }

  /** In the best interleaving nothing that could come next has a lower latency, or the same
      latency and a lower identifier, than what does come next. */
  lemma NextIsLeast(s: seq<Item>, buckets: map<Bucket, seq<Item>>, i: nat, j: nat)
    requires Best(s, buckets) && i < j < |s| && NoneBetween(s, i, j, BucketOf(s[j]))
    ensures NoSlower(s[i], s[j])
  {
    hide Interleaves, MergeKey, Before, NoSlower;
    var other := Moved(s, i, j);
    MovingInterleaves(s, buckets, i, j);
    MergeInOrder(s[i], s[j]);
    assert other[i] == s[j] && other[..i] == s[..i];
    assert BucketOf(s[i]) != BucketOf(s[j]);
    var h :| 0 <= h < |s| && h < |other| && s[..h] == other[..h] && s[h] != other[h]
      && Before(MergeKey(s[h]), MergeKey(other[h]));
    FirstDifference(s, other, i, h);
    FirstDifference(s, other, h, i);
  }

  /** The profile at `j` is the next of its bucket, as far as its quality goes. */
  predicate NextOfBucket(r: seq<Item>, i: nat, j: nat)
    requires i < j < |r|
  {
    forall h | i <= h < j :: r[h].quality == r[j].quality ==> BucketOf(r[h]) != BucketOf(r[j])
  }

  /** Across the buckets of one quality the faster goes first: a profile that is the next of its
      bucket is ranked behind another only if that is no slower. */
  lemma FasterFirst(r: seq<Item>, items: seq<Item>, i: nat, j: nat)
    requires Ranks(r, items) && i < j < |r| && r[i].quality == r[j].quality && NextOfBucket(r, i, j)
    ensures NoSlower(r[i], r[j])
  {
    hide Best, Buckets, BucketOf, NoSlower, BestQualityFirst;
    var q := r[i].quality;
    var a, b := KeptBetween(r, q, i, j);
    assert Best(InGroup(r, q), Buckets(InGroup(items, q)));
    NextIsLeast(InGroup(r, q), Buckets(InGroup(items, q)), a, b);
  }

  /** What is kept between two kept elements stood between them. */
  lemma {:induction false} KeptBetween(r: seq<Item>, q: Quality, i: nat, j: nat) returns (a: nat, b: nat)
    requires i < j < |r| && r[i].quality == q == r[j].quality
    ensures a < b < |InGroup(r, q)| && InGroup(r, q)[a] == r[i] && InGroup(r, q)[b] == r[j]
    ensures forall h | a <= h < b :: exists g | i <= g < j :: r[g].quality == q && r[g] == InGroup(r, q)[h]
  {
    var n := |r| - 1;
    var init := r[..n];
    if j == n {
      a := KeptAfter(init, q, i);
      b := |InGroup(init, q)|;
    } else {
      a, b := KeptBetween(init, q, i, j);
    }
  }

  lemma {:induction false} KeptAfter(r: seq<Item>, q: Quality, i: nat) returns (a: nat)
    requires i < |r| && r[i].quality == q
    ensures a < |InGroup(r, q)| && InGroup(r, q)[a] == r[i]
    ensures forall h | a <= h < |InGroup(r, q)| :: exists g | i <= g < |r| :: r[g].quality == q && r[g] == InGroup(r, q)[h]
  {
    var n := |r| - 1;
    var init := r[..n];
    if i == n { a := |InGroup(init, q)|; } else { a := KeptAfter(init, q, i); }
  }

  // ---- The scores.

  /** `n` millionths are as near to `x` as any, and an even number of them where two are. */
  predicate Nearest(x: real, n: int) {
    var rest := x * 1000000.0 - n as real;
    -0.5 <= rest <= 0.5 && (rest == 0.5 || rest == -0.5 ==> n % 2 == 0)
  }

  ghost predicate RoundsTo(x: real, y: real) { exists n: int :: Nearest(x, n) && y == n as real / 1000000.0 }

  lemma RoundedExactly(x: real, y: real)
    ensures Rounded(x) == y <==> RoundsTo(x, y)
  {
    var f := (x * 1000000.0).Floor;
    var n := if x * 1000000.0 - f as real < 0.5 || (x * 1000000.0 - f as real == 0.5 && f % 2 == 0) then f else f + 1;
    assert Rounded(x) == n as real / 1000000.0 && Nearest(x, n);
    forall m: int | Nearest(x, m) ensures m == n { NearestIsOne(x, m, n); }
  }

  lemma NearestIsOne(x: real, m: int, n: int)
    requires Nearest(x, m) && Nearest(x, n)
    ensures m == n
  {
    assert -1.0 <= m as real - n as real <= 1.0;
    assert -1 <= m - n <= 1;
  }

  lemma Reliable(t: Runtime, z: real)
    requires z == t.success * (1.0 - t.failures)
    ensures RoundsTo(z, Rounded(t.Reliability()))
  {
    hide Rounded, RoundsTo;
    assert z == t.Reliability();
    RoundedExactly(z, Rounded(z));
  }

  /** What a profile is ranked by, from its record: to the millionth, but for its caution. */
  lemma ScoresExactly(task: Task, c: Candidate)
    ensures
      var x, t := Scored(task, c), c.runtime;
      && x.id == c.id && x.ref == c.ref
      && (forall z | z == t.success * (1.0 - t.failures) :: RoundsTo(z, x.quality.success))
      && RoundsTo(t.accepted, x.quality.accepted)
      && RoundsTo(if t.evidence >= 20 then 1.0 else t.evidence as real / 20.0, x.quality.evidence)
      && x.quality.caution == (task.permissionClass - c.maxClass) as real - task.risk
      && RoundsTo(t.latency, x.latency) && (x.efficiency.Some? <==> t.efficiency.Some?)
      && (x.efficiency.Some? ==>
            && x.efficiency.value == t.efficiency.value.(value := x.efficiency.value.value)
            && RoundsTo(t.efficiency.value.value, x.efficiency.value.value))
  {
    hide Rounded, RoundsTo;
    var x, t := Scored(task, c), c.runtime;
    forall z | z == t.success * (1.0 - t.failures) ensures RoundsTo(z, x.quality.success) { Reliable(t, z); }
    RoundedExactly(t.accepted, x.quality.accepted);
    var evidence := if t.evidence >= 20 then 1.0 else t.evidence as real / 20.0;
    assert evidence == AtMostOne(t.evidence as real / 20.0);
    RoundedExactly(evidence, x.quality.evidence);
    RoundedExactly(t.latency, x.latency);
    if t.efficiency.Some? { RoundedExactly(t.efficiency.value.value, x.efficiency.value.value); }
  }
}
