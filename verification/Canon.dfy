/**
 Canonical values: the JSON documents that are hashed, compared and stored.

 A digest is kept as the value it was taken of, so two digests are equal exactly
 when the digested values are.  An object is its set of keys, named by a `Shape`,
 with its values in the order of the keys.
 */
module Canon {
  import opened Prelude

  /** A string: plain text, or a fixed prefix followed by a digest. */
  datatype Text = Lit(s: string) | Hash(prefix: string, of: Json)

  datatype Json =
    | Null
    | Bool(b: bool)
    | Num(n: real)
    | Str(t: Text)
    | Arr(items: seq<Json>)
    | Obj(shape: nat, values: seq<Json>)

  /** `canonical_digest` */
  function Digest(j: Json): Text {
    Hash("sha256:", j)
  }

  /** A string followed by another. */
  function Prefixed(prefix: string, t: Text): Text {
    match t
    case Lit(s) => Lit(prefix + s)
    case Hash(p, of) => Hash(prefix + p, of)
  }

  predicate IsDigest(t: Text) {
    t.Hash? && t.prefix == "sha256:"
  }

  // ---- A total order on canonical values, with plain text in code point order.

  function EncodeString(s: string): seq<real> {
    if s == "" then [0.0] else [(s[0] as int + 1) as real] + EncodeString(s[1..])
  }

  function EncodeText(t: Text): seq<real> {
    match t
    case Lit(s) => [0.0] + EncodeString(s)
    case Hash(prefix, of) => [1.0] + EncodeString(prefix) + Encode(of)
  }

  function Encode(j: Json): seq<real> {
    match j
    case Null => [0.0]
    case Bool(b) => [1.0, if b then 1.0 else 0.0]
    case Num(n) => [2.0, n]
    case Str(t) => [3.0] + EncodeText(t)
    case Arr(items) => [4.0, |items| as real] + EncodeAll(items)
    case Obj(shape, values) => [5.0, shape as real, |values| as real] + EncodeAll(values)
  }

  function EncodeAll(items: seq<Json>): seq<real> {
    if items == [] then [] else Encode(items[0]) + EncodeAll(items[1..])
  }

  lemma {:induction false} StringCode(a: string, b: string, x: seq<real>, y: seq<real>)
    requires EncodeString(a) + x == EncodeString(b) + y
    ensures a == b && x == y
  {
    var l, r := EncodeString(a) + x, EncodeString(b) + y;
    assert l[0] == r[0];
    if a == "" || b == "" {
      assert l[1..] == x && r[1..] == y;
    } else {
      assert l[1..] == EncodeString(a[1..]) + x && r[1..] == EncodeString(b[1..]) + y;
      StringCode(a[1..], b[1..], x, y);
      assert a == [a[0]] + a[1..] && b == [b[0]] + b[1..];
    }
  }

  lemma SameTag(a: Text, b: Text, x: seq<real>, y: seq<real>)
    requires EncodeText(a) + x == EncodeText(b) + y
    ensures a.Lit? == b.Lit?
    ensures a.Hash? ==>
      [1.0] + EncodeString(a.prefix) + (Encode(a.of) + x) == [1.0] + EncodeString(b.prefix) + (Encode(b.of) + y)
  {
    assert (EncodeText(a) + x)[0] == (EncodeText(b) + y)[0];
    if a.Hash? {
      assert EncodeText(a) + x == [1.0] + EncodeString(a.prefix) + (Encode(a.of) + x);
      assert EncodeText(b) + y == [1.0] + EncodeString(b.prefix) + (Encode(b.of) + y);
    }
  }

  lemma CancelTag(tag: real, a: seq<real>, b: seq<real>, x: seq<real>, y: seq<real>)
    requires [tag] + a + x == [tag] + b + y
    ensures a + x == b + y
  {
    assert a + x == ([tag] + a + x)[1..] && b + y == ([tag] + b + y)[1..];
  }

  lemma {:induction false} TextCode(a: Text, b: Text, x: seq<real>, y: seq<real>)
    requires EncodeText(a) + x == EncodeText(b) + y
    ensures a == b && x == y
    decreases a, 0
  {
    SameTag(a, b, x, y);
    match a {
      case Lit(s) =>
        CancelTag(0.0, EncodeString(s), EncodeString(b.s), x, y);
        StringCode(s, b.s, x, y);
      case Hash(prefix, of) =>
        CancelTag(1.0, EncodeString(prefix), EncodeString(b.prefix), Encode(of) + x, Encode(b.of) + y);
        StringCode(prefix, b.prefix, Encode(of) + x, Encode(b.of) + y);
        JsonCode(of, b.of, x, y);
    }
  }

  /** The encoding can be read back: no code is the beginning of another. */
  lemma {:induction false} JsonCode(a: Json, b: Json, x: seq<real>, y: seq<real>)
    requires Encode(a) + x == Encode(b) + y
    ensures a == b && x == y
    decreases a, 0
  {
    var l, r := Encode(a) + x, Encode(b) + y;
    assert l[0] == r[0];
    match a {
      case Null => assert l[1..] == x && r[1..] == y;
      case Bool(_) => assert l[1] == r[1] && l[2..] == x && r[2..] == y;
      case Num(_) => assert l[1] == r[1] && l[2..] == x && r[2..] == y;
      case Str(t) =>
        assert l[1..] == EncodeText(t) + x && r[1..] == EncodeText(b.t) + y;
        TextCode(t, b.t, x, y);
      case Arr(items) =>
        assert l[1] == r[1];
        assert l[2..] == EncodeAll(items) + x && r[2..] == EncodeAll(b.items) + y;
        ListCode(a, items, b.items, x, y);
      case Obj(_, values) =>
        assert l[1] == r[1] && l[2] == r[2];
        assert l[3..] == EncodeAll(values) + x && r[3..] == EncodeAll(b.values) + y;
        ListCode(a, values, b.values, x, y);
    }
  }

  lemma {:induction false} ListCode(whole: Json, a: seq<Json>, b: seq<Json>, x: seq<real>, y: seq<real>)
    requires |a| == |b| && EncodeAll(a) + x == EncodeAll(b) + y
    requires forall i | 0 <= i < |a| :: a[i] < whole
    ensures a == b && x == y
    decreases whole, 0, |a|
  {
    if a != [] {
      assert Encode(a[0]) + (EncodeAll(a[1..]) + x) == EncodeAll(a) + x;
      assert Encode(b[0]) + (EncodeAll(b[1..]) + y) == EncodeAll(b) + y;
      JsonCode(a[0], b[0], EncodeAll(a[1..]) + x, EncodeAll(b[1..]) + y);
      ListCode(whole, a[1..], b[1..], x, y);
      assert a == [a[0]] + a[1..] && b == [b[0]] + b[1..];
    } else {
      assert EncodeAll(a) + x == x && EncodeAll(b) + y == y;
    }
  }

  lemma JsonCodeInjective(a: Json, b: Json)
    requires Encode(a) == Encode(b)
    ensures a == b
  {
    JsonCode(a, b, [], []);
  }

  lemma TextCodeInjective(a: Text, b: Text)
    requires EncodeText(a) == EncodeText(b)
    ensures a == b
  {
    TextCode(a, b, [], []);
  }

  // ---- Sorting.

  type Key = seq<real>

  predicate Before(a: Key, b: Key) {
    a == [] || (b != [] && (a[0] < b[0] || (a[0] == b[0] && Before(a[1..], b[1..]))))
  }

  lemma {:induction false} BeforeTotal(a: Key, b: Key)
    ensures Before(a, b) || Before(b, a)
  {
    if a != [] && b != [] { BeforeTotal(a[1..], b[1..]); }
  }

  lemma {:induction false} BeforeAntisymmetric(a: Key, b: Key)
    requires Before(a, b) && Before(b, a)
    ensures a == b
  {
    if a != [] && b != [] {
      BeforeAntisymmetric(a[1..], b[1..]);
      assert a == [a[0]] + a[1..] && b == [b[0]] + b[1..];
    }
  }

  lemma {:induction false} BeforeTransitive(a: Key, b: Key, c: Key)
    requires Before(a, b) && Before(b, c)
    ensures Before(a, c)
  {
    if a != [] && a[0] == b[0] && b[0] == c[0] { BeforeTransitive(a[1..], b[1..], c[1..]); }
  }

  predicate SortedBy<T(!new)>(s: seq<T>, key: T -> Key) {
    forall i, j | 0 <= i < j < |s| :: Before(key(s[i]), key(s[j]))
  }

  /** Stable: `x` goes before the elements of the same key. */
  function Insert<T(!new)>(x: T, s: seq<T>, key: T -> Key): (r: seq<T>)
    ensures multiset(r) == multiset{x} + multiset(s)
    ensures SortedBy(s, key) ==> SortedBy(r, key)
  {
    if s == [] then [x]
    else if Before(key(x), key(s[0])) then
      assert SortedBy(s, key) ==> SortedBy([x] + s, key) by { PrependSorted(x, s, key); }
      [x] + s
    else
      var rest := Insert(x, s[1..], key);
      assert s == [s[0]] + s[1..];
      assert SortedBy(s, key) ==> SortedBy([s[0]] + rest, key) by { InsertKeepsHead(x, s, rest, key); }
      [s[0]] + rest
  }

  lemma PrependSorted<T(!new)>(x: T, s: seq<T>, key: T -> Key)
    requires s != [] && Before(key(x), key(s[0]))
    ensures SortedBy(s, key) ==> SortedBy([x] + s, key)
  {
    if SortedBy(s, key) {
      forall j | 0 <= j < |s| ensures Before(key(x), key(s[j])) {
        if j > 0 { BeforeTransitive(key(x), key(s[0]), key(s[j])); }
      }
    }
  }

  lemma InsertKeepsHead<T(!new)>(x: T, s: seq<T>, rest: seq<T>, key: T -> Key)
    requires s != [] && !Before(key(x), key(s[0]))
    requires multiset(rest) == multiset{x} + multiset(s[1..]) && (SortedBy(s[1..], key) ==> SortedBy(rest, key))
    ensures SortedBy(s, key) ==> SortedBy([s[0]] + rest, key)
  {
    if SortedBy(s, key) {
      BeforeTotal(key(x), key(s[0]));
      forall j | 0 <= j < |rest| ensures Before(key(s[0]), key(rest[j])) {
        assert rest[j] in multiset(rest);
        if rest[j] != x {
          assert rest[j] in s[1..];
        }
      }
    }
  }

  /** `sorted(s, key=key)` */
  function SortBy<T(!new)>(s: seq<T>, key: T -> Key): (r: seq<T>)
    ensures multiset(r) == multiset(s) && SortedBy(r, key) && |r| == |s|
  {
    if s == [] then []
    else
      assert s == [s[0]] + s[1..];
      var r := Insert(s[0], SortBy(s[1..], key), key);
      assert |multiset(r)| == |multiset(s)|;
      r
  }

  /** Elements of the same key are the same element. */
  ghost predicate KeyTells<T(!new)>(s: seq<T>, key: T -> Key) {
    forall i, j | 0 <= i < |s| && 0 <= j < |s| && key(s[i]) == key(s[j]) :: s[i] == s[j]
  }

  lemma SmallestFirst<T(!new)>(a: seq<T>, b: seq<T>, key: T -> Key)
    requires a != [] && SortedBy(a, key) && b != [] && multiset(a) == multiset(b)
    ensures Before(key(a[0]), key(b[0]))
  {
    assert b[0] in multiset(a);
    BeforeTotal(key(a[0]), key(a[0]));
    var i :| 0 <= i < |a| && a[i] == b[0];
  }

  lemma HeadsAgree<T(!new)>(a: seq<T>, b: seq<T>, key: T -> Key)
    requires a != [] && SortedBy(a, key) && SortedBy(b, key) && multiset(a) == multiset(b) && KeyTells(a, key)
    ensures b != [] && a[0] == b[0]
  {
    assert |multiset(a)| == |multiset(b)|;
    SmallestFirst(a, b, key);
    SmallestFirst(b, a, key);
    BeforeAntisymmetric(key(a[0]), key(b[0]));
    assert b[0] in multiset(a);
  }

  lemma TailsAgree<T>(a: seq<T>, b: seq<T>)
    requires a != [] && b != [] && a[0] == b[0] && multiset(a) == multiset(b)
    ensures multiset(a[1..]) == multiset(b[1..])
  {
    assert a == [a[0]] + a[1..] && b == [b[0]] + b[1..];
    assert multiset(a[1..]) == multiset(a) - multiset{a[0]};
  }

  lemma {:induction false} SortedUnique<T(!new)>(a: seq<T>, b: seq<T>, key: T -> Key)
    requires SortedBy(a, key) && SortedBy(b, key) && multiset(a) == multiset(b) && KeyTells(a, key)
    ensures a == b
  {
    if a == [] {
      assert |multiset(b)| == 0;
    } else {
      HeadsAgree(a, b, key);
      TailsAgree(a, b);
      SortedUnique(a[1..], b[1..], key);
      assert a == [a[0]] + a[1..] && b == [b[0]] + b[1..];
    }
  }

  /** Sorting forgets the order of its input when keys tell elements apart. */
  lemma SortForgetsOrder<T(!new)>(a: seq<T>, b: seq<T>, key: T -> Key)
    requires multiset(a) == multiset(b) && KeyTells(a, key)
    ensures SortBy(a, key) == SortBy(b, key)
  {
    var s := SortBy(a, key);
    forall i, j | 0 <= i < |s| && 0 <= j < |s| && key(s[i]) == key(s[j]) ensures s[i] == s[j] {
      assert s[i] in multiset(a) && s[j] in multiset(a);
    }
    SortedUnique(s, SortBy(b, key), key);
  }

  lemma {:induction false} SortedIsFixed<T(!new)>(s: seq<T>, key: T -> Key)
    requires SortedBy(s, key)
    ensures SortBy(s, key) == s
  {
    if s != [] {
      SortedIsFixed(s[1..], key);
      assert s == [s[0]] + s[1..];
    }
  }

  lemma SortTwice<T(!new)>(s: seq<T>, key: T -> Key)
    ensures SortBy(SortBy(s, key), key) == SortBy(s, key)
  {
    SortedIsFixed(SortBy(s, key), key);
  }
}
