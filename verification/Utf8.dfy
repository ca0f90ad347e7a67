/** The encoding by which the sizes of contents are measured (RFC 3629, section 3). */
module Utf8 {
  import opened ContextPacking

  type Octet = int

  function EncodeChar(c: char): (r: seq<Octet>)
    ensures forall o | o in r :: 0 <= o < 256
  {
    var n := c as int;
    if n < 0x80 then [n]
    else if n < 0x800 then [0xC0 + n / 64, 0x80 + n % 64]
    else if n < 0x1_0000 then [0xE0 + n / 64 / 64, 0x80 + n / 64 % 64, 0x80 + n % 64]
    else [0xF0 + n / 64 / 64 / 64, 0x80 + n / 64 / 64 % 64, 0x80 + n / 64 % 64, 0x80 + n % 64]
  }

  function Encode(s: string): seq<Octet> {
    if s == "" then [] else EncodeChar(s[0]) + Encode(s[1..])
  }

  /** How many octets the first of them announces. */
  function Announced(first: Octet): nat {
    if first < 0x80 then 1 else if first < 0xE0 then 2 else if first < 0xF0 then 3 else 4
  }

  /** The number that the octets stand for: what is left of the first, and six bits of each other. */
  function Value(octets: seq<Octet>): int {
    if octets == [] then 0
    else if |octets| == 1 then
      octets[0]
    else
      Tail(octets[0] - (if |octets| == 2 then 0xC0 else if |octets| == 3 then 0xE0 else 0xF0), octets[1..])
  }

  function Tail(high: int, octets: seq<Octet>): int
    decreases |octets|
  {
    if octets == [] then high else Tail(high * 64 + octets[0] - 0x80, octets[1..])
  }

  /** The code points of an encoded text, read off from the front. */
  function Decode(octets: seq<Octet>): seq<int> {
    if octets == [] then []
    else
      var n := Announced(octets[0]);
      if |octets| < n then [] else [Value(octets[..n])] + Decode(octets[n..])
  }

  function CodePoints(s: string): seq<int> {
    seq(|s|, i requires 0 <= i < |s| => s[i] as int)
  }

  lemma CharReadsBack(c: char)
    ensures
      var octets := EncodeChar(c);
      octets != [] && |octets| == Announced(octets[0]) && Value(octets) == c as int
  {
    var n := c as int;
    var octets := EncodeChar(c);
    if 0x80 <= n < 0x800 {
      TailOne(n / 64, 0x80 + n % 64);
    } else if 0x800 <= n < 0x1_0000 {
      TailTwo(n / 64 / 64, 0x80 + n / 64 % 64, 0x80 + n % 64);
    } else if 0x1_0000 <= n {
      var high := n / 64 / 64 / 64;
      assert octets[1..][1..] == octets[2..];
      assert Tail(high, octets[1..]) == Tail(high * 64 + n / 64 / 64 % 64, octets[2..]);
      TailTwo(n / 64 / 64, 0x80 + n / 64 % 64, 0x80 + n % 64);
    }
  }

  lemma TailOne(high: int, a: Octet)
    ensures Tail(high, [a]) == high * 64 + a - 0x80
  {
  }

  lemma TailTwo(high: int, a: Octet, b: Octet)
    ensures Tail(high, [a, b]) == (high * 64 + a - 0x80) * 64 + b - 0x80
  {
    assert [a, b][1..] == [b];
    TailOne(high * 64 + a - 0x80, b);
  }

  /** The encoding loses nothing, and the byte count is its length. */
  lemma {:induction false} ByteCountMeasures(s: string)
    ensures Decode(Encode(s)) == CodePoints(s) && ByteCount(s) == |Encode(s)|
  {
    hide EncodeChar, Announced, Value;
    if s != "" {
      var octets, rest := EncodeChar(s[0]), Encode(s[1..]);
      CharReadsBack(s[0]);
      CharIsCounted(s[0]);
      ByteCountMeasures(s[1..]);
      assert (octets + rest)[..|octets|] == octets && (octets + rest)[|octets|..] == rest;
      assert CodePoints(s) == [s[0] as int] + CodePoints(s[1..]);
    }
  }

  lemma CharIsCounted(c: char)
    ensures |EncodeChar(c)| == if c < '\U{80}' then 1 else if c < '\U{800}' then 2 else if c < '\U{10000}' then 3 else 4
  {
  }
}
