/** What normalization makes of a content: the same lines, each ended by a line feed. */
module ContentLines {
  import opened Prelude
  import opened Canon
  import opened ContextIndexing

  const LINE_ENDS: set<string> := {"\n", "\r", "\r\n"}

  /** A line and what ends it. */
  datatype Line = Line(text: string, end: string)

  predicate OneLine(text: string) { '\r' !in text && '\n' !in text }

  function Joined(lines: seq<Line>, tail: string): string {
    if lines == [] then tail else lines[0].text + (lines[0].end + Joined(lines[1..], tail))
  }

  /** A carriage return that the next line's feed would turn into one line end with it. */
  predicate Fuses(a: Line, b: Line) { a.end == "\r" && b.text == "" && b.end == "\n" }

  /** Lines as they are read: a carriage return right before a line feed belongs to it. */
  predicate Read(lines: seq<Line>, tail: string) {
    && OneLine(tail) && (forall i | 0 <= i < |lines| :: OneLine(lines[i].text) && lines[i].end in LINE_ENDS)
    && forall i | 0 <= i < |lines| - 1 :: !Fuses(lines[i], lines[i + 1])
  }

  function Fed(lines: seq<Line>): (r: seq<Line>)
    ensures |r| == |lines| && forall i | 0 <= i < |lines| :: r[i] == Line(lines[i].text, "\n")
  {
    if lines == [] then [] else [Line(lines[0].text, "\n")] + Fed(lines[1..])
  }

  lemma {:induction false} NormalizeText(text: string, rest: string)
    requires OneLine(text)
    ensures Normalize(text + rest) == text + Normalize(rest)
  {
    if text == "" {
      assert text + rest == rest;
    } else {
      assert text + rest == [text[0]] + (text[1..] + rest) && text == [text[0]] + text[1..];
      assert (text + rest)[1..] == text[1..] + rest && (text + rest)[0] == text[0];
      assert text[0] in text;
      NormalizeText(text[1..], rest);
    }
  }

  lemma NormalizeEnd(end: string, rest: string)
    requires end in LINE_ENDS && (end == "\r" ==> rest == "" || rest[0] != '\n')
    ensures Normalize(end + rest) == "\n" + Normalize(rest)
  {
    assert |end| == 1 ==> (end + rest)[1..] == rest;
    assert |end| == 2 ==> (end + rest)[2..] == rest;
    assert rest != "" ==> (end + rest)[|end|] == rest[0];
  }

  /** Every line end becomes a line feed, and nothing else changes. */
  lemma {:induction false} NormalizeLines(lines: seq<Line>, tail: string)
    requires Read(lines, tail)
    ensures Normalize(Joined(lines, tail)) == Joined(Fed(lines), tail)
  {
    if lines == [] {
      NormalizeText(tail, "");
      assert tail + "" == tail;
    } else {
      var rest := Joined(lines[1..], tail);
      StartOfRest(lines, tail);
      NormalizeText(lines[0].text, lines[0].end + rest);
      NormalizeEnd(lines[0].end, rest);
      NormalizeLines(lines[1..], tail);
      assert Fed(lines)[1..] == Fed(lines[1..]);
    }
  }

  lemma StartOfRest(lines: seq<Line>, tail: string)
    requires Read(lines, tail) && lines != []
    ensures
      var rest := Joined(lines[1..], tail);
      lines[0].end == "\r" ==> rest == "" || rest[0] != '\n'
  {
    if lines[0].end == "\r" {
      if |lines| == 1 {
        if tail != "" { assert tail[0] in tail; }
      } else {
        var next := lines[1];
        assert !Fuses(lines[0], next) && lines[1..][0] == next && OneLine(next.text);
        if next.text != "" { assert next.text[0] in next.text; }
      }
    }
  }

  /** Every content can be read as lines. */
  lemma {:induction false} EveryContentReads(s: string) returns (lines: seq<Line>, tail: string)
    ensures Read(lines, tail) && Joined(lines, tail) == s
    ensures lines != [] && lines[0].text == "" && lines[0].end == "\n" ==> s[0] == '\n'
  {
    if s == "" {
      lines, tail := [], "";
    } else if |s| > 1 && s[0] == '\r' && s[1] == '\n' {
      lines, tail := EveryContentReads(s[2..]);
      assert s == "" + ("\r\n" + s[2..]);
      lines := Prepended(Line("", "\r\n"), lines, tail);
    } else if s[0] == '\r' || s[0] == '\n' {
      lines, tail := EveryContentReads(s[1..]);
      assert s == "" + ([s[0]] + s[1..]);
      lines := Prepended(Line("", [s[0]]), lines, tail);
    } else {
      lines, tail := EveryContentReads(s[1..]);
      assert s == [s[0]] + s[1..];
      if lines == [] {
        tail := [s[0]] + tail;
      } else {
        var first := Line([s[0]] + lines[0].text, lines[0].end);
        assert Joined(lines, tail) == lines[0].text + (lines[0].end + Joined(lines[1..], tail));
        assert s == first.text + (first.end + Joined(lines[1..], tail));
        lines := Prepended(first, lines[1..], tail);
      }
    }
  }

  lemma Prepended(first: Line, rest: seq<Line>, tail: string) returns (lines: seq<Line>)
    requires Read(rest, tail) && OneLine(first.text) && first.end in LINE_ENDS
    requires rest != [] ==> !Fuses(first, rest[0])
    ensures lines == [first] + rest && Read(lines, tail)
    ensures Joined(lines, tail) == first.text + (first.end + Joined(rest, tail))
  {
    lines := [first] + rest;
    assert lines[1..] == rest;
  }

  lemma HasFeed(lines: seq<Line>, tail: string)
    ensures lines != [] ==> '\n' in Joined(Fed(lines), tail)
  {
    if lines != [] { assert Joined(Fed(lines), tail)[|lines[0].text|] == '\n'; }
  }

  lemma {:induction false} FedTells(a: seq<Line>, x: string, b: seq<Line>, y: string)
    requires Read(a, x) && Read(b, y) && Joined(Fed(a), x) == Joined(Fed(b), y)
    ensures Fed(a) == Fed(b) && x == y
  {
    HasFeed(a, x);
    HasFeed(b, y);
    if a != [] && b != [] {
      var s := Joined(Fed(a), x);
      var p, q := a[0].text, b[0].text;
      var after, more := Joined(Fed(a[1..]), x), Joined(Fed(b[1..]), y);
      assert Fed(a)[1..] == Fed(a[1..]) && Fed(b)[1..] == Fed(b[1..]);
      assert s == p + ("\n" + after) && s == q + ("\n" + more);
      FirstFeed(p, after, q, more);
      FedTells(a[1..], x, b[1..], y);
      assert Fed(a) == [Line(p, "\n")] + Fed(a[1..]) && Fed(b) == [Line(q, "\n")] + Fed(b[1..]);
    }
  }

  lemma FirstFeed(p: string, after: string, q: string, more: string)
    requires OneLine(p) && OneLine(q) && p + ("\n" + after) == q + ("\n" + more)
    ensures p == q && after == more
  {
    var s, t := p + ("\n" + after), q + ("\n" + more);
    assert s[|p|] == '\n' && t[|q|] == '\n';
    assert forall i | 0 <= i < |p| :: s[i] == p[i] && p[i] in p;
    assert forall i | 0 <= i < |q| :: t[i] == q[i] && q[i] in q;
    assert |p| == |q|;
    assert p == s[..|p|] && q == t[..|q|] && after == s[|p| + 1..] && more == t[|q| + 1..];
  }

  /** Two contents have one hash exactly when they have the same lines, whatever ends them. */
  lemma HashOfLines(a: seq<Line>, x: string, b: seq<Line>, y: string)
    requires Read(a, x) && Read(b, y)
    ensures ContentHash(Joined(a, x)) == ContentHash(Joined(b, y)) <==>
      |a| == |b| && x == y && forall i | 0 <= i < |a| :: a[i].text == b[i].text
  {
    hide Normalize, Read;
    NormalizeLines(a, x);
    NormalizeLines(b, y);
    if ContentHash(Joined(a, x)) == ContentHash(Joined(b, y)) {
      FedTells(a, x, b, y);
      assert forall i | 0 <= i < |a| :: Fed(a)[i] == Line(a[i].text, "\n") && Fed(b)[i] == Line(b[i].text, "\n");
    } else if |a| == |b| && forall i | 0 <= i < |a| :: a[i].text == b[i].text {
      assert Fed(a) == Fed(b);
    }
  }
}
