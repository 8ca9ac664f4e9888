// Which lines of a byte object belong to a shard: those whose first byte lies
// in the shard's half-open interval.
module Lines {

  newtype Octet = x: int | 0 <= x < 256

  const NEWLINE: Octet := 10

  datatype Line = Line(start: nat, raw: seq<Octet>)

  predicate Terminated(line: Line) {
    line.raw != [] && line.raw[|line.raw| - 1] == NEWLINE
  }

  // Position of the first newline at or after `from`, or the object's length.
  function Newline(obj: seq<Octet>, from: nat): (q: nat)
    requires from <= |obj|
    ensures from <= q <= |obj|
    ensures q < |obj| ==> obj[q] == NEWLINE
    ensures forall i :: from <= i < q ==> obj[i] != NEWLINE
    decreases |obj| - from
  {
    if from == |obj| || obj[from] == NEWLINE then from else Newline(obj, from + 1)
  }

  lemma NewlineIs(obj: seq<Octet>, from: nat, q: nat)
    requires from <= q <= |obj|
    requires q < |obj| ==> obj[q] == NEWLINE
    requires forall i :: from <= i < q ==> obj[i] != NEWLINE
    ensures Newline(obj, from) == q
  {
  }

  function LineEnd(obj: seq<Octet>, p: nat): (q: nat)
    requires p < |obj|
    ensures p < q <= |obj|
  {
    if Newline(obj, p) < |obj| then Newline(obj, p) + 1 else |obj|
  }

  predicate IsLineStart(obj: seq<Octet>, p: nat) {
    p < |obj| && (p == 0 || obj[p - 1] == NEWLINE)
  }

  // The first line start at or after `s`, or the object's length.
  function FirstStart(obj: seq<Octet>, s: nat): (p: nat)
    requires s <= |obj|
    ensures s <= p <= |obj|
    ensures p < |obj| ==> IsLineStart(obj, p)
    ensures forall q :: s <= q < p ==> !IsLineStart(obj, q)
  {
    if s == 0 then 0
    else if Newline(obj, s - 1) < |obj| then Newline(obj, s - 1) + 1
    else |obj|
  }

  function LinesFrom(obj: seq<Octet>, p: nat, e: nat): seq<Line>
    requires p <= |obj|
    decreases |obj| - p
  {
    if p >= e || p >= |obj| then []
    else [Line(p, obj[p..LineEnd(obj, p)])] + LinesFrom(obj, LineEnd(obj, p), e)
  }

  function ShardLines(obj: seq<Octet>, s: nat, e: nat): seq<Line>
    requires s <= |obj|
  {
    LinesFrom(obj, FirstStart(obj, s), e)
  }

  function Text(lines: seq<Line>): seq<Octet> {
    if lines == [] then [] else lines[0].raw + Text(lines[1..])
  }

  predicate IsLineOf(obj: seq<Octet>, line: Line) {
    IsLineStart(obj, line.start) && line.raw == obj[line.start..LineEnd(obj, line.start)]
  }

  predicate StartsBetween(lines: seq<Line>, s: nat, e: nat) {
    && (forall i :: 0 <= i < |lines| ==> s <= lines[i].start < e)
    && (forall i, j :: 0 <= i < j < |lines| ==> lines[i].start < lines[j].start)
  }

  lemma NextStart(obj: seq<Octet>, p: nat)
    requires p < |obj|
    ensures FirstStart(obj, p + 1) == LineEnd(obj, p)
  {
  }

  lemma {:induction false} LinesFromExact(obj: seq<Octet>, p: nat, e: nat)
    requires p <= |obj| && (p < |obj| ==> IsLineStart(obj, p))
    ensures StartsBetween(LinesFrom(obj, p, e), p, e)
    ensures forall i :: 0 <= i < |LinesFrom(obj, p, e)| ==> IsLineOf(obj, LinesFrom(obj, p, e)[i])
    ensures forall q :: p <= q < e && IsLineStart(obj, q) ==> Line(q, obj[q..LineEnd(obj, q)]) in LinesFrom(obj, p, e)
    decreases |obj| - p
  {
    if p < e && p < |obj| {
      var n := LineEnd(obj, p);
      NextStart(obj, p);
      LinesFromExact(obj, n, e);
      var first, rest := Line(p, obj[p..n]), LinesFrom(obj, n, e);
      assert LinesFrom(obj, p, e) == [first] + rest;
      forall q | p <= q < e && IsLineStart(obj, q) ensures Line(q, obj[q..LineEnd(obj, q)]) in [first] + rest {
        if q != p { assert Line(q, obj[q..LineEnd(obj, q)]) in rest; }
      }
    }
  }

  // The lines of a shard are exactly the object's lines that start inside it,
  // whole and in order.
  lemma ShardLinesExact(obj: seq<Octet>, s: nat, e: nat)
    requires s <= |obj|
    ensures StartsBetween(ShardLines(obj, s, e), s, e)
    ensures forall line :: line in ShardLines(obj, s, e) <==> IsLineOf(obj, line) && s <= line.start < e
  {
    LinesFromExact(obj, FirstStart(obj, s), e);
    forall line ensures line in ShardLines(obj, s, e) <==> IsLineOf(obj, line) && s <= line.start < e {
      if line in ShardLines(obj, s, e) {
        var i :| 0 <= i < |ShardLines(obj, s, e)| && ShardLines(obj, s, e)[i] == line;
      }
    }
  }

  lemma {:induction false} LinesFromSplit(obj: seq<Octet>, p: nat, b: nat, c: nat)
    requires p <= |obj| && b <= |obj| && b <= c && (p < |obj| ==> IsLineStart(obj, p)) && p <= FirstStart(obj, b)
    ensures LinesFrom(obj, p, b) + LinesFrom(obj, FirstStart(obj, b), c) == LinesFrom(obj, p, c)
    decreases |obj| - p
  {
    if p < b && p < |obj| {
      NextStart(obj, p);
      LinesFromSplit(obj, LineEnd(obj, p), b, c);
      assert LinesFrom(obj, p, c) == [Line(p, obj[p..LineEnd(obj, p)])] + LinesFrom(obj, LineEnd(obj, p), c);
    } else {
      assert p == FirstStart(obj, b);
      assert LinesFrom(obj, p, b) == [];
    }
  }

  // Adjacent shards take adjacent lines: none is lost or taken twice.
  lemma ShardsTile(obj: seq<Octet>, a: nat, b: nat, c: nat)
    requires a <= b <= c && b <= |obj|
    ensures ShardLines(obj, a, b) + ShardLines(obj, b, c) == ShardLines(obj, a, c)
  {
    LinesFromSplit(obj, FirstStart(obj, a), b, c);
  }

  lemma {:induction false} LinesFromText(obj: seq<Octet>, p: nat)
    requires p <= |obj|
    ensures Text(LinesFrom(obj, p, |obj|)) == obj[p..]
    decreases |obj| - p
  {
    if p < |obj| {
      LinesFromText(obj, LineEnd(obj, p));
      assert obj[p..] == obj[p..LineEnd(obj, p)] + obj[LineEnd(obj, p)..];
    }
  }

  // The shard that spans the object gives back every byte of it.
  lemma WholeText(obj: seq<Octet>)
    ensures Text(ShardLines(obj, 0, |obj|)) == obj
  {
    LinesFromText(obj, 0);
  }

  // Splitting a line off the front of the unread bytes.
  lemma FirstLine(obj: seq<Octet>, p: nat, e: nat, q: nat)
    requires p < |obj| && p < e && q == LineEnd(obj, p)
    ensures LinesFrom(obj, p, e) == [Line(p, obj[p..q])] + LinesFrom(obj, q, e)
    ensures LinesFrom(obj, p, e)[1..] == LinesFrom(obj, q, e)
  {
  }
}
