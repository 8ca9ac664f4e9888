// Finding JSON objects in free text by counting braces outside strings, and why
// the scan gives back exactly the objects that were printed into the text.
module BraceScan {
  import opened Base

  // Whether a block parses to a JSON object: the parser is a parameter.
  type Parser = string -> bool

  // ----- the scan

  datatype State = State(depth: int, inString: bool, escaped: bool)

  const OPENING := State(0, false, false)

  function Step(st: State, c: char): State {
    if st.inString then
      if st.escaped then st.(escaped := false)
      else if c == '\\' then st.(escaped := true)
      else if c == '"' then st.(inString := false)
      else st
    else if c == '"' then st.(inString := true)
    else if c == '{' then st.(depth := st.depth + 1)
    else if c == '}' then st.(depth := st.depth - 1)
    else st
  }

  predicate Closes(st: State, c: char) {
    !st.inString && c == '}' && st.depth == 1
  }

  // The position at which the brace opened before `at` is closed.
  function Close(text: string, at: nat, st: State): (end: Option<nat>)
    ensures end.Some? ==> at <= end.value < |text| && text[end.value] == '}'
    decreases |text| - at
  {
    if at >= |text| then None
    else if Closes(st, text[at]) then Some(at)
    else Close(text, at + 1, Step(st, text[at]))
  }

  function FindBrace(text: string, from: nat): (at: Option<nat>)
    ensures at.Some? ==> from <= at.value < |text| && text[at.value] == '{'
    decreases |text| - from
  {
    if from >= |text| then None else if text[from] == '{' then Some(from) else FindBrace(text, from + 1)
  }

  datatype Span = Span(start: nat, end: nat)

  predicate Yields(parses: Parser, text: string, start: nat) {
    var end := Close(text, start, OPENING);
    start < |text| && end.Some? && parses(text[start..end.value + 1])
  }

  // A block that parses is skipped whole; otherwise the search resumes one
  // character later.
  function Spans(parses: Parser, text: string, from: nat): seq<Span>
    decreases |text| - from
  {
    var start := FindBrace(text, from);
    if start.None? then []
    else if Yields(parses, text, start.value) then
      var end := Close(text, start.value, OPENING).value;
      [Span(start.value, end)] + Spans(parses, text, end + 1)
    else Spans(parses, text, start.value + 1)
  }

  function Blocks(text: string, spans: seq<Span>): seq<string>
    requires forall i :: 0 <= i < |spans| ==> spans[i].start <= spans[i].end < |text|
  {
    seq(|spans|, i requires 0 <= i < |spans| => text[spans[i].start..spans[i].end + 1])
  }

  predicate InText(text: string, spans: seq<Span>, from: nat) {
    && (forall i :: 0 <= i < |spans| ==> from <= spans[i].start < spans[i].end < |text|)
    && (forall i, j :: 0 <= i < j < |spans| ==> spans[i].end < spans[j].start)
  }

  // From an opening brace to its match, and it parses.
  predicate IsObject(parses: Parser, text: string, s: Span) {
    && s.start < s.end < |text| && text[s.start] == '{' && Close(text, s.start, OPENING) == Some(s.end)
    && parses(text[s.start..s.end + 1])
  }

  lemma InTextCons(text: string, s: Span, rest: seq<Span>, from: nat)
    requires from <= s.start < s.end < |text| && InText(text, rest, s.end + 1)
    ensures InText(text, [s] + rest, from)
  {
  }

  lemma InTextFrom(text: string, spans: seq<Span>, later: nat, from: nat)
    requires from <= later && InText(text, spans, later)
    ensures InText(text, spans, from)
  {
  }

  // On any text: the blocks come in order, do not overlap, begin with an
  // opening brace, end at its match, and parse.
  lemma {:induction false} SpansAreBlocks(parses: Parser, text: string, from: nat)
    ensures InText(text, Spans(parses, text, from), from)
    ensures forall s :: s in Spans(parses, text, from) ==> IsObject(parses, text, s)
    decreases |text| - from
  {
    hide InText, IsObject;
    var start := FindBrace(text, from);
    if start.None? {
      NoSpans(text, from);
    } else if Yields(parses, text, start.value) {
      var end := Close(text, start.value, OPENING).value;
      ObjectAt(parses, text, Span(start.value, end));
      SpansAreBlocks(parses, text, end + 1);
      InTextCons(text, Span(start.value, end), Spans(parses, text, end + 1), from);
    } else {
      SpansAreBlocks(parses, text, start.value + 1);
      InTextFrom(text, Spans(parses, text, start.value + 1), start.value + 1, from);
    }
  }

  lemma ObjectAt(parses: Parser, text: string, s: Span)
    requires s.start < |text| && text[s.start] == '{' && Yields(parses, text, s.start) && Close(text, s.start, OPENING) == Some(s.end)
    ensures IsObject(parses, text, s)
  {
  }

  lemma NoSpans(text: string, from: nat)
    ensures InText(text, [], from)
  {
  }

  // Nothing is missed: on any text, every position from which a block could be
  // read lies inside some block found.
  lemma {:induction false} NothingMissed(parses: Parser, text: string, from: nat, p: nat)
    requires from <= p < |text| && text[p] == '{' && Yields(parses, text, p)
    ensures exists i :: 0 <= i < |Spans(parses, text, from)| && Spans(parses, text, from)[i].start <= p <= Spans(parses, text, from)[i].end
    decreases |text| - from
  {
    var start := FirstBrace(text, from, p);
    var all := Spans(parses, text, from);
    if Yields(parses, text, start) {
      var end := Close(text, start, OPENING).value;
      assert all[0] == Span(start, end);
      if end < p {
        NothingMissed(parses, text, end + 1, p);
        var rest := Spans(parses, text, end + 1);
        var i :| 0 <= i < |rest| && rest[i].start <= p <= rest[i].end;
        assert all[i + 1] == rest[i];
      }
    } else {
      NothingMissed(parses, text, start + 1, p);
    }
  }

  lemma {:induction false} FirstBrace(text: string, from: nat, p: nat) returns (start: nat)
    requires from <= p < |text| && text[p] == '{'
    ensures FindBrace(text, from) == Some(start) && start <= p
    decreases p - from
  {
    if text[from] == '{' { start := from; } else { start := FirstBrace(text, from + 1, p); }
  }

  // The two loops of the program.
  method MatchBrace(text: string, start: nat) returns (end: Option<nat>)
    requires start < |text|
    ensures end == Close(text, start, OPENING)
  {
    var depth, inString, escaped := 0, false, false;
    for position := start to |text|
      invariant Close(text, position, State(depth, inString, escaped)) == Close(text, start, OPENING)
    {
      var c := text[position];
      if inString {
        if escaped {
          escaped := false;
        } else if c == '\\' {
          escaped := true;
        } else if c == '"' {
          inString := false;
        }
        continue;
      }
      if c == '"' {
        inString := true;
      } else if c == '{' {
        depth := depth + 1;
      } else if c == '}' {
        depth := depth - 1;
        if depth == 0 {
          return Some(position);
        }
      }
    }
    return None;
  }

  method ScanObjects(parses: Parser, text: string) returns (yielded: seq<string>)
    ensures InText(text, Spans(parses, text, 0), 0) && yielded == Blocks(text, Spans(parses, text, 0))
  {
    hide Spans, Blocks;
    Nothing(text);
    yielded := [];
    ghost var done: seq<Span> := [];
    ghost var from := 0;
    var start := Find(text, 0);
    while start.Some?
      invariant from <= |text| && start == FindBrace(text, from)
      invariant done + Spans(parses, text, from) == Spans(parses, text, 0)
      invariant InText(text, done, 0)
      invariant yielded == Blocks(text, done)
      decreases |text| - from
    {
      var end := MatchBrace(text, start.value);
      var next := start.value + 1;
      if end.Some? && parses(text[start.value..end.value + 1]) {
        Snoc(parses, text, done, from, Span(start.value, end.value));
        done := done + [Span(start.value, end.value)];
        yielded := yielded + [text[start.value..end.value + 1]];
        next := end.value + 1;
      } else {
        NoBlock(parses, text, from, start.value);
      }
      from := next;
      start := Find(text, next);
    }
    NoneLeft(parses, text, from);
    assert done == Spans(parses, text, 0);
  }

  lemma Nothing(text: string)
    ensures InText(text, [], 0) && Blocks(text, []) == []
  {
  }

  lemma NoBlock(parses: Parser, text: string, from: nat, start: nat)
    requires FindBrace(text, from) == Some(start) && start < |text| && !Yields(parses, text, start)
    ensures Spans(parses, text, from) == Spans(parses, text, start + 1)
  {
  }

  lemma NoneLeft(parses: Parser, text: string, from: nat)
    requires FindBrace(text, from).None?
    ensures Spans(parses, text, from) == []
  {
  }

  // One more block found behind those already yielded.
  lemma Snoc(parses: Parser, text: string, done: seq<Span>, from: nat, s: Span)
    requires done + Spans(parses, text, from) == Spans(parses, text, 0) && InText(text, done, 0)
    requires FindBrace(text, from) == Some(s.start) && s.start < |text| && Close(text, s.start, OPENING) == Some(s.end)
    requires s.end < |text| && s.start <= s.end && parses(text[s.start..s.end + 1])
    ensures (done + [s]) + Spans(parses, text, s.end + 1) == Spans(parses, text, 0)
    ensures InText(text, done + [s], 0)
    ensures Blocks(text, done + [s]) == Blocks(text, done) + [text[s.start..s.end + 1]]
  {
    hide InText, Blocks;
    var later := Spans(parses, text, s.end + 1);
    NextBlock(parses, text, from, s);
    Assoc(done, [s], later);
    hide Spans;
    SpansAreBlocks(parses, text, 0);
    FrontInText(text, done + [s], later);
    BlocksSnoc(text, done, s);
  }

  lemma NextBlock(parses: Parser, text: string, from: nat, s: Span)
    requires FindBrace(text, from) == Some(s.start) && s.start < |text| && Close(text, s.start, OPENING) == Some(s.end)
    requires s.end < |text| && s.start <= s.end && parses(text[s.start..s.end + 1])
    ensures Spans(parses, text, from) == [s] + Spans(parses, text, s.end + 1)
  {
  }

  lemma BlocksSnoc(text: string, done: seq<Span>, s: Span)
    requires InText(text, done, 0) && InText(text, done + [s], 0) && s.start <= s.end < |text|
    ensures Blocks(text, done + [s]) == Blocks(text, done) + [text[s.start..s.end + 1]]
  {
  }

  lemma FrontInText(text: string, a: seq<Span>, b: seq<Span>)
    requires InText(text, a + b, 0)
    ensures InText(text, a, 0)
  {
    assert forall i :: 0 <= i < |a| ==> (a + b)[i] == a[i];
  }

  method Find(text: string, from: nat) returns (at: Option<nat>)
    requires from <= |text|
    ensures at == FindBrace(text, from)
  {
    for i := from to |text|
      invariant FindBrace(text, i) == FindBrace(text, from)
    {
      if text[i] == '{' {
        return Some(i);
      }
    }
    return None;
  }

  // ----- what stands between a pair of braces

  datatype Unit = Raw(c: char) | Escape(c: char)

  // The text between braces as the scanner has to see it: plain characters,
  // string literals, and nested braces. Every layout of every JSON object is of
  // this kind: JsonText proves it.
  datatype Body =
    | End
    | Plain(c: char, rest: Body)
    | Quoted(units: seq<Unit>, rest: Body)
    | Nested(inner: Body, rest: Body)

  predicate ValidUnits(units: seq<Unit>) {
    forall i :: 0 <= i < |units| && units[i].Raw? ==> units[i].c != '"' && units[i].c != '\\'
  }

  predicate ValidBody(b: Body) {
    match b
    case End => true
    case Plain(c, rest) => c != '"' && c != '{' && c != '}' && ValidBody(rest)
    case Quoted(units, rest) => ValidUnits(units) && ValidBody(rest)
    case Nested(inner, rest) => ValidBody(inner) && ValidBody(rest)
  }

  function UnitsText(units: seq<Unit>): string {
    if units == [] then "" else
    (if units[0].Raw? then [units[0].c] else ['\\', units[0].c]) + UnitsText(units[1..])
  }

  function BodyText(b: Body): string {
    match b
    case End => ""
    case Plain(c, rest) => [c] + BodyText(rest)
    case Quoted(units, rest) => ['"'] + (UnitsText(units) + (['"'] + BodyText(rest)))
    case Nested(inner, rest) => ['{'] + (BodyText(inner) + (['}'] + BodyText(rest)))
  }

  function Block(b: Body): string { BodyText(Nested(b, End)) }

  // The text continues with `part` at position `at`.
  predicate Continues(text: string, at: nat, part: string) {
    at + |part| <= |text| && forall i :: 0 <= i < |part| ==> part[i] == text[at + i]
  }

  lemma Halves(text: string, at: nat, a: string, b: string)
    requires Continues(text, at, a + b)
    ensures Continues(text, at, a) && Continues(text, at + |a|, b)
  {
    forall i | 0 <= i < |a| ensures a[i] == text[at + i] { assert (a + b)[i] == a[i]; }
    forall i | 0 <= i < |b| ensures b[i] == text[at + |a| + i] { assert (a + b)[|a| + i] == b[i]; }
  }

  lemma Head(text: string, at: nat, c: char, part: string)
    requires Continues(text, at, [c] + part)
    ensures at < |text| && text[at] == c && Continues(text, at + 1, part)
  {
    Halves(text, at, [c], part);
    assert [c][0] == c;
  }

  lemma {:induction false} ThroughUnits(text: string, at: nat, units: seq<Unit>, depth: int)
    requires ValidUnits(units) && Continues(text, at, UnitsText(units))
    ensures Close(text, at, State(depth, true, false)) == Close(text, at + |UnitsText(units)|, State(depth, true, false))
    decreases |units|
  {
    if units != [] {
      var rest := UnitsText(units[1..]);
      match units[0]
      case Raw(c) =>
        Head(text, at, c, rest);
        ThroughUnits(text, at + 1, units[1..], depth);
      case Escape(c) =>
        Halves(text, at, ['\\', c], rest);
        assert ['\\', c][0] == '\\' && ['\\', c][1] == c;
        ThroughUnits(text, at + 2, units[1..], depth);
    }
  }

  lemma ThroughQuoted(text: string, at: nat, units: seq<Unit>, tail: string, depth: int)
    requires ValidUnits(units) && Continues(text, at, ['"'] + (UnitsText(units) + (['"'] + tail)))
    ensures var next := at + 2 + |UnitsText(units)|;
            && Continues(text, next, tail)
            && Close(text, at, State(depth, false, false)) == Close(text, next, State(depth, false, false))
  {
    var inside := UnitsText(units);
    Head(text, at, '"', inside + (['"'] + tail));
    Halves(text, at + 1, inside, ['"'] + tail);
    ThroughUnits(text, at + 1, units, depth);
    Head(text, at + 1 + |inside|, '"', tail);
  }

  // One character outside a string.
  lemma StepOver(text: string, at: nat, depth: int)
    requires at < |text| && text[at] != '"' && depth >= 1 && (text[at] == '}' ==> depth >= 2)
    ensures var deeper := if text[at] == '{' then depth + 1 else if text[at] == '}' then depth - 1 else depth;
            Close(text, at, State(depth, false, false)) == Close(text, at + 1, State(deeper, false, false))
  {
  }

  // Any valid body is passed over: the scanner comes out as it went in.
  lemma {:induction false} ThroughBody(text: string, at: nat, b: Body, depth: int)
    requires ValidBody(b) && depth >= 1 && Continues(text, at, BodyText(b))
    ensures Close(text, at, State(depth, false, false)) == Close(text, at + |BodyText(b)|, State(depth, false, false))
    decreases b
  {
    hide Continues, Close;
    match b
    case End =>
    case Plain(c, rest) =>
      Head(text, at, c, BodyText(rest));
      StepOver(text, at, depth);
      ThroughBody(text, at + 1, rest, depth);
    case Quoted(units, rest) =>
      ThroughQuoted(text, at, units, BodyText(rest), depth);
      ThroughBody(text, at + 2 + |UnitsText(units)|, rest, depth);
    case Nested(inner, rest) =>
      InsideBraces(text, at, BodyText(inner), BodyText(rest));
      StepOver(text, at, depth);
      ThroughBody(text, at + 1, inner, depth + 1);
      StepOver(text, at + 1 + |BodyText(inner)|, depth + 1);
      ThroughBody(text, at + 2 + |BodyText(inner)|, rest, depth);
  }

  lemma InsideBraces(text: string, at: nat, within: string, tail: string)
    requires Continues(text, at, ['{'] + (within + (['}'] + tail)))
    ensures at + 1 + |within| < |text| && text[at] == '{' && text[at + 1 + |within|] == '}'
    ensures Continues(text, at + 1, within) && Continues(text, at + 2 + |within|, tail)
  {
    Head(text, at, '{', within + (['}'] + tail));
    Halves(text, at + 1, within, ['}'] + tail);
    Head(text, at + 1 + |within|, '}', tail);
  }

  // A block closes at its own last brace, whatever surrounds it.
  lemma BlockCloses(text: string, at: nat, b: Body)
    requires ValidBody(b) && Continues(text, at, Block(b))
    ensures at < |text| && text[at] == '{' && Close(text, at, OPENING) == Some(at + |Block(b)| - 1)
  {
    InsideBraces(text, at, BodyText(b), BodyText(End));
    ThroughBody(text, at + 1, b, 1);
  }

  // ----- a text with objects printed into it

  datatype Document = Tail(gap: string) | Entry(gap: string, body: Body, rest: Document)

  predicate ValidDocument(parses: Parser, d: Document) {
    '{' !in d.gap && (d.Entry? ==> ValidBody(d.body) && parses(Block(d.body)) && ValidDocument(parses, d.rest))
  }

  function DocumentText(d: Document): string {
    match d
    case Tail(gap) => gap
    case Entry(gap, body, rest) => gap + (Block(body) + DocumentText(rest))
  }

  function Printed(d: Document): seq<string> {
    match d case Tail(_) => [] case Entry(_, body, rest) => [Block(body)] + Printed(rest)
  }

  lemma {:induction false} SkipsGap(text: string, at: nat, gap: string)
    requires '{' !in gap && Continues(text, at, gap)
    ensures FindBrace(text, at) == FindBrace(text, at + |gap|)
    decreases |gap|
  {
    if gap != "" {
      assert gap == [gap[0]] + gap[1..];
      Head(text, at, gap[0], gap[1..]);
      SkipsGap(text, at + 1, gap[1..]);
    }
  }

  // One printed object: the scan yields it and goes on behind it.
  lemma EntryYields(parses: Parser, text: string, at: nat, gap: string, body: Body, tail: string)
    requires '{' !in gap && ValidBody(body) && parses(Block(body)) && Continues(text, at, gap + (Block(body) + tail))
    ensures var start := at + |gap|;
            var next := start + |Block(body)|;
            && start < next && Continues(text, next, tail) && text[start..next] == Block(body)
            && Spans(parses, text, at) == [Span(start, next - 1)] + Spans(parses, text, next)
  {
    Halves(text, at, gap, Block(body) + tail);
    SkipsGap(text, at, gap);
    var start := at + |gap|;
    Halves(text, start, Block(body), tail);
    BlockCloses(text, start, body);
    var next := start + |Block(body)|;
    assert text[start..next] == Block(body);
    hide Continues, Block, BodyText;
    SkipTo(parses, text, at, start, next - 1);
  }

  lemma SkipTo(parses: Parser, text: string, at: nat, start: nat, end: nat)
    requires FindBrace(text, at) == FindBrace(text, start) && start <= end < |text| && text[start] == '{'
    requires Close(text, start, OPENING) == Some(end) && parses(text[start..end + 1])
    ensures Spans(parses, text, at) == [Span(start, end)] + Spans(parses, text, end + 1)
  {
  }

  lemma BlocksCons(text: string, s: Span, rest: seq<Span>, from: nat)
    requires s.start <= s.end < |text| && InText(text, rest, from)
    ensures Blocks(text, [s] + rest) == [text[s.start..s.end + 1]] + Blocks(text, rest)
  {
  }

  lemma {:induction false} ScanFrom(parses: Parser, text: string, at: nat, d: Document)
    requires ValidDocument(parses, d) && at + |DocumentText(d)| == |text| && Continues(text, at, DocumentText(d))
    ensures InText(text, Spans(parses, text, at), at)
    ensures Blocks(text, Spans(parses, text, at)) == Printed(d)
    decreases d
  {
    hide Continues, InText, Yields, Close, IsObject, Block, Spans;
    SpansAreBlocks(parses, text, at);
    match d
    case Tail(gap) =>
      SkipsGap(text, at, gap);
      NoneLeft(parses, text, at);
    case Entry(gap, body, rest) =>
      EntryYields(parses, text, at, gap, body, DocumentText(rest));
      var start := at + |gap|;
      var next := start + |Block(body)|;
      ScanFrom(parses, text, next, rest);
      BlocksCons(text, Span(start, next - 1), Spans(parses, text, next), next);
  }

  // The scan inverts printing: from objects printed into text without opening
  // braces in between, it yields exactly those objects, in order.
  lemma ScanInvertsPrinting(parses: Parser, d: Document)
    requires ValidDocument(parses, d)
    ensures var text := DocumentText(d);
            InText(text, Spans(parses, text, 0), 0) && Blocks(text, Spans(parses, text, 0)) == Printed(d)
  {
    ScanFrom(parses, DocumentText(d), 0, d);
  }
}
