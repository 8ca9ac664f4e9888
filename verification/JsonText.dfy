// JSON texts per RFC 8259, in every layout sections 2 to 7 allow, and the brace
// scan on them: nested objects, braces inside strings, escapes and white space
// never mislead it.
module JsonText {
  import opened Base
  import opened BraceScan

  // ----- values; a string is its UTF-16 code units, a number its text

  datatype Json =
    | Null
    | Boolean(value: bool)
    | Number(digits: string)
    | Text(units: seq<nat>)
    | Array(items: Items)
    | Object(members: Members)

  datatype Items = NoItems | Item(head: Json, tail: Items)

  datatype Members = NoMembers | Member(name: seq<nat>, value: Json, tail: Members)

  // ----- forms: a value together with one way to write it

  // A character of a string as itself, as a two-character escape, or as \u and
  // four hexadecimal digits (section 7).
  datatype Letter = Literal(c: char) | Short(c: char) | Hex(digits: string)

  // [ minus ] int [ frac ] [ exp ] (section 6)
  datatype Numeral = Numeral(minus: bool, whole: string, frac: string, exp: string)

  datatype Form =
    | NullForm
    | BooleanForm(value: bool)
    | NumberForm(numeral: Numeral)
    | StringForm(letters: seq<Letter>)
    | ArrayForm(items: ItemsForm)
    | ObjectForm(members: MembersForm)

  // White space may stand around every structural character (section 2).
  datatype Element = Element(before: string, value: Form, after: string)

  datatype ItemsForm = BlankItems(space: string) | LastItem(element: Element) | MoreItems(element: Element, rest: ItemsForm)

  datatype Field =
    Field(before: string, name: seq<Letter>, colonBefore: string, colonAfter: string, value: Form, after: string)

  datatype MembersForm = BlankMembers(space: string) | LastMember(field: Field) | MoreMembers(field: Field, rest: MembersForm)

  // ----- the grammar

  predicate IsSpace(s: string) {
    forall c :: c in s ==> c == ' ' || c == '\t' || c == '\n' || c == '\r'
  }

  predicate IsDigit(c: char) { '0' <= c <= '9' }

  predicate Digits(s: string) {
    s != "" && forall c :: c in s ==> IsDigit(c)
  }

  predicate ValidNumeral(n: Numeral) {
    && Digits(n.whole) && (n.whole[0] == '0' ==> |n.whole| == 1)
    && (n.frac != "" ==> n.frac[0] == '.' && Digits(n.frac[1..]))
    && (n.exp != "" ==>
          && (n.exp[0] == 'e' || n.exp[0] == 'E')
          && (Digits(n.exp[1..]) || (|n.exp| >= 2 && (n.exp[1] == '+' || n.exp[1] == '-') && Digits(n.exp[2..]))))
  }

  predicate IsHex(c: char) {
    IsDigit(c) || 'a' <= c <= 'f' || 'A' <= c <= 'F'
  }

  predicate ValidLetter(l: Letter) {
    match l
    case Literal(c) => c >= ' ' && c != '"' && c != '\\'
    case Short(c) => c in "\"\\/bfnrt"
    case Hex(digits) => |digits| == 4 && forall i :: 0 <= i < 4 ==> IsHex(digits[i])
  }

  predicate ValidLetters(letters: seq<Letter>) {
    forall i :: 0 <= i < |letters| ==> ValidLetter(letters[i])
  }

  predicate ValidForm(f: Form) {
    match f
    case NumberForm(n) => ValidNumeral(n)
    case StringForm(letters) => ValidLetters(letters)
    case ArrayForm(items) => ValidItems(items)
    case ObjectForm(members) => ValidMembers(members)
    case _ => true
  }

  predicate ValidElement(e: Element) {
    IsSpace(e.before) && ValidForm(e.value) && IsSpace(e.after)
  }

  predicate ValidItems(items: ItemsForm) {
    match items
    case BlankItems(space) => IsSpace(space)
    case LastItem(e) => ValidElement(e)
    case MoreItems(e, rest) => ValidElement(e) && !rest.BlankItems? && ValidItems(rest)
  }

  predicate ValidField(f: Field) {
    && IsSpace(f.before) && ValidLetters(f.name) && IsSpace(f.colonBefore) && IsSpace(f.colonAfter)
    && ValidForm(f.value) && IsSpace(f.after)
  }

  predicate ValidMembers(members: MembersForm) {
    match members
    case BlankMembers(space) => IsSpace(space)
    case LastMember(f) => ValidField(f)
    case MoreMembers(f, rest) => ValidField(f) && !rest.BlankMembers? && ValidMembers(rest)
  }

  // ----- the text of a form

  function LetterText(l: Letter): string {
    match l
    case Literal(c) => [c]
    case Short(c) => ['\\', c]
    case Hex(digits) => ['\\', 'u'] + digits
  }

  function LettersText(letters: seq<Letter>): string {
    if letters == [] then "" else LetterText(letters[0]) + LettersText(letters[1..])
  }

  function StringText(letters: seq<Letter>): string {
    ['"'] + (LettersText(letters) + ['"'])
  }

  function NumeralText(n: Numeral): string {
    (if n.minus then ['-'] else []) + (n.whole + (n.frac + n.exp))
  }

  function FormText(f: Form): string
    decreases f
  {
    match f
    case NullForm => "null"
    case BooleanForm(b) => if b then "true" else "false"
    case NumberForm(n) => NumeralText(n)
    case StringForm(letters) => StringText(letters)
    case ArrayForm(items) => ['['] + (ItemsText(items) + [']'])
    case ObjectForm(members) => ['{'] + (MembersText(members) + ['}'])
  }

  function ElementText(e: Element, tail: string): string
    decreases e
  {
    e.before + (FormText(e.value) + (e.after + tail))
  }

  function ItemsText(items: ItemsForm): string
    decreases items
  {
    match items
    case BlankItems(space) => space
    case LastItem(e) => ElementText(e, "")
    case MoreItems(e, rest) => ElementText(e, [','] + ItemsText(rest))
  }

  function FieldText(f: Field, tail: string): string
    decreases f
  {
    f.before + (StringText(f.name) + (f.colonBefore + ([':'] + (f.colonAfter + (FormText(f.value) + (f.after + tail))))))
  }

  function MembersText(members: MembersForm): string
    decreases members
  {
    match members
    case BlankMembers(space) => space
    case LastMember(f) => FieldText(f, "")
    case MoreMembers(f, rest) => FieldText(f, [','] + MembersText(rest))
  }

  // ----- the value of a form

  function HexDigit(c: char): nat
    requires IsHex(c)
  {
    if IsDigit(c) then c as int - '0' as int
    else if 'a' <= c <= 'f' then c as int - 'a' as int + 10
    else c as int - 'A' as int + 10
  }

  function LetterUnits(l: Letter): seq<nat>
    requires ValidLetter(l)
  {
    match l
    case Literal(c) =>
      var code := c as int;
      if code < 0x10000 then [code] else [0xD800 + (code - 0x10000) / 0x400, 0xDC00 + (code - 0x10000) % 0x400]
    case Short(c) =>
      [if c == 'b' then 8 else if c == 'f' then 12 else if c == 'n' then 10 else if c == 'r' then 13
       else if c == 't' then 9 else c as int]
    case Hex(d) =>
      [HexDigit(d[0]) * 0x1000 + HexDigit(d[1]) * 0x100 + HexDigit(d[2]) * 0x10 + HexDigit(d[3])]
  }

  function LettersUnits(letters: seq<Letter>): seq<nat>
    requires ValidLetters(letters)
  {
    if letters == [] then [] else LetterUnits(letters[0]) + LettersUnits(letters[1..])
  }

  function ValueOf(f: Form): Json
    requires ValidForm(f)
  {
    match f
    case NullForm => Null
    case BooleanForm(b) => Boolean(b)
    case NumberForm(n) => Number(NumeralText(n))
    case StringForm(letters) => Text(LettersUnits(letters))
    case ArrayForm(items) => Array(ItemsOf(items))
    case ObjectForm(members) => Object(MembersOf(members))
  }

  function ElementValue(e: Element): Json
    requires ValidElement(e)
  {
    ValueOf(e.value)
  }

  function ItemsOf(items: ItemsForm): Items
    requires ValidItems(items)
  {
    match items
    case BlankItems(_) => NoItems
    case LastItem(e) => Item(ElementValue(e), NoItems)
    case MoreItems(e, rest) => Item(ElementValue(e), ItemsOf(rest))
  }

  function FieldMember(f: Field, tail: Members): Members
    requires ValidField(f)
    decreases f
  {
    Member(LettersUnits(f.name), ValueOf(f.value), tail)
  }

  function MembersOf(members: MembersForm): Members
    requires ValidMembers(members)
  {
    match members
    case BlankMembers(_) => NoMembers
    case LastMember(f) => FieldMember(f, NoMembers)
    case MoreMembers(f, rest) => FieldMember(f, MembersOf(rest))
  }

  // ----- every value has a form

  ghost predicate IsNumber(digits: string) {
    exists n :: ValidNumeral(n) && NumeralText(n) == digits
  }

  predicate IsString(units: seq<nat>) {
    forall i :: 0 <= i < |units| ==> units[i] < 0x10000
  }

  ghost predicate ValidJson(v: Json) {
    match v
    case Number(digits) => IsNumber(digits)
    case Text(units) => IsString(units)
    case Array(items) => ValidItemValues(items)
    case Object(members) => ValidMemberValues(members)
    case _ => true
  }

  ghost predicate ValidItemValues(items: Items) {
    items.Item? ==> ValidJson(items.head) && ValidItemValues(items.tail)
  }

  ghost predicate ValidMemberValues(members: Members) {
    members.Member? ==> IsString(members.name) && ValidJson(members.value) && ValidMemberValues(members.tail)
  }

  function HexChar(d: nat): (c: char)
    requires d < 16
    ensures IsHex(c) && HexDigit(c) == d
  {
    if d < 10 then ('0' as int + d) as char else ('a' as int + d - 10) as char
  }

  function HexLetter(unit: nat): (l: Letter)
    requires unit < 0x10000
    ensures ValidLetter(l) && LetterUnits(l) == [unit]
  {
    var (a, r) := (unit / 0x1000, unit % 0x1000);
    var (b, q) := (r / 0x100, r % 0x100);
    Hex([HexChar(a), HexChar(b), HexChar(q / 0x10), HexChar(q % 0x10)])
  }

  lemma {:induction false} StringHasForm(units: seq<nat>) returns (letters: seq<Letter>)
    requires IsString(units)
    ensures ValidLetters(letters) && LettersUnits(letters) == units
    decreases |units|
  {
    if units == [] {
      letters := [];
    } else {
      var rest := StringHasForm(units[1..]);
      letters := [HexLetter(units[0])] + rest;
      assert letters[1..] == rest;
    }
  }

  lemma {:induction false} ValueHasForm(v: Json) returns (f: Form)
    requires ValidJson(v)
    ensures ValidForm(f) && ValueOf(f) == v
    decreases v
  {
    match v
    case Null => f := NullForm;
    case Boolean(b) => f := BooleanForm(b);
    case Number(digits) =>
      var n :| ValidNumeral(n) && NumeralText(n) == digits;
      f := NumberForm(n);
    case Text(units) =>
      var letters := StringHasForm(units);
      f := StringForm(letters);
    case Array(items) =>
      var form := ItemsHaveForm(items);
      f := ArrayForm(form);
    case Object(members) =>
      var form := ObjectHasForm(members);
      f := ObjectForm(form);
  }

  lemma {:induction false} ItemsHaveForm(items: Items) returns (form: ItemsForm)
    requires ValidItemValues(items)
    ensures ValidItems(form) && ItemsOf(form) == items && (form.BlankItems? <==> items.NoItems?)
    decreases items
  {
    match items
    case NoItems => form := BlankItems("");
    case Item(head, tail) =>
      var value := ValueHasForm(head);
      var rest := ItemsHaveForm(tail);
      var e := Element("", value, "");
      form := if tail.NoItems? then LastItem(e) else MoreItems(e, rest);
  }

  // Every JSON object can be written, so the theorems below are about all.
  lemma {:induction false} ObjectHasForm(members: Members) returns (form: MembersForm)
    requires ValidMemberValues(members)
    ensures ValidMembers(form) && MembersOf(form) == members && (form.BlankMembers? <==> members.NoMembers?)
    decreases members
  {
    match members
    case NoMembers => form := BlankMembers("");
    case Member(name, value, tail) =>
      var letters := StringHasForm(name);
      var v := ValueHasForm(value);
      var rest := ObjectHasForm(tail);
      var f := Field("", letters, "", "", v, "");
      form := if tail.NoMembers? then LastMember(f) else MoreMembers(f, rest);
  }

  // ----- every form is text the scanner passes over

  // The scanner's view of a text in front of more text.
  ghost predicate ViewedAs(text: string, b: Body, rest: Body) {
    (ValidBody(rest) ==> ValidBody(b)) && BodyText(b) == text + BodyText(rest)
  }

  lemma Joined(t: string, b: Body, t': string, b': Body, rest: Body)
    requires ViewedAs(t, b, b') && ViewedAs(t', b', rest)
    ensures ViewedAs(t + t', b, rest)
  {
    Assoc(t, t', BodyText(rest));
  }

  predicate PlainText(text: string) {
    forall c :: c in text ==> c != '"' && c != '{' && c != '}'
  }

  lemma {:induction false} PlainView(text: string, rest: Body) returns (b: Body)
    requires PlainText(text)
    ensures ViewedAs(text, b, rest)
    decreases |text|
  {
    if text == "" {
      b := rest;
    } else {
      assert forall c :: c in text[1..] ==> c in text;
      var tail := PlainView(text[1..], rest);
      assert text[0] in text && text == [text[0]] + text[1..];
      b := Plain(text[0], tail);
    }
  }

  // Plain text in front of something already viewed.
  lemma Preceded(text: string, tail: string, mid: Body, rest: Body) returns (b: Body)
    requires PlainText(text) && ViewedAs(tail, mid, rest)
    ensures ViewedAs(text + tail, b, rest)
  {
    b := PlainView(text, mid);
    Joined(text, b, tail, mid, rest);
  }

  lemma NumeralIsPlain(n: Numeral)
    requires ValidNumeral(n)
    ensures PlainText(NumeralText(n))
  {
    forall c | c in NumeralText(n) ensures c != '"' && c != '{' && c != '}' {
      if c in n.frac { assert n.frac == [n.frac[0]] + n.frac[1..]; }
      if c in n.exp {
        assert n.exp == [n.exp[0]] + n.exp[1..];
        if |n.exp| >= 2 { assert n.exp[1..] == [n.exp[1]] + n.exp[2..]; }
      }
    }
  }

  function LetterMarks(l: Letter): seq<Unit>
    requires ValidLetter(l)
  {
    match l
    case Literal(c) => [Raw(c)]
    case Short(c) => [Escape(c)]
    case Hex(d) => [Escape('u'), Raw(d[0]), Raw(d[1]), Raw(d[2]), Raw(d[3])]
  }

  function LettersMarks(letters: seq<Letter>): seq<Unit>
    requires ValidLetters(letters)
  {
    if letters == [] then [] else LetterMarks(letters[0]) + LettersMarks(letters[1..])
  }

  lemma {:induction false} UnitsAppend(a: seq<Unit>, b: seq<Unit>)
    ensures UnitsText(a + b) == UnitsText(a) + UnitsText(b)
    decreases |a|
  {
    if a == [] {
      assert a + b == b;
    } else {
      assert (a + b)[0] == a[0] && (a + b)[1..] == a[1..] + b;
      UnitsAppend(a[1..], b);
      Assoc(if a[0].Raw? then [a[0].c] else ['\\', a[0].c], UnitsText(a[1..]), UnitsText(b));
    }
  }

  lemma UnitText(u: Unit)
    ensures UnitsText([u]) == if u.Raw? then [u.c] else ['\\', u.c]
  {
  }

  lemma FiveUnits(a: Unit, b: Unit, c: Unit, d: Unit, e: Unit)
    requires a.Escape? && b.Raw? && c.Raw? && d.Raw? && e.Raw?
    ensures UnitsText([a, b, c, d, e]) == ['\\', a.c, b.c, c.c, d.c, e.c]
  {
    UnitsAppend([a], [b, c, d, e]);
    UnitsAppend([b], [c, d, e]);
    UnitsAppend([c], [d, e]);
    UnitsAppend([d], [e]);
    UnitText(a); UnitText(b); UnitText(c); UnitText(d); UnitText(e);
    assert [a, b, c, d, e] == [a] + [b, c, d, e] && [b, c, d, e] == [b] + [c, d, e];
    assert [c, d, e] == [c] + [d, e] && [d, e] == [d] + [e];
  }

  lemma LetterView(l: Letter)
    requires ValidLetter(l)
    ensures UnitsText(LetterMarks(l)) == LetterText(l) && ValidUnits(LetterMarks(l))
  {
    match l
    case Hex(d) =>
      FiveUnits(Escape('u'), Raw(d[0]), Raw(d[1]), Raw(d[2]), Raw(d[3]));
      assert d == [d[0], d[1], d[2], d[3]];
    case _ => UnitText(LetterMarks(l)[0]);
  }

  lemma {:induction false} LettersView(letters: seq<Letter>)
    requires ValidLetters(letters)
    ensures UnitsText(LettersMarks(letters)) == LettersText(letters) && ValidUnits(LettersMarks(letters))
    decreases |letters|
  {
    if letters != [] {
      LetterView(letters[0]);
      LettersView(letters[1..]);
      UnitsAppend(LetterMarks(letters[0]), LettersMarks(letters[1..]));
    }
  }

  lemma Bracketed(open: char, inside: string, close: char, after: string)
    ensures [open] + (inside + ([close] + after)) == ([open] + (inside + [close])) + after
  {
    Assoc(inside, [close], after);
    Assoc([open], inside + [close], after);
  }

  lemma StringView(letters: seq<Letter>, tail: string, mid: Body, rest: Body) returns (b: Body)
    requires ValidLetters(letters) && ViewedAs(tail, mid, rest)
    ensures ViewedAs(StringText(letters) + tail, b, rest)
  {
    LettersView(letters);
    b := Quoted(LettersMarks(letters), mid);
    Bracketed('"', LettersText(letters), '"', BodyText(mid));
    Joined(StringText(letters), b, tail, mid, rest);
  }

  lemma Nothing(rest: Body)
    ensures ViewedAs("", rest, rest)
  {
    assert "" + BodyText(rest) == BodyText(rest);
  }

  lemma NothingAfter(s: string)
    ensures s + "" == s
  {
  }

  // A form in front of something already viewed.
  lemma {:induction false} FormView(f: Form, tail: string, mid: Body, rest: Body) returns (b: Body)
    requires ValidForm(f) && ViewedAs(tail, mid, rest)
    ensures ViewedAs(FormText(f) + tail, b, rest)
    decreases f
  {
    match f
    case NullForm => b := Preceded("null", tail, mid, rest);
    case BooleanForm(t) => b := Preceded(if t then "true" else "false", tail, mid, rest);
    case NumberForm(n) =>
      NumeralIsPlain(n);
      b := Preceded(NumeralText(n), tail, mid, rest);
    case StringForm(letters) => b := StringView(letters, tail, mid, rest);
    case ArrayForm(items) => b := ArrayView(items, tail, mid, rest);
    case ObjectForm(members) =>
      var inner := MembersView(members);
      b := ObjectView(members, inner, tail, mid, rest);
  }

  lemma {:induction false} ArrayView(items: ItemsForm, tail: string, mid: Body, rest: Body) returns (b: Body)
    requires ValidItems(items) && ViewedAs(tail, mid, rest)
    ensures ViewedAs(FormText(ArrayForm(items)) + tail, b, rest)
    decreases items, 1
  {
    var close := Preceded([']'], tail, mid, rest);
    var inner := ItemsView(items, [']'] + tail, close, rest);
    b := Preceded(['['], ItemsText(items) + ([']'] + tail), inner, rest);
    Bracketed('[', ItemsText(items), ']', tail);
  }

  lemma {:induction false} ItemsView(items: ItemsForm, tail: string, mid: Body, rest: Body) returns (b: Body)
    requires ValidItems(items) && ViewedAs(tail, mid, rest)
    ensures ViewedAs(ItemsText(items) + tail, b, rest)
    decreases items, 0
  {
    match items
    case BlankItems(space) => b := Preceded(space, tail, mid, rest);
    case LastItem(e) =>
      b := ElementView(e, tail, mid, rest);
      ElementTail(e, "", tail);
      assert "" + tail == tail;
    case MoreItems(e, more) =>
      var later := ItemsView(more, tail, mid, rest);
      var comma := Preceded([','], ItemsText(more) + tail, later, rest);
      b := ElementView(e, [','] + (ItemsText(more) + tail), comma, rest);
      Assoc([','], ItemsText(more), tail);
      ElementTail(e, [','] + ItemsText(more), tail);
  }

  lemma ElementTail(e: Element, a: string, b: string)
    ensures ElementText(e, a) + b == ElementText(e, a + b)
  {
    Assoc(e.after, a, b);
    Assoc(FormText(e.value), e.after + a, b);
    Assoc(e.before, FormText(e.value) + (e.after + a), b);
  }

  lemma {:induction false} ElementView(e: Element, tail: string, mid: Body, rest: Body) returns (b: Body)
    requires ValidElement(e) && ViewedAs(tail, mid, rest)
    ensures ViewedAs(ElementText(e, tail), b, rest)
    decreases e
  {
    var after := Preceded(e.after, tail, mid, rest);
    var value := FormView(e.value, e.after + tail, after, rest);
    b := Preceded(e.before, FormText(e.value) + (e.after + tail), value, rest);
  }

  lemma {:induction false} FieldView(f: Field, tail: string, mid: Body, rest: Body) returns (b: Body)
    requires ValidField(f) && ViewedAs(tail, mid, rest)
    ensures ViewedAs(FieldText(f, tail), b, rest)
    decreases f
  {
    hide ViewedAs;
    var t1 := f.after + tail;
    var after := Preceded(f.after, tail, mid, rest);
    var t2 := FormText(f.value) + t1;
    var value := FormView(f.value, t1, after, rest);
    var space := Preceded(f.colonAfter, t2, value, rest);
    var t3 := f.colonAfter + t2;
    var colon := Preceded([':'], t3, space, rest);
    var t4 := [':'] + t3;
    var before := Preceded(f.colonBefore, t4, colon, rest);
    var t5 := f.colonBefore + t4;
    var name := StringView(f.name, t5, before, rest);
    b := Preceded(f.before, StringText(f.name) + t5, name, rest);
  }

  // What stands between the braces of an object, in every layout, is text the
  // scanner passes over.
  lemma {:induction false} MembersView(members: MembersForm) returns (b: Body)
    requires ValidMembers(members)
    ensures ViewedAs(MembersText(members), b, End)
    decreases members
  {
    match members
    case BlankMembers(space) => b := PlainView(space, End);
    case LastMember(f) =>
      Nothing(End);
      b := FieldView(f, "", End, End);
    case MoreMembers(f, rest) =>
      var later := MembersView(rest);
      var comma := Preceded([','], MembersText(rest), later, End);
      b := FieldView(f, [','] + MembersText(rest), comma, End);
  }

  lemma ObjectView(members: MembersForm, inner: Body, tail: string, mid: Body, rest: Body) returns (b: Body)
    requires ViewedAs(MembersText(members), inner, End) && ValidBody(inner) && ViewedAs(tail, mid, rest)
    ensures ViewedAs(FormText(ObjectForm(members)) + tail, b, rest)
  {
    b := Nested(inner, mid);
    NothingAfter(MembersText(members));
    Bracketed('{', MembersText(members), '}', BodyText(mid));
    Joined(FormText(ObjectForm(members)), b, tail, mid, rest);
  }

  lemma ObjectIsBlock(members: MembersForm) returns (body: Body)
    requires ValidMembers(members)
    ensures ValidBody(body) && Block(body) == FormText(ObjectForm(members))
  {
    body := MembersView(members);
    NothingAfter(MembersText(members));
    NothingAfter(FormText(ObjectForm(members)));
    Bracketed('{', MembersText(members), '}', "");
  }

  // ----- objects written into text

  datatype Message = Last(gap: string) | Then(gap: string, members: MembersForm, rest: Message)

  predicate ValidMessage(m: Message) {
    '{' !in m.gap && (m.Then? ==> ValidMembers(m.members) && ValidMessage(m.rest))
  }

  function MessageText(m: Message): string {
    match m
    case Last(gap) => gap
    case Then(gap, members, rest) => gap + (FormText(ObjectForm(members)) + MessageText(rest))
  }

  function WrittenObjects(m: Message): seq<string> {
    match m case Last(_) => [] case Then(_, members, rest) => [FormText(ObjectForm(members))] + WrittenObjects(rest)
  }

  function ObjectsOf(m: Message): seq<Json>
    requires ValidMessage(m)
  {
    match m case Last(_) => [] case Then(_, members, rest) => [ValueOf(ObjectForm(members))] + ObjectsOf(rest)
  }

  // The parser accepts the objects of this message; of other texts nothing is
  // asked.
  predicate AcceptsOwn(parses: Parser, m: Message) {
    m.Then? ==> parses(FormText(ObjectForm(m.members))) && AcceptsOwn(parses, m.rest)
  }

  lemma {:induction false} MessageIsDocument(parses: Parser, m: Message) returns (d: Document)
    requires ValidMessage(m) && AcceptsOwn(parses, m)
    ensures ValidDocument(parses, d) && DocumentText(d) == MessageText(m) && Printed(d) == WrittenObjects(m)
  {
    match m
    case Last(gap) => d := Tail(gap);
    case Then(gap, members, rest) =>
      var later := MessageIsDocument(parses, rest);
      var body := ObjectIsBlock(members);
      d := Entry(gap, body, later);
  }

  // Objects in, the same objects out, in every layout: whatever is written
  // between texts without an opening brace is found again, complete and in order.
  lemma ScanFindsWrittenObjects(parses: Parser, m: Message)
    requires ValidMessage(m) && AcceptsOwn(parses, m)
    ensures var text := MessageText(m);
            InText(text, Spans(parses, text, 0), 0) && Blocks(text, Spans(parses, text, 0)) == WrittenObjects(m)
  {
    var d := MessageIsDocument(parses, m);
    ScanInvertsPrinting(parses, d);
  }

  // ----- the values the program yields

  // `load` is the JSON parser and `isDict` the test on its result.
  function Dicts<V>(load: string -> Option<V>, isDict: V -> bool): Parser {
    s => load(s).Some? && isDict(load(s).value)
  }

  // The parser reads each object of this message as what it denotes, a dict.
  ghost predicate ReadsOwn<V>(load: string -> Option<V>, isDict: V -> bool, denote: Json -> V, m: Message)
    requires ValidMessage(m)
  {
    m.Then? ==>
      var value := denote(ValueOf(ObjectForm(m.members)));
      && load(FormText(ObjectForm(m.members))) == Some(value) && isDict(value)
      && ReadsOwn(load, isDict, denote, m.rest)
  }

  lemma {:induction false} ReadsAccepts<V>(load: string -> Option<V>, isDict: V -> bool, denote: Json -> V, m: Message)
    requires ValidMessage(m) && ReadsOwn(load, isDict, denote, m)
    ensures AcceptsOwn(Dicts(load, isDict), m) && |WrittenObjects(m)| == |ObjectsOf(m)|
    ensures forall i :: 0 <= i < |ObjectsOf(m)| ==> load(WrittenObjects(m)[i]) == Some(denote(ObjectsOf(m)[i]))
    decreases m
  {
    if m.Then? { ReadsAccepts(load, isDict, denote, m.rest); }
  }

  // What is yielded are the values of the objects written, one by one.
  lemma ScanYieldsTheirValues<V>(load: string -> Option<V>, isDict: V -> bool, denote: Json -> V, m: Message)
    requires ValidMessage(m) && ReadsOwn(load, isDict, denote, m)
    ensures var text := MessageText(m);
            var spans := Spans(Dicts(load, isDict), text, 0);
            && InText(text, spans, 0) && |spans| == |ObjectsOf(m)|
            && forall i :: 0 <= i < |spans| ==> load(Blocks(text, spans)[i]) == Some(denote(ObjectsOf(m)[i]))
  {
    ReadsAccepts(load, isDict, denote, m);
    ScanFindsWrittenObjects(Dicts(load, isDict), m);
  }
}
