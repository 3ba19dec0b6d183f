/**
  Every JSON object is scanned exactly, and what becomes of escaped strings. The texts are those of RFC 8259: white
  space of its section 2, numbers of its section 6 and strings of its section 7,
    each with its own characters written out.
 */
module JsonTheorems {
  import opened Domain
  import opened JsonScanner

  // ---- JSON texts with all their white space and escapes

  datatype Piece = Plain(c: char) | Short(letter: char) | Numeric(hex: string)

  datatype Exponent = Exponent(letter: char, sign: Option<char>, digits: string)

  /** A number, or one of the looser runs of such characters that the scanner takes for a number as well. */
  datatype Json =
    | Text(pieces: seq<Piece>)
    | Number(minus: bool, whole: string, fraction: Option<string>, exponent: Option<Exponent>)
    | LooseNumber(digits: string)
    | Literal(word: string)
    | Object(space: string, members: Members)
    | Array(space: string, elements: Elements)

  /** `pre "key" mid : gap value post`, and the members after it. */
  datatype Members =
    | NoMembers
    | Member(pre: string, key: seq<Piece>, mid: string, gap: string, value: Json, post: string, others: Members)

  datatype Elements =
    | NoElements
    | Element(pre: string, value: Json, post: string, others: Elements)

  predicate Blank(s: string) { forall i :: 0 <= i < |s| ==> s[i] in {' ', '\t', '\n', '\r'} }

  predicate Digits(s: string) { s != "" && forall i :: 0 <= i < |s| ==> '0' <= s[i] <= '9' }

  predicate Hexadecimal(s: string) {
    forall i :: 0 <= i < |s| ==> '0' <= s[i] <= '9' || 'a' <= s[i] <= 'f' || 'A' <= s[i] <= 'F'
  }

  /** No leading zero but the number zero itself; a fraction and an exponent have at least one digit. */
  predicate FineNumber(whole: string, fraction: Option<string>, exponent: Option<Exponent>) {
    && Digits(whole) && (whole[0] == '0' ==> whole == "0")
    && (fraction.Some? ==> Digits(fraction.value))
    && (exponent.Some? ==>
          && exponent.value.letter in {'e', 'E'} && Digits(exponent.value.digits)
          && (exponent.value.sign.Some? ==> exponent.value.sign.value in {'+', '-'}))
  }

  predicate NumberText(s: string) {
    forall i :: 0 <= i < |s| ==> '0' <= s[i] <= '9' || s[i] in {'+', '-', '.', 'e', 'E'}
  }

  function Written(minus: bool, whole: string, fraction: Option<string>, exponent: Option<Exponent>): string {
    (if minus then "-" else "") + whole
    + (if fraction.Some? then "." + fraction.value else "")
    + if exponent.None? then ""
      else [exponent.value.letter] + (if exponent.value.sign.Some? then [exponent.value.sign.value] else "")
           + exponent.value.digits
  }

  /** What a one-letter escape means. */
  function ShortMeaning(letter: char): Option<char> {
    match letter
    case '"' => Some('\U{0022}')
    case '\\' => Some('\U{005C}')
    case '/' => Some('\U{002F}')
    case 'b' => Some('\U{0008}')
    case 'f' => Some('\U{000C}')
    case 'n' => Some('\U{000A}')
    case 'r' => Some('\U{000D}')
    case 't' => Some('\U{0009}')
    case _ => None
  }

  predicate FinePiece(p: Piece) {
    match p
    case Plain(c) => c as int >= 0x20 && c != '"' && c != '\\'
    case Short(letter) => ShortMeaning(letter).Some?
    case Numeric(hex) => |hex| == 4 && Hexadecimal(hex)
  }

  predicate FinePieces(ps: seq<Piece>) { forall i :: 0 <= i < |ps| ==> FinePiece(ps[i]) }

  predicate Fine(v: Json) {
    match v
    case Text(pieces) => FinePieces(pieces)
    case Number(_, whole, fraction, exponent) => FineNumber(whole, fraction, exponent)
    case LooseNumber(digits) => digits != "" && (digits[0] == '-' || '0' <= digits[0] <= '9') && NumberText(digits)
    case Literal(word) => word == "true" || word == "false" || word == "null"
    case Object(space, members) => Blank(space) && FineMembers(members)
    case Array(space, elements) => Blank(space) && FineElements(elements)
  }

  predicate FineMembers(ms: Members) {
    ms.Member? ==>
      && Blank(ms.pre) && FinePieces(ms.key) && Blank(ms.mid) && Blank(ms.gap) && Fine(ms.value) && Blank(ms.post)
      && FineMembers(ms.others)
  }

  predicate FineElements(es: Elements) {
    es.Element? ==> Blank(es.pre) && Fine(es.value) && Blank(es.post) && FineElements(es.others)
  }

  function RenderOne(p: Piece): string {
    match p
    case Plain(c) => [c]
    case Short(letter) => ['\\', letter]
    case Numeric(hex) => "\\u" + hex
  }

  function Render(ps: seq<Piece>): string {
    if ps == [] then "" else RenderOne(ps[0]) + Render(ps[1..])
  }

  function Meaning(p: Piece): char
    requires FinePiece(p)
  {
    match p
    case Plain(c) => c
    case Short(letter) => ShortMeaning(letter).value
    case Numeric(_) => '?'
  }

  function TextOf(ps: seq<Piece>): (r: string)
    requires FinePieces(ps)
    ensures |r| == |ps|
  {
    seq(|ps|, i requires 0 <= i < |ps| => Meaning(ps[i]))
  }

  function Quoted(ps: seq<Piece>, rest: string): string { "\"" + (Render(ps) + ("\"" + rest)) }

  /** The text of a value, followed by the rest of the text it stands in. */
  function Print(v: Json, rest: string): string
    decreases v, 0
  {
    match v
    case Text(pieces) => Quoted(pieces, rest)
    case Number(minus, whole, fraction, exponent) => Written(minus, whole, fraction, exponent) + rest
    case LooseNumber(digits) => digits + rest
    case Literal(word) => word + rest
    case Object(space, members) =>
      "{" + (if members.NoMembers? then space + ("}" + rest) else PrintMembers(members, rest))
    case Array(space, elements) =>
      "[" + (if elements.NoElements? then space + ("]" + rest) else PrintElements(elements, rest))
  }

  function PrintMembers(ms: Members, rest: string): string
    requires ms.Member?
    decreases ms, 0
  {
    ms.pre + Quoted(ms.key, ms.mid + (":" + (ms.gap + Print(ms.value, ms.post + AfterMember(ms.others, rest)))))
  }

  function AfterMember(others: Members, rest: string): string
    decreases others, 1
  {
    if others.NoMembers? then "}" + rest else "," + PrintMembers(others, rest)
  }

  function PrintElements(es: Elements, rest: string): string
    requires es.Element?
    decreases es, 0
  {
    es.pre + Print(es.value, es.post + AfterElement(es.others, rest))
  }

  function AfterElement(others: Elements, rest: string): string
    decreases others, 1
  {
    if others.NoElements? then "]" + rest else "," + PrintElements(others, rest)
  }

  /** How many containers are nested in one another. */
  function Nesting(v: Json): nat {
    match v
    case Object(_, members) => 1 + MembersNesting(members)
    case Array(_, elements) => 1 + ElementsNesting(elements)
    case _ => 0
  }

  function MembersNesting(ms: Members): nat {
    if ms.NoMembers? then 0
    else var a, b := Nesting(ms.value), MembersNesting(ms.others); if a > b then a else b
  }

  function ElementsNesting(es: Elements): nat {
    if es.NoElements? then 0
    else var a, b := Nesting(es.value), ElementsNesting(es.others); if a > b then a else b
  }

  /** What may follow a value: nothing that would read on as part of a number. */
  predicate Ends(rest: string) { rest == "" || !NumberText(rest[..1]) }

  // ---- White space and strings

  lemma {:induction false} SpaceIsSkipped(space: string, rest: string)
    requires Blank(space)
    ensures SkipSpace(space + rest) == SkipSpace(rest)
  {
    if space == "" {
      assert space + rest == rest;
    } else {
      assert (space + rest)[1..] == space[1..] + rest;
      SpaceIsSkipped(space[1..], rest);
    }
  }

  lemma {:induction false} TailReadsPieces(ps: seq<Piece>, value: string, rest: string)
    requires FinePieces(ps)
    ensures StringTail(Render(ps) + ("\"" + rest), value) == Scanned(value + TextOf(ps), rest)
  {
    if ps == [] {
      var s := "\"" + rest;
      assert Render(ps) + s == s && s[1..] == rest && value + TextOf(ps) == value;
    } else {
      var tail := Render(ps[1..]) + ("\"" + rest);
      TailReadsPieces(ps[1..], value + [Meaning(ps[0])], rest);
      PieceIsRead(ps[0], tail, value);
      Glue(RenderOne(ps[0]), Render(ps[1..]), "\"" + rest);
      TextSnoc(ps, value);
    }
  }

  lemma Glue(a: string, b: string, c: string)
    ensures (a + b) + c == a + (b + c)
  {
  }

  lemma TextSnoc(ps: seq<Piece>, value: string)
    requires FinePieces(ps) && ps != []
    ensures (value + [Meaning(ps[0])]) + TextOf(ps[1..]) == value + TextOf(ps)
  {
    assert TextOf(ps) == [Meaning(ps[0])] + TextOf(ps[1..]);
    Glue(value, [Meaning(ps[0])], TextOf(ps[1..]));
  }

  lemma {:induction false} PieceIsRead(p: Piece, tail: string, value: string)
    requires FinePiece(p)
    ensures StringTail(RenderOne(p) + tail, value) == StringTail(tail, value + [Meaning(p)])
  {
    var s := RenderOne(p) + tail;
    match p
    case Plain(c) => assert s[1..] == tail;
    case Short(letter) => assert s[1..] == [letter] + tail && s[1..][1..] == tail;
    case Numeric(hex) =>
      var e := s[1..];
      assert e == "u" + (hex + tail) && e[1..5] == hex && e[5..] == tail;
  }

  lemma QuotedIsRead(ps: seq<Piece>, rest: string)
    requires FinePieces(ps)
    ensures ParseString(Quoted(ps, rest)) == Scanned(TextOf(ps), rest)
    ensures SkipSpace(Quoted(ps, rest)) == Quoted(ps, rest)
  {
    TailReadsPieces(ps, "", rest);
    assert Quoted(ps, rest)[1..] == Render(ps) + ("\"" + rest);
    assert "" + TextOf(ps) == TextOf(ps);
  }

  lemma {:induction false} NumberIsSkipped(digits: string, rest: string)
    requires NumberText(digits) && Ends(rest)
    ensures SkipNumber(digits + rest) == rest
  {
    if digits == "" {
      assert digits + rest == rest;
    } else {
      assert (digits + rest)[1..] == digits[1..] + rest;
      NumberIsSkipped(digits[1..], rest);
    }
  }

  // ---- Values are consumed exactly, or refused for their nesting

  lemma {:induction false} NumberIsValue(digits: string, rest: string, depth: nat)
    requires Fine(LooseNumber(digits)) && Ends(rest)
    ensures SkipValue(digits + rest, depth) == Some(rest)
  {
    var s := digits + rest;
    assert forall i :: 0 <= i < |digits| - 1 ==> digits[1..][i] == digits[i + 1];
    NumberIsSkipped(digits[1..], rest);
    assert s[1..] == digits[1..] + rest && SkipSpace(s) == s;
  }

  /** A number of the grammar is written with number characters only, and starts as one. */
  lemma WrittenIsLoose(minus: bool, whole: string, fraction: Option<string>, exponent: Option<Exponent>)
    requires FineNumber(whole, fraction, exponent)
    ensures Fine(LooseNumber(Written(minus, whole, fraction, exponent)))
  {
    var sign, part := if minus then "-" else "", if fraction.Some? then "." + fraction.value else "";
    assert NumberText(sign + whole) && (sign + whole)[0] == if minus then '-' else whole[0];
    assert NumberText(part);
    if exponent.Some? {
      var e := exponent.value;
      assert NumberText([e.letter] + (if e.sign.Some? then [e.sign.value] else "") + e.digits);
    }
  }

  lemma {:induction false} LiteralIsValue(word: string, rest: string, depth: nat)
    requires Fine(Literal(word))
    ensures SkipValue(word + rest, depth) == Some(rest)
  {
    var s := word + rest;
    assert SkipSpace(s) == s && word <= s && s[|word|..] == rest;
  }

  /** A value is consumed exactly when its containers fit under the nesting limit, and refused otherwise. */
  lemma {:induction false} ValueIsSkipped(v: Json, rest: string, depth: nat)
    requires Fine(v) && Ends(rest) && depth <= 64
    ensures SkipValue(Print(v, rest), depth) == if depth + Nesting(v) <= 64 then Some(rest) else None
    decreases v, 1
  {
    match v
    case Object(space, members) =>
      ObjectIsSkipped(v, rest, depth);
    case Array(space, elements) =>
      ArrayIsSkipped(v, rest, depth);
    case Text(pieces) =>
      QuotedIsRead(pieces, rest);
    case Number(minus, whole, fraction, exponent) =>
      WrittenIsLoose(minus, whole, fraction, exponent);
      NumberIsValue(Written(minus, whole, fraction, exponent), rest, depth);
    case LooseNumber(digits) =>
      NumberIsValue(digits, rest, depth);
    case Literal(word) =>
      LiteralIsValue(word, rest, depth);
  }

  lemma {:induction false} ObjectIsSkipped(v: Json, rest: string, depth: nat)
    requires v.Object? && Fine(v)
    ensures SkipValue(Print(v, rest), depth) == if depth + Nesting(v) <= 64 then Some(rest) else None
    decreases v, 0
  {
    var s := Print(v, rest);
    var inner := if v.members.NoMembers? then v.space + ("}" + rest) else PrintMembers(v.members, rest);
    assert s[1..] == inner && SkipSpace(s) == s;
    if v.members.NoMembers? {
      SpaceIsSkipped(v.space, "}" + rest);
      assert ("}" + rest)[1..] == rest;
    } else {
      var ms := v.members;
      var after := ms.mid + (":" + (ms.gap + Print(ms.value, ms.post + AfterMember(ms.others, rest))));
      SpaceIsSkipped(ms.pre, Quoted(ms.key, after));
      QuotedIsRead(ms.key, after);
      if depth < 64 { MembersAreSkipped(ms, rest, depth); }
    }
  }

  lemma {:induction false} ArrayIsSkipped(v: Json, rest: string, depth: nat)
    requires v.Array? && Fine(v)
    ensures SkipValue(Print(v, rest), depth) == if depth + Nesting(v) <= 64 then Some(rest) else None
    decreases v, 0
  {
    var s := Print(v, rest);
    var inner := if v.elements.NoElements? then v.space + ("]" + rest) else PrintElements(v.elements, rest);
    assert s[1..] == inner && SkipSpace(s) == s;
    if v.elements.NoElements? {
      SpaceIsSkipped(v.space, "]" + rest);
      assert ("]" + rest)[1..] == rest;
    } else {
      var es := v.elements;
      var value := Print(es.value, es.post + AfterElement(es.others, rest));
      SpaceIsSkipped(es.pre, value);
      ValueStarts(es.value, es.post + AfterElement(es.others, rest));
      if depth < 64 {
        ElementsAreSkipped(es, rest, depth);
      }
    }
  }

  /** A value starts with neither space nor a closing bracket. */
  lemma {:induction false} ValueStarts(v: Json, rest: string)
    requires Fine(v)
    ensures var s := Print(v, rest); s != "" && s[0] != ']' && s[0] != '}' && SkipSpace(s) == s
  {
    if v.Number? { WrittenIsLoose(v.minus, v.whole, v.fraction, v.exponent); }
  }

  lemma {:induction false} MembersAreSkipped(ms: Members, rest: string, depth: nat)
    requires ms.Member? && FineMembers(ms) && depth < 64
    ensures SkipMembers(SkipSpace(PrintMembers(ms, rest)), depth)
            == if depth + 1 + MembersNesting(ms) <= 64 then Some(rest) else None
    decreases ms
  {
    var next := AfterMember(ms.others, rest);
    AfterMemberEnds(ms, rest);
    ValueIsSkipped(ms.value, ms.post + next, depth + 1);
    OneMember(ms, rest, depth, SkipValue(Print(ms.value, ms.post + next), depth + 1));
    if ms.others.Member? { MembersAreSkipped(ms.others, rest, depth); }
  }

  /** One member is passed over if its value is, and then the scan goes on behind it. */
  lemma {:induction false} OneMember(ms: Members, rest: string, depth: nat, skipped: Option<string>)
    requires ms.Member? && FineMembers(ms)
    requires skipped == SkipValue(Print(ms.value, ms.post + AfterMember(ms.others, rest)), depth + 1)
    requires skipped.Some? ==> skipped.value == ms.post + AfterMember(ms.others, rest)
    ensures SkipMembers(SkipSpace(PrintMembers(ms, rest)), depth)
            == if skipped.None? then None
               else if ms.others.NoMembers? then Some(rest)
               else SkipMembers(SkipSpace(PrintMembers(ms.others, rest)), depth)
  {
    var next := AfterMember(ms.others, rest);
    var value := Print(ms.value, ms.post + next);
    var after := ms.mid + (":" + (ms.gap + value));
    SpaceIsSkipped(ms.pre, Quoted(ms.key, after));
    KeyIsRead(ms, after, ms.gap + value);
    AfterMemberEnds(ms, rest);
    GapIsSkipped(ms.gap, value, depth + 1);
    SpaceIsSkipped(ms.post, next);
    assert next[1..] == if ms.others.NoMembers? then rest else PrintMembers(ms.others, rest);
  }

  lemma KeyIsRead(ms: Members, after: string, inner: string)
    requires ms.Member? && FinePieces(ms.key) && Blank(ms.mid) && after == ms.mid + (":" + inner)
    ensures ParseKey(Quoted(ms.key, after)) == Scanned(TextOf(ms.key), inner)
    ensures SkipSpace(Quoted(ms.key, after)) == Quoted(ms.key, after)
  {
    QuotedIsRead(ms.key, after);
    SpaceIsSkipped(ms.mid, ":" + inner);
    assert (":" + inner)[1..] == inner;
  }

  /** A value may be preceded by white space. */
  lemma {:induction false} GapIsSkipped(gap: string, s: string, depth: nat)
    requires Blank(gap) && SkipSpace(s) == s
    ensures SkipValue(gap + s, depth) == SkipValue(s, depth)
    ensures SkipSpace(gap + s) == s
  {
    SpaceIsSkipped(gap, s);
  }

  lemma {:induction false} AfterMemberEnds(ms: Members, rest: string)
    requires ms.Member? && FineMembers(ms)
    ensures Ends(ms.post + AfterMember(ms.others, rest))
    ensures SkipSpace(AfterMember(ms.others, rest)) == AfterMember(ms.others, rest)
    ensures var s := Print(ms.value, ms.post + AfterMember(ms.others, rest)); SkipSpace(s) == s
  {
    var next := AfterMember(ms.others, rest);
    ValueStarts(ms.value, ms.post + next);
    if ms.post != "" { assert (ms.post + next)[0] == ms.post[0]; } else { assert ms.post + next == next; }
  }

  lemma {:induction false} ElementsAreSkipped(es: Elements, rest: string, depth: nat)
    requires es.Element? && FineElements(es) && depth < 64
    ensures SkipElements(SkipSpace(PrintElements(es, rest)), depth)
            == if depth + 1 + ElementsNesting(es) <= 64 then Some(rest) else None
    decreases es
  {
    var next := AfterElement(es.others, rest);
    var value := Print(es.value, es.post + next);
    AfterElementEnds(es, rest);
    GapIsSkipped(es.pre, value, depth + 1);
    ValueIsSkipped(es.value, es.post + next, depth + 1);
    SpaceIsSkipped(es.post, next);
    assert next[1..] == if es.others.NoElements? then rest else PrintElements(es.others, rest);
    if es.others.Element? { ElementsAreSkipped(es.others, rest, depth); }
  }

  lemma {:induction false} AfterElementEnds(es: Elements, rest: string)
    requires es.Element? && FineElements(es)
    ensures Ends(es.post + AfterElement(es.others, rest))
    ensures SkipSpace(AfterElement(es.others, rest)) == AfterElement(es.others, rest)
    ensures var s := Print(es.value, es.post + AfterElement(es.others, rest)); SkipSpace(s) == s
  {
    var next := AfterElement(es.others, rest);
    ValueStarts(es.value, es.post + next);
    if es.post != "" { assert (es.post + next)[0] == es.post[0]; } else { assert es.post + next == next; }
  }

  // ---- The top-level field

  /** The last top-level string bound to the field; no result if the field is ever bound to something else, or a
      value of another field nests too deeply. */
  function Bound(ms: Members, field: string, value: Option<string>): Field
    requires FineMembers(ms)
  {
    if ms.NoMembers? then Found(value)
    else if TextOf(ms.key) == field then
      assert Fine(ms.value);
      if ms.value.Text? then Bound(ms.others, field, Some(TextOf(ms.value.pieces))) else Malformed
    else if Nesting(ms.value) <= 64 then Bound(ms.others, field, value)
    else Malformed
  }

  /** For every printed object, whatever its white space and nested members, the scanner's answer is that. */
  lemma {:induction false} TopFieldIsFound(before: string, v: Json, behind: string, field: string)
    requires v.Object? && Fine(v) && Blank(before) && Blank(behind)
    ensures TopField(before + Print(v, behind), field) == Bound(v.members, field, None)
  {
    var s := Print(v, behind);
    SpaceIsSkipped(before, s);
    assert SkipSpace(s) == s;
    SpaceIsSkipped(behind, "");
    assert behind + "" == behind;
    if v.members.NoMembers? {
      SpaceIsSkipped(v.space, "}" + behind);
      assert s[1..] == v.space + ("}" + behind) && ("}" + behind)[1..] == behind;
    } else {
      assert s[1..] == PrintMembers(v.members, behind);
      TopMembersAreFound(v.members, behind, field, None);
    }
  }

  lemma {:induction false} TopMembersAreFound(ms: Members, behind: string, field: string, value: Option<string>)
    requires ms.Member? && FineMembers(ms) && SkipSpace(behind) == ""
    ensures TopMembers(PrintMembers(ms, behind), field, value) == Bound(ms, field, value)
    decreases ms
  {
    var next := AfterMember(ms.others, behind);
    var s := Print(ms.value, ms.post + next);
    var after := ms.mid + (":" + (ms.gap + s));
    SpaceIsSkipped(ms.pre, Quoted(ms.key, after));
    KeyIsRead(ms, after, ms.gap + s);
    AfterMemberEnds(ms, behind);
    GapIsSkipped(ms.gap, s, 0);
    if TextOf(ms.key) == field {
      if ms.value.Text? {
        QuotedIsRead(ms.value.pieces, ms.post + next);
        TopRestIsFound(ms, behind, field, Some(TextOf(ms.value.pieces)));
      } else {
        assert ParseString(s).Bad?;
      }
    } else {
      ValueIsSkipped(ms.value, ms.post + next, 0);
      if Nesting(ms.value) <= 64 { TopRestIsFound(ms, behind, field, value); }
    }
  }

  lemma {:induction false} TopRestIsFound(ms: Members, behind: string, field: string, value: Option<string>)
    requires ms.Member? && FineMembers(ms) && SkipSpace(behind) == ""
    ensures TopRest(ms.post + AfterMember(ms.others, behind), field, value) == Bound(ms.others, field, value)
    decreases ms, 0
  {
    var next := AfterMember(ms.others, behind);
    SpaceIsSkipped(ms.post, next);
    AfterMemberEnds(ms, behind);
    assert next[1..] == if ms.others.NoMembers? then behind else PrintMembers(ms.others, behind);
    if ms.others.Member? { TopMembersAreFound(ms.others, behind, field, value); }
  }

  /** A well-formed report makes the daemon ready exactly by the last top-level status that counts. */
  lemma {:induction false} ReadyMeans(before: string, v: Json, behind: string)
    requires v.Object? && Fine(v) && Blank(before) && Blank(behind)
    ensures ClassifiedReady(before + Print(v, behind))
            <==> var control := Bound(v.members, "system_control_status", None);
                 control == Found(Some("active"))
                 || (control == Found(None) && Bound(v.members, "status", None) == Found(Some("active")))
  {
    TopFieldIsFound(before, v, behind, "system_control_status");
    TopFieldIsFound(before, v, behind, "status");
  }

  // ---- Escaping, and the bytes it is read back from

  function HexDigit(n: nat): (c: char)
    requires n < 16
    ensures Hexadecimal([c])
  {
    if n < 10 then ('0' as int + n) as char else ('a' as int + n - 10) as char
  }

  /** How `escape_json` writes a character. */
  function EscapeOne(c: char): string {
    match c
    case '"' => "\\\""
    case '\\' => "\\\\"
    case '\n' => "\\n"
    case '\r' => "\\r"
    case '\t' => "\\t"
    case _ =>
      if c as int < 0x20 then "\\u" + ['0', '0', HexDigit(c as int / 16), HexDigit(c as int % 16)] else [c]
  }

  function EscapeJson(s: string): string {
    if s == "" then "" else EscapeOne(s[0]) + EscapeJson(s[1..])
  }

  /** The UTF-8 bytes of a character (section 3 of RFC 3629), each as the character with that number. */
  function Utf8(c: char): (bytes: string)
    ensures c as int < 0x80 ==> bytes == [c]
    ensures c as int >= 0x80 ==> |bytes| >= 2 && forall i :: 0 <= i < |bytes| ==> 0x80 <= bytes[i] as int < 0x100
  {
    var n := c as int;
    if n < 0x80 then [c]
    else if n < 0x800 then [(0xC0 + n / 0x40) as char, (0x80 + n % 0x40) as char]
    else if n < 0x10000 then [(0xE0 + n / 0x1000) as char, (0x80 + n / 0x40 % 0x40) as char, (0x80 + n % 0x40) as char]
    else
      [(0xF0 + n / 0x40000) as char, (0x80 + n / 0x1000 % 0x40) as char, (0x80 + n / 0x40 % 0x40) as char,
       (0x80 + n % 0x40) as char]
  }

  function Encoded(s: string): string {
    if s == "" then "" else Utf8(s[0]) + Encoded(s[1..])
  }

  /** A control character that has no short escape. */
  predicate Lossy(c: char) { c as int < 0x20 && c != '\n' && c != '\r' && c != '\t' }

  /** What becomes of a character that is escaped, encoded and scanned. */
  function ReadBack(c: char): string { if Lossy(c) then "?" else Utf8(c) }

  function ReadBackAll(s: string): string {
    if s == "" then "" else ReadBack(s[0]) + ReadBackAll(s[1..])
  }

  lemma {:induction false} EncodedConcat(a: string, b: string)
    ensures Encoded(a + b) == Encoded(a) + Encoded(b)
  {
    if a == "" {
      assert a + b == b;
    } else {
      assert (a + b)[1..] == a[1..] + b;
      EncodedConcat(a[1..], b);
    }
  }

  lemma {:induction false} AsciiIsEncoded(s: string)
    requires forall i :: 0 <= i < |s| ==> s[i] as int < 0x80
    ensures Encoded(s) == s
  {
    if s == "" {
    } else {
      AsciiIsEncoded(s[1..]);
    }
  }

  lemma {:induction false} RenderConcat(a: seq<Piece>, b: seq<Piece>)
    ensures Render(a + b) == Render(a) + Render(b)
  {
    if a == [] {
      assert a + b == b;
    } else {
      assert (a + b)[1..] == a[1..] + b;
      RenderConcat(a[1..], b);
    }
  }

  function PlainPieces(s: string): (ps: seq<Piece>)
    ensures |ps| == |s|
  {
    seq(|s|, i requires 0 <= i < |s| => Plain(s[i]))
  }

  lemma {:induction false} PlainIsRendered(s: string)
    ensures Render(PlainPieces(s)) == s
  {
    if s == "" {
    } else {
      assert PlainPieces(s)[1..] == PlainPieces(s[1..]);
      PlainIsRendered(s[1..]);
    }
  }

  /** The pieces a scanner sees in an escaped and encoded character. */
  function EscapedPieces(c: char): (ps: seq<Piece>)
    ensures FinePieces(ps)
  {
    match c
    case '"' => [Short('"')]
    case '\\' => [Short('\\')]
    case '\n' => [Short('n')]
    case '\r' => [Short('r')]
    case '\t' => [Short('t')]
    case _ =>
      if c as int < 0x20 then [Numeric(['0', '0', HexDigit(c as int / 16), HexDigit(c as int % 16)])]
      else PlainPieces(Utf8(c))
  }

  lemma EscapedIsRendered(c: char)
    ensures Encoded(EscapeOne(c)) == Render(EscapedPieces(c))
  {
    if c as int < 0x20 || c == '"' || c == '\\' {
      AsciiIsEncoded(EscapeOne(c));
      assert EscapedPieces(c)[1..] == [];
      assert Render(EscapedPieces(c)) == RenderOne(EscapedPieces(c)[0]);
    } else {
      PlainIsRendered(Utf8(c));
      assert Encoded([c]) == Utf8(c) + Encoded([]);
    }
  }

  lemma EscapedMeans(c: char)
    ensures TextOf(EscapedPieces(c)) == ReadBack(c)
  {
  }

  function AllEscapedPieces(s: string): (ps: seq<Piece>)
    ensures FinePieces(ps)
  {
    if s == "" then [] else EscapedPieces(s[0]) + AllEscapedPieces(s[1..])
  }

  lemma {:induction false} AllEscapedAreRendered(s: string)
    ensures Encoded(EscapeJson(s)) == Render(AllEscapedPieces(s))
  {
    if s == "" {
    } else {
      AllEscapedAreRendered(s[1..]);
      EscapedIsRendered(s[0]);
      EncodedConcat(EscapeOne(s[0]), EscapeJson(s[1..]));
      RenderConcat(EscapedPieces(s[0]), AllEscapedPieces(s[1..]));
    }
  }

  lemma TextOfConcat(a: seq<Piece>, b: seq<Piece>)
    requires FinePieces(a) && FinePieces(b)
    ensures FinePieces(a + b) && TextOf(a + b) == TextOf(a) + TextOf(b)
  {
  }

  lemma {:induction false} AllEscapedMean(s: string)
    ensures TextOf(AllEscapedPieces(s)) == ReadBackAll(s)
  {
    if s == "" {
    } else {
      AllEscapedMean(s[1..]);
      EscapedMeans(s[0]);
      TextOfConcat(EscapedPieces(s[0]), AllEscapedPieces(s[1..]));
    }
  }

  predicate Returns(c: char) { c as int < 0x80 && !Lossy(c) }

  lemma {:induction false} ReadBackIsLonger(s: string)
    ensures |ReadBackAll(s)| >= |s|
    ensures (exists i :: 0 <= i < |s| && s[i] as int >= 0x80) ==> |ReadBackAll(s)| > |s|
  {
    if s == "" {
    } else {
      ReadBackIsLonger(s[1..]);
      assert forall i :: 0 < i < |s| ==> s[i] == s[1..][i - 1];
    }
  }

  lemma {:induction false} ReadBackReturns(s: string)
    ensures ReadBackAll(s) == s <==> forall i :: 0 <= i < |s| ==> Returns(s[i])
  {
    if s == "" {
    } else {
      ReadBackReturns(s[1..]);
      ReadBackIsLonger(s[1..]);
      assert forall i :: 0 < i < |s| ==> s[i] == s[1..][i - 1];
      assert s == [s[0]] + s[1..];
      if ReadBackAll(s) == s {
        assert |ReadBack(s[0])| == 1;
        assert ReadBackAll(s)[0] == s[0] && ReadBackAll(s)[1..] == s[1..];
      }
    }
  }

  /**
    A string that is escaped, quoted, written as UTF-8 and scanned: a control character without a short escape comes
    back as a question mark and a character beyond ASCII as one character for each of its bytes, so the string is
    the same exactly if it has neither.
   */
  lemma {:induction false} EscapeRoundTrip(s: string, rest: string)
    ensures ParseString("\"" + (Encoded(EscapeJson(s)) + ("\"" + rest))) == Scanned(ReadBackAll(s), rest)
    ensures ReadBackAll(s) == s <==> forall i :: 0 <= i < |s| ==> Returns(s[i])
  {
    AllEscapedAreRendered(s);
    AllEscapedMean(s);
    QuotedIsRead(AllEscapedPieces(s), rest);
    ReadBackReturns(s);
  }

  /** The letter U+00E9 comes back as U+00C3 and U+00A9. */
  lemma AccentComesBackDoubled(rest: string)
    ensures ParseString("\"" + (Encoded(EscapeJson("\U{00E9}")) + ("\"" + rest))) == Scanned("\U{00C3}\U{00A9}", rest)
  {
    EscapeRoundTrip("\U{00E9}", rest);
    assert ReadBackAll("\U{00E9}") == Utf8('\U{00E9}') + ReadBackAll("");
  }
}
