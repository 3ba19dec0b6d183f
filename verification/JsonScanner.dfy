/**
  The hand-written scanner for hook health reports (section 7 of RFC 8259 for strings). Texts are bytes; the
  scanner's functions take the unread rest of the text, and the methods work on an index as the daemon does.
 */
module JsonScanner {
  import opened Domain

  const MAX_NESTING: nat := 64

  // ---- Scanning, as functions of the unread text

  predicate IsJsonSpace(c: char) { c == ' ' || c == '\n' || c == '\r' || c == '\t' }

  predicate IsHexDigit(c: char) { '0' <= c <= '9' || 'a' <= c <= 'f' || 'A' <= c <= 'F' }

  predicate AllHex(s: string) { forall i :: 0 <= i < |s| ==> IsHexDigit(s[i]) }

  predicate IsNumberChar(c: char) { '0' <= c <= '9' || c == '+' || c == '-' || c == '.' || c == 'e' || c == 'E' }

  function SkipSpace(s: string): (r: string)
    ensures |r| <= |s|
  {
    if s != "" && IsJsonSpace(s[0]) then SkipSpace(s[1..]) else s
  }

  function SkipNumber(s: string): (r: string)
    ensures |r| <= |s|
  {
    if s != "" && IsNumberChar(s[0]) then SkipNumber(s[1..]) else s
  }

  /** What a one-letter escape stands for. */
  function Unescaped(c: char): Option<char> {
    match c
    case '"' => Some('"')
    case '\\' => Some('\\')
    case '/' => Some('/')
    case 'b' => Some(8 as char)
    case 'f' => Some(12 as char)
    case 'n' => Some('\n')
    case 'r' => Some('\r')
    case 't' => Some('\t')
    case _ => None
  }

  datatype Scan = Bad | Scanned(value: string, rest: string)

  /** An escape after its backslash; a numeric one is read as a question mark. */
  function ReadEscape(s: string): (r: Scan)
    ensures r.Scanned? ==> |r.value| == 1 && |r.rest| < |s|
  {
    if s == "" then Bad
    else if Unescaped(s[0]).Some? then Scanned([Unescaped(s[0]).value], s[1..])
    else if s[0] == 'u' && |s| >= 5 && AllHex(s[1..5]) then Scanned("?", s[5..])
    else Bad
  }

  /** The rest of a string after its opening quote. */
  function StringTail(s: string, value: string): (r: Scan)
    ensures r.Scanned? ==> |r.rest| < |s|
    decreases |s|
  {
    if s == "" || s[0] as int < 0x20 then Bad
    else if s[0] == '"' then Scanned(value, s[1..])
    else if s[0] != '\\' then StringTail(s[1..], value + [s[0]])
    else
      var e := ReadEscape(s[1..]);
      if e.Bad? then Bad else StringTail(e.rest, value + e.value)
  }

  function ParseString(s: string): (r: Scan)
    ensures r.Scanned? ==> |r.rest| < |s|
  {
    if s != "" && s[0] == '"' then StringTail(s[1..], "") else Bad
  }

  /** A member's key up to and including its colon. */
  function ParseKey(s: string): (r: Scan)
    ensures r.Scanned? ==> |r.rest| < |s|
  {
    var key := ParseString(s);
    if key.Bad? then Bad
    else
      var t := SkipSpace(key.rest);
      if t == "" || t[0] != ':' then Bad else Scanned(key.value, t[1..])
  }

  function SkipLiteral(s: string, literal: string): Option<string> {
    if literal <= s then Some(s[|literal|..]) else None
  }

  function SkipValue(s: string, depth: nat): (r: Option<string>)
    ensures r.Some? ==> |r.value| < |s|
    decreases |s|, 0
  {
    var t := SkipSpace(s);
    if t == "" then None
    else if t[0] == '"' then var p := ParseString(t); if p.Bad? then None else Some(p.rest)
    else if t[0] == '{' then SkipObject(t[1..], depth)
    else if t[0] == '[' then SkipArray(t[1..], depth)
    else if t[0] == 't' then SkipLiteral(t, "true")
    else if t[0] == 'f' then SkipLiteral(t, "false")
    else if t[0] == 'n' then SkipLiteral(t, "null")
    else if t[0] == '-' || '0' <= t[0] <= '9' then Some(SkipNumber(t[1..]))
    else None
  }

  /** An object after its opening brace. */
  function SkipObject(s: string, depth: nat): (r: Option<string>)
    ensures r.Some? ==> |r.value| < |s|
    decreases |s|, 2
  {
    if depth >= MAX_NESTING then None
    else
      var u := SkipSpace(s);
      if u != "" && u[0] == '}' then Some(u[1..]) else SkipMembers(u, depth)
  }

  /** An array after its opening bracket. */
  function SkipArray(s: string, depth: nat): (r: Option<string>)
    ensures r.Some? ==> |r.value| < |s|
    decreases |s|, 2
  {
    if depth >= MAX_NESTING then None
    else
      var u := SkipSpace(s);
      if u != "" && u[0] == ']' then Some(u[1..]) else SkipElements(u, depth)
  }

  function SkipMembers(s: string, depth: nat): (r: Option<string>)
    ensures r.Some? ==> |r.value| < |s|
    decreases |s|, 1
  {
    var key := ParseKey(s);
    if key.Bad? then None
    else
      var v := SkipValue(key.rest, depth + 1);
      if v.None? then None
      else
        var u := SkipSpace(v.value);
        if u == "" then None
        else if u[0] == '}' then Some(u[1..])
        else if u[0] == ',' then SkipMembers(SkipSpace(u[1..]), depth)
        else None
  }

  function SkipElements(s: string, depth: nat): (r: Option<string>)
    ensures r.Some? ==> |r.value| < |s|
    decreases |s|, 1
  {
    var v := SkipValue(s, depth + 1);
    if v.None? then None
    else
      var u := SkipSpace(v.value);
      if u == "" then None
      else if u[0] == ']' then Some(u[1..])
      else if u[0] == ',' then SkipElements(SkipSpace(u[1..]), depth)
      else None
  }

  datatype Field = Malformed | Found(value: Option<string>)

  function AtEnd(s: string, value: Option<string>): Field {
    if SkipSpace(s) == "" then Found(value) else Malformed
  }

  /** The members of the top-level object, from just after its brace or a comma; a trailing comma is let through. */
  function TopMembers(s: string, field: string, value: Option<string>): Field
    decreases |s|
  {
    var t := SkipSpace(s);
    if t != "" && t[0] == '}' then AtEnd(t[1..], value)
    else
      var key := ParseKey(t);
      if key.Bad? then Malformed
      else if key.value == field then
        var w := ParseString(SkipSpace(key.rest));
        if w.Bad? then Malformed else TopRest(w.rest, field, Some(w.value))
      else
        var w := SkipValue(SkipSpace(key.rest), 0);
        if w.None? then Malformed else TopRest(w.value, field, value)
  }

  function TopRest(s: string, field: string, value: Option<string>): Field
    decreases |s|
  {
    var t := SkipSpace(s);
    if t == "" then Malformed
    else if t[0] == ',' then TopMembers(t[1..], field, value)
    else if t[0] == '}' then AtEnd(t[1..], value)
    else Malformed
  }

  function TopField(s: string, field: string): Field {
    var t := SkipSpace(s);
    if t == "" || t[0] != '{' then Malformed else TopMembers(t[1..], field, None)
  }

  // ---- The same on an index, with loops

  method SkipSpaceAt(bytes: string, start: nat) returns (index: nat)
    requires start <= |bytes|
    ensures start <= index <= |bytes| && bytes[index..] == SkipSpace(bytes[start..])
  {
    index := start;
    while index < |bytes| && IsJsonSpace(bytes[index])
      invariant start <= index <= |bytes| && SkipSpace(bytes[index..]) == SkipSpace(bytes[start..])
    {
      assert bytes[index..][1..] == bytes[index + 1..];
      index := index + 1;
    }
  }

  method SkipNumberAt(bytes: string, start: nat) returns (index: nat)
    requires start <= |bytes|
    ensures start <= index <= |bytes| && bytes[index..] == SkipNumber(bytes[start..])
  {
    index := start;
    while index < |bytes| && IsNumberChar(bytes[index])
      invariant start <= index <= |bytes| && SkipNumber(bytes[index..]) == SkipNumber(bytes[start..])
    {
      assert bytes[index..][1..] == bytes[index + 1..];
      index := index + 1;
    }
  }

  method ParseStringAt(bytes: string, start: nat) returns (ok: bool, value: string, index: nat)
    requires start <= |bytes|
    ensures ok == ParseString(bytes[start..]).Scanned?
    ensures ok ==> start < index <= |bytes| && ParseString(bytes[start..]) == Scanned(value, bytes[index..])
  {
    ok, value, index := false, "", start;
    if start == |bytes| || bytes[start] != '"' { return; }
    index := start + 1;
    assert bytes[start..][1..] == bytes[index..];
    while index < |bytes|
      invariant start < index <= |bytes| && !ok
      invariant ParseString(bytes[start..]) == StringTail(bytes[index..], value)
    {
      var byte := bytes[index];
      assert bytes[index..][1..] == bytes[index + 1..];
      index := index + 1;
      if byte == '"' { return true, value, index; }
      if byte == '\\' {
        var good, c;
        good, c, index := EscapeAt(bytes, index);
        if !good { return; }
        value := value + [c];
      } else {
        if byte as int < 0x20 { return; }
        value := value + [byte];
      }
    }
  }

  method EscapeAt(bytes: string, start: nat) returns (ok: bool, c: char, index: nat)
    requires start <= |bytes|
    ensures start <= index <= |bytes|
    ensures ReadEscape(bytes[start..]) == if ok then Scanned([c], bytes[index..]) else Bad
  {
    ok, c, index := false, '?', start;
    if start == |bytes| { return; }
    var escaped := bytes[start];
    assert bytes[start..][1..] == bytes[start + 1..];
    if Unescaped(escaped).Some? { return true, Unescaped(escaped).value, start + 1; }
    if escaped != 'u' || start + 5 > |bytes| { return; }
    assert bytes[start..][1..5] == bytes[start + 1..start + 5] && bytes[start..][5..] == bytes[start + 5..];
    if AllHex(bytes[start + 1..start + 5]) { return true, '?', start + 5; }
  }

  method ParseKeyAt(bytes: string, start: nat) returns (ok: bool, key: string, index: nat)
    requires start <= |bytes|
    ensures ok == ParseKey(bytes[start..]).Scanned?
    ensures ok ==> start < index <= |bytes| && ParseKey(bytes[start..]) == Scanned(key, bytes[index..])
  {
    ok, key, index := ParseStringAt(bytes, start);
    if !ok { return; }
    index := SkipSpaceAt(bytes, index);
    if index == |bytes| || bytes[index] != ':' { return false, key, index; }
    assert bytes[index..][1..] == bytes[index + 1..];
    index := index + 1;
  }

  method SkipValueAt(bytes: string, start: nat, depth: nat) returns (ok: bool, index: nat)
    requires start <= |bytes|
    ensures ok == SkipValue(bytes[start..], depth).Some?
    ensures ok ==> start < index <= |bytes| && SkipValue(bytes[start..], depth) == Some(bytes[index..])
    decreases |bytes| - start, 0
  {
    index := SkipSpaceAt(bytes, start);
    if index == |bytes| { return false, index; }
    var byte := bytes[index];
    assert bytes[index..][1..] == bytes[index + 1..];
    if byte == '"' {
      var value;
      ok, value, index := ParseStringAt(bytes, index);
    } else if byte == '{' {
      ok, index := SkipObjectAt(bytes, index + 1, depth);
    } else if byte == '[' {
      ok, index := SkipArrayAt(bytes, index + 1, depth);
    } else if byte == 't' {
      ok, index := ConsumeLiteral(bytes, index, "true");
    } else if byte == 'f' {
      ok, index := ConsumeLiteral(bytes, index, "false");
    } else if byte == 'n' {
      ok, index := ConsumeLiteral(bytes, index, "null");
    } else if byte == '-' || '0' <= byte <= '9' {
      index := SkipNumberAt(bytes, index + 1);
      ok := true;
    } else {
      ok := false;
    }
  }

  method SkipObjectAt(bytes: string, start: nat, depth: nat) returns (ok: bool, index: nat)
    requires start <= |bytes|
    ensures ok == SkipObject(bytes[start..], depth).Some?
    ensures ok ==> start < index <= |bytes| && SkipObject(bytes[start..], depth) == Some(bytes[index..])
    decreases |bytes| - start, 3
  {
    if depth >= MAX_NESTING { return false, start; }
    index := SkipSpaceAt(bytes, start);
    if index < |bytes| && bytes[index] == '}' {
      assert bytes[index..][1..] == bytes[index + 1..];
      return true, index + 1;
    }
    ok, index := SkipMembersAt(bytes, index, depth);
  }

  method SkipArrayAt(bytes: string, start: nat, depth: nat) returns (ok: bool, index: nat)
    requires start <= |bytes|
    ensures ok == SkipArray(bytes[start..], depth).Some?
    ensures ok ==> start < index <= |bytes| && SkipArray(bytes[start..], depth) == Some(bytes[index..])
    decreases |bytes| - start, 3
  {
    if depth >= MAX_NESTING { return false, start; }
    index := SkipSpaceAt(bytes, start);
    if index < |bytes| && bytes[index] == ']' {
      assert bytes[index..][1..] == bytes[index + 1..];
      return true, index + 1;
    }
    ok, index := SkipElementsAt(bytes, index, depth);
  }

  method ConsumeLiteral(bytes: string, start: nat, literal: string) returns (ok: bool, index: nat)
    requires start <= |bytes| && literal != ""
    ensures ok == SkipLiteral(bytes[start..], literal).Some?
    ensures ok ==> start < index <= |bytes| && SkipLiteral(bytes[start..], literal) == Some(bytes[index..])
  {
    var end := start + |literal|;
    ok := end <= |bytes| && bytes[start..end] == literal;
    index := if ok then end else start;
    if end <= |bytes| { assert bytes[start..end] == bytes[start..][..|literal|]; }
  }

  /** The loop over the members of a nested object. */
  method SkipMembersAt(bytes: string, start: nat, depth: nat) returns (ok: bool, index: nat)
    requires start <= |bytes|
    ensures ok == SkipMembers(bytes[start..], depth).Some?
    ensures ok ==> start < index <= |bytes| && SkipMembers(bytes[start..], depth) == Some(bytes[index..])
    decreases |bytes| - start, 2
  {
    var more;
    index := start;
    while true
      invariant start <= index <= |bytes|
      invariant SkipMembers(bytes[start..], depth) == SkipMembers(bytes[index..], depth)
      decreases |bytes| - index
    {
      ok, more, index := SkipMemberAt(bytes, index, depth);
      if !ok || !more { return; }
    }
  }

  method SkipMemberAt(bytes: string, start: nat, depth: nat) returns (ok: bool, more: bool, index: nat)
    requires start <= |bytes|
    ensures ok ==> start < index <= |bytes|
    ensures SkipMembers(bytes[start..], depth)
            == if !ok then None else if more then SkipMembers(bytes[index..], depth) else Some(bytes[index..])
    decreases |bytes| - start, 1
  {
    var key;
    more := false;
    ok, key, index := ParseKeyAt(bytes, start);
    if !ok { return; }
    ok, index := SkipValueAt(bytes, index, depth + 1);
    if !ok { return; }
    ok, more, index := AfterValueAt(bytes, index, '}');
  }

  /** What follows a nested value: a comma and whatever space comes after it, or the closing bracket. */
  method AfterValueAt(bytes: string, start: nat, closing: char) returns (ok: bool, more: bool, index: nat)
    requires start <= |bytes| && closing != ','
    ensures var u := SkipSpace(bytes[start..]);
            && (ok <==> u != "" && (u[0] == closing || u[0] == ','))
            && (ok ==> start < index <= |bytes| && (more <==> u[0] == ',')
                       && bytes[index..] == if more then SkipSpace(u[1..]) else u[1..])
  {
    more := false;
    index := SkipSpaceAt(bytes, start);
    if index == |bytes| { return false, false, index; }
    assert bytes[index..][1..] == bytes[index + 1..];
    more := bytes[index] == ',';
    ok := more || bytes[index] == closing;
    if more {
      index := SkipSpaceAt(bytes, index + 1);
    } else if ok {
      index := index + 1;
    }
  }

  /** The loop over the elements of an array. */
  method SkipElementsAt(bytes: string, start: nat, depth: nat) returns (ok: bool, index: nat)
    requires start <= |bytes|
    ensures ok == SkipElements(bytes[start..], depth).Some?
    ensures ok ==> start < index <= |bytes| && SkipElements(bytes[start..], depth) == Some(bytes[index..])
    decreases |bytes| - start, 1
  {
    var more;
    index := start;
    while true
      invariant start <= index <= |bytes|
      invariant SkipElements(bytes[start..], depth) == SkipElements(bytes[index..], depth)
      decreases |bytes| - index
    {
      ghost var from := index;
      ok, index := SkipValueAt(bytes, index, depth + 1);
      if !ok { return; }
      ok, more, index := AfterValueAt(bytes, index, ']');
      if !ok || !more { return; }
    }
  }

  lemma {:induction false} SkippedIsSkipped(s: string)
    ensures SkipSpace(SkipSpace(s)) == SkipSpace(s)
  {
    if s != "" && IsJsonSpace(s[0]) { SkippedIsSkipped(s[1..]); }
  }

  /** `top_level_json_string_field`. */
  method TopLevelField(bytes: string, field: string) returns (r: Field)
    ensures r == TopField(bytes, field)
  {
    assert bytes[0..] == bytes;
    var index := SkipSpaceAt(bytes, 0);
    if index == |bytes| || bytes[index] != '{' { return Malformed; }
    assert bytes[index..][1..] == bytes[index + 1..];
    index := index + 1;
    var value: Option<string> := None;
    var done := false;
    r := Malformed;
    while !done
      invariant index <= |bytes|
      invariant TopField(bytes, field) == if done then r else TopMembers(bytes[index..], field, value)
      decreases !done, |bytes| - index
    {
      done, r, value, index := TopStep(bytes, index, field, value);
    }
  }

  /** One round of the loop over the top-level object; `r` counts once it is done. */
  method TopStep(bytes: string, start: nat, field: string, value: Option<string>)
    returns (done: bool, r: Field, newer: Option<string>, index: nat)
    requires start <= |bytes|
    ensures !done ==> start < index
    ensures index <= |bytes|
    ensures TopMembers(bytes[start..], field, value) == if done then r else TopMembers(bytes[index..], field, newer)
  {
    done, r, newer := true, Malformed, value;
    SkippedIsSkipped(bytes[start..]);
    index := SkipSpaceAt(bytes, start);
    if index < |bytes| && bytes[index] == '}' {
      r := CloseAt(bytes, index, value);
      return;
    }
    TopMembersSkips(bytes[start..], field, value);
    var ok, next;
    ok, newer, next := TopMemberAt(bytes, index, field, value);
    if ok { done, r, index := TopRestAt(bytes, next, field, newer); }
  }

  method TopRestAt(bytes: string, start: nat, field: string, value: Option<string>)
    returns (done: bool, r: Field, index: nat)
    requires start <= |bytes|
    ensures !done ==> start < index
    ensures index <= |bytes|
    ensures TopRest(bytes[start..], field, value) == if done then r else TopMembers(bytes[index..], field, value)
  {
    done, r := true, Malformed;
    index := SkipSpaceAt(bytes, start);
    if index == |bytes| { return; }
    if bytes[index] == '}' {
      r := CloseAt(bytes, index, value);
    } else if bytes[index] == ',' {
      assert bytes[index..][1..] == bytes[index + 1..];
      done, index := false, index + 1;
    }
  }

  lemma {:induction false} TopMembersSkips(s: string, field: string, value: Option<string>)
    ensures TopMembers(SkipSpace(s), field, value) == TopMembers(s, field, value)
  {
    SkippedIsSkipped(s);
  }

  /** The closing brace of the top-level object must be the last thing in the text. */
  method CloseAt(bytes: string, start: nat, value: Option<string>) returns (r: Field)
    requires start < |bytes|
    ensures r == AtEnd(bytes[start..][1..], value)
  {
    assert bytes[start..][1..] == bytes[start + 1..];
    var index := SkipSpaceAt(bytes, start + 1);
    r := if index == |bytes| then Found(value) else Malformed;
  }

  /** One member of the top-level object. */
  method TopMemberAt(bytes: string, start: nat, field: string, value: Option<string>)
    returns (ok: bool, newer: Option<string>, index: nat)
    requires start <= |bytes| && SkipSpace(bytes[start..]) == bytes[start..]
             && (start < |bytes| ==> bytes[start] != '}')
    ensures ok ==> start < index <= |bytes|
    ensures TopMembers(bytes[start..], field, value) == if ok then TopRest(bytes[index..], field, newer) else Malformed
  {
    var key;
    newer := value;
    ok, key, index := ParseKeyAt(bytes, start);
    if !ok { return; }
    index := SkipSpaceAt(bytes, index);
    if key == field {
      var text;
      ok, text, index := ParseStringAt(bytes, index);
      newer := Some(text);
    } else {
      ok, index := SkipValueAt(bytes, index, 0);
    }
  }

  /** `classify_hook_health_payload`: the explicit control status decides; an older hook only has the overall one. */
  function ClassifiedReady(payload: string): bool {
    match TopField(payload, "system_control_status")
    case Found(Some(status)) => status == "active"
    case Found(None) => TopField(payload, "status") == Found(Some("active"))
    case Malformed => false
  }

  method IsReadyForControl(payload: string) returns (ready: bool)
    ensures ready == ClassifiedReady(payload)
  {
    var control := TopLevelField(payload, "system_control_status");
    if control.Malformed? { return false; }
    if control.value.Some? { return control.value.value == "active"; }
    var status := TopLevelField(payload, "status");
    ready := status == Found(Some("active"));
  }
}
