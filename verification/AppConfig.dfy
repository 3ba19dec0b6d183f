/** The legacy app-config file: how a line names an app and its policy, and what a whole file loads as. */
module AppConfig {
  import opened Domain
  import opened Text

  datatype Record = Record(uid: u32, mode: i32, permissive: bool)

  /** A parsed line: the token that names the app, and its policy. */
  datatype Policy = Policy(token: string, mode: i32, permissive: bool)

  /** The package inventory: the UID of an exactly matching package name. */
  type Resolver = string -> Option<u32>

  // ---- Tokens

  /** The position of the first "uid", or the length if there is none. */
  function UidAt(t: string): (n: nat)
    ensures n <= |t| && (n < |t| ==> n + 3 <= |t|)
  {
    if |t| < 3 then |t| else if t[..3] == "uid" then 0 else 1 + UidAt(t[1..])
  }

  /** A UID written as a number or as `<uid>uid<uid>`; a package name is not one. */
  function NumericToken(t: string): Option<u32> {
    if ParseU32(t).Some? then ParseU32(t)
    else
      var n := UidAt(t);
      if n == |t| || !AllDigits(t[..n]) then None
      else
        var left, right := ParseU32(t[..n]), ParseU32(t[n + 3..]);
        if left == right then left else None
  }

  function CanonicalToken(uid: u32): string { Decimal5(uid) + ("uid" + Decimal(uid)) }

  function UidOfToken(t: string, resolve: Resolver): Option<u32> {
    if resolve(t).Some? then resolve(t) else NumericToken(t)
  }

  /** No package bears a name that reads as another app's UID. */
  ghost predicate Honest(resolve: Resolver) {
    forall t: string :: NumericToken(t).Some? && resolve(t).Some? ==> resolve(t) == NumericToken(t)
  }

  lemma {:induction false} UidAfterDigits(d: string, rest: string)
    requires AllDigits(d)
    ensures UidAt(d + ("uid" + rest)) == |d|
  {
    var t := d + ("uid" + rest);
    if d == [] {
      assert t[..3] == "uid";
    } else {
      assert t[..3][0] == d[0] && IsDigit(d[0]);
      UidAfterDigits(d[1..], rest);
      assert t[1..] == d[1..] + ("uid" + rest);
    }
  }

  lemma CanonicalTokenNamesUid(uid: u32)
    ensures NumericToken(CanonicalToken(uid)) == Some(uid) && IsWord(CanonicalToken(uid))
    ensures CanonicalToken(uid)[0] != '#'
  {
    var d, t := Decimal5(uid), CanonicalToken(uid);
    PrintedU32(uid);
    UidAfterDigits(d, Decimal(uid));
    assert t[..|d|] == d && t[|d| + 3..] == Decimal(uid);
    assert IsDigit(d[0]) && t[0] == d[0];
    assert t[|d|] == 'u' && !IsDigit(t[|d|]);
    forall i | 0 <= i < |t| ensures !IsSpace(t[i]) {
      if i < |d| { assert IsDigit(d[i]); }
      if i >= |d| + 3 { assert t[i] == Decimal(uid)[i - |d| - 3] && IsDigit(t[i]); }
    }
  }

  // ---- Lines

  function EndingLength(piece: string): (n: nat)
    ensures n <= |piece| && Blank(piece[|piece| - n..])
  {
    var n := |piece|;
    if n > 1 && piece[n - 2..] == "\r\n" then 2 else if n > 0 && piece[n - 1] == '\n' then 1 else 0
  }

  function Body(piece: string): string { piece[..|piece| - EndingLength(piece)] }

  function Ending(piece: string): string { piece[|piece| - EndingLength(piece)..] }

  /** `parse_legacy_policy_line`; a third field other than "0", or none, means permissive. */
  function ParseLine(line: string): (r: Option<Policy>)
    ensures r.Some? ==> IsWord(r.value.token) && r.value.token[0] != '#'
  {
    var w := Words(line);
    if |w| < 2 || w[0][0] == '#' || ParseI32(w[1]).None? then None
    else Some(Policy(w[0], ParseI32(w[1]).value, |w| < 3 || w[2] != "0"))
  }

  function PolicyOf(piece: string): Option<Policy> { ParseLine(Body(piece)) }

  lemma EndingsDoNotMatter(piece: string)
    ensures PolicyOf(piece) == ParseLine(piece) && ParseLine(piece + "\n") == ParseLine(piece)
    ensures piece == Body(piece) + Ending(piece)
  {
    assert piece == Body(piece) + Ending(piece);
    TrailingSpace(Body(piece), Ending(piece));
    TrailingSpace(piece, "\n");
  }

  function PrintLine(token: string, mode: i32, permissive: bool, ending: string): string {
    token + " " + (PrintI32(mode) + " " + ((if permissive then "1" else "0") + ending))
  }

  lemma PrintedNumberIsWord(n: i32)
    ensures IsWord(PrintI32(n))
  {
    var s := PrintI32(n);
    forall i | 0 <= i < |s| ensures !IsSpace(s[i]) {
      assert IsDigit(s[i]) || s[i] == '-';
    }
  }

  lemma PrintedLineParses(token: string, mode: i32, permissive: bool, ending: string)
    requires IsWord(token) && token[0] != '#' && Blank(ending)
    ensures ParseLine(PrintLine(token, mode, permissive, ending)) == Some(Policy(token, mode, permissive))
  {
    PrintedNumberIsWord(mode);
    PrintedI32(mode);
    WordsOfThree(token, PrintI32(mode), if permissive then "1" else "0", ending);
  }

  // ---- Files

  /** What a line contributes when a file is loaded: a record, and the token it was written with. */
  datatype Loading = Loading(record: Record, token: string)

  type Reader = string -> Option<Loading>

  function Read(piece: string, resolve: Resolver): Option<Loading> {
    var p := PolicyOf(piece);
    if p.None? || UidOfToken(p.value.token, resolve).None? then None
    else Some(Loading(Record(UidOfToken(p.value.token, resolve).value, p.value.mode, p.value.permissive),
      p.value.token))
  }

  function Reading(resolve: Resolver): Reader { (piece: string) => Read(piece, resolve) }

  /** `load_manager_app_config_records` over the lines of a file. */
  function Reload(pieces: seq<string>, read: Reader): seq<Record> {
    if pieces == [] then []
    else
      var n := |pieces| - 1;
      var r := read(pieces[n]);
      Reload(pieces[..n], read) + if r.Some? then [r.value.record] else []
  }

  /** The same lines with the token each was written with. */
  function Loadings(pieces: seq<string>, read: Reader): (r: seq<Loading>)
    ensures |r| == |Reload(pieces, read)|
    ensures forall i :: 0 <= i < |r| ==> r[i].record == Reload(pieces, read)[i]
  {
    if pieces == [] then []
    else
      var n := |pieces| - 1;
      var r := read(pieces[n]);
      Loadings(pieces[..n], read) + if r.Some? then [r.value] else []
  }

  /** `source_tokens_from_legacy_config`: the token that last named each UID. */
  function SourceTokens(pieces: seq<string>, read: Reader): map<u32, string> {
    if pieces == [] then map[]
    else
      var n := |pieces| - 1;
      var r := read(pieces[n]);
      var before := SourceTokens(pieces[..n], read);
      if r.Some? then before[r.value.record.uid := r.value.token] else before
  }

  function Lines(text: Option<string>): seq<string> { if text.Some? then Pieces(text.value) else [] }

  /** UID 0xFFFFFFFF is a placeholder and never stored. */
  function Uids(records: seq<Record>): set<u32> { set r | r in records && r.uid != U32_MAX :: r.uid }

  ghost predicate Distinct(records: seq<Record>) {
    forall i, j :: 0 <= i < j < |records| ==> records[i].uid != records[j].uid
  }

  function Within(tokens: map<u32, string>, uids: set<u32>): map<u32, string> {
    map uid | uid in tokens && uid in uids :: tokens[uid]
  }

  /** Memory holds what the file says: the records in order, and the token behind each of them. */
  ghost predicate Loaded(text: Option<string>, read: Reader, records: seq<Record>, tokens: map<u32, string>) {
    && records == Reload(Lines(text), read)
    && Within(tokens, Uids(records)) == Within(SourceTokens(Lines(text), read), Uids(records))
  }

  // ---- Merging a request into the records

  /** The last record of a UID. */
  function Lookup(records: seq<Record>, uid: u32): (r: Option<Record>)
    ensures r.Some? ==> r.value in records && r.value.uid == uid
    ensures r.None? ==> forall i :: 0 <= i < |records| ==> records[i].uid != uid
  {
    if records == [] then None
    else
      var n := |records| - 1;
      if records[n].uid == uid then Some(records[n]) else Lookup(records[..n], uid)
  }

  function Updated(r: Record, wanted: seq<Record>): Record {
    if r.uid != U32_MAX && Lookup(wanted, r.uid).Some? then Lookup(wanted, r.uid).value else r
  }

  function UpdatedAll(records: seq<Record>, wanted: seq<Record>): seq<Record> {
    seq(|records|, i requires 0 <= i < |records| => Updated(records[i], wanted))
  }

  function Others(requested: seq<Record>, records: seq<Record>): (r: seq<Record>)
    ensures forall i :: 0 <= i < |r| ==> r[i] in requested && r[i].uid != U32_MAX
    ensures forall i, x :: 0 <= i < |r| && x in records ==> r[i].uid != x.uid
  {
    if requested == [] then []
    else
      var last := requested[|requested| - 1];
      Others(requested[..|requested| - 1], records)
      + if last.uid != U32_MAX && (forall x :: x in records ==> x.uid != last.uid) then [last] else []
  }

  /** `merge_app_config_records`. */
  function Merge(records: seq<Record>, requested: seq<Record>): seq<Record> {
    UpdatedAll(records, requested) + Others(requested, records)
  }

  /** What a merge leaves of the old records: their order and UIDs, and the placeholder untouched. */
  ghost predicate Extends(before: seq<Record>, after: seq<Record>) {
    && |before| <= |after|
    && (forall i :: 0 <= i < |before| ==> after[i].uid == before[i].uid)
    && (forall i :: 0 <= i < |before| && before[i].uid == U32_MAX ==> after[i] == before[i])
    && (forall j :: |before| <= j < |after| ==> after[j].uid != U32_MAX)
    && (forall i, j :: 0 <= i < |before| <= j < |after| ==> before[i].uid != after[j].uid)
  }

  lemma MergeExtends(records: seq<Record>, requested: seq<Record>)
    ensures Extends(records, Merge(records, requested))
  {
  }

  lemma MergeStaysDistinct(records: seq<Record>, requested: seq<Record>)
    requires Distinct(records) && Distinct(requested)
    ensures Distinct(Merge(records, requested))
  {
    OthersDistinct(requested, records);
    var merged, others := Merge(records, requested), Others(requested, records);
    forall i, j | 0 <= i < j < |merged| ensures merged[i].uid != merged[j].uid {
      if j < |records| {
        assert merged[i].uid == records[i].uid && merged[j].uid == records[j].uid;
      } else {
        assert merged[j] == others[j - |records|];
        if i < |records| { assert merged[i].uid == records[i].uid && records[i] in records; }
        else { assert merged[i] == others[i - |records|]; }
      }
    }
  }

  /** A request decides every app it names, and no other: of several records of one UID the last one counts. */
  lemma {:induction false} MergeObeysRequest(records: seq<Record>, requested: seq<Record>, uid: u32)
    requires uid != U32_MAX
    ensures Lookup(Merge(records, requested), uid)
            == if Lookup(requested, uid).Some? then Lookup(requested, uid) else Lookup(records, uid)
  {
    LookupConcat(UpdatedAll(records, requested), Others(requested, records), uid);
    LookupUpdated(records, requested, uid);
    LookupOthers(requested, records, uid);
  }

  lemma {:induction false} LookupConcat(a: seq<Record>, b: seq<Record>, uid: u32)
    ensures Lookup(a + b, uid) == if Lookup(b, uid).Some? then Lookup(b, uid) else Lookup(a, uid)
  {
    if b == [] {
      assert a + b == a;
    } else {
      var n := |b| - 1;
      assert (a + b)[..|a| + n] == a + b[..n];
      LookupConcat(a, b[..n], uid);
    }
  }

  lemma {:induction false} LookupUpdated(records: seq<Record>, wanted: seq<Record>, uid: u32)
    ensures var r := Lookup(records, uid);
            Lookup(UpdatedAll(records, wanted), uid) == if r.Some? then Some(Updated(r.value, wanted)) else None
  {
    if records == [] {
    } else {
      var n := |records| - 1;
      assert UpdatedAll(records, wanted)[..n] == UpdatedAll(records[..n], wanted);
      LookupUpdated(records[..n], wanted, uid);
    }
  }

  lemma {:induction false} LookupSnoc(records: seq<Record>, last: seq<Record>, uid: u32)
    requires |last| <= 1
    ensures Lookup(records + last, uid) == if last != [] && last[0].uid == uid then Some(last[0])
            else Lookup(records, uid)
  {
    if last == [] { assert records + last == records; } else { assert (records + last)[..|records|] == records; }
  }

  lemma {:induction false} KnownIffFound(records: seq<Record>, uid: u32)
    ensures (forall x :: x in records ==> x.uid != uid) <==> Lookup(records, uid).None?
  {
  }

  lemma {:induction false} LookupOthers(requested: seq<Record>, records: seq<Record>, uid: u32)
    requires uid != U32_MAX
    ensures Lookup(Others(requested, records), uid)
            == if Lookup(records, uid).Some? then None else Lookup(requested, uid)
  {
    if requested == [] {
    } else {
      var n := |requested| - 1;
      var last := requested[n];
      LookupOthers(requested[..n], records, uid);
      KnownIffFound(records, last.uid);
      var fresher := if last.uid != U32_MAX && Lookup(records, last.uid).None? then [last] else [];
      assert Others(requested, records) == Others(requested[..n], records) + fresher;
      LookupSnoc(Others(requested[..n], records), fresher, uid);
    }
  }

  lemma {:induction false} LookupAt(records: seq<Record>, i: nat)
    requires Distinct(records) && i < |records|
    ensures Lookup(records, records[i].uid) == Some(records[i])
  {
    var r := Lookup(records, records[i].uid);
    var j :| 0 <= j < |records| && records[j] == r.value;
  }

  lemma {:induction false} OthersDistinct(requested: seq<Record>, records: seq<Record>)
    requires Distinct(requested)
    ensures Distinct(Others(requested, records))
  {
    if requested == [] {
    } else {
      var n := |requested| - 1;
      OthersDistinct(requested[..n], records);
      assert forall i :: 0 <= i < |Others(requested[..n], records)| ==>
        Others(requested[..n], records)[i] in requested[..n];
    }
  }
}
