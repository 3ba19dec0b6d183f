/** Writing the config back and loading it again gives the merged records, and the user's lines survive. */
module RewriteTheorems {
  import opened Domain
  import opened Text
  import opened AppConfig
  import opened ConfigRewrite

  // ---- Lines and the records they load as

  lemma {:induction false} LineIsLoaded(pieces: seq<string>, read: Reader, i: nat)
    requires i < |pieces| && read(pieces[i]).Some?
    ensures read(pieces[i]).value in Loadings(pieces, read)
    ensures read(pieces[i]).value.record in Reload(pieces, read)
    ensures read(pieces[i]).value.record.uid in SourceTokens(pieces, read)
  {
    var n := |pieces| - 1;
    if i == n {
    } else {
      LineIsLoaded(pieces[..n], read, i);
    }
  }

  lemma {:induction false} LoadedFromLine(pieces: seq<string>, read: Reader, l: Loading) returns (i: nat)
    requires l in Loadings(pieces, read)
    ensures i < |pieces| && read(pieces[i]) == Some(l)
  {
    var n := |pieces| - 1;
    if read(pieces[n]) == Some(l) { i := n; } else { i := LoadedFromLine(pieces[..n], read, l); }
  }

  /** The token remembered for a UID is the one of its last line. */
  lemma {:induction false} LastLine(pieces: seq<string>, read: Reader, uid: u32) returns (i: nat)
    requires uid in SourceTokens(pieces, read)
    ensures i < |pieces| && read(pieces[i]).Some? && read(pieces[i]).value.record.uid == uid
    ensures read(pieces[i]).value.token == SourceTokens(pieces, read)[uid]
    ensures forall j :: i < j < |pieces| && read(pieces[j]).Some? ==> read(pieces[j]).value.record.uid != uid
  {
    var n := |pieces| - 1;
    var r := read(pieces[n]);
    if r.Some? && r.value.record.uid == uid {
      i := n;
    } else {
      i := LastLine(pieces[..n], read, uid);
      assert forall j :: i < j < n ==> pieces[j] == pieces[..n][j];
    }
  }

  // ---- Which lines are anchored

  /** A line the daemon recognises again: its token is the one last used for its UID, or a number. */
  predicate Anchored(l: Loading, last: map<u32, string>) {
    (l.record.uid in last && last[l.record.uid] == l.token) || NumericToken(l.token).Some?
  }

  /** The UID an anchored line is stored under. */
  function AnchoredUid(piece: string, read: Reader, last: map<u32, string>): Option<u32> {
    var r := read(piece);
    if r.Some? && r.value.record.uid != U32_MAX && Anchored(r.value, last) then Some(r.value.record.uid) else None
  }

  function AnchoredUids(pieces: seq<string>, read: Reader, last: map<u32, string>): (r: seq<Option<u32>>)
    ensures |r| == |pieces|
  {
    seq(|pieces|, i requires 0 <= i < |pieces| => AnchoredUid(pieces[i], read, last))
  }

  lemma {:induction false} OwnerIsNamed(pieces: seq<string>, resolve: Resolver, known: set<u32>, t: string)
    ensures var owner := Owner(Within(SourceTokens(pieces, Reading(resolve)), known), t);
            owner.Some? ==> owner == UidOfToken(t, resolve)
  {
    var owner := Owner(Within(SourceTokens(pieces, Reading(resolve)), known), t);
    if owner.Some? { var j := LastLine(pieces, Reading(resolve), owner.value); }
  }

  /** A line is anchored to the UID it was loaded under, or to none. */
  lemma AnchorIsStoredUid(text: Option<string>, resolve: Resolver, records: seq<Record>, tokens: map<u32, string>,
                          i: nat)
    requires Loaded(text, Reading(resolve), records, tokens) && Honest(resolve) && i < |Lines(text)|
    ensures Anchor(Within(tokens, Uids(records)), Uids(records), Lines(text)[i])
            == AnchoredUid(Lines(text)[i], Reading(resolve), SourceTokens(Lines(text), Reading(resolve)))
  {
    var pieces, known, read := Lines(text), Uids(records), Reading(resolve);
    var last := SourceTokens(pieces, read);
    var kept, p := Within(last, known), PolicyOf(pieces[i]);
    assert Within(tokens, Uids(records)) == kept;
    if p.Some? {
      var t := p.value.token;
      OwnerIsNamed(pieces, resolve, known, t);
      var uid := UidOfToken(t, resolve);
      if uid.Some? {
        LineIsLoaded(pieces, read, i);
        if uid.value != U32_MAX {
          assert uid.value in kept && (Owner(kept, t) == uid <==> kept[uid.value] == t);
        }
      }
    }
  }

  lemma AnchorsAreStoredUids(text: Option<string>, resolve: Resolver, records: seq<Record>, tokens: map<u32, string>)
    requires Loaded(text, Reading(resolve), records, tokens) && Honest(resolve)
    ensures Anchors(Within(tokens, Uids(records)), Uids(records), Lines(text))
            == AnchoredUids(Lines(text), Reading(resolve), SourceTokens(Lines(text), Reading(resolve)))
  {
    forall i | 0 <= i < |Lines(text)|
      ensures Anchor(Within(tokens, Uids(records)), Uids(records), Lines(text)[i])
              == AnchoredUid(Lines(text)[i], Reading(resolve), SourceTokens(Lines(text), Reading(resolve)))
    {
      AnchorIsStoredUid(text, resolve, records, tokens, i);
    }
  }

  lemma {:induction false} EveryUidHasToken(pieces: seq<string>, read: Reader)
    ensures Within(SourceTokens(pieces, read), Uids(Reload(pieces, read))).Keys == Uids(Reload(pieces, read))
  {
    forall uid | uid in Uids(Reload(pieces, read)) ensures uid in SourceTokens(pieces, read) {
      UidIsLoaded(pieces, read, uid);
    }
  }

  lemma {:induction false} UidIsLoaded(pieces: seq<string>, read: Reader, uid: u32)
    requires uid in Uids(Reload(pieces, read))
    ensures uid in SourceTokens(pieces, read)
  {
    var k :| 0 <= k < |Reload(pieces, read)| && Reload(pieces, read)[k].uid == uid;
    var i := LoadedFromLine(pieces, read, Loadings(pieces, read)[k]);
    LineIsLoaded(pieces, read, i);
  }

  /** So nothing is placed by position. */
  lemma {:induction false} NothingRemains(text: Option<string>, read: Reader, records: seq<Record>, matched: set<u32>)
    requires Loaded(text, read, records, map[])
    ensures Remaining(records, matched) == []
  {
    EveryUidHasToken(Lines(text), read);
    assert Within(map[], Uids(records)).Keys == {};
    forall i | 0 <= i < |records| ensures records[i].uid == U32_MAX {
      assert records[i].uid !in Uids(records);
    }
    NoUidsNoneRemain(records, matched);
  }

  lemma {:induction false} NoUidsNoneRemain(records: seq<Record>, matched: set<u32>)
    requires forall i :: 0 <= i < |records| ==> records[i].uid == U32_MAX
    ensures Remaining(records, matched) == []
  {
    if records == [] {
    } else {
      NoUidsNoneRemain(records[..|records| - 1], matched);
    }
  }

  // ---- The noted tokens are the remembered ones

  lemma {:induction false} NotingKeepsKeys(tokens: map<u32, string>, pieces: seq<string>, uids: seq<Option<u32>>)
    requires |uids| == |pieces|
    requires forall i :: 0 <= i < |pieces| && uids[i].Some? ==> uids[i].value in tokens
    ensures NoteTokens(tokens, pieces, uids).Keys == tokens.Keys
  {
    if pieces == [] {
    } else {
      var n := |pieces| - 1;
      NotingKeepsKeys(tokens, pieces[..n], uids[..n]);
    }
  }

  /** The last line noted for a UID decides its token. */
  lemma {:induction false} LastNoted(tokens: map<u32, string>, pieces: seq<string>, uids: seq<Option<u32>>, i: nat)
    requires |uids| == |pieces| && i < |pieces| && uids[i].Some? && PolicyOf(pieces[i]).Some?
    requires forall j :: i < j < |pieces| ==> uids[j] != uids[i]
    ensures var noted := NoteTokens(tokens, pieces, uids);
            uids[i].value in noted && noted[uids[i].value] == PolicyOf(pieces[i]).value.token
  {
    var n := |pieces| - 1;
    if i == n {
    } else {
      assert uids[..n][i] == uids[i] && uids[n] != uids[i];
      LastNoted(tokens, pieces[..n], uids[..n], i);
      if uids[n].Some? { assert uids[n].value != uids[i].value; }
    }
  }

  lemma {:induction false} NotingNothing(tokens: map<u32, string>, pieces: seq<string>, uids: seq<Option<u32>>)
    requires |uids| == |pieces| && forall i :: 0 <= i < |uids| ==> uids[i] == None
    ensures NoteTokens(tokens, pieces, uids) == tokens
  {
    if pieces == [] {
    } else {
      var n := |pieces| - 1;
      NotingNothing(tokens, pieces[..n], uids[..n]);
    }
  }

  /** The last line of a stored UID is anchored, and no later line is anchored to it. */
  lemma LastLineIsAnchored(pieces: seq<string>, read: Reader, uid: u32) returns (i: nat)
    requires uid in Uids(Reload(pieces, read))
    ensures i < |pieces| && read(pieces[i]).Some?
            && AnchoredUid(pieces[i], read, SourceTokens(pieces, read)) == Some(uid)
    ensures uid in SourceTokens(pieces, read) && read(pieces[i]).value.token == SourceTokens(pieces, read)[uid]
    ensures forall j :: i < j < |pieces| ==> AnchoredUid(pieces[j], read, SourceTokens(pieces, read)) != Some(uid)
  {
    UidIsLoaded(pieces, read, uid);
    i := LastLine(pieces, read, uid);
  }

  lemma KeptTokensAreNoted(text: Option<string>, resolve: Resolver, records: seq<Record>, tokens: map<u32, string>)
    requires Loaded(text, Reading(resolve), records, tokens)
    ensures var kept, last := Within(tokens, Uids(records)), SourceTokens(Lines(text), Reading(resolve));
            NoteTokens(kept, Lines(text), AnchoredUids(Lines(text), Reading(resolve), last)) == kept
  {
    var pieces, kept, read := Lines(text), Within(tokens, Uids(records)), Reading(resolve);
    var last := SourceTokens(pieces, read);
    var uids := AnchoredUids(pieces, read, last);
    EveryUidHasToken(pieces, read);
    forall i | 0 <= i < |pieces| && uids[i].Some? ensures uids[i].value in kept {
      LineIsLoaded(pieces, read, i);
    }
    NotingKeepsKeys(kept, pieces, uids);
    forall uid | uid in kept ensures NoteTokens(kept, pieces, uids)[uid] == kept[uid] {
      var i := LastLineIsAnchored(pieces, read, uid);
      LastNoted(kept, pieces, uids, i);
      assert kept[uid] == Within(last, Uids(records))[uid];
    }
  }

  // ---- What the rewritten lines load as

  /** What a stored line loads as once the file is rewritten: anchored, it follows a change of the last record. */
  function Rewritten(l: Loading, last: map<u32, string>, before: seq<Record>, after: seq<Record>): Record {
    var was, now := Lookup(before, l.record.uid), Lookup(after, l.record.uid);
    if l.record.uid != U32_MAX && Anchored(l, last) && was.Some? && now.Some? && now != was then now.value else l.record
  }

  function Rewriting(last: map<u32, string>, before: seq<Record>, after: seq<Record>): Loading -> Record {
    (l: Loading) => Rewritten(l, last, before, after)
  }

  function Mapped(ls: seq<Loading>, f: Loading -> Record): (r: seq<Record>)
    ensures |r| == |ls|
  {
    seq(|ls|, i requires 0 <= i < |ls| => f(ls[i]))
  }

  /** A line that loads still does, as `f` says, with its UID and token; no other line loads. */
  predicate Follows(piece: string, newer: string, read: Reader, f: Loading -> Record) {
    var r := read(piece);
    if r.None? then read(newer).None?
    else read(newer) == Some(Loading(f(r.value), r.value.token)) && f(r.value).uid == r.value.record.uid
  }

  lemma NewPieceFollows(piece: string, resolve: Resolver, last: map<u32, string>, before: seq<Record>,
                        after: seq<Record>)
    ensures Follows(piece, NewPiece(piece, AnchoredUid(piece, Reading(resolve), last), before, after), Reading(resolve),
                    Rewriting(last, before, after))
  {
    var r := Read(piece, resolve);
    if r.Some? {
      var now := Rewritten(r.value, last, before, after);
      ReprintedLineReads(piece, resolve, now.mode, now.permissive);
    }
  }

  lemma ReprintedLineReads(piece: string, resolve: Resolver, mode: i32, permissive: bool)
    requires Read(piece, resolve).Some?
    ensures var l := Read(piece, resolve).value;
            Read(PrintLine(l.token, mode, permissive, Ending(piece)), resolve)
            == Some(Loading(Record(l.record.uid, mode, permissive), l.token))
  {
    var token := Read(piece, resolve).value.token;
    PrintedLineParses(token, mode, permissive, Ending(piece));
    EndingsDoNotMatter(PrintLine(token, mode, permissive, Ending(piece)));
  }

  lemma MappedSnoc(ls: seq<Loading>, l: Loading, f: Loading -> Record)
    ensures Mapped(ls + [l], f) == Mapped(ls, f) + [f(l)]
  {
  }

  lemma {:induction false} NewPiecesLoad(pieces: seq<string>, newer: seq<string>, read: Reader, f: Loading -> Record)
    requires |newer| == |pieces|
    requires forall i :: 0 <= i < |pieces| ==> Follows(pieces[i], newer[i], read, f)
    ensures Reload(newer, read) == Mapped(Loadings(pieces, read), f)
    ensures SourceTokens(newer, read) == SourceTokens(pieces, read)
  {
    if pieces == [] {
    } else {
      var n := |pieces| - 1;
      NewPiecesLoad(pieces[..n], newer[..n], read, f);
      assert Follows(pieces[n], newer[n], read, f);
      if read(pieces[n]).Some? { MappedSnoc(Loadings(pieces[..n], read), read(pieces[n]).value, f); }
    }
  }

  // ---- Text: rewritten and appended lines are lines again

  lemma EndingOf(body: string, ending: string)
    requires ending == "" || ending == "\n" || ending == "\r\n"
    requires body != [] && body[|body| - 1] != '\n' && body[|body| - 1] != '\r'
    ensures Ending(body + ending) == ending && Body(body + ending) == body
  {
    var p := body + ending;
    if ending == "\n" {
      assert p[|p| - 2..][0] == body[|body| - 1];
    } else if ending == "\r\n" {
      assert p[|p| - 2..] == ending;
    } else {
      assert p == body;
      if |p| > 1 { assert p[|p| - 2..][1] == p[|p| - 1]; }
    }
  }

  lemma WordHasNoNewline(w: string)
    requires IsWord(w)
    ensures forall i :: 0 <= i < |w| ==> w[i] != '\n' && w[i] != '\r'
  {
    forall i | 0 <= i < |w| ensures w[i] != '\n' && w[i] != '\r' {
      assert !IsSpace(w[i]);
    }
  }

  function Fields(token: string, mode: i32, permissive: bool): string {
    token + " " + (PrintI32(mode) + " " + (if permissive then "1" else "0"))
  }

  predicate NoBreak(s: string) { forall i :: 0 <= i < |s| ==> s[i] != '\n' && s[i] != '\r' }

  lemma FieldsHaveNoBreak(token: string, mode: i32, permissive: bool)
    requires IsWord(token)
    ensures NoBreak(Fields(token, mode, permissive)) && Fields(token, mode, permissive) != []
  {
    PrintedNumberIsWord(mode);
    WordHasNoNewline(token);
    WordHasNoNewline(PrintI32(mode));
    var flag := if permissive then "1" else "0";
    NoBreakConcat(PrintI32(mode) + " ", flag);
    NoBreakConcat(token, " ");
    NoBreakConcat(PrintI32(mode), " ");
    assert PrintI32(mode) + (" " + flag) == (PrintI32(mode) + " ") + flag;
    NoBreakConcat(token + " ", PrintI32(mode) + " " + flag);
  }

  lemma NoBreakConcat(a: string, b: string)
    requires NoBreak(a) && NoBreak(b)
    ensures NoBreak(a + b)
  {
  }

  lemma EndedIsPiece(body: string, ending: string)
    requires NoBreak(body) && body != [] && (ending == "" || ending == "\n" || ending == "\r\n")
    ensures var line := body + ending;
            && IsPiece(line) && Ending(line) == ending && (Terminated(line) <==> ending != "")
            && (ending == "" ==> Last(line) != '\r')
  {
    EndingOf(body, ending);
  }

  lemma PrintedLineIsPiece(token: string, mode: i32, permissive: bool, ending: string)
    requires IsWord(token) && (ending == "" || ending == "\n" || ending == "\r\n")
    ensures var line := PrintLine(token, mode, permissive, ending);
            && IsPiece(line) && Ending(line) == ending && (Terminated(line) <==> ending != "")
            && (ending == "" ==> Last(line) != '\r')
  {
    FieldsHaveNoBreak(token, mode, permissive);
    EndedIsPiece(Fields(token, mode, permissive), ending);
    assert PrintLine(token, mode, permissive, ending) == Fields(token, mode, permissive) + ending;
  }

  lemma EndingKinds(piece: string)
    ensures Ending(piece) == "" || Ending(piece) == "\n" || Ending(piece) == "\r\n"
    ensures Terminated(piece) <==> Ending(piece) != ""
  {
    if |piece| > 1 { assert piece[|piece| - 2..][1] == piece[|piece| - 1]; }
  }

  predicate SameToken(a: string, b: string) {
    PolicyOf(a).Some? && PolicyOf(b).Some? && PolicyOf(a).value.token == PolicyOf(b).value.token
  }

  lemma NewPieceIsPiece(piece: string, uid: Option<u32>, before: seq<Record>, after: seq<Record>)
    requires IsPiece(piece)
    ensures var newer := NewPiece(piece, uid, before, after);
            && IsPiece(newer) && (Terminated(newer) <==> Terminated(piece)) && Ending(newer) == Ending(piece)
            && (newer != piece ==> SameToken(piece, newer) && Last(newer) != '\r')
  {
    if NewPiece(piece, uid, before, after) != piece {
      var was := Lookup(before, uid.value).value;
      var now := if Lookup(after, uid.value).Some? then Lookup(after, uid.value).value else was;
      var token := PolicyOf(piece).value.token;
      EndingKinds(piece);
      PrintedLineIsPiece(token, now.mode, now.permissive, Ending(piece));
      PrintedLineParses(token, now.mode, now.permissive, Ending(piece));
      EndingsDoNotMatter(PrintLine(token, now.mode, now.permissive, Ending(piece)));
    }
  }

  lemma NewPiecesArePieces(pieces: seq<string>, uids: seq<Option<u32>>, before: seq<Record>, after: seq<Record>)
    requires |uids| == |pieces| && ArePieces(pieces)
    ensures ArePieces(NewPieces(pieces, uids, before, after))
  {
    forall i | 0 <= i < |pieces|
      ensures IsPiece(NewPiece(pieces[i], uids[i], before, after))
      ensures Terminated(NewPiece(pieces[i], uids[i], before, after)) <==> Terminated(pieces[i])
    {
      NewPieceIsPiece(pieces[i], uids[i], before, after);
    }
  }

  /** The lines of a text that gets one more line. */
  function WithLine(pieces: seq<string>, line: string): (r: seq<string>)
    ensures |r| == |pieces| + 1
  {
    ClosedPieces(pieces) + [line]
  }

  function ClosedPieces(pieces: seq<string>): (r: seq<string>)
    ensures |r| == |pieces|
  {
    var n := |pieces|;
    if n > 0 && Open(pieces[n - 1]) then pieces[..n - 1] + [pieces[n - 1] + "\n"] else pieces
  }

  lemma {:induction false} JoinedClosed(front: seq<string>, p: string)
    requires p != []
    ensures Joined(ClosedPieces(front + [p])) == Closed(Joined(front + [p]))
  {
    ClosedSnoc(front, p);
    ClosedConcat(Joined(front), p);
    JoinedSnoc(front, p);
    JoinedSnoc(front, Closed(p));
  }

  lemma ClosedSnoc(front: seq<string>, p: string)
    ensures ClosedPieces(front + [p]) == front + [Closed(p)]
  {
  }

  lemma ClosedConcat(a: string, p: string)
    requires p != []
    ensures Closed(a + p) == a + Closed(p)
  {
    assert (a + p)[|a + p| - 1] == p[|p| - 1];
    Reassociate(a, p, "\n");
  }

  lemma {:induction false} JoinedSnoc(ps: seq<string>, p: string)
    ensures Joined(ps + [p]) == Joined(ps) + p
  {
    JoinedConcat(ps, [p]);
    JoinedOne(p);
  }

  lemma JoinedOne(p: string)
    ensures Joined([p]) == p
  {
  }

  lemma ClosedArePieces(ps: seq<string>, line: string)
    requires ArePieces(ps) && IsPiece(line)
    ensures ArePieces(WithLine(ps, line))
  {
    var n, r := |ps|, WithLine(ps, line);
    forall i | 0 <= i < n ensures IsPiece(r[i]) && Terminated(r[i]) {
      if i == n - 1 && Open(ps[i]) { assert r[i] == ps[i] + "\n"; } else { assert r[i] == ps[i]; }
    }
  }

  lemma {:induction false} JoinedWithLine(ps: seq<string>, line: string)
    requires ArePieces(ps)
    ensures Joined(WithLine(ps, line)) == Closed(Joined(ps)) + line
  {
    if ps != [] {
      var n := |ps| - 1;
      assert IsPiece(ps[n]) && ps == ps[..n] + [ps[n]];
      JoinedClosed(ps[..n], ps[n]);
    }
    JoinedSnoc(ClosedPieces(ps), line);
  }

  lemma {:induction false} PiecesWithLine(s: string, line: string)
    requires IsPiece(line)
    ensures Pieces(Closed(s) + line) == WithLine(Pieces(s), line)
  {
    PiecesJoin(s);
    PiecesArePieces(s);
    JoinedWithLine(Pieces(s), line);
    ClosedArePieces(Pieces(s), line);
    SplitOfJoined(WithLine(Pieces(s), line));
  }

  /** A reader that ignores a newline at the end and reads a canonical line as its record. */
  ghost predicate Faithful(read: Reader) {
    && (forall p: string :: read(p + "\n") == read(p))
    && (forall r: Record :: IsPiece(NewLine(r)) && read(NewLine(r)) == Some(Loading(r, CanonicalToken(r.uid))))
  }

  lemma ReadingIsFaithful(resolve: Resolver)
    requires Honest(resolve)
    ensures Faithful(Reading(resolve))
  {
    forall p: string ensures Read(p + "\n", resolve) == Read(p, resolve) {
      EndingsDoNotMatter(p);
      EndingsDoNotMatter(p + "\n");
    }
    forall r: Record
      ensures IsPiece(NewLine(r)) && Read(NewLine(r), resolve) == Some(Loading(r, CanonicalToken(r.uid)))
    {
      CanonicalTokenNamesUid(r.uid);
      PrintedLineIsPiece(CanonicalToken(r.uid), r.mode, r.permissive, "\n");
      PrintedLineParses(CanonicalToken(r.uid), r.mode, r.permissive, "\n");
      EndingsDoNotMatter(NewLine(r));
    }
  }

  lemma {:induction false} ClosingLoadsTheSame(pieces: seq<string>, read: Reader)
    requires Faithful(read)
    ensures Reload(ClosedPieces(pieces), read) == Reload(pieces, read)
    ensures SourceTokens(ClosedPieces(pieces), read) == SourceTokens(pieces, read)
  {
    var n := |pieces| - 1;
    if n >= 0 && Open(pieces[n]) {
      assert ClosedPieces(pieces)[..n] == pieces[..n];
      assert read(pieces[n] + "\n") == read(pieces[n]);
    }
  }

  function AllMissing(records: seq<Record>, persisted: set<u32>): seq<Record> {
    if records == [] then []
    else
      var n := |records| - 1;
      AllMissing(records[..n], persisted) + if Missing(records[n], persisted) then [records[n]] else []
  }

  /** Appending adds exactly the missing records to what the file loads as, and their tokens. */
  lemma {:induction false} AppendLoads(s: string, records: seq<Record>, persisted: set<u32>, read: Reader)
    requires Faithful(read)
    ensures Reload(Pieces(AppendTo(s, records, persisted)), read)
            == Reload(Pieces(s), read) + AllMissing(records, persisted)
  {
    if records == [] {
    } else {
      var n := |records| - 1;
      AppendLoads(s, records[..n], persisted, read);
      if Missing(records[n], persisted) {
        LineLoads(AppendTo(s, records[..n], persisted), records[n], read);
        Reassociate(Reload(Pieces(s), read), AllMissing(records[..n], persisted), [records[n]]);
      }
    }
  }

  lemma {:induction false} AppendAddsTokens(s: string, records: seq<Record>, persisted: set<u32>, read: Reader)
    requires Faithful(read)
    ensures SourceTokens(Pieces(AppendTo(s, records, persisted)), read)
            == AppendTokens(SourceTokens(Pieces(s), read), records, persisted)
  {
    if records == [] {
    } else {
      var n := |records| - 1;
      AppendAddsTokens(s, records[..n], persisted, read);
      if Missing(records[n], persisted) { LineLoads(AppendTo(s, records[..n], persisted), records[n], read); }
    }
  }

  lemma {:induction false} LineLoads(q: string, r: Record, read: Reader)
    requires Faithful(read)
    ensures var newer := Pieces(Closed(q) + NewLine(r));
            && Reload(newer, read) == Reload(Pieces(q), read) + [r]
            && SourceTokens(newer, read) == SourceTokens(Pieces(q), read)[r.uid := CanonicalToken(r.uid)]
  {
    var line := NewLine(r);
    assert IsPiece(line) && read(line) == Some(Loading(r, CanonicalToken(r.uid)));
    PiecesWithLine(q, line);
    ClosingLoadsTheSame(Pieces(q), read);
    assert WithLine(Pieces(q), line)[..|Pieces(q)|] == ClosedPieces(Pieces(q));
  }

  lemma {:induction false} NewIsMissing(before: seq<Record>, after: seq<Record>, persisted: set<u32>, j: nat)
    requires |before| <= j < |after| && Extends(before, after)
    requires forall uid :: uid in persisted ==> Lookup(before, uid).Some?
    ensures Missing(after[j], persisted)
  {
    KnownIffFound(before, after[j].uid);
  }

  lemma {:induction false} OnlyNewRecordsAreMissing(before: seq<Record>, after: seq<Record>, persisted: set<u32>,
                                                    n: nat)
    requires |before| <= n <= |after| && Extends(before, after)
    requires forall r :: r in before && r.uid != U32_MAX ==> r.uid in persisted
    requires forall uid :: uid in persisted ==> Lookup(before, uid).Some?
    ensures AllMissing(after[..n], persisted) == after[|before|..n]
  {
    if n == |before| {
      forall i | 0 <= i < n ensures !Missing(after[..n][i], persisted) {
        assert after[i].uid == before[i].uid && before[i] in before;
      }
      NoneMissing(after[..n], persisted);
    } else {
      OnlyNewRecordsAreMissing(before, after, persisted, n - 1);
      NewIsMissing(before, after, persisted, n - 1);
      assert after[..n][..n - 1] == after[..n - 1];
      assert after[|before|..n] == after[|before|..n - 1] + [after[n - 1]];
    }
  }

  lemma {:induction false} NoneMissing(records: seq<Record>, persisted: set<u32>)
    requires forall i :: 0 <= i < |records| ==> !Missing(records[i], persisted)
    ensures AllMissing(records, persisted) == []
  {
    if records == [] {
    } else {
      NoneMissing(records[..|records| - 1], persisted);
    }
  }

  lemma {:induction false} AppendTokensAgree(a: map<u32, string>, b: map<u32, string>, records: seq<Record>,
                                             persisted: set<u32>, uids: set<u32>)
    requires Within(a, uids) == Within(b, uids)
    ensures Within(AppendTokens(a, records, persisted), uids) == Within(AppendTokens(b, records, persisted), uids)
  {
    if records == [] {
    } else {
      var n := |records| - 1;
      AppendTokensAgree(a, b, records[..n], persisted, uids);
      var x, y := AppendTokens(a, records[..n], persisted), AppendTokens(b, records[..n], persisted);
      assert forall uid :: uid in uids ==>
        (uid in x <==> uid in Within(x, uids)) && (uid in y <==> uid in Within(y, uids));
      assert forall uid :: uid in uids && uid in x ==> x[uid] == Within(x, uids)[uid] == Within(y, uids)[uid] == y[uid];
    }
  }

  lemma {:induction false} PersistedMeans(pieces: seq<string>, uids: seq<Option<u32>>, before: seq<Record>)
    requires |uids| == |pieces|
    ensures forall i :: 0 <= i < |pieces| && Rewritable(pieces[i], uids[i], before) ==>
            uids[i].value in Persisted(pieces, uids, before)
    ensures forall uid :: uid in Persisted(pieces, uids, before) ==> Lookup(before, uid).Some?
  {
    if pieces == [] {
    } else {
      var n := |pieces| - 1;
      PersistedMeans(pieces[..n], uids[..n], before);
      forall i | 0 <= i < |pieces| && Rewritable(pieces[i], uids[i], before)
        ensures uids[i].value in Persisted(pieces, uids, before)
      {
        if i < n { assert pieces[..n][i] == pieces[i] && uids[..n][i] == uids[i]; }
      }
    }
  }

  // ---- The theorems

  /** Every stored UID has an anchored line, so only new records are appended. */
  lemma {:induction false} StoredArePersisted(pieces: seq<string>, read: Reader, resolve: Resolver,
                                              records: seq<Record>)
    requires records == Reload(pieces, read) && read == Reading(resolve)
    ensures var persisted := Persisted(pieces, AnchoredUids(pieces, read, SourceTokens(pieces, read)), records);
            && (forall r :: r in records && r.uid != U32_MAX ==> r.uid in persisted)
            && (forall uid :: uid in persisted ==> Lookup(records, uid).Some?)
  {
    var uids := AnchoredUids(pieces, read, SourceTokens(pieces, read));
    PersistedMeans(pieces, uids, records);
    forall r | r in records && r.uid != U32_MAX ensures r.uid in Persisted(pieces, uids, records) {
      var i := LastLineIsAnchored(pieces, read, r.uid);
      KnownIffFound(records, r.uid);
      assert Rewritable(pieces[i], uids[i], records);
    }
  }

  /** What the plan comes to when memory agrees with the file: no line is placed by position. */
  lemma {:induction false} PlanOfLoaded(text: Option<string>, resolve: Resolver, before: seq<Record>,
                                        after: seq<Record>, tokens: map<u32, string>)
    requires Loaded(text, Reading(resolve), before, tokens) && Honest(resolve)
    requires text.None? || after != before
    ensures var pieces, read := Lines(text), Reading(resolve);
            var uids := AnchoredUids(pieces, read, SourceTokens(pieces, read));
            var persisted := Persisted(pieces, uids, before);
            PlanFor(text, before, after, tokens)
            == Plan(Some(AppendTo(Joined(NewPieces(pieces, uids, before, after)), after, persisted)),
                    Within(AppendTokens(Within(tokens, Uids(before)), after, persisted), Uids(after)))
  {
    var pieces, kept, read := Lines(text), Within(tokens, Uids(before)), Reading(resolve);
    AnchorsAreStoredUids(text, resolve, before, tokens);
    var anchors := AnchoredUids(pieces, read, SourceTokens(pieces, read));
    if tokens == map[] { NothingRemains(text, read, before, Matched(anchors)); }
    var extra := Placed(pieces, anchors, []);
    KeptTokensAreNoted(text, resolve, before, tokens);
    NotingNothing(kept, pieces, extra);
    assert Either(anchors, extra) == anchors;
  }

  lemma NewPiecesSplit(text: Option<string>, uids: seq<Option<u32>>, before: seq<Record>, after: seq<Record>)
    requires |uids| == |Lines(text)|
    ensures Pieces(Joined(NewPieces(Lines(text), uids, before, after))) == NewPieces(Lines(text), uids, before, after)
  {
    if text.Some? { PiecesArePieces(text.value); }
    NewPiecesArePieces(Lines(text), uids, before, after);
    SplitOfJoined(NewPieces(Lines(text), uids, before, after));
  }

  lemma {:induction false} NewPiecesFollow(pieces: seq<string>, resolve: Resolver, last: map<u32, string>,
                                           before: seq<Record>, after: seq<Record>)
    ensures var newer := NewPieces(pieces, AnchoredUids(pieces, Reading(resolve), last), before, after);
            && Reload(newer, Reading(resolve))
              == Mapped(Loadings(pieces, Reading(resolve)), Rewriting(last, before, after))
            && SourceTokens(newer, Reading(resolve)) == SourceTokens(pieces, Reading(resolve))
  {
    var read := Reading(resolve);
    var newer := NewPieces(pieces, AnchoredUids(pieces, read, last), before, after);
    forall i | 0 <= i < |pieces| ensures Follows(pieces[i], newer[i], read, Rewriting(last, before, after)) {
      NewPieceFollows(pieces[i], resolve, last, before, after);
    }
    NewPiecesLoad(pieces, newer, read, Rewriting(last, before, after));
  }

  /** What the text of the plan loads as. */
  lemma {:induction false} PlanLoads(text: Option<string>, resolve: Resolver, before: seq<Record>, after: seq<Record>)
    requires before == Reload(Lines(text), Reading(resolve)) && Honest(resolve) && Extends(before, after)
    ensures var pieces, read := Lines(text), Reading(resolve);
            var last := SourceTokens(pieces, read);
            var uids := AnchoredUids(pieces, read, last);
            var persisted := Persisted(pieces, uids, before);
            var payload := AppendTo(Joined(NewPieces(pieces, uids, before, after)), after, persisted);
            && Reload(Pieces(payload), read)
              == Mapped(Loadings(pieces, read), Rewriting(last, before, after)) + after[|before|..]
            && SourceTokens(Pieces(payload), read) == AppendTokens(last, after, persisted)
  {
    var pieces, read := Lines(text), Reading(resolve);
    var last := SourceTokens(pieces, read);
    var uids := AnchoredUids(pieces, read, last);
    var newer, persisted := NewPieces(pieces, uids, before, after), Persisted(pieces, uids, before);
    NewPiecesFollow(pieces, resolve, last, before, after);
    NewPiecesSplit(text, uids, before, after);
    StoredArePersisted(pieces, read, resolve, before);
    OnlyNewRecordsAreMissing(before, after, persisted, |after|);
    assert after[..|after|] == after;
    ReadingIsFaithful(resolve);
    AppendLoads(Joined(newer), after, persisted, read);
    AppendAddsTokens(Joined(newer), after, persisted, read);
  }

  function NewText(text: Option<string>, plan: Plan): Option<string> {
    if plan.payload.Some? then plan.payload else text
  }

  /**
    What the file loads as after a rewrite, repeated UIDs included: the old lines as rewritten, then the new records.
    The token map in memory is again the one the file would give.
   */
  lemma RewriteLoadsAs(text: Option<string>, resolve: Resolver, before: seq<Record>, after: seq<Record>,
                       tokens: map<u32, string>)
    requires Loaded(text, Reading(resolve), before, tokens) && Honest(resolve) && Extends(before, after)
    ensures var pieces, read := Lines(text), Reading(resolve);
            var plan := PlanFor(text, before, after, tokens);
            var newer := Lines(NewText(text, plan));
            && Reload(newer, read)
               == Mapped(Loadings(pieces, read), Rewriting(SourceTokens(pieces, read), before, after))
                 + after[|before|..]
            && Within(plan.tokens, Uids(after)) == Within(SourceTokens(newer, read), Uids(after))
  {
    var pieces, read := Lines(text), Reading(resolve);
    var last := SourceTokens(pieces, read);
    if text.Some? && after == before {
      assert Mapped(Loadings(pieces, read), Rewriting(last, before, after)) + after[|before|..] == before;
      assert Within(Within(tokens, Uids(before)), Uids(before)) == Within(tokens, Uids(before));
    } else {
      var persisted := Persisted(pieces, AnchoredUids(pieces, read, last), before);
      PlanOfLoaded(text, resolve, before, after, tokens);
      PlanLoads(text, resolve, before, after);
      TokensAgree(text, resolve, before, after, tokens, persisted);
    }
  }

  lemma {:induction false} TokensAgree(text: Option<string>, resolve: Resolver, before: seq<Record>, after: seq<Record>,
                                       tokens: map<u32, string>,
                    persisted: set<u32>)
    requires Loaded(text, Reading(resolve), before, tokens)
    ensures var last, kept := SourceTokens(Lines(text), Reading(resolve)), Within(tokens, Uids(before));
            Within(Within(AppendTokens(kept, after, persisted), Uids(after)), Uids(after))
            == Within(AppendTokens(last, after, persisted), Uids(after))
  {
    var last, kept := SourceTokens(Lines(text), Reading(resolve)), Within(tokens, Uids(before));
    forall uid | uid in last && uid != U32_MAX ensures uid in Uids(before) {
      var i := LastLine(Lines(text), Reading(resolve), uid);
      LineIsLoaded(Lines(text), Reading(resolve), i);
    }
    assert Within(kept, Uids(after)) == Within(last, Uids(after)) by {
      assert kept == Within(last, Uids(before));
    }
    AppendTokensAgree(kept, last, after, persisted, Uids(after));
  }

  // ---- Exactly when a rewritten file loads as memory

  /** The file, and what memory holds. */
  datatype Stored = Stored(text: Option<string>, records: seq<Record>, tokens: map<u32, string>)

  function AfterRequest(s: Stored, requested: seq<Record>): Stored {
    var after := Merge(s.records, requested);
    var plan := PlanFor(s.text, s.records, after, s.tokens);
    Stored(NewText(s.text, plan), after, plan.tokens)
  }

  ghost predicate FileIsMemory(s: Stored, read: Reader) { Loaded(s.text, read, s.records, s.tokens) }

  /**
    A stored line comes out as a request wants it: the request leaves its UID alone, the line says it already, or
    the last record of the UID changes and the line is one the daemon recognises.
   */
  predicate Settled(l: Loading, last: map<u32, string>, records: seq<Record>, requested: seq<Record>) {
    var wanted := Lookup(requested, l.record.uid);
    || l.record.uid == U32_MAX || wanted.None? || wanted.value == l.record
    || (Lookup(records, l.record.uid) != wanted && Anchored(l, last))
  }

  lemma SettledMeans(l: Loading, last: map<u32, string>, records: seq<Record>, requested: seq<Record>)
    requires l.record in records
    ensures Settled(l, last, records, requested)
            <==> Rewritten(l, last, records, Merge(records, requested)) == Updated(l.record, requested)
  {
    if l.record.uid != U32_MAX {
      MergeObeysRequest(records, requested, l.record.uid);
      KnownIffFound(records, l.record.uid);
    }
  }

  lemma AllSettledMeans(ls: seq<Loading>, last: map<u32, string>, records: seq<Record>, requested: seq<Record>)
    requires |ls| == |records| && forall i :: 0 <= i < |ls| ==> ls[i].record == records[i]
    ensures (forall l :: l in ls ==> Settled(l, last, records, requested))
            <==> Mapped(ls, Rewriting(last, records, Merge(records, requested))) == UpdatedAll(records, requested)
  {
    var mapped := Mapped(ls, Rewriting(last, records, Merge(records, requested)));
    forall i | 0 <= i < |ls|
      ensures Settled(ls[i], last, records, requested) <==> mapped[i] == UpdatedAll(records, requested)[i]
    {
      SettledMeans(ls[i], last, records, requested);
    }
  }

  predicate AllSettled(s: Stored, requested: seq<Record>, read: Reader) {
    forall l :: l in Loadings(Lines(s.text), read) ==>
      Settled(l, SourceTokens(Lines(s.text), read), s.records, requested)
  }

  /**
    One request on a file that memory was loaded from, with any UIDs repeated: the rewritten file loads as memory
    again exactly if every stored line is settled by the request.
   */
  lemma RewriteReloadsExactly(s: Stored, requested: seq<Record>, resolve: Resolver)
    requires FileIsMemory(s, Reading(resolve)) && Honest(resolve)
    ensures FileIsMemory(AfterRequest(s, requested), Reading(resolve)) <==> AllSettled(s, requested, Reading(resolve))
  {
    var read := Reading(resolve);
    var after, ls, last := Merge(s.records, requested), Loadings(Lines(s.text), read),
      SourceTokens(Lines(s.text), read);
    MergeExtends(s.records, requested);
    RewriteLoadsAs(s.text, resolve, s.records, after, s.tokens);
    AllSettledMeans(ls, last, s.records, requested);
    var n, mapped := |s.records|, Mapped(ls, Rewriting(last, s.records, after));
    assert after[n..] == Others(requested, s.records) && after[..n] == UpdatedAll(s.records, requested);
    assert (mapped + after[n..])[..n] == mapped;
  }

  lemma OneLoadingPerUid(ls: seq<Loading>, records: seq<Record>, a: Loading, b: Loading)
    requires Distinct(records) && |ls| == |records| && forall i :: 0 <= i < |ls| ==> ls[i].record == records[i]
    requires a in ls && b in ls && a.record.uid == b.record.uid
    ensures a == b
  {
    var i :| 0 <= i < |ls| && ls[i] == a;
    var j :| 0 <= j < |ls| && ls[j] == b;
    assert records[i].uid == records[j].uid;
  }

  /** With distinct UIDs every line is anchored, */
  lemma {:induction false} DistinctAreAnchored(pieces: seq<string>, read: Reader, l: Loading)
    requires Distinct(Reload(pieces, read)) && l in Loadings(pieces, read)
    ensures Anchored(l, SourceTokens(pieces, read))
  {
    var i := LoadedFromLine(pieces, read, l);
    LineIsLoaded(pieces, read, i);
    var j := LastLine(pieces, read, l.record.uid);
    LineIsLoaded(pieces, read, j);
    OneLoadingPerUid(Loadings(pieces, read), Reload(pieces, read), l, read(pieces[j]).value);
  }

  lemma DistinctAreRewritten(l: Loading, last: map<u32, string>, before: seq<Record>, after: seq<Record>, k: nat)
    requires Distinct(before) && Extends(before, after) && k < |before| && l.record == before[k] && Anchored(l, last)
    ensures Rewritten(l, last, before, after) == after[k]
  {
    LookupAt(before, k);
    assert after[k].uid == before[k].uid;
    var r := Lookup(after, before[k].uid);
    var j :| 0 <= j < |after| && after[j] == r.value;
    assert j < |before| && before[j].uid == before[k].uid;
  }

  lemma {:induction false} DistinctLoadAsAfter(pieces: seq<string>, read: Reader, before: seq<Record>,
                                               after: seq<Record>)
    requires before == Reload(pieces, read) && Distinct(before) && Extends(before, after)
    ensures Mapped(Loadings(pieces, read), Rewriting(SourceTokens(pieces, read), before, after)) == after[..|before|]
  {
    var ls, last := Loadings(pieces, read), SourceTokens(pieces, read);
    forall k | 0 <= k < |before| ensures Rewritten(ls[k], last, before, after) == after[k] {
      DistinctAreAnchored(pieces, read, ls[k]);
      DistinctAreRewritten(ls[k], last, before, after, k);
    }
  }

  /** so whatever extends the records, the rewritten file loads as that, and may be rewritten again. */
  lemma RewriteReloads(text: Option<string>, resolve: Resolver, before: seq<Record>, after: seq<Record>,
                       tokens: map<u32, string>)
    requires Loaded(text, Reading(resolve), before, tokens) && Distinct(before) && Honest(resolve)
             && Extends(before, after)
    ensures var plan := PlanFor(text, before, after, tokens);
            Loaded(NewText(text, plan), Reading(resolve), after, plan.tokens)
  {
    var pieces, read := Lines(text), Reading(resolve);
    DistinctLoadAsAfter(pieces, read, before, after);
    assert after == after[..|before|] + after[|before|..];
    RewriteLoadsAs(text, resolve, before, after, tokens);
  }

  lemma DistinctSettles(s: Stored, requested: seq<Record>, resolve: Resolver)
    requires FileIsMemory(s, Reading(resolve)) && Distinct(s.records)
    ensures AllSettled(s, requested, Reading(resolve))
  {
    var pieces, read := Lines(s.text), Reading(resolve);
    forall l | l in Loadings(pieces, read) ensures Settled(l, SourceTokens(pieces, read), s.records, requested) {
      var k :| 0 <= k < |s.records| && Loadings(pieces, read)[k] == l;
      DistinctAreAnchored(pieces, read, l);
      LookupAt(s.records, k);
    }
  }

  /** One request: the merged records are what the rewritten file loads as, and may be rewritten again. */
  lemma UpdateStaysLoaded(text: Option<string>, resolve: Resolver, records: seq<Record>, requested: seq<Record>,
                          tokens: map<u32, string>)
    requires Loaded(text, Reading(resolve), records, tokens) && Distinct(records) && Honest(resolve)
             && Distinct(requested)
    ensures var after := Merge(records, requested);
            var plan := PlanFor(text, records, after, tokens);
            && Distinct(after)
            && Loaded(NewText(text, plan), Reading(resolve), after, plan.tokens)
  {
    MergeExtends(records, requested);
    MergeStaysDistinct(records, requested);
    RewriteReloads(text, resolve, records, Merge(records, requested), tokens);
  }

  function AfterRequests(s: Stored, requests: seq<seq<Record>>): Stored {
    if requests == [] then s
    else AfterRequest(AfterRequests(s, requests[..|requests| - 1]), requests[|requests| - 1])
  }

  /** The file loads as memory at the start of a run and after every request of it. */
  ghost predicate RunAgrees(s: Stored, requests: seq<seq<Record>>, read: Reader) {
    && FileIsMemory(AfterRequests(s, requests), read)
    && (requests != [] ==> RunAgrees(s, requests[..|requests| - 1], read))
  }

  /** Every request of a run settles every line it finds. */
  predicate RunSettles(s: Stored, requests: seq<seq<Record>>, read: Reader) {
    requests != [] ==>
      var n := |requests| - 1;
      RunSettles(s, requests[..n], read) && AllSettled(AfterRequests(s, requests[..n]), requests[n], read)
  }

  /** Over any run of requests the file keeps loading as memory exactly while every request settles every line. */
  lemma {:induction false} RunStaysLoadedIff(s: Stored, requests: seq<seq<Record>>, resolve: Resolver)
    requires FileIsMemory(s, Reading(resolve)) && Honest(resolve)
    ensures RunAgrees(s, requests, Reading(resolve)) <==> RunSettles(s, requests, Reading(resolve))
  {
    if requests == [] {
    } else {
      var n := |requests| - 1;
      RunStaysLoadedIff(s, requests[..n], resolve);
      if RunAgrees(s, requests[..n], Reading(resolve)) {
        RewriteReloadsExactly(AfterRequests(s, requests[..n]), requests[n], resolve);
      }
    }
  }

  /** With distinct UIDs in the file and in each request every run does. */
  lemma {:induction false} EveryRunStaysLoaded(s: Stored, requests: seq<seq<Record>>, resolve: Resolver)
    requires FileIsMemory(s, Reading(resolve)) && Distinct(s.records) && Honest(resolve)
    requires forall i :: 0 <= i < |requests| ==> Distinct(requests[i])
    ensures FileIsMemory(AfterRequests(s, requests), Reading(resolve)) && Distinct(AfterRequests(s, requests).records)
  {
    if requests == [] {
    } else {
      var n := |requests| - 1;
      EveryRunStaysLoaded(s, requests[..n], resolve);
      var now := AfterRequests(s, requests[..n]);
      UpdateStaysLoaded(now.text, resolve, now.records, requests[n], now.tokens);
      assert AfterRequests(s, requests) == AfterRequest(now, requests[n]);
    }
  }

  /** A file that is loaded as it is satisfies the invariant. */
  lemma StartIsLoaded(text: Option<string>, resolve: Resolver)
    ensures Loaded(text, Reading(resolve), Reload(Lines(text), Reading(resolve)),
            SourceTokens(Lines(text), Reading(resolve)))
  {
  }

  /**
    From a file alone: loaded, with distinct UIDs, it goes on loading as memory over every run of distinct requests.
   */
  lemma {:induction false} FileRunStaysLoaded(text: Option<string>, requests: seq<seq<Record>>, resolve: Resolver)
    requires Honest(resolve) && Distinct(Reload(Lines(text), Reading(resolve)))
    requires forall i :: 0 <= i < |requests| ==> Distinct(requests[i])
    ensures var read := Reading(resolve);
            var start := Stored(text, Reload(Lines(text), read), SourceTokens(Lines(text), read));
            FileIsMemory(AfterRequests(start, requests), read)
  {
    var read := Reading(resolve);
    StartIsLoaded(text, resolve);
    EveryRunStaysLoaded(Stored(text, Reload(Lines(text), read), SourceTokens(Lines(text), read)), requests, resolve);
  }

  // ---- Without distinct UIDs

  function LineOf(uid: u32, mode: i32): string { NewLine(Record(uid, mode, true)) }

  function TwoLines(uid: u32): seq<string> { [LineOf(uid, 10), LineOf(uid, 20)] }

  lemma TwoPiecesLoad(a: string, b: string, read: Reader)
    requires read(a).Some? && read(b).Some?
    ensures Reload([a, b], read) == [read(a).value.record, read(b).value.record]
    ensures SourceTokens([a, b], read)
            == map[read(a).value.record.uid := read(a).value.token][read(b).value.record.uid := read(b).value.token]
  {
    assert [a, b][..1] == [a] && [a][..0] == [];
    assert Reload([], read) == [] && SourceTokens([], read) == map[];
    assert Reload([a], read) == [read(a).value.record];
    assert SourceTokens([a], read) == map[read(a).value.record.uid := read(a).value.token];
  }

  lemma TwoLinesRead(uid: u32, read: Reader)
    requires Faithful(read)
    ensures Reload(TwoLines(uid), read) == [Record(uid, 10, true), Record(uid, 20, true)]
    ensures SourceTokens(TwoLines(uid), read) == map[uid := CanonicalToken(uid)]
  {
    assert read(LineOf(uid, 10)) == Some(Loading(Record(uid, 10, true), CanonicalToken(uid)));
    assert read(LineOf(uid, 20)) == Some(Loading(Record(uid, 20, true), CanonicalToken(uid)));
    TwoPiecesLoad(LineOf(uid, 10), LineOf(uid, 20), read);
  }

  lemma TwoLinesSplit(uid: u32)
    ensures Pieces(Joined(TwoLines(uid))) == TwoLines(uid)
  {
    LineOfIsPiece(uid, 10);
    LineOfIsPiece(uid, 20);
    SplitOfJoined(TwoLines(uid));
  }

  lemma LineOfIsPiece(uid: u32, mode: i32)
    ensures IsPiece(LineOf(uid, mode)) && Terminated(LineOf(uid, mode))
  {
    CanonicalTokenNamesUid(uid);
    PrintedLineIsPiece(CanonicalToken(uid), mode, true, "\n");
  }

  /** Either line is anchored to the UID, and neither is printed anew. */
  lemma {:induction false} LineOfStays(uid: u32, mode: i32, before: seq<Record>, after: seq<Record>)
    requires uid != U32_MAX && Lookup(before, uid) == Lookup(after, uid) == Some(Record(uid, 20, true))
    ensures Anchor(map[uid := CanonicalToken(uid)], {uid}, LineOf(uid, mode)) == Some(uid)
    ensures Rewritable(LineOf(uid, mode), Some(uid), before)
    ensures NewPiece(LineOf(uid, mode), Some(uid), before, after) == LineOf(uid, mode)
  {
    var tokens := map[uid := CanonicalToken(uid)];
    CanonicalTokenNamesUid(uid);
    PrintedLineParses(CanonicalToken(uid), mode, true, "\n");
    EndingsDoNotMatter(LineOf(uid, mode));
    assert tokens[uid] == CanonicalToken(uid);
  }

  lemma RepeatedMerge(uid: u32)
    requires uid != U32_MAX
    ensures Merge([Record(uid, 10, true), Record(uid, 20, true)], [Record(uid, 20, true)])
            == [Record(uid, 20, true), Record(uid, 20, true)]
  {
    var before, wanted := [Record(uid, 10, true), Record(uid, 20, true)], [Record(uid, 20, true)];
    assert Lookup(wanted, uid) == Some(Record(uid, 20, true));
    assert before[0] in before;
    assert Others(wanted, before) == [];
  }

  lemma {:induction false} RepeatedPlan(uid: u32, before: seq<Record>, after: seq<Record>)
    requires uid != U32_MAX && Uids(before) == {uid} && before != after && forall i :: 0 <= i < |after| ==>
             after[i].uid == uid
    requires Lookup(before, uid) == Lookup(after, uid) == Some(Record(uid, 20, true))
    ensures PlanFor(Some(Joined(TwoLines(uid))), before, after, map[uid := CanonicalToken(uid)]).payload
            == Some(Joined(TwoLines(uid)))
  {
    var ps, tokens := TwoLines(uid), map[uid := CanonicalToken(uid)];
    TwoLinesSplit(uid);
    assert Within(tokens, {uid}) == tokens by { assert uid in tokens; }
    assert tokens != map[] by { assert uid in tokens; }
    RepeatedLines(uid, before, after);
    PlanWithTokens(Joined(ps), ps, before, after, tokens);
    NothingAppended(Joined(ps), after, Persisted(ps, Anchors(tokens, {uid}, ps), before));
  }

  /** With a token map nothing is placed by position. */
  lemma {:induction false} PlanWithTokens(text: string, pieces: seq<string>, before: seq<Record>, after: seq<Record>,
                                          tokens: map<u32, string>)
    requires after != before && tokens != map[] && pieces == Pieces(text)
    ensures var anchors := Anchors(Within(tokens, Uids(before)), Uids(before), pieces);
            PlanFor(Some(text), before, after, tokens).payload
            == Some(AppendTo(Joined(NewPieces(pieces, anchors, before, after)), after,
              Persisted(pieces, anchors, before)))
  {
    var anchors := Anchors(Within(tokens, Uids(before)), Uids(before), pieces);
    assert Either(anchors, Placed(pieces, anchors, [])) == anchors;
  }

  lemma {:induction false} RepeatedLines(uid: u32, before: seq<Record>, after: seq<Record>)
    requires uid != U32_MAX && Lookup(before, uid) == Lookup(after, uid) == Some(Record(uid, 20, true))
    ensures var ps := TwoLines(uid);
            var anchors := Anchors(map[uid := CanonicalToken(uid)], {uid}, ps);
            NewPieces(ps, anchors, before, after) == ps && uid in Persisted(ps, anchors, before)
  {
    var ps := TwoLines(uid);
    LineOfStays(uid, 10, before, after);
    LineOfStays(uid, 20, before, after);
    var anchors := Anchors(map[uid := CanonicalToken(uid)], {uid}, ps);
    assert NewPieces(ps, anchors, before, after) == ps;
    PersistedMeans(ps, anchors, before);
    assert Rewritable(ps[0], anchors[0], before);
  }

  lemma TwoLinesLoaded(uid: u32, resolve: Resolver)
    requires Honest(resolve)
    ensures Loaded(Some(Joined(TwoLines(uid))), Reading(resolve), [Record(uid, 10, true), Record(uid, 20, true)],
            map[uid := CanonicalToken(uid)])
    ensures Reload(Pieces(Joined(TwoLines(uid))), Reading(resolve)) == [Record(uid, 10, true), Record(uid, 20, true)]
  {
    ReadingIsFaithful(resolve);
    TwoLinesRead(uid, Reading(resolve));
    TwoLinesSplit(uid);
  }

  function Twice(uid: u32, first: i32, second: i32): seq<Record> {
    [Record(uid, first, true), Record(uid, second, true)]
  }

  /**
    Two lines for one UID: memory is loaded from the file, a request makes both records mode 20, and yet the first
    line keeps its mode 10, because only the last record of the UID is compared. The file no longer loads as memory.
   */
  lemma RepeatedUidBreaksReload(uid: u32, resolve: Resolver)
    requires Honest(resolve) && uid != U32_MAX
    ensures var text, tokens := Some(Joined(TwoLines(uid))), map[uid := CanonicalToken(uid)];
            && Loaded(text, Reading(resolve), Twice(uid, 10, 20), tokens)
            && Merge(Twice(uid, 10, 20), [Record(uid, 20, true)]) == Twice(uid, 20, 20)
            && PlanFor(text, Twice(uid, 10, 20), Twice(uid, 20, 20), tokens).payload == text
            && Reload(Lines(text), Reading(resolve)) == Twice(uid, 10, 20) != Twice(uid, 20, 20)
  {
    TwoLinesLoaded(uid, resolve);
    RepeatedMerge(uid);
    RepeatedLookup(uid);
    RepeatedPlan(uid, Twice(uid, 10, 20), Twice(uid, 20, 20));
  }

  lemma {:induction false} RepeatedLookup(uid: u32)
    requires uid != U32_MAX
    ensures Uids(Twice(uid, 10, 20)) == {uid}
    ensures Lookup(Twice(uid, 10, 20), uid) == Lookup(Twice(uid, 20, 20), uid) == Some(Record(uid, 20, true))
  {
    assert Twice(uid, 10, 20)[0] in Twice(uid, 10, 20);
  }

  lemma {:induction false} NothingAppended(payload: string, records: seq<Record>, persisted: set<u32>)
    requires forall i :: 0 <= i < |records| ==> !Missing(records[i], persisted)
    ensures AppendTo(payload, records, persisted) == payload
  {
    if records == [] {
    } else {
      NothingAppended(payload, records[..|records| - 1], persisted);
    }
  }

  // ---- The user's lines

  /** The same line, or the same app under the same token and ending; an unended last line may gain a newline. */
  predicate Survives(line: string, newer: string) {
    || newer == line
    || (Open(line) && newer == line + "\n")
    || (SameToken(line, newer) && (Ending(newer) == Ending(line) || (Ending(line) == "" && Ending(newer) == "\n")))
  }

  predicate SameOrClosed(a: string, b: string) { b == a || (Open(a) && b == a + "\n") }

  /** `newer` has the lines of `old`, the last of them perhaps ended now, and then `extra`. */
  predicate Grows(lines: seq<string>, newer: seq<string>, extra: seq<string>) {
    && |newer| == |lines| + |extra| && newer[|lines|..] == extra
    && forall i :: 0 <= i < |lines| ==> SameOrClosed(lines[i], newer[i])
  }

  function NewLines(records: seq<Record>): seq<string> {
    seq(|records|, i requires 0 <= i < |records| => NewLine(records[i]))
  }

  lemma {:induction false} AppendGrows(s: string, records: seq<Record>, persisted: set<u32>)
    ensures Grows(Pieces(s), Pieces(AppendTo(s, records, persisted)), NewLines(AllMissing(records, persisted)))
  {
    if records == [] {
    } else {
      var n := |records| - 1;
      AppendGrows(s, records[..n], persisted);
      if Missing(records[n], persisted) {
        RecordGrows(Pieces(s), AppendTo(s, records[..n], persisted), AllMissing(records[..n], persisted), records[n]);
      }
    }
  }

  lemma NewLinesSnoc(records: seq<Record>, r: Record)
    ensures NewLines(records + [r]) == NewLines(records) + [NewLine(r)]
  {
  }

  lemma NewLinesAreEnded(records: seq<Record>)
    ensures forall i :: 0 <= i < |records| ==> !Open(NewLines(records)[i])
  {
    forall i | 0 <= i < |records| ensures !Open(NewLine(records[i])) { NewLineIsPiece(records[i]); }
  }

  lemma {:induction false} RecordGrows(lines: seq<string>, mid: string, appended: seq<Record>, r: Record)
    requires Grows(lines, Pieces(mid), NewLines(appended))
    ensures Grows(lines, Pieces(Closed(mid) + NewLine(r)), NewLines(appended + [r]))
  {
    NewLineIsPiece(r);
    PiecesWithLine(mid, NewLine(r));
    NewLinesAreEnded(appended);
    NewLinesSnoc(appended, r);
    LineGrows(lines, Pieces(mid), NewLines(appended), NewLine(r));
  }

  lemma LineGrows(lines: seq<string>, newer: seq<string>, extra: seq<string>, line: string)
    requires Grows(lines, newer, extra) && forall i :: 0 <= i < |extra| ==> !Open(extra[i])
    ensures Grows(lines, WithLine(newer, line), extra + [line])
  {
    var n := |newer| - 1;
    if n >= |lines| { assert newer[n] == extra[n - |lines|]; }
    forall i | |lines| <= i < |newer| ensures WithLine(newer, line)[i] == extra[i - |lines|] {
      assert newer[i] == newer[|lines|..][i - |lines|];
    }
  }

  lemma NewLineIsPiece(r: Record)
    ensures IsPiece(NewLine(r)) && !Open(NewLine(r))
  {
    CanonicalTokenNamesUid(r.uid);
    PrintedLineIsPiece(CanonicalToken(r.uid), r.mode, r.permissive, "\n");
  }

  /**
    Whatever memory held: no line of the file is lost, moved or given another token or line ending, and what follows
    them is one line for each record that no old line stands for, in order.
   */
  lemma {:induction false} LinesSurvive(text: Option<string>, before: seq<Record>, after: seq<Record>,
                                        tokens: map<u32, string>)
    ensures var persisted := Persisted(Lines(text), LineUids(text, before, tokens), before);
            var payload, n := PlanFor(text, before, after, tokens).payload, |Lines(text)|;
            payload.Some? ==>
              && n <= |Pieces(payload.value)|
              && (forall i :: 0 <= i < n ==> Survives(Lines(text)[i], Pieces(payload.value)[i]))
              && Pieces(payload.value)[n..] == NewLines(AllMissing(after, persisted))
  {
    var pieces, uids := Lines(text), LineUids(text, before, tokens);
    var newer := NewPieces(pieces, uids, before, after);
    NewPiecesSplit(text, uids, before, after);
    AppendGrows(Joined(newer), after, Persisted(pieces, uids, before));
    forall i | 0 <= i < |pieces|
      ensures Survives(pieces[i], newer[i]) && (Open(newer[i]) ==> Survives(pieces[i], newer[i] + "\n"))
    {
      PiecesArePieces(text.value);
      NewPieceIsPiece(pieces[i], uids[i], before, after);
      ClosingSurvives(pieces[i], newer[i]);
    }
  }

  lemma ClosingSurvives(piece: string, newer: string)
    requires IsPiece(newer) && Ending(newer) == Ending(piece)
    requires newer == piece || (SameToken(piece, newer) && Last(newer) != '\r')
    ensures Survives(piece, newer) && (Open(newer) ==> Survives(piece, newer + "\n"))
  {
    if Open(newer) {
      EndingKinds(newer);
      if newer == piece {
        assert newer + "\n" == piece + "\n";
      } else {
        EndingOf(newer, "\n");
        EndingsDoNotMatter(newer);
        EndingsDoNotMatter(newer + "\n");
      }
    }
  }
}
