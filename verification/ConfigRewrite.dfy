/** How a changed app config is written back into the user's file, line by line. */
module ConfigRewrite {
  import opened Domain
  import opened Text
  import opened AppConfig

  // ---- Which line belongs to which UID

  lemma {:induction false} HasLargest(s: set<u32>)
    requires s != {}
    ensures exists m :: m in s && forall x :: x in s ==> x <= m
    decreases |s|
  {
    var k :| k in s;
    var rest := s - {k};
    var top := k;
    if rest != {} {
      HasLargest(rest);
      var m :| m in rest && forall x :: x in rest ==> x <= m;
      if k <= m { top := m; }
    }
    forall x | x in s ensures x <= top {
      if x != k { assert x in rest; }
    }
    assert top in s;
  }

  function Largest(s: set<u32>): (m: u32)
    requires s != {}
    ensures m in s && forall x :: x in s ==> x <= m
  {
    HasLargest(s);
    var m :| m in s && forall x :: x in s ==> x <= m;
    m
  }

  /** The inverse of the token map: of several UIDs with one token the largest wins. */
  function Owner(tokens: map<u32, string>, t: string): (r: Option<u32>)
    ensures r.Some? ==> r.value in tokens && tokens[r.value] == t
    ensures r.None? ==> forall uid :: uid in tokens ==> tokens[uid] != t
  {
    var owners := set uid | uid in tokens && tokens[uid] == t;
    assert forall uid :: uid in tokens && tokens[uid] == t ==> uid in owners;
    if owners == {} then None else Some(Largest(owners))
  }

  /** The UID a line is known to stand for: by its token, or by a numeric token of a configured UID. */
  function Anchor(tokens: map<u32, string>, known: set<u32>, piece: string): Option<u32> {
    var p := PolicyOf(piece);
    if p.None? then None
    else if Owner(tokens, p.value.token).Some? then Owner(tokens, p.value.token)
    else
      var n := NumericToken(p.value.token);
      if n.Some? && n.value in known then n else None
  }

  function Anchors(tokens: map<u32, string>, known: set<u32>, pieces: seq<string>): (r: seq<Option<u32>>)
    ensures |r| == |pieces|
  {
    seq(|pieces|, i requires 0 <= i < |pieces| => Anchor(tokens, known, pieces[i]))
  }

  function Matched(uids: seq<Option<u32>>): set<u32> { set x | x in uids && x.Some? :: x.value }

  /** The stored UIDs that no line is anchored to, in record order. */
  function Remaining(records: seq<Record>, matched: set<u32>): (r: seq<u32>)
    ensures forall i :: 0 <= i < |r| ==> r[i] in Uids(records) && r[i] !in matched
  {
    if records == [] then []
    else
      var n := |records| - 1;
      var before := Remaining(records[..n], matched);
      assert forall x :: x in records[..n] ==> x in records;
      if records[n].uid != U32_MAX && records[n].uid !in matched then before + [records[n].uid] else before
  }

  /** Without a token map, the remaining UIDs go to the unanchored lines by position. */
  function Placed(pieces: seq<string>, anchors: seq<Option<u32>>, rest: seq<u32>): (r: seq<Option<u32>>)
    requires |anchors| == |pieces|
    ensures |r| == |pieces| && (rest == [] ==> forall i :: 0 <= i < |r| ==> r[i] == None)
  {
    if pieces == [] then []
    else if rest != [] && PolicyOf(pieces[0]).Some? && anchors[0].None? then
      [Some(rest[0])] + Placed(pieces[1..], anchors[1..], rest[1..])
    else [None] + Placed(pieces[1..], anchors[1..], rest)
  }

  function NoteTokens(tokens: map<u32, string>, pieces: seq<string>, uids: seq<Option<u32>>): map<u32, string>
    requires |uids| == |pieces|
  {
    if pieces == [] then tokens
    else
      var n := |pieces| - 1;
      var before := NoteTokens(tokens, pieces[..n], uids[..n]);
      if uids[n].Some? && PolicyOf(pieces[n]).Some? then before[uids[n].value := PolicyOf(pieces[n]).value.token]
      else before
  }

  function Either(a: seq<Option<u32>>, b: seq<Option<u32>>): (r: seq<Option<u32>>)
    requires |a| == |b|
    ensures |r| == |a|
  {
    seq(|a|, i requires 0 <= i < |a| => if a[i].Some? then a[i] else b[i])
  }

  // ---- The new text

  predicate Rewritable(piece: string, uid: Option<u32>, before: seq<Record>) {
    PolicyOf(piece).Some? && uid.Some? && Lookup(before, uid.value).Some?
  }

  /** A line whose policy changed is printed anew with its own token and ending; every other line is kept. */
  function NewPiece(piece: string, uid: Option<u32>, before: seq<Record>, after: seq<Record>): string {
    if !Rewritable(piece, uid, before) then piece
    else
      var was := Lookup(before, uid.value).value;
      var now := if Lookup(after, uid.value).Some? then Lookup(after, uid.value).value else was;
      if now.mode == was.mode && now.permissive == was.permissive then piece
      else PrintLine(PolicyOf(piece).value.token, now.mode, now.permissive, Ending(piece))
  }

  function NewPieces(pieces: seq<string>, uids: seq<Option<u32>>, before: seq<Record>,
                     after: seq<Record>): (r: seq<string>)
    requires |uids| == |pieces|
    ensures |r| == |pieces|
  {
    seq(|pieces|, i requires 0 <= i < |pieces| => NewPiece(pieces[i], uids[i], before, after))
  }

  function Persisted(pieces: seq<string>, uids: seq<Option<u32>>, before: seq<Record>): set<u32>
    requires |uids| == |pieces|
  {
    if pieces == [] then {}
    else
      var n := |pieces| - 1;
      Persisted(pieces[..n], uids[..n], before) + if Rewritable(pieces[n], uids[n], before) then {uids[n].value} else {}
  }

  predicate Missing(r: Record, persisted: set<u32>) { r.uid != U32_MAX && r.uid !in persisted }

  function AppendTo(payload: string, records: seq<Record>, persisted: set<u32>): string {
    if records == [] then payload
    else
      var n := |records| - 1;
      var before := AppendTo(payload, records[..n], persisted);
      if Missing(records[n], persisted) then Closed(before) + NewLine(records[n]) else before
  }

  function Closed(payload: string): string { if Open(payload) then payload + "\n" else payload }

  function NewLine(r: Record): string { PrintLine(CanonicalToken(r.uid), r.mode, r.permissive, "\n") }

  function AppendTokens(tokens: map<u32, string>, records: seq<Record>, persisted: set<u32>): map<u32, string> {
    if records == [] then tokens
    else
      var n := |records| - 1;
      var before := AppendTokens(tokens, records[..n], persisted);
      if Missing(records[n], persisted) then before[records[n].uid := CanonicalToken(records[n].uid)] else before
  }

  /** The UID each line of the old file is taken to stand for: anchored ones first, then by position. */
  function LineUids(previous: Option<string>, before: seq<Record>, tokens: map<u32, string>): (r: seq<Option<u32>>)
    ensures |r| == |Lines(previous)|
  {
    var anchors := Anchors(Within(tokens, Uids(before)), Uids(before), Lines(previous));
    Either(anchors, PlacedUids(previous, before, tokens, anchors))
  }

  function PlacedUids(previous: Option<string>, before: seq<Record>, tokens: map<u32, string>,
                      anchors: seq<Option<u32>>)
    : (r: seq<Option<u32>>)
    requires |anchors| == |Lines(previous)|
    ensures |r| == |anchors|
  {
    Placed(Lines(previous), anchors, if tokens == map[] then Remaining(before, Matched(anchors)) else [])
  }

  /** The bytes to write, if anything is to be written, and the new token map. */
  datatype Plan = Plan(payload: Option<string>, tokens: map<u32, string>)

  function PlanFor(previous: Option<string>, before: seq<Record>, after: seq<Record>, tokens: map<u32, string>): Plan {
    var kept := Within(tokens, Uids(before));
    if previous.Some? && after == before then Plan(None, kept)
    else
      var pieces := Lines(previous);
      var anchors := Anchors(kept, Uids(before), pieces);
      var extra := PlacedUids(previous, before, tokens, anchors);
      var uids := LineUids(previous, before, tokens);
      var persisted := Persisted(pieces, uids, before);
      Plan(Some(AppendTo(Joined(NewPieces(pieces, uids, before, after)), after, persisted)),
           Within(AppendTokens(NoteTokens(NoteTokens(kept, pieces, anchors), pieces, extra), after, persisted),
             Uids(after)))
  }

  // ---- `persist_app_config_with_writer`, up to the write itself

  method AnchorLines(pieces: seq<string>, kept: map<u32, string>, known: set<u32>)
    returns (uids: seq<Option<u32>>, tokens: map<u32, string>)
    ensures uids == Anchors(kept, known, pieces) && tokens == NoteTokens(kept, pieces, uids)
  {
    var byToken := map t | t in kept.Values :: Owner(kept, t).value;
    uids, tokens := [], kept;
    for i := 0 to |pieces|
      invariant uids == Anchors(kept, known, pieces[..i]) && tokens == NoteTokens(kept, pieces[..i], uids)
    {
      assert pieces[..i + 1] == pieces[..i] + [pieces[i]];
      NoteSnoc(kept, pieces[..i], uids, pieces[i], Anchor(kept, known, pieces[i]));
      AnchorsSnoc(kept, known, pieces[..i], pieces[i]);
      var p := PolicyOf(pieces[i]);
      if p.None? {
        uids := uids + [None];
      } else {
        var n := NumericToken(p.value.token);
        var uid := if p.value.token in byToken then Some(byToken[p.value.token])
                   else if n.Some? && n.value in known then n else None;
        assert uid == Anchor(kept, known, pieces[i]);
        uids := uids + [uid];
        if uid.Some? { tokens := tokens[uid.value := p.value.token]; }
      }
    }
    assert pieces[..|pieces|] == pieces;
  }

  method PlaceRemaining(pieces: seq<string>, anchors: seq<Option<u32>>, rest: seq<u32>, noted: map<u32, string>)
    returns (extra: seq<Option<u32>>, tokens: map<u32, string>)
    requires |anchors| == |pieces|
    ensures extra == Placed(pieces, anchors, rest) && tokens == NoteTokens(noted, pieces, extra)
  {
    extra, tokens := [], noted;
    var used := 0;
    for i := 0 to |pieces|
      invariant used <= |rest| && |extra| == i
      invariant Placed(pieces, anchors, rest) == extra + Placed(pieces[i..], anchors[i..], rest[used..])
      invariant tokens == NoteTokens(noted, pieces[..i], extra)
    {
      var p := PolicyOf(pieces[i]);
      var uid := if p.Some? && anchors[i].None? && used < |rest| then Some(rest[used]) else None;
      assert pieces[..i + 1] == pieces[..i] + [pieces[i]];
      NoteSnoc(noted, pieces[..i], extra, pieces[i], uid);
      PlacedStep(pieces, anchors, rest, i, used, extra, uid);
      extra := extra + [uid];
      if uid.Some? {
        tokens := tokens[uid.value := p.value.token];
        used := used + 1;
      }
    }
    assert pieces[..|pieces|] == pieces;
  }

  lemma PlacedHead(pieces: seq<string>, anchors: seq<Option<u32>>, rest: seq<u32>, i: nat, used: nat)
    requires |anchors| == |pieces| && i < |pieces| && used <= |rest|
    ensures var fits := PolicyOf(pieces[i]).Some? && anchors[i].None? && used < |rest|;
            Placed(pieces[i..], anchors[i..], rest[used..])
            == if fits then [Some(rest[used])] + Placed(pieces[i + 1..], anchors[i + 1..], rest[used + 1..])
               else [None] + Placed(pieces[i + 1..], anchors[i + 1..], rest[used..])
  {
    assert pieces[i..][1..] == pieces[i + 1..] && anchors[i..][1..] == anchors[i + 1..];
    if used < |rest| { assert rest[used..][1..] == rest[used + 1..]; }
  }

  lemma {:induction false} PlacedStep(pieces: seq<string>, anchors: seq<Option<u32>>, rest: seq<u32>, i: nat, used: nat,
                   extra: seq<Option<u32>>, uid: Option<u32>)
    requires |anchors| == |pieces| && i < |pieces| && used <= |rest|
    requires Placed(pieces, anchors, rest) == extra + Placed(pieces[i..], anchors[i..], rest[used..])
    requires uid == if PolicyOf(pieces[i]).Some? && anchors[i].None? && used < |rest| then Some(rest[used]) else None
    ensures var later := if uid.Some? then used + 1 else used;
            Placed(pieces, anchors, rest) == (extra + [uid]) + Placed(pieces[i + 1..], anchors[i + 1..], rest[later..])
  {
    PlacedHead(pieces, anchors, rest, i, used);
    var later := if uid.Some? then used + 1 else used;
    Reassociate(extra, [uid], Placed(pieces[i + 1..], anchors[i + 1..], rest[later..]));
  }

  lemma Reassociate<T>(a: seq<T>, b: seq<T>, c: seq<T>)
    ensures a + (b + c) == (a + b) + c
  {
  }

  lemma {:induction false} NoteSnoc(tokens: map<u32, string>, pieces: seq<string>, uids: seq<Option<u32>>,
                                    piece: string, uid: Option<u32>)
    requires |uids| == |pieces|
    ensures var before := NoteTokens(tokens, pieces, uids);
            NoteTokens(tokens, pieces + [piece], uids + [uid])
            == if uid.Some? && PolicyOf(piece).Some? then before[uid.value := PolicyOf(piece).value.token] else before
  {
    assert (pieces + [piece])[..|pieces|] == pieces && (uids + [uid])[..|uids|] == uids;
  }

  lemma AnchorsSnoc(tokens: map<u32, string>, known: set<u32>, pieces: seq<string>, piece: string)
    ensures Anchors(tokens, known, pieces + [piece]) == Anchors(tokens, known, pieces) + [Anchor(tokens, known, piece)]
  {
  }

  method RewriteLines(pieces: seq<string>, uids: seq<Option<u32>>, before: seq<Record>, after: seq<Record>)
    returns (payload: string, persisted: set<u32>)
    requires |uids| == |pieces|
    ensures payload == Joined(NewPieces(pieces, uids, before, after)) && persisted == Persisted(pieces, uids, before)
  {
    payload, persisted := "", {};
    for i := 0 to |pieces|
      invariant payload == Joined(NewPieces(pieces[..i], uids[..i], before, after))
      invariant persisted == Persisted(pieces[..i], uids[..i], before)
    {
      ghost var done := NewPieces(pieces[..i], uids[..i], before, after);
      JoinedConcat(done, [NewPiece(pieces[i], uids[i], before, after)]);
      assert NewPieces(pieces[..i + 1], uids[..i + 1], before, after)
        == done + [NewPiece(pieces[i], uids[i], before, after)];
      assert pieces[..i + 1][..i] == pieces[..i] && uids[..i + 1][..i] == uids[..i];
      if Rewritable(pieces[i], uids[i], before) { persisted := persisted + {uids[i].value}; }
      payload := payload + NewPiece(pieces[i], uids[i], before, after);
    }
    assert pieces[..|pieces|] == pieces && uids[..|uids|] == uids;
  }

  method AppendRecords(start: string, noted: map<u32, string>, records: seq<Record>, persisted: set<u32>)
    returns (payload: string, tokens: map<u32, string>)
    ensures payload == AppendTo(start, records, persisted) && tokens == AppendTokens(noted, records, persisted)
  {
    payload, tokens := start, noted;
    for i := 0 to |records|
      invariant payload == AppendTo(start, records[..i], persisted)
                && tokens == AppendTokens(noted, records[..i], persisted)
    {
      assert records[..i + 1][..i] == records[..i];
      var r := records[i];
      if r.uid != U32_MAX && r.uid !in persisted {
        if payload != "" && payload[|payload| - 1] != '\n' { payload := payload + "\n"; }
        var token := CanonicalToken(r.uid);
        payload := payload + PrintLine(token, r.mode, r.permissive, "\n");
        tokens := tokens[r.uid := token];
      }
    }
    assert records[..|records|] == records;
  }

  /** The plan, computed the way the daemon does. */
  method MakePlan(previous: Option<string>, before: seq<Record>, after: seq<Record>, stored: map<u32, string>)
    returns (plan: Plan)
    ensures plan == PlanFor(previous, before, after, stored)
  {
    var kept := Within(stored, Uids(before));
    if previous.Some? && after == before { return Plan(None, kept); }
    var pieces := Lines(previous);
    var anchors, tokens := AnchorLines(pieces, kept, Uids(before));
    var rest := if stored == map[] then Remaining(before, Matched(anchors)) else [];
    var extra;
    extra, tokens := PlaceRemaining(pieces, anchors, rest, tokens);
    var payload, persisted := RewriteLines(pieces, Either(anchors, extra), before, after);
    payload, tokens := AppendRecords(payload, tokens, after, persisted);
    plan := Plan(Some(payload), Within(tokens, Uids(after)));
  }
}
