/** The two-file ledger refines a map, and neither a crash nor an older daemon can strengthen an entry. */
module LedgerTheorems {
  import opened Domain
  import opened Ledger

  // ---- One operation without faults is one update of the map

  lemma RecordRefines(d: Disk, k: Key, f: Faults, generation: nat, x: Key)
    requires Sound(d, f)
    ensures var t := Record(d, k, f, generation);
            t.answer.Done? && Report(Last(d, t.states), x) == if x == k then Some(ResidualUnknown) else Report(d, x)
  {
    var keys, claims := Keys(Lines(d)) + {k}, Kept(d, f) - {k};
    RewriteMeans(d, keys, claims, true, f, generation, x);
    KeptIsProven(d, f, x);
    var t := Record(d, k, f, generation);
    assert t == Rewrite(d, keys, claims, true, f, generation) && t.answer == Done(true);
    var last := Last(d, t.states);
    assert last == t.states[if claims == {} then 1 else 2];
    if x == k {
      assert Report(last, x) == Some(ResidualUnknown);
    } else {
      assert Report(d, x) == if x in claims then Some(SignalOnly) else if x in keys then Some(ResidualUnknown)
        else None;
      assert Report(last, x) == Report(d, x);
    }
  }

  lemma TakeRefines(d: Disk, k: Key, f: Faults, generation: nat, x: Key)
    requires Sound(d, f)
    ensures var t := Take(d, k, f, generation);
            && t.answer == Done(Report(d, k).Some?)
            && Report(Last(d, t.states), x) == if x == k then None else Report(d, x)
  {
    var keys, claims := Keys(Lines(d)) - {k}, Kept(d, f) - {k};
    RewriteMeans(d, keys, claims, k in Keys(Lines(d)), f, generation, x);
    KeptIsProven(d, f, x);
    var t := Take(d, k, f, generation);
    assert t == Rewrite(d, keys, claims, k in Keys(Lines(d)), f, generation) && t.answer.Done?;
    assert Last(d, t.states) == t.states[if claims == {} then 1 else 2];
  }

  /** Promotion succeeds exactly on promotable rows, then that entry alone changes; otherwise nothing changes. */
  lemma PromoteRefines(d: Disk, k: Key, f: Faults, x: Key)
    ensures var t := Promote(d, k, f);
            && (t.answer == Done(true) ==>
                  Report(Last(d, t.states), x) == if x == k then Some(SignalOnly) else Report(d, x))
            && (t.answer != Done(true) ==> t.states == [])
            && (t.answer == Done(true) ==> Promotable(d, k) && Report(d, k).Some?)
    ensures Sound(d, f) && Promotable(d, k) ==> Promote(d, k, f).answer == Done(true)
  {
    RowsAndKeys(Lines(d), k);
    var t := Promote(d, k, f);
    if t.answer == Done(true) {
      SideTextMeans(Kept(d, f) + {k}, d.main.value.generation, x, d.main.value.generation);
      RowsAndKeys(Lines(d), x);
    }
  }

  /** A rewrite, state by state: claims are gone before the main file changes, and come back only for the new one. */
  lemma RewriteMeans(d: Disk, keys: set<Key>, claims: set<Key>, yes: bool, f: Faults, generation: nat, x: Key)
    requires claims <= keys
    ensures var states := Rewrite(d, keys, claims, yes, f, generation).states;
            && (|states| > 0 ==> Report(states[0], x) == if x in Keys(Lines(d)) then Some(ResidualUnknown) else None)
            && (|states| > 1 ==> Report(states[1], x) == if x in keys then Some(ResidualUnknown) else None)
            && (|states| > 2 ==> Report(states[2], x) == if x in claims then Some(SignalOnly)
                                                         else if x in keys then Some(ResidualUnknown) else None)
            && (Rewrite(d, keys, claims, yes, f, generation).answer.Done? ==>
                  |states| == if claims == {} then 2 else 3)
  {
    assert forall g: nat :: !Claims([], x, g);
    MainTextMeans(keys, x);
    SideTextMeans(claims, generation, x, generation);
    if keys == {} { assert Keys([]) == {}; }
  }

  // ---- Every state a faulty or interrupted operation can leave

  /** Recording, at whatever point it stops: other entries can only weaken, and this one becomes or stays residual. */
  lemma RecordOnlyWeakens(d: Disk, k: Key, f: Faults, generation: nat, x: Key, i: nat)
    requires i < |Record(d, k, f, generation).states|
    ensures var now := Report(Record(d, k, f, generation).states[i], x);
            if x == k then now == Some(ResidualUnknown) || (now == None && Report(d, k) == None)
            else WeakerOrSame(now, Report(d, x))
  {
    var keys, claims := Keys(Lines(d)) + {k}, Kept(d, f) - {k};
    RewriteMeans(d, keys, claims, true, f, generation, x);
    KeptIsProven(d, f, x);
    assert |Rewrite(d, keys, claims, true, f, generation).states| <= 3;
  }

  lemma TakeOnlyWeakens(d: Disk, k: Key, f: Faults, generation: nat, x: Key, i: nat)
    requires i < |Take(d, k, f, generation).states|
    ensures var now := Report(Take(d, k, f, generation).states[i], x);
            if x == k then now == None || (now == Some(ResidualUnknown) && Report(d, k).Some?)
            else WeakerOrSame(now, Report(d, x))
  {
    var keys, claims := Keys(Lines(d)) - {k}, Kept(d, f) - {k};
    RewriteMeans(d, keys, claims, k in Keys(Lines(d)), f, generation, x);
    KeptIsProven(d, f, x);
    assert |Rewrite(d, keys, claims, k in Keys(Lines(d)), f, generation).states| <= 3;
  }

  lemma KeptIsProven(d: Disk, f: Faults, x: Key)
    ensures x in Kept(d, f) ==> Report(d, x) == Some(SignalOnly)
    ensures x !in Keys(Lines(d)) <==> Report(d, x) == None
    ensures Sound(d, f) && Report(d, x) == Some(SignalOnly) ==> x in Kept(d, f)
  {
  }

  /**
    When the main file alone is replaced, an entry reads SignalOnly exactly if its row there is canonical and the
    sidecar, readable as a whole, makes one statement about it, for the generation of the new file.
   */
  lemma {:induction false} ReplacedReadsSignalOnly(d: Disk, main: Option<MainFile>, x: Key)
    ensures Report(d.(main := main), x) == Some(SignalOnly)
            <==> main.Some? && Rows(main.value.lines, x) == 1 && Row(x, false) in main.value.lines
                 && Unreadable !in SideLines(d)
                 && Entries(SideLines(d), x) == 1 && Entry(x, Some(main.value.generation)) in SideLines(d)
  {
    if main.Some? { RowsAndKeys(main.value.lines, x); }
  }

  /** So an older daemon's file proves nothing SignalOnly if its generation is a fresh one. */
  lemma ReplacementProvesNothing(d: Disk, main: Option<MainFile>, x: Key)
    requires main.Some? ==> Fresh(d, main.value.generation)
    ensures Report(d.(main := main), x) != Some(SignalOnly)
  {
    ReplacedReadsSignalOnly(d, main, x);
  }

  predicate Fresh(d: Disk, generation: nat) {
    forall l :: l in SideLines(d) && l.Entry? ==> l.claim != Some(generation)
  }

  /** Without a fresh generation the argument fails: a recycled inode revives a stale claim. */
  lemma RecycledGenerationRevivesClaim() returns (d: Disk, main: Option<MainFile>, k: Key)
    ensures Report(d, k) == None && Report(d.(main := main), k) == Some(SignalOnly)
  {
    k := Key(1, 1);
    main := Some(MainFile(MainText({k}), 7));
    d := Disk(None, Some(SideText({k}, 7)));
    MainTextMeans({k}, k);
    SideTextMeans({k}, 7, k, 7);
    assert Keys([]) == {};
  }

  // ---- Whole histories of the two files

  /** Something that happens to the files; an operation may stop after any number of its writes. */
  datatype Move =
    | Recording(key: Key, faults: Faults, generation: nat, stop: nat)
    | Taking(key: Key, faults: Faults, generation: nat, stop: nat)
    | Promoting(key: Key, faults: Faults, stop: nat)
    | Replacing(main: Option<MainFile>)

  function Written(d: Disk, m: Move): seq<Disk> {
    match m
    case Recording(k, f, g, _) => Record(d, k, f, g).states
    case Taking(k, f, g, _) => Take(d, k, f, g).states
    case Promoting(k, f, _) => Promote(d, k, f).states
    case Replacing(main) => [d.(main := main)]
  }

  function Reached(d: Disk, m: Move): seq<Disk> {
    var states := Written(d, m);
    if m.Replacing? || m.stop >= |states| then states else states[..m.stop]
  }

  function After(d: Disk, moves: seq<Move>): Disk {
    if moves == [] then d
    else var before := After(d, moves[..|moves| - 1]); Last(before, Reached(before, moves[|moves| - 1]))
  }

  predicate FreshReplacements(d: Disk, moves: seq<Move>) {
    forall i :: 0 <= i < |moves| && moves[i].Replacing? && moves[i].main.Some? ==>
      Fresh(After(d, moves[..i]), moves[i].main.value.generation)
  }

  /** The one move that can make an entry SignalOnly is a promotion of it that reached its write. */
  lemma OnlyPromotionEarns(d: Disk, m: Move, x: Key)
    requires m.Replacing? && m.main.Some? ==> Fresh(d, m.main.value.generation)
    requires Report(Last(d, Reached(d, m)), x) == Some(SignalOnly)
    ensures || Report(d, x) == Some(SignalOnly)
            || (m.Promoting? && m.key == x && Promote(d, x, m.faults).answer == Done(true) && Reached(d, m) != [])
    ensures !m.Replacing? && (m.key == x && !m.Promoting? ==> Reached(d, m) == [])
  {
    var states := Reached(d, m);
    if states != [] {
      match m
      case Recording(k, f, g, _) => RecordOnlyWeakens(d, k, f, g, x, |states| - 1);
      case Taking(k, f, g, _) => TakeOnlyWeakens(d, k, f, g, x, |states| - 1);
      case Promoting(k, f, _) => PromoteRefines(d, k, f, x);
      case Replacing(main) => ReplacementProvesNothing(d, main, x);
    }
  }

  predicate SignalOnlyAt(d: Disk, moves: seq<Move>, x: Key, j: nat) {
    j <= |moves| && Report(After(d, moves[..j]), x) == Some(SignalOnly)
  }

  /** Move `j` promoted the entry and reached its write. */
  predicate Promotes(d: Disk, moves: seq<Move>, x: Key, j: nat) {
    && j < |moves| && moves[j].Promoting? && moves[j].key == x
    && Promote(After(d, moves[..j]), x, moves[j].faults).answer == Done(true)
    && Reached(After(d, moves[..j]), moves[j]) != []
  }

  /** Move `j` was neither a replacement nor a write of a recording or taking of the entry. */
  predicate Spares(d: Disk, moves: seq<Move>, x: Key, j: nat) {
    && j < |moves| && !moves[j].Replacing?
    && (moves[j].key == x && !moves[j].Promoting? ==> Reached(After(d, moves[..j]), moves[j]) == [])
  }

  /** From state `k` to state `n` the entry was SignalOnly throughout, and every move between spared it. */
  predicate Unbroken(d: Disk, moves: seq<Move>, x: Key, k: nat, n: nat)
    requires k <= n
    decreases n
  {
    && SignalOnlyAt(d, moves, x, n)
    && (k < n ==> Spares(d, moves, x, n - 1) && Unbroken(d, moves, x, k, n - 1))
  }

  /**
    Over every history of complete, failing and interrupted operations and of replacements by an older daemon:
    an entry that reads SignalOnly after n moves was so at the start (k = 0), or was not so before move k - 1 wrote
    its promotion, and has been SignalOnly ever since, with no replacement and no write of another operation on it
    later.
   */
  lemma {:induction false} SignalOnlyWasPromoted(d: Disk, moves: seq<Move>, x: Key, n: nat) returns (k: nat)
    requires FreshReplacements(d, moves) && SignalOnlyAt(d, moves, x, n)
    ensures k <= n && SignalOnlyAt(d, moves, x, k) && Unbroken(d, moves, x, k, n)
    ensures k > 0 ==> Promotes(d, moves, x, k - 1) && !SignalOnlyAt(d, moves, x, k - 1)
  {
    k := n;
    if n == 0 {
    } else {
      MoveEarns(d, moves, x, n - 1);
      if SignalOnlyAt(d, moves, x, n - 1) { k := SignalOnlyWasPromoted(d, moves, x, n - 1); }
    }
  }

  lemma MoveEarns(d: Disk, moves: seq<Move>, x: Key, j: nat)
    requires FreshReplacements(d, moves) && j < |moves| && SignalOnlyAt(d, moves, x, j + 1)
    ensures SignalOnlyAt(d, moves, x, j) || Promotes(d, moves, x, j)
    ensures Spares(d, moves, x, j)
  {
    assert moves[..j + 1][..j] == moves[..j];
    OnlyPromotionEarns(After(d, moves[..j]), moves[j], x);
  }

  /** What was recorded is not forgotten: only taking it, or an older daemon, removes an entry. */
  lemma {:induction false} EntryOutlivesCrashes(d: Disk, moves: seq<Move>, x: Key)
    requires x in Keys(Lines(d))
    requires forall i :: 0 <= i < |moves| ==> !moves[i].Replacing? && (moves[i].Taking? ==> moves[i].key != x)
    ensures x in Keys(Lines(After(d, moves)))
  {
    if moves == [] {
    } else {
      var n := |moves| - 1;
      EntryOutlivesCrashes(d, moves[..n], x);
      EntryOutlivesMove(After(d, moves[..n]), moves[n], x);
    }
  }

  lemma EntryOutlivesMove(d: Disk, m: Move, x: Key)
    requires x in Keys(Lines(d)) && !m.Replacing? && (m.Taking? ==> m.key != x)
    ensures x in Keys(Lines(Last(d, Reached(d, m))))
  {
    var states := Reached(d, m);
    if states != [] {
      match m
      case Recording(k, f, g, _) => RecordOnlyWeakens(d, k, f, g, x, |states| - 1);
      case Taking(k, f, g, _) => TakeOnlyWeakens(d, k, f, g, x, |states| - 1);
      case Promoting(k, f, _) => PromoteRefines(d, k, f, x);
    }
  }

  // ---- Extended and duplicate rows

  /** Whether a row may be promoted: it is canonical, and the sidecar may contradict it or not. */
  datatype Standing = Uncanonical | Contradicted | Ready

  function StandingOf(d: Disk, x: Key): Standing {
    if Promotable(d, x) then Ready else if Canonical(Lines(d), x) then Contradicted else Uncanonical
  }

  /** The move is a recording or taking that got as far as writing the main file. */
  predicate WritesMain(d: Disk, m: Move) { (m.Recording? || m.Taking?) && |Reached(d, m)| >= 2 }

  /** One of the first `n` moves wrote the main file. */
  predicate MainWritten(d: Disk, moves: seq<Move>, n: nat)
    requires n <= |moves|
  {
    exists j :: 0 <= j < n && WritesMain(After(d, moves[..j]), moves[j])
  }

  lemma RewritePromotes(d: Disk, keys: set<Key>, claims: set<Key>, yes: bool, f: Faults, generation: nat, x: Key,
                        i: nat)
    requires claims <= keys && x in keys && i < |Rewrite(d, keys, claims, yes, f, generation).states|
    ensures var now := Rewrite(d, keys, claims, yes, f, generation).states[i];
            if i == 0 then now == d.(side := None) else Promotable(now, x)
  {
    MainTextMeans(keys, x);
    SideTextMeans(claims, generation, x, generation);
  }

  /** What a recording or taking that keeps an entry makes of its chance to be promoted, wherever it stops. */
  lemma MoveRewrites(d: Disk, m: Move, x: Key)
    requires x in Keys(Lines(d)) && (m.Recording? || (m.Taking? && m.key != x)) && Reached(d, m) != []
    ensures if WritesMain(d, m) then Promotable(Last(d, Reached(d, m)), x)
            else Last(d, Reached(d, m)) == d.(side := None)
  {
    var last := |Reached(d, m)| - 1;
    KeptIsProven(d, m.faults, x);
    match m
    case Recording(k, f, g, _) =>
      RewritePromotes(d, Keys(Lines(d)) + {k}, Kept(d, f) - {k}, true, f, g, x, last);
    case Taking(k, f, g, _) =>
      RewritePromotes(d, Keys(Lines(d)) - {k}, Kept(d, f) - {k}, k in Keys(Lines(d)), f, g, x, last);
  }

  lemma PromotionKeeps(d: Disk, k: Key, f: Faults, x: Key)
    requires Promote(d, k, f).states != [] && Promotable(d, x)
    ensures Promotable(Promote(d, k, f).states[0], x)
  {
    SideTextMeans(Kept(d, f) + {k}, d.main.value.generation, x, d.main.value.generation);
  }

  predicate Keeps(m: Move, x: Key) { !m.Replacing? && (m.Taking? ==> m.key != x) }

  lemma MoveOnUncanonical(d: Disk, m: Move, x: Key)
    requires x in Keys(Lines(d)) && StandingOf(d, x) == Uncanonical && Keeps(m, x)
    ensures StandingOf(Last(d, Reached(d, m)), x) == if WritesMain(d, m) then Ready else Uncanonical
  {
    if Reached(d, m) != [] && !m.Promoting? { MoveRewrites(d, m, x); }
  }

  lemma MoveOnReady(d: Disk, m: Move, x: Key)
    requires x in Keys(Lines(d)) && StandingOf(d, x) == Ready && Keeps(m, x)
    ensures StandingOf(Last(d, Reached(d, m)), x) == Ready
  {
    if Reached(d, m) == [] {
    } else if m.Promoting? {
      PromotionKeeps(d, m.key, m.faults, x);
    } else {
      MoveRewrites(d, m, x);
    }
  }

  lemma {:induction false} AfterMove(d: Disk, moves: seq<Move>, n: nat)
    requires n < |moves|
    ensures After(d, moves[..n + 1]) == Last(After(d, moves[..n]), Reached(After(d, moves[..n]), moves[n]))
  {
    assert moves[..n + 1][..n] == moves[..n];
  }

  /**
    Of an entry whose row is extended or repeated: over every history in which it is neither taken nor replaced,
    its row is canonical, and it can be promoted, exactly if some recording or taking got as far as writing the
    main file.
   */
  lemma {:induction false} ReadyOnceRewritten(d: Disk, moves: seq<Move>, x: Key, n: nat)
    requires x in Keys(Lines(d)) && StandingOf(d, x) == Uncanonical && n <= |moves|
    requires forall i :: 0 <= i < n ==> Keeps(moves[i], x)
    ensures StandingOf(After(d, moves[..n]), x) == if MainWritten(d, moves, n) then Ready else Uncanonical
  {
    if n == 0 {
    } else {
      ReadyOnceRewritten(d, moves, x, n - 1);
      KeptSoFar(d, moves, x, n - 1);
      WrittenByNext(d, moves, n - 1);
      StandingMoves(After(d, moves[..n - 1]), moves[n - 1], x, After(d, moves[..n]));
    }
  }

  lemma {:induction false} KeptSoFar(d: Disk, moves: seq<Move>, x: Key, n: nat)
    requires x in Keys(Lines(d)) && n < |moves| && forall i :: 0 <= i < n ==> Keeps(moves[i], x)
    ensures x in Keys(Lines(After(d, moves[..n])))
  {
    EntryOutlivesCrashes(d, moves[..n], x);
  }

  /** One move between two disks. */
  lemma StandingMoves(d: Disk, m: Move, x: Key, next: Disk)
    requires x in Keys(Lines(d)) && StandingOf(d, x) != Contradicted && Keeps(m, x)
    requires next == Last(d, Reached(d, m))
    ensures StandingOf(next, x) == if StandingOf(d, x) == Ready || WritesMain(d, m) then Ready else Uncanonical
  {
    if StandingOf(d, x) == Ready { MoveOnReady(d, m, x); } else { MoveOnUncanonical(d, m, x); }
  }

  lemma {:induction false} WrittenByNext(d: Disk, moves: seq<Move>, n: nat)
    requires n < |moves|
    ensures After(d, moves[..n + 1]) == Last(After(d, moves[..n]), Reached(After(d, moves[..n]), moves[n]))
    ensures MainWritten(d, moves, n + 1) == (MainWritten(d, moves, n) || WritesMain(After(d, moves[..n]), moves[n]))
  {
    AfterMove(d, moves, n);
  }

  /** Until then no promotion of it succeeds; from then on every one does in which no access fails. */
  lemma {:induction false} PromotedOnceRewritten(d: Disk, moves: seq<Move>, x: Key, n: nat, f: Faults)
    requires x in Keys(Lines(d)) && StandingOf(d, x) == Uncanonical && n <= |moves|
    requires forall i :: 0 <= i < n ==> Keeps(moves[i], x)
    ensures var done := Promote(After(d, moves[..n]), x, f).answer == Done(true);
            if MainWritten(d, moves, n) then Sound(After(d, moves[..n]), f) ==> done else !done
  {
    ReadyOnceRewritten(d, moves, x, n);
    PromoteIfReady(After(d, moves[..n]), x, f);
  }

  lemma PromoteIfReady(d: Disk, x: Key, f: Faults)
    ensures var done := Promote(d, x, f).answer == Done(true);
            if StandingOf(d, x) == Ready then Sound(d, f) ==> done else !done
  {
  }

  lemma ExtendedRowStanding(k: Key, g: nat)
    ensures StandingOf(Disk(Some(MainFile([Row(k, true)], g)), None), k) == Uncanonical
    ensures Keys([Row(k, true)]) == {k}
  {
    assert [] + [Row(k, true)] == [Row(k, true)] && Keys([]) == {};
    RowSnoc([], Row(k, true), k);
  }

  /**
    One row with more than two fields: it cannot be promoted, but recording any other process writes it anew with
    two fields, and then it can be.
   */
  lemma ExtendedRowIsPromoted(k: Key, x: Key, g: nat, generation: nat, f: Faults)
    requires x != k && f == Faults(false, false, false, false, false, false, false)
    ensures var d := Disk(Some(MainFile([Row(k, true)], g)), None);
            var recorded := Last(d, Record(d, x, f, generation).states);
            var promoted := Last(recorded, Promote(recorded, k, f).states);
            && Promote(d, k, f).answer == Done(false) && Promote(recorded, k, f).answer == Done(true)
            && Report(d, k) == Report(recorded, k) == Some(ResidualUnknown) && Report(promoted, k) == Some(SignalOnly)
  {
    var d := Disk(Some(MainFile([Row(k, true)], g)), None);
    var m := Recording(x, f, generation, 2);
    ExtendedRowStanding(k, g);
    MoveOnUncanonical(d, m, k);
    RecordRefines(d, x, f, generation, k);
    PromoteIfReady(d, k, f);
    var recorded := Last(d, Record(d, x, f, generation).states);
    assert Kept(d, f) == {} && recorded == Last(d, Reached(d, m)) && WritesMain(d, m);
    PromoteIfReady(recorded, k, f);
    PromoteRefines(recorded, k, f, k);
  }
}
