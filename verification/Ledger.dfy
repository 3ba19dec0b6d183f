/**
  The persistent SIGSTOP ledger: a main file naming the stopped processes, and a provenance sidecar whose
  claims only count while they name the generation (the inode) of the main file beside it.
 */
module Ledger {
  import opened Domain

  datatype Key = Key(pid: int, start: nat)

  datatype Ownership = SignalOnly | ResidualUnknown

  /** A line of the main file; an extended row carries more than the two canonical fields. */
  datatype Line = Junk | Row(key: Key, extended: bool)

  /** A line of the sidecar; `claim` is the generation of an exact SignalOnly statement. */
  datatype SideLine = Unreadable | Entry(key: Key, claim: Option<nat>)

  datatype MainFile = MainFile(lines: seq<Line>, generation: nat)

  datatype Disk = Disk(main: Option<MainFile>, side: Option<seq<SideLine>>)

  // ---- What the two files mean

  function Lines(d: Disk): seq<Line> { if d.main.Some? then d.main.value.lines else [] }

  function SideLines(d: Disk): seq<SideLine> { if d.side.Some? then d.side.value else [] }

  function Rows(lines: seq<Line>, k: Key): nat {
    if lines == [] then 0
    else Rows(lines[..|lines| - 1], k)
         + var l := lines[|lines| - 1]; if l.Row? && l.key == k then 1 else 0
  }

  function Entries(side: seq<SideLine>, k: Key): nat {
    if side == [] then 0
    else Entries(side[..|side| - 1], k)
         + var l := side[|side| - 1]; if l.Entry? && l.key == k then 1 else 0
  }

  function Keys(lines: seq<Line>): set<Key> { set l | l in lines && l.Row? :: l.key }

  predicate Canonical(lines: seq<Line>, k: Key) { Rows(lines, k) == 1 && Row(k, false) in lines }

  predicate Claims(side: seq<SideLine>, k: Key, generation: nat) {
    Entries(side, k) == 1 && Entry(k, Some(generation)) in side
  }

  predicate Trusted(side: seq<SideLine>) { Unreadable !in side }

  predicate Proven(d: Disk, k: Key) {
    && d.main.Some? && Canonical(Lines(d), k)
    && Trusted(SideLines(d)) && Claims(SideLines(d), k, d.main.value.generation)
  }

  /** What the ledger says of a process: the map that the two files stand for. */
  function Report(d: Disk, k: Key): Option<Ownership> {
    if k !in Keys(Lines(d)) then None else if Proven(d, k) then Some(SignalOnly) else Some(ResidualUnknown)
  }

  predicate WeakerOrSame(now: Option<Ownership>, before: Option<Ownership>) {
    now == before || (now == Some(ResidualUnknown) && before == Some(SignalOnly))
  }

  lemma {:induction false} RowsAndKeys(lines: seq<Line>, k: Key)
    ensures Rows(lines, k) > 0 <==> k in Keys(lines)
  {
    if lines == [] {
    } else {
      var n := |lines| - 1;
      RowsAndKeys(lines[..n], k);
      assert forall l :: l in lines <==> l in lines[..n] || l == lines[n];
      if k in Keys(lines[..n]) {
        var l :| l in lines[..n] && l.Row? && l.key == k;
        assert l in lines;
      }
      if lines[n].Row? && lines[n].key == k { assert lines[n] in lines; }
    }
  }

  // ---- Files in the order the daemon writes them

  predicate AtMost(a: Key, b: Key) { a.pid < b.pid || (a.pid == b.pid && a.start <= b.start) }

  lemma {:induction false} HasGreatest(s: set<Key>)
    requires s != {}
    ensures exists m :: m in s && forall x :: x in s ==> AtMost(x, m)
    decreases |s|
  {
    var k :| k in s;
    var rest := s - {k};
    assert forall x :: x in s ==> x in rest || x == k;
    if rest == {} {
      assert forall x :: x in s ==> AtMost(x, k);
    } else {
      HasGreatest(rest);
      var m :| m in rest && forall x :: x in rest ==> AtMost(x, m);
      var top := if AtMost(k, m) then m else k;
      assert top in s && forall x :: x in s ==> AtMost(x, top);
    }
  }

  function Greatest(s: set<Key>): (m: Key)
    requires s != {}
    ensures m in s && forall x :: x in s ==> AtMost(x, m)
  {
    HasGreatest(s);
    var m :| m in s && forall x :: x in s ==> AtMost(x, m);
    m
  }

  function MainText(keys: set<Key>): seq<Line> {
    if keys == {} then [] else var m := Greatest(keys); MainText(keys - {m}) + [Row(m, false)]
  }

  function SideText(claims: set<Key>, generation: nat): seq<SideLine> {
    if claims == {} then []
    else var m := Greatest(claims); SideText(claims - {m}, generation) + [Entry(m, Some(generation))]
  }

  /** One more line: who is named, and what stays or becomes canonical. */
  lemma RowSnoc(lines: seq<Line>, l: Line, k: Key)
    ensures Keys(lines + [l]) == Keys(lines) + if l.Row? then {l.key} else {}
    ensures Canonical(lines + [l], k)
            <==> if l.Row? && l.key == k then k !in Keys(lines) && !l.extended else Canonical(lines, k)
  {
    assert (lines + [l])[..|lines|] == lines;
    assert forall x :: x in lines + [l] <==> x in lines || x == l;
    if l.Row? { assert l in lines + [l]; }
    RowsAndKeys(lines, k);
  }

  lemma {:induction false} EntrySnoc(side: seq<SideLine>, l: SideLine, k: Key, generation: nat)
    ensures Entries(side + [l], k) == Entries(side, k) + if l.Entry? && l.key == k then 1 else 0
    ensures Claims(side + [l], k, generation)
            <==> if l.Entry? && l.key == k then Entries(side, k) == 0 && l.claim == Some(generation)
                 else Claims(side, k, generation)
    ensures Trusted(side + [l]) <==> Trusted(side) && l.Entry?
  {
    assert (side + [l])[..|side|] == side;
    assert forall x :: x in side + [l] <==> x in side || x == l;
    NoEntryOf(side, k);
  }

  /** The main file the daemon writes names exactly the given processes, each by one canonical row. */
  lemma {:induction false} MainTextMeans(keys: set<Key>, k: Key)
    ensures Keys(MainText(keys)) == keys
    ensures Canonical(MainText(keys), k) <==> k in keys
  {
    if keys == {} {
    } else {
      var m := Greatest(keys);
      MainTextMeans(keys - {m}, k);
      RowSnoc(MainText(keys - {m}), Row(m, false), k);
    }
  }

  /** The sidecar the daemon writes makes exactly the given claims, all for one generation. */
  lemma {:induction false} SideTextMeans(claims: set<Key>, generation: nat, k: Key, g: nat)
    ensures Trusted(SideText(claims, generation))
    ensures Entries(SideText(claims, generation), k) > 0 <==> k in claims
    ensures Claims(SideText(claims, generation), k, g) <==> k in claims && g == generation
  {
    if claims == {} {
    } else {
      var m := Greatest(claims);
      SideTextMeans(claims - {m}, generation, k, g);
      EntrySnoc(SideText(claims - {m}, generation), Entry(m, Some(generation)), k, g);
    }
  }

  function MainFileOf(keys: set<Key>, generation: nat): Option<MainFile> {
    if keys == {} then None else Some(MainFile(MainText(keys), generation))
  }

  function SideFileOf(claims: set<Key>, generation: nat): Option<seq<SideLine>> {
    if claims == {} then None else Some(SideText(claims, generation))
  }

  // ---- The operations, as the states they take the two files through

  /** Which of an operation's file accesses failed. */
  datatype Faults =
    Faults(readMain: bool, readSide: bool, stat: bool, clear: bool, write: bool, restat: bool, writeSide: bool)

  /** No access failed, unless a main file that is not there was to be inspected. */
  predicate Sound(d: Disk, f: Faults) {
    && !f.readMain && !f.readSide && !f.clear && !f.write && !f.restat && !f.writeSide
    && (f.stat ==> d.main.None?)
  }

  datatype Answer = Failed | Done(yes: bool)

  /** The states an operation wrote, one after another, and its answer. */
  datatype Trail = Trail(states: seq<Disk>, answer: Answer)

  /** The claims a rewrite carries over: the current ones, unless they could not be read. */
  function Kept(d: Disk, f: Faults): set<Key> {
    if f.readSide || f.stat then {} else set k | k in Keys(Lines(d)) && Proven(d, k)
  }

  function Rewrite(d: Disk, keys: set<Key>, claims: set<Key>, yes: bool, f: Faults, generation: nat): Trail {
    var cleared := d.(side := None);
    var written := cleared.(main := MainFileOf(keys, generation));
    if f.clear then Trail([], Failed)
    else if f.write then Trail([cleared], Failed)
    else if claims == {} then Trail([cleared, written], Done(yes))
    else if f.restat || f.writeSide then Trail([cleared, written], Failed)
    else Trail([cleared, written, written.(side := SideFileOf(claims, generation))], Done(yes))
  }

  function Record(d: Disk, k: Key, f: Faults, generation: nat): Trail {
    if f.readMain then Trail([], Failed)
    else Rewrite(d, Keys(Lines(d)) + {k}, Kept(d, f) - {k}, true, f, generation)
  }

  function Take(d: Disk, k: Key, f: Faults, generation: nat): Trail {
    if f.readMain then Trail([], Failed)
    else Rewrite(d, Keys(Lines(d)) - {k}, Kept(d, f) - {k}, k in Keys(Lines(d)), f, generation)
  }

  /** A row that may be promoted: canonical, and not contradicted by the sidecar. */
  predicate Promotable(d: Disk, k: Key) {
    && d.main.Some? && Canonical(Lines(d), k) && Trusted(SideLines(d))
    && (Entries(SideLines(d), k) == 0 || Claims(SideLines(d), k, d.main.value.generation))
  }

  function Promote(d: Disk, k: Key, f: Faults): Trail {
    if f.readMain then Trail([], Failed)
    else if !Promotable(d, k) || f.stat || f.readSide then Trail([], Done(false))
    else if f.writeSide then Trail([], Failed)
    else Trail([d.(side := SideFileOf(Kept(d, f) + {k}, d.main.value.generation))], Done(true))
  }

  function Last(d: Disk, states: seq<Disk>): Disk { if states == [] then d else states[|states| - 1] }

  // ---- The accesses to the two files

  /** Looking for the main file's generation: seen, no file, or an error. */
  datatype Look = Seen | Absent | Hidden

  datatype Access =
    | ReadingMain(ok: bool)
    | Inspecting(look: Look)
    | ReadingSide(ok: bool)
    | WritingMain(ok: bool)
    | WritingSide(ok: bool)

  predicate Broke(x: Access) { if x.Inspecting? then x.look.Hidden? else !x.ok }

  ghost predicate AllWell(t: seq<Access>) { forall i :: 0 <= i < |t| ==> !Broke(t[i]) }

  function LookAt(d: Disk, missed: bool): Look { if d.main.None? then Absent else if missed then Hidden else Seen }

  /** The accesses of a rewrite, up to the first that fails. */
  function RewriteCalls(claims: set<Key>, f: Faults): seq<Access> {
    if f.clear then [WritingSide(false)]
    else if f.write then [WritingSide(true), WritingMain(false)]
    else if claims == {} then [WritingSide(true), WritingMain(true)]
    else if f.restat then [WritingSide(true), WritingMain(true), Inspecting(Hidden)]
    else [WritingSide(true), WritingMain(true), Inspecting(Seen), WritingSide(!f.writeSide)]
  }

  /** The accesses of a recording or taking. */
  function UpdateCalls(d: Disk, k: Key, f: Faults): seq<Access> {
    if f.readMain then [ReadingMain(false)]
    else
      [ReadingMain(true), ReadingSide(!f.readSide), Inspecting(LookAt(d, f.stat))]
      + RewriteCalls(Kept(d, f) - {k}, f)
  }

  /** The accesses of a promotion, which ends as soon as the answer is clear. */
  function PromoteCalls(d: Disk, k: Key, f: Faults): seq<Access> {
    if f.readMain then [ReadingMain(false)]
    else if !Canonical(Lines(d), k) then [ReadingMain(true)]
    else if f.stat then [ReadingMain(true), Inspecting(LookAt(d, true))]
    else if f.readSide || !Promotable(d, k) then [ReadingMain(true), Inspecting(Seen), ReadingSide(!f.readSide)]
    else [ReadingMain(true), Inspecting(Seen), ReadingSide(true), WritingSide(!f.writeSide)]
  }

  // ---- The files, and the code that reads and rewrites them

  class Store {
    var disk: Disk
    ghost var past: seq<Disk>
    ghost var accesses: seq<Access>

    constructor (d: Disk)
      ensures disk == d && past == [] && accesses == []
    {
      disk, past, accesses := d, [], [];
    }

    /** `read_signal_stop_ledger`: each named process, and whether its one row is canonical. */
    method ReadMain() returns (rows: Option<map<Key, bool>>)
      modifies this`accesses
      ensures accesses == old(accesses) + [ReadingMain(rows.Some?)]
      ensures rows.Some? ==> rows.value.Keys == Keys(Lines(disk))
      ensures rows.Some? ==> forall k :: k in rows.value ==> rows.value[k] == Canonical(Lines(disk), k)
    {
      if * {
        accesses := accesses + [ReadingMain(false)];
        return None;
      }
      var lines, m := Lines(disk), map[];
      for i := 0 to |lines|
        invariant accesses == old(accesses)
        invariant m.Keys == Keys(lines[..i])
        invariant forall k :: k in m ==> m[k] == Canonical(lines[..i], k)
      {
        assert lines[..i + 1] == lines[..i] + [lines[i]];
        forall k { RowSnoc(lines[..i], lines[i], k); }
        match lines[i] {
          case Junk =>
          case Row(k, extended) => m := m[k := k !in m && !extended];
        }
      }
      assert lines[..|lines|] == lines;
      accesses := accesses + [ReadingMain(true)];
      rows := Some(m);
    }

    /** `read_signal_stop_provenance`: the claim of each named process, and whether the sidecar is to be believed. */
    method ReadSide() returns (claims: map<Key, Option<nat>>, untrusted: bool, fault: bool)
      modifies this`accesses
      ensures accesses == old(accesses) + [ReadingSide(!fault)]
      ensures fault ==> untrusted && claims == map[]
      ensures !fault ==> untrusted == !Trusted(SideLines(disk))
      ensures !fault ==> forall k :: k in claims <==> Entries(SideLines(disk), k) > 0
      ensures !fault ==> forall k, g: nat :: k in claims ==> (claims[k] == Some(g) <==> Claims(SideLines(disk), k, g))
    {
      claims, untrusted, fault := map[], false, *;
      if fault {
        accesses := accesses + [ReadingSide(false)];
        return map[], true, true;
      }
      var side := SideLines(disk);
      for i := 0 to |side|
        invariant accesses == old(accesses)
        invariant untrusted == !Trusted(side[..i])
        invariant forall k :: k in claims <==> Entries(side[..i], k) > 0
        invariant forall k, g: nat :: k in claims ==> (claims[k] == Some(g) <==> Claims(side[..i], k, g))
      {
        assert side[..i + 1] == side[..i] + [side[i]];
        forall k, g: nat { EntrySnoc(side[..i], side[i], k, g); }
        match side[i] {
          case Unreadable => untrusted := true;
          case Entry(k, claim) =>
            claims := claims[k := if k in claims then None else claim];
        }
      }
      assert side[..|side|] == side;
      accesses := accesses + [ReadingSide(true)];
    }

    method Stat() returns (generation: Option<nat>)
      modifies this`accesses
      ensures generation.Some? ==> disk.main.Some? && generation.value == disk.main.value.generation
      ensures accesses == old(accesses) + [Inspecting(LookAt(disk, generation.None?))]
    {
      generation := None;
      if * {
        if disk.main.Some? { generation := Some(disk.main.value.generation); }
      }
      accesses := accesses + [Inspecting(LookAt(disk, generation.None?))];
    }

    /** Replaces the main file, which then has whatever generation the file system gives it. */
    method WriteMain(keys: set<Key>) returns (ok: bool, ghost generation: nat)
      modifies this
      ensures ok ==> disk == old(disk).(main := MainFileOf(keys, generation)) && past == old(past) + [disk]
      ensures !ok ==> disk == old(disk) && past == old(past)
      ensures accesses == old(accesses) + [WritingMain(ok)]
    {
      var inode: nat := *;
      generation, ok := inode, *;
      if ok {
        disk := disk.(main := MainFileOf(keys, inode));
        past := past + [disk];
      }
      accesses := accesses + [WritingMain(ok)];
    }

    method WriteSide(claims: set<Key>, generation: nat) returns (ok: bool)
      modifies this
      ensures ok ==> disk == old(disk).(side := SideFileOf(claims, generation)) && past == old(past) + [disk]
      ensures !ok ==> disk == old(disk) && past == old(past)
      ensures accesses == old(accesses) + [WritingSide(ok)]
    {
      ok := *;
      if ok {
        disk := disk.(side := SideFileOf(claims, generation));
        past := past + [disk];
      }
      accesses := accesses + [WritingSide(ok)];
    }

    /** `rewrite_main_ledger_with_rebound_provenance`. */
    method RewriteBoth(keys: set<Key>, claims: set<Key>, yes: bool, ghost f0: Faults)
      returns (ok: bool, ghost f: Faults, ghost generation: nat)
      requires claims <= keys && f0 == ReadFaults(f0.readSide, f0.stat)
      modifies this
      ensures f.readMain == f0.readMain && f.readSide == f0.readSide && f.stat == f0.stat
      ensures ok == Rewrite(old(disk), keys, claims, yes, f, generation).answer.Done?
      ensures past == old(past) + Rewrite(old(disk), keys, claims, yes, f, generation).states
      ensures disk == Last(old(disk), Rewrite(old(disk), keys, claims, yes, f, generation).states)
      ensures accesses == old(accesses) + RewriteCalls(claims, f)
      ensures AllWell(RewriteCalls(claims, f)) <==> !f.clear && !f.write && !f.restat && !f.writeSide
    {
      f, generation := f0, 0;
      ok := WriteSide({}, 0);
      f := f.(clear := !ok);
      CallsMean(claims, f);
      if !ok { return; }
      ok, generation := WriteMain(keys);
      f := f.(write := !ok);
      CallsMean(claims, f);
      if !ok || claims == {} { return; }
      ok, f := Rebind(keys, claims, generation, f);
      CallsMean(claims, f);
    }

    method Rebind(keys: set<Key>, claims: set<Key>, ghost generation: nat, ghost f0: Faults)
      returns (ok: bool, ghost f: Faults)
      requires {} < claims <= keys && disk.main == MainFileOf(keys, generation) && !f0.restat && !f0.writeSide
      modifies this
      ensures f == f0.(restat := f.restat, writeSide := f.writeSide) && ok == !(f.restat || f.writeSide)
      ensures f.restat ==> !f.writeSide
      ensures ok ==> disk == old(disk).(side := SideFileOf(claims, generation)) && past == old(past) + [disk]
      ensures !ok ==> disk == old(disk) && past == old(past)
      ensures accesses == old(accesses) + if f.restat then [Inspecting(Hidden)]
                                          else [Inspecting(Seen), WritingSide(!f.writeSide)]
    {
      var current := Stat();
      f := f0.(restat := current.None?);
      if current.None? { return false, f; }
      ok := WriteSide(claims, current.value);
      f := f.(writeSide := !ok);
    }

    /** What every rewrite starts with: the sidecar's claims that are still good. */
    method CurrentClaims(rows: map<Key, bool>) returns (kept: set<Key>, ghost f: Faults)
      requires rows.Keys == Keys(Lines(disk))
      requires forall k :: k in rows ==> rows[k] == Canonical(Lines(disk), k)
      modifies this`accesses
      ensures kept == Kept(disk, f) && f == ReadFaults(f.readSide, f.stat) && (disk.main.None? ==> f.stat)
      ensures accesses == old(accesses) + [ReadingSide(!f.readSide), Inspecting(LookAt(disk, f.stat))]
    {
      var claims, untrusted, fault;
      claims, untrusted, fault := ReadSide();
      var generation := Stat();
      f := ReadFaults(fault, generation.None?);
      kept := if untrusted || generation.None? then {}
              else set k | k in rows && rows[k] && k in claims && claims[k] == generation;
    }

    /** `record_freezeit_signal_stop_at_path`. */
    method RecordStop(k: Key) returns (ok: bool, ghost f: Faults, ghost generation: nat)
      modifies this
      ensures ok == Record(old(disk), k, f, generation).answer.Done?
      ensures past == old(past) + Record(old(disk), k, f, generation).states
      ensures disk == Last(old(disk), Record(old(disk), k, f, generation).states)
      ensures accesses == old(accesses) + UpdateCalls(old(disk), k, f)
      ensures AllWell(UpdateCalls(old(disk), k, f)) <==> Sound(old(disk), f)
    {
      ghost var d := disk;
      var rows := ReadMain();
      f, generation := MainFault(), 0;
      if rows.None? {
        UpdateMeans(d, k, f);
        return false, f, generation;
      }
      var kept;
      kept, f := CurrentClaims(rows.value);
      ok, f, generation := RewriteBoth(rows.value.Keys + {k}, kept - {k}, true, f);
      UpdateMeans(d, k, f);
    }

    /** `take_freezeit_signal_stop_at_path`. */
    method TakeStop(k: Key) returns (answer: Answer, ghost f: Faults, ghost generation: nat)
      modifies this
      ensures answer == Take(old(disk), k, f, generation).answer
      ensures past == old(past) + Take(old(disk), k, f, generation).states
      ensures disk == Last(old(disk), Take(old(disk), k, f, generation).states)
      ensures accesses == old(accesses) + UpdateCalls(old(disk), k, f)
      ensures AllWell(UpdateCalls(old(disk), k, f)) <==> Sound(old(disk), f)
    {
      ghost var d := disk;
      var rows := ReadMain();
      f, generation := MainFault(), 0;
      if rows.None? {
        UpdateMeans(d, k, f);
        return Failed, f, generation;
      }
      var kept, ok;
      kept, f := CurrentClaims(rows.value);
      ok, f, generation := RewriteBoth(rows.value.Keys - {k}, kept - {k}, k in rows.value, f);
      UpdateMeans(d, k, f);
      answer := if ok then Done(k in rows.value) else Failed;
    }

    /** `promote_freezeit_signal_stop_at_path`. */
    method PromoteStop(k: Key) returns (answer: Answer, ghost f: Faults)
      modifies this
      ensures answer == Promote(old(disk), k, f).answer
      ensures past == old(past) + Promote(old(disk), k, f).states
      ensures disk == Last(old(disk), Promote(old(disk), k, f).states)
      ensures accesses == old(accesses) + PromoteCalls(old(disk), k, f)
      ensures AllWell(PromoteCalls(old(disk), k, f)) <==> Sound(old(disk), f)
    {
      f := ReadFaults(false, false);
      var rows := ReadMain();
      RowsAndKeys(Lines(disk), k);
      if rows.None? {
        PromotionFails(disk, k, MainFault());
        return Failed, MainFault();
      }
      PromotionFails(disk, k, f);
      if k !in rows.value || !rows.value[k] { return Done(false), f; }
      answer, f := PromoteRow(k, rows.value);
    }

    /** The row is canonical: its claim is written unless the generation is not to be had or the sidecar objects. */
    method PromoteRow(k: Key, rows: map<Key, bool>) returns (answer: Answer, ghost f: Faults)
      requires rows.Keys == Keys(Lines(disk)) && Canonical(Lines(disk), k)
      requires forall x :: x in rows ==> rows[x] == Canonical(Lines(disk), x)
      modifies this
      ensures !f.readMain && answer == Promote(old(disk), k, f).answer
      ensures past == old(past) + Promote(old(disk), k, f).states
      ensures disk == Last(old(disk), Promote(old(disk), k, f).states)
      ensures accesses == old(accesses) + PromoteCalls(old(disk), k, f)[1..]
      ensures AllWell(PromoteCalls(old(disk), k, f)) <==> Sound(old(disk), f)
    {
      ghost var d := disk;
      var generation := Stat();
      RowsAndKeys(Lines(d), k);
      f := ReadFaults(false, generation.None?);
      PromotionFails(d, k, f);
      if generation.None? { return Done(false), f; }
      var claims, untrusted, fault;
      claims, untrusted, fault := ReadSide();
      f := ReadFaults(fault, false);
      PromotionFails(d, k, f);
      if untrusted || (k in claims && claims[k] != generation) { return Done(false), f; }
      var kept := set x | x in rows && rows[x] && x in claims && claims[x] == generation;
      assert kept == Kept(disk, f);
      var ok := WriteSide(kept + {k}, generation.value);
      f := f.(writeSide := !ok);
      PromotionFails(d, k, f);
      answer := if ok then Done(true) else Failed;
    }

    /** `recorded_signal_stop_ownership_from_ledger`. An access that fails can only make the answer weaker. */
    method RecordedOwnership(k: Key) returns (ok: bool, owned: Option<Ownership>, ghost calls: seq<Access>)
      modifies this`accesses
      ensures accesses == old(accesses) + calls && calls != [] && calls[0] == ReadingMain(ok)
      ensures ok ==> WeakerOrSame(owned, Report(disk, k))
      ensures AllWell(calls) ==> ok && owned == Report(disk, k)
    {
      var rows := ReadMain();
      calls := [ReadingMain(rows.Some?)];
      if rows.None? {
        assert Broke(calls[0]);
        return false, None, calls;
      }
      if k !in rows.value { return true, None, calls; }
      var generation := Stat();
      calls := calls + [Inspecting(LookAt(disk, generation.None?))];
      assert disk.main.Some?;
      assert calls[1] == Inspecting(LookAt(disk, generation.None?));
      if !rows.value[k] || generation.None? { return true, Some(ResidualUnknown), calls; }
      var claims, untrusted, fault;
      claims, untrusted, fault := ReadSide();
      calls := calls + [ReadingSide(!fault)];
      assert calls[2] == ReadingSide(!fault);
      var proven := !untrusted && k in claims && claims[k] == generation;
      return true, Some(if proven then SignalOnly else ResidualUnknown), calls;
    }
  }

  /** Faults of reading the sidecar and the generation only. */
  function ReadFaults(side: bool, stat: bool): Faults { Faults(false, side, stat, false, false, false, false) }

  function MainFault(): Faults { Faults(true, false, false, false, false, false, false) }

  /** Faults as an operation finds them: none after the one that ended it. */
  predicate InOrder(f: Faults) {
    && (f.clear ==> !f.write && !f.restat && !f.writeSide)
    && (f.write ==> !f.restat && !f.writeSide)
    && (f.restat ==> !f.writeSide)
  }

  lemma CallsMean(claims: set<Key>, f: Faults)
    requires InOrder(f) && (claims == {} ==> !f.restat && !f.writeSide)
    ensures AllWell(RewriteCalls(claims, f)) <==> !f.clear && !f.write && !f.restat && !f.writeSide
  {
    var t := RewriteCalls(claims, f);
    if f.clear {
      assert Broke(t[0]);
    } else if f.write {
      assert Broke(t[1]);
    } else if f.restat {
      assert Broke(t[2]);
    } else if f.writeSide {
      assert Broke(t[3]);
    }
  }

  lemma UpdateMeans(d: Disk, k: Key, f: Faults)
    requires f == MainFault() ||
             (!f.readMain && (d.main.None? ==> f.stat)
              && (AllWell(RewriteCalls(Kept(d, f) - {k}, f)) <==> !f.clear && !f.write && !f.restat && !f.writeSide))
    ensures AllWell(UpdateCalls(d, k, f)) <==> Sound(d, f)
  {
    var t := UpdateCalls(d, k, f);
    if f.readMain {
      assert Broke(t[0]);
    } else {
      var tail := RewriteCalls(Kept(d, f) - {k}, f);
      assert Broke(t[1]) == f.readSide && Broke(t[2]) == LookAt(d, f.stat).Hidden?;
      assert forall i :: 0 <= i < |tail| ==> t[3 + i] == tail[i];
    }
  }

  lemma PromotionFails(d: Disk, k: Key, f: Faults)
    requires f == MainFault() || (f == ReadFaults(false, f.stat) && (f.stat ==> Canonical(Lines(d), k)))
             || (f == ReadFaults(f.readSide, false) && Canonical(Lines(d), k))
             || (f == ReadFaults(false, false).(writeSide := f.writeSide) && Promotable(d, k))
    ensures AllWell(PromoteCalls(d, k, f)) <==> Sound(d, f)
  {
    var t := PromoteCalls(d, k, f);
    RowsAndKeys(Lines(d), k);
    if f.readMain {
      assert Broke(t[0]);
    } else if f.stat {
      assert Broke(t[1]);
    } else if f.readSide {
      assert Broke(t[2]);
    } else if f.writeSide {
      assert Broke(t[3]);
    }
  }

  lemma {:induction false} NoEntryOf(side: seq<SideLine>, k: Key)
    ensures Entries(side, k) == 0 <==> forall l :: l in side && l.Entry? ==> l.key != k
  {
    if side == [] {
    } else {
      var n := |side| - 1;
      NoEntryOf(side[..n], k);
      assert forall l :: l in side <==> l in side[..n] || l == side[n];
    }
  }
}
