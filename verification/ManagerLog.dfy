/** The deduplicating, bounded manager log, and the ring of recent operations that is copied into it every second. */
module ManagerLogging {
  import opened Domain

  const MAX_RETAINED_BYTES: nat := 1_000_000
  const RECORD_OVERHEAD: nat := 128
  const RING_CAPACITY: nat := 128
  const MAX_VERSION: nat := 0xFFFF_FFFF_FFFF_FFFF

  /** A control operation; `content` stands for everything but its identity and time. */
  datatype Operation = Operation(id: nat, timestamp: nat, content: string)

  datatype Level = Info | Warn | Error | Critical | Debug

  datatype Category = LegacyOperation | Diagnostic | Fault

  datatype Payload = Text(text: string) | VerifiedLine(line: string) | Op(op: Operation)

  /** `payloadBytes` is the memory its texts take. */
  datatype LogRecord =
    LogRecord(level: Level, category: Category, timestamp: nat, payload: Payload, payloadBytes: nat) {
    function Bytes(): nat { RECORD_OVERHEAD + payloadBytes }
  }

  // ---- The log as a value

  datatype Log = Log(
    capacity: nat, records: seq<LogRecord>, retained: nat, highest: nat, cutoff: Option<nat>, version: nat)

  function Total(records: seq<LogRecord>): nat {
    if records == [] then 0 else records[0].Bytes() + Total(records[1..])
  }

  predicate Known(records: seq<LogRecord>, p: Payload) { exists i :: 0 <= i < |records| && records[i].payload == p }

  predicate KnownAs(records: seq<LogRecord>, r: LogRecord) {
    exists i :: 0 <= i < |records| && records[i].level == r.level && records[i].category == r.category
      && records[i].payload == r.payload
  }

  predicate Admits(log: Log, r: LogRecord) {
    && (r.payload.Op? ==>
          && (log.cutoff.Some? ==> r.payload.op.timestamp > log.cutoff.value)
          && (if r.payload.op.id != 0 then r.payload.op.id > log.highest else !Known(log.records, r.payload)))
    && r.Bytes() <= MAX_RETAINED_BYTES
  }

  predicate Fits(log: Log, count: nat, retained: nat, bytes: nat) {
    count < log.capacity && retained + bytes <= MAX_RETAINED_BYTES
  }

  /** How many of the oldest records make room for one more. */
  function Evicted(log: Log, bytes: nat, n: nat): (k: nat)
    requires n <= |log.records|
    ensures n <= k <= |log.records|
    decreases |log.records| - n
  {
    if n == |log.records| || Fits(log, |log.records| - n, Total(log.records[n..]), bytes) then n
    else Evicted(log, bytes, n + 1)
  }

  function Push(log: Log, r: LogRecord): Log {
    if !Admits(log, r) then log
    else
      var rest := log.records[Evicted(log, r.Bytes(), 0)..];
      log.(records := rest + [r], retained := Total(rest) + r.Bytes(),
           highest := if r.payload.Op? && r.payload.op.id != 0 then r.payload.op.id else log.highest,
           version := Bump(log.version))
  }

  function Bump(version: nat): nat { if version < MAX_VERSION then version + 1 else version }

  function Clear(log: Log, now: nat): Log {
    log.(records := [], retained := 0, cutoff := Some(now),
         version := if log.records == [] then log.version else Bump(log.version))
  }

  ghost predicate IdsIncrease(records: seq<LogRecord>) {
    forall i, j :: 0 <= i < j < |records| && Stamped(records[i]) && Stamped(records[j]) ==>
      records[i].payload.op.id < records[j].payload.op.id
  }

  predicate Stamped(r: LogRecord) { r.payload.Op? && r.payload.op.id != 0 }

  ghost predicate Valid(log: Log) {
    && 1 <= log.capacity && |log.records| <= log.capacity
    && log.retained == Total(log.records) <= 1_000_000
    && IdsIncrease(log.records)
    && forall i :: 0 <= i < |log.records| && Stamped(log.records[i]) ==> log.records[i].payload.op.id <= log.highest
  }

  lemma {:induction false} TotalSnoc(records: seq<LogRecord>, r: LogRecord)
    ensures Total(records + [r]) == Total(records) + r.Bytes()
  {
    if records == [] {
      assert (records + [r])[1..] == [];
    } else {
      assert (records + [r])[1..] == records[1..] + [r];
      TotalSnoc(records[1..], r);
    }
  }

  /** Eviction stops as soon as the record fits, and it always ends in a log that the record fits. */
  lemma {:induction false} EvictsLeast(log: Log, bytes: nat, n: nat)
    requires n <= |log.records| && 1 <= log.capacity && bytes <= 1_000_000
    ensures var k := Evicted(log, bytes, n);
            && |log.records| - k < log.capacity && Total(log.records[k..]) + bytes <= 1_000_000
            && forall j :: n <= j < k ==>
                 |log.records| - j >= log.capacity || Total(log.records[j..]) + bytes > 1_000_000
    decreases |log.records| - n
  {
    if n == |log.records| {
      assert log.records[n..] == [];
    } else if !Fits(log, |log.records| - n, Total(log.records[n..]), bytes) {
      EvictsLeast(log, bytes, n + 1);
      assert Evicted(log, bytes, n) == Evicted(log, bytes, n + 1);
    }
  }

  /** Every push keeps the bounds, the byte count and the order of identities. */
  lemma PushKeepsValid(log: Log, r: LogRecord)
    requires Valid(log)
    ensures Valid(Push(log, r))
  {
    if Admits(log, r) {
      var k := Evicted(log, r.Bytes(), 0);
      EvictsLeast(log, r.Bytes(), 0);
      TotalSnoc(log.records[k..], r);
    }
  }

  // ---- The log as the daemon keeps it

  class ManagerLog {
    const capacity: nat
    var records: seq<LogRecord>
    var retained: nat
    var highest: nat
    var cutoff: Option<nat>
    var version: nat

    constructor (capacity: nat)
      ensures Seen() == Log(if capacity < 1 then 1 else capacity, [], 0, 0, None, 0) && Valid(Seen())
    {
      this.capacity := if capacity < 1 then 1 else capacity;
      records, retained, highest, cutoff, version := [], 0, 0, None, 0;
    }

    function Seen(): Log
      reads this
    {
      Log(capacity, records, retained, highest, cutoff, version)
    }

    method PushRecord(r: LogRecord)
      requires Valid(Seen())
      modifies this
      ensures Seen() == Push(old(Seen()), r) && Valid(Seen())
    {
      PushKeepsValid(Seen(), r);
      if r.payload.Op? {
        var op := r.payload.op;
        if cutoff.Some? && op.timestamp <= cutoff.value { return; }
        if op.id != 0 {
          if op.id <= highest { return; }
        } else if Known(records, r.payload) {
          return;
        }
      }
      if r.Bytes() > MAX_RETAINED_BYTES { return; }
      MakeRoom(r.Bytes());
      if r.payload.Op? && r.payload.op.id != 0 { highest := r.payload.op.id; }
      retained := retained + r.Bytes();
      records := records + [r];
      version := Bump(version);
    }

    /** Drops the oldest records until there is room. */
    method MakeRoom(bytes: nat)
      requires retained == Total(records) && 1 <= capacity && bytes <= MAX_RETAINED_BYTES
      modifies this`records, this`retained
      ensures records == old(records)[Evicted(old(Seen()), bytes, 0)..] && retained == Total(records)
    {
      ghost var start, n: nat := Seen(), 0;
      assert records == start.records[0..];
      while |records| >= capacity || retained + bytes > MAX_RETAINED_BYTES
        invariant n <= |start.records| && records == start.records[n..] && retained == Total(records)
        invariant Evicted(start, bytes, 0) == Evicted(start, bytes, n)
        decreases |records|
      {
        if records == [] { break; }
        retained := retained - records[0].Bytes();
        records := records[1..];
        n := n + 1;
      }
    }

    method PushOnce(r: LogRecord)
      requires Valid(Seen())
      modifies this
      ensures Seen() == (if KnownAs(old(records), r) then old(Seen()) else Push(old(Seen()), r)) && Valid(Seen())
    {
      if !KnownAs(records, r) { PushRecord(r); }
    }

    method ClearAll(now: nat)
      requires Valid(Seen())
      modifies this
      ensures Seen() == Clear(old(Seen()), now) && Valid(Seen())
    {
      cutoff := Some(now);
      var had := records != [];
      records, retained := [], 0;
      if had { version := Bump(version); }
    }

    /** The end of a control iteration: the whole ring again, oldest first. */
    method CopyRing(ring: seq<LogRecord>)
      requires Valid(Seen())
      modifies this
      ensures Seen() == PushAll(old(Seen()), ring) && Valid(Seen())
    {
      for i := 0 to |ring|
        invariant Seen() == PushAll(old(Seen()), ring[..i]) && Valid(Seen())
      {
        assert ring[..i + 1][..i] == ring[..i];
        PushRecord(ring[i]);
      }
      assert ring[..|ring|] == ring;
    }
  }

  function PushAll(log: Log, rs: seq<LogRecord>): Log {
    if rs == [] then log else Push(PushAll(log, rs[..|rs| - 1]), rs[|rs| - 1])
  }

  /** The records of a list that are admitted while it is pushed in order. */
  function Accepted(log: Log, rs: seq<LogRecord>): seq<LogRecord> {
    if rs == [] then []
    else
      var n := |rs| - 1;
      Accepted(log, rs[..n]) + if Admits(PushAll(log, rs[..n]), rs[n]) then [rs[n]] else []
  }

  /** The ring that the control thread stamps operations into. */
  class OperationRing {
    var records: seq<LogRecord>

    constructor ()
      ensures records == []
    {
      records := [];
    }

    method PushOperation(r: LogRecord)
      requires |records| <= RING_CAPACITY
      modifies this
      ensures records == RingPush(old(records), r) && |records| <= RING_CAPACITY
    {
      if |records| == RING_CAPACITY { records := records[1..]; }
      records := records + [r];
    }
  }

  function RingPush(ring: seq<LogRecord>, r: LogRecord): seq<LogRecord> {
    (if |ring| == RING_CAPACITY then ring[1..] else ring) + [r]
  }

  // ---- Runs: operations are stamped, the ring is copied, other records arrive, the log is cleared

  datatype Event =
    | Stamp(level: Level, timestamp: nat, content: string, payloadBytes: nat)
    | Copy
    | Note(record: LogRecord, once: bool)
    | Cleared(now: nat)

  /** `accepted` lists every operation the log ever admitted. */
  datatype System = System(ring: seq<LogRecord>, next: nat, log: Log, accepted: seq<LogRecord>)

  function StampedRecord(e: Event, id: nat): LogRecord
    requires e.Stamp?
  {
    LogRecord(e.level, LegacyOperation, e.timestamp, Op(Operation(id, e.timestamp, e.content)), e.payloadBytes)
  }

  function Do(s: System, e: Event): System {
    match e
    case Stamp(_, _, _, _) => s.(ring := RingPush(s.ring, StampedRecord(e, s.next)), next := s.next + 1)
    case Copy => s.(log := PushAll(s.log, s.ring), accepted := s.accepted + Accepted(s.log, s.ring))
    case Note(r, once) => if r.payload.Op? || (once && KnownAs(s.log.records, r)) then s else s.(log := Push(s.log, r))
    case Cleared(now) => s.(log := Clear(s.log, now))
  }

  function Fresh(capacity: nat): System
    requires 1 <= capacity
  {
    System([], 1, Log(capacity, [], 0, 0, None, 0), [])
  }

  function After(capacity: nat, events: seq<Event>): System
    requires 1 <= capacity
  {
    if events == [] then Fresh(capacity) else Do(After(capacity, events[..|events| - 1]), events[|events| - 1])
  }

  lemma {:induction false} PushAllKeepsValid(log: Log, rs: seq<LogRecord>)
    requires Valid(log)
    ensures Valid(PushAll(log, rs))
  {
    if rs == [] {
    } else {
      PushAllKeepsValid(log, rs[..|rs| - 1]);
      PushKeepsValid(PushAll(log, rs[..|rs| - 1]), rs[|rs| - 1]);
    }
  }

  /** In every run the log is within its capacity and byte limit, counts its bytes, and its identities increase. */
  lemma {:induction false} RunKeepsLogValid(capacity: nat, events: seq<Event>)
    requires 1 <= capacity
    ensures Valid(After(capacity, events).log)
  {
    if events == [] {
    } else {
      var n := |events| - 1;
      RunKeepsLogValid(capacity, events[..n]);
      var s := After(capacity, events[..n]);
      match events[n]
      case Stamp(_, _, _, _) =>
      case Copy => PushAllKeepsValid(s.log, s.ring);
      case Note(r, _) => PushKeepsValid(s.log, r);
      case Cleared(_) =>
    }
  }

  // ---- At most once

  ghost predicate AllStamped(rs: seq<LogRecord>) { forall i :: 0 <= i < |rs| ==> Stamped(rs[i]) }

  ghost predicate Rising(rs: seq<LogRecord>) {
    AllStamped(rs) && forall i, j :: 0 <= i < j < |rs| ==> rs[i].payload.op.id < rs[j].payload.op.id
  }

  ghost predicate UpTo(rs: seq<LogRecord>, highest: nat) {
    AllStamped(rs) && forall i :: 0 <= i < |rs| ==> rs[i].payload.op.id <= highest
  }

  lemma {:induction false} AcceptedRise(log: Log, rs: seq<LogRecord>)
    requires AllStamped(rs)
    ensures Rising(Accepted(log, rs)) && UpTo(Accepted(log, rs), PushAll(log, rs).highest)
    ensures log.highest <= PushAll(log, rs).highest
    ensures forall i :: 0 <= i < |Accepted(log, rs)| ==> Accepted(log, rs)[i].payload.op.id > log.highest
    ensures PushAll(log, rs).cutoff == log.cutoff
  {
    if rs == [] {
    } else {
      AcceptedRise(log, rs[..|rs| - 1]);
    }
  }

  ghost predicate RingFits(s: System) {
    && AllStamped(s.ring) && |s.ring| <= RING_CAPACITY && |s.ring| < s.next
    && forall i :: 0 <= i < |s.ring| ==> s.ring[i].payload.op.id == s.next - |s.ring| + i
  }

  ghost predicate AcceptedOnce(s: System) { Rising(s.accepted) && UpTo(s.accepted, s.log.highest) }

  lemma {:induction false} RunKeepsAcceptedOnce(capacity: nat, events: seq<Event>)
    requires 1 <= capacity
    ensures RingFits(After(capacity, events)) && AcceptedOnce(After(capacity, events))
  {
    if events == [] {
    } else {
      var n := |events| - 1;
      RunKeepsAcceptedOnce(capacity, events[..n]);
      var s := After(capacity, events[..n]);
      if events[n].Copy? {
        AcceptedRise(s.log, s.ring);
        RisingConcat(s.accepted, Accepted(s.log, s.ring), s.log.highest);
      }
    }
  }

  lemma RisingConcat(a: seq<LogRecord>, b: seq<LogRecord>, highest: nat)
    requires Rising(a) && UpTo(a, highest) && Rising(b)
    requires forall i :: 0 <= i < |b| ==> b[i].payload.op.id > highest
    ensures Rising(a + b)
  {
  }

  /** In every run, no operation is admitted twice, not even after it was evicted or the log was cleared. */
  lemma {:induction false} EveryOperationAtMostOnce(capacity: nat, events: seq<Event>, i: nat, j: nat)
    requires 1 <= capacity
    requires i < j < |After(capacity, events).accepted|
    ensures var a := After(capacity, events).accepted;
            Stamped(a[i]) && Stamped(a[j]) && a[i].payload.op.id < a[j].payload.op.id
  {
    RunKeepsAcceptedOnce(capacity, events);
  }

  // ---- Exactly once, as far as the ring reaches

  /**
    The simple machine: stamped operations wait, at most as many as the ring holds, and the oldest beyond that are lost.
    A copy hands over those that the cutoff and the size allow; what was stamped after the last of these goes on
    waiting.
   */
  datatype Simple = Simple(
    waiting: seq<LogRecord>, next: nat, cutoff: Option<nat>, handed: seq<LogRecord>, lost: seq<LogRecord>)

  predicate Allowed(r: LogRecord, cutoff: Option<nat>) {
    128 + r.payloadBytes <= 1_000_000 && (r.payload.Op? && cutoff.Some? ==> r.payload.op.timestamp > cutoff.value)
  }

  function AllAllowed(rs: seq<LogRecord>, cutoff: Option<nat>): seq<LogRecord> {
    if rs == [] then []
    else
      var n := |rs| - 1;
      AllAllowed(rs[..n], cutoff) + if Allowed(rs[n], cutoff) then [rs[n]] else []
  }

  /** What comes after the last allowed one. */
  function Leftover(rs: seq<LogRecord>, cutoff: Option<nat>): (r: seq<LogRecord>)
    ensures |r| <= |rs|
  {
    if rs == [] then []
    else
      var n := |rs| - 1;
      if Allowed(rs[n], cutoff) then [] else Leftover(rs[..n], cutoff) + [rs[n]]
  }

  function SimpleDo(s: Simple, e: Event): Simple {
    match e
    case Stamp(_, _, _, _) =>
      s.(waiting := RingPush(s.waiting, StampedRecord(e, s.next)), next := s.next + 1,
         lost := s.lost + if |s.waiting| == 128 then [s.waiting[0]] else [])
    case Copy => s.(waiting := Leftover(s.waiting, s.cutoff), handed := s.handed + AllAllowed(s.waiting, s.cutoff))
    case Note(_, _) => s
    case Cleared(now) => s.(cutoff := Some(now))
  }

  function SimpleAfter(events: seq<Event>): Simple {
    if events == [] then Simple([], 1, None, [], [])
    else SimpleDo(SimpleAfter(events[..|events| - 1]), events[|events| - 1])
  }

  function IdOf(r: LogRecord): nat { if r.payload.Op? then r.payload.op.id else 0 }

  predicate EndsIn(ring: seq<LogRecord>, waiting: seq<LogRecord>) {
    |waiting| <= |ring| && ring[|ring| - |waiting|..] == waiting
  }

  /** The ring ends in the waiting operations, and the log's mark is just before the first of them. */
  ghost predicate Refines(s: System, m: Simple) {
    && s.next == m.next && s.log.cutoff == m.cutoff && s.accepted == m.handed
    && EndsIn(s.ring, m.waiting)
    && s.log.highest < s.next - |m.waiting|
    && (|m.waiting| < |s.ring| ==> s.log.highest == s.next - |m.waiting| - 1)
  }

  lemma {:induction false} PushAllConcat(log: Log, a: seq<LogRecord>, b: seq<LogRecord>)
    ensures PushAll(log, a + b) == PushAll(PushAll(log, a), b)
    ensures Accepted(log, a + b) == Accepted(log, a) + Accepted(PushAll(log, a), b)
  {
    if b == [] {
      assert a + b == a;
    } else {
      var n := |b| - 1;
      assert (a + b)[..|a| + n] == a + b[..n];
      PushAllConcat(log, a, b[..n]);
    }
  }

  lemma {:induction false} AllRejected(log: Log, rs: seq<LogRecord>)
    requires forall i :: 0 <= i < |rs| ==> !Admits(log, rs[i])
    ensures PushAll(log, rs) == log && Accepted(log, rs) == []
  {
    if rs == [] {
    } else {
      AllRejected(log, rs[..|rs| - 1]);
    }
  }

  /** Consecutive operations that are all new: exactly the allowed ones are admitted, and the mark moves to the last. */
  lemma {:induction false} NewOnesAccepted(log: Log, rs: seq<LogRecord>, first: nat)
    requires log.highest < first && AllStamped(rs) && forall i :: 0 <= i < |rs| ==> IdOf(rs[i]) == first + i
    ensures Accepted(log, rs) == AllAllowed(rs, log.cutoff)
    ensures PushAll(log, rs).cutoff == log.cutoff && PushAll(log, rs).highest < first + |rs|
    ensures var k := |rs| - |Leftover(rs, log.cutoff)|;
            PushAll(log, rs).highest == if k == 0 then log.highest else first + k - 1
  {
    if rs == [] {
    } else {
      NewOnesAccepted(log, rs[..|rs| - 1], first);
    }
  }

  /** Copying the ring comes to pushing what waits: everything before it is refused again. */
  lemma CopyIsPushOfWaiting(s: System, m: Simple)
    requires RingFits(s) && Refines(s, m)
    ensures PushAll(s.log, s.ring) == PushAll(s.log, m.waiting) && Accepted(s.log, s.ring) == Accepted(s.log, m.waiting)
  {
    var k := |s.ring| - |m.waiting|;
    var older := s.ring[..k];
    assert s.ring == older + m.waiting;
    PushAllConcat(s.log, older, m.waiting);
    forall i | 0 <= i < k ensures !Admits(s.log, older[i]) { assert older[i] == s.ring[i]; }
    AllRejected(s.log, older);
  }

  lemma CopyLands(s: System, m: Simple)
    requires RingFits(s) && Refines(s, m)
    ensures Accepted(s.log, s.ring) == AllAllowed(m.waiting, m.cutoff) && PushAll(s.log, s.ring).cutoff == m.cutoff
    ensures var left := |Leftover(m.waiting, m.cutoff)|;
            PushAll(s.log, s.ring).highest == if left == |m.waiting| then s.log.highest else s.next - left - 1
  {
    var k := |s.ring| - |m.waiting|;
    CopyIsPushOfWaiting(s, m);
    assert forall i :: 0 <= i < |m.waiting| ==> m.waiting[i] == s.ring[k + i];
    NewOnesAccepted(s.log, m.waiting, s.next - |m.waiting|);
  }

  lemma {:induction false} LeftoverEnds(rs: seq<LogRecord>, cutoff: Option<nat>)
    ensures EndsIn(rs, Leftover(rs, cutoff))
  {
    if rs == [] {
    } else {
      LeftoverEnds(rs[..|rs| - 1], cutoff);
    }
  }

  lemma EndOfEnd(ring: seq<LogRecord>, waiting: seq<LogRecord>, left: seq<LogRecord>)
    requires EndsIn(ring, waiting) && EndsIn(waiting, left)
    ensures EndsIn(ring, left)
  {
    assert ring[|ring| - |left|..] == ring[|ring| - |waiting|..][|waiting| - |left|..];
  }

  lemma CopyRefines(s: System, m: Simple)
    requires RingFits(s) && Refines(s, m)
    ensures Refines(Do(s, Copy), SimpleDo(m, Copy))
  {
    CopyLands(s, m);
    LeftoverEnds(m.waiting, m.cutoff);
    EndOfEnd(s.ring, m.waiting, Leftover(m.waiting, m.cutoff));
    var now, left := Do(s, Copy), SimpleDo(m, Copy);
    assert now.ring == s.ring && left.waiting == Leftover(m.waiting, m.cutoff);
    assert EndsIn(now.ring, left.waiting);
  }

  lemma SuffixOfPush(ring: seq<LogRecord>, waiting: seq<LogRecord>, r: LogRecord)
    requires EndsIn(ring, waiting) && |ring| <= 128
    ensures EndsIn(RingPush(ring, r), RingPush(waiting, r))
  {
    assert |waiting| == 128 ==> ring == waiting;
  }

  lemma StampRefines(s: System, m: Simple, e: Event)
    requires RingFits(s) && Refines(s, m) && e.Stamp?
    ensures Refines(Do(s, e), SimpleDo(m, e))
  {
    SuffixOfPush(s.ring, m.waiting, StampedRecord(e, s.next));
  }

  lemma StepRefines(s: System, m: Simple, e: Event)
    requires RingFits(s) && Refines(s, m)
    ensures Refines(Do(s, e), SimpleDo(m, e))
  {
    match e
    case Stamp(_, _, _, _) => StampRefines(s, m, e);
    case Copy => CopyRefines(s, m);
    case Note(_, _) =>
    case Cleared(_) =>
  }

  /**
    On every run the 128-entry ring, copied whole again and again into the deduplicating log, is the simple machine.
   */
  lemma {:induction false} RingRefinesQueue(capacity: nat, events: seq<Event>)
    requires 1 <= capacity
    ensures Refines(After(capacity, events), SimpleAfter(events))
    ensures After(capacity, events).accepted == SimpleAfter(events).handed
  {
    if events == [] {
    } else {
      var n := |events| - 1;
      RingRefinesQueue(capacity, events[..n]);
      RunKeepsAcceptedOnce(capacity, events[..n]);
      StepRefines(After(capacity, events[..n]), SimpleAfter(events[..n]), events[n]);
    }
  }

  // ---- Which operations are handed over

  /** The first copy after event `i`, or the end of the run. */
  function NextCopy(events: seq<Event>, i: nat): (j: nat)
    requires i < |events|
    ensures i < j <= |events| && (j < |events| ==> events[j].Copy?)
    ensures forall k :: i < k < j ==> !events[k].Copy?
    decreases |events| - i
  {
    if i + 1 == |events| || events[i + 1].Copy? then i + 1 else NextCopy(events, i + 1)
  }

  function StampCount(events: seq<Event>): nat {
    if events == [] then 0 else StampCount(events[..|events| - 1]) + if events[|events| - 1].Stamp? then 1 else 0
  }

  /** How many operations are stamped from event `i` up to event `n`. */
  function StampsFrom(events: seq<Event>, i: nat, n: nat): nat
    requires i <= n <= |events|
  {
    StampCount(events[i..n])
  }

  lemma StampsFromNext(events: seq<Event>, i: nat, n: nat)
    requires i <= n < |events|
    ensures StampsFrom(events, i, n + 1) == StampsFrom(events, i, n) + if events[n].Stamp? then 1 else 0
  {
    assert events[i..n + 1][..n - i] == events[i..n];
  }

  lemma SimpleNext(events: seq<Event>, n: nat)
    requires n < |events|
    ensures SimpleAfter(events[..n + 1]) == SimpleDo(SimpleAfter(events[..n]), events[n])
  {
    assert events[..n + 1][..n] == events[..n];
  }

  /** The waiting operations are the last ones stamped, and whatever was handed over was stamped. */
  ghost predicate SimpleFits(m: Simple) {
    && |m.waiting| <= 128 && |m.waiting| < m.next
    && (forall i :: 0 <= i < |m.waiting| ==> IdOf(m.waiting[i]) == m.next - |m.waiting| + i)
    && (forall r :: r in m.handed ==> IdOf(r) < m.next)
  }

  lemma {:induction false} AllAllowedMeans(rs: seq<LogRecord>, cutoff: Option<nat>, r: LogRecord)
    ensures r in AllAllowed(rs, cutoff) <==> r in rs && Allowed(r, cutoff)
  {
    if rs == [] {
    } else {
      var n := |rs| - 1;
      AllAllowedMeans(rs[..n], cutoff, r);
      assert r in rs <==> r in rs[..n] || r == rs[n];
    }
  }

  lemma StepFits(m: Simple, e: Event)
    requires SimpleFits(m)
    ensures SimpleFits(SimpleDo(m, e))
  {
    if e.Copy? {
      LeftoverEnds(m.waiting, m.cutoff);
      forall r | r in SimpleDo(m, e).handed ensures IdOf(r) < m.next { AllAllowedMeans(m.waiting, m.cutoff, r); }
    }
  }

  lemma {:induction false} RunFits(events: seq<Event>)
    ensures SimpleFits(SimpleAfter(events))
  {
    if events == [] {
    } else {
      RunFits(events[..|events| - 1]);
      StepFits(SimpleAfter(events[..|events| - 1]), events[|events| - 1]);
    }
  }

  /** Until the next copy an operation waits at its place from the end, as long as the ring reaches that far back. */
  ghost predicate WaitsAt(m: Simple, r: LogRecord, count: nat) {
    && IdOf(r) + count == m.next && r !in m.handed
    && if 0 < count <= 128 then count <= |m.waiting| && m.waiting[|m.waiting| - count] == r
       else r !in m.waiting && r in m.lost
  }

  lemma WaitingStep(m: Simple, r: LogRecord, count: nat, e: Event)
    requires SimpleFits(m) && 0 < count && WaitsAt(m, r, count) && !e.Copy?
    ensures WaitsAt(SimpleDo(m, e), r, count + if e.Stamp? then 1 else 0)
  {
    if e.Stamp? {
      var now := SimpleDo(m, e);
      StepFits(m, e);
      if count < 128 {
        assert now.waiting[|now.waiting| - (count + 1)] == r;
      } else {
        forall i | 0 <= i < |now.waiting| ensures now.waiting[i] != r { assert IdOf(now.waiting[i]) > IdOf(r); }
      }
    }
  }

  /** The operation that event `i` stamps. */
  function StampedAt(events: seq<Event>, i: nat): LogRecord
    requires i < |events| && events[i].Stamp?
  {
    StampedRecord(events[i], SimpleAfter(events[..i]).next)
  }

  lemma {:induction false} WaitsUntilCopy(events: seq<Event>, i: nat, n: nat)
    requires i < n <= |events| && events[i].Stamp? && forall k :: i < k < n ==> !events[k].Copy?
    ensures WaitsAt(SimpleAfter(events[..n]), StampedAt(events, i), StampsFrom(events, i, n))
            && StampsFrom(events, i, n) > 0
  {
    RunFits(events[..n - 1]);
    SimpleNext(events, n - 1);
    StampsFromNext(events, i, n - 1);
    if n == i + 1 {
      assert events[i..i] == [];
    } else {
      WaitsUntilCopy(events, i, n - 1);
      WaitingStep(SimpleAfter(events[..n - 1]), StampedAt(events, i), StampsFrom(events, i, n - 1), events[n - 1]);
    }
  }

  ghost predicate Gone(m: Simple, r: LogRecord) {
    IdOf(r) < m.next && r in m.lost && r !in m.waiting && r !in m.handed
  }

  lemma GoneStays(m: Simple, e: Event, r: LogRecord)
    requires Gone(m, r)
    ensures Gone(SimpleDo(m, e), r)
  {
    if e.Copy? {
      AllAllowedMeans(m.waiting, m.cutoff, r);
      LeftoverEnds(m.waiting, m.cutoff);
    }
  }

  /** Once lost, an operation does not come back. */
  lemma {:induction false} LostStays(events: seq<Event>, r: LogRecord, j: nat, n: nat)
    requires j <= n <= |events| && Gone(SimpleAfter(events[..j]), r)
    ensures Gone(SimpleAfter(events[..n]), r)
  {
    if n == j {
    } else {
      LostStays(events, r, j, n - 1);
      SimpleNext(events, n - 1);
      GoneStays(SimpleAfter(events[..n - 1]), events[n - 1], r);
    }
  }

  /**
    In every run, an operation from which on more than 128 are stamped before the next copy, or before the end, is lost:
    the log never admits it.
   */
  lemma {:induction false} OverrunLosesOperations(capacity: nat, events: seq<Event>, i: nat)
    requires 1 <= capacity && i < |events| && events[i].Stamp?
    requires StampsFrom(events, i, NextCopy(events, i)) > 128
    ensures StampedAt(events, i) in SimpleAfter(events).lost
            && StampedAt(events, i) !in After(capacity, events).accepted
  {
    WaitsUntilCopy(events, i, NextCopy(events, i));
    LostStays(events, StampedAt(events, i), NextCopy(events, i), |events|);
    assert events[..|events|] == events;
    RingRefinesQueue(capacity, events);
  }

  /** The clock of the clears does not run backwards. */
  ghost predicate ClearsForward(events: seq<Event>) {
    forall i, j :: 0 <= i <= j < |events| && events[i].Cleared? && events[j].Cleared? ==> events[i].now <= events[j].now
  }

  lemma {:induction false} CutoffIsLastClear(events: seq<Event>)
    ensures var cutoff := SimpleAfter(events).cutoff;
            cutoff.Some? ==> exists i :: 0 <= i < |events| && events[i] == Cleared(cutoff.value)
  {
    if events == [] {
    } else {
      CutoffIsLastClear(events[..|events| - 1]);
    }
  }

  lemma CutoffRises(events: seq<Event>, n: nat)
    requires n < |events| && ClearsForward(events) && events[n].Cleared?
    ensures var cutoff := SimpleAfter(events[..n]).cutoff; cutoff.Some? ==> cutoff.value <= events[n].now
  {
    CutoffIsLastClear(events[..n]);
  }

  /** What has been decided about an operation: handed over, or refused by the cutoff or its size. */
  datatype Decision = Undecided | Handed | Refused

  ghost function DecisionOn(m: Simple, r: LogRecord): Decision {
    if IdOf(r) >= m.next then Undecided
    else if r in m.handed then Handed
    else if !Allowed(r, m.cutoff) then Refused
    else Undecided
  }

  lemma DecisionStep(m: Simple, e: Event, r: LogRecord)
    requires DecisionOn(m, r) != Undecided && (e.Cleared? && m.cutoff.Some? ==> m.cutoff.value <= e.now)
    ensures DecisionOn(SimpleDo(m, e), r) == DecisionOn(m, r)
  {
    if e.Copy? { AllAllowedMeans(m.waiting, m.cutoff, r); }
  }

  lemma {:induction false} DecisionStays(events: seq<Event>, r: LogRecord, j: nat, n: nat)
    requires j <= n <= |events| && ClearsForward(events) && DecisionOn(SimpleAfter(events[..j]), r) != Undecided
    ensures DecisionOn(SimpleAfter(events[..n]), r) == DecisionOn(SimpleAfter(events[..j]), r)
  {
    if n == j {
    } else {
      DecisionStays(events, r, j, n - 1);
      SimpleNext(events, n - 1);
      if events[n - 1].Cleared? { CutoffRises(events, n - 1); }
      DecisionStep(SimpleAfter(events[..n - 1]), events[n - 1], r);
    }
  }

  lemma CopyDecides(m: Simple, r: LogRecord, count: nat)
    requires WaitsAt(m, r, count) && 0 < count <= 128
    ensures DecisionOn(SimpleDo(m, Copy), r) == if Allowed(r, m.cutoff) then Handed else Refused
  {
    AllAllowedMeans(m.waiting, m.cutoff, r);
  }

  lemma CopyDecidesForGood(events: seq<Event>, r: LogRecord, j: nat, count: nat)
    requires ClearsForward(events) && j < |events| && events[j].Copy?
    requires WaitsAt(SimpleAfter(events[..j]), r, count) && 0 < count <= 128
    ensures DecisionOn(SimpleAfter(events[..|events|]), r)
            == if Allowed(r, SimpleAfter(events[..j]).cutoff) then Handed else Refused
  {
    SimpleNext(events, j);
    CopyDecides(SimpleAfter(events[..j]), r, count);
    DecisionStays(events, r, j + 1, |events|);
  }

  /**
    An operation is handed over exactly if there is a next copy, at most 128 operations are stamped from it up to that
    copy, and the cutoff and the size allow it then. Provided the clock of the clears does not run backwards.
   */
  lemma {:induction false} HandedOverExactly(capacity: nat, events: seq<Event>, i: nat)
    requires 1 <= capacity && ClearsForward(events) && i < |events| && events[i].Stamp?
    ensures var j := NextCopy(events, i);
            StampedAt(events, i) in After(capacity, events).accepted
            <==> j < |events| && StampsFrom(events, i, j) <= 128
                 && Allowed(StampedAt(events, i), SimpleAfter(events[..j]).cutoff)
  {
    var j := NextCopy(events, i);
    if StampsFrom(events, i, j) > 128 {
      OverrunLosesOperations(capacity, events, i);
    } else {
      RingRefinesQueue(capacity, events);
      WaitsUntilCopy(events, i, j);
      assert events[..|events|] == events;
      if j < |events| { CopyDecidesForGood(events, StampedAt(events, i), j, StampsFrom(events, i, j)); }
    }
  }

  lemma {:induction false} SimpleSnoc(events: seq<Event>, e: Event)
    ensures SimpleAfter(events + [e]) == SimpleDo(SimpleAfter(events), e)
  {
    assert (events + [e])[..|events|] == events;
  }

  lemma {:induction false} OneWaiting(rs: seq<LogRecord>, cutoff: Option<nat>)
    requires |rs| == 1
    ensures AllAllowed(rs, cutoff) == if Allowed(rs[0], cutoff) then rs else []
    ensures Leftover(rs, cutoff) == if Allowed(rs[0], cutoff) then [] else rs
  {
    assert rs[..0] == [];
    assert AllAllowed(rs[..0], cutoff) == [];
    assert Leftover(rs[..0], cutoff) == [];
  }

  lemma {:induction false} ClearAndCopy(events: seq<Event>, r: LogRecord, now: nat)
    requires SimpleAfter(events).waiting == [r] && SimpleAfter(events).handed == []
    ensures var m := SimpleAfter(events + [Cleared(now)] + [Copy]);
            if Allowed(r, Some(now)) then m.handed == [r] else m.handed == [] && m.waiting == [r]
  {
    SimpleSnoc(events, Cleared(now));
    SimpleSnoc(events + [Cleared(now)], Copy);
    OneWaiting([r], Some(now));
  }

  /**
    With a clear that sets the clock back, an operation that one copy refused is handed over by a later one: after
    both copies it is in, after the first it is not.
   */
  lemma {:induction false} BackwardClearAdmitsLate(capacity: nat, stamp: Event, first: nat, second: nat)
    requires 1 <= capacity && stamp.Stamp? && second < stamp.timestamp <= first
    requires 128 + stamp.payloadBytes <= 1_000_000
    ensures var early := [stamp] + [Cleared(first)] + [Copy];
            var late := early + [Cleared(second)] + [Copy];
            var r := StampedRecord(stamp, 1);
            r !in After(capacity, early).accepted && r in After(capacity, late).accepted
  {
    var early := [stamp] + [Cleared(first)] + [Copy];
    var r := StampedRecord(stamp, 1);
    assert [] + [stamp] == [stamp];
    SimpleSnoc([], stamp);
    ClearAndCopy([stamp], r, first);
    ClearAndCopy(early, r, second);
    RingRefinesQueue(capacity, early);
    RingRefinesQueue(capacity, early + [Cleared(second)] + [Copy]);
  }
}
