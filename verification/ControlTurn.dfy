/** One app-config record's turn in a control pass: the gates before the action, and the action itself. */
module ControlTurn {
  import opened Domain
  import opened Trace
  import opened Transactions
  import opened ControlStateTracking
  import opened Actions
  import Deferral

  /** What a pass knows while it looks at one record. */
  datatype Context = Context(
    record: AppRecord,
    settings: seq<nat>,
    foreground: set<nat>,
    now: nat,
    auditDue: bool,
    binder: bool)

  /** How one record's turn went. */
  datatype Turn =
    | Missing
    | Gone
    | Barred(ps: seq<Process>, ids: seq<Identity>, thaws: seq<Thaw>)
    | Ignored(ps: seq<Process>)
    | AtFront(ps: seq<Process>, undos: seq<Undo>)
    | Awakened(ps: seq<Process>, undos: seq<Undo>)
    | Resting(ps: seq<Process>)
    | Waiting(ps: seq<Process>)
    | Scheduled(ps: seq<Process>)
    | Sampling(ps: seq<Process>, reading: RxSample)
    | Acting(ps: seq<Process>, sample: Option<RxSample>, act: Act)

  function IdOf(c: Context, ps: seq<Process>): Identity
    requires ps != []
  {
    Identity(MinPackage(ps), c.record.uid)
  }

  function Unblocked(v: View, id: Identity): View { v.(blocked := v.blocked - {id}) }

  /** A tracked app that the audit finds running is taken out of tracking before it is frozen again. */
  function Entered(v: View, id: Identity): View {
    if id in v.frozen then Abnormal(Unblocked(v, id), id) else Unblocked(v, id)
  }

  function Pended(v: View, id: Identity, due: nat): View { v.(pending := v.pending[id := due]) }

  function Forgotten(v: View, uid: nat): View {
    View(set id | id in v.frozen && id.uid != uid,
         map id | id in v.since && id.uid != uid :: v.since[id],
         map id | id in v.ownership && id.uid != uid :: v.ownership[id],
         map id | id in v.pending && id.uid != uid :: v.pending[id],
         map id | id in v.blocked && id.uid != uid :: v.blocked[id])
  }

  function RetryMs(sample: RxSample): nat { if sample.Failed? then 30_000 else 1_000 }

  predicate AnyRunning(ps: seq<Process>) { exists i :: 0 <= i < |ps| && ps[i].control == Running }

  predicate WakeupDue(c: Context, v: View, id: Identity) {
    && WakeupInterval(c.settings).Some? && id in v.since
    && c.now >= v.since[id] + WakeupInterval(c.settings).value
  }

  /** The batch belongs to an app the pass looks at more closely: allowed, and not blocked with this very batch. */
  predicate Considered(c: Context, v: View, ps: seq<Process>) {
    && ps != []
    && ControlAllowed(c.record, MinPackage(ps))
    && At(v.blocked, IdOf(c, ps)) != Some(SignatureOf(ps))
  }

  /** A tracked app is left alone unless the audit is due and saw it running. */
  predicate Reopened(c: Context, v: View, ps: seq<Process>)
    requires ps != []
  {
    IdOf(c, ps) in v.frozen ==> !WakeupDue(c, v, IdOf(c, ps)) && c.auditDue && AnyRunning(ps)
  }

  /** An untracked app with a delay has a recorded due time that has passed. */
  predicate TimeIsUp(c: Context, v: View, ps: seq<Process>)
    requires ps != []
  {
    var id := IdOf(c, ps);
    id in v.frozen || DelayMs(c.record, c.settings) == 0 || (id in v.pending && v.pending[id] <= c.now)
  }

  /** The download gate's part: only candidates are sampled, and an acting candidate must be slow enough. */
  predicate GateOpen(c: Context, samples: map<nat, Deferral.Sample>, ps: seq<Process>, sample: Option<RxSample>)
    requires ps != []
  {
    && (sample.Some? <==> Deferral.IsCandidate(MinPackage(ps)))
    && Deferral.Proceeds(samples, c.record.uid, MinPackage(ps), ReadingFor(sample), c.now)
  }

  ghost predicate ThawOf(id: Identity, v: View, ps: seq<Process>, undos: seq<Undo>) {
    PlausibleThaw(id, Thaw(Some(ps), undos))
  }

  ghost predicate Matches(d: Decision, act: Act) {
    match d
    case Freeze => act.FellBack? || act.Lost? || act.Rescanned?
    case Postpone => act.Held?
    case Signal => act.Signalled?
    case Terminate => act.Killed?
  }

  ghost predicate PlausibleTurn(c: Context, samples: map<nat, Deferral.Sample>, v: View, turn: Turn) {
    match turn
    case Missing => true
    case Gone => true
    case Barred(ps, ids, thaws) =>
      && ps != [] && !ControlAllowed(c.record, MinPackage(ps))
      && Listing(ids, set id | id in v.frozen && id.uid == c.record.uid) && PlausibleThaws(ids, thaws)
    case Ignored(ps) =>
      ps != [] && ControlAllowed(c.record, MinPackage(ps)) && At(v.blocked, IdOf(c, ps)) == Some(SignatureOf(ps))
    case AtFront(ps, undos) =>
      && Considered(c, v, ps) && c.record.uid in c.foreground
      && (if IdOf(c, ps) in v.frozen then ThawOf(IdOf(c, ps), v, ps, undos) else undos == [])
    case Awakened(ps, undos) =>
      && Considered(c, v, ps) && c.record.uid !in c.foreground
      && IdOf(c, ps) in v.frozen && WakeupDue(c, v, IdOf(c, ps)) && ThawOf(IdOf(c, ps), v, ps, undos)
    case Resting(ps) =>
      && Considered(c, v, ps) && c.record.uid !in c.foreground
      && IdOf(c, ps) in v.frozen && !WakeupDue(c, v, IdOf(c, ps)) && !(c.auditDue && AnyRunning(ps))
    case Waiting(ps) =>
      && Considered(c, v, ps) && c.record.uid !in c.foreground && IdOf(c, ps) !in v.frozen
      && !TimeIsUp(c, v, ps) && IdOf(c, ps) in v.pending
    case Scheduled(ps) =>
      && Considered(c, v, ps) && c.record.uid !in c.foreground && IdOf(c, ps) !in v.frozen
      && !TimeIsUp(c, v, ps) && IdOf(c, ps) !in v.pending
    case Sampling(ps, sample) =>
      && Considered(c, v, ps) && c.record.uid !in c.foreground && Reopened(c, v, ps) && TimeIsUp(c, v, ps)
      && Deferral.IsCandidate(MinPackage(ps)) && !GateOpen(c, samples, ps, Some(sample))
    case Acting(ps, sample, act) =>
      && Considered(c, v, ps) && c.record.uid !in c.foreground && Reopened(c, v, ps) && TimeIsUp(c, v, ps)
      && GateOpen(c, samples, ps, sample)
      && PlausibleAct(ps, IdOf(c, ps), Entered(v, IdOf(c, ps)), act)
      && Matches(Decide(c.record, c.settings, c.binder, PendingBatch(ps)), act)
  }

  ghost function AfterTurn(c: Context, samples: map<nat, Deferral.Sample>, v: View, turn: Turn): View
    requires PlausibleTurn(c, samples, v, turn)
  {
    match turn
    case Missing => v
    case Gone => Forgotten(v, c.record.uid)
    case Barred(ps, ids, thaws) =>
      WithoutDetached(AfterThaws(WithoutTransient(v, c.record.uid), ids, thaws), {c.record.uid})
    case Ignored(ps) => v
    case AtFront(ps, undos) =>
      var id := IdOf(c, ps);
      var u := Unpended(Unblocked(v, id), id);
      if id in v.frozen && Clean(id, Thaw(Some(ps), undos)) then Cleared(u, id) else u
    case Awakened(ps, undos) =>
      var id := IdOf(c, ps);
      if Clean(id, Thaw(Some(ps), undos))
      then Pended(Cleared(Unblocked(v, id), id), id, c.now + WakeupDuration(c.settings)) else Unblocked(v, id)
    case Resting(ps) => Unblocked(v, IdOf(c, ps))
    case Waiting(ps) => Unblocked(v, IdOf(c, ps))
    case Scheduled(ps) => Pended(Unblocked(v, IdOf(c, ps)), IdOf(c, ps), c.now + DelayMs(c.record, c.settings))
    case Sampling(ps, sample) => Pended(Entered(v, IdOf(c, ps)), IdOf(c, ps), c.now + RetryMs(sample))
    case Acting(ps, sample, act) => AfterAct(ps, IdOf(c, ps), Entered(v, IdOf(c, ps)), c.now, act)
  }

  ghost function FoundIn(turn: Turn): Option<seq<Process>> {
    if turn.Missing? then None else if turn.Gone? then Some([]) else Some(turn.ps)
  }

  /** The calls after the discovery that opens a turn. */
  ghost function LaterEvents(c: Context, samples: map<nat, Deferral.Sample>, v: View, turn: Turn): seq<Event>
    requires PlausibleTurn(c, samples, v, turn)
  {
    match turn
    case Missing => []
    case Gone => []
    case Barred(ps, ids, thaws) => ThawsEvents(WithoutTransient(v, c.record.uid), ids, thaws)
    case Ignored(ps) => []
    case AtFront(ps, undos) => UnfreezeEvents(ps, Owner(v, IdOf(c, ps)) == SignalOnly, undos)
    case Awakened(ps, undos) => UnfreezeEvents(ps, Owner(v, IdOf(c, ps)) == SignalOnly, undos)
    case Resting(ps) => []
    case Waiting(ps) => []
    case Scheduled(ps) => []
    case Sampling(ps, sample) => [Sampled(c.record.uid, sample)]
    case Acting(ps, sample, act) =>
      (if sample.Some? then [Sampled(c.record.uid, sample.value)] else [])
      + ActEvents(ps, IdOf(c, ps), Entered(v, IdOf(c, ps)), act)
  }

  ghost function TurnEvents(c: Context, samples: map<nat, Deferral.Sample>, v: View, turn: Turn): seq<Event>
    requires PlausibleTurn(c, samples, v, turn)
  {
    [Discovered(c.record.uid, FoundIn(turn))] + LaterEvents(c, samples, v, turn)
  }

  /** The run an account of a turn describes after the discovery that opened it. */
  ghost function TurnRun(c: Context, samples: map<nat, Deferral.Sample>, v: View, turn: Turn): Option<Run> {
    if PlausibleTurn(c, samples, v, turn)
    then Some(Run(AfterTurn(c, samples, v, turn), LaterEvents(c, samples, v, turn))) else None
  }

  /** What a turn does to the download samples: it may drop its UID's baseline, or evaluate a new reading. */
  function TurnHappenings(c: Context, turn: Turn): seq<Deferral.Happening> {
    match turn
    case Gone => [Deferral.Cleared(c.record.uid)]
    case Barred(_, _, _) => [Deferral.Cleared(c.record.uid)]
    case Sampling(ps, reading) =>
      if ps == [] then [] else [Deferral.Evaluated(c.record.uid, MinPackage(ps), reading, c.now)]
    case Acting(ps, sample, _) =>
      if ps == [] then [] else [Deferral.Evaluated(c.record.uid, MinPackage(ps), ReadingFor(sample), c.now)]
    case _ => []
  }

  function ReadingFor(sample: Option<RxSample>): RxSample { if sample.Some? then sample.value else RxSample.Missing }

  ghost function SamplesAfter(c: Context, samples: map<nat, Deferral.Sample>, turn: Turn): map<nat, Deferral.Sample> {
    Deferral.AfterAll(samples, TurnHappenings(c, turn))
  }

  /** The turn ended the pass with an error: the app could not be discovered, before acting or after freezing it. */
  predicate PassFails(turn: Turn) { turn.Missing? || (turn.Acting? && turn.act.Lost?) }

  lemma EnteredReady(c: Context, v: View, ps: seq<Process>)
    requires Consistent(v) && ps != []
    ensures Ready(Entered(v, IdOf(c, ps)), IdOf(c, ps), ps)
    ensures OnlyIdentity(v, Entered(v, IdOf(c, ps)), IdOf(c, ps))
    ensures TaintKept(v, Entered(v, IdOf(c, ps))) && NoNewSignalOnly(v, Entered(v, IdOf(c, ps)))
    ensures v.ownership.Keys <= Entered(v, IdOf(c, ps)).ownership.Keys
  {
  }

  // ---- The turn itself

  method FreezerAction(w: World, s: RuntimeControlState, id: Identity, ps: seq<Process>, now: nat)
    returns (ok: bool, ghost act: Act, ghost t: seq<Event>)
    modifies w, s`frozenApps, s`frozenSince, s`ownership, s`pending, s`blocked
    ensures w.trace == old(w.trace) + t && ActRun(ps, id, old(s.Seen()), now, act) == Some(Run(s.Seen(), t))
    ensures Matches(Freeze, act) && ok == !act.Lost?
  {
    var q := PendingBatch(ps);
    var o;
    ghost var story;
    o, story := FreezeTransaction(w, q, false);
    if o.failure.Some? {
      ok := true;
      act, t := FallBack(w, s, id, ps, now, o, story, old(w.trace));
    } else {
      ok, act, t := Rescan(w, s, id, ps, now, old(w.trace));
    }
  }

  /** After a complete freeze: look again, and undo everything if a process appeared in between. */
  method Rescan(w: World, s: RuntimeControlState, id: Identity, ps: seq<Process>, now: nat, ghost start: seq<Event>)
    returns (ok: bool, ghost act: Act, ghost t: seq<Event>)
    requires SinglePackage(PendingBatch(ps)) && w.trace == start + Events(PendingBatch(ps), false, Completed)
    modifies w, s`frozenApps, s`frozenSince, s`ownership, s`pending
    ensures w.trace == start + t && ActRun(ps, id, old(s.Seen()), now, act) == Some(Run(s.Seen(), t))
    ensures Matches(Freeze, act) && ok == !act.Lost?
  {
    var found := w.Discover(id.uid);
    if found.None? {
      EventsReassociate(start, Events(PendingBatch(ps), false, Completed), [Discovered(id.uid, None)]);
      return false, Lost, Events(PendingBatch(ps), false, Completed) + [Discovered(id.uid, None)];
    }
    var intruder, clean := NewPid(PendingBatch(ps), id.uid, found.value), false;
    ghost var th := Thaw(found, NoUndos(found.value, id.package));
    if intruder {
      ghost var undos;
      clean, undos := UnfreezeIdentity(w, id.package, found.value, false);
      th := Thaw(found, undos);
    }
    Settle(s, id, now, intruder, clean);
    EventsReassociate(start, Events(PendingBatch(ps), false, Completed), RescanEvents(id, intruder, th));
    t := Events(PendingBatch(ps), false, Completed) + RescanEvents(id, intruder, th);
    return true, Rescanned(intruder, th), t;
  }

  ghost function NoUndos(ps: seq<Process>, package: string): (r: seq<Undo>)
    ensures PlausibleThaw(Identity(package, 0), Thaw(Some(ps), r))
  {
    if SoleOwner(ps, package) then seq(|ps|, _ => Undo(None, false)) else []
  }

  /** The rescan's verdict: tracked, or rolled back because a process appeared in between. */
  method Settle(s: RuntimeControlState, id: Identity, now: nat, intruder: bool, clean: bool)
    modifies s`frozenApps, s`frozenSince, s`ownership, s`pending
    ensures s.Seen() == AfterRescan(old(s.Seen()), id, now, intruder, clean)
  {
    if !intruder {
      s.TrackFrozen(id, now, CgroupBinder);
    } else if clean {
      s.ClearFrozen(id);
    } else {
      s.TrackFrozen(id, now, ResidualUnknown);
    }
    s.pending := s.pending - {id};
  }

  /** The failed freezer transaction is recorded and the same batch is stopped by signal, without promotion. */
  method FallBack(w: World, s: RuntimeControlState, id: Identity, ps: seq<Process>, now: nat, o: Outcome,
                  ghost story: Story, ghost start: seq<Event>)
    returns (ghost act: Act, ghost t: seq<Event>)
    requires Plausible(PendingBatch(ps), story) && o == OutcomeOf(PendingBatch(ps), story) && o.failure.Some?
    requires w.trace == start + Events(PendingBatch(ps), false, story)
    modifies w, s`frozenApps, s`frozenSince, s`ownership, s`pending, s`blocked
    ensures act.FellBack?
    ensures w.trace == start + t && ActRun(ps, id, old(s.Seen()), now, act) == Some(Run(s.Seen(), t))
  {
    RecordFailure(s, id, now, SignatureOf(ps), o);
    var o2;
    ghost var story2;
    o2, story2 := FreezeTransaction(w, PendingBatch(ps), true);
    RecordSecond(s, id, now, o2);
    act := FellBack(story, story2);
    t := Events(PendingBatch(ps), false, story) + Events(PendingBatch(ps), true, story2);
    EventsReassociate(start, Events(PendingBatch(ps), false, story), Events(PendingBatch(ps), true, story2));
  }

  method RecordFailure(s: RuntimeControlState, id: Identity, now: nat, signature: Signature, o: Outcome)
    modifies s`frozenApps, s`frozenSince, s`ownership, s`blocked
    ensures s.Seen() == AfterFailure(old(s.Seen()), id, now, signature, o)
  {
    if o.failure == Some(MixedPackages) {
      s.blocked := s.blocked[id := signature];
    }
    if o.residualPossible {
      s.TrackFrozen(id, now, ResidualUnknown);
    }
  }

  method RecordSecond(s: RuntimeControlState, id: Identity, now: nat, o: Outcome)
    modifies s`frozenApps, s`frozenSince, s`ownership, s`pending
    ensures s.Seen() == AfterSecond(old(s.Seen()), id, now, o)
  {
    if o.failure.None? || o.rollbackFailures > 0 {
      s.TrackFrozen(id, now, ResidualUnknown);
    }
    s.pending := s.pending - {id};
  }

  /** The stop itself, and the promotions that follow it if they are allowed. */
  method StopBatch(w: World, q: seq<Process>, may: bool)
    returns (o: Outcome, proven: bool, ghost story: Story, ghost promos: seq<Event>)
    modifies w
    ensures Plausible(q, story) && o == OutcomeOf(q, story)
    ensures w.trace == old(w.trace) + Events(q, true, story) + promos
    ensures if story.Completed? && may then Promotions(q, promos) && proven == AllConfirmed(promos)
            else promos == [] && !proven
  {
    o, story := FreezeTransaction(w, q, true);
    proven, promos := false, [];
    if o.failure.None? && may {
      proven, promos := PromoteAll(w, q);
    }
  }

  method SignalAction(w: World, s: RuntimeControlState, id: Identity, ps: seq<Process>, now: nat)
    returns (ghost act: Act, ghost t: seq<Event>)
    requires ps != []
    modifies w, s`frozenApps, s`frozenSince, s`ownership, s`pending, s`blocked
    ensures w.trace == old(w.trace) + t && ActRun(ps, id, old(s.Seen()), now, act) == Some(Run(s.Seen(), t))
    ensures Matches(Signal, act)
  {
    var may, o, proven;
    ghost var ledger, story, promos;
    may, ledger := MayPromote(w, s, id, PendingBatch(ps));
    o, proven, story, promos := StopBatch(w, PendingBatch(ps), may);
    SignalledRun(ps, id, s.Seen(), now, may, proven, story, ledger, promos);
    RecordSignal(s, id, now, SignatureOf(ps), o, proven);
    JoinTrace(old(w.trace), ledger, Events(PendingBatch(ps), true, story), promos);
    act, t := Signalled(story, ledger, promos), SignalEvents(ps, story, ledger, promos);
  }

  lemma JoinTrace(start: seq<Event>, a: seq<Event>, b: seq<Event>, c: seq<Event>)
    ensures ((start + a) + b) + c == start + ((a + b) + c)
  {
  }

  lemma {:induction false} SignalledRun(ps: seq<Process>, id: Identity, v: View, now: nat, may: bool, proven: bool,
                                        story: Story,
                     ledger: seq<Event>, promos: seq<Event>)
    requires ps != [] && Plausible(PendingBatch(ps), story) && LedgerReads(ledger)
    requires may == PromotionAllowed(v, id, PendingBatch(ps), ledger)
    requires if story.Completed? && may then Promotions(PendingBatch(ps), promos) && proven == AllConfirmed(promos)
             else promos == [] && !proven
    ensures ActRun(ps, id, v, now, Signalled(story, ledger, promos))
            == Some(Run(AfterSignal(v, id, now, SignatureOf(ps), OutcomeOf(PendingBatch(ps), story), proven),
                        SignalEvents(ps, story, ledger, promos)))
  {
  }

  method RecordSignal(s: RuntimeControlState, id: Identity, now: nat, signature: Signature, o: Outcome, proven: bool)
    modifies s`frozenApps, s`frozenSince, s`ownership, s`pending, s`blocked
    ensures s.Seen() == AfterSignal(old(s.Seen()), id, now, signature, o, proven)
  {
    if o.failure.Some? {
      if o.failure == Some(MixedPackages) {
        s.blocked := s.blocked[id := signature];
      }
      if o.rollbackFailures > 0 {
        s.TrackFrozen(id, now, ResidualUnknown);
      }
    } else {
      s.TrackFrozen(id, now, if proven then SignalOnly else ResidualUnknown);
    }
    s.pending := s.pending - {id};
  }

  method TerminateAction(w: World, s: RuntimeControlState, id: Identity, ps: seq<Process>, now: nat)
    returns (ghost act: Act, ghost t: seq<Event>)
    modifies w, s`frozenApps, s`frozenSince, s`ownership, s`pending
    ensures w.trace == old(w.trace) + t && ActRun(ps, id, old(s.Seen()), now, act) == Some(Run(s.Seen(), t))
    ensures Matches(Terminate, act)
  {
    var applied, failed;
    ghost var story;
    applied, failed, story := TerminateTransaction(w, PendingBatch(ps));
    if !failed {
      s.pending := s.pending - {id};
      s.ClearFrozen(id);
    }
    act, t := Killed(story), KillEvents(PendingBatch(ps), story);
  }

  /** The decision and its effects, for a batch that has passed every gate. */
  method TakeAction(w: World, s: RuntimeControlState, c: Context, id: Identity, ps: seq<Process>)
    returns (ok: bool, ghost act: Act, ghost t: seq<Event>)
    requires ps != []
    modifies w, s`frozenApps, s`frozenSince, s`ownership, s`pending, s`blocked
    ensures w.trace == old(w.trace) + t && ActRun(ps, id, old(s.Seen()), c.now, act) == Some(Run(s.Seen(), t))
    ensures Matches(Decide(c.record, c.settings, c.binder, PendingBatch(ps)), act) && ok == !act.Lost?
  {
    ok, act, t := true, Held, [];
    match Decide(c.record, c.settings, c.binder, PendingBatch(ps)) {
      case Freeze => ok, act, t := FreezerAction(w, s, id, ps, c.now);
      case Postpone =>
      case Signal => act, t := SignalAction(w, s, id, ps, c.now);
      case Terminate => act, t := TerminateAction(w, s, id, ps, c.now);
    }
  }

  method TakeTurn(w: World, s: RuntimeControlState, c: Context)
    returns (ok: bool, ghost turn: Turn, ghost t: seq<Event>)
    modifies w, s`frozenApps, s`frozenSince, s`ownership, s`pending, s`blocked, s.deferral
    ensures w.trace == old(w.trace) + [Discovered(c.record.uid, FoundIn(turn))] + t && ok == !PassFails(turn)
    ensures TurnRun(c, old(s.deferral.samples), old(s.Seen()), turn) == Some(Run(s.Seen(), t))
    ensures s.deferral.samples == SamplesAfter(c, old(s.deferral.samples), turn)
  {
    var found := w.Discover(c.record.uid);
    if found.None? {
      return false, Turn.Missing, [];
    }
    if found.value == [] {
      ForgetUid(s, c.record.uid);
      Deferral.AfterOne(old(s.deferral.samples), Deferral.Cleared(c.record.uid));
      return true, Gone, [];
    }
    ok, turn, t := TurnFor(w, s, c, found.value);
  }

  /** The gates in the order the pass asks them, for a batch that exists. */
  method TurnFor(w: World, s: RuntimeControlState, c: Context, ps: seq<Process>)
    returns (ok: bool, ghost turn: Turn, ghost t: seq<Event>)
    requires ps != []
    modifies w, s`frozenApps, s`frozenSince, s`ownership, s`pending, s`blocked, s.deferral
    ensures w.trace == old(w.trace) + t && FoundIn(turn) == Some(ps) && ok == !PassFails(turn)
    ensures TurnRun(c, old(s.deferral.samples), old(s.Seen()), turn) == Some(Run(s.Seen(), t))
    ensures s.deferral.samples == SamplesAfter(c, old(s.deferral.samples), turn)
  {
    ok := true;
    var id := Identity(MinPackage(ps), c.record.uid);
    if !ControlAllowed(c.record, id.package) {
      turn, t := Bar(w, s, c, ps);
    } else if id in s.blocked && s.blocked[id] == SignatureOf(ps) {
      turn, t := Ignored(ps), [];
    } else if c.record.uid in c.foreground {
      turn, t := BringToFront(w, s, c, id, ps);
    } else if id in s.frozenApps && WakeupDue(c, s.Seen(), id) {
      turn, t := WakeUp(w, s, c, id, ps);
    } else {
      ok, turn, t := Consider(w, s, c, id, ps);
    }
  }

  method ForgetUid(s: RuntimeControlState, uid: nat)
    modifies s`frozenApps, s`frozenSince, s`ownership, s`pending, s`blocked, s.deferral
    ensures s.Seen() == Forgotten(old(s.Seen()), uid)
    ensures s.deferral.samples == Deferral.After(old(s.deferral.samples), Deferral.Cleared(uid))
  {
    s.ClearTransient(uid);
    s.frozenApps := set id | id in s.frozenApps && id.uid != uid;
    s.frozenSince := map id | id in s.frozenSince && id.uid != uid :: s.frozenSince[id];
    s.ownership := map id | id in s.ownership && id.uid != uid :: s.ownership[id];
  }

  /** Policy or a protected package forbids control: thaw whatever this UID still has frozen. */
  method Bar(w: World, s: RuntimeControlState, c: Context, ps: seq<Process>)
    returns (ghost turn: Turn, ghost t: seq<Event>)
    requires ps != [] && !ControlAllowed(c.record, MinPackage(ps))
    modifies w, s`frozenApps, s`frozenSince, s`ownership, s`pending, s`blocked, s.deferral
    ensures w.trace == old(w.trace) + t && turn.Barred? && turn.ps == ps
    ensures TurnRun(c, old(s.deferral.samples), old(s.Seen()), turn) == Some(Run(s.Seen(), t))
    ensures s.deferral.samples == SamplesAfter(c, old(s.deferral.samples), turn)
  {
    var ids := Listed(set id | id in s.frozenApps && id.uid == c.record.uid);
    var ok;
    ghost var thaws, events;
    s.ClearTransient(c.record.uid);
    ok, thaws, events := s.ThawIdentities(w, ids);
    s.DropDetached({c.record.uid});
    Deferral.AfterOne(old(s.deferral.samples), Deferral.Cleared(c.record.uid));
    turn, t := Barred(ps, ids, thaws), events;
  }

  method BringToFront(w: World, s: RuntimeControlState, c: Context, id: Identity, ps: seq<Process>)
    returns (ghost turn: Turn, ghost t: seq<Event>)
    requires Considered(c, s.Seen(), ps) && id == IdOf(c, ps) && c.record.uid in c.foreground
    modifies w, s`frozenApps, s`frozenSince, s`ownership, s`pending, s`blocked
    ensures w.trace == old(w.trace) + t && turn.AtFront? && turn.ps == ps
    ensures TurnRun(c, s.deferral.samples, old(s.Seen()), turn) == Some(Run(s.Seen(), t))
  {
    var clean := false;
    ghost var undos := [];
    s.blocked := s.blocked - {id};
    s.pending := s.pending - {id};
    if id in s.frozenApps {
      clean, undos := UnfreezeIdentity(w, id.package, ps, Owner(s.Seen(), id) == SignalOnly);
      if clean {
        s.ClearFrozen(id);
      }
    }
    turn, t := AtFront(ps, undos), UnfreezeEvents(ps, Owner(old(s.Seen()), id) == SignalOnly, undos);
  }

  method WakeUp(w: World, s: RuntimeControlState, c: Context, id: Identity, ps: seq<Process>)
    returns (ghost turn: Turn, ghost t: seq<Event>)
    requires Considered(c, s.Seen(), ps) && id == IdOf(c, ps) && c.record.uid !in c.foreground
    requires id in s.frozenApps && WakeupDue(c, s.Seen(), id)
    modifies w, s`frozenApps, s`frozenSince, s`ownership, s`pending, s`blocked
    ensures w.trace == old(w.trace) + t && turn.Awakened? && turn.ps == ps
    ensures TurnRun(c, s.deferral.samples, old(s.Seen()), turn) == Some(Run(s.Seen(), t))
  {
    var clean;
    ghost var undos;
    s.blocked := s.blocked - {id};
    clean, undos := UnfreezeIdentity(w, id.package, ps, Owner(s.Seen(), id) == SignalOnly);
    if clean {
      s.ClearFrozen(id);
      s.pending := s.pending[id := c.now + WakeupDuration(c.settings)];
    }
    turn, t := Awakened(ps, undos), UnfreezeEvents(ps, Owner(old(s.Seen()), id) == SignalOnly, undos);
  }

  /** The audit, delay and download gates, then the action. */
  method Consider(w: World, s: RuntimeControlState, c: Context, id: Identity, ps: seq<Process>)
    returns (ok: bool, ghost turn: Turn, ghost t: seq<Event>)
    requires Considered(c, s.Seen(), ps) && id == IdOf(c, ps) && c.record.uid !in c.foreground
    requires id in s.frozenApps ==> !WakeupDue(c, s.Seen(), id)
    modifies w, s`frozenApps, s`frozenSince, s`ownership, s`pending, s`blocked, s.deferral
    ensures w.trace == old(w.trace) + t && FoundIn(turn) == Some(ps) && ok == !PassFails(turn)
    ensures TurnRun(c, old(s.deferral.samples), old(s.Seen()), turn) == Some(Run(s.Seen(), t))
    ensures s.deferral.samples == SamplesAfter(c, old(s.deferral.samples), turn)
  {
    ghost var v := s.Seen();
    s.blocked := s.blocked - {id};
    if id in s.frozenApps {
      if !c.auditDue || !AnyRunning(ps) {
        return true, Resting(ps), [];
      }
      s.MarkAbnormalThaw(id);
    } else if DelayMs(c.record, c.settings) > 0 {
      if id in s.pending && c.now < s.pending[id] {
        return true, Waiting(ps), [];
      }
      if id !in s.pending {
        s.pending := s.pending[id := c.now + DelayMs(c.record, c.settings)];
        return true, Scheduled(ps), [];
      }
    }
    ok, turn, t := PassGate(w, s, c, id, ps, v);
  }

  /** The batch stands before the download gate. */
  ghost predicate AtGate(c: Context, v: View, ps: seq<Process>, now: View) {
    && Considered(c, v, ps) && c.record.uid !in c.foreground && Reopened(c, v, ps) && TimeIsUp(c, v, ps)
    && now == Entered(v, IdOf(c, ps))
  }

  method PassGate(w: World, s: RuntimeControlState, c: Context, id: Identity, ps: seq<Process>, ghost v: View)
    returns (ok: bool, ghost turn: Turn, ghost t: seq<Event>)
    requires AtGate(c, v, ps, s.Seen()) && id == IdOf(c, ps)
    modifies w, s`frozenApps, s`frozenSince, s`ownership, s`pending, s`blocked, s.deferral
    ensures w.trace == old(w.trace) + t && FoundIn(turn) == Some(ps) && ok == !PassFails(turn)
    ensures TurnRun(c, old(s.deferral.samples), v, turn) == Some(Run(s.Seen(), t))
    ensures s.deferral.samples == SamplesAfter(c, old(s.deferral.samples), turn)
  {
    ghost var samples, start := s.deferral.samples, w.trace;
    var sample, proceed := Sample(w, s, c, id.package);
    Deferral.AfterOne(samples, Deferral.Evaluated(c.record.uid, id.package, ReadingFor(sample), c.now));
    if proceed {
      ok, turn, t := ActAfterGate(w, s, c, id, ps, v, samples, sample, start);
    } else {
      turn, t := Postpone(s, c, id, ps, v, samples, sample.value);
      ok := true;
    }
  }

  method Postpone(s: RuntimeControlState, c: Context, id: Identity, ps: seq<Process>, ghost v: View,
                  ghost samples: map<nat, Deferral.Sample>, reading: RxSample)
    returns (ghost turn: Turn, ghost t: seq<Event>)
    requires AtGate(c, v, ps, s.Seen()) && id == IdOf(c, ps)
    requires Deferral.IsCandidate(id.package) && !GateOpen(c, samples, ps, Some(reading))
    modifies s`pending
    ensures turn == Sampling(ps, reading) && t == [Sampled(c.record.uid, reading)]
    ensures TurnRun(c, samples, v, turn) == Some(Run(s.Seen(), t))
  {
    s.pending := s.pending[id := c.now + RetryMs(reading)];
    SamplingRun(c, samples, v, ps, reading);
    turn, t := Sampling(ps, reading), [Sampled(c.record.uid, reading)];
  }

  method ActAfterGate(w: World, s: RuntimeControlState, c: Context, id: Identity, ps: seq<Process>, ghost v: View,
                      ghost samples: map<nat, Deferral.Sample>, ghost sample: Option<RxSample>, ghost start: seq<Event>)
    returns (ok: bool, ghost turn: Turn, ghost t: seq<Event>)
    requires AtGate(c, v, ps, s.Seen()) && id == IdOf(c, ps) && GateOpen(c, samples, ps, sample)
    requires w.trace == start + if sample.Some? then [Sampled(c.record.uid, sample.value)] else []
    modifies w, s`frozenApps, s`frozenSince, s`ownership, s`pending, s`blocked
    ensures turn.Acting? && turn.ps == ps && turn.sample == sample
    ensures w.trace == start + t && ok == !PassFails(turn)
    ensures TurnRun(c, samples, v, turn) == Some(Run(s.Seen(), t))
  {
    ghost var pre := if sample.Some? then [Sampled(c.record.uid, sample.value)] else [];
    ghost var act;
    ok, act, t := TakeAction(w, s, c, id, ps);
    EventsReassociate(start, pre, t);
    ActingRun(c, samples, v, ps, sample, act, Run(s.Seen(), t));
    turn, t := Acting(ps, sample, act), pre + t;
  }

  lemma {:induction false} SamplingRun(c: Context, samples: map<nat, Deferral.Sample>, v: View, ps: seq<Process>,
                                       reading: RxSample)
    requires Considered(c, v, ps) && c.record.uid !in c.foreground && Reopened(c, v, ps) && TimeIsUp(c, v, ps)
    requires Deferral.IsCandidate(MinPackage(ps)) && !GateOpen(c, samples, ps, Some(reading))
    ensures TurnRun(c, samples, v, Sampling(ps, reading))
         == Some(Run(Pended(Entered(v, IdOf(c, ps)), IdOf(c, ps), c.now + RetryMs(reading)),
                     [Sampled(c.record.uid, reading)]))
  {
  }

  lemma ActingRun(c: Context, samples: map<nat, Deferral.Sample>, v: View, ps: seq<Process>, sample: Option<RxSample>,
                  act: Act, run: Run)
    requires Considered(c, v, ps) && c.record.uid !in c.foreground && Reopened(c, v, ps) && TimeIsUp(c, v, ps)
    requires GateOpen(c, samples, ps, sample)
    requires ActRun(ps, IdOf(c, ps), Entered(v, IdOf(c, ps)), c.now, act) == Some(run)
    requires Matches(Decide(c.record, c.settings, c.binder, PendingBatch(ps)), act)
    ensures TurnRun(c, samples, v, Acting(ps, sample, act))
         == Some(Run(run.after,
                     (if sample.Some? then [Sampled(c.record.uid, sample.value)] else []) + run.events))
  {
  }

  method Sample(w: World, s: RuntimeControlState, c: Context, package: string)
    returns (sample: Option<RxSample>, proceed: bool)
    modifies w, s.deferral
    ensures sample.Some? <==> Deferral.IsCandidate(package)
    ensures w.trace == old(w.trace) + if sample.Some? then [Sampled(c.record.uid, sample.value)] else []
    ensures proceed == Deferral.Proceeds(old(s.deferral.samples), c.record.uid, package,
                                         ReadingFor(sample), c.now)
    ensures s.deferral.samples
            == Deferral.After(old(s.deferral.samples),
              Deferral.Evaluated(c.record.uid, package, ReadingFor(sample), c.now))
    ensures !proceed ==> sample.Some?
  {
    sample := None;
    if Deferral.IsCandidate(package) {
      var value := w.SampleRx(c.record.uid);
      sample := Some(value);
    }
    proceed := s.deferral.Evaluate(c.record.uid, package, ReadingFor(sample), c.now);
  }
}
