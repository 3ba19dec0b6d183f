/** Whole control passes, and whole runs of them. */
module ControlPass {
  import opened Domain
  import opened Trace
  import opened Transactions
  import opened ControlStateTracking
  import opened Actions
  import opened ControlTurn
  import opened TurnReference
  import opened TurnRefinement
  import opened TurnTheorems
  import Audit
  import Deferral

  datatype PassInput = PassInput(
    config: seq<AppRecord>,
    settings: seq<nat>,
    foreground: set<nat>,
    now: nat,
    binder: bool)

  /** One stretch of a run: the sweep that opens a pass, one record's turn, or the thaw that disables control. */
  datatype Step =
    | Swept(before: View, after: View, events: seq<Event>, uids: set<nat>, cleared: seq<Deferral.Happening>,
            ids: seq<Identity>, thaws: seq<Thaw>)
    | Turned(before: View, after: View, events: seq<Event>, context: Context, samples: map<nat, Deferral.Sample>,
      turn: Turn)
    | Disabled(before: View, after: View, events: seq<Event>, ids: seq<Identity>, thaws: seq<Thaw>)

  function WithoutForeign(v: View, uids: set<nat>): View {
    v.(ownership := map id | id in v.ownership && (id in v.frozen || id.uid in uids) :: v.ownership[id])
  }

  ghost predicate SweepOk(s: Step)
    requires s.Swept?
  {
    && Clears(s.cleared, StaleUids(s.before, s.uids))
    && Listing(s.ids, set id | id in s.before.frozen && id.uid !in s.uids) && PlausibleThaws(s.ids, s.thaws)
    && s.events == ThawsEvents(Pruned(s.before, s.uids), s.ids, s.thaws)
    && s.after == WithoutForeign(AfterThaws(Pruned(s.before, s.uids), s.ids, s.thaws), s.uids)
  }

  ghost predicate StepOk(s: Step) {
    match s
    case Swept(_, _, _, _, _, _, _) => SweepOk(s)
    case Turned(before, after, events, c, samples, turn) =>
      && TurnRun(c, samples, before, turn).Some?
      && after == TurnRun(c, samples, before, turn).value.after
      && events == [Discovered(c.record.uid, FoundIn(turn))] + TurnRun(c, samples, before, turn).value.events
    case Disabled(before, after, events, ids, thaws) =>
      && Listing(ids, before.frozen) && PlausibleThaws(ids, thaws)
      && events == ThawsEvents(before, ids, thaws) && after == AfterThawAll(before, CleanOnes(ids, thaws))
  }

  /** The steps follow one another from the first state to the last, and each of them satisfies `ok`. */
  ghost predicate Chain(ok: Step -> bool, steps: seq<Step>, first: View, last: View) {
    if steps == [] then first == last
    else
      var n := |steps| - 1;
      Chain(ok, steps[..n], first, steps[n].before) && steps[n].after == last && ok(steps[n])
  }

  /** What a step does to the download samples. */
  function Happenings(s: Step): seq<Deferral.Happening> {
    match s
    case Swept(_, _, _, _, cleared, _, _) => cleared
    case Turned(_, _, _, c, _, turn) => TurnHappenings(c, turn)
    case Disabled(_, _, _, _, _) => [Deferral.Reset]
  }

  function History(steps: seq<Step>): seq<Deferral.Happening> {
    if steps == [] then [] else History(steps[..|steps| - 1]) + Happenings(steps[|steps| - 1])
  }

  /** The tracked state together with the download samples. */
  datatype Place = Place(view: View, samples: map<nat, Deferral.Sample>)

  ghost function Here(s: RuntimeControlState): Place
    reads s, s.deferral
  {
    Place(s.Seen(), s.deferral.samples)
  }

  predicate StartsAt(s: Step, p: Place) { s.before == p.view && (s.Turned? ==> s.samples == p.samples) }

  function Next(s: Step, p: Place): Place { Place(s.after, Deferral.AfterAll(p.samples, Happenings(s))) }

  /** Where a run from `first` ends, if each step starts where the one before it ended and satisfies `ok`. */
  ghost function Ran(ok: Step -> bool, steps: seq<Step>, first: Place): Option<Place> {
    if steps == [] then Some(first)
    else
      var n := |steps| - 1;
      var mid := Ran(ok, steps[..n], first);
      if mid.Some? && StartsAt(steps[n], mid.value) && ok(steps[n]) then Some(Next(steps[n], mid.value)) else None
  }

  /** `ok` holds of every step a pass can make. */
  ghost predicate Covers(ok: Step -> bool) {
    forall s: Step :: StepOk(s) ==> ok(s)
  }

  ghost function Flat(steps: seq<Step>): seq<Event> {
    if steps == [] then [] else Flat(steps[..|steps| - 1]) + steps[|steps| - 1].events
  }

  function ControlRecords(config: seq<AppRecord>): (r: seq<AppRecord>)
    ensures forall i :: 0 <= i < |r| ==> IsControlMode(r[i].mode) && r[i] in config
  {
    if config == [] then []
    else ControlRecords(config[..|config| - 1])
         + if IsControlMode(config[|config| - 1].mode) then [config[|config| - 1]] else []
  }

  function ContextFor(input: PassInput, due: bool, record: AppRecord): Context {
    Context(record, input.settings, input.foreground, input.now, due, input.binder)
  }

  /** The turns of a pass are those of its control records, in order, up to the first one that fails. */
  ghost predicate TurnsOf(input: PassInput, due: bool, records: seq<AppRecord>, turns: seq<Step>, ok: bool) {
    && |turns| <= |records|
    && (forall i :: 0 <= i < |turns| ==> turns[i].Turned? && turns[i].context == ContextFor(input, due, records[i]))
    && (forall i :: 0 <= i < |turns| - 1 ==> turns[i].Turned? && !PassFails(turns[i].turn))
    && (if ok then |turns| == |records| && (turns != [] ==> !PassFails(turns[|turns| - 1].turn))
        else turns != [] && PassFails(turns[|turns| - 1].turn))
  }

  lemma {:induction false} RanSnoc(ok: Step -> bool, steps: seq<Step>, first: Place, mid: Place, s: Step)
    requires Ran(ok, steps, first) == Some(mid) && StartsAt(s, mid) && ok(s)
    ensures Ran(ok, steps + [s], first) == Some(Next(s, mid)) && Flat(steps + [s]) == Flat(steps) + s.events
  {
    assert (steps + [s])[..|steps|] == steps;
  }

  lemma {:induction false} RanOne(ok: Step -> bool, first: Place, s: Step)
    requires StartsAt(s, first) && ok(s)
    ensures Ran(ok, [s], first) == Some(Next(s, first)) && Flat([s]) == s.events
  {
    RanSnoc(ok, [], first, first, s);
    assert [] + [s] == [s];
  }

  /** The download baselines of UIDs that are remembered somewhere but no longer controlled. */
  function StaleUids(v: View, uids: set<nat>): set<nat> {
    set id | id in v.pending.Keys + v.frozen + v.ownership.Keys && id.uid !in uids :: id.uid
  }

  predicate Clears(h: seq<Deferral.Happening>, uids: set<nat>) {
    && (forall i :: 0 <= i < |h| ==> h[i].Cleared? && h[i].uid in uids)
    && (forall uid :: uid in uids ==> Deferral.Cleared(uid) in h)
  }

  method ForgetSamples(d: Deferral.DownloadDeferral, uids: set<nat>) returns (ghost cleared: seq<Deferral.Happening>)
    modifies d
    ensures forall uid :: uid in d.samples <==> uid in old(d.samples) && uid !in uids
    ensures forall uid :: uid in d.samples ==> d.samples[uid] == old(d.samples)[uid]
    ensures Clears(cleared, uids) && d.samples == Deferral.AfterAll(old(d.samples), cleared)
  {
    var rest := uids;
    cleared := [];
    while rest != {}
      invariant rest <= uids && Clears(cleared, uids - rest)
      invariant d.samples == Deferral.AfterAll(old(d.samples), cleared)
      invariant forall uid :: uid in d.samples <==> uid in old(d.samples) && uid !in uids - rest
      invariant forall uid :: uid in d.samples ==> d.samples[uid] == old(d.samples)[uid]
      decreases rest
    {
      var uid :| uid in rest;
      d.ClearUid(uid);
      ClearsSnoc(old(d.samples), cleared, uids - rest, uid);
      assert uids - (rest - {uid}) == (uids - rest) + {uid};
      cleared, rest := cleared + [Deferral.Cleared(uid)], rest - {uid};
    }
    assert uids - {} == uids;
  }

  lemma {:induction false} ClearsSnoc(samples: map<nat, Deferral.Sample>, h: seq<Deferral.Happening>, uids: set<nat>,
                                      uid: nat)
    requires Clears(h, uids)
    ensures Clears(h + [Deferral.Cleared(uid)], uids + {uid})
    ensures Deferral.AfterAll(samples, h + [Deferral.Cleared(uid)])
         == Deferral.After(Deferral.AfterAll(samples, h), Deferral.Cleared(uid))
  {
    var e := Deferral.Cleared(uid);
    assert (h + [e])[..|h|] == h && (h + [e])[|h|] == e;
    assert forall x :: x in h ==> x in h + [e];
  }

  /** The opening of a pass: what no longer belongs to a controlled UID is dropped, and thawed if it was tracked. */
  method Sweep(w: World, s: RuntimeControlState, uids: set<nat>, ghost good: Step -> bool) returns (ghost step: Step)
    requires Covers(good)
    modifies w, s`frozenApps, s`frozenSince, s`ownership, s`pending, s`blocked, s.deferral
    ensures step.Swept? && step.uids == uids && good(step) && w.trace == old(w.trace) + step.events
    ensures StartsAt(step, old(Here(s))) && Here(s) == Next(step, old(Here(s)))
  {
    ghost var before, cleared := s.Seen(), [];
    cleared := ForgetSamples(s.deferral, StaleUids(s.Seen(), uids));
    var ids := Listed(set id | id in s.frozenApps && id.uid !in uids);
    s.pending := map id | id in s.pending && id.uid in uids :: s.pending[id];
    s.blocked := map id | id in s.blocked && id.uid in uids :: s.blocked[id];
    var ok;
    ghost var thaws, events;
    assert s.Seen() == Pruned(before, uids);
    ok, thaws, events := s.ThawIdentities(w, ids);
    s.ownership := map id | id in s.ownership && (id in s.frozenApps || id.uid in uids) :: s.ownership[id];
    step := Swept(before, s.Seen(), events, uids, cleared, ids, thaws);
    assert StepOk(step);
  }

  /** One record's turn as a step of the run. */
  method RecordTurn(w: World, s: RuntimeControlState, c: Context, ghost ok: Step -> bool)
    returns (done: bool, ghost step: Step)
    requires Covers(ok)
    modifies w, s`frozenApps, s`frozenSince, s`ownership, s`pending, s`blocked, s.deferral
    ensures step.Turned? && step.context == c && ok(step) && done == !PassFails(step.turn)
    ensures w.trace == old(w.trace) + step.events
    ensures StartsAt(step, old(Here(s))) && Here(s) == Next(step, old(Here(s)))
  {
    ghost var before, samples := s.Seen(), s.deferral.samples;
    ghost var turn, t;
    done, turn, t := TakeTurn(w, s, c);
    EventsReassociate(old(w.trace), [Discovered(c.record.uid, FoundIn(turn))], t);
    step := Turned(before, s.Seen(), [Discovered(c.record.uid, FoundIn(turn))] + t, c, samples, turn);
    TurnIsCovered(ok, c, samples, before, turn, Run(s.Seen(), t));
  }

  lemma TurnIsCovered(ok: Step -> bool, c: Context, samples: map<nat, Deferral.Sample>, v: View, turn: Turn, run: Run)
    requires Covers(ok) && TurnRun(c, samples, v, turn) == Some(run)
    ensures ok(Turned(v, run.after, [Discovered(c.record.uid, FoundIn(turn))] + run.events, c, samples, turn))
  {
    assert StepOk(Turned(v, run.after, [Discovered(c.record.uid, FoundIn(turn))] + run.events, c, samples, turn));
  }

  /** A pass did not fail in its last turn. */
  predicate Ended(steps: seq<Step>) {
    steps != [] && steps[|steps| - 1].Turned? ==> !PassFails(steps[|steps| - 1].turn)
  }

  /** A sweep, and then the turns of the input's control records with what this pass knows. */
  ghost predicate IsPass(input: PassInput, due: bool, steps: seq<Step>) {
    && steps != [] && steps[0].Swept? && steps[0].uids == ControlledUids(input.config)
    && TurnsOf(input, due, ControlRecords(input.config), steps[1..], Ended(steps))
  }

  /** The places of the config's records with a control mode, before place `n`. */
  function ControlledBefore(config: seq<AppRecord>, n: nat): set<nat>
    requires n <= |config|
  {
    set i: nat | i < n && config[i].mode in {10, 20, 21, 30, 31}
  }

  lemma {:induction false} RecordsCount(config: seq<AppRecord>, n: nat)
    requires n <= |config|
    ensures |ControlRecords(config[..n])| == |ControlledBefore(config, n)|
  {
    if n == 0 {
      assert ControlledBefore(config, 0) == {};
    } else {
      RecordsCount(config, n - 1);
      assert config[..n][..n - 1] == config[..n - 1];
      assert ControlledBefore(config, n)
          == ControlledBefore(config, n - 1) + if config[n - 1].mode in {10, 20, 21, 30, 31} then {n - 1} else {};
    }
  }

  lemma {:induction false} RecordAt(config: seq<AppRecord>, n: nat)
    requires n < |config| && IsControlMode(config[n].mode)
    ensures |ControlRecords(config[..n])| < |ControlRecords(config)|
    ensures ControlRecords(config)[|ControlRecords(config[..n])|] == config[n]
  {
    var m := |config| - 1;
    if n == m {
    } else {
      assert config[..m][..n] == config[..n];
      RecordAt(config[..m], n);
    }
  }

  /**
    The sweep keeps exactly the UIDs of the config's control records, and each of these records has its own turn, at its
    place among them and with what this pass knows, unless an earlier turn failed; there are no other turns.
   */
  lemma EachRecordHasItsTurn(input: PassInput, due: bool, steps: seq<Step>, n: nat)
    requires IsPass(input, due, steps) && n < |input.config| && input.config[n].mode in {10, 20, 21, 30, 31}
    ensures steps[0].uids == set r | r in input.config && r.mode in {10, 20, 21, 30, 31} :: r.uid
    ensures |steps| <= 1 + |ControlledBefore(input.config, |input.config|)|
    ensures var k := 1 + |ControlledBefore(input.config, n)|;
            && (Ended(steps) ==> k < |steps|)
            && (k < |steps| ==>
                  && steps[k].Turned?
                  && steps[k].context
                     == Context(input.config[n], input.settings, input.foreground, input.now, due, input.binder))
  {
    RecordsCount(input.config, n);
    RecordsCount(input.config, |input.config|);
    RecordAt(input.config, n);
    assert input.config[..|input.config|] == input.config;
    var k := 1 + |ControlledBefore(input.config, n)|;
    if k < |steps| {
      assert steps[1..][k - 1] == steps[k];
    }
  }

  /** `run_control_pass_with_sampling_and_terminate`, as a run of steps that satisfy whatever all steps satisfy. */
  method Pass(w: World, s: RuntimeControlState, input: PassInput, ghost ok: Step -> bool)
    returns (done: bool, ghost steps: seq<Step>)
    requires Covers(ok)
    modifies w, s, s.deferral
    ensures w.trace == old(w.trace) + Flat(steps) && Ran(ok, steps, old(Here(s))) == Some(Here(s))
    ensures IsPass(input, Audit.Due(old(s.audit), input.settings, input.now), steps) && done == Ended(steps)
    ensures s.audit == Audit.Tick(old(s.audit), input.settings, input.now)
  {
    ghost var first, start := Here(s), w.trace;
    ghost var step := Sweep(w, s, ControlledUids(input.config), ok);
    RanOne(ok, first, step);
    steps := [step];
    var due := s.AuditDue(input.settings, input.now);
    done, steps := Turns(w, s, input, due, ok, first, start, steps);
    TurnsEnd(input, due, ControlRecords(input.config), steps, done);
  }

  lemma TurnsEnd(input: PassInput, due: bool, records: seq<AppRecord>, steps: seq<Step>, done: bool)
    requires steps != [] && steps[0].Swept? && TurnsOf(input, due, records, steps[1..], done)
    ensures done == Ended(steps)
  {
    if |steps| > 1 { assert steps[1..][|steps| - 2] == steps[|steps| - 1]; }
  }

  method Turns(w: World, s: RuntimeControlState, input: PassInput, due: bool, ghost ok: Step -> bool,
               ghost first: Place, ghost start: seq<Event>, ghost opening: seq<Step>)
    returns (done: bool, ghost steps: seq<Step>)
    requires Covers(ok)
    requires |opening| == 1 && Ran(ok, opening, first) == Some(Here(s)) && w.trace == start + Flat(opening)
    modifies w, s`frozenApps, s`frozenSince, s`ownership, s`pending, s`blocked, s.deferral
    ensures w.trace == start + Flat(steps) && Ran(ok, steps, first) == Some(Here(s))
    ensures |steps| >= 1 && steps[0] == opening[0]
    ensures TurnsOf(input, due, ControlRecords(input.config), steps[1..], done)
  {
    ghost var turns: seq<Step> := [];
    done, steps := true, opening;
    assert input.config[..0] == [] && opening + turns == opening;
    for n := 0 to |input.config|
      invariant w.trace == start + Flat(steps) && Ran(ok, steps, first) == Some(Here(s))
      invariant steps == opening + turns
      invariant done && TurnsOf(input, due, ControlRecords(input.config[..n]), turns, true) == done
    {
      done, turns := NextRecord(w, s, input, due, n, ok, first, start, opening, turns);
      steps := opening + turns;
      if !done {
        assert steps[1..] == turns;
        return;
      }
    }
    assert input.config[..|input.config|] == input.config && steps[1..] == turns;
  }

  method NextRecord(w: World, s: RuntimeControlState, input: PassInput, due: bool, n: nat, ghost ok: Step -> bool,
                    ghost first: Place, ghost start: seq<Event>, ghost opening: seq<Step>, ghost turns: seq<Step>)
    returns (done: bool, ghost later: seq<Step>)
    requires Covers(ok) && n < |input.config|
    requires Ran(ok, opening + turns, first) == Some(Here(s)) && w.trace == start + Flat(opening + turns)
    requires TurnsOf(input, due, ControlRecords(input.config[..n]), turns, true) == true
    modifies w, s`frozenApps, s`frozenSince, s`ownership, s`pending, s`blocked, s.deferral
    ensures w.trace == start + Flat(opening + later) && Ran(ok, opening + later, first) == Some(Here(s))
    ensures done ==> TurnsOf(input, due, ControlRecords(input.config[..n + 1]), later, true) == done
    ensures !done ==> TurnsOf(input, due, ControlRecords(input.config), later, done) == true
  {
    done, later := true, turns;
    var record := input.config[n];
    if IsControlMode(record.mode) {
      ghost var step;
      done, step := NextTurn(w, s, ContextFor(input, due, record), ok, first, start, opening + turns);
      TurnAdded(input, due, n, turns, step, done);
      later := turns + [step];
      TurnsGrow(opening, turns, step);
    } else {
      TurnSkipped(input, n);
    }
  }

  lemma TurnsGrow<T>(opening: seq<T>, turns: seq<T>, turn: T)
    ensures opening + turns + [turn] == opening + (turns + [turn])
  {
  }

  lemma TurnSkipped(input: PassInput, n: nat)
    requires n < |input.config| && !IsControlMode(input.config[n].mode)
    ensures ControlRecords(input.config[..n + 1]) == ControlRecords(input.config[..n])
  {
    assert input.config[..n + 1][..n] == input.config[..n];
  }

  lemma TurnAdded(input: PassInput, due: bool, n: nat, turns: seq<Step>, step: Step, ok: bool)
    requires n < |input.config| && IsControlMode(input.config[n].mode)
    requires TurnsOf(input, due, ControlRecords(input.config[..n]), turns, true)
    requires step.Turned? && step.context == ContextFor(input, due, input.config[n]) && ok == !PassFails(step.turn)
    ensures TurnsOf(input, due, ControlRecords(input.config[..n + 1]), turns + [step], ok)
    ensures !ok ==> TurnsOf(input, due, ControlRecords(input.config), turns + [step], false)
  {
    var records := ControlRecords(input.config[..n]);
    assert input.config[..n + 1][..n] == input.config[..n];
    TurnsSnoc(input, due, records, turns, input.config[n], step, ok);
    if !ok {
      TurnsOfMore(input, due, ControlRecords(input.config[..n + 1]), input.config, n + 1, turns + [step]);
    }
  }

  method NextTurn(w: World, s: RuntimeControlState, c: Context, ghost ok: Step -> bool, ghost first: Place,
                  ghost start: seq<Event>, ghost steps: seq<Step>)
    returns (done: bool, ghost step: Step)
    requires Covers(ok) && Ran(ok, steps, first) == Some(Here(s)) && w.trace == start + Flat(steps)
    modifies w, s`frozenApps, s`frozenSince, s`ownership, s`pending, s`blocked, s.deferral
    ensures Ran(ok, steps + [step], first) == Some(Here(s)) && w.trace == start + Flat(steps + [step])
    ensures step.Turned? && step.context == c && done == !PassFails(step.turn)
  {
    ghost var mid := Here(s);
    done, step := RecordTurn(w, s, c, ok);
    RanSnoc(ok, steps, first, mid, step);
  }

  lemma TurnsSnoc(input: PassInput, due: bool, records: seq<AppRecord>, turns: seq<Step>, record: AppRecord, step: Step,
                  ok: bool)
    requires TurnsOf(input, due, records, turns, true)
    requires step.Turned? && step.context == ContextFor(input, due, record) && ok == !PassFails(step.turn)
    ensures TurnsOf(input, due, records + [record], turns + [step], ok)
  {
  }

  lemma {:induction false} TurnsOfMore(input: PassInput, due: bool, records: seq<AppRecord>, config: seq<AppRecord>,
                                       n: nat,
                                       turns: seq<Step>)
    requires n <= |config| && records == ControlRecords(config[..n]) && TurnsOf(input, due, records, turns, false)
    ensures TurnsOf(input, due, ControlRecords(config), turns, false)
    decreases |config| - n
  {
    if n == |config| {
      assert config[..n] == config;
    } else {
      assert config[..n + 1][..n] == config[..n];
      TurnsOfMore(input, due, ControlRecords(config[..n + 1]), config, n + 1, turns);
    }
  }

  /** What the control loop may be told to do, again and again. */
  datatype Command = Control(input: PassInput) | Disable

  /** Disabling control does not touch the audit clock. */
  function Ticked(c: Audit.Clock, command: Command): Audit.Clock {
    if command.Control? then Audit.Tick(c, command.input.settings, command.input.now) else c
  }

  /** The audit clock after some commands. */
  function AuditAfter(c: Audit.Clock, commands: seq<Command>): Audit.Clock {
    if commands == [] then c
    else
      var n := |commands| - 1;
      Ticked(AuditAfter(c, commands[..n]), commands[n])
  }

  predicate AuditDueFor(c: Audit.Clock, command: Command) {
    command.Control? && Audit.Due(c, command.input.settings, command.input.now)
  }

  /** The steps are what this command, with or without an audit, asks for. */
  ghost predicate Obeys(command: Command, due: bool, steps: seq<Step>) {
    match command
    case Control(input) => IsPass(input, due, steps)
    case Disable => |steps| == 1 && steps[0].Disabled?
  }

  function Joined(runs: seq<seq<Step>>): seq<Step> {
    if runs == [] then [] else Joined(runs[..|runs| - 1]) + runs[|runs| - 1]
  }

  /** Each command's steps, in order, with the audit clock as the commands before it left it. */
  ghost predicate AllObey(commands: seq<Command>, c: Audit.Clock, runs: seq<seq<Step>>) {
    if commands == [] || runs == [] then commands == [] && runs == []
    else
      var n := |commands| - 1;
      && |runs| == |commands| && AllObey(commands[..n], c, runs[..n])
      && Obeys(commands[n], AuditDueFor(AuditAfter(c, commands[..n]), commands[n]), runs[n])
  }

  lemma {:induction false} ObeysAt(commands: seq<Command>, c: Audit.Clock, runs: seq<seq<Step>>, n: nat)
    requires AllObey(commands, c, runs) && n < |runs|
    ensures |commands| == |runs| && Obeys(commands[n], AuditDueFor(AuditAfter(c, commands[..n]), commands[n]), runs[n])
  {
    var m := |runs| - 1;
    if n == m {
    } else {
      assert commands[..m][..n] == commands[..n];
      ObeysAt(commands[..m], c, runs[..m], n);
    }
  }

  /** Any number of passes and disablings; a pass that returned an error does not stop the loop. */
  method RunLoop(w: World, s: RuntimeControlState, commands: seq<Command>, ghost ok: Step -> bool)
    returns (ghost runs: seq<seq<Step>>)
    requires Consistent(s.Seen()) && Covers(ok)
    modifies w, s, s.deferral
    ensures w.trace == old(w.trace) + Flat(Joined(runs)) && Ran(ok, Joined(runs), old(Here(s))) == Some(Here(s))
    ensures AllObey(commands, old(s.audit), runs) && s.audit == AuditAfter(old(s.audit), commands)
    ensures Consistent(s.Seen())
  {
    ghost var first, start, clock := Here(s), w.trace, s.audit;
    runs := [];
    for n := 0 to |commands|
      invariant w.trace == start + Flat(Joined(runs)) && Ran(ok, Joined(runs), first) == Some(Here(s))
      invariant s.audit == AuditAfter(clock, commands[..n]) && Consistent(s.Seen())
      invariant AllObey(commands[..n], clock, runs) == true
    {
      TakeNext(commands, n);
      runs := NextRun(w, s, commands[n], ok, first, start, clock, commands[..n], runs);
    }
    assert commands[..|commands|] == commands;
  }

  method NextRun(w: World, s: RuntimeControlState, command: Command, ghost ok: Step -> bool, ghost first: Place,
                 ghost start: seq<Event>, ghost clock: Audit.Clock, ghost obeyed: seq<Command>,
                   ghost runs: seq<seq<Step>>)
    returns (ghost later: seq<seq<Step>>)
    requires Consistent(s.Seen()) && Covers(ok)
    requires w.trace == start + Flat(Joined(runs)) && Ran(ok, Joined(runs), first) == Some(Here(s))
    requires AllObey(obeyed, clock, runs) && s.audit == AuditAfter(clock, obeyed)
    modifies w, s, s.deferral
    ensures w.trace == start + Flat(Joined(later)) && Ran(ok, Joined(later), first) == Some(Here(s))
    ensures AllObey(obeyed + [command], clock, later) && s.audit == AuditAfter(clock, obeyed + [command])
    ensures Consistent(s.Seen())
  {
    ghost var more := Obey(w, s, command, ok);
    RanConcat(ok, Joined(runs), more, first);
    FlatConcat(Joined(runs), more);
    RunAdded(obeyed, clock, runs, command, more);
    EventsReassociate(start, Flat(Joined(runs)), Flat(more));
    later := runs + [more];
  }

  lemma TakeNext<T>(s: seq<T>, n: nat)
    requires n < |s|
    ensures s[..n + 1] == s[..n] + [s[n]]
  {
  }

  lemma {:induction false} RunAdded(commands: seq<Command>, c: Audit.Clock, runs: seq<seq<Step>>, command: Command,
                                    more: seq<Step>)
    requires AllObey(commands, c, runs) && Obeys(command, AuditDueFor(AuditAfter(c, commands), command), more)
    ensures AllObey(commands + [command], c, runs + [more]) && Joined(runs + [more]) == Joined(runs) + more
    ensures AuditAfter(c, commands + [command]) == Ticked(AuditAfter(c, commands), command)
  {
    assert (commands + [command])[..|commands|] == commands && (runs + [more])[..|runs|] == runs;
    assert |runs| == |commands|;
  }

  method Obey(w: World, s: RuntimeControlState, command: Command, ghost ok: Step -> bool)
    returns (ghost steps: seq<Step>)
    requires Consistent(s.Seen()) && Covers(ok)
    modifies w, s, s.deferral
    ensures w.trace == old(w.trace) + Flat(steps) && Ran(ok, steps, old(Here(s))) == Some(Here(s))
    ensures Obeys(command, AuditDueFor(old(s.audit), command), steps)
    ensures s.audit == Ticked(old(s.audit), command)
    ensures Consistent(s.Seen())
  {
    ghost var both := (x: Step) => ok(x) && StepOk(x);
    match command {
      case Control(input) =>
        var done;
        done, steps := Pass(w, s, input, both);
      case Disable =>
        steps := DisableControl(w, s, both);
    }
    RanWeakens(both, ok, steps, old(Here(s)));
    RanWeakens(both, StepOk, steps, old(Here(s)));
    RanIsChain(StepOk, steps, old(Here(s)), Here(s));
    ChainConsistent(steps, old(s.Seen()), s.Seen());
  }

  method DisableControl(w: World, s: RuntimeControlState, ghost ok: Step -> bool) returns (ghost steps: seq<Step>)
    requires Consistent(s.Seen()) && Covers(ok)
    modifies w, s`frozenApps, s`frozenSince, s`ownership, s`pending, s`blocked, s.deferral
    ensures w.trace == old(w.trace) + Flat(steps) && Ran(ok, steps, old(Here(s))) == Some(Here(s))
    ensures |steps| == 1 && steps[0].Disabled?
  {
    ghost var first := Here(s);
    var done;
    ghost var ids, thaws, events;
    done, ids, thaws, events := s.ThawAll(w);
    ghost var step := Disabled(first.view, s.Seen(), events, ids, thaws);
    Deferral.AfterOne(first.samples, Deferral.Reset);
    RanOne(ok, first, step);
    steps := [step];
  }

  // ---- Runs as chains

  lemma {:induction false} RanIsChain(ok: Step -> bool, steps: seq<Step>, first: Place, last: Place)
    requires Ran(ok, steps, first) == Some(last)
    ensures Chain(ok, steps, first.view, last.view)
  {
    if steps == [] {
    } else {
      var n := |steps| - 1;
      RanIsChain(ok, steps[..n], first, Ran(ok, steps[..n], first).value);
    }
  }

  lemma {:induction false} RanWeakens(strong: Step -> bool, weak: Step -> bool, steps: seq<Step>, first: Place)
    requires Ran(strong, steps, first).Some? && forall s: Step :: strong(s) ==> weak(s)
    ensures Ran(weak, steps, first) == Ran(strong, steps, first)
  {
    if steps == [] {
    } else {
      RanWeakens(strong, weak, steps[..|steps| - 1], first);
    }
  }

  lemma {:induction false} RanConcat(ok: Step -> bool, a: seq<Step>, b: seq<Step>, first: Place)
    ensures Ran(ok, a + b, first)
            == if Ran(ok, a, first).None? then None else Ran(ok, b, Ran(ok, a, first).value)
  {
    if b == [] {
      assert a + b == a;
    } else {
      var front, s := b[..|b| - 1], b[|b| - 1];
      RanConcat(ok, a, front, first);
      RanLast(ok, a + front, s, first);
      if Ran(ok, a, first).Some? { RanLast(ok, front, s, Ran(ok, a, first).value); }
      assert b == front + [s] && a + b == (a + front) + [s];
    }
  }

  lemma {:induction false} RanLast(ok: Step -> bool, steps: seq<Step>, s: Step, first: Place)
    ensures var mid := Ran(ok, steps, first);
            Ran(ok, steps + [s], first)
            == if mid.Some? && StartsAt(s, mid.value) && ok(s) then Some(Next(s, mid.value)) else None
  {
    assert (steps + [s])[..|steps|] == steps;
  }

  /** A chain of steps that keep the invariant keeps it throughout, and satisfies every weaker step property. */
  lemma {:induction false} ChainWeakens(strong: Step -> bool, weak: Step -> bool, steps: seq<Step>, first: View,
                                        last: View)
    requires Chain(strong, steps, first, last) && Consistent(first)
    requires forall s: Step :: strong(s) ==> weak(s) && (Consistent(s.before) ==> Consistent(s.after))
    ensures Chain(weak, steps, first, last) && Consistent(last)
    ensures forall k :: 0 <= k < |steps| ==>
            strong(steps[k]) && Consistent(steps[k].before) && Consistent(steps[k].after)
    ensures steps != [] ==> steps[0].before == first && steps[|steps| - 1].after == last
  {
    if steps == [] {
    } else {
      var n := |steps| - 1;
      ChainWeakens(strong, weak, steps[..n], first, steps[n].before);
      forall k | 0 <= k < |steps|
        ensures strong(steps[k]) && Consistent(steps[k].before) && Consistent(steps[k].after)
      {
        if k < n { assert steps[..n][k] == steps[k]; }
      }
    }
  }

  lemma {:induction false} FlatConcat(a: seq<Step>, b: seq<Step>)
    ensures Flat(a + b) == Flat(a) + Flat(b)
  {
    if b == [] {
      assert a + b == a;
    } else {
      var n := |b| - 1;
      assert (a + b)[..|a| + n] == a + b[..n];
      FlatConcat(a, b[..n]);
    }
  }

  // ---- Theorems over every run

  /** A step keeps the invariant and the taint, and all its kernel actions are checked. */
  lemma StepIsSound(s: Step)
    requires StepOk(s) && Consistent(s.before)
    ensures Consistent(s.after) && TaintKept(s.before, s.after) && Guarded(s.events)
    ensures !s.Turned? ==> Harmless(s.events) && NoNewSignalOnly(s.before, s.after)
  {
    match s
    case Swept(_, _, _, _, _, _, _) => SweepIsSound(s);
    case Turned(before, after, events, c, samples, turn) =>
      TurnIsSound(c, samples, before, turn);
      TurnIsSafe(c, samples, before, turn);
    case Disabled(before, after, events, ids, thaws) =>
      ThawsSafe(before, ids, thaws);
      ThawAllKeepsInvariant(before, CleanOnes(ids, thaws));
  }

  lemma SweepIsSound(s: Step)
    requires s.Swept? && StepOk(s) && Consistent(s.before)
    ensures Consistent(s.after) && TaintKept(s.before, s.after) && NoNewSignalOnly(s.before, s.after)
    ensures Guarded(s.events) && Harmless(s.events) && Scoped(s.after, s.uids)
  {
    ThawsSafe(Pruned(s.before, s.uids), s.ids, s.thaws);
    ThawsClearExactlyClean(Pruned(s.before, s.uids), s.ids, s.thaws);
  }

  /**
    If the sweep's discoveries find no process, for example because only controlled UIDs are looked for, the tracked
    apps of all other UIDs are dropped without a single thaw.
   */
  lemma SweepMayThawNothing(s: Step)
    requires s.Swept? && StepOk(s) && Consistent(s.before) && NothingFound(s.events)
    ensures forall e :: e in s.events ==> e.Discovered?
    ensures s.after.frozen == set id | id in s.before.frozen && id.uid in s.uids
  {
    var v := Pruned(s.before, s.uids);
    NothingFoundIsClean(v, s.ids, s.thaws);
    ThawsClearExactlyClean(v, s.ids, s.thaws);
    forall id | id in s.ids ensures id in CleanOnes(s.ids, s.thaws) {
      var k :| 0 <= k < |s.ids| && s.ids[k] == id;
      assert Clean(s.ids[k], s.thaws[k]);
    }
    assert CleanOnes(s.ids, s.thaws) == set id | id in s.before.frozen && id.uid !in s.uids;
  }

  /** The step is right by the reference: in its calls, its states and what it does to the download samples. */
  ghost predicate RightStep(s: Step) {
    match s
    case Swept(before, after, events, uids, _, _, _) =>
      RightSweep(uids, before, after, events) && RightForgetting(uids, before, Happenings(s))
    case Turned(before, after, events, c, samples, _) =>
      RightTurn(c, samples, before, after, events) && RightSamples(c, events, Happenings(s))
    case Disabled(before, after, events, _, _) =>
      RightDisabling(before, after, events) && Happenings(s) == [Deferral.Reset]
  }

  lemma ForgettingIsRight(uids: set<nat>, v: View, h: seq<Deferral.Happening>)
    requires Clears(h, StaleUids(v, uids))
    ensures RightForgetting(uids, v, h)
  {
    forall uid: nat
      ensures uid in StaleUids(v, uids) <==> uid !in uids && exists id: Identity :: id.uid == uid && Remembered(v, id)
    {
      if id: Identity :| id.uid == uid && Remembered(v, id) {
        assert id in v.pending.Keys + v.frozen + v.ownership.Keys;
      }
    }
  }

  lemma StepIsRight(s: Step)
    requires StepOk(s) && Consistent(s.before)
    ensures RightStep(s)
  {
    match s
    case Swept(before, _, _, uids, cleared, ids, thaws) =>
      SweepIsRight(uids, before, ids, thaws);
      ForgettingIsRight(uids, before, cleared);
    case Turned(before, _, _, c, samples, turn) =>
      TurnIsRight(c, samples, before, turn);
      SamplesAreRight(c, samples, before, turn);
    case Disabled(before, _, _, ids, thaws) => DisablingIsRight(before, ids, thaws);
  }

  /** Each step of a run is a possible step between states that satisfy the invariant. */
  lemma {:induction false} ChainConsistent(steps: seq<Step>, first: View, last: View)
    requires Chain(StepOk, steps, first, last) && Consistent(first)
    ensures Consistent(last)
    ensures forall k :: 0 <= k < |steps| ==>
            StepOk(steps[k]) && Consistent(steps[k].before) && Consistent(steps[k].after)
  {
    forall x: Step | StepOk(x) && Consistent(x.before) ensures Consistent(x.after) {
      StepIsSound(x);
    }
    ChainWeakens(StepOk, StepOk, steps, first, last);
  }

  /** In every run, every kernel action directly follows a successful identity check of its process. */
  lemma {:induction false} RunIsGuarded(steps: seq<Step>, first: View, last: View)
    requires Chain(StepOk, steps, first, last) && Consistent(first)
    ensures Guarded(Flat(steps))
  {
    if steps == [] {
    } else {
      var n := |steps| - 1;
      ChainConsistent(steps, first, last);
      RunIsGuarded(steps[..n], first, steps[n].before);
      StepIsSound(steps[n]);
      GuardedConcat(Flat(steps[..n]), steps[n].events);
    }
  }

  predicate Tainted(v: View, id: Identity) {
    id in v.ownership && v.ownership[id] != SignalOnly
  }

  /** Taint is absorbing: as long as the entry is not removed, no number of steps makes it SignalOnly. */
  lemma {:induction false} TaintIsAbsorbing(steps: seq<Step>, first: View, last: View, id: Identity)
    requires Chain(StepOk, steps, first, last) && Consistent(first) && Tainted(first, id)
    requires forall k :: 0 <= k < |steps| ==> id in steps[k].after.ownership
    ensures Tainted(last, id)
  {
    if steps == [] {
    } else {
      var n := |steps| - 1;
      assert forall k :: 0 <= k < n ==> steps[..n][k] == steps[k];
      ChainConsistent(steps, first, last);
      TaintIsAbsorbing(steps[..n], first, steps[n].before, id);
      StepIsSound(steps[n]);
    }
  }

  /** The step that stored SignalOnly for an identity without an entry, after a fully confirmed direct stop. */
  ghost predicate Earns(s: Step, id: Identity) {
    && s.Turned? && id !in s.before.ownership && At(s.after.ownership, id) == Some(SignalOnly)
    && s.events != [] && s.events[0].Discovered? && s.events[0].found.Some? && s.events[0].found.value != []
    && id == IdOf(s.context, s.events[0].found.value) && DirectStop(s.events, s.events[0].found.value)
  }

  /**
    Wherever a run has SignalOnly that it did not start with, one of its steps earned it, and the entry has
    been SignalOnly ever since.
   */
  lemma SignalOnlyWasEarned(steps: seq<Step>, first: View, last: View, id: Identity) returns (k: nat)
    requires Chain(StepOk, steps, first, last) && Consistent(first)
    requires At(last.ownership, id) == Some(SignalOnly)
    ensures k < |steps| ==> Earns(steps[k], id)
    ensures k >= |steps| ==> At(first.ownership, id) == Some(SignalOnly)
    ensures forall j :: k <= j < |steps| ==> At(steps[j].after.ownership, id) == Some(SignalOnly)
  {
    k := LastRise(StepOk, (v: View) => At(v.ownership, id) == Some(SignalOnly), steps, first, last);
    if k < |steps| {
      ChainConsistent(steps, first, last);
      StepEarns(steps[k], id);
    }
  }

  /** Where something holds at the end of a run, it has held ever since the start or since one step made it hold. */
  lemma {:induction false} LastRise(ok: Step -> bool, holds: View -> bool, steps: seq<Step>, first: View, last: View)
    returns (k: nat)
    requires Chain(ok, steps, first, last) && holds(last)
    ensures k < |steps| ==> !holds(steps[k].before)
    ensures k >= |steps| ==> k == |steps| && holds(first)
    ensures forall j :: k <= j < |steps| ==> holds(steps[j].after)
  {
    k := |steps|;
    if steps == [] {
    } else {
      var n := |steps| - 1;
      if holds(steps[n].before) {
        k := LastRise(ok, holds, steps[..n], first, steps[n].before);
        assert forall j :: 0 <= j < n ==> steps[..n][j] == steps[j];
        if k == n { k := |steps|; }
      } else {
        k := n;
      }
    }
  }

  lemma StepEarns(s: Step, id: Identity)
    requires StepOk(s) && Consistent(s.before)
    requires At(s.before.ownership, id) != Some(SignalOnly) && At(s.after.ownership, id) == Some(SignalOnly)
    ensures Earns(s, id)
  {
    StepIsSound(s);
    TurnEarnsSignalOnly(s.context, s.samples, s.before, s.turn);
    assert s.events == TurnEvents(s.context, s.samples, s.before, s.turn);
  }

  /**
    After a pass, even one that failed, due times, blocked signatures and detached ownership are of controlled UIDs.
   */
  lemma {:induction false} PassLeavesNothingForeign(steps: seq<Step>, first: View, last: View, uids: set<nat>)
    requires Chain(StepOk, steps, first, last) && Consistent(first)
    requires steps != [] && steps[0].Swept? && steps[0].uids == uids
    requires forall k :: 1 <= k < |steps| ==> steps[k].Turned? && steps[k].context.record.uid in uids
    ensures Scoped(last, uids)
  {
    var n := |steps| - 1;
    ChainConsistent(steps, first, last);
    if n == 0 {
      SweepIsSound(steps[0]);
    } else {
      assert forall k :: 0 <= k < n ==> steps[..n][k] == steps[k];
      PassLeavesNothingForeign(steps[..n], first, steps[n].before, uids);
      var s := steps[n];
      TurnIsSound(s.context, s.samples, s.before, s.turn);
      ScopeStays(s.before, s.after, s.context.record.uid, uids);
    }
  }

  lemma ScopeStays(v: View, after: View, uid: nat, uids: set<nat>)
    requires Scoped(v, uids) && OnlyUid(v, after, uid) && uid in uids
    ensures Scoped(after, uids)
  {
    forall id: Identity | id.uid != uid
      ensures (id in after.ownership && id !in after.frozen ==> id.uid in uids)
      ensures (id in after.pending ==> id.uid in uids) && (id in after.blocked ==> id.uid in uids)
    {
      assert SameAt(v, after, id);
    }
  }

  // ---- What the control loop does

  lemma {:induction false} RanSamples(ok: Step -> bool, steps: seq<Step>, first: Place)
    requires Ran(ok, steps, first).Some?
    ensures Ran(ok, steps, first).value.samples == Deferral.AfterAll(first.samples, History(steps))
  {
    if steps == [] {
    } else {
      var n := |steps| - 1;
      RanSamples(ok, steps[..n], first);
      Deferral.AfterAllConcat(first.samples, History(steps[..n]), Happenings(steps[n]));
    }
  }

  /** A step of a run starts where the steps before it end. */
  lemma {:induction false} RanAt(ok: Step -> bool, steps: seq<Step>, first: Place, k: nat)
    requires Ran(ok, steps, first).Some? && k < |steps|
    ensures Ran(ok, steps[..k], first).Some? && StartsAt(steps[k], Ran(ok, steps[..k], first).value) && ok(steps[k])
  {
    assert steps == steps[..k + 1] + steps[k + 1..] && steps[..k + 1][..k] == steps[..k];
    RanConcat(ok, steps[..k + 1], steps[k + 1..], first);
  }

  /** A download app has been sampled before and has been slow since then, by the whole history of samples. */
  ghost predicate SlowEnough(past: seq<Deferral.Happening>, c: Context, ps: seq<Process>, reading: Option<RxSample>)
    requires ps != []
  {
    DownloadApp(MinPackage(ps)) ==>
      && reading.Some? && reading.value.Value?
      && Deferral.SlowSinceLastSample(past, c.record.uid, reading.value.bytes, c.now)
  }

  /**
    The freeze or kill is part of a turn whose state, batch and history of samples permit it, hits that batch, and uses
    the backend the record calls for.
   */
  ghost predicate Permits(past: seq<Deferral.Happening>, s: Step, e: Event) {
    && s.Turned? && e in s.events && s.events[0].Discovered? && s.events[0].found.Some? && KernelAction(e)
    && var ps, reading := s.events[0].found.value, ReadingOf(s.events);
       && Permitted(s.context, Deferral.Replay(past), s.before, ps, reading)
       && SlowEnough(past, s.context, ps, reading) && BackendFits(s.context, ps, e)
       && exists p :: p in ps && SameProcess(p, e.p)
  }

  lemma StepPermits(past: seq<Deferral.Happening>, s: Step, e: Event)
    requires StepOk(s) && Consistent(s.before) && e in s.events && Harmful(e)
    requires s.Turned? ==> s.samples == Deferral.Replay(past)
    ensures Permits(past, s, e)
  {
    StepIsSound(s);
    StepIsRight(s);
    TurnIsSafe(s.context, s.samples, s.before, s.turn);
    RightTurnShows(s.context, s.samples, s.before, s.after, s.events, e);
    assert s.events == TurnEvents(s.context, s.samples, s.before, s.turn);
    var ps, reading := s.events[0].found.value, ReadingOf(s.events);
    if DownloadApp(MinPackage(ps)) {
      SlowMeans(s.samples, s.context.record.uid, MinPackage(ps), reading.value, s.context.now);
      DownloadAppMeans(MinPackage(ps));
      Deferral.OneSampleRefinesHistory(past, s.context.record.uid, MinPackage(ps), reading.value, s.context.now);
    }
  }

  /** In every run, every freeze and kill is permitted in the state and after the history of samples it comes in. */
  lemma {:induction false} RunIsPermitted(steps: seq<Step>, first: Place, past: seq<Deferral.Happening>, k: nat,
                                          e: Event)
    requires Ran(StepOk, steps, first).Some? && Consistent(first.view) && first.samples == Deferral.Replay(past)
    requires k < |steps| && e in steps[k].events && Harmful(e)
    ensures Permits(past + History(steps[..k]), steps[k], e)
  {
    RanAt(StepOk, steps, first, k);
    var before := steps[..k];
    var mid := Ran(StepOk, before, first).value;
    RanIsChain(StepOk, before, first, mid);
    ChainConsistent(before, first.view, mid.view);
    RanSamples(StepOk, before, first);
    Deferral.AfterAllConcat(map[], past, History(before));
    StepPermits(past + History(before), steps[k], e);
  }

  /** The steps before step `k` of run `n`. */
  function Before(runs: seq<seq<Step>>, n: nat, k: nat): seq<Step>
    requires n < |runs| && k <= |runs[n]|
  {
    Joined(runs[..n]) + runs[n][..k]
  }

  lemma {:induction false} JoinedStart(runs: seq<seq<Step>>, n: nat)
    requires n < |runs|
    ensures |Before(runs, n, |runs[n]|)| <= |Joined(runs)|
    ensures Joined(runs)[..|Before(runs, n, |runs[n]|)|] == Before(runs, n, |runs[n]|)
  {
    var m := |runs| - 1;
    assert runs[n][..|runs[n]|] == runs[n];
    if n == m {
    } else {
      assert runs[..m][..n] == runs[..n];
      JoinedStart(runs[..m], n);
      assert Joined(runs) == Joined(runs[..m]) + runs[m];
    }
  }

  lemma JoinedAt(runs: seq<seq<Step>>, n: nat, k: nat) returns (at: nat)
    requires n < |runs| && k < |runs[n]|
    ensures at < |Joined(runs)| && Joined(runs)[at] == runs[n][k] && Joined(runs)[..at] == Before(runs, n, k)
  {
    var whole := Before(runs, n, |runs[n]|);
    at := |Joined(runs[..n])| + k;
    JoinedStart(runs, n);
    assert whole[at] == runs[n][k] && whole[..at] == Before(runs, n, k);
    assert Joined(runs)[at] == whole[at] && Joined(runs)[..at] == whole[..at];
  }

  lemma {:induction false} FlatMember(steps: seq<Step>, e: Event) returns (k: nat)
    requires e in Flat(steps)
    ensures k < |steps| && e in steps[k].events
  {
    var n := |steps| - 1;
    if e in steps[n].events { k := n; } else { k := FlatMember(steps[..n], e); }
  }

  lemma {:induction false} JoinedMember(runs: seq<seq<Step>>, e: Event) returns (n: nat, k: nat)
    requires e in Flat(Joined(runs))
    ensures n < |runs| && k < |runs[n]| && e in runs[n][k].events
  {
    var m := |runs| - 1;
    FlatConcat(Joined(runs[..m]), runs[m]);
    if e in Flat(runs[m]) {
      n := m;
      k := FlatMember(runs[m], e);
    } else {
      n, k := JoinedMember(runs[..m], e);
    }
  }

  /**
    The command asked for this freeze or kill: it is part of a turn of a record of the command's config, at its time and
    under its settings, with the UID not in its foreground, and that turn permits it.
   */
  ghost predicate Justifies(command: Command, due: bool, past: seq<Deferral.Happening>, s: Step, e: Event) {
    && command.Control? && Permits(past, s, e)
    && s.context.record in command.input.config && s.context.record.uid !in command.input.foreground
    && s.context == ContextFor(command.input, due, s.context.record)
  }

  /** Step `k` of the run of command `n` is justified by it. */
  ghost predicate JustifiesAt(commands: seq<Command>, clock: Audit.Clock, past: seq<Deferral.Happening>,
                              runs: seq<seq<Step>>, n: nat, k: nat, e: Event) {
    && n < |commands| && n < |runs| && k < |runs[n]|
    && Justifies(commands[n], AuditDueFor(AuditAfter(clock, commands[..n]), commands[n]),
                 past + History(Before(runs, n, k)), runs[n][k], e)
  }

  lemma HarmIsATurn(command: Command, due: bool, steps: seq<Step>, k: nat)
    requires Obeys(command, due, steps) && k < |steps| && steps[k].Turned?
    ensures command.Control? && steps[k].context.record in command.input.config
    ensures steps[k].context == ContextFor(command.input, due, steps[k].context.record)
  {
    assert steps[1..][k - 1] == steps[k];
  }

  lemma HarmIsJustified(commands: seq<Command>, clock: Audit.Clock, past: seq<Deferral.Happening>, runs: seq<seq<Step>>,
                        first: Place, e: Event)
    returns (n: nat, k: nat)
    requires AllObey(commands, clock, runs) && Ran(StepOk, Joined(runs), first).Some?
    requires Consistent(first.view) && first.samples == Deferral.Replay(past)
    requires e in Flat(Joined(runs)) && Harmful(e)
    ensures JustifiesAt(commands, clock, past, runs, n, k, e)
  {
    n, k := JoinedMember(runs, e);
    var at := JoinedAt(runs, n, k);
    RunIsPermitted(Joined(runs), first, past, at, e);
    ObeysAt(commands, clock, runs, n);
    HarmIsATurn(commands[n], AuditDueFor(AuditAfter(clock, commands[..n]), commands[n]), runs[n], k);
  }

  /**
    The control loop over any commands: it does for each command what that command asks for; every step is right by
    the reference; every kernel action it recorded directly follows a successful check of its process, and every freeze
    and kill is justified by its command.
   */
  method ControlLoop(w: World, s: RuntimeControlState, commands: seq<Command>, ghost past: seq<Deferral.Happening>)
    returns (ghost runs: seq<seq<Step>>, ghost done: seq<Event>)
    requires Consistent(s.Seen()) && s.deferral.samples == Deferral.Replay(past)
    modifies w, s, s.deferral
    ensures w.trace == old(w.trace) + done && done == Flat(Joined(runs))
    ensures Ran(StepOk, Joined(runs), old(Here(s))) == Some(Here(s)) && AllObey(commands, old(s.audit), runs)
    ensures Guarded(done)
    ensures forall k :: 0 <= k < |Joined(runs)| ==> RightStep(Joined(runs)[k])
    ensures forall e :: e in done && Harmful(e) ==>
            exists n, k :: JustifiesAt(commands, old(s.audit), past, runs, n, k, e)
  {
    ghost var first, clock := Here(s), s.audit;
    runs := RunLoop(w, s, commands, StepOk);
    done := Flat(Joined(runs));
    RanIsChain(StepOk, Joined(runs), first, Here(s));
    RunIsGuarded(Joined(runs), first.view, s.Seen());
    ChainConsistent(Joined(runs), first.view, s.Seen());
    forall k | 0 <= k < |Joined(runs)| ensures RightStep(Joined(runs)[k]) { StepIsRight(Joined(runs)[k]); }
    forall e | e in done && Harmful(e) ensures exists n, k :: JustifiesAt(commands, clock, past, runs, n, k, e) {
      var n, k := HarmIsJustified(commands, clock, past, runs, first, e);
    }
  }

  // ---- The audits of a run

  /** The times of the passes among the commands. */
  function PassTimes(commands: seq<Command>): seq<nat> {
    if commands == [] then []
    else
      var n := |commands| - 1;
      PassTimes(commands[..n]) + if commands[n].Control? then [commands[n].input.now] else []
  }

  ghost predicate FixedSettings(commands: seq<Command>, settings: seq<nat>) {
    forall i :: 0 <= i < |commands| && commands[i].Control? ==> commands[i].input.settings == settings
  }

  lemma {:induction false} ClockOfPrefix(times: seq<nat>, more: seq<nat>, settings: seq<nat>, n: nat)
    requires n <= |times|
    ensures Audit.ClockAfter(times + more, settings, n) == Audit.ClockAfter(times, settings, n)
  {
    if n == 0 {
    } else {
      ClockOfPrefix(times, more, settings, n - 1);
    }
  }

  lemma {:induction false} LoopClock(commands: seq<Command>, settings: seq<nat>)
    requires FixedSettings(commands, settings)
    ensures var times := PassTimes(commands);
            AuditAfter(Audit.Clock(None, None), commands) == Audit.ClockAfter(times, settings, |times|)
  {
    if commands == [] {
    } else {
      var n := |commands| - 1;
      var times := PassTimes(commands[..n]);
      LoopClock(commands[..n], settings);
      if commands[n].Control? {
        var now := commands[n].input.now;
        ClockOfPrefix(times, [now], settings, |times|);
        assert PassTimes(commands) == times + [now] && (times + [now])[|times|] == now;
        assert Audit.ClockAfter(times + [now], settings, |times| + 1)
            == Audit.Tick(Audit.ClockAfter(times + [now], settings, |times|), settings, now);
      } else {
        assert PassTimes(commands) == times;
      }
    }
  }

  lemma {:induction false} TimesOfPrefix(commands: seq<Command>, n: nat)
    requires n <= |commands|
    ensures |PassTimes(commands[..n])| <= |PassTimes(commands)|
    ensures PassTimes(commands)[..|PassTimes(commands[..n])|] == PassTimes(commands[..n])
  {
    if n == |commands| {
      assert commands[..n] == commands;
    } else {
      var m := |commands| - 1;
      assert commands[..m][..n] == commands[..n];
      TimesOfPrefix(commands[..m], n);
    }
  }

  /** The pass of command `i` is the one with number `k`, and it audits exactly if that pass is due. */
  lemma PassIsDue(commands: seq<Command>, settings: seq<nat>, i: nat) returns (k: nat)
    requires FixedSettings(commands, settings) && i < |commands| && commands[i].Control?
    ensures k == |PassTimes(commands[..i])| < |PassTimes(commands)| && PassTimes(commands)[k] == commands[i].input.now
    ensures AuditDueFor(AuditAfter(Audit.Clock(None, None), commands[..i]), commands[i])
            <==> Audit.DueAt(PassTimes(commands), settings, k)
  {
    var times := PassTimes(commands);
    k := |PassTimes(commands[..i])|;
    assert commands[..i + 1][..i] == commands[..i];
    TimesOfPrefix(commands, i);
    TimesOfPrefix(commands, i + 1);
    LoopClock(commands[..i], settings);
    assert times[k] == times[..k + 1][k];
    assert times == times[..k] + times[k..];
    ClockOfPrefix(times[..k], times[k..], settings, k);
  }

  /** The pass keeps a minute from the first pass and the gap of every audit before it. */
  ghost predicate LoopKeepsGaps(commands: seq<Command>, settings: seq<nat>, j: nat)
    requires j < |commands| && commands[j].Control? && PassTimes(commands) != []
  {
    var start, now := PassTimes(commands)[0], commands[j].input.now;
    && now >= start + 60_000
    && forall i :: 0 <= i < j && AuditDueFor(AuditAfter(Audit.Clock(None, None), commands[..i]), commands[i]) ==>
         now >= commands[i].input.now + Audit.Gap(start, settings, commands[i].input.now)
  }

  /** In the loop, with fixed settings and a clock that does not run backwards, exactly these passes audit. */
  lemma {:induction false} LoopAuditsExactly(commands: seq<Command>, settings: seq<nat>, j: nat)
    requires FixedSettings(commands, settings) && Audit.Nondecreasing(PassTimes(commands))
    requires j < |commands| && commands[j].Control?
    ensures PassTimes(commands) != []
    ensures AuditDueFor(AuditAfter(Audit.Clock(None, None), commands[..j]), commands[j]) <==>
            && (commands[j].input.now < PassTimes(commands)[0] + 900_000 || Audit.AuditsLate(settings))
            && LoopKeepsGaps(commands, settings, j)
  {
    var times := PassTimes(commands);
    var m := PassIsDue(commands, settings, j);
    Audit.AuditsExactly(times, settings, m);
    if LoopKeepsGaps(commands, settings, j) {
      forall k | 0 <= k < m && Audit.DueAt(times, settings, k)
        ensures times[m] >= times[k] + Audit.Gap(times[0], settings, times[k])
      {
        var i := PassNumber(commands, k);
        var same := PassIsDue(commands, settings, i);
        if i >= j { EarlierPasses(commands, j, i); }
      }
    }
    forall i | 0 <= i < j && AuditDueFor(AuditAfter(Audit.Clock(None, None), commands[..i]), commands[i])
      ensures Audit.KeepsGaps(times, settings, m) ==>
              times[m] >= commands[i].input.now + Audit.Gap(times[0], settings, commands[i].input.now)
    {
      var k := PassIsDue(commands, settings, i);
      LaterPass(commands, i, j);
    }
  }

  /** The command that makes pass number `k`. */
  lemma {:induction false} PassNumber(commands: seq<Command>, k: nat) returns (i: nat)
    requires k < |PassTimes(commands)|
    ensures i < |commands| && commands[i].Control? && |PassTimes(commands[..i])| == k
  {
    var n := |commands| - 1;
    if k < |PassTimes(commands[..n])| {
      i := PassNumber(commands[..n], k);
      assert commands[..n][..i] == commands[..i];
    } else {
      i := n;
    }
  }

  lemma EarlierPasses(commands: seq<Command>, i: nat, j: nat)
    requires i <= j <= |commands|
    ensures |PassTimes(commands[..i])| <= |PassTimes(commands[..j])|
  {
    assert commands[..j][..i] == commands[..i];
    TimesOfPrefix(commands[..j], i);
  }

  lemma LaterPass(commands: seq<Command>, i: nat, j: nat)
    requires i < j <= |commands| && commands[i].Control?
    ensures |PassTimes(commands[..i])| < |PassTimes(commands[..j])|
  {
    assert commands[..j][..i + 1] == commands[..i + 1] && commands[..i + 1][..i] == commands[..i];
    TimesOfPrefix(commands[..j], i + 1);
  }

  /** Fixed settings are needed: switched on late, after a pass with the option off, the very next pass audits. */
  lemma {:induction false} SwitchedOnLateAudits(commands: seq<Command>, clock: Audit.Clock, n: nat)
    requires 0 < n < |commands| && commands[n - 1].Control? && commands[n].Control?
    requires var c := AuditAfter(clock, commands[..n - 1]);
             c.started.Some? && c.started.value + 900_000 <= commands[n - 1].input.now <= commands[n].input.now
    requires !Audit.AuditsLate(commands[n - 1].input.settings)
    ensures AuditDueFor(AuditAfter(clock, commands[..n]), commands[n]) <==> Audit.AuditsLate(commands[n].input.settings)
  {
    var off, on := commands[n - 1].input, commands[n].input;
    assert commands[..n][..n - 1] == commands[..n - 1];
    Audit.SwitchingOnAuditsAtOnce(AuditAfter(clock, commands[..n - 1]), off.settings, on.settings, off.now, on.now);
  }
}
