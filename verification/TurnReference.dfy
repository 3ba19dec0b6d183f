/**
  What one record's turn must do, said over the batch it discovers, the state before and after it and its calls alone,
  with the source's numbers and names written out. The accounts of a turn do not occur here, nor does anything that
  decides in the model; `TurnRefinement` proves that every possible turn is right in this sense.
 */
module TurnReference {
  import opened Domain
  import opened Trace
  import opened Transactions
  import opened ControlStateTracking
  import opened Actions
  import opened ControlTurn
  import Deferral

  // ---- Numbers and names

  function Chosen(c: Context, i: nat): nat { if i < |c.settings| then c.settings[i] else 0 }

  /** Milliseconds from the first sight of a background app to its freeze or kill. */
  function DelayOf(c: Context): nat { 1000 * Chosen(c, if c.record.mode == 10 then 4 else 2) }

  /** The minutes after which a frozen app is woken up, 0 for never. */
  function WakeMinutes(c: Context): nat {
    match Chosen(c, 3)
    case 1 => 5
    case 2 => 15
    case 3 => 30
    case 4 => 60
    case 5 => 120
    case _ => 0
  }

  predicate Oversleeps(c: Context, v: View, id: Identity) {
    WakeMinutes(c) > 0 && id in v.since && c.now >= v.since[id] + WakeMinutes(c) * 60_000
  }

  predicate Forbidden(c: Context, package: string) {
    || c.record.mode !in {10, 20, 21, 30, 31} || c.record.uid % 100_000 < 10_000
    || package in {
         "io.github.jark006.freezeit", "com.topjohnwu.magisk", "io.github.huskydg.magisk", "org.lsposed.manager",
         "io.github.lsposed.manager", "android", "com.android.systemui", "com.android.phone"}
  }

  predicate Spells(c: char, small: char) { if 'A' <= c <= 'Z' then c as int + 32 == small as int else c == small }

  /** The small-letter word stands at this place of the text, in letters of either case. */
  predicate SpelledAt(s: string, i: int, word: string) {
    0 <= i && i + |word| <= |s| && forall k :: 0 <= k < |word| ==> Spells(s[i + k], word[k])
  }

  predicate Mentions(s: string, word: string) { exists i :: 0 <= i <= |s| && SpelledAt(s, i, word) }

  predicate Busy(binder: string) {
    || Mentions(binder, "binder_queue active") || Mentions(binder, "busy") || Mentions(binder, "sync_txn")
    || Mentions(binder, "txns_pending") || Mentions(binder, "binder_pending")
  }

  /** Nothing of the batch is in use: the evidence a freeze needs. */
  predicate Idle(ps: seq<Process>) {
    forall i :: 0 <= i < |ps| ==>
      ps[i].state !in {Foreground, Visible, ProcessState.Unknown} && (ps[i].binder.Some? ==> !Busy(ps[i].binder.value))
  }

  predicate Names(package: string, word: string) { |package| == |word| && SpelledAt(package, 0, word) }

  predicate DownloadApp(package: string) {
    || Names(package, "com.baidu.netdisk") || Names(package, "com.quark.clouddrive")
    || Names(package, "com.google.android.apps.docs") || Names(package, "com.pikpak.android")
    || Names(package, "com.trim.app")
  }

  /** At most 5 MiB a second since the sample before. */
  predicate SlowSince(samples: map<nat, Deferral.Sample>, uid: nat, sample: RxSample, now: nat) {
    && sample.Value? && uid in samples && samples[uid].at < now && samples[uid].bytes <= sample.bytes
    && (sample.bytes - samples[uid].bytes) * 1000 < (5 * 1024 * 1024 + 1) * (now - samples[uid].at)
  }

  // ---- Thaws

  /** Every check confirmed its process, and every kernel action succeeded. */
  ghost predicate Succeeded(t: seq<Event>) {
    forall i :: 0 <= i < |t| ==>
      (t[i].Validated? ==> t[i].answer == Some(true)) && (t[i].Froze? || t[i].Unfroze? || t[i].Terminated? ==> t[i].ok)
  }

  /** A confirming check is directly followed by a thaw of its process, and there are no other thaws. */
  predicate ThawCall(t: seq<Event>, i: int)
    requires 0 <= i < |t|
  {
    || (t[i].Validated? && (t[i].answer == Some(true) ==> i + 1 < |t| && t[i + 1].Unfroze? && t[i + 1].p == t[i].p))
    || (t[i].Unfroze? && i > 0 && t[i - 1] == Validated(t[i].p, Some(true)))
  }

  /** Each process is checked, in order, and thawed if confirmed: on a copy without cgroup path after a signal stop. */
  ghost predicate ThawTried(t: seq<Event>, ps: seq<Process>, signalOnly: bool) {
    && Checked(t) == seq(|ps|, i requires 0 <= i < |ps| => if signalOnly then ps[i].(cgroup := None) else ps[i])
    && forall i :: 0 <= i < |t| ==> ThawCall(t, i)
  }

  predicate AllOf(ps: seq<Process>, package: string) { forall i :: 0 <= i < |ps| ==> ps[i].package == package }

  /** A batch with a foreign package is not touched. */
  ghost predicate Thaws(t: seq<Event>, ps: seq<Process>, package: string, signalOnly: bool) {
    if AllOf(ps, package) then ThawTried(t, ps, signalOnly) else t == []
  }

  ghost predicate Thawed(t: seq<Event>, ps: seq<Process>, package: string) { AllOf(ps, package) && Succeeded(t) }

  predicate StoppedBySignal(v: View, id: Identity) { id in v.ownership && v.ownership[id] == SignalOnly }

  /** One attempt on a tracked identity: look for its processes, thaw them, and forget it only if all went well. */
  ghost predicate ThawsIdentity(look: Event, t: seq<Event>, id: Identity, signalOnly: bool, gone: bool) {
    && look.Discovered? && look.uid == id.uid
    && if look.found.None? then t == [] && !gone
       else Thaws(t, look.found.value, id.package, signalOnly) && gone == Thawed(t, look.found.value, id.package)
  }

  /** The attempt is one unbroken part of the calls. */
  ghost predicate TriesIdentity(t: seq<Event>, id: Identity, signalOnly: bool, gone: bool) {
    exists a, look, b, d :: t == a + [look] + b + d && ThawsIdentity(look, b, id, signalOnly, gone)
  }

  /** Each of `mine` is tried with the backend that stopped it; exactly those thawed completely are not `left`. */
  ghost predicate ThawsEach(v: View, left: set<Identity>, mine: set<Identity>, t: seq<Event>) {
    && left <= v.frozen && v.frozen - left <= mine <= v.frozen
    && (forall id :: id in mine ==> TriesIdentity(t, id, StoppedBySignal(v, id), id !in left))
    && forall i :: 0 <= i < |t| ==> t[i].Discovered? || t[i].Validated? || t[i].Unfroze?
  }

  // ---- States

  /** The processes a blocked identity is remembered with. */
  function Signed(ps: seq<Process>): Signature {
    multiset(seq(|ps|, i requires 0 <= i < |ps| => Mark(ps[i].pid, ps[i].package, ps[i].start)))
  }

  function Without(v: View, id: Identity): View {
    v.(frozen := v.frozen - {id}, since := v.since - {id}, ownership := v.ownership - {id})
  }

  /** Tracked from now on, with no due time left. */
  function Stored(v: View, id: Identity, now: nat, owner: Ownership): View {
    v.(frozen := v.frozen + {id}, since := v.since[id := now], ownership := v.ownership[id := owner],
       pending := v.pending - {id})
  }

  /** The state an action starts from: the old block is lifted, and a running tracked app counts as thawed. */
  function Reopening(v: View, id: Identity): View {
    if id in v.frozen
    then v.(frozen := v.frozen - {id}, since := v.since - {id}, blocked := v.blocked - {id},
            ownership := v.ownership[id := if StoppedBySignal(v, id) then SignalOnly else ResidualUnknown])
    else v.(blocked := v.blocked - {id})
  }

  // ---- Actions

  function StopTarget(p: Process, signal: bool): Process {
    if signal then p.(control := PendingFreeze, cgroup := None) else p.(control := PendingFreeze)
  }

  /** The calls begin with a confirmed check of every process of a batch of one package. */
  ghost predicate PastChecks(t: seq<Event>, ps: seq<Process>) {
    && SinglePackage(ps) && |t| >= |ps|
    && forall i :: 0 <= i < |ps| ==> t[i] == Validated(ps[i].(control := PendingFreeze), Some(true))
  }

  ghost predicate ChecksFirst(t: seq<Event>, ps: seq<Process>) {
    t != [] && ps != [] && t[0].Validated? && t[0].p == ps[0].(control := PendingFreeze)
  }

  predicate StopsOne(e: Event, ps: seq<Process>, signal: bool)
    requires e.Froze?
  {
    exists i :: 0 <= i < |ps| && e.p == StopTarget(ps[i], signal)
  }

  /** One freeze transaction: none is frozen before all are confirmed, and if nothing fails all of them are. */
  ghost predicate Attempted(t: seq<Event>, ps: seq<Process>, signal: bool) {
    && ChecksFirst(t, ps)
    && (forall i :: 0 <= i < |t| ==> t[i].Validated? || t[i].Unfroze? || t[i].Froze?)
    && (forall i :: 0 <= i < |t| && t[i].Froze? ==> PastChecks(t, ps) && StopsOne(t[i], ps, signal))
    && (Succeeded(t) && SinglePackage(ps) ==>
          NeverThaws(t) && forall i :: 0 <= i < |ps| ==> Froze(StopTarget(ps[i], signal), true) in t)
  }

  /** Successful freezes less successful thaws. */
  function Balance(t: seq<Event>): int {
    if t == [] then 0
    else
      var e := t[|t| - 1];
      Balance(t[..|t| - 1]) + if e.Froze? && e.ok then 1 else if e.Unfroze? && e.ok then -1 else 0
  }

  /** A kill of the batch: complete, and then everything about the app is forgotten, or nothing is. */
  ghost predicate RightKill(v: View, id: Identity, after: View, ps: seq<Process>, t: seq<Event>) {
    && ChecksFirst(t, ps)
    && (forall i :: 0 <= i < |t| ==> t[i].Validated? || t[i].Terminated?)
    && (forall i :: 0 <= i < |t| && t[i].Terminated? ==> PastChecks(t, ps))
    && if Succeeded(t) && SinglePackage(ps)
       then (forall i :: 0 <= i < |ps| ==> Terminated(ps[i].(control := PendingFreeze), true) in t)
            && after == Without(v.(pending := v.pending - {id}), id)
       else after == v
  }

  /**
    Neither memory nor the ledger knows of a freeze that is not a stop by signal, and every process has a start
    time.
   */
  predicate LedgerAllows(v: View, id: Identity, ps: seq<Process>, lookups: seq<Event>) {
    && (if id in v.ownership then v.ownership[id] == SignalOnly else id !in v.frozen) && |lookups| == |ps|
    && forall i :: 0 <= i < |ps| ==>
         && ps[i].start.Some? && lookups[i].LedgerRead? && lookups[i].p == ps[i].(control := PendingFreeze)
         && lookups[i].entry in {NoEntry, SignalOnlyEntry}
  }

  /**
    The parts of a stop by signal: ledger reads, the transaction, and promotions if it completed and all allow them.
   */
  ghost predicate StopParts(c: Context, v: View, id: Identity, after: View, ps: seq<Process>, lookups: seq<Event>,
                            a: seq<Event>, promos: seq<Event>) {
    && LedgerReads(lookups) && Attempted(a, ps, true)
    && (if Succeeded(a) && SinglePackage(ps) && LedgerAllows(v, id, ps, lookups)
        then Promotions(PendingBatch(ps), promos) else promos == [])
    && after == if Succeeded(a) && SinglePackage(ps)
                then Stored(v, id, c.now, if promos != [] && AllConfirmed(promos) then SignalOnly else ResidualUnknown)
                else if Succeeded(a)
                then v.(blocked := v.blocked[id := Signed(ps)], pending := v.pending - {id})
                else if Balance(a) > 0 then Stored(v, id, c.now, ResidualUnknown)
                else v.(pending := v.pending - {id})
  }

  ghost predicate RightStop(c: Context, v: View, id: Identity, after: View, ps: seq<Process>, t: seq<Event>) {
    exists r, a, promos :: t == r + a + promos && StopParts(c, v, id, after, ps, r, a, promos)
  }

  /** A process of the UID that the batch did not have. */
  predicate Newcomer(c: Context, ps: seq<Process>, found: seq<Process>) {
    exists k :: 0 <= k < |found| && found[k].uid == c.record.uid
                && forall i :: 0 <= i < |ps| ==> ps[i].pid != found[k].pid
  }

  /** The look after a complete freeze: a newcomer undoes the freeze, and the app stays tracked unless all is thawed. */
  ghost predicate RightRescan(c: Context, v: View, id: Identity, after: View, ps: seq<Process>,
                              found: Option<seq<Process>>, t: seq<Event>) {
    if found.None? then t == [] && after == v
    else if Newcomer(c, ps, found.value) then
      && Thaws(t, found.value, id.package, false)
      && after == if Thawed(t, found.value, id.package) then Without(v.(pending := v.pending - {id}), id)
                  else Stored(v, id, c.now, ResidualUnknown)
    else
      && t == []
      && after == Stored(v, id, c.now, if id in v.ownership && v.ownership[id] == ResidualUnknown then ResidualUnknown
                                       else CgroupBinder)
  }

  /** The parts of a freeze: through the cgroup first; a complete one is looked at again, any other falls back. */
  ghost predicate FreezeParts(c: Context, v: View, id: Identity, after: View, ps: seq<Process>, a: seq<Event>,
                              b: seq<Event>) {
    && Attempted(a, ps, false)
    && if Succeeded(a) && SinglePackage(ps)
       then b != [] && b[0].Discovered? && b[0].uid == c.record.uid
            && RightRescan(c, v, id, after, ps, b[0].found, b[1..])
       else Attempted(b, ps, true)
            && after == if Succeeded(a)
                        then v.(blocked := v.blocked[id := Signed(ps)], pending := v.pending - {id})
                        else if PastChecks(a, ps) || (Succeeded(b) && SinglePackage(ps)) || Balance(b) > 0
                        then Stored(v, id, c.now, ResidualUnknown)
                        else v.(pending := v.pending - {id})
  }

  ghost predicate RightFreeze(c: Context, v: View, id: Identity, after: View, ps: seq<Process>, t: seq<Event>) {
    exists a, b :: t == a + b && FreezeParts(c, v, id, after, ps, a, b)
  }

  /** Which backend acts, by mode, the global signal option, the evidence and what the device offers. */
  ghost predicate RightAction(c: Context, v: View, id: Identity, after: View, ps: seq<Process>, t: seq<Event>) {
    if c.record.mode == 10 then RightKill(v, id, after, ps, t)
    else if c.record.mode in {20, 21} || Chosen(c, 5) == 2 then RightStop(c, v, id, after, ps, t)
    else if !Idle(ps) then t == [] && after == v
    else if c.binder && forall i :: 0 <= i < |ps| ==> ps[i].cgroup.Some? then RightFreeze(c, v, id, after, ps, t)
    else RightStop(c, v, id, after, ps, t)
  }

  // ---- Turns

  /** A forbidden app is thawed wherever it is tracked, and only what is still frozen of its UID stays remembered. */
  ghost predicate RightBar(c: Context, v: View, after: View, t: seq<Event>) {
    var uid := c.record.uid;
    && ThawsEach(v, after.frozen, (set id | id in v.frozen && id.uid == uid), t)
    && after == View(after.frozen,
                     map id | id in v.since && id in after.frozen :: v.since[id],
                     map id | id in v.ownership && (id.uid != uid || id in after.frozen) :: v.ownership[id],
                     map id | id in v.pending && id.uid != uid :: v.pending[id],
                     map id | id in v.blocked && id.uid != uid :: v.blocked[id])
  }

  /** A foreground app is thawed if it is tracked, and is no longer due. */
  ghost predicate RightFront(v: View, id: Identity, after: View, ps: seq<Process>, t: seq<Event>) {
    var u := v.(pending := v.pending - {id}, blocked := v.blocked - {id});
    && (if id in v.frozen then Thaws(t, ps, id.package, StoppedBySignal(v, id)) else t == [])
    && after == if id in v.frozen && Thawed(t, ps, id.package) then Without(u, id) else u
  }

  /** An app that overslept is thawed, and becomes due again some seconds later if that succeeded. */
  ghost predicate RightWakeUp(c: Context, v: View, id: Identity, after: View, ps: seq<Process>, t: seq<Event>) {
    var u := v.(blocked := v.blocked - {id});
    && Thaws(t, ps, id.package, StoppedBySignal(v, id))
    && after == if Thawed(t, ps, id.package)
                then Without(u, id).(pending := v.pending[id := c.now + 1000 * Chosen(c, 2)]) else u
  }

  /** A download app is sampled once; too fast or without a usable sample before, it is only due again soon. */
  ghost predicate RightGate(c: Context, samples: map<nat, Deferral.Sample>, v: View, id: Identity, after: View,
                            ps: seq<Process>, t: seq<Event>) {
    if !DownloadApp(id.package) then RightAction(c, v, id, after, ps, t)
    else
      && t != [] && t[0].Sampled? && t[0].uid == c.record.uid
      && if SlowSince(samples, c.record.uid, t[0].sample, c.now) then RightAction(c, v, id, after, ps, t[1..])
         else |t| == 1 && after == v.(pending := v.pending[id := c.now + if t[0].sample.Failed? then 30_000 else 1_000])
  }

  /** The gates for an allowed app in the background, in their order. */
  ghost predicate RightBackground(c: Context, samples: map<nat, Deferral.Sample>, v: View, id: Identity, after: View,
                                  ps: seq<Process>, t: seq<Event>) {
    var u := v.(blocked := v.blocked - {id});
    if id in v.frozen then
      if Oversleeps(c, v, id) then RightWakeUp(c, v, id, after, ps, t)
      else if c.auditDue && exists i :: 0 <= i < |ps| && ps[i].control == Running
      then RightGate(c, samples, Reopening(v, id), id, after, ps, t)
      else t == [] && after == u
    else if DelayOf(c) > 0 && id !in v.pending
    then t == [] && after == u.(pending := v.pending[id := c.now + DelayOf(c)])
    else if DelayOf(c) > 0 && c.now < v.pending[id] then t == [] && after == u
    else RightGate(c, samples, Reopening(v, id), id, after, ps, t)
  }

  ghost predicate RightBatch(c: Context, samples: map<nat, Deferral.Sample>, v: View, after: View, ps: seq<Process>,
                             t: seq<Event>)
    requires ps != []
  {
    var id := Identity(MinPackage(ps), c.record.uid);
    if Forbidden(c, id.package) then RightBar(c, v, after, t)
    else if id in v.blocked && v.blocked[id] == Signed(ps) then t == [] && after == v
    else if c.record.uid in c.foreground then RightFront(v, id, after, ps, t)
    else RightBackground(c, samples, v, id, after, ps, t)
  }

  /** The whole turn: one discovery, and then what the discovered batch asks for. */
  ghost predicate RightTurn(c: Context, samples: map<nat, Deferral.Sample>, v: View, after: View, t: seq<Event>) {
    && t != [] && t[0].Discovered? && t[0].uid == c.record.uid
    && match t[0].found
       case None => |t| == 1 && after == v
       case Some(ps) =>
         if ps == [] then
           && |t| == 1
           && after == View(set id | id in v.frozen && id.uid != c.record.uid,
                            map id | id in v.since && id.uid != c.record.uid :: v.since[id],
                            map id | id in v.ownership && id.uid != c.record.uid :: v.ownership[id],
                            map id | id in v.pending && id.uid != c.record.uid :: v.pending[id],
                            map id | id in v.blocked && id.uid != c.record.uid :: v.blocked[id])
         else RightBatch(c, samples, v, after, ps, t[1..])
  }

  /** What a turn does to the download samples: its own reading is evaluated, or the UID's baseline is dropped. */
  ghost predicate RightSamples(c: Context, t: seq<Event>, h: seq<Deferral.Happening>) {
    && t != [] && t[0].Discovered?
    && var package := if t[0].found.None? || t[0].found.value == [] then "" else MinPackage(t[0].found.value);
       if |t| > 1 && t[1].Sampled? then h == [Deferral.Evaluated(c.record.uid, package, t[1].sample, c.now)]
       else if t[0].found == Some([]) || (t[0].found.Some? && Forbidden(c, package))
       then h == [Deferral.Cleared(c.record.uid)]
       else
         || h == []
         || (h == [Deferral.Evaluated(c.record.uid, package, RxSample.Missing, c.now)] && !DownloadApp(package))
  }

  // ---- The other steps of a run

  /** The opening of a pass: what is tracked outside the controlled UIDs is tried, and nothing else of them stays. */
  ghost predicate RightSweep(uids: set<nat>, v: View, after: View, t: seq<Event>) {
    && ThawsEach(v, after.frozen, (set id | id in v.frozen && id.uid !in uids), t)
    && after == View(after.frozen,
                     map id | id in v.since && id in after.frozen :: v.since[id],
                     map id | id in v.ownership && (id.uid in uids || id in after.frozen) :: v.ownership[id],
                     map id | id in v.pending && id.uid in uids :: v.pending[id],
                     map id | id in v.blocked && id.uid in uids :: v.blocked[id])
  }

  /** The sweep drops the download baselines of exactly the remembered UIDs that are not controlled. */
  ghost predicate RightForgetting(uids: set<nat>, v: View, h: seq<Deferral.Happening>) {
    && (forall i :: 0 <= i < |h| ==> h[i].Cleared?)
    && forall uid: nat :: Deferral.Cleared(uid) in h
                          <==> uid !in uids && exists id: Identity :: id.uid == uid && Remembered(v, id)
  }

  predicate Remembered(v: View, id: Identity) { id in v.pending || id in v.frozen || id in v.ownership }

  /** Control disabled: everything tracked is tried, and only what is still frozen stays remembered. */
  ghost predicate RightDisabling(v: View, after: View, t: seq<Event>) {
    && ThawsEach(v, after.frozen, v.frozen, t)
    && after == View(after.frozen,
                     map id | id in v.since && id in after.frozen :: v.since[id],
                     map id | id in v.ownership && id in after.frozen :: v.ownership[id],
                     map[], map[])
  }

  // ---- Which backend a freeze or kill shows

  /** What a single freeze or kill says about its record, its batch and the device. */
  ghost predicate BackendFits(c: Context, ps: seq<Process>, e: Event) {
    var freezer := c.record.mode in {30, 31} && Chosen(c, 5) != 2;
    && (e.Terminated? ==> c.record.mode == 10)
    && (e.Froze? ==> c.record.mode in {20, 21, 30, 31} && (freezer ==> Idle(ps)))
    && (e.Froze? && e.p.cgroup.Some? ==>
          freezer && c.binder && forall i :: 0 <= i < |ps| ==> ps[i].cgroup.Some?)
  }
}
