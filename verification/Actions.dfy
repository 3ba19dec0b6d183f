/** What one control pass does with a batch of processes once it has decided to act. */
module Actions {
  import opened Domain
  import opened Trace
  import opened Transactions
  import opened ControlStateTracking

  function Unpended(v: View, id: Identity): View { v.(pending := v.pending - {id}) }

  function Blocked(v: View, id: Identity, signature: Signature): View { v.(blocked := v.blocked[id := signature]) }

  /** A rescan in this run no longer saw the pid. */
  ghost predicate Vanished(t: seq<Event>, pid: int) {
    exists i :: 0 <= i < |t| && t[i].Discovered? && t[i].found.Some?
                && forall q :: q in t[i].found.value ==> q.pid != pid
  }

  /** Every process this run froze and did not thaw again is either tracked or was gone at the rescan. */
  ghost predicate HeldIsTracked(t: seq<Event>, after: View, id: Identity) {
    forall pid :: Holds(t, pid) ==> id in after.frozen || Vanished(t, pid)
  }

  /** Every process was stopped by a signal alone and each ledger promotion was confirmed. */
  ghost predicate DirectStop(t: seq<Event>, ps: seq<Process>) {
    && (forall i :: 0 <= i < |ps| ==> Froze(SignalTarget(AsPending(ps[i])), true) in t)
    && (forall i :: 0 <= i < |ps| ==> Promoted(AsPending(ps[i]), Some(true)) in t)
    && SignalOnlyRun(t)
  }

  /** No thaw, no cgroup freeze, no failed stop and no unconfirmed promotion. */
  ghost predicate SignalOnlyRun(t: seq<Event>) {
    forall i :: 0 <= i < |t| ==>
      && !t[i].Unfroze?
      && (t[i].Froze? ==> t[i].ok && t[i].p.cgroup.None?)
      && (t[i].Promoted? ==> t[i].answer == Some(true))
  }

  /** SignalOnly is newly stored exactly for an identity without an entry whose direct stop was fully confirmed. */
  ghost predicate SignalOnlyEarned(t: seq<Event>, ps: seq<Process>, before: View, after: View, id: Identity) {
    && (forall x :: x in after.ownership && after.ownership[x] == SignalOnly
                    && !(x in before.ownership && before.ownership[x] == SignalOnly) ==>
                      x == id && x !in before.ownership && DirectStop(t, ps))
    && (DirectStop(t, ps) && ps != [] ==> id in after.ownership && after.ownership[id] == SignalOnly)
  }

  /** The contract of an action on a batch, whatever its backend. */
  ghost predicate ActionFits(ps: seq<Process>, id: Identity, before: View, after: View, t: seq<Event>) {
    && Guarded(t) && Aimed(t, ps) && (!Harmless(t) ==> SinglePackage(ps))
    && OnlyIdentity(before, after, id)
    && Consistent(after)
    && TaintKept(before, after)
    && SignalOnlyEarned(t, ps, before, after, id)
  }

  ghost predicate Ready(v: View, id: Identity, ps: seq<Process>) {
    Consistent(v) && id !in v.frozen && id !in v.blocked && ps != []
  }

  ghost predicate Looked(t: seq<Event>, p: Process) {
    exists i :: 0 <= i < |t| && t[i].Validated? && t[i].p == p
  }

  lemma AimedPending(t: seq<Event>, ps: seq<Process>)
    requires Aimed(t, PendingBatch(ps))
    ensures Aimed(t, ps)
  {
    forall i | 0 <= i < |t| && Harmful(t[i]) ensures exists p :: p in ps && SameProcess(p, t[i].p) {
      var q :| q in PendingBatch(ps) && SameProcess(q, t[i].p);
      var j :| 0 <= j < |ps| && PendingBatch(ps)[j] == q;
      assert ps[j] in ps && SameProcess(ps[j], t[i].p);
    }
  }

  lemma SinglePending(ps: seq<Process>)
    ensures SinglePackage(PendingBatch(ps)) <==> SinglePackage(ps)
  {
    var r := PendingBatch(ps);
    assert forall i :: 0 <= i < |ps| ==> r[i].package == ps[i].package;
  }

  lemma StorySafe(ps: seq<Process>, signal: bool, story: Story)
    requires Plausible(PendingBatch(ps), story)
    ensures var t := Events(PendingBatch(ps), signal, story);
            Guarded(t) && Aimed(t, ps) && (!Harmless(t) ==> SinglePackage(ps))
  {
    TransactionSafe(PendingBatch(ps), signal, story);
    AimedPending(Events(PendingBatch(ps), signal, story), ps);
    SinglePending(ps);
  }

  lemma StoryLooks(ps: seq<Process>, signal: bool, story: Story)
    requires ps != [] && Plausible(PendingBatch(ps), story)
    ensures Looked(Events(PendingBatch(ps), signal, story), AsPending(ps[0]))
  {
    var t := Events(PendingBatch(ps), signal, story);
    assert t[0].Validated? && t[0].p == AsPending(ps[0]);
  }

  /** Neither a promotion nor a discovery. */
  ghost predicate Plain(t: seq<Event>) {
    forall i :: 0 <= i < |t| ==> !t[i].Promoted? && !t[i].Discovered?
  }

  lemma StoryPlain(ps: seq<Process>, signal: bool, story: Story)
    requires Plausible(ps, story)
    ensures Plain(Events(ps, signal, story))
  {
    if story.Completed? {
      AppliesPlain(ps, signal, |ps|);
      PlainConcat(Prechecks(ps, |ps|), Applies(ps, signal, |ps|));
    }
    if story.Undone? {
      var pre, app, blow, back := Prechecks(ps, |ps|), Applies(ps, signal, story.at),
        Blow(ps, signal, story.at, story.why), Rollback(ps, signal, story.at, story.undos);
      AppliesPlain(ps, signal, story.at);
      RollbackPlain(ps, signal, story.at, story.undos);
      PlainConcat(pre, app);
      PlainConcat(pre + app, blow);
      PlainConcat(pre + app + blow, back);
    }
  }

  lemma PlainConcat(a: seq<Event>, b: seq<Event>)
    requires Plain(a) && Plain(b)
    ensures Plain(a + b)
  {
  }

  lemma {:induction false} AppliesPlain(ps: seq<Process>, signal: bool, n: nat)
    requires n <= |ps|
    ensures Plain(Applies(ps, signal, n))
  {
    if n == 0 {
    } else {
      AppliesPlain(ps, signal, n - 1);
    }
  }

  lemma {:induction false} RollbackPlain(ps: seq<Process>, signal: bool, at: nat, undos: seq<Undo>)
    requires |undos| <= at <= |ps|
    ensures Plain(Rollback(ps, signal, at, undos))
  {
    if undos == [] {
    } else {
      var n := |undos|;
      RollbackPlain(ps, signal, at, undos[..n - 1]);
      var step := UndoEvents(ps[at - n], Target(signal, ps[at - n]), undos[n - 1]);
      PlainConcat(Rollback(ps, signal, at, undos[..n - 1]), step);
    }
  }

  lemma NotDirect(t: seq<Event>, ps: seq<Process>)
    requires ps != [] && forall i :: 0 <= i < |t| ==> !t[i].Promoted?
    ensures !DirectStop(t, ps)
  {
    assert Promoted(AsPending(ps[0]), Some(true)) !in t;
  }

  // ---- The freezer backend

  function AfterFailure(v: View, id: Identity, now: nat, signature: Signature, o: Outcome): View {
    var a := if o.failure == Some(MixedPackages) then Blocked(v, id, signature) else v;
    if o.residualPossible then Tracked(a, id, now, ResidualUnknown) else a
  }

  function AfterSecond(v: View, id: Identity, now: nat, o: Outcome): View {
    Unpended(if o.failure.None? || o.rollbackFailures > 0 then Tracked(v, id, now, ResidualUnknown) else v, id)
  }

  function AfterFallback(v: View, id: Identity, now: nat, signature: Signature, o: Outcome, o2: Outcome): View {
    AfterSecond(AfterFailure(v, id, now, signature, o), id, now, o2)
  }

  /** The tracked state changes only at `id`, keeps its invariant and nothing becomes SignalOnly. */
  ghost predicate ViewFits(v: View, after: View, id: Identity) {
    OnlyIdentity(v, after, id) && Consistent(after) && TaintKept(v, after) && NoNewSignalOnly(v, after)
  }

  lemma TrackedViewFits(v: View, id: Identity, now: nat, owner: Ownership)
    requires Consistent(v) && id !in v.frozen && id !in v.blocked && !owner.SignalOnly?
    ensures ViewFits(v, Unpended(Tracked(v, id, now, owner), id), id)
  {
  }

  lemma BlockedViewFits(v: View, id: Identity, signature: Signature)
    requires Consistent(v) && id !in v.frozen
    ensures ViewFits(v, Unpended(Blocked(v, id, signature), id), id) && ViewFits(v, Unpended(v, id), id)
  {
  }

  lemma FallbackViewFits(v: View, id: Identity, now: nat, signature: Signature, o: Outcome, o2: Outcome)
    requires Consistent(v) && id !in v.frozen && id !in v.blocked
    requires o.failure == Some(MixedPackages) ==>
               !o.residualPossible && o2.failure.Some? && o2.rollbackFailures == 0
    ensures ViewFits(v, AfterFallback(v, id, now, signature, o, o2), id)
  {
    TrackedViewFits(v, id, now, ResidualUnknown);
    BlockedViewFits(v, id, signature);
    var b := Tracked(v, id, now, ResidualUnknown);
    assert Tracked(b, id, now, ResidualUnknown) == b;
  }

  lemma FallbackTraceFits(ps: seq<Process>, s1: Story, s2: Story)
    requires ps != [] && Plausible(PendingBatch(ps), s1) && Plausible(PendingBatch(ps), s2)
    ensures var t := Events(PendingBatch(ps), false, s1) + Events(PendingBatch(ps), true, s2);
            && Guarded(t) && Aimed(t, ps) && (!Harmless(t) ==> SinglePackage(ps))
            && Looked(t, AsPending(ps[0])) && !DirectStop(t, ps)
  {
    var t1, t2 := Events(PendingBatch(ps), false, s1), Events(PendingBatch(ps), true, s2);
    StorySafe(ps, false, s1);
    StorySafe(ps, true, s2);
    StoryPlain(PendingBatch(ps), false, s1);
    StoryPlain(PendingBatch(ps), true, s2);
    StoryLooks(ps, false, s1);
    GuardedConcat(t1, t2);
    LookedConcat(t1, t2, AsPending(ps[0]));
    PlainConcat(t1, t2);
    NotDirect(t1 + t2, ps);
  }

  lemma FallbackHolds(q: seq<Process>, s1: Story, s2: Story, pid: int)
    requires Plausible(q, s1) && Plausible(q, s2) && !s1.Completed?
    requires Holds(Events(q, false, s1) + Events(q, true, s2), pid)
    ensures OutcomeOf(q, s1).residualPossible || s2.Completed? || OutcomeOf(q, s2).rollbackFailures > 0
  {
    HoldsConcat(Events(q, false, s1), Events(q, true, s2), pid);
    NothingHeldAfterCleanFailure(q, false, s1, pid);
    NothingHeldAfterCleanFailure(q, true, s2, pid);
  }

  lemma FallbackFits(ps: seq<Process>, id: Identity, v: View, now: nat, signature: Signature, s1: Story, s2: Story)
    requires Ready(v, id, ps)
    requires Plausible(PendingBatch(ps), s1) && Plausible(PendingBatch(ps), s2) && !s1.Completed?
    ensures var q := PendingBatch(ps);
            var after := AfterFallback(v, id, now, signature, OutcomeOf(q, s1), OutcomeOf(q, s2));
            var t := Events(q, false, s1) + Events(q, true, s2);
            ActionFits(ps, id, v, after, t) && HeldIsTracked(t, after, id) && Looked(t, AsPending(ps[0]))
  {
    var q := PendingBatch(ps);
    var o, o2 := OutcomeOf(q, s1), OutcomeOf(q, s2);
    FallbackViewFits(v, id, now, signature, o, o2);
    FallbackTraceFits(ps, s1, s2);
    var after := AfterFallback(v, id, now, signature, o, o2);
    forall pid | Holds(Events(q, false, s1) + Events(q, true, s2), pid) ensures id in after.frozen {
      FallbackHolds(q, s1, s2, pid);
    }
  }

  lemma LookedConcat(a: seq<Event>, b: seq<Event>, p: Process)
    requires Looked(a, p) || Looked(b, p)
    ensures Looked(a + b, p)
  {
    assert forall i :: 0 <= i < |a| ==> (a + b)[i] == a[i];
    assert forall i :: 0 <= i < |b| ==> (a + b)[|a| + i] == b[i];
  }

  predicate NewPid(ps: seq<Process>, uid: nat, found: seq<Process>) {
    exists i :: 0 <= i < |found| && found[i].uid == uid
                && forall j :: 0 <= j < |ps| ==> ps[j].pid != found[i].pid
  }

  function AfterRescan(v: View, id: Identity, now: nat, intruder: bool, clean: bool): View {
    Unpended(if !intruder then Tracked(v, id, now, CgroupBinder)
             else if clean then Cleared(v, id)
             else Tracked(v, id, now, ResidualUnknown), id)
  }

  ghost function RescanEvents(id: Identity, intruder: bool, th: Thaw): seq<Event>
    requires PlausibleThaw(id, th)
  {
    if intruder then ThawEvents(id, CgroupBinder, th) else [Discovered(id.uid, th.found)]
  }

  lemma RescanFits(ps: seq<Process>, id: Identity, v: View, now: nat, intruder: bool, th: Thaw)
    requires Ready(v, id, ps) && SinglePackage(PendingBatch(ps))
    requires PlausibleThaw(id, th) && th.found.Some?
    ensures var after := AfterRescan(v, id, now, intruder, Clean(id, th));
            var t := Events(PendingBatch(ps), false, Completed) + RescanEvents(id, intruder, th);
            ActionFits(ps, id, v, after, t) && HeldIsTracked(t, after, id) && Looked(t, AsPending(ps[0]))
  {
    var after := AfterRescan(v, id, now, intruder, Clean(id, th));
    RescanViewFits(v, id, now, intruder, Clean(id, th));
    CompletedThenRescan(ps, id, intruder, th);
    if intruder && Clean(id, th) {
      var t := Events(PendingBatch(ps), false, Completed) + RescanEvents(id, true, th);
      forall pid | Holds(t, pid) ensures Vanished(t, pid) {
        CleanRescanLosesTrack(ps, id, th, pid);
      }
    }
  }

  lemma RescanViewFits(v: View, id: Identity, now: nat, intruder: bool, clean: bool)
    requires Consistent(v) && id !in v.frozen && id !in v.blocked
    ensures ViewFits(v, AfterRescan(v, id, now, intruder, clean), id)
    ensures !(intruder && clean) ==> id in AfterRescan(v, id, now, intruder, clean).frozen
  {
  }

  lemma CompletedThenRescan(ps: seq<Process>, id: Identity, intruder: bool, th: Thaw)
    requires ps != [] && SinglePackage(PendingBatch(ps)) && PlausibleThaw(id, th)
    ensures var t := Events(PendingBatch(ps), false, Completed) + RescanEvents(id, intruder, th);
            && Guarded(t) && Aimed(t, ps) && SinglePackage(ps)
            && Looked(t, AsPending(ps[0])) && !DirectStop(t, ps)
  {
    var t1, t2 := Events(PendingBatch(ps), false, Completed), RescanEvents(id, intruder, th);
    StorySafe(ps, false, Completed);
    SinglePending(ps);
    StoryPlain(PendingBatch(ps), false, Completed);
    StoryLooks(ps, false, Completed);
    var look := [Discovered(id.uid, th.found)];
    assert GuardedAt(look, 0);
    if intruder && th.found.Some? {
      UnfreezeSafe(th.found.value, false, th.undos);
      UnfreezePlain(th.found.value, false, th.undos);
      GuardedConcat(look, UnfreezeEvents(th.found.value, false, th.undos));
    }
    GuardedConcat(t1, t2);
    LookedConcat(t1, t2, AsPending(ps[0]));
    NotDirect(t1 + t2, ps);
  }

  lemma {:induction false} UnfreezePlain(ps: seq<Process>, signal: bool, undos: seq<Undo>)
    requires |undos| <= |ps|
    ensures Plain(UnfreezeEvents(ps, signal, undos))
  {
    if undos == [] {
    } else {
      var n := |undos|;
      var p := Target(signal, ps[n - 1]);
      UnfreezePlain(ps, signal, undos[..n - 1]);
      PlainConcat(UnfreezeEvents(ps, signal, undos[..n - 1]), UndoEvents(p, p, undos[n - 1]));
    }
  }

  lemma CleanRescanLosesTrack(ps: seq<Process>, id: Identity, th: Thaw, pid: int)
    requires ps != [] && SinglePackage(PendingBatch(ps)) && PlausibleThaw(id, th) && Clean(id, th)
    requires Holds(Events(PendingBatch(ps), false, Completed) + RescanEvents(id, true, th), pid)
    ensures Vanished(Events(PendingBatch(ps), false, Completed) + RescanEvents(id, true, th), pid)
  {
    var t1, look := Events(PendingBatch(ps), false, Completed), [Discovered(id.uid, th.found)];
    var thaw := UnfreezeEvents(th.found.value, false, th.undos);
    var t := t1 + (look + thaw);
    UnfreezeSafe(th.found.value, false, th.undos);
    HoldsConcat(t1, look + thaw, pid);
    ReleasedConcat(look, thaw, pid);
    forall q | q in th.found.value ensures q.pid != pid {
      var k :| 0 <= k < |th.found.value| && th.found.value[k] == q;
      UnfreezeReleases(th.found.value, false, th.undos, k);
    }
    assert t[|t1|] == look[0];
  }

  // ---- The signal backend

  ghost predicate LedgerReads(ledger: seq<Event>) {
    forall i :: 0 <= i < |ledger| ==> ledger[i].LedgerRead?
  }

  /** `signal_stop_ledger_promotion`: no unresolved ownership in memory and none recorded for any process. */
  ghost predicate PromotionAllowed(v: View, id: Identity, q: seq<Process>, ledger: seq<Event>) {
    && !Unresolved(v, id) && |ledger| == |q|
    && forall i :: 0 <= i < |q| ==>
         && q[i].start.Some?
         && (ledger[i] == LedgerRead(q[i], NoEntry) || ledger[i] == LedgerRead(q[i], SignalOnlyEntry))
  }

  method MayPromote(w: World, s: RuntimeControlState, id: Identity, q: seq<Process>)
    returns (may: bool, ghost ledger: seq<Event>)
    modifies w
    ensures w.trace == old(w.trace) + ledger && LedgerReads(ledger)
    ensures may <==> PromotionAllowed(s.Seen(), id, q, ledger)
  {
    ledger := [];
    if Unresolved(s.Seen(), id) {
      return false, [];
    }
    for i := 0 to |q|
      invariant w.trace == old(w.trace) + ledger && LedgerReads(ledger)
      invariant PromotionAllowed(s.Seen(), id, q[..i], ledger)
    {
      if q[i].start.None? {
        return false, ledger;
      }
      var entry := w.RecordedOwnership(q[i]);
      ledger := ledger + [LedgerRead(q[i], entry)];
      if entry == ResidualEntry || entry == Unreadable {
        assert ledger[i].entry == entry;
        return false, ledger;
      }
      assert q[..i + 1] == q[..i] + [q[i]];
    }
    assert q[..|q|] == q;
    may := true;
  }

  ghost predicate Promotions(q: seq<Process>, t: seq<Event>) {
    |t| == |q| && forall i :: 0 <= i < |q| ==> t[i].Promoted? && t[i].p == q[i]
  }

  ghost predicate AllConfirmed(t: seq<Event>) {
    forall i :: 0 <= i < |t| ==> t[i].Promoted? && t[i].answer == Some(true)
  }

  method PromoteAll(w: World, q: seq<Process>) returns (all: bool, ghost t: seq<Event>)
    modifies w
    ensures w.trace == old(w.trace) + t && Promotions(q, t)
    ensures all <==> AllConfirmed(t)
  {
    all, t := true, [];
    for i := 0 to |q|
      invariant w.trace == old(w.trace) + t && Promotions(q[..i], t)
      invariant all <==> AllConfirmed(t)
    {
      var answer := w.Promote(q[i]);
      if answer != Some(true) { all := false; }
      assert AllConfirmed(t + [Promoted(q[i], answer)]) ==> AllConfirmed(t) && answer == Some(true) by {
        if AllConfirmed(t + [Promoted(q[i], answer)]) {
          assert forall k :: 0 <= k < i ==> t[k] == (t + [Promoted(q[i], answer)])[k];
          assert (t + [Promoted(q[i], answer)])[i] == Promoted(q[i], answer);
        }
      }
      t := t + [Promoted(q[i], answer)];
    }
    assert q[..|q|] == q;
  }

  function AfterSignal(v: View, id: Identity, now: nat, signature: Signature, o: Outcome, proven: bool): View {
    if o.failure.None? then Unpended(Tracked(v, id, now, if proven then SignalOnly else ResidualUnknown), id)
    else
      var a := if o.failure == Some(MixedPackages) then Blocked(v, id, signature) else v;
      Unpended(if o.rollbackFailures > 0 then Tracked(a, id, now, ResidualUnknown) else a, id)
  }

  lemma SignalViewFits(v: View, id: Identity, now: nat, signature: Signature, o: Outcome, proven: bool)
    requires Consistent(v) && id !in v.frozen && id !in v.blocked
    requires o.failure == Some(MixedPackages) ==> o.rollbackFailures == 0
    requires proven ==> o.failure.None? && !Unresolved(v, id)
    ensures var after := AfterSignal(v, id, now, signature, o, proven);
            && OnlyIdentity(v, after, id) && Consistent(after) && TaintKept(v, after)
            && (!proven ==> NoNewSignalOnly(v, after))
            && (proven ==> At(after.ownership, id) == Some(SignalOnly))
            && (o.failure.None? || o.rollbackFailures > 0 ==> id in after.frozen)
            && id !in after.pending
  {
  }

  ghost function SignalEvents(ps: seq<Process>, story: Story, ledger: seq<Event>, promos: seq<Event>): seq<Event>
    requires Plausible(PendingBatch(ps), story)
  {
    ledger + Events(PendingBatch(ps), true, story) + promos
  }

  ghost predicate Quiet(t: seq<Event>) {
    forall i :: 0 <= i < |t| ==> t[i].LedgerRead? || t[i].Promoted?
  }

  lemma QuietSafe(t: seq<Event>, ps: seq<Process>, pid: int)
    requires Quiet(t)
    ensures Guarded(t) && Aimed(t, ps) && Harmless(t) && !Holds(t, pid)
  {
  }

  lemma SignalTraceFits(ps: seq<Process>, story: Story, ledger: seq<Event>, promos: seq<Event>)
    requires ps != [] && Plausible(PendingBatch(ps), story) && Quiet(ledger) && Quiet(promos)
    ensures var t := SignalEvents(ps, story, ledger, promos);
            && Guarded(t) && Aimed(t, ps) && (!Harmless(t) ==> SinglePackage(ps)) && Looked(t, AsPending(ps[0]))
  {
    var q := PendingBatch(ps);
    var t := Events(q, true, story);
    StorySafe(ps, true, story);
    StoryLooks(ps, true, story);
    QuietSafe(ledger, ps, 0);
    QuietSafe(promos, ps, 0);
    GuardedConcat(ledger, t);
    GuardedConcat(ledger + t, promos);
    AimedConcat(ledger, t, ps);
    AimedConcat(ledger + t, promos, ps);
    LookedConcat(ledger, t, AsPending(ps[0]));
    LookedConcat(ledger + t, promos, AsPending(ps[0]));
  }

  lemma SignalHolds(ps: seq<Process>, story: Story, ledger: seq<Event>, promos: seq<Event>, pid: int)
    requires Plausible(PendingBatch(ps), story) && Quiet(ledger) && Quiet(promos)
    requires Holds(SignalEvents(ps, story, ledger, promos), pid)
    ensures story.Completed? || OutcomeOf(PendingBatch(ps), story).rollbackFailures > 0
  {
    var t := Events(PendingBatch(ps), true, story);
    HoldsConcat(ledger + t, promos, pid);
    HoldsConcat(ledger, t, pid);
    QuietSafe(ledger, ps, pid);
    QuietSafe(promos, ps, pid);
    NothingHeldAfterCleanFailure(PendingBatch(ps), true, story, pid);
  }

  /** A signal run is a fully confirmed direct stop exactly when it completed and every promotion was confirmed. */
  lemma DirectStopExact(ps: seq<Process>, story: Story, ledger: seq<Event>, promos: seq<Event>)
    requires ps != [] && Plausible(PendingBatch(ps), story) && LedgerReads(ledger)
    requires promos == [] || (story.Completed? && Promotions(PendingBatch(ps), promos))
    ensures DirectStop(SignalEvents(ps, story, ledger, promos), ps) <==>
            promos != [] && AllConfirmed(promos)
  {
    var q := PendingBatch(ps);
    var e := Events(q, true, story);
    var t := SignalEvents(ps, story, ledger, promos);
    StoryPlain(q, true, story);
    if promos == [] {
      NotDirect(t, ps);
    } else {
      if AllConfirmed(promos) {
        CompletedIsDirect(ps, ledger, promos);
      }
      if DirectStop(t, ps) {
        forall k | 0 <= k < |promos| ensures promos[k].Promoted? && promos[k].answer == Some(true) {
          assert t[|ledger| + |e| + k] == promos[k];
        }
      }
    }
  }

  lemma CompletedIsDirect(ps: seq<Process>, ledger: seq<Event>, promos: seq<Event>)
    requires ps != [] && SinglePackage(PendingBatch(ps)) && LedgerReads(ledger)
    requires Promotions(PendingBatch(ps), promos) && AllConfirmed(promos)
    ensures DirectStop(SignalEvents(ps, Completed, ledger, promos), ps)
  {
    var q := PendingBatch(ps);
    var pre, app := Prechecks(q, |q|), Applies(q, true, |q|);
    AppliesSignalOnly(q, |q|);
    assert SignalOnlyRun(ledger + (pre + app) + promos);
    forall i | 0 <= i < |ps|
      ensures Froze(SignalTarget(AsPending(ps[i])), true) in ledger + (pre + app) + promos
      ensures Promoted(AsPending(ps[i]), Some(true)) in ledger + (pre + app) + promos
    {
      AppliesFreezesEach(q, true, |q|, i);
      assert q[i] == AsPending(ps[i]);
      assert promos[i] == Promoted(q[i], Some(true));
    }
  }

  lemma {:induction false} AppliesSignalOnly(q: seq<Process>, n: nat)
    requires n <= |q|
    ensures SignalOnlyRun(Applies(q, true, n))
  {
    if n == 0 {
    } else {
      AppliesSignalOnly(q, n - 1);
    }
  }

  // ---- All backends together

  /** How one action on a batch went. */
  datatype Act =
    | Held
    | FellBack(first: Story, second: Story)
    | Lost
    | Rescanned(intruder: bool, th: Thaw)
    | Signalled(story: Story, ledger: seq<Event>, promos: seq<Event>)
    | Killed(kill: KillStory)

  ghost predicate PlausibleAct(ps: seq<Process>, id: Identity, v: View, act: Act) {
    var q := PendingBatch(ps);
    match act
    case Held => true
    case FellBack(first, second) => Plausible(q, first) && Plausible(q, second) && !first.Completed?
    case Lost => SinglePackage(q)
    case Rescanned(intruder, th) =>
      && SinglePackage(q) && PlausibleThaw(id, th) && th.found.Some?
      && intruder == NewPid(q, id.uid, th.found.value)
    case Signalled(story, ledger, promos) =>
      && Plausible(q, story) && LedgerReads(ledger)
      && (promos == [] || (story.Completed? && Promotions(q, promos) && PromotionAllowed(v, id, q, ledger)))
      && (promos == [] && story.Completed? ==> !PromotionAllowed(v, id, q, ledger))
    case Killed(kill) => PlausibleKill(q, kill)
  }

  ghost function ActEvents(ps: seq<Process>, id: Identity, v: View, act: Act): seq<Event>
    requires PlausibleAct(ps, id, v, act)
  {
    match act
    case Held => []
    case FellBack(first, second) => Events(PendingBatch(ps), false, first) + Events(PendingBatch(ps), true, second)
    case Lost => Events(PendingBatch(ps), false, Completed) + [Discovered(id.uid, None)]
    case Rescanned(intruder, th) => Events(PendingBatch(ps), false, Completed) + RescanEvents(id, intruder, th)
    case Signalled(story, ledger, promos) => SignalEvents(ps, story, ledger, promos)
    case Killed(kill) => KillEvents(PendingBatch(ps), kill)
  }

  ghost function AfterAct(ps: seq<Process>, id: Identity, v: View, now: nat, act: Act): View
    requires PlausibleAct(ps, id, v, act)
  {
    var q := PendingBatch(ps);
    match act
    case Held => v
    case FellBack(first, second) => AfterFallback(v, id, now, SignatureOf(ps), OutcomeOf(q, first),
      OutcomeOf(q, second))
    case Lost => v
    case Rescanned(intruder, th) => AfterRescan(v, id, now, intruder, Clean(id, th))
    case Signalled(story, ledger, promos) =>
      AfterSignal(v, id, now, SignatureOf(ps), OutcomeOf(q, story), promos != [] && AllConfirmed(promos))
    case Killed(kill) => if kill.KilledAll? then Cleared(Unpended(v, id), id) else v
  }

  /** Where a run ends and which calls it made. */
  datatype Run = Run(after: View, events: seq<Event>)

  /** The run an account of an action describes, if the account is possible at all. */
  ghost function ActRun(ps: seq<Process>, id: Identity, v: View, now: nat, act: Act): Option<Run> {
    if PlausibleAct(ps, id, v, act) then Some(Run(AfterAct(ps, id, v, now, act), ActEvents(ps, id, v, act))) else None
  }

  /** Whatever the backend and however the action went, it keeps its contract. */
  lemma ActFits(ps: seq<Process>, id: Identity, v: View, now: nat, act: Act)
    requires Ready(v, id, ps) && PlausibleAct(ps, id, v, act)
    ensures var t, after := ActEvents(ps, id, v, act), AfterAct(ps, id, v, now, act);
            && ActionFits(ps, id, v, after, t)
            && (!act.Lost? ==> HeldIsTracked(t, after, id))
            && (!act.Held? ==> Looked(t, AsPending(ps[0])))
  {
    match act
    case Held => HeldFits(ps, id, v);
    case FellBack(first, second) => FallbackFits(ps, id, v, now, SignatureOf(ps), first, second);
    case Lost => LostFits(ps, id, v);
    case Rescanned(intruder, th) => RescanFits(ps, id, v, now, intruder, th);
    case Signalled(story, ledger, promos) => SignalFits(ps, id, v, now, story, ledger, promos);
    case Killed(kill) => KilledFits(ps, id, v, kill);
  }

  lemma HeldFits(ps: seq<Process>, id: Identity, v: View)
    requires Ready(v, id, ps)
    ensures ActionFits(ps, id, v, v, []) && HeldIsTracked([], v, id)
  {
    NotDirect([], ps);
  }

  lemma LostFits(ps: seq<Process>, id: Identity, v: View)
    requires Ready(v, id, ps) && SinglePackage(PendingBatch(ps))
    ensures var t := Events(PendingBatch(ps), false, Completed) + [Discovered(id.uid, None)];
            ActionFits(ps, id, v, v, t) && Looked(t, AsPending(ps[0]))
  {
    CompletedThenRescan(ps, id, false, Thaw(None, []));
  }

  lemma SignalFits(ps: seq<Process>, id: Identity, v: View, now: nat, story: Story, ledger: seq<Event>,
                   promos: seq<Event>)
    requires Ready(v, id, ps) && PlausibleAct(ps, id, v, Signalled(story, ledger, promos))
    ensures var act := Signalled(story, ledger, promos);
            var t, after := ActEvents(ps, id, v, act), AfterAct(ps, id, v, now, act);
            ActionFits(ps, id, v, after, t) && HeldIsTracked(t, after, id) && Looked(t, AsPending(ps[0]))
  {
    var proven := promos != [] && AllConfirmed(promos);
    var t := SignalEvents(ps, story, ledger, promos);
    SignalTraceFits(ps, story, ledger, promos);
    SignalViewFits(v, id, now, SignatureOf(ps), OutcomeOf(PendingBatch(ps), story), proven);
    DirectStopExact(ps, story, ledger, promos);
    forall pid | Holds(t, pid) ensures story.Completed? || OutcomeOf(PendingBatch(ps), story).rollbackFailures > 0 {
      SignalHolds(ps, story, ledger, promos, pid);
    }
  }

  lemma KilledFits(ps: seq<Process>, id: Identity, v: View, kill: KillStory)
    requires Ready(v, id, ps) && PlausibleKill(PendingBatch(ps), kill)
    ensures var t := KillEvents(PendingBatch(ps), kill);
            var after := if kill.KilledAll? then Cleared(Unpended(v, id), id) else v;
            ActionFits(ps, id, v, after, t) && HeldIsTracked(t, after, id) && Looked(t, AsPending(ps[0]))
  {
    var t := KillEvents(PendingBatch(ps), kill);
    TerminationSafe(PendingBatch(ps), kill);
    AimedPending(t, ps);
    SinglePending(ps);
    NotDirect(t, ps);
    KillLooks(ps, kill);
  }

  lemma KillLooks(ps: seq<Process>, kill: KillStory)
    requires ps != [] && PlausibleKill(PendingBatch(ps), kill)
    ensures Looked(KillEvents(PendingBatch(ps), kill), AsPending(ps[0]))
  {
    var t := KillEvents(PendingBatch(ps), kill);
    assert t[0].Validated? && t[0].p == AsPending(ps[0]);
  }
}
