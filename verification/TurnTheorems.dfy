/** What every possible turn of a control pass guarantees. */
module TurnTheorems {
  import opened Domain
  import opened Trace
  import opened Transactions
  import opened ControlStateTracking
  import opened Actions
  import opened ControlTurn
  import opened TurnReference
  import opened TurnRefinement
  import Deferral

  /** All that must hold of the state and the batch before a freeze or kill may be attempted. */
  ghost predicate Permitted(c: Context, samples: map<nat, Deferral.Sample>, v: View, ps: seq<Process>,
                            reading: Option<RxSample>) {
    && ps != [] && SinglePackage(ps)
    && !Forbidden(c, MinPackage(ps)) && c.record.uid !in c.foreground
    && At(v.blocked, IdOf(c, ps)) != Some(Signed(ps))
    && (if IdOf(c, ps) in v.frozen
        then c.auditDue && exists i :: 0 <= i < |ps| && ps[i].control == Running
        else DelayOf(c) == 0 || (IdOf(c, ps) in v.pending && v.pending[IdOf(c, ps)] <= c.now))
    && (DownloadApp(MinPackage(ps)) ==> reading.Some? && SlowSince(samples, c.record.uid, reading.value, c.now))
  }

  /** The download sample a turn took, directly after its discovery. */
  function ReadingOf(t: seq<Event>): Option<RxSample> {
    if |t| > 1 && t[1].Sampled? then Some(t[1].sample) else None
  }

  /** The kernel actions of a turn are all checked, and freezes or kills happen only where permitted. */
  ghost predicate SafeTurn(c: Context, samples: map<nat, Deferral.Sample>, v: View, t: seq<Event>) {
    && t != [] && t[0].Discovered? && t[0].uid == c.record.uid
    && Guarded(t)
    && (!Harmless(t) ==>
          t[0].found.Some? && Permitted(c, samples, v, t[0].found.value, ReadingOf(t)) && Aimed(t, t[0].found.value))
  }

  lemma QuietHead(uid: nat, found: Option<seq<Process>>, t: seq<Event>)
    requires Guarded(t)
    ensures Guarded([Discovered(uid, found)] + t)
    ensures Harmless([Discovered(uid, found)] + t) <==> Harmless(t)
    ensures forall batch :: Aimed(t, batch) ==> Aimed([Discovered(uid, found)] + t, batch)
  {
    var head := [Discovered(uid, found)];
    assert GuardedAt(head, 0);
    GuardedConcat(head, t);
    if Harmless(head + t) {
      assert forall i :: 0 <= i < |t| ==> (head + t)[i + 1] == t[i];
    }
  }

  lemma HarmlessLaterEvents(c: Context, samples: map<nat, Deferral.Sample>, v: View, turn: Turn)
    requires PlausibleTurn(c, samples, v, turn) && !turn.Acting?
    ensures Guarded(LaterEvents(c, samples, v, turn)) && Harmless(LaterEvents(c, samples, v, turn))
  {
    match turn
    case Barred(ps, ids, thaws) => ThawsSafe(WithoutTransient(v, c.record.uid), ids, thaws);
    case AtFront(ps, undos) => UnfreezeSafe(ps, Owner(v, IdOf(c, ps)) == SignalOnly, undos);
    case Awakened(ps, undos) => UnfreezeSafe(ps, Owner(v, IdOf(c, ps)) == SignalOnly, undos);
    case Sampling(ps, reading) => assert GuardedAt([Sampled(c.record.uid, reading)], 0);
    case _ =>
  }

  ghost function SampleEvents(c: Context, sample: Option<RxSample>): seq<Event> {
    if sample.Some? then [Sampled(c.record.uid, sample.value)] else []
  }

  /** Every freeze and every kill, of every turn, is aimed, checked and permitted. */
  lemma TurnIsSafe(c: Context, samples: map<nat, Deferral.Sample>, v: View, turn: Turn)
    requires Consistent(v) && PlausibleTurn(c, samples, v, turn)
    ensures SafeTurn(c, samples, v, TurnEvents(c, samples, v, turn))
  {
    if turn.Acting? {
      ActingIsSafe(c, samples, v, turn);
    } else {
      HarmlessLaterEvents(c, samples, v, turn);
      QuietHead(c.record.uid, FoundIn(turn), LaterEvents(c, samples, v, turn));
    }
  }

  lemma ActingIsSafe(c: Context, samples: map<nat, Deferral.Sample>, v: View, turn: Turn)
    requires Consistent(v) && PlausibleTurn(c, samples, v, turn) && turn.Acting?
    ensures SafeTurn(c, samples, v, TurnEvents(c, samples, v, turn))
  {
    ActIsSafe(c, samples, v, turn);
    ActingIsPermitted(c, samples, v, turn);
    SafeParts(c, samples, v, turn.ps, turn.sample, ActPart(c, v, turn));
  }

  ghost function ActPart(c: Context, v: View, turn: Turn): seq<Event>
    requires turn.Acting? && turn.ps != []
             && PlausibleAct(turn.ps, IdOf(c, turn.ps), Entered(v, IdOf(c, turn.ps)), turn.act)
  {
    ActEvents(turn.ps, IdOf(c, turn.ps), Entered(v, IdOf(c, turn.ps)), turn.act)
  }

  lemma ActIsSafe(c: Context, samples: map<nat, Deferral.Sample>, v: View, turn: Turn)
    requires Consistent(v) && PlausibleTurn(c, samples, v, turn) && turn.Acting?
    ensures var t := ActPart(c, v, turn);
            Guarded(t) && Aimed(t, turn.ps) && (!Harmless(t) ==> SinglePackage(turn.ps))
  {
    EnteredReady(c, v, turn.ps);
    ActFits(turn.ps, IdOf(c, turn.ps), Entered(v, IdOf(c, turn.ps)), c.now, turn.act);
  }

  lemma ActingIsPermitted(c: Context, samples: map<nat, Deferral.Sample>, v: View, turn: Turn)
    requires PlausibleTurn(c, samples, v, turn) && turn.Acting?
    ensures SinglePackage(turn.ps) ==> Permitted(c, samples, v, turn.ps, turn.sample)
  {
    GatesMean(c, v, turn.ps);
    DownloadAppMeans(MinPackage(turn.ps));
    SlowMeans(samples, c.record.uid, MinPackage(turn.ps), ReadingFor(turn.sample), c.now);
  }

  lemma SafeParts(c: Context, samples: map<nat, Deferral.Sample>, v: View, ps: seq<Process>, sample: Option<RxSample>,
                  t: seq<Event>)
    requires Guarded(t) && Aimed(t, ps) && (!Harmless(t) ==> SinglePackage(ps))
    requires SinglePackage(ps) ==> Permitted(c, samples, v, ps, sample)
    ensures SafeTurn(c, samples, v, [Discovered(c.record.uid, Some(ps))] + (SampleEvents(c, sample) + t))
  {
    var pre := SampleEvents(c, sample);
    assert forall i :: 0 <= i < |pre| ==> GuardedAt(pre, i);
    GuardedConcat(pre, t);
    QuietHead(c.record.uid, Some(ps), pre + t);
    if sample.Some? { assert ([Discovered(c.record.uid, Some(ps))] + (pre + t))[1] == pre[0]; }
  }

  // ---- The tracked state

  /** A turn changes only its own UID, keeps the invariant and never removes a taint in place. */
  ghost predicate SoundChange(v: View, after: View, uid: nat) {
    OnlyUid(v, after, uid) && Consistent(after) && TaintKept(v, after)
  }

  lemma OnlyIdentityStays(a: View, b: View, c: View, id: Identity)
    requires OnlyIdentity(a, b, id) && OnlyIdentity(b, c, id)
    ensures OnlyUid(a, c, id.uid)
  {
    forall other: Identity | other.uid != id.uid ensures SameAt(a, c, other) {
      assert SameAt(a, b, other) && SameAt(b, c, other);
    }
  }

  lemma TurnIsSound(c: Context, samples: map<nat, Deferral.Sample>, v: View, turn: Turn)
    requires Consistent(v) && PlausibleTurn(c, samples, v, turn)
    ensures SoundChange(v, AfterTurn(c, samples, v, turn), c.record.uid)
    ensures !turn.Acting? ==> NoNewSignalOnly(v, AfterTurn(c, samples, v, turn))
  {
    match turn
    case Barred(ps, ids, thaws) => BarredIsSound(c, v, ids, thaws);
    case AtFront(ps, undos) => AtFrontIsSound(c, v, IdOf(c, ps), Clean(IdOf(c, ps), Thaw(Some(ps), undos)));
    case Awakened(ps, undos) => AwakenedIsSound(c, v, IdOf(c, ps), Clean(IdOf(c, ps), Thaw(Some(ps), undos)));
    case Acting(ps, sample, act) => ActingIsSound(c, samples, v, turn);
    case _ => IdleTurnIsSound(c, samples, v, turn);
  }

  lemma IdleTurnIsSound(c: Context, samples: map<nat, Deferral.Sample>, v: View, turn: Turn)
    requires Consistent(v) && PlausibleTurn(c, samples, v, turn)
    requires !turn.Barred? && !turn.AtFront? && !turn.Awakened? && !turn.Acting?
    ensures SoundChange(v, AfterTurn(c, samples, v, turn), c.record.uid)
    ensures NoNewSignalOnly(v, AfterTurn(c, samples, v, turn))
  {
    if turn.Scheduled? || turn.Sampling? {
      DelayedTurnIsSound(c, samples, v, turn);
    } else {
      QuietTurnIsSound(c, samples, v, turn);
    }
  }

  lemma QuietTurnIsSound(c: Context, samples: map<nat, Deferral.Sample>, v: View, turn: Turn)
    requires Consistent(v) && PlausibleTurn(c, samples, v, turn)
    requires turn.Missing? || turn.Gone? || turn.Ignored? || turn.Resting? || turn.Waiting?
    ensures SoundChange(v, AfterTurn(c, samples, v, turn), c.record.uid)
    ensures NoNewSignalOnly(v, AfterTurn(c, samples, v, turn))
  {
    match turn
    case Gone => ForgottenIsSound(v, c.record.uid);
    case Resting(ps) => UnblockedIsSound(v, IdOf(c, ps));
    case Waiting(ps) => UnblockedIsSound(v, IdOf(c, ps));
    case _ =>
  }

  lemma DelayedTurnIsSound(c: Context, samples: map<nat, Deferral.Sample>, v: View, turn: Turn)
    requires Consistent(v) && PlausibleTurn(c, samples, v, turn) && (turn.Scheduled? || turn.Sampling?)
    ensures SoundChange(v, AfterTurn(c, samples, v, turn), c.record.uid)
    ensures NoNewSignalOnly(v, AfterTurn(c, samples, v, turn))
  {
    DelayedTurnPends(c, samples, v, turn);
    var due := if turn.Scheduled? then c.now + DelayMs(c.record, c.settings) else c.now + RetryMs(turn.reading);
    PendedIsSound(v, IdOf(c, turn.ps), due);
  }

  lemma DelayedTurnPends(c: Context, samples: map<nat, Deferral.Sample>, v: View, turn: Turn)
    requires PlausibleTurn(c, samples, v, turn) && (turn.Scheduled? || turn.Sampling?)
    ensures var due := if turn.Scheduled? then c.now + DelayMs(c.record, c.settings) else c.now + RetryMs(turn.reading);
            AfterTurn(c, samples, v, turn) == Pended(Entered(v, IdOf(c, turn.ps)), IdOf(c, turn.ps), due)
  {
  }

  lemma ForgottenIsSound(v: View, uid: nat)
    requires Consistent(v)
    ensures SoundChange(v, Forgotten(v, uid), uid) && NoNewSignalOnly(v, Forgotten(v, uid))
  {
  }

  lemma UnblockedIsSound(v: View, id: Identity)
    requires Consistent(v)
    ensures SoundChange(v, Unblocked(v, id), id.uid) && NoNewSignalOnly(v, Unblocked(v, id))
  {
  }

  lemma PendedIsSound(v: View, id: Identity, due: nat)
    requires Consistent(v)
    ensures var after := Pended(Entered(v, id), id, due);
            SoundChange(v, after, id.uid) && NoNewSignalOnly(v, after)
  {
  }

  lemma ActingIsSound(c: Context, samples: map<nat, Deferral.Sample>, v: View, turn: Turn)
    requires Consistent(v) && PlausibleTurn(c, samples, v, turn) && turn.Acting?
    ensures SoundChange(v, AfterTurn(c, samples, v, turn), c.record.uid)
  {
    var id := IdOf(c, turn.ps);
    EnteredReady(c, v, turn.ps);
    ActFits(turn.ps, id, Entered(v, id), c.now, turn.act);
    OnlyIdentityStays(v, Entered(v, id), AfterAct(turn.ps, id, Entered(v, id), c.now, turn.act), id);
    TaintChain(v, Entered(v, id), AfterAct(turn.ps, id, Entered(v, id), c.now, turn.act));
  }

  lemma TaintChain(a: View, b: View, c: View)
    requires TaintKept(a, b) && TaintKept(b, c) && a.ownership.Keys <= b.ownership.Keys
    ensures TaintKept(a, c)
  {
  }

  lemma {:induction false} BarredIsSound(c: Context, v: View, ids: seq<Identity>, thaws: seq<Thaw>)
    requires Consistent(v) && PlausibleThaws(ids, thaws)
    requires Listing(ids, set id | id in v.frozen && id.uid == c.record.uid)
    ensures var after := WithoutDetached(AfterThaws(WithoutTransient(v, c.record.uid), ids, thaws), {c.record.uid});
            SoundChange(v, after, c.record.uid) && NoNewSignalOnly(v, after)
  {
    ThawsClearExactlyClean(WithoutTransient(v, c.record.uid), ids, thaws);
    forall id | id in CleanOnes(ids, thaws) ensures id.uid == c.record.uid {
      assert id in ids;
    }
  }

  lemma AtFrontIsSound(c: Context, v: View, id: Identity, clean: bool)
    requires Consistent(v) && id.uid == c.record.uid
    ensures var u := Unpended(Unblocked(v, id), id);
            var after := if id in v.frozen && clean then Cleared(u, id) else u;
            SoundChange(v, after, c.record.uid) && NoNewSignalOnly(v, after)
  {
  }

  lemma AwakenedIsSound(c: Context, v: View, id: Identity, clean: bool)
    requires Consistent(v) && id.uid == c.record.uid && id in v.frozen
    ensures var after := if clean then Pended(Cleared(Unblocked(v, id), id), id, c.now + WakeupDuration(c.settings))
                         else Unblocked(v, id);
            SoundChange(v, after, c.record.uid) && NoNewSignalOnly(v, after)
  {
  }

  // ---- Ownership

  /**
    An identity newly SignalOnly had no entry, and its whole batch was stopped directly with every promotion
    confirmed.
   */
  ghost predicate EarnedTurn(c: Context, v: View, after: View, t: seq<Event>) {
    forall id :: id in after.ownership && after.ownership[id] == SignalOnly
                 && !(id in v.ownership && v.ownership[id] == SignalOnly) ==>
      && id !in v.ownership
      && t != [] && t[0].Discovered? && t[0].found.Some? && t[0].found.value != []
      && id == IdOf(c, t[0].found.value) && DirectStop(t, t[0].found.value)
  }

  lemma TurnEarnsSignalOnly(c: Context, samples: map<nat, Deferral.Sample>, v: View, turn: Turn)
    requires Consistent(v) && PlausibleTurn(c, samples, v, turn)
    ensures EarnedTurn(c, v, AfterTurn(c, samples, v, turn), TurnEvents(c, samples, v, turn))
  {
    TurnIsSound(c, samples, v, turn);
    if turn.Acting? {
      var id := IdOf(c, turn.ps);
      var pre, t := SampleEvents(c, turn.sample), ActPart(c, v, turn);
      var after := AfterTurn(c, samples, v, turn);
      EnteredReady(c, v, turn.ps);
      ActEarns(c, samples, v, turn);
      EarnedParts(c, v, Entered(v, id), after, turn.ps, pre, t);
    }
  }

  lemma ActEarns(c: Context, samples: map<nat, Deferral.Sample>, v: View, turn: Turn)
    requires Consistent(v) && PlausibleTurn(c, samples, v, turn) && turn.Acting?
    ensures SignalOnlyEarned(ActPart(c, v, turn), turn.ps, Entered(v, IdOf(c, turn.ps)), AfterTurn(c, samples, v, turn),
                             IdOf(c, turn.ps))
  {
    EnteredReady(c, v, turn.ps);
    ActFits(turn.ps, IdOf(c, turn.ps), Entered(v, IdOf(c, turn.ps)), c.now, turn.act);
  }

  lemma EarnedParts(c: Context, v: View, entered: View, after: View, ps: seq<Process>, pre: seq<Event>, t: seq<Event>)
    requires ps != [] && NoNewSignalOnly(v, entered) && v.ownership.Keys <= entered.ownership.Keys
    requires SignalOnlyEarned(t, ps, entered, after, IdOf(c, ps))
    requires forall i :: 0 <= i < |pre| ==> pre[i].Sampled?
    ensures EarnedTurn(c, v, after, [Discovered(c.record.uid, Some(ps))] + (pre + t))
  {
    var head := [Discovered(c.record.uid, Some(ps))];
    forall id | id in after.ownership && after.ownership[id] == SignalOnly
                && !(id in v.ownership && v.ownership[id] == SignalOnly)
      ensures id == IdOf(c, ps) && id !in v.ownership && DirectStop(head + (pre + t), ps)
    {
      DirectStopLater(head + pre, t, ps);
      assert head + (pre + t) == (head + pre) + t;
    }
  }

  lemma DirectStopLater(head: seq<Event>, t: seq<Event>, ps: seq<Process>)
    requires forall i :: 0 <= i < |head| ==> head[i].Discovered? || head[i].Sampled?
    requires DirectStop(t, ps)
    ensures DirectStop(head + t, ps)
  {
    assert SignalOnlyRun(head + t);
    forall i | 0 <= i < |ps|
      ensures Froze(SignalTarget(AsPending(ps[i])), true) in head + t
              && Promoted(AsPending(ps[i]), Some(true)) in head + t
    {
    }
  }

  // ---- Conservation

  /**
    A process that a turn froze and did not thaw is tracked afterwards or was gone at the rescan, unless exactly that
    rescan failed: then it is neither.
   */
  lemma NothingFrozenIsForgotten(c: Context, samples: map<nat, Deferral.Sample>, v: View, turn: Turn, pid: int)
    requires Consistent(v) && PlausibleTurn(c, samples, v, turn)
    requires Holds(TurnEvents(c, samples, v, turn), pid)
    ensures turn.Acting?
    ensures IdOf(c, turn.ps) in AfterTurn(c, samples, v, turn).frozen || Vanished(LaterEvents(c, samples, v, turn), pid)
            <==> !turn.act.Lost?
  {
    HoldsConcat([Discovered(c.record.uid, FoundIn(turn))], LaterEvents(c, samples, v, turn), pid);
    if !turn.Acting? {
      HarmlessLaterEvents(c, samples, v, turn);
    } else if turn.act.Lost? {
      LostForgets(c, samples, v, turn, pid);
    } else {
      ActHoldsTracked(c, samples, v, turn);
      HoldsConcat(SampleEvents(c, turn.sample), ActPart(c, v, turn), pid);
      if Vanished(ActPart(c, v, turn), pid) {
        VanishedLater(SampleEvents(c, turn.sample), ActPart(c, v, turn), pid);
      }
    }
  }

  lemma LostForgets(c: Context, samples: map<nat, Deferral.Sample>, v: View, turn: Turn, pid: int)
    requires Consistent(v) && PlausibleTurn(c, samples, v, turn) && turn.Acting? && turn.act.Lost?
    ensures IdOf(c, turn.ps) !in AfterTurn(c, samples, v, turn).frozen
    ensures !Vanished(LaterEvents(c, samples, v, turn), pid)
  {
    EnteredReady(c, v, turn.ps);
    StoryPlain(PendingBatch(turn.ps), false, Completed);
  }

  /**
    When the rescan after a complete freeze fails, every process of the batch stays frozen, and the app is not tracked
    even if it was before; nothing else about the tracked apps changes.
   */
  lemma LostBatchStaysFrozen(c: Context, samples: map<nat, Deferral.Sample>, v: View, turn: Turn, k: nat)
    requires Consistent(v) && PlausibleTurn(c, samples, v, turn) && turn.Acting? && turn.act.Lost? && k < |turn.ps|
    ensures Holds(TurnEvents(c, samples, v, turn), turn.ps[k].pid)
    ensures IdOf(c, turn.ps) !in AfterTurn(c, samples, v, turn).frozen
    ensures AfterTurn(c, samples, v, turn).frozen == v.frozen - {IdOf(c, turn.ps)}
  {
    var q, id := PendingBatch(turn.ps), IdOf(c, turn.ps);
    var t, freeze := TurnEvents(c, samples, v, turn), Froze(Target(false, q[k]), true);
    LostForgets(c, samples, v, turn, 0);
    CompletedHoldsBatch(q, false, k);
    AppliesFreezesEach(q, false, |q|, k);
    assert freeze in Events(q, false, Completed);
    HeldUnlessThawed(t, freeze);
  }

  lemma ActHoldsTracked(c: Context, samples: map<nat, Deferral.Sample>, v: View, turn: Turn)
    requires Consistent(v) && PlausibleTurn(c, samples, v, turn) && turn.Acting? && !turn.act.Lost?
    ensures HeldIsTracked(ActPart(c, v, turn), AfterTurn(c, samples, v, turn), IdOf(c, turn.ps))
  {
    EnteredReady(c, v, turn.ps);
    ActFits(turn.ps, IdOf(c, turn.ps), Entered(v, IdOf(c, turn.ps)), c.now, turn.act);
  }

  lemma VanishedLater(pre: seq<Event>, t: seq<Event>, pid: int)
    requires Vanished(t, pid)
    ensures Vanished(pre + t, pid)
  {
    var i :| 0 <= i < |t| && t[i].Discovered? && t[i].found.Some? && forall q :: q in t[i].found.value ==> q.pid != pid;
    assert (pre + t)[|pre| + i] == t[i];
  }
}
