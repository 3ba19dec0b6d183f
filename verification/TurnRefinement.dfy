/** Every possible turn of a record is right: the proof that the account of a turn refines the reference. */
module TurnRefinement {
  import opened Domain
  import opened Trace
  import opened Transactions
  import opened ControlStateTracking
  import opened Actions
  import opened ControlTurn
  import opened TurnReference
  import Deferral

  // ---- Names

  lemma StartsWithWord(s: string, word: string)
    ensures word <= Lowered(s) <==> SpelledAt(s, 0, word)
  {
    var small := Lowered(s);
    assert forall k :: 0 <= k < |s| ==> forall l: char :: Spells(s[k], l) <==> small[k] == l;
    if word <= small {
      assert forall k :: 0 <= k < |word| ==> word[k] == small[k];
    }
    if SpelledAt(s, 0, word) {
      assert forall k :: 0 <= k < |word| ==> Spells(s[0 + k], word[k]);
      assert small[..|word|] == word;
    }
  }

  lemma {:induction false} ContainsMeans(s: string, word: string)
    ensures Contains(Lowered(s), word) <==> Mentions(s, word)
  {
    StartsWithWord(s, word);
    if s == [] {
      assert Mentions(s, word) ==> SpelledAt(s, 0, word);
    } else {
      assert Lowered(s)[1..] == Lowered(s[1..]);
      ContainsMeans(s[1..], word);
      MentionsLater(s, word);
    }
  }

  lemma SpelledLater(s: string, i: int, word: string)
    requires s != [] && i >= 0
    ensures SpelledAt(s, i + 1, word) <==> SpelledAt(s[1..], i, word)
  {
    if SpelledAt(s, i + 1, word) {
      forall k | 0 <= k < |word| ensures Spells(s[1..][i + k], word[k]) {
        assert Spells(s[i + 1 + k], word[k]);
      }
    }
    if SpelledAt(s[1..], i, word) {
      forall k | 0 <= k < |word| ensures Spells(s[i + 1 + k], word[k]) {
        assert Spells(s[1..][i + k], word[k]);
      }
    }
  }

  lemma MentionsLater(s: string, word: string)
    requires s != []
    ensures Mentions(s, word) <==> SpelledAt(s, 0, word) || Mentions(s[1..], word)
  {
    if Mentions(s, word) && !SpelledAt(s, 0, word) {
      var i :| 0 <= i <= |s| && SpelledAt(s, i, word);
      SpelledLater(s, i - 1, word);
    }
    if Mentions(s[1..], word) {
      var i :| 0 <= i <= |s[1..]| && SpelledAt(s[1..], i, word);
      SpelledLater(s, i, word);
    }
  }

  lemma BusyMeans(binder: string)
    ensures BinderBusy(binder) <==> Busy(binder)
  {
    ContainsMeans(binder, "binder_queue active");
    ContainsMeans(binder, "busy");
    ContainsMeans(binder, "sync_txn");
    ContainsMeans(binder, "txns_pending");
    ContainsMeans(binder, "binder_pending");
  }

  lemma IdleMeans(ps: seq<Process>)
    ensures FreezeHeldBack(PendingBatch(ps)) <==> !Idle(ps)
  {
    var q := PendingBatch(ps);
    forall i | 0 <= i < |ps| && ps[i].binder.Some?
      ensures BinderBusy(q[i].binder.value) <==> Busy(ps[i].binder.value)
    {
      BusyMeans(ps[i].binder.value);
    }
    if FreezeHeldBack(q) {
      var i :| 0 <= i < |q| && (q[i].state in {Foreground, Visible, ProcessState.Unknown}
                                || (q[i].control == PendingFreeze && q[i].binder.Some?
                                  && BinderBusy(q[i].binder.value)));
      assert ps[i].state == q[i].state;
    }
    if !Idle(ps) {
      var i :| 0 <= i < |ps| && (ps[i].state in {Foreground, Visible, ProcessState.Unknown}
                                 || (ps[i].binder.Some? && Busy(ps[i].binder.value)));
      assert q[i] == AsPending(ps[i]);
    }
  }

  lemma NamesMeans(package: string, word: string)
    ensures Lowered(package) == word <==> Names(package, word)
  {
    StartsWithWord(package, word);
    assert word <= Lowered(package) && |word| == |package| ==> word == Lowered(package);
  }

  lemma DownloadAppMeans(package: string)
    ensures Deferral.IsCandidate(package) <==> DownloadApp(package)
  {
    NamesMeans(package, "com.baidu.netdisk");
    NamesMeans(package, "com.quark.clouddrive");
    NamesMeans(package, "com.google.android.apps.docs");
    NamesMeans(package, "com.pikpak.android");
    NamesMeans(package, "com.trim.app");
  }

  lemma SlowMeans(samples: map<nat, Deferral.Sample>, uid: nat, package: string, sample: RxSample, now: nat)
    ensures Deferral.Proceeds(samples, uid, package, sample, now)
            <==> !DownloadApp(package) || SlowSince(samples, uid, sample, now)
  {
    DownloadAppMeans(package);
    if sample.Value? && uid in samples && samples[uid].at < now && samples[uid].bytes <= sample.bytes {
      Deferral.DivisionBound((sample.bytes - samples[uid].bytes) * 1000, now - samples[uid].at, Deferral.THRESHOLD);
    }
  }

  lemma {:induction false} SignatureMeans(ps: seq<Process>)
    ensures SignatureOf(ps) == Signed(ps)
  {
    if ps == [] {
    } else {
      var n := |ps| - 1;
      SignatureMeans(ps[..n]);
      var marks := seq(|ps|, i requires 0 <= i < |ps| => Mark(ps[i].pid, ps[i].package, ps[i].start));
      var front := seq(n, i requires 0 <= i < n => Mark(ps[..n][i].pid, ps[..n][i].package, ps[..n][i].start));
      assert marks == front + [marks[n]];
    }
  }

  // ---- Thaws

  lemma SucceededConcat(a: seq<Event>, b: seq<Event>)
    ensures Succeeded(a + b) <==> Succeeded(a) && Succeeded(b)
  {
    assert forall i :: 0 <= i < |a| ==> (a + b)[i] == a[i];
    assert forall i :: 0 <= i < |b| ==> (a + b)[|a| + i] == b[i];
  }

  lemma ThawCallsSnoc(t: seq<Event>, p: Process, u: Undo)
    requires forall i :: 0 <= i < |t| ==> ThawCall(t, i)
    ensures var r := t + UndoEvents(p, p, u); forall i :: 0 <= i < |r| ==> ThawCall(r, i)
  {
    var r := t + UndoEvents(p, p, u);
    forall i | 0 <= i < |r| ensures ThawCall(r, i) {
      if i < |t| {
        assert ThawCall(t, i);
      }
    }
  }

  lemma ThawTriedSnoc(t: seq<Event>, ps: seq<Process>, p: Process, signal: bool, u: Undo)
    requires ThawTried(t, ps, signal)
    ensures ThawTried(t + UndoEvents(Target(signal, p), Target(signal, p), u), ps + [p], signal)
  {
    ThawCallsSnoc(t, Target(signal, p), u);
    CheckedUndo(t, Target(signal, p), Target(signal, p), u);
  }

  lemma {:induction false} UnfreezeTries(ps: seq<Process>, signal: bool, undos: seq<Undo>)
    requires |undos| <= |ps|
    ensures ThawTried(UnfreezeEvents(ps, signal, undos), ps[..|undos|], signal)
    ensures Succeeded(UnfreezeEvents(ps, signal, undos)) <==> AllUndone(undos)
  {
    if undos == [] {
    } else {
      var n := |undos| - 1;
      var front, p, u := UnfreezeEvents(ps, signal, undos[..n]), Target(signal, ps[n]), undos[n];
      UnfreezeTries(ps, signal, undos[..n]);
      ThawTriedSnoc(front, ps[..n], ps[n], signal, u);
      SucceededConcat(front, UndoEvents(p, p, u));
      UndoSucceeds(p, u);
      UnfreezeSnoc(ps, signal, undos[..n], u);
      assert undos == undos[..n] + [u] && ps[..n + 1] == ps[..n] + [ps[n]];
    }
  }

  lemma UndoSucceeds(p: Process, u: Undo)
    ensures Succeeded(UndoEvents(p, p, u)) <==> u.Done()
  {
    var t := UndoEvents(p, p, u);
    assert t[0] == Validated(p, u.answer);
    if u.answer == Some(true) { assert t[1] == Unfroze(p, u.ok); }
  }

  /** The calls of a plausible thaw of a found batch, and what makes it clean. */
  lemma {:induction false} ThawIsRight(id: Identity, signal: bool, ps: seq<Process>, undos: seq<Undo>)
    requires PlausibleThaw(id, Thaw(Some(ps), undos))
    ensures Thaws(UnfreezeEvents(ps, signal, undos), ps, id.package, signal)
    ensures Clean(id, Thaw(Some(ps), undos)) <==> Thawed(UnfreezeEvents(ps, signal, undos), ps, id.package)
  {
    UnfreezeTries(ps, signal, undos);
    assert ps[..|ps|] == ps;
  }

  lemma ThawEventsAreRight(id: Identity, owner: Ownership, th: Thaw)
    requires PlausibleThaw(id, th)
    ensures var t := ThawEvents(id, owner, th);
            t != [] && ThawsIdentity(t[0], t[1..], id, owner == SignalOnly, Clean(id, th))
  {
    var t := ThawEvents(id, owner, th);
    if th.found.Some? {
      ThawIsRight(id, owner == SignalOnly, th.found.value, th.undos);
      assert t[1..] == UnfreezeEvents(th.found.value, owner == SignalOnly, th.undos);
    }
  }

  lemma TriesFromParts(a: seq<Event>, t: seq<Event>, d: seq<Event>, id: Identity, signal: bool, gone: bool)
    requires t != [] && ThawsIdentity(t[0], t[1..], id, signal, gone)
    ensures TriesIdentity(a + t + d, id, signal, gone)
  {
    assert a + t + d == a + [t[0]] + t[1..] + d;
  }

  /** A plausible run of attempts on distinct identities tries each with its own backend. */
  lemma {:induction false} ThawsTryEach(v: View, w: View, ids: seq<Identity>, thaws: seq<Thaw>, mine: set<Identity>)
    requires PlausibleThaws(ids, thaws) && Listing(ids, mine) && mine <= v.frozen
    requires w.frozen == v.frozen && w.ownership == v.ownership
    ensures ThawsEach(v, AfterThaws(w, ids, thaws).frozen, mine, ThawsEvents(w, ids, thaws))
  {
    var t, left := ThawsEvents(w, ids, thaws), v.frozen - CleanOnes(ids, thaws);
    ThawsClearExactlyClean(w, ids, thaws);
    ThawsOnlyThaw(w, ids, thaws);
    assert forall id :: id in CleanOnes(ids, thaws) ==> id in ids;
    forall id | id in mine ensures TriesIdentity(t, id, StoppedBySignal(v, id), id !in left) {
      var k :| 0 <= k < |ids| && ids[k] == id;
      CleanAt(ids, thaws, k);
      ThawsUseOwnOwnership(w, ids, thaws, k);
      var part := ThawEvents(id, Owner(w, id), thaws[k]);
      var a, d :| t == a + part + d;
      ThawEventsAreRight(id, Owner(w, id), thaws[k]);
      TriesFromParts(a, part, d, id, StoppedBySignal(v, id), Clean(id, thaws[k]));
    }
  }

  lemma CleanAt(ids: seq<Identity>, thaws: seq<Thaw>, k: nat)
    requires |thaws| == |ids| && k < |ids| && forall i, j :: 0 <= i < j < |ids| ==> ids[i] != ids[j]
    ensures ids[k] in CleanOnes(ids, thaws) <==> Clean(ids[k], thaws[k])
  {
    if ids[k] in CleanOnes(ids, thaws) {
      var j :| 0 <= j < |ids| && Clean(ids[j], thaws[j]) && ids[j] == ids[k];
      assert j == k;
    }
  }

  ghost predicate OnlyThaws(t: seq<Event>) {
    forall i :: 0 <= i < |t| ==> t[i].Discovered? || t[i].Validated? || t[i].Unfroze?
  }

  lemma {:induction false} UnfreezeOnlyThaws(ps: seq<Process>, signal: bool, undos: seq<Undo>)
    requires |undos| <= |ps|
    ensures OnlyThaws(UnfreezeEvents(ps, signal, undos))
  {
    if undos == [] {
    } else {
      UnfreezeOnlyThaws(ps, signal, undos[..|undos| - 1]);
    }
  }

  lemma {:induction false} ThawsOnlyThaw(v: View, ids: seq<Identity>, thaws: seq<Thaw>)
    requires PlausibleThaws(ids, thaws)
    ensures OnlyThaws(ThawsEvents(v, ids, thaws))
  {
    if ids == [] {
    } else {
      var n := |ids| - 1;
      ThawsOnlyThaw(v, ids[..n], thaws[..n]);
      if thaws[n].found.Some? {
        UnfreezeOnlyThaws(thaws[n].found.value, Owner(AfterThaws(v, ids[..n], thaws[..n]), ids[n]) == SignalOnly,
                          thaws[n].undos);
      }
    }
  }

  // ---- Transactions

  predicate StopCall(e: Event, ps: seq<Process>, signal: bool) {
    e.Validated? || e.Unfroze? || (e.Froze? && StopsOne(e, ps, signal))
  }

  ghost predicate StopCalls(t: seq<Event>, ps: seq<Process>, signal: bool) {
    forall i :: 0 <= i < |t| ==> StopCall(t[i], ps, signal)
  }

  lemma StopCallsConcat(a: seq<Event>, b: seq<Event>, ps: seq<Process>, signal: bool)
    requires StopCalls(a, ps, signal) && StopCalls(b, ps, signal)
    ensures StopCalls(a + b, ps, signal)
  {
  }

  lemma TargetIsStopTarget(ps: seq<Process>, signal: bool, i: nat)
    requires i < |ps|
    ensures Target(signal, PendingBatch(ps)[i]) == StopTarget(ps[i], signal)
  {
  }

  lemma {:induction false} AppliesStop(ps: seq<Process>, signal: bool, n: nat)
    requires n <= |ps|
    ensures StopCalls(Applies(PendingBatch(ps), signal, n), ps, signal)
  {
    var q := PendingBatch(ps);
    if n == 0 {
    } else {
      var step := [Validated(q[n - 1], Some(true)), Froze(Target(signal, q[n - 1]), true)];
      AppliesStop(ps, signal, n - 1);
      TargetIsStopTarget(ps, signal, n - 1);
      assert StopsOne(step[1], ps, signal);
      StopCallsConcat(Applies(q, signal, n - 1), step, ps, signal);
    }
  }

  lemma {:induction false} AppliesSucceed(q: seq<Process>, signal: bool, n: nat)
    requires n <= |q|
    ensures var t := Applies(q, signal, n); Succeeded(t) && NeverThaws(t) && Balance(t) == n
  {
    if n == 0 {
    } else {
      var front := Applies(q, signal, n - 1);
      var step := [Validated(q[n - 1], Some(true)), Froze(Target(signal, q[n - 1]), true)];
      AppliesSucceed(q, signal, n - 1);
      SucceededConcat(front, step);
      BalanceTwo(front, step[0], step[1]);
    }
  }

  lemma {:induction false} BalanceSnoc(t: seq<Event>, e: Event)
    ensures Balance(t + [e])
         == Balance(t) + if e.Froze? && e.ok then 1 else if e.Unfroze? && e.ok then -1 else 0
  {
    assert (t + [e])[..|t|] == t;
  }

  lemma {:induction false} BalanceTwo(t: seq<Event>, check: Event, e: Event)
    requires check.Validated?
    ensures Balance(t + [check, e])
         == Balance(t) + if e.Froze? && e.ok then 1 else if e.Unfroze? && e.ok then -1 else 0
  {
    BalanceSnoc(t, check);
    BalanceSnoc(t + [check], e);
    assert t + [check, e] == t + [check] + [e];
  }

  lemma {:induction false} BalanceConcat(a: seq<Event>, b: seq<Event>)
    ensures Balance(a + b) == Balance(a) + Balance(b)
  {
    if b == [] {
      assert a + b == a;
    } else {
      var n := |b| - 1;
      BalanceConcat(a, b[..n]);
      BalanceSnoc(a + b[..n], b[n]);
      assert a + b == a + b[..n] + [b[n]];
    }
  }

  lemma {:induction false} BalanceNothing(t: seq<Event>)
    requires forall i :: 0 <= i < |t| ==> !(t[i].Froze? && t[i].ok) && !(t[i].Unfroze? && t[i].ok)
    ensures Balance(t) == 0
  {
    if t == [] {
    } else {
      BalanceNothing(t[..|t| - 1]);
    }
  }

  ghost predicate OnlyUndoes(t: seq<Event>) {
    forall i :: 0 <= i < |t| ==> t[i].Validated? || t[i].Unfroze?
  }

  lemma {:induction false} RollbackUndoes(q: seq<Process>, signal: bool, at: nat, undos: seq<Undo>)
    requires |undos| <= at <= |q|
    ensures OnlyUndoes(Rollback(q, signal, at, undos))
    ensures Balance(Rollback(q, signal, at, undos)) == 0 - DoneCount(undos)
  {
    if undos == [] {
    } else {
      var before, u := undos[..|undos| - 1], undos[|undos| - 1];
      var p := q[at - |undos|];
      RollbackUndoes(q, signal, at, before);
      RollbackSnoc(q, signal, at, before, u);
      UndoAdds(Rollback(q, signal, at, before), p, Target(signal, p), u);
      assert undos == before + [u];
    }
  }

  lemma {:induction false} UndoAdds(t: seq<Event>, check: Process, target: Process, u: Undo)
    requires OnlyUndoes(t)
    ensures OnlyUndoes(t + UndoEvents(check, target, u))
    ensures Balance(t + UndoEvents(check, target, u)) == Balance(t) - if u.Done() then 1 else 0
  {
    BalanceConcat(t, UndoEvents(check, target, u));
    UndoBalance(check, target, u);
  }

  lemma UndoBalance(check: Process, target: Process, u: Undo)
    ensures Balance(UndoEvents(check, target, u)) == if u.Done() then -1 else 0
  {
    if u.answer == Some(true) {
      BalanceTwo([], Validated(check, u.answer), Unfroze(target, u.ok));
      assert UndoEvents(check, target, u) == [] + [Validated(check, u.answer), Unfroze(target, u.ok)];
    } else {
      BalanceNothing(UndoEvents(check, target, u));
    }
  }

  lemma BlowStops(ps: seq<Process>, signal: bool, at: nat, why: Obstacle)
    requires at < |ps| && (why.NotValid? ==> why.answer != Some(true))
    ensures var t := Blow(PendingBatch(ps), signal, at, why);
            StopCalls(t, ps, signal) && Balance(t) == 0 && (Succeeded(t) <==> why.MixedPackages?)
            && (!why.ApplyFailed? ==> Harmless(t))
  {
    var t := Blow(PendingBatch(ps), signal, at, why);
    TargetIsStopTarget(ps, signal, at);
    BalanceNothing(t);
    if why.NotValid? { assert t[0] == Validated(PendingBatch(ps)[at], why.answer); }
    if why.ApplyFailed? { assert t[1].Froze? && !t[1].ok && StopsOne(t[1], ps, signal); }
  }

  lemma PrechecksStop(ps: seq<Process>, signal: bool, n: nat)
    requires n <= |ps|
    ensures var t := Prechecks(PendingBatch(ps), n);
            StopCalls(t, ps, signal) && Succeeded(t) && Balance(t) == 0 && NeverThaws(t) && Harmless(t)
  {
    BalanceNothing(Prechecks(PendingBatch(ps), n));
  }

  /** What a story's calls say about it. */
  ghost predicate StoryShows(ps: seq<Process>, signal: bool, story: Story, t: seq<Event>) {
    && StopCalls(t, ps, signal)
    && (Succeeded(t) && SinglePackage(ps) <==> story.Completed?)
    && (Succeeded(t) && !SinglePackage(ps) <==> story.Refused? && story.why.MixedPackages?)
    && (PastChecks(t, ps) <==> !story.Refused?)
    && Balance(t) == OutcomeOf(PendingBatch(ps), story).applied - OutcomeOf(PendingBatch(ps), story).rolledBack
    && (story.Refused? ==> Harmless(t)) && (story.Completed? ==> NeverThaws(t))
  }

  lemma PastChecksStart(ps: seq<Process>, rest: seq<Event>)
    requires SinglePackage(ps)
    ensures PastChecks(Prechecks(PendingBatch(ps), |ps|) + rest, ps)
  {
    var t := Prechecks(PendingBatch(ps), |ps|) + rest;
    assert forall i :: 0 <= i < |ps| ==> t[i] == Prechecks(PendingBatch(ps), |ps|)[i];
  }

  lemma RefusedShows(ps: seq<Process>, signal: bool, at: nat, why: Obstacle)
    requires ps != [] && Plausible(PendingBatch(ps), Refused(at, why))
    ensures StoryShows(ps, signal, Refused(at, why), Events(PendingBatch(ps), signal, Refused(at, why)))
  {
    var q := PendingBatch(ps);
    var pre, blow := Prechecks(q, at), Blow(q, signal, at, why);
    PrechecksStop(ps, signal, at);
    BlowStops(ps, signal, at, why);
    StopCallsConcat(pre, blow, ps, signal);
    SucceededConcat(pre, blow);
    BalanceConcat(pre, blow);
    SinglePending(ps);
    assert SinglePackage(q) ==> !why.MixedPackages?;
    if why.NotValid? {
      assert (pre + blow)[at] == Validated(q[at], why.answer);
    }
    assert why.MixedPackages? ==> !SinglePackage(q);
  }

  lemma CompletedShows(ps: seq<Process>, signal: bool)
    requires ps != [] && SinglePackage(PendingBatch(ps))
    ensures StoryShows(ps, signal, Completed, Events(PendingBatch(ps), signal, Completed))
  {
    var q := PendingBatch(ps);
    var pre, app := Prechecks(q, |q|), Applies(q, signal, |q|);
    PrechecksStop(ps, signal, |ps|);
    AppliesStop(ps, signal, |ps|);
    AppliesSucceed(q, signal, |ps|);
    StopCallsConcat(pre, app, ps, signal);
    SucceededConcat(pre, app);
    BalanceConcat(pre, app);
    SinglePending(ps);
    PastChecksStart(ps, app);
  }

  lemma UndoneShows(ps: seq<Process>, signal: bool, at: nat, why: Obstacle, undos: seq<Undo>)
    requires ps != [] && Plausible(PendingBatch(ps), Undone(at, why, undos))
    ensures StoryShows(ps, signal, Undone(at, why, undos), Events(PendingBatch(ps), signal, Undone(at, why, undos)))
  {
    var q := PendingBatch(ps);
    var pre, app, blow, back :=
      Prechecks(q, |q|), Applies(q, signal, at), Blow(q, signal, at, why), Rollback(q, signal, at, undos);
    PrechecksStop(ps, signal, |ps|);
    AppliesStop(ps, signal, at);
    AppliesSucceed(q, signal, at);
    BlowStops(ps, signal, at, why);
    RollbackUndoes(q, signal, at, undos);
    FourParts(pre, app, blow, back, ps, signal);
    SinglePending(ps);
    PastChecksStart(ps, app + blow + back);
    assert pre + app + blow + back == pre + (app + blow + back);
  }

  lemma {:induction false} FourParts(a: seq<Event>, b: seq<Event>, c: seq<Event>, d: seq<Event>, ps: seq<Process>,
                                     signal: bool)
    requires StopCalls(a, ps, signal) && StopCalls(b, ps, signal) && StopCalls(c, ps, signal)
    requires StopCalls(d, ps, signal) && !Succeeded(c)
    ensures StopCalls(a + b + c + d, ps, signal) && !Succeeded(a + b + c + d)
    ensures Balance(a + b + c + d) == Balance(a) + Balance(b) + Balance(c) + Balance(d)
  {
    StopCallsConcat(a, b, ps, signal);
    StopCallsConcat(a + b, c, ps, signal);
    StopCallsConcat(a + b + c, d, ps, signal);
    SucceededConcat(a + b, c);
    SucceededConcat(a + b + c, d);
    BalanceConcat(a, b);
    BalanceConcat(a + b, c);
    BalanceConcat(a + b + c, d);
  }

  lemma StoryIsShown(ps: seq<Process>, signal: bool, story: Story)
    requires ps != [] && Plausible(PendingBatch(ps), story)
    ensures StoryShows(ps, signal, story, Events(PendingBatch(ps), signal, story))
  {
    match story
    case Refused(at, why) => RefusedShows(ps, signal, at, why);
    case Completed => CompletedShows(ps, signal);
    case Undone(at, why, undos) => UndoneShows(ps, signal, at, why, undos);
  }

  /** A story is one attempt, as the reference describes it. */
  lemma StoryIsAttempt(ps: seq<Process>, signal: bool, story: Story)
    requires ps != [] && Plausible(PendingBatch(ps), story)
    ensures Attempted(Events(PendingBatch(ps), signal, story), ps, signal)
  {
    var q := PendingBatch(ps);
    var t := Events(q, signal, story);
    StoryIsShown(ps, signal, story);
    StoryChecksFirst(ps, signal, story);
    assert forall i :: 0 <= i < |t| ==> StopCall(t[i], ps, signal);
    if story.Completed? {
      forall i | 0 <= i < |ps| ensures Froze(StopTarget(ps[i], signal), true) in t {
        AppliesFreezesEach(q, signal, |q|, i);
        TargetIsStopTarget(ps, signal, i);
      }
    }
  }

  lemma StoryChecksFirst(ps: seq<Process>, signal: bool, story: Story)
    requires ps != [] && Plausible(PendingBatch(ps), story)
    ensures ChecksFirst(Events(PendingBatch(ps), signal, story), ps)
  {
    var t := Events(PendingBatch(ps), signal, story);
    assert t[0].Validated? && t[0].p == PendingBatch(ps)[0];
  }

  // ---- Actions

  lemma {:induction false} KillsShow(ps: seq<Process>, n: nat)
    requires n <= |ps|
    ensures var t := Kills(PendingBatch(ps), n);
            && Succeeded(t) && (forall i :: 0 <= i < |t| ==> t[i].Validated? || t[i].Terminated?)
            && forall i :: 0 <= i < n ==> Terminated(AsPending(ps[i]), true) in t
  {
    if n == 0 {
    } else {
      var q := PendingBatch(ps);
      var step := [Validated(q[n - 1], Some(true)), Terminated(q[n - 1], true)];
      KillsShow(ps, n - 1);
      SucceededConcat(Kills(q, n - 1), step);
      assert step[1] in step && Kills(q, n) == Kills(q, n - 1) + step;
    }
  }

  /** What the calls of a kill say about it. */
  ghost predicate KillShows(ps: seq<Process>, kill: KillStory, t: seq<Event>) {
    && (forall i :: 0 <= i < |t| ==> t[i].Validated? || t[i].Terminated?)
    && (Succeeded(t) && SinglePackage(ps) <==> kill.KilledAll?)
    && (kill.Spared? ==> forall i :: 0 <= i < |t| ==> t[i].Validated?)
    && (!kill.Spared? ==> PastChecks(t, ps))
    && (kill.KilledAll? ==> forall i :: 0 <= i < |ps| ==> Terminated(AsPending(ps[i]), true) in t)
  }

  lemma KilledAllIsShown(ps: seq<Process>)
    requires ps != [] && SinglePackage(PendingBatch(ps))
    ensures KillShows(ps, KilledAll, KillEvents(PendingBatch(ps), KilledAll))
  {
    var q := PendingBatch(ps);
    SinglePending(ps);
    PrechecksStop(ps, false, |ps|);
    KillsShow(ps, |ps|);
    SucceededConcat(Prechecks(q, |q|), Kills(q, |q|));
    PastChecksStart(ps, Kills(q, |q|));
  }

  lemma StoppedKillIsShown(ps: seq<Process>, at: nat, why: Obstacle)
    requires ps != [] && PlausibleKill(PendingBatch(ps), Stopped(at, why))
    ensures KillShows(ps, Stopped(at, why), KillEvents(PendingBatch(ps), Stopped(at, why)))
  {
    var q := PendingBatch(ps);
    var pre, kills, blow := Prechecks(q, |q|), Kills(q, at), KillBlow(q, at, why);
    SinglePending(ps);
    KillsShow(ps, at);
    assert !Succeeded(blow) by {
      assert if why.NotValid? then blow[0] == Validated(q[at], why.answer) else blow[1] == Terminated(q[at], false);
    }
    SucceededConcat(pre + kills, blow);
    PastChecksStart(ps, kills + blow);
    assert pre + kills + blow == pre + (kills + blow);
  }

  lemma KillIsShown(ps: seq<Process>, kill: KillStory)
    requires ps != [] && PlausibleKill(PendingBatch(ps), kill)
    ensures KillShows(ps, kill, KillEvents(PendingBatch(ps), kill))
  {
    match kill
    case Spared(at, why) =>
      SinglePending(ps);
      RefusedShows(ps, false, at, why);
    case KilledAll => KilledAllIsShown(ps);
    case Stopped(at, why) => StoppedKillIsShown(ps, at, why);
  }

  lemma KillIsRight(v: View, id: Identity, ps: seq<Process>, kill: KillStory)
    requires ps != [] && PlausibleKill(PendingBatch(ps), kill)
    ensures RightKill(v, id, if kill.KilledAll? then Cleared(Unpended(v, id), id) else v, ps,
                      KillEvents(PendingBatch(ps), kill))
  {
    var t := KillEvents(PendingBatch(ps), kill);
    KillIsShown(ps, kill);
    assert t[0].Validated? && t[0].p == PendingBatch(ps)[0];
  }

  lemma StopIsRight(c: Context, v: View, id: Identity, ps: seq<Process>, story: Story, ledger: seq<Event>,
                    promos: seq<Event>)
    requires Ready(v, id, ps) && PlausibleAct(ps, id, v, Signalled(story, ledger, promos))
    ensures var act := Signalled(story, ledger, promos);
            RightStop(c, v, id, AfterAct(ps, id, v, c.now, act), ps, ActEvents(ps, id, v, act))
  {
    var a := Events(PendingBatch(ps), true, story);
    StoryIsAttempt(ps, true, story);
    StoryIsShown(ps, true, story);
    StopStates(c, v, id, ps, story, ledger, promos);
    assert ActEvents(ps, id, v, Signalled(story, ledger, promos)) == ledger + a + promos;
  }

  lemma StopStates(c: Context, v: View, id: Identity, ps: seq<Process>, story: Story, ledger: seq<Event>,
                   promos: seq<Event>)
    requires Ready(v, id, ps) && PlausibleAct(ps, id, v, Signalled(story, ledger, promos))
    requires Attempted(Events(PendingBatch(ps), true, story), ps, true)
    requires StoryShows(ps, true, story, Events(PendingBatch(ps), true, story))
    ensures StopParts(c, v, id, AfterAct(ps, id, v, c.now, Signalled(story, ledger, promos)), ps, ledger,
                      Events(PendingBatch(ps), true, story), promos)
  {
    var q := PendingBatch(ps);
    SignatureMeans(ps);
    LedgerMeans(v, id, ps, ledger);
    SignalView(v, id, c.now, SignatureOf(ps), OutcomeOf(q, story), promos != [] && AllConfirmed(promos));
  }

  lemma LedgerMeans(v: View, id: Identity, ps: seq<Process>, ledger: seq<Event>)
    ensures PromotionAllowed(v, id, PendingBatch(ps), ledger) <==> LedgerAllows(v, id, ps, ledger)
  {
    var q := PendingBatch(ps);
    assert forall i :: 0 <= i < |ps| ==> q[i] == AsPending(ps[i]);
    if PromotionAllowed(v, id, q, ledger) {
      forall i | 0 <= i < |ps|
        ensures ps[i].start.Some? && ledger[i].LedgerRead? && ledger[i].p == ps[i].(control := PendingFreeze)
        ensures ledger[i].LedgerRead? ==> ledger[i].entry in {NoEntry, SignalOnlyEntry}
      {
        assert q[i].start.Some?;
      }
    }
  }

  lemma SignalView(v: View, id: Identity, now: nat, signature: Signature, o: Outcome, proven: bool)
    requires Consistent(v) && id !in v.frozen && (proven ==> o.failure.None? && !Unresolved(v, id))
    requires o.failure == Some(MixedPackages) ==> o.rollbackFailures == 0
    ensures AfterSignal(v, id, now, signature, o, proven)
         == if o.failure.None? then Stored(v, id, now, if proven then SignalOnly else ResidualUnknown)
            else if o.failure == Some(MixedPackages)
            then v.(blocked := v.blocked[id := signature], pending := v.pending - {id})
            else if o.rollbackFailures > 0 then Stored(v, id, now, ResidualUnknown)
            else v.(pending := v.pending - {id})
  {
  }

  lemma FallbackIsRight(c: Context, v: View, id: Identity, ps: seq<Process>, first: Story, second: Story)
    requires Ready(v, id, ps) && PlausibleAct(ps, id, v, FellBack(first, second))
    ensures var act := FellBack(first, second);
            RightFreeze(c, v, id, AfterAct(ps, id, v, c.now, act), ps, ActEvents(ps, id, v, act))
  {
    var q := PendingBatch(ps);
    StoryIsAttempt(ps, false, first);
    StoryIsAttempt(ps, true, second);
    StoryIsShown(ps, false, first);
    StoryIsShown(ps, true, second);
    FallbackStates(c, v, id, ps, first, second);
    assert ActEvents(ps, id, v, FellBack(first, second)) == Events(q, false, first) + Events(q, true, second);
  }

  lemma FallbackStates(c: Context, v: View, id: Identity, ps: seq<Process>, first: Story, second: Story)
    requires Ready(v, id, ps) && PlausibleAct(ps, id, v, FellBack(first, second))
    requires var q := PendingBatch(ps);
             && Attempted(Events(q, false, first), ps, false) && Attempted(Events(q, true, second), ps, true)
             && StoryShows(ps, false, first, Events(q, false, first))
             && StoryShows(ps, true, second, Events(q, true, second))
    ensures FreezeParts(c, v, id, AfterAct(ps, id, v, c.now, FellBack(first, second)), ps,
                        Events(PendingBatch(ps), false, first), Events(PendingBatch(ps), true, second))
  {
    var q := PendingBatch(ps);
    SignatureMeans(ps);
    FallbackView(v, id, c.now, SignatureOf(ps), OutcomeOf(q, first), OutcomeOf(q, second));
  }

  lemma FallbackView(v: View, id: Identity, now: nat, signature: Signature, o: Outcome, o2: Outcome)
    requires Consistent(v) && id !in v.frozen && id !in v.blocked
    requires o.failure == Some(MixedPackages) ==>
               !o.residualPossible && o2.failure.Some? && o2.rollbackFailures == 0
    ensures AfterFallback(v, id, now, signature, o, o2)
         == if o.failure == Some(MixedPackages)
            then v.(blocked := v.blocked[id := signature], pending := v.pending - {id})
            else if o.residualPossible || o2.failure.None? || o2.rollbackFailures > 0
            then Stored(v, id, now, ResidualUnknown)
            else v.(pending := v.pending - {id})
  {
    var b := Tracked(v, id, now, ResidualUnknown);
    assert Tracked(b, id, now, ResidualUnknown) == b;
  }

  lemma RescanIsRight(c: Context, v: View, id: Identity, ps: seq<Process>, intruder: bool, th: Thaw)
    requires Ready(v, id, ps) && PlausibleAct(ps, id, v, Rescanned(intruder, th)) && id.uid == c.record.uid
    ensures var act := Rescanned(intruder, th);
            RightFreeze(c, v, id, AfterAct(ps, id, v, c.now, act), ps, ActEvents(ps, id, v, act))
  {
    var q, b := PendingBatch(ps), RescanEvents(id, intruder, th);
    StoryIsAttempt(ps, false, Completed);
    StoryIsShown(ps, false, Completed);
    NewcomerMeans(c, ps, th.found.value);
    ThawIsRight(id, false, th.found.value, th.undos);
    assert intruder ==> b[1..] == UnfreezeEvents(th.found.value, false, th.undos);
    assert FreezeParts(c, v, id, AfterRescan(v, id, c.now, intruder, Clean(id, th)), ps, Events(q, false, Completed),
      b);
  }

  lemma NewcomerMeans(c: Context, ps: seq<Process>, found: seq<Process>)
    ensures NewPid(PendingBatch(ps), c.record.uid, found) <==> Newcomer(c, ps, found)
  {
    var q := PendingBatch(ps);
    assert forall i :: 0 <= i < |ps| ==> q[i].pid == ps[i].pid;
    if NewPid(q, c.record.uid, found) {
      var k :| 0 <= k < |found| && found[k].uid == c.record.uid && forall j :: 0 <= j < |q| ==>
        q[j].pid != found[k].pid;
      assert forall i :: 0 <= i < |ps| ==> ps[i].pid != found[k].pid;
    }
    if Newcomer(c, ps, found) {
      var k :| 0 <= k < |found| && found[k].uid == c.record.uid
               && forall i :: 0 <= i < |ps| ==> ps[i].pid != found[k].pid;
      assert forall j :: 0 <= j < |q| ==> q[j].pid != found[k].pid;
    }
  }

  lemma LostIsRight(c: Context, v: View, id: Identity, ps: seq<Process>)
    requires Ready(v, id, ps) && PlausibleAct(ps, id, v, Lost) && id.uid == c.record.uid
    ensures RightFreeze(c, v, id, v, ps, ActEvents(ps, id, v, Lost))
  {
    StoryIsAttempt(ps, false, Completed);
    StoryIsShown(ps, false, Completed);
    assert FreezeParts(c, v, id, v, ps, Events(PendingBatch(ps), false, Completed), [Discovered(id.uid, None)]);
  }

  /** Whatever the decision and however its action goes, it is the right one. */
  lemma ActionIsRight(c: Context, v: View, id: Identity, ps: seq<Process>, act: Act)
    requires Ready(v, id, ps) && PlausibleAct(ps, id, v, act) && id.uid == c.record.uid
    requires IsControlMode(c.record.mode) && Matches(Decide(c.record, c.settings, c.binder, PendingBatch(ps)), act)
    ensures RightAction(c, v, id, AfterAct(ps, id, v, c.now, act), ps, ActEvents(ps, id, v, act))
  {
    DecisionMeans(c, ps);
    match act
    case Held =>
    case FellBack(first, second) => FallbackIsRight(c, v, id, ps, first, second);
    case Lost => LostIsRight(c, v, id, ps);
    case Rescanned(intruder, th) => RescanIsRight(c, v, id, ps, intruder, th);
    case Signalled(story, ledger, promos) => StopIsRight(c, v, id, ps, story, ledger, promos);
    case Killed(kill) => KillIsRight(v, id, ps, kill);
  }

  lemma DecisionMeans(c: Context, ps: seq<Process>)
    requires ps != [] && IsControlMode(c.record.mode)
    ensures Decide(c.record, c.settings, c.binder, PendingBatch(ps))
         == if c.record.mode == 10 then Terminate
            else if c.record.mode in {20, 21} || Chosen(c, 5) == 2 then Signal
            else if !Idle(ps) then Decision.Postpone
            else if c.binder && forall i :: 0 <= i < |ps| ==> ps[i].cgroup.Some? then Freeze
            else Signal
  {
    var q := PendingBatch(ps);
    IdleMeans(ps);
    assert AllHaveCgroup(q) <==> forall i :: 0 <= i < |ps| ==> ps[i].cgroup.Some? by {
      assert forall i :: 0 <= i < |ps| ==> q[i].cgroup == ps[i].cgroup;
    }
  }

  // ---- Turns

  /** A state from which these identities were removed, in all maps of their freeze. */
  function Thinned(v: View, gone: set<Identity>): View {
    v.(frozen := v.frozen - gone, since := v.since - gone, ownership := v.ownership - gone)
  }

  lemma BarredView(v: View, gone: set<Identity>, uid: nat)
    requires Consistent(v) && gone <= v.frozen && forall id :: id in gone ==> id.uid == uid
    ensures var left := v.frozen - gone;
            WithoutDetached(Thinned(WithoutTransient(v, uid), gone), {uid})
            == View(left,
                    map id | id in v.since && id in left :: v.since[id],
                    map id | id in v.ownership && (id.uid != uid || id in left) :: v.ownership[id],
                    map id | id in v.pending && id.uid != uid :: v.pending[id],
                    map id | id in v.blocked && id.uid != uid :: v.blocked[id])
  {
  }

  lemma {:induction false} BarredIsRight(c: Context, v: View, ids: seq<Identity>, thaws: seq<Thaw>)
    requires Consistent(v) && PlausibleThaws(ids, thaws)
    requires Listing(ids, set id | id in v.frozen && id.uid == c.record.uid)
    ensures var u := WithoutTransient(v, c.record.uid);
            RightBar(c, v, WithoutDetached(AfterThaws(u, ids, thaws), {c.record.uid}), ThawsEvents(u, ids, thaws))
  {
    var mine := set id | id in v.frozen && id.uid == c.record.uid;
    var u, gone := WithoutTransient(v, c.record.uid), CleanOnes(ids, thaws);
    ThawsTryEach(v, u, ids, thaws, mine);
    ThawsClearExactlyClean(u, ids, thaws);
    forall id | id in gone ensures id in mine { assert id in ids; }
    BarredView(v, gone, c.record.uid);
    assert AfterThaws(u, ids, thaws) == Thinned(u, gone);
  }

  /** The model's gates and the reference's ask the same. */
  lemma {:induction false} GatesMean(c: Context, v: View, ps: seq<Process>)
    requires ps != []
    ensures ControlAllowed(c.record, MinPackage(ps)) <==> !Forbidden(c, MinPackage(ps))
    ensures WakeupDue(c, v, IdOf(c, ps)) <==> Oversleeps(c, v, IdOf(c, ps))
    ensures IsControlMode(c.record.mode) ==> DelayMs(c.record, c.settings) == DelayOf(c)
    ensures WakeupDuration(c.settings) == 1000 * Chosen(c, 2)
    ensures SignatureOf(ps) == Signed(ps)
  {
    SignatureMeans(ps);
  }

  lemma {:induction false} FrontIsRight(v: View, id: Identity, ps: seq<Process>, undos: seq<Undo>)
    requires if id in v.frozen then PlausibleThaw(id, Thaw(Some(ps), undos)) else undos == []
    ensures var u := Unpended(Unblocked(v, id), id);
            RightFront(v, id, if id in v.frozen && Clean(id, Thaw(Some(ps), undos)) then Cleared(u, id) else u, ps,
                       UnfreezeEvents(ps, Owner(v, id) == SignalOnly, undos))
  {
    if id in v.frozen {
      ThawIsRight(id, Owner(v, id) == SignalOnly, ps, undos);
    }
  }

  lemma {:induction false} WakeUpIsRight(c: Context, v: View, id: Identity, ps: seq<Process>, undos: seq<Undo>)
    requires PlausibleThaw(id, Thaw(Some(ps), undos))
    ensures RightWakeUp(c, v, id,
                        if Clean(id, Thaw(Some(ps), undos))
                        then Pended(Cleared(Unblocked(v, id), id), id, c.now + WakeupDuration(c.settings))
                        else Unblocked(v, id),
                        ps, UnfreezeEvents(ps, Owner(v, id) == SignalOnly, undos))
  {
    ThawIsRight(id, Owner(v, id) == SignalOnly, ps, undos);
  }

  lemma FrontTurnIsRight(c: Context, samples: map<nat, Deferral.Sample>, v: View, turn: Turn)
    requires PlausibleTurn(c, samples, v, turn) && turn.AtFront?
    ensures RightBatch(c, samples, v, AfterTurn(c, samples, v, turn), turn.ps, LaterEvents(c, samples, v, turn))
  {
    GatesMean(c, v, turn.ps);
    FrontIsRight(v, IdOf(c, turn.ps), turn.ps, turn.undos);
  }

  lemma WakeUpTurnIsRight(c: Context, samples: map<nat, Deferral.Sample>, v: View, turn: Turn)
    requires PlausibleTurn(c, samples, v, turn) && turn.Awakened?
    ensures RightBatch(c, samples, v, AfterTurn(c, samples, v, turn), turn.ps, LaterEvents(c, samples, v, turn))
  {
    GatesMean(c, v, turn.ps);
    WakeUpIsRight(c, v, IdOf(c, turn.ps), turn.ps, turn.undos);
  }

  /** Behind the download gate: an action, or the sample alone. */
  lemma GateIsRight(c: Context, samples: map<nat, Deferral.Sample>, v: View, id: Identity, after: View,
                    ps: seq<Process>,
                    sample: Option<RxSample>, t: seq<Event>)
    requires sample.Some? <==> Deferral.IsCandidate(id.package)
    requires if Deferral.Proceeds(samples, c.record.uid, id.package, ReadingFor(sample), c.now)
             then RightAction(c, v, id, after, ps, t)
             else t == [] && after == Pended(v, id, c.now + RetryMs(ReadingFor(sample)))
    ensures RightGate(c, samples, v, id, after, ps,
                      (if sample.Some? then [Sampled(c.record.uid, sample.value)] else []) + t)
  {
    DownloadAppMeans(id.package);
    SlowMeans(samples, c.record.uid, id.package, ReadingFor(sample), c.now);
    if sample.Some? {
      assert ([Sampled(c.record.uid, sample.value)] + t)[1..] == t;
    } else {
      assert [] + t == t;
    }
  }

  lemma SamplingIsRight(c: Context, samples: map<nat, Deferral.Sample>, v: View, turn: Turn)
    requires PlausibleTurn(c, samples, v, turn) && turn.Sampling?
    ensures RightGate(c, samples, Reopening(v, IdOf(c, turn.ps)), IdOf(c, turn.ps), AfterTurn(c, samples, v, turn),
            turn.ps,
                      LaterEvents(c, samples, v, turn))
  {
    var id := IdOf(c, turn.ps);
    assert Entered(v, id) == Reopening(v, id);
    GateIsRight(c, samples, Entered(v, id), id, AfterTurn(c, samples, v, turn), turn.ps, Some(turn.reading), []);
    assert [Sampled(c.record.uid, turn.reading)] + [] == LaterEvents(c, samples, v, turn);
  }

  lemma ActingIsRight(c: Context, samples: map<nat, Deferral.Sample>, v: View, turn: Turn)
    requires Consistent(v) && PlausibleTurn(c, samples, v, turn) && turn.Acting?
    ensures RightGate(c, samples, Reopening(v, IdOf(c, turn.ps)), IdOf(c, turn.ps), AfterTurn(c, samples, v, turn),
            turn.ps,
                      LaterEvents(c, samples, v, turn))
  {
    var id := IdOf(c, turn.ps);
    assert Entered(v, id) == Reopening(v, id);
    EnteredReady(c, v, turn.ps);
    ActionIsRight(c, Entered(v, id), id, turn.ps, turn.act);
    GateIsRight(c, samples, Entered(v, id), id, AfterTurn(c, samples, v, turn), turn.ps, turn.sample,
                ActEvents(turn.ps, id, Entered(v, id), turn.act));
  }

  lemma RestingIsRight(c: Context, samples: map<nat, Deferral.Sample>, v: View, ps: seq<Process>)
    requires Consistent(v) && PlausibleTurn(c, samples, v, Resting(ps))
    ensures RightBatch(c, samples, v, Unblocked(v, IdOf(c, ps)), ps, [])
  {
    GatesMean(c, v, ps);
  }

  lemma DelayedIsRight(c: Context, samples: map<nat, Deferral.Sample>, v: View, ps: seq<Process>, after: View)
    requires Considered(c, v, ps) && c.record.uid !in c.foreground && IdOf(c, ps) !in v.frozen && !TimeIsUp(c, v, ps)
    requires after == if IdOf(c, ps) in v.pending then Unblocked(v, IdOf(c, ps))
                      else Pended(Unblocked(v, IdOf(c, ps)), IdOf(c, ps), c.now + DelayMs(c.record, c.settings))
    ensures RightBatch(c, samples, v, after, ps, [])
  {
    GatesMean(c, v, ps);
  }

  lemma GatedBatchIsRight(c: Context, samples: map<nat, Deferral.Sample>, v: View, ps: seq<Process>, after: View,
                          t: seq<Event>)
    requires Considered(c, v, ps) && c.record.uid !in c.foreground && Reopened(c, v, ps) && TimeIsUp(c, v, ps)
    requires RightGate(c, samples, Reopening(v, IdOf(c, ps)), IdOf(c, ps), after, ps, t)
    ensures RightBatch(c, samples, v, after, ps, t)
  {
    GatesMean(c, v, ps);
  }

  lemma GatedTurnIsRight(c: Context, samples: map<nat, Deferral.Sample>, v: View, turn: Turn)
    requires Consistent(v) && PlausibleTurn(c, samples, v, turn) && (turn.Sampling? || turn.Acting?)
    ensures RightBatch(c, samples, v, AfterTurn(c, samples, v, turn), turn.ps, LaterEvents(c, samples, v, turn))
  {
    if turn.Sampling? { SamplingIsRight(c, samples, v, turn); } else { ActingIsRight(c, samples, v, turn); }
    GatedBatchIsRight(c, samples, v, turn.ps, AfterTurn(c, samples, v, turn), LaterEvents(c, samples, v, turn));
  }

  lemma IdleTurnIsRight(c: Context, samples: map<nat, Deferral.Sample>, v: View, turn: Turn)
    requires Consistent(v) && PlausibleTurn(c, samples, v, turn)
    requires turn.Resting? || turn.Waiting? || turn.Scheduled?
    ensures RightBatch(c, samples, v, AfterTurn(c, samples, v, turn), turn.ps, LaterEvents(c, samples, v, turn))
  {
    if turn.Resting? {
      RestingIsRight(c, samples, v, turn.ps);
    } else {
      DelayedIsRight(c, samples, v, turn.ps, AfterTurn(c, samples, v, turn));
    }
  }

  lemma BarredTurnIsRight(c: Context, samples: map<nat, Deferral.Sample>, v: View, turn: Turn)
    requires Consistent(v) && PlausibleTurn(c, samples, v, turn) && (turn.Barred? || turn.Ignored?)
    ensures RightBatch(c, samples, v, AfterTurn(c, samples, v, turn), turn.ps, LaterEvents(c, samples, v, turn))
  {
    GatesMean(c, v, turn.ps);
    if turn.Barred? {
      BarredIsRight(c, v, turn.ids, turn.thaws);
    }
  }

  lemma LaterIsRight(c: Context, samples: map<nat, Deferral.Sample>, v: View, turn: Turn)
    requires Consistent(v) && PlausibleTurn(c, samples, v, turn) && !turn.Missing? && !turn.Gone?
    ensures turn.ps != []
    ensures RightBatch(c, samples, v, AfterTurn(c, samples, v, turn), turn.ps, LaterEvents(c, samples, v, turn))
  {
    match turn
    case Barred(_, _, _) => BarredTurnIsRight(c, samples, v, turn);
    case Ignored(_) => BarredTurnIsRight(c, samples, v, turn);
    case AtFront(_, _) => FrontTurnIsRight(c, samples, v, turn);
    case Awakened(_, _) => WakeUpTurnIsRight(c, samples, v, turn);
    case Sampling(_, _) => GatedTurnIsRight(c, samples, v, turn);
    case Acting(_, _, _) => GatedTurnIsRight(c, samples, v, turn);
    case _ => IdleTurnIsRight(c, samples, v, turn);
  }

  /** Every possible turn of a record is right. */
  lemma TurnIsRight(c: Context, samples: map<nat, Deferral.Sample>, v: View, turn: Turn)
    requires Consistent(v) && PlausibleTurn(c, samples, v, turn)
    ensures RightTurn(c, samples, v, AfterTurn(c, samples, v, turn), TurnEvents(c, samples, v, turn))
  {
    var t := TurnEvents(c, samples, v, turn);
    assert t[0] == Discovered(c.record.uid, FoundIn(turn)) && t[1..] == LaterEvents(c, samples, v, turn);
    if !turn.Missing? && !turn.Gone? {
      LaterIsRight(c, samples, v, turn);
    }
  }

  function FirstSample(t: seq<Event>): Option<RxSample> {
    if t != [] && t[0].Sampled? then Some(t[0].sample) else None
  }

  lemma SamplesAreRight(c: Context, samples: map<nat, Deferral.Sample>, v: View, turn: Turn)
    requires PlausibleTurn(c, samples, v, turn)
    ensures RightSamples(c, TurnEvents(c, samples, v, turn), TurnHappenings(c, turn))
  {
    if turn.Missing? || turn.Gone? {
    } else {
      LaterSampled(c, samples, v, turn);
      HappeningsAreRight(c, samples, v, turn, LaterEvents(c, samples, v, turn));
    }
  }

  lemma HappeningsAreRight(c: Context, samples: map<nat, Deferral.Sample>, v: View, turn: Turn, t: seq<Event>)
    requires PlausibleTurn(c, samples, v, turn) && !turn.Missing? && !turn.Gone?
    requires FirstSample(t) == if turn.Sampling? then Some(turn.reading) else if turn.Acting? then turn.sample else None
    ensures RightSamples(c, [Discovered(c.record.uid, Some(turn.ps))] + t, TurnHappenings(c, turn))
  {
    var all := [Discovered(c.record.uid, Some(turn.ps))] + t;
    assert t != [] ==> all[1] == t[0];
    GatesMean(c, v, turn.ps);
    DownloadAppMeans(MinPackage(turn.ps));
    if turn.Sampling? || turn.Acting? {
      assert TurnHappenings(c, turn)
          == [Deferral.Evaluated(c.record.uid, MinPackage(turn.ps),
                                 if turn.Sampling? then turn.reading else ReadingFor(turn.sample), c.now)];
    }
  }

  /** The first call after the discovery is a sample exactly in a turn that reaches the gate with a candidate. */
  lemma LaterSampled(c: Context, samples: map<nat, Deferral.Sample>, v: View, turn: Turn)
    requires PlausibleTurn(c, samples, v, turn) && !turn.Missing? && !turn.Gone?
    ensures FirstSample(LaterEvents(c, samples, v, turn))
         == if turn.Sampling? then Some(turn.reading) else if turn.Acting? then turn.sample else None
  {
    if turn.Acting? {
      ActingSampled(c, samples, v, turn);
    } else if turn.Barred? || turn.AtFront? || turn.Awakened? {
      ThawingSampled(c, samples, v, turn);
    }
  }

  lemma ThawingSampled(c: Context, samples: map<nat, Deferral.Sample>, v: View, turn: Turn)
    requires PlausibleTurn(c, samples, v, turn) && (turn.Barred? || turn.AtFront? || turn.Awakened?)
    ensures FirstSample(LaterEvents(c, samples, v, turn)) == None
  {
    match turn
    case Barred(_, ids, thaws) => ThawsOnlyThaw(WithoutTransient(v, c.record.uid), ids, thaws);
    case AtFront(ps, undos) => UnfreezeOnlyThaws(ps, Owner(v, IdOf(c, ps)) == SignalOnly, undos);
    case Awakened(ps, undos) => UnfreezeOnlyThaws(ps, Owner(v, IdOf(c, ps)) == SignalOnly, undos);
  }

  lemma ActingSampled(c: Context, samples: map<nat, Deferral.Sample>, v: View, turn: Turn)
    requires PlausibleTurn(c, samples, v, turn) && turn.Acting?
    ensures FirstSample(LaterEvents(c, samples, v, turn)) == turn.sample
  {
    var id := IdOf(c, turn.ps);
    ActDoesNotSample(turn.ps, id, Entered(v, id), turn.act);
    SampledFirst(c.record.uid, turn.sample, ActEvents(turn.ps, id, Entered(v, id), turn.act));
  }

  lemma SampledFirst(uid: nat, sample: Option<RxSample>, t: seq<Event>)
    requires t != [] ==> !t[0].Sampled?
    ensures FirstSample((if sample.Some? then [Sampled(uid, sample.value)] else []) + t) == sample
  {
  }

  lemma ActDoesNotSample(ps: seq<Process>, id: Identity, v: View, act: Act)
    requires ps != [] && PlausibleAct(ps, id, v, act)
    ensures var t := ActEvents(ps, id, v, act); t != [] ==> !t[0].Sampled?
  {
    match act
    case Held =>
    case FellBack(first, _) => StoryChecksFirst(ps, false, first);
    case Lost => StoryChecksFirst(ps, false, Completed);
    case Rescanned(_, _) => StoryChecksFirst(ps, false, Completed);
    case Signalled(story, ledger, _) =>
      StoryChecksFirst(ps, true, story);
      var t := ActEvents(ps, id, v, act);
      assert if ledger == [] then t[0] == Events(PendingBatch(ps), true, story)[0] else t[0] == ledger[0];
    case Killed(kill) => KillIsShown(ps, kill);
  }

  // ---- Sweeps and disabling

  /** Due times and blocked signatures of the given UIDs only. */
  function Pruned(v: View, uids: set<nat>): View {
    v.(pending := map id | id in v.pending && id.uid in uids :: v.pending[id],
       blocked := map id | id in v.blocked && id.uid in uids :: v.blocked[id])
  }

  lemma SweptView(v: View, gone: set<Identity>, uids: set<nat>)
    requires Consistent(v) && gone <= v.frozen && forall id :: id in gone ==> id.uid !in uids
    ensures var left, u := v.frozen - gone, Thinned(Pruned(v, uids), gone);
            u.(ownership := map id | id in u.ownership && (id in u.frozen || id.uid in uids) :: u.ownership[id])
            == View(left,
                    map id | id in v.since && id in left :: v.since[id],
                    map id | id in v.ownership && (id.uid in uids || id in left) :: v.ownership[id],
                    map id | id in v.pending && id.uid in uids :: v.pending[id],
                    map id | id in v.blocked && id.uid in uids :: v.blocked[id])
  {
  }

  lemma {:induction false} SweepIsRight(uids: set<nat>, v: View, ids: seq<Identity>, thaws: seq<Thaw>)
    requires Consistent(v) && PlausibleThaws(ids, thaws) && Listing(ids, set id | id in v.frozen && id.uid !in uids)
    ensures var u := AfterThaws(Pruned(v, uids), ids, thaws);
            RightSweep(uids, v, u.(ownership := map id | id in u.ownership && (id in u.frozen || id.uid in uids)
                                                :: u.ownership[id]), ThawsEvents(Pruned(v, uids), ids, thaws))
  {
    var gone, mine := CleanOnes(ids, thaws), set id | id in v.frozen && id.uid !in uids;
    ThawsTryEach(v, Pruned(v, uids), ids, thaws, mine);
    ThawsClearExactlyClean(Pruned(v, uids), ids, thaws);
    forall id | id in gone ensures id in mine { assert id in ids; }
    SweptView(v, gone, uids);
    assert AfterThaws(Pruned(v, uids), ids, thaws) == Thinned(Pruned(v, uids), gone);
  }

  lemma {:induction false} DisablingIsRight(v: View, ids: seq<Identity>, thaws: seq<Thaw>)
    requires Consistent(v) && PlausibleThaws(ids, thaws) && Listing(ids, v.frozen)
    ensures RightDisabling(v, AfterThawAll(v, CleanOnes(ids, thaws)), ThawsEvents(v, ids, thaws))
  {
    ThawsTryEach(v, v, ids, thaws, v.frozen);
    ThawsClearExactlyClean(v, ids, thaws);
    DisabledView(v, CleanOnes(ids, thaws));
  }

  lemma DisabledView(v: View, gone: set<Identity>)
    requires Consistent(v)
    ensures var left := v.frozen - gone;
            AfterThawAll(v, gone)
            == View(left, map id | id in v.since && id in left :: v.since[id],
                    map id | id in v.ownership && id in left :: v.ownership[id], map[], map[])
  {
  }

  // ---- What a right turn shows of its backend

  lemma AttemptShows(t: seq<Event>, ps: seq<Process>, signal: bool, e: Event)
    requires Attempted(t, ps, signal) && e in t && e.Froze?
    ensures exists i :: 0 <= i < |ps| && e.p == StopTarget(ps[i], signal)
  {
    var k :| 0 <= k < |t| && t[k] == e;
  }

  lemma StopShows(c: Context, v: View, id: Identity, after: View, ps: seq<Process>, t: seq<Event>, e: Event)
    requires RightStop(c, v, id, after, ps, t) && e in t && Harmful(e)
    ensures e.Froze? && e.p.cgroup.None?
  {
    var r, a, promos :| t == r + a + promos && StopParts(c, v, id, after, ps, r, a, promos);
    assert e in a;
    AttemptShows(a, ps, true, e);
  }

  lemma FreezeShows(c: Context, v: View, id: Identity, after: View, ps: seq<Process>, t: seq<Event>, e: Event)
    requires RightFreeze(c, v, id, after, ps, t) && e in t
    ensures !e.Terminated?
  {
    var a, b :| t == a + b && FreezeParts(c, v, id, after, ps, a, b);
    if e.Terminated? {
      assert e in b;
      var k :| 0 <= k < |b| && b[k] == e;
      assert k > 0 && b[1..][k - 1] == e;
      ThawIsHarmless(b[1..], e);
    }
  }

  lemma ThawIsHarmless(t: seq<Event>, e: Event)
    requires e in t && forall i :: 0 <= i < |t| ==> ThawCall(t, i)
    ensures !Harmful(e)
  {
    var k :| 0 <= k < |t| && t[k] == e;
    assert ThawCall(t, k);
  }

  lemma ActionShows(c: Context, v: View, id: Identity, after: View, ps: seq<Process>, t: seq<Event>, e: Event)
    requires RightAction(c, v, id, after, ps, t) && c.record.mode in {10, 20, 21, 30, 31} && e in t && Harmful(e)
    ensures BackendFits(c, ps, e)
  {
    if c.record.mode == 10 {
      var k :| 0 <= k < |t| && t[k] == e;
    } else if c.record.mode in {20, 21} || Chosen(c, 5) == 2 {
      StopShows(c, v, id, after, ps, t, e);
    } else if c.binder && forall i :: 0 <= i < |ps| ==> ps[i].cgroup.Some? {
      FreezeShows(c, v, id, after, ps, t, e);
    } else {
      StopShows(c, v, id, after, ps, t, e);
    }
  }

  /** In a right turn every freeze and kill uses the backend its record, its batch and the device call for. */
  lemma RightTurnShows(c: Context, samples: map<nat, Deferral.Sample>, v: View, after: View, t: seq<Event>, e: Event)
    requires RightTurn(c, samples, v, after, t) && e in t && Harmful(e)
    ensures t[0].found.Some? && BackendFits(c, t[0].found.value, e)
  {
    var k :| 0 <= k < |t| && t[k] == e;
    var ps := t[0].found.value;
    assert k > 0 && t[1..][k - 1] == e;
    BatchShows(c, samples, v, after, ps, t[1..], e);
  }

  lemma BatchShows(c: Context, samples: map<nat, Deferral.Sample>, v: View, after: View, ps: seq<Process>,
                   t: seq<Event>, e: Event)
    requires ps != [] && RightBatch(c, samples, v, after, ps, t) && e in t && Harmful(e)
    ensures BackendFits(c, ps, e)
  {
    var id := Identity(MinPackage(ps), c.record.uid);
    var k :| 0 <= k < |t| && t[k] == e;
    if (id in v.frozen && Oversleeps(c, v, id)) || c.record.uid in c.foreground {
      assert forall i :: 0 <= i < |t| ==> ThawCall(t, i);
      ThawIsHarmless(t, e);
    } else {
      var u := Reopening(v, id);
      assert RightGate(c, samples, u, id, after, ps, t);
      if DownloadApp(id.package) {
        assert t[1..][k - 1] == e;
        ActionShows(c, u, id, after, ps, t[1..], e);
      } else {
        ActionShows(c, u, id, after, ps, t, e);
      }
    }
  }
}
