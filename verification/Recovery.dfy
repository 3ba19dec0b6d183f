/**
  Signals that keep the persistent ledger in step with the kernel, and the recovery of one process after the
  daemon restarted. The ledger here is the real two-file one.
 */
module Recovery {
  import opened Domain
  import opened Ledger
  import opened LedgerTheorems

  /** A call made about the process, with whether it succeeded. */
  datatype Act =
    | Checked(ok: bool)
    | CgroupThawed(ok: bool)
    | BinderUnfrozen(ok: bool)
    | Stopped(ok: bool)
    | Continued(ok: bool)

  /** A look at the process or its cgroup, with whether it succeeded. */
  datatype Reading = State(ok: bool) | StartTime(ok: bool) | CgroupState(ok: bool)

  datatype Failure = IdentityFailed | CgroupThawFailed | BinderUnfreezeFailed | ContinueFailed

  datatype RecoveryOutcome = RecoveryOutcome(cgroupThawed: bool, signalResumed: bool, failures: seq<Failure>)

  /** Every call but the identity check itself directly follows an identity check that succeeded. */
  predicate CheckedFirst(acts: seq<Act>) {
    forall i :: 0 <= i < |acts| && !acts[i].Checked? ==> i > 0 && acts[i - 1] == Checked(true)
  }

  /** The ledger owns a stop and the cgroup was seen thawed: only SIGCONT is needed. */
  predicate SignalOnlyRecovery(owner: Option<Ownership>, observedThawed: bool) {
    owner == Some(SignalOnly) && observedThawed
  }

  /** One process, the kernel's view of it, and the ledger on disk. */
  class Device {
    const pid: int
    const key: Key
    const store: Store
    var cgroupFrozen: bool
    var binderFrozen: bool
    var stopped: bool
    ghost var acts: seq<Act>
    ghost var readings: seq<Reading>

    constructor (pid: int, start: nat, store: Store, cgroupFrozen: bool, binderFrozen: bool, stopped: bool)
      ensures this.pid == pid && key == Key(pid, start) && this.store == store && acts == [] && readings == []
      ensures this.cgroupFrozen == cgroupFrozen && this.binderFrozen == binderFrozen && this.stopped == stopped
    {
      this.pid, this.key, this.store := pid, Key(pid, start), store;
      this.cgroupFrozen, this.binderFrozen, this.stopped := cgroupFrozen, binderFrozen, stopped;
      acts, readings := [], [];
    }

    /** No access to the ledger from this one on, and no reading from that one on, has failed. */
    ghost predicate Smooth(from: nat, since: nat)
      reads this, store
    {
      && (forall i :: from <= i < |store.accesses| ==> !Broke(store.accesses[i]))
      && (forall i :: since <= i < |readings| ==> readings[i].ok)
    }

    /** What the ledger says of this process. */
    function Entry(): Option<Ownership>
      reads this, store
    {
      Report(store.disk, key)
    }

    method Kill(stop: bool) returns (ok: bool)
      modifies this`stopped, this`acts
      ensures stopped == if ok then stop else old(stopped)
      ensures acts == old(acts) + [if stop then Stopped(ok) else Continued(ok)]
    {
      ok := *;
      if ok { stopped := stop; }
      acts := acts + [if stop then Stopped(ok) else Continued(ok)];
    }

    method ReadStartTime() returns (ok: bool)
      modifies this`readings
      ensures readings == old(readings) + [StartTime(ok)]
    {
      ok := *;
      readings := readings + [StartTime(ok)];
    }

    /** Records the stop; reading the start time may fail as well. */
    method RecordInLedger() returns (ok: bool)
      modifies store, this`readings
      ensures old(store.accesses) <= store.accesses && old(readings) <= readings
      ensures Smooth(old(|store.accesses|), old(|readings|)) ==> ok
      ensures ok ==> Entry() == Some(ResidualUnknown)
      ensures !ok ==>
              Entry() == old(Entry()) || Entry() == Some(ResidualUnknown) || (old(Entry()) == None && Entry() == None)
      ensures forall x :: x != key ==> WeakerOrSame(Report(store.disk, x), Report(old(store.disk), x))
    {
      ok := ReadStartTime();
      if !ok {
        assert readings[old(|readings|)] == StartTime(false);
        return;
      }
      ghost var d := store.disk;
      ghost var f, g;
      ok, f, g := store.RecordStop(key);
      RecordEnds(d, key, f, g);
      SmoothPart(old(store.accesses), UpdateCalls(d, key, f));
      RecordSpares(d, f, g);
    }

    lemma RecordSpares(d: Disk, f: Faults, g: nat)
      ensures forall x :: x != key ==> WeakerOrSame(Report(Last(d, Record(d, key, f, g).states), x), Report(d, x))
    {
      var t := Record(d, key, f, g);
      forall x: Key ensures t.states != [] && x != key ==> WeakerOrSame(Report(Last(d, t.states), x), Report(d, x)) {
        if t.states != [] { RecordOnlyWeakens(d, key, f, g, x, |t.states| - 1); }
      }
    }

    method TakeFromLedger() returns (answer: Answer)
      modifies store, this`readings
      ensures old(store.accesses) <= store.accesses && old(readings) <= readings
      ensures Smooth(old(|store.accesses|), old(|readings|)) ==> answer.Done?
      ensures answer.Done? ==> Entry() == None && answer.yes == old(Entry()).Some?
      ensures answer.Failed? ==>
              Entry() == old(Entry()) || Entry() == None || (old(Entry()).Some? && Entry() == Some(ResidualUnknown))
      ensures forall x :: x != key ==> WeakerOrSame(Report(store.disk, x), Report(old(store.disk), x))
    {
      var ok := ReadStartTime();
      if !ok {
        assert readings[old(|readings|)] == StartTime(false);
        return Failed;
      }
      ghost var d := store.disk;
      ghost var f, g;
      answer, f, g := store.TakeStop(key);
      TakeEnds(d, key, f, g);
      SmoothPart(old(store.accesses), UpdateCalls(d, key, f));
      TakeSpares(d, f, g);
    }

    lemma TakeSpares(d: Disk, f: Faults, g: nat)
      ensures forall x :: x != key ==> WeakerOrSame(Report(Last(d, Take(d, key, f, g).states), x), Report(d, x))
    {
      var t := Take(d, key, f, g);
      forall x: Key ensures t.states != [] && x != key ==> WeakerOrSame(Report(Last(d, t.states), x), Report(d, x)) {
        if t.states != [] { TakeOnlyWeakens(d, key, f, g, x, |t.states| - 1); }
      }
    }

    /**
      `send_signal` with Stop: a stop that reports success is on record, and one that does not was taken back if
      possible. Only a signal that failed, or a failed access, keeps it from succeeding.
     */
    method SendStop() returns (ok: bool)
      modifies this`stopped, this`acts, this`readings, store
      ensures old(store.accesses) <= store.accesses && old(readings) <= readings
      ensures ok ==> stopped && Entry() == Some(ResidualUnknown) && acts == old(acts) + [Stopped(true)]
      ensures !ok && acts == old(acts) ==> pid <= 0 && stopped == old(stopped)
      ensures !ok && acts != old(acts) ==>
                || (acts == old(acts) + [Stopped(false)] && stopped == old(stopped) && store.disk == old(store.disk))
                || acts == old(acts) + [Stopped(true), Continued(!stopped)]
      ensures !ok && acts != old(acts) && Smooth(old(|store.accesses|), old(|readings|)) ==>
                acts == old(acts) + [Stopped(false)]
      ensures forall x :: x != key ==> WeakerOrSame(Report(store.disk, x), Report(old(store.disk), x))
    {
      if pid <= 0 { return false; }
      ok := Kill(true);
      if !ok { return; }
      ok := RecordInLedger();
      if !ok {
        var undone := Kill(false);
        assert acts == old(acts) + [Stopped(true), Continued(undone)];
      }
    }

    /** `send_signal` with Continue: the entry is taken first, and put back if the signal fails. */
    method SendContinue() returns (ok: bool)
      modifies this`stopped, this`acts, this`readings, store
      ensures old(store.accesses) <= store.accesses && old(readings) <= readings
      ensures ok ==> !stopped && Entry() == None && acts == old(acts) + [Continued(true)]
      ensures !ok ==> stopped == old(stopped) && (acts == old(acts) || acts == old(acts) + [Continued(false)])
      ensures !ok && acts == old(acts) ==> pid <= 0 || !Smooth(old(|store.accesses|), old(|readings|))
      ensures !ok && acts != old(acts) ==>
              Entry() == None || (old(Entry()).Some? && Entry() == Some(ResidualUnknown))
      ensures !ok && acts != old(acts) && Smooth(old(|store.accesses|), old(|readings|)) ==>
              Entry() == if old(Entry()).Some? then Some(ResidualUnknown) else None
      ensures Entry() == old(Entry()) || Entry() != Some(SignalOnly)
    {
      if pid <= 0 { return false; }
      var taken := TakeFromLedger();
      if taken.Failed? { return false; }
      ok := Kill(false);
      if !ok && taken.yes {
        var put := RecordInLedger();
      }
    }

    method Validate() returns (ok: bool)
      modifies this`acts
      ensures acts == old(acts) + [Checked(ok)]
    {
      ok := *;
      acts := acts + [Checked(ok)];
    }

    method ThawCgroup() returns (ok: bool)
      modifies this`cgroupFrozen, this`acts
      ensures ok ==> !cgroupFrozen
      ensures !ok ==> cgroupFrozen == old(cgroupFrozen)
      ensures acts == old(acts) + [CgroupThawed(ok)]
    {
      ok := *;
      if ok { cgroupFrozen := false; }
      acts := acts + [CgroupThawed(ok)];
    }

    method UnfreezeBinder() returns (ok: bool)
      modifies this`binderFrozen, this`acts
      ensures ok ==> !binderFrozen
      ensures !ok ==> binderFrozen == old(binderFrozen)
      ensures acts == old(acts) + [BinderUnfrozen(ok)]
    {
      ok := *;
      if ok { binderFrozen := false; }
      acts := acts + [BinderUnfrozen(ok)];
    }

    /** The cgroup half of the recovery; `go` says whether to go on to the signal. */
    method ReleaseCgroup() returns (go: bool, outcome: RecoveryOutcome, ghost made: seq<Act>)
      modifies this`cgroupFrozen, this`binderFrozen, this`acts
      ensures acts == old(acts) + made && CheckedFirst(made) && forall a :: a in made ==> !a.Continued? && !a.Stopped?
      ensures !outcome.signalResumed && (go <==> IdentityFailed !in outcome.failures)
      ensures outcome.cgroupThawed == (CgroupThawed(true) in made)
      ensures outcome.failures == []
              <==> made == [Checked(true), CgroupThawed(true), Checked(true), BinderUnfrozen(true)]
      ensures AllSucceed(made) ==> outcome.failures == []
      ensures outcome.failures == [] ==> !cgroupFrozen && !binderFrozen
      ensures (cgroupFrozen ==> old(cgroupFrozen)) && (binderFrozen ==> old(binderFrozen))
    {
      made, outcome := [], RecoveryOutcome(false, false, []);
      var ok := Validate();
      made := [Checked(ok)];
      assert made[0] == Checked(ok);
      if !ok { return false, outcome.(failures := [IdentityFailed]), made; }
      var thawed := ThawCgroup();
      made := [Checked(true), CgroupThawed(thawed)];
      outcome := RecoveryOutcome(thawed, false, if thawed then [] else [CgroupThawFailed]);
      ok := Validate();
      made := [Checked(true), CgroupThawed(thawed), Checked(ok)];
      assert made[1] == CgroupThawed(thawed) && made[2] == Checked(ok);
      if !ok { return false, outcome.(failures := outcome.failures + [IdentityFailed]), made; }
      var unfrozen := UnfreezeBinder();
      made := [Checked(true), CgroupThawed(thawed), Checked(true), BinderUnfrozen(unfrozen)];
      assert made[1] == CgroupThawed(thawed) && made[3] == BinderUnfrozen(unfrozen);
      if !unfrozen { outcome := outcome.(failures := outcome.failures + [BinderUnfreezeFailed]); }
      go := true;
    }

    method ReleaseSignal(before: RecoveryOutcome) returns (outcome: RecoveryOutcome, ghost made: seq<Act>)
      requires !before.signalResumed
      modifies this`stopped, this`acts, this`readings, store
      ensures old(store.accesses) <= store.accesses && old(readings) <= readings
      ensures acts == old(acts) + made && CheckedFirst(made)
      ensures AllSucceed(made) && pid > 0 && Smooth(old(|store.accesses|), old(|readings|)) ==> outcome.signalResumed
      ensures outcome.cgroupThawed == before.cgroupThawed && outcome.signalResumed == (Continued(true) in made)
      ensures outcome.failures == before.failures <==> outcome.signalResumed
      ensures forall a :: a in made ==> !a.CgroupThawed?
      ensures before.failures <= outcome.failures
      ensures outcome.signalResumed ==> !stopped && Entry() == None
      ensures !outcome.signalResumed ==> stopped == old(stopped)
    {
      made, outcome := [], before;
      var ok := Validate();
      made := [Checked(ok)];
      assert made[0] == Checked(ok);
      if !ok { return outcome.(failures := outcome.failures + [IdentityFailed]), made; }
      ghost var here := acts;
      ok := SendContinue();
      if ok {
        outcome := outcome.(signalResumed := true);
      } else {
        outcome := outcome.(failures := outcome.failures + [ContinueFailed]);
      }
      made := if acts == here then made else [Checked(true), Continued(ok)];
      assert acts != here ==> made[1] == Continued(ok);
    }

    /**
      `recover_process_after_restart`. With no failure reported, what was frozen or stopped by the daemon is
      released, except that without a cgroup path, and in a signal-only recovery, nothing but the signal is undone.
     */
    method Recover(path: bool, owner: Option<Ownership>, observedThawed: bool)
      returns (outcome: RecoveryOutcome, ghost made: seq<Act>)
      modifies this`cgroupFrozen, this`binderFrozen, this`stopped, this`acts, this`readings, store
      ensures old(store.accesses) <= store.accesses && old(readings) <= readings
      ensures acts == old(acts) + made && CheckedFirst(made)
      ensures AllSucceed(made) && pid > 0 && Smooth(old(|store.accesses|), old(|readings|)) ==> outcome.failures == []
      ensures owner.None? ==>
              && (forall a :: a in made ==> !a.Continued?) && stopped == old(stopped) && store.disk == old(store.disk)
              && store.accesses == old(store.accesses)
      ensures !path || SignalOnlyRecovery(owner, observedThawed) ==>
                cgroupFrozen == old(cgroupFrozen) && binderFrozen == old(binderFrozen)
      ensures outcome.failures == [] && owner.Some? ==> !stopped && Entry() == None && outcome.signalResumed
      ensures outcome.failures == [] ==>
                && (binderFrozen <==> old(binderFrozen) && (!path || SignalOnlyRecovery(owner, observedThawed)))
                && (cgroupFrozen <==> old(cgroupFrozen) && (!path || SignalOnlyRecovery(owner, observedThawed)))
      ensures (cgroupFrozen ==> old(cgroupFrozen)) && (binderFrozen ==> old(binderFrozen)) && (stopped ==> old(stopped))
      ensures outcome.cgroupThawed == (CgroupThawed(true) in made) && outcome.signalResumed == (Continued(true) in made)
    {
      outcome, made := RecoveryOutcome(false, false, []), [];
      if path && !SignalOnlyRecovery(owner, observedThawed) {
        var go;
        go, outcome, made := ReleaseCgroup();
        if !go { return; }
      } else if owner.None? {
        return;
      }
      if owner.Some? {
        ghost var front, tail := made, [];
        outcome, tail := ReleaseSignal(outcome);
        made := front + tail;
        SucceedParts(front, tail);
      }
    }

    method ReadState() returns (ok: bool)
      modifies this`readings
      ensures readings == old(readings) + [State(ok)]
    {
      ok := *;
      readings := readings + [State(ok)];
    }

    method CgroupSeenThawed() returns (thawed: bool)
      modifies this`readings
      ensures exists ok :: readings == old(readings) + [CgroupState(ok)] && thawed == (ok && !cgroupFrozen)
    {
      var ok := *;
      readings := readings + [CgroupState(ok)];
      thawed := ok && !cgroupFrozen;
    }

    /** Whom a stopped process belongs to by the ledger. What cannot be read counts as no information. */
    method AskLedger() returns (owner: Option<Ownership>)
      modifies this`readings, store`accesses
      ensures old(store.accesses) <= store.accesses && old(readings) <= readings
      ensures |readings| == |old(readings)| + 1 && readings[|old(readings)|].State?
      ensures stopped && readings[|old(readings)|].ok ==>
                |store.accesses| > |old(store.accesses)| && store.accesses[|old(store.accesses)|].ReadingMain?
      ensures !stopped ==> owner == None && store.accesses == old(store.accesses)
      ensures stopped && owner.Some? ==> WeakerOrSame(owner, Entry())
      ensures stopped && Smooth(old(|store.accesses|), old(|readings|)) ==> owner == Entry()
    {
      owner := None;
      var seen := ReadState();
      assert readings[|old(readings)|] == State(seen);
      if seen && stopped {
        var ok, read;
        ghost var calls;
        ok, read, calls := store.RecordedOwnership(key);
        SmoothPart(old(store.accesses), calls);
        if ok { owner := read; }
      }
    }

    /**
      One round of `recover_stopped_managed_processes_after_restart`: ownership is asked of every stopped process and of
      no other.
     */
    method RecoverAfterRestart(path: bool) returns (outcome: RecoveryOutcome, ghost made: seq<Act>)
      modifies this`cgroupFrozen, this`binderFrozen, this`stopped, this`acts, this`readings, store
      ensures acts == old(acts) + made && CheckedFirst(made)
      ensures old(store.accesses) <= store.accesses && old(readings) <= readings
      // The process is looked at, and the ledger read if it is seen stopped.
      ensures |readings| > |old(readings)| && readings[|old(readings)|].State?
      ensures old(stopped) && readings[|old(readings)|].ok ==>
                |store.accesses| > |old(store.accesses)| && store.accesses[|old(store.accesses)|].ReadingMain?
      ensures !old(stopped) ==> store.accesses == old(store.accesses)
      // SIGCONT only goes to a stop that is on record.
      ensures (exists a :: a in made && a.Continued?) ==> old(stopped) && old(Entry()).Some?
      // A recorded stop is resumed and its entry gone, if no access failed and no failure is reported.
      ensures Smooth(old(|store.accesses|), old(|readings|)) && old(stopped) && old(Entry()).Some? ==>
              outcome.failures == [] ==> !stopped && Entry() == None && Continued(true) in made
      // A failure is reported only if an access or a call failed.
      ensures Smooth(old(|store.accesses|), old(|readings|)) && AllSucceed(made) && pid > 0 ==> outcome.failures == []
      // With a cgroup path and nothing failed, a stop whose SignalOnly mark is truthful leaves nothing frozen.
      ensures path && outcome.failures == []
              && (old(stopped) && old(Entry()) == Some(SignalOnly) ==> !old(binderFrozen)) ==>
                !cgroupFrozen && !binderFrozen
      // Without a cgroup path neither freezer is touched.
      ensures !path ==> cgroupFrozen == old(cgroupFrozen) && binderFrozen == old(binderFrozen)
    {
      var owner := AskLedger();
      var observedThawed := false;
      if path { observedThawed := CgroupSeenThawed(); }
      outcome, made := Recover(path, owner, observedThawed);
    }
  }

  predicate AllSucceed(made: seq<Act>) { forall i :: 0 <= i < |made| ==> made[i].ok }

  lemma SucceedParts(a: seq<Act>, b: seq<Act>)
    ensures AllSucceed(a + b) <==> AllSucceed(a) && AllSucceed(b)
  {
    assert forall i :: 0 <= i < |a| ==> (a + b)[i] == a[i];
    assert forall i :: 0 <= i < |b| ==> (a + b)[|a| + i] == b[i];
  }

  lemma SmoothPart(before: seq<Access>, calls: seq<Access>)
    ensures (forall i :: |before| <= i < |before + calls| ==> !Broke((before + calls)[i])) <==> AllWell(calls)
  {
    assert forall i :: 0 <= i < |calls| ==> (before + calls)[|before| + i] == calls[i];
  }

  lemma RecordEnds(d: Disk, k: Key, f: Faults, generation: nat)
    ensures var t := Record(d, k, f, generation);
            var now := Report(Last(d, t.states), k);
            && (Sound(d, f) ==> t.answer.Done?)
            && (t.answer.Done? ==> now == Some(ResidualUnknown))
            && (t.states != [] ==> now == Some(ResidualUnknown) || (now == None && Report(d, k) == None))
  {
    var t := Record(d, k, f, generation);
    RewriteMeans(d, Keys(Lines(d)) + {k}, Kept(d, f) - {k}, true, f, generation, k);
    if t.states != [] { RecordOnlyWeakens(d, k, f, generation, k, |t.states| - 1); }
  }

  lemma TakeEnds(d: Disk, k: Key, f: Faults, generation: nat)
    ensures var t := Take(d, k, f, generation);
            var now := Report(Last(d, t.states), k);
            && (Sound(d, f) ==> t.answer.Done?)
            && (t.answer.Done? ==> now == None && t.answer.yes == Report(d, k).Some?)
            && (t.states != [] ==> now == None || (now == Some(ResidualUnknown) && Report(d, k).Some?))
  {
    var t := Take(d, k, f, generation);
    RewriteMeans(d, Keys(Lines(d)) - {k}, Kept(d, f) - {k}, k in Keys(Lines(d)), f, generation, k);
    if t.states != [] { TakeOnlyWeakens(d, k, f, generation, k, |t.states| - 1); }
  }
}
