/** What one configuration request keeps: the sync claim, and the agreement of memory and disk. */
module CommitTheorems {
  import opened Domain
  import opened Text
  import opened AppConfig
  import opened ConfigRewrite
  import opened ConfigCommit
  import HookPayload
  import RewriteTheorems

  /** The daemon claims that the hook is in sync only if the hook last took the encoding of what memory holds. */
  predicate SyncHonest(s: Snapshot) {
    s.state.synced ==> EncodeOf(s.state).Some? && s.accepted == EncodeOf(s.state)
  }

  /** The request gets as far as writing or asking the hook. */
  predicate GetsThrough(s: Snapshot, requested: Option<seq<Record>>, a: Answers) {
    && EncodeOf(s.state).Some? && requested.Some?
    && HookPayload.Encode(s.state.settings, Merge(s.state.records, requested.value)).Some?
    && s.state.hasConfigPath && a.readable
    && PlanOf(s, Merge(s.state.records, requested.value)).Some?
  }

  function DiskAfter(s: Snapshot, plan: Plan, w: WriteResult): Disk {
    if plan.payload.None? then s.disk else s.disk.(config := AfterWrite(s.disk.config, plan.payload.value, w))
  }

  /** The write failed, and reading back did not show the new bytes either. */
  predicate WriteLost(s: Snapshot, plan: Plan, a: Answers) {
    plan.payload.Some? && !a.write.Written?
      && !(a.readBack && DiskAfter(s, plan, a.write).config == Some(Utf8(plan.payload.value)))
  }

  predicate WriteUnconfirmed(plan: Plan, a: Answers) { plan.payload.Some? && !a.write.Written? }

  /** How a request that gets through leaves memory, disk and hook. */
  predicate Finished(s: Snapshot, after: seq<Record>, plan: Plan, payload: string, a: Answers, end: Snapshot) {
    if WriteUnconfirmed(plan, a) then
      && !end.state.synced && end.disk == DiskAfter(s, plan, a.write)
      && end.state == (if WriteLost(s, plan, a) then s.state
                       else CommitConfig(s.state, after, plan.tokens)).(synced := false)
    else if a.hook.Took? then
      && end.state == CommitConfig(s.state, after, plan.tokens).(synced := true)
      && end.disk == DiskAfter(s, plan, a.write) && end.accepted == Some(payload)
    else
      && end.state == s.state.(synced := false)
      && end.disk == if a.restore.FailedBefore? then DiskAfter(s, plan, a.write) else s.disk
  }

  lemma HookDecides(s: Snapshot, now: Snapshot, after: seq<Record>, plan: Plan, payload: string, a: Answers)
    requires EncodeOf(s.state).Some? && now.state == s.state && !WriteUnconfirmed(plan, a)
    requires now.disk == DiskAfter(s, plan, a.write)
    ensures Finished(s, after, plan, payload, a, End(now, AskHook(s, now, after, plan.tokens, payload, a)))
    ensures AskHook(s, now, after, plan.tokens, payload, a).states != []
    ensures AskHook(s, now, after, plan.tokens, payload, a).reply == Success <==> a.hook.Took?
  {
    assert a.write.Written? || plan.payload.None?;
    assert now.disk.(config := s.disk.config) == s.disk;
  }

  lemma PersistEnds(s: Snapshot, after: seq<Record>, plan: Plan, payload: string, a: Answers)
    requires EncodeOf(s.state).Some?
    ensures var t := Persist(s, after, plan, payload, a);
            && Finished(s, after, plan, payload, a, End(s, t))
            && (t.reply == Success <==> a.hook.Took? && !WriteUnconfirmed(plan, a))
  {
    if !WriteUnconfirmed(plan, a) {
      HookDecides(s, s.(disk := DiskAfter(s, plan, a.write)), after, plan, payload, a);
    }
  }

  lemma HowItEnds(s: Snapshot, requested: Option<seq<Record>>, a: Answers)
    requires GetsThrough(s, requested, a)
    ensures var after := Merge(s.state.records, requested.value);
            var plan, payload := PlanOf(s, after).value, HookPayload.Encode(s.state.settings, after).value;
            && Finished(s, after, plan, payload, a, End(s, SetAppConfig(s, requested, a)))
            && (SetAppConfig(s, requested, a).reply == Success <==> a.hook.Took? && !WriteUnconfirmed(plan, a))
  {
    var after := Merge(s.state.records, requested.value);
    PersistEnds(s, after, PlanOf(s, after).value, HookPayload.Encode(s.state.settings, after).value, a);
  }

  lemma StoppedEarly(s: Snapshot, requested: Option<seq<Record>>, a: Answers)
    requires !GetsThrough(s, requested, a)
    ensures var end := End(s, SetAppConfig(s, requested, a));
            end == s || end == s.(state := s.state.(synced := false))
    ensures SetAppConfig(s, requested, a).reply != Success
  {
  }

  lemma ConfigKeepsSync(s: Snapshot, requested: Option<seq<Record>>, a: Answers)
    requires SyncHonest(s)
    ensures SyncHonest(End(s, SetAppConfig(s, requested, a)))
  {
    if GetsThrough(s, requested, a) { HowItEnds(s, requested, a); } else { StoppedEarly(s, requested, a); }
  }

  lemma SettingsKeepSync(s: Snapshot, payload: seq<byte>, w: WriteResult, readBack: bool)
    requires SyncHonest(s)
    ensures SyncHonest(End(s, SetSettings(s, payload, w, readBack)))
  {
  }

  /** "success" is replied exactly when the request was committed, is on disk, and the hook confirmed it. */
  lemma SuccessMeansSynced(s: Snapshot, requested: Option<seq<Record>>, a: Answers)
    ensures SetAppConfig(s, requested, a).reply == Success
            <==> GetsThrough(s, requested, a) && a.hook.Took?
                 && !WriteUnconfirmed(PlanOf(s, Merge(s.state.records, requested.value)).value, a)
    ensures SetAppConfig(s, requested, a).reply == Success ==>
              var end := End(s, SetAppConfig(s, requested, a)).state;
              end.synced && end.records == Merge(s.state.records, requested.value) && end.settings == s.state.settings
  {
    if GetsThrough(s, requested, a) {
      var after := Merge(s.state.records, requested.value);
      HowItEnds(s, requested, a);
      FinishedIsAllOrNothing(s, after, PlanOf(s, after).value, HookPayload.Encode(s.state.settings, after).value, a,
                             End(s, SetAppConfig(s, requested, a)));
    } else {
      StoppedEarly(s, requested, a);
    }
  }

  /** A request commits all of its records or none, and the revision moves exactly when the records do. */
  lemma ConfigIsAllOrNothing(s: Snapshot, requested: Option<seq<Record>>, a: Answers)
    ensures var end := End(s, SetAppConfig(s, requested, a)).state;
            && end.settings == s.state.settings
            && (end.records == s.state.records
                || (requested.Some? && end.records == Merge(s.state.records, requested.value)))
            && end.revision == if end.records == s.state.records then s.state.revision
              else (s.state.revision + 1) % 0x1_0000_0000_0000_0000
  {
    if GetsThrough(s, requested, a) {
      var after := Merge(s.state.records, requested.value);
      HowItEnds(s, requested, a);
      FinishedIsAllOrNothing(s, after, PlanOf(s, after).value, HookPayload.Encode(s.state.settings, after).value, a,
                             End(s, SetAppConfig(s, requested, a)));
    } else {
      StoppedEarly(s, requested, a);
    }
  }

  lemma FinishedIsAllOrNothing(s: Snapshot, after: seq<Record>, plan: Plan, payload: string, a: Answers, end: Snapshot)
    requires Finished(s, after, plan, payload, a, end)
    ensures end.state.settings == s.state.settings
            && (end.state.records == s.state.records || end.state.records == after)
    ensures a.hook.Took? && !WriteUnconfirmed(plan, a) ==> end.state.synced && end.state.records == after
    ensures end.state.revision
            == if end.state.records == s.state.records then s.state.revision
              else (s.state.revision + 1) % 0x1_0000_0000_0000_0000
  {
  }

  /**
    A request the hook refuses leaves no trace if both halves of the rollback succeed: disk, records and revision are
    as before, and the hook has been given its old configuration back; only the sync claim is dropped.
   */
  lemma RefusalIsUndone(s: Snapshot, requested: Option<seq<Record>>, a: Answers)
    requires GetsThrough(s, requested, a) && a.hook.Refused? && a.restore.Written? && a.hookBack.Took?
    requires !WriteUnconfirmed(PlanOf(s, Merge(s.state.records, requested.value)).value, a)
    ensures End(s, SetAppConfig(s, requested, a)) == Snapshot(s.state.(synced := false), s.disk, EncodeOf(s.state))
    ensures SetAppConfig(s, requested, a).reply == Failure
  {
    var after := Merge(s.state.records, requested.value);
    RefusedPersistIsUndone(s, after, PlanOf(s, after).value, HookPayload.Encode(s.state.settings, after).value, a);
  }

  lemma RefusedPersistIsUndone(s: Snapshot, after: seq<Record>, plan: Plan, payload: string, a: Answers)
    requires EncodeOf(s.state).Some? && !WriteUnconfirmed(plan, a)
    requires a.hook.Refused? && a.restore.Written? && a.hookBack.Took?
    ensures var t := Persist(s, after, plan, payload, a);
            && End(s, t) == Snapshot(s.state.(synced := false), s.disk, EncodeOf(s.state)) && t.reply == Failure
  {
    var now := s.(disk := DiskAfter(s, plan, a.write));
    var t := AskHook(s, now, after, plan.tokens, payload, a);
    assert now.disk.(config := s.disk.config) == s.disk;
    assert t.states[|t.states| - 1] == Snapshot(s.state.(synced := false), s.disk, EncodeOf(s.state));
  }

  // ---- Memory and disk

  /** Reloading the file with this resolver gives what memory holds. */
  ghost predicate Agrees(s: Snapshot, resolve: Resolver) {
    Loaded(TextOf(s.disk.config), Reading(resolve), s.state.records, s.state.tokens)
  }

  function StoredIn(s: Snapshot): RewriteTheorems.Stored {
    RewriteTheorems.Stored(TextOf(s.disk.config), s.state.records, s.state.tokens)
  }

  /** The request settles every stored line (see `RewriteTheorems.Settled`). */
  predicate Settles(s: Snapshot, requested: seq<Record>, resolve: Resolver) {
    RewriteTheorems.AllSettled(StoredIn(s), requested, Reading(resolve))
  }

  /** The two ways a request leaves the file other than memory: an unreadable late failure, or a failed restore. */
  predicate Diverges(a: Answers) {
    || (a.write.FailedAfter? && !a.readBack)
    || (a.write.Written? && !a.hook.Took? && a.restore.FailedBefore?)
  }

  lemma PlanAgrees(s: Snapshot, resolve: Resolver, requested: seq<Record>)
    requires Agrees(s, resolve) && Honest(resolve) && Settles(s, requested, resolve)
    requires PlanOf(s, Merge(s.state.records, requested)).Some?
    ensures var after := Merge(s.state.records, requested);
            var plan := PlanOf(s, after).value;
            && (plan.payload.Some? ==> Loaded(plan.payload, Reading(resolve), after, plan.tokens))
            && (plan.payload.Some? && after == s.state.records ==> after == [])
            && (plan.payload.None? ==> after == s.state.records
                                       && Loaded(TextOf(s.disk.config), Reading(resolve), after, plan.tokens))
  {
    var records, tokens := s.state.records, s.state.tokens;
    RewriteTheorems.RewriteReloadsExactly(StoredIn(s), requested, resolve);
    assert Within(Within(tokens, Uids(records)), Uids(records)) == Within(tokens, Uids(records));
  }

  /**
    After a request that settles every stored line, whatever failed and whatever the hook answered, the file reloads
    as what memory holds, unless the records changed and the request diverged. That exception is exact.
   */
  lemma DiskFollowsMemory(s: Snapshot, resolve: Resolver, requested: seq<Record>, a: Answers)
    requires Agrees(s, resolve) && Honest(resolve) && Settles(s, requested, resolve)
    ensures Agrees(End(s, SetAppConfig(s, Some(requested), a)), resolve)
            <==> !(GetsThrough(s, Some(requested), a) && Diverges(a)
                   && Merge(s.state.records, requested) != s.state.records)
  {
    if GetsThrough(s, Some(requested), a) {
      var after := Merge(s.state.records, requested);
      HowItEnds(s, Some(requested), a);
      PlanAgrees(s, resolve, requested);
      FinishedAgrees(s, resolve, after, PlanOf(s, after).value, HookPayload.Encode(s.state.settings, after).value, a,
                     End(s, SetAppConfig(s, Some(requested), a)));
    } else {
      StoppedEarly(s, Some(requested), a);
    }
  }

  lemma FinishedAgrees(s: Snapshot, resolve: Resolver, after: seq<Record>, plan: Plan, payload: string, a: Answers,
                       end: Snapshot)
    requires Agrees(s, resolve) && Finished(s, after, plan, payload, a, end)
    requires plan.payload.Some? ==> Loaded(plan.payload, Reading(resolve), after, plan.tokens)
    requires plan.payload.Some? && after == s.state.records ==> after == []
    requires plan.payload.None? ==>
               after == s.state.records && Loaded(TextOf(s.disk.config), Reading(resolve), after, plan.tokens)
    ensures Agrees(end, resolve) <==> !(Diverges(a) && after != s.state.records)
  {
    assert forall tokens :: Within(tokens, Uids([])) == map[];
  }

  /** With distinct UIDs in memory and request every request settles every line, and they stay distinct. */
  lemma DistinctDiskFollows(s: Snapshot, resolve: Resolver, requested: seq<Record>, a: Answers)
    requires Agrees(s, resolve) && Honest(resolve) && Distinct(s.state.records) && Distinct(requested)
    ensures Settles(s, requested, resolve) && Distinct(End(s, SetAppConfig(s, Some(requested), a)).state.records)
  {
    RewriteTheorems.DistinctSettles(StoredIn(s), requested, resolve);
    ConfigIsAllOrNothing(s, Some(requested), a);
    MergeStaysDistinct(s.state.records, requested);
  }

  // ---- Settings

  /** Memory holds what the settings file normalises to. */
  predicate SettingsAgree(s: Snapshot) { s.state.settings == NormalizeSettings(s.disk.settings) }

  /** A settings request keeps that agreement exactly unless a late failure could not be read back. */
  lemma SettingsFollowDisk(s: Snapshot, payload: seq<byte>, w: WriteResult, readBack: bool)
    requires SettingsAgree(s) && |payload| == 2 && ValidSetting(payload[0], payload[1]) && s.state.hasSettingsPath
    ensures var end := End(s, SetSettings(s, payload, w, readBack));
            && (SettingsAgree(end) <==> !(w.FailedAfter? && !readBack && s.state.settings[payload[0]] != payload[1]))
            && (end.state.settings == s.state.settings
              || end.state.settings == s.state.settings[payload[0] := payload[1]])
            && end.disk.config == s.disk.config && end.state.records == s.state.records
  {
    var settings := s.state.settings[payload[0] := payload[1]];
    assert settings[0] == 8 && NormalizeSettings(Some(settings)) == settings;
    assert settings == s.state.settings <==> s.state.settings[payload[0]] == payload[1] by {
      assert settings[payload[0]] == payload[1];
    }
  }

  /** Every setting the manager can change is within its range: seconds, choices, switches and the log level. */
  predicate InRange(settings: seq<byte>) {
    && |settings| == 256
    && 1 <= settings[2] <= 60 && settings[3] <= 5 && 3 <= settings[4] <= 120 && settings[5] <= 2 && settings[6] <= 3
    && (forall i :: 10 <= i < 30 ==> settings[i] <= 1) && settings[30] <= 4
  }

  /** A request is valid exactly if it keeps that; the defaults are in range, and settings in range stay there. */
  lemma SettingsStayInRange(s: Snapshot, payload: seq<byte>, w: WriteResult, readBack: bool)
    requires InRange(s.state.settings) && |payload| == 2
    ensures InRange(DefaultSettings()) && InRange(End(s, SetSettings(s, payload, w, readBack)).state.settings)
    ensures ValidSetting(payload[0], payload[1])
            <==> (2 <= payload[0] <= 6 || 10 <= payload[0] <= 30)
                 && InRange(s.state.settings[payload[0] := payload[1]])
  {
    var settings := s.state.settings[payload[0] := payload[1]];
    assert settings[payload[0]] == payload[1];
  }
}
