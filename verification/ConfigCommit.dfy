/** How one manager request changes memory, disk and hook, whatever fails on the way. */
module ConfigCommit {
  import opened Domain
  import opened Text
  import opened AppConfig
  import opened ConfigRewrite
  import HookPayload

  type byte = HookPayload.byte

  /** The app-config file; bytes that are not UTF-8 cannot be rewritten. */
  datatype File = Utf8(text: string) | Binary

  datatype Disk = Disk(config: Option<File>, settings: Option<seq<byte>>)

  /** The part of the daemon's shared state that configuration is about. `other` stands for logs and reports. */
  datatype Shared = Shared(
    settings: seq<byte>,
    records: seq<Record>,
    tokens: map<u32, string>,
    synced: bool,
    revision: nat,
    hasConfigPath: bool,
    hasSettingsPath: bool,
    other: nat)

  /** Memory, disk, and the payload the hook took last. */
  datatype Snapshot = Snapshot(state: Shared, disk: Disk, accepted: Option<string>)

  /** An atomic write may also fail after its rename, while syncing the directory. */
  datatype WriteResult = Written | FailedBefore | FailedAfter

  /** A broken exchange leaves open whether the hook took the payload. */
  datatype HookAnswer = Took | Refused | Broken(taken: bool)

  datatype Reply = Success | Failure | Rejected | Error

  const REVISIONS: nat := 0x1_0000_0000_0000_0000

  function TextOf(file: Option<File>): Option<string> {
    if file.Some? && file.value.Utf8? then Some(file.value.text) else None
  }

  function EncodeOf(s: Shared): Option<string> { HookPayload.Encode(s.settings, s.records) }

  function CommitConfig(s: Shared, records: seq<Record>, tokens: map<u32, string>): Shared {
    s.(records := records, tokens := tokens,
       revision := if s.records != records then (s.revision + 1) % REVISIONS else s.revision)
  }

  function CommitSettings(s: Shared, settings: seq<byte>): Shared {
    s.(settings := settings, revision := if s.settings != settings then (s.revision + 1) % REVISIONS else s.revision)
  }

  function AfterWrite(before: Option<File>, payload: string, w: WriteResult): Option<File> {
    if w.FailedBefore? then before else Some(Utf8(payload))
  }

  function AfterHook(before: Option<string>, payload: string, answer: HookAnswer): Option<string> {
    if answer.Took? || (answer.Broken? && answer.taken) then Some(payload) else before
  }

  // ---- SetAppCfg

  /** Everything the environment decides during one request. */
  datatype Answers = Answers(
    readable: bool, write: WriteResult, readBack: bool, hook: HookAnswer, restore: WriteResult, hookBack: HookAnswer)

  /** An access to a file or the hook, with what came of it. */
  datatype Access =
    | ReadConfig(ok: bool)
    | WroteConfig(payload: string, result: WriteResult)
    | ReadConfigBack(ok: bool)
    | AskedHook(config: string, answer: HookAnswer)
    | RestoredConfig(previous: Option<File>, result: WriteResult)
    | WroteSettings(settings: seq<byte>, result: WriteResult)
    | ReadSettingsBack(ok: bool)

  /** The states after each effect, the reply, and every access on the way. */
  datatype Trail = Trail(states: seq<Snapshot>, reply: Reply, calls: seq<Access>)

  function End(s: Snapshot, t: Trail): Snapshot { if t.states == [] then s else t.states[|t.states| - 1] }

  /** What the new records would be written as; None if the file stands in the way. */
  function PlanOf(s: Snapshot, after: seq<Record>): Option<Plan> {
    if s.disk.config == Some(Binary) && after != s.state.records then None
    else if s.disk.config.Some? && after == s.state.records then
      Some(Plan(None, Within(s.state.tokens, Uids(s.state.records))))
    else Some(PlanFor(TextOf(s.disk.config), s.state.records, after, s.state.tokens))
  }

  function SetAppConfig(s: Snapshot, requested: Option<seq<Record>>, a: Answers): Trail {
    if EncodeOf(s.state).None? || requested.None? then Trail([], Error, [])
    else
      var after := Merge(s.state.records, requested.value);
      var payload := HookPayload.Encode(s.state.settings, after);
      if payload.None? || !s.state.hasConfigPath then Trail([], Error, [])
      else if !a.readable then Trail([], Error, [ReadConfig(false)])
      else
        var t := AfterReading(s, after, payload.value, a);
        t.(calls := [ReadConfig(true)] + t.calls)
  }

  function AfterReading(s: Snapshot, after: seq<Record>, payload: string, a: Answers): Trail
    requires EncodeOf(s.state).Some?
  {
    if PlanOf(s, after).None? then Trail([s.(state := s.state.(synced := false))], Error, [])
    else Persist(s, after, PlanOf(s, after).value, payload, a)
  }

  function Persist(s: Snapshot, after: seq<Record>, plan: Plan, payload: string, a: Answers): Trail
    requires EncodeOf(s.state).Some?
  {
    if plan.payload.None? then AskHook(s, s, after, plan.tokens, payload, a)
    else
      var written := s.(disk := s.disk.(config := AfterWrite(s.disk.config, plan.payload.value, a.write)));
      if a.write.Written? then
        var t := AskHook(s, written, after, plan.tokens, payload, a);
        Trail([written] + t.states, t.reply, [WroteConfig(plan.payload.value, a.write)] + t.calls)
      else
        var t := Unconfirmed(s, written, after, plan, a);
        t.(calls := [WroteConfig(plan.payload.value, a.write)] + t.calls)
  }

  /** A write that failed may still have replaced the file; reading it back decides. */
  function Unconfirmed(s: Snapshot, written: Snapshot, after: seq<Record>, plan: Plan, a: Answers): Trail
    requires plan.payload.Some?
  {
    if a.readBack && written.disk.config == Some(Utf8(plan.payload.value)) then
      Trail([written, written.(state := CommitConfig(s.state, after, plan.tokens).(synced := false))], Failure,
            [ReadConfigBack(true)])
    else Trail([written, written.(state := s.state.(synced := false))], Error, [ReadConfigBack(a.readBack)])
  }

  function AskHook(s: Snapshot, now: Snapshot, after: seq<Record>, tokens: map<u32, string>, payload: string,
                   a: Answers): Trail
    requires EncodeOf(s.state).Some?
  {
    var asked := now.(accepted := AfterHook(now.accepted, payload, a.hook));
    if a.hook.Took? then
      Trail([asked, asked.(state := CommitConfig(s.state, after, tokens).(synced := true))], Success,
            [AskedHook(payload, a.hook)])
    else
      var t := RollBack(s, asked.(state := s.state.(synced := false)), a);
      Trail([asked] + t.states, t.reply, [AskedHook(payload, a.hook)] + t.calls)
  }

  /** Restores the old bytes, or removes a file that was not there, and gives the hook its old payload back. */
  function RollBack(s: Snapshot, now: Snapshot, a: Answers): Trail
    requires EncodeOf(s.state).Some?
  {
    var config := if a.restore.FailedBefore? then now.disk.config else s.disk.config;
    var restored := now.(disk := now.disk.(config := config));
    var back := restored.(accepted := AfterHook(restored.accepted, EncodeOf(s.state).value, a.hookBack));
    Trail([now, restored, back], if a.hook.Refused? && a.restore.Written? then Failure else Error,
          [RestoredConfig(s.disk.config, a.restore), AskedHook(EncodeOf(s.state).value, a.hookBack)])
  }

  // ---- SetSettingsVar

  predicate ValidSetting(index: byte, value: byte) {
    || (index == 2 && 1 <= value <= 60)
    || (index == 3 && value <= 5)
    || (index == 4 && 3 <= value <= 120)
    || (index == 5 && value <= 2)
    || (index == 6 && value <= 3)
    || (10 <= index <= 29 && value <= 1)
    || (index == 30 && value <= 4)
  }

  function DefaultSettings(): (r: seq<byte>)
    ensures |r| == 256
  {
    seq(256, (i: int) requires 0 <= i < 256 =>
      if i == 0 then 8 else if i == 2 then 10 else if i == 3 then 4 else if i == 4 then 20 else if i == 6 then 2
      else if i in {10, 13, 16, 17, 19} then 1 else 0)
  }

  function NormalizeSettings(stored: Option<seq<byte>>): (r: seq<byte>)
    ensures |r| == 256
  {
    if stored.None? then DefaultSettings()
    else if |stored.value| == 256 && stored.value[0] == 8 then stored.value
    else
      seq(256, (i: int) requires 0 <= i < 256 =>
        if i == 0 then 8 else if i < |stored.value| then stored.value[i] else DefaultSettings()[i])
  }

  function SetSettings(s: Snapshot, payload: seq<byte>, write: WriteResult, readBack: bool): Trail {
    if |payload| != 2 || !ValidSetting(payload[0], payload[1]) then Trail([], Rejected, [])
    else
      var base := if |s.state.settings| == 256 then s.state.settings else NormalizeSettings(Some(s.state.settings));
      var settings := base[payload[0] := payload[1]];
      if !s.state.hasSettingsPath then Trail([s.(state := s.state.(synced := false))], Rejected, [])
      else
        var written := s.(disk := if write.FailedBefore? then s.disk else s.disk.(settings := Some(settings)));
        var commit := write.Written? || (readBack && written.disk.settings == Some(settings));
        var state := if commit then CommitSettings(s.state, settings) else s.state;
        Trail([written, written.(state := state.(synced := false))], if write.Written? then Success else Rejected,
              [WroteSettings(settings, write)] + if write.Written? then [] else [ReadSettingsBack(readBack)])
  }

  // ---- The same, as the daemon does it

  /** The files and the hook. Every access has an arbitrary result, which the ghost log keeps. */
  class Environment {
    var disk: Disk
    var accepted: Option<string>
    ghost var log: seq<Access>

    constructor (disk: Disk, accepted: Option<string>)
      ensures this.disk == disk && this.accepted == accepted && log == []
    {
      this.disk, this.accepted, log := disk, accepted, [];
    }

    /** `None` is a file that is there but cannot be read. */
    method ReadConfigFile() returns (file: Option<Option<File>>)
      modifies this`log
      ensures file.Some? ==> file.value == disk.config
      ensures log == old(log) + [ReadConfig(file.Some?)]
    {
      file := Some(disk.config);
      if * { file := None; }
      log := log + [ReadConfig(file.Some?)];
    }

    method WriteConfig(payload: string) returns (w: WriteResult)
      modifies this`disk, this`log
      ensures disk == old(disk).(config := AfterWrite(old(disk).config, payload, w))
      ensures log == old(log) + [WroteConfig(payload, w)]
    {
      var renamed, synced := *, *;
      if renamed { disk := disk.(config := Some(Utf8(payload))); }
      w := if !renamed then FailedBefore else if synced then Written else FailedAfter;
      log := log + [WroteConfig(payload, w)];
    }

    method ConfigReads(expected: string) returns (same: bool, ghost ok: bool)
      modifies this`log
      ensures same <==> ok && disk.config == Some(Utf8(expected))
      ensures log == old(log) + [ReadConfigBack(ok)]
    {
      var done := *;
      same, ok := done && disk.config == Some(Utf8(expected)), done;
      log := log + [ReadConfigBack(ok)];
    }

    method RestoreConfig(previous: Option<File>) returns (w: WriteResult)
      modifies this`disk, this`log
      ensures disk == if w.FailedBefore? then old(disk) else old(disk).(config := previous)
      ensures log == old(log) + [RestoredConfig(previous, w)]
    {
      var done, synced := *, *;
      if done { disk := disk.(config := previous); }
      w := if !done then FailedBefore else if synced then Written else FailedAfter;
      log := log + [RestoredConfig(previous, w)];
    }

    method WriteSettings(settings: seq<byte>) returns (w: WriteResult)
      modifies this`disk, this`log
      ensures disk == if w.FailedBefore? then old(disk) else old(disk).(settings := Some(settings))
      ensures log == old(log) + [WroteSettings(settings, w)]
    {
      var renamed, synced := *, *;
      if renamed { disk := disk.(settings := Some(settings)); }
      w := if !renamed then FailedBefore else if synced then Written else FailedAfter;
      log := log + [WroteSettings(settings, w)];
    }

    method SettingsRead(expected: seq<byte>) returns (same: bool, ghost ok: bool)
      modifies this`log
      ensures same <==> ok && disk.settings == Some(expected)
      ensures log == old(log) + [ReadSettingsBack(ok)]
    {
      var done := *;
      same, ok := done && disk.settings == Some(expected), done;
      log := log + [ReadSettingsBack(ok)];
    }

    method SetConfig(config: string) returns (answer: HookAnswer)
      modifies this`accepted, this`log
      ensures accepted == AfterHook(old(accepted), config, answer)
      ensures log == old(log) + [AskedHook(config, answer)]
    {
      var taken, replied := *, *;
      if taken { accepted := Some(config); }
      answer := if !replied then Broken(taken) else if taken then Took else Refused;
      log := log + [AskedHook(config, answer)];
    }
  }

  /** The daemon's state, or the detached copy of it that a policy request works on. */
  class Manager {
    var settings: seq<byte>
    var records: seq<Record>
    var tokens: map<u32, string>
    var synced: bool
    var revision: nat
    const hasConfigPath: bool
    const hasSettingsPath: bool
    const other: nat
    ghost var past: seq<Snapshot>

    constructor (s: Shared)
      ensures Seen() == s && past == []
    {
      settings, records, tokens, synced, revision := s.settings, s.records, s.tokens, s.synced, s.revision;
      hasConfigPath, hasSettingsPath, other := s.hasConfigPath, s.hasSettingsPath, s.other;
      past := [];
    }

    function Seen(): Shared
      reads this
    {
      Shared(settings, records, tokens, synced, revision, hasConfigPath, hasSettingsPath, other)
    }

    function Whole(env: Environment): Snapshot
      reads this, env
    {
      Snapshot(Seen(), env.disk, env.accepted)
    }

    method CommitAppConfig(newer: seq<Record>, newerTokens: map<u32, string>)
      modifies this`records, this`tokens, this`revision
      ensures Seen() == CommitConfig(old(Seen()), newer, newerTokens)
    {
      var changed := records != newer;
      records, tokens := newer, newerTokens;
      if changed { revision := (revision + 1) % REVISIONS; }
    }

    method CommitAllSettings(newer: seq<byte>)
      modifies this`settings, this`revision
      ensures Seen() == CommitSettings(old(Seen()), newer)
    {
      var changed := settings != newer;
      settings := newer;
      if changed { revision := (revision + 1) % REVISIONS; }
    }

    /** `set_app_config_with_persistence_writer`. */
    method HandleAppConfig(env: Environment, requested: Option<seq<Record>>) returns (reply: Reply, ghost a: Answers)
      modifies this, env
      ensures past == old(past) + SetAppConfig(old(Whole(env)), requested, a).states
      ensures Whole(env) == End(old(Whole(env)), SetAppConfig(old(Whole(env)), requested, a))
      ensures reply == SetAppConfig(old(Whole(env)), requested, a).reply
      ensures env.log == old(env.log) + SetAppConfig(old(Whole(env)), requested, a).calls
      ensures Answered(old(Whole(env)), requested, Whole(env), reply, env.log[|old(env.log)|..])
    {
      ghost var start := Whole(env);
      reply, a := TakeAppConfig(env, requested);
      FaultlessRequestIsDone(start, requested, a);
      assert env.log[|old(env.log)|..] == SetAppConfig(start, requested, a).calls;
    }

    method TakeAppConfig(env: Environment, requested: Option<seq<Record>>) returns (reply: Reply, ghost a: Answers)
      modifies this, env
      ensures past == old(past) + SetAppConfig(old(Whole(env)), requested, a).states
      ensures Whole(env) == End(old(Whole(env)), SetAppConfig(old(Whole(env)), requested, a))
      ensures reply == SetAppConfig(old(Whole(env)), requested, a).reply
      ensures env.log == old(env.log) + SetAppConfig(old(Whole(env)), requested, a).calls
    {
      a := Answers(true, Written, false, Took, Written, Took);
      var previous := HookPayload.Encode(settings, records);
      if previous.None? || requested.None? { return Error, a; }
      var after := Merge(records, requested.value);
      var payload := HookPayload.Encode(settings, after);
      if payload.None? || !hasConfigPath { return Error, a; }
      var file := env.ReadConfigFile();
      if file.None? { return Error, a.(readable := false); }
      reply, a := Rewrite(env, file.value, previous.value, after, payload.value);
      Reassociate(old(env.log), [ReadConfig(true)], AfterReading(old(Whole(env)), after, payload.value, a).calls);
    }

    /** The file has been read: what is to be written is worked out, written, and the hook asked. */
    method Rewrite(env: Environment, file: Option<File>, previous: string, after: seq<Record>, payload: string)
      returns (reply: Reply, ghost a: Answers)
      requires Some(previous) == EncodeOf(Seen()) && file == env.disk.config
      modifies this, env
      ensures a.readable
      ensures past == old(past) + AfterReading(old(Whole(env)), after, payload, a).states
      ensures Whole(env) == End(old(Whole(env)), AfterReading(old(Whole(env)), after, payload, a))
      ensures reply == AfterReading(old(Whole(env)), after, payload, a).reply
      ensures env.log == old(env.log) + AfterReading(old(Whole(env)), after, payload, a).calls
    {
      a := Answers(true, Written, false, Took, Written, Took);
      if file == Some(Binary) && after != records {
        synced := false;
        past := past + [Whole(env)];
        return Error, a;
      }
      var plan := Plan(None, Within(tokens, Uids(records)));
      if !(file.Some? && after == records) { plan := MakePlan(TextOf(file), records, after, tokens); }
      if plan.payload.Some? {
        reply, a := WriteThenAsk(env, previous, after, plan, payload);
      } else {
        reply, a := AskThenCommit(env, file, previous, after, plan.tokens, payload, Whole(env));
      }
    }

    method WriteThenAsk(env: Environment, previous: string, after: seq<Record>, plan: Plan, payload: string)
      returns (reply: Reply, ghost a: Answers)
      requires plan.payload.Some? && Some(previous) == EncodeOf(Seen())
      modifies this, env
      ensures a.readable && past == old(past) + Persist(old(Whole(env)), after, plan, payload, a).states
      ensures Whole(env) == End(old(Whole(env)), Persist(old(Whole(env)), after, plan, payload, a))
      ensures reply == Persist(old(Whole(env)), after, plan, payload, a).reply
      ensures env.log == old(env.log) + Persist(old(Whole(env)), after, plan, payload, a).calls
    {
      ghost var start := Whole(env);
      var file := env.disk.config;
      var w := env.WriteConfig(plan.payload.value);
      ghost var written := Whole(env);
      if w.Written? {
        past := past + [written];
        reply, a := AskThenCommit(env, file, previous, after, plan.tokens, payload, start);
        ghost var t := AskHook(start, written, after, plan.tokens, payload, a);
        Reassociate(old(past), [written], t.states);
        Reassociate(old(env.log), [WroteConfig(plan.payload.value, w)], t.calls);
        EndAfter(start, written, t);
      } else {
        reply, a := KeepIfWritten(env, after, plan, w, start);
        Reassociate(old(env.log), [WroteConfig(plan.payload.value, w)], [ReadConfigBack(a.readBack)]);
      }
    }

    method KeepIfWritten(env: Environment, after: seq<Record>, plan: Plan, w: WriteResult, ghost start: Snapshot)
      returns (reply: Reply, ghost a: Answers)
      requires plan.payload.Some? && !w.Written? && start.state == Seen()
      modifies this, env`log
      ensures a.readable && a.write == w
      ensures past == old(past) + Unconfirmed(start, old(Whole(env)), after, plan, a).states
      ensures Whole(env) == End(old(Whole(env)), Unconfirmed(start, old(Whole(env)), after, plan, a))
      ensures reply == Unconfirmed(start, old(Whole(env)), after, plan, a).reply
      ensures env.log == old(env.log) + Unconfirmed(start, old(Whole(env)), after, plan, a).calls
    {
      ghost var written := Whole(env);
      var same;
      ghost var ok;
      same, ok := env.ConfigReads(plan.payload.value);
      a := Answers(true, w, ok, Took, Written, Took);
      reply := Error;
      if same {
        CommitAppConfig(after, plan.tokens);
        reply := Failure;
      }
      synced := false;
      past := past + [written, Whole(env)];
    }

    method AskThenCommit(env: Environment, file: Option<File>, previous: string, after: seq<Record>,
                         newerTokens: map<u32, string>, payload: string, ghost start: Snapshot)
      returns (reply: Reply, ghost a: Answers)
      requires Some(previous) == EncodeOf(Seen()) && start.state == Seen() && start.disk.config == file
      modifies this, env
      ensures a.readable && a.write.Written?
      ensures past == old(past) + AskHook(start, old(Whole(env)), after, newerTokens, payload, a).states
      ensures Whole(env) == End(old(Whole(env)), AskHook(start, old(Whole(env)), after, newerTokens, payload, a))
      ensures reply == AskHook(start, old(Whole(env)), after, newerTokens, payload, a).reply
      ensures env.log == old(env.log) + AskHook(start, old(Whole(env)), after, newerTokens, payload, a).calls
    {
      var answer := env.SetConfig(payload);
      ghost var asked := Whole(env);
      if answer.Took? {
        a := Answers(true, Written, false, answer, Written, Took);
        CommitAppConfig(after, newerTokens);
        synced := true;
        past := past + [asked, Whole(env)];
        reply := Success;
      } else {
        reply, a := GiveUp(env, file, previous, answer, start);
        ghost var t := RollBack(start, asked.(state := start.state.(synced := false)), a);
        Reassociate(old(env.log), [AskedHook(payload, answer)], t.calls);
      }
    }

    /** The hook did not confirm: the sync claim is dropped and everything taken back. */
    method GiveUp(env: Environment, file: Option<File>, previous: string, answer: HookAnswer, ghost start: Snapshot)
      returns (reply: Reply, ghost a: Answers)
      requires Some(previous) == EncodeOf(start.state) && start.disk.config == file && Seen() == start.state
      modifies this`past, this`synced, env
      ensures a.readable && a.write.Written? && a.hook == answer
      ensures var asked := old(Whole(env));
              var t := RollBack(start, asked.(state := start.state.(synced := false)), a);
              && past == old(past) + ([asked] + t.states) && Whole(env) == End(asked, t) && reply == t.reply
              && env.log == old(env.log) + t.calls
    {
      ghost var asked := Whole(env);
      past := past + [asked];
      synced := false;
      ghost var unsynced := Whole(env);
      reply, a := TakeBack(env, file, previous, answer, start);
      Reassociate(old(past), [asked], RollBack(start, unsynced, a).states);
    }

    /** `rollback_failed_app_config_update`. */
    method TakeBack(env: Environment, file: Option<File>, previous: string, answer: HookAnswer, ghost start: Snapshot)
      returns (reply: Reply, ghost a: Answers)
      requires Some(previous) == EncodeOf(start.state) && start.disk.config == file
      modifies this`past, env
      ensures a.readable && a.write.Written? && a.hook == answer
      ensures past == old(past) + RollBack(start, old(Whole(env)), a).states
      ensures Whole(env) == End(old(Whole(env)), RollBack(start, old(Whole(env)), a))
      ensures reply == RollBack(start, old(Whole(env)), a).reply
      ensures env.log == old(env.log) + RollBack(start, old(Whole(env)), a).calls
    {
      ghost var unsynced := Whole(env);
      var restore := env.RestoreConfig(file);
      ghost var restored := Whole(env);
      var back := env.SetConfig(previous);
      a := Answers(true, Written, false, answer, restore, back);
      past := past + [unsynced, restored, Whole(env)];
      reply := if answer.Refused? && restore.Written? then Failure else Error;
    }

    /** `set_settings_var` and what its caller adds on success. */
    method HandleSettings(env: Environment, payload: seq<byte>)
      returns (reply: Reply, ghost w: WriteResult, ghost readBack: bool)
      modifies this, env
      ensures past == old(past) + SetSettings(old(Whole(env)), payload, w, readBack).states
      ensures Whole(env) == End(old(Whole(env)), SetSettings(old(Whole(env)), payload, w, readBack))
      ensures reply == SetSettings(old(Whole(env)), payload, w, readBack).reply
      ensures env.log == old(env.log) + SetSettings(old(Whole(env)), payload, w, readBack).calls
      ensures SettingAnswered(old(Whole(env)), payload, Whole(env), reply, env.log[|old(env.log)|..])
    {
      ghost var start := Whole(env);
      reply, w, readBack := TakeSetting(env, payload);
      assert env.log[|old(env.log)|..] == SetSettings(start, payload, w, readBack).calls;
      FaultlessSettingIsDone(start, payload, w, readBack);
    }

    method TakeSetting(env: Environment, payload: seq<byte>)
      returns (reply: Reply, ghost w: WriteResult, ghost readBack: bool)
      modifies this, env
      ensures past == old(past) + SetSettings(old(Whole(env)), payload, w, readBack).states
      ensures Whole(env) == End(old(Whole(env)), SetSettings(old(Whole(env)), payload, w, readBack))
      ensures reply == SetSettings(old(Whole(env)), payload, w, readBack).reply
      ensures env.log == old(env.log) + SetSettings(old(Whole(env)), payload, w, readBack).calls
    {
      w, readBack := Written, false;
      if |payload| != 2 || !ValidSetting(payload[0], payload[1]) { return Rejected, w, readBack; }
      var newer := if |settings| == 256 then settings else NormalizeSettings(Some(settings));
      newer := newer[payload[0] := payload[1]];
      if !hasSettingsPath {
        synced := false;
        past := past + [Whole(env)];
        return Rejected, w, readBack;
      }
      var result := env.WriteSettings(newer);
      ghost var written := Whole(env);
      w := result;
      if result.Written? {
        CommitAllSettings(newer);
        reply := Success;
      } else {
        var same;
        same, readBack := env.SettingsRead(newer);
        if same { CommitAllSettings(newer); }
        reply := Rejected;
      }
      synced := false;
      past := past + [written, Whole(env)];
    }
  }

  lemma EndAfter(start: Snapshot, written: Snapshot, t: Trail)
    ensures End(start, Trail([written] + t.states, t.reply, t.calls)) == End(written, t)
  {
  }

  // ---- What a request without a failed access does

  /** The access failed. A hook that refuses has answered. */
  predicate Failed(call: Access) {
    match call
    case ReadConfig(ok) => !ok
    case WroteConfig(_, result) => !result.Written?
    case ReadConfigBack(ok) => !ok
    case AskedHook(_, answer) => answer.Broken?
    case RestoredConfig(_, result) => !result.Written?
    case WroteSettings(_, result) => !result.Written?
    case ReadSettingsBack(ok) => !ok
  }

  ghost predicate Faultless(calls: seq<Access>) { forall i :: 0 <= i < |calls| ==> !Failed(calls[i]) }

  /** A request that only a failed access can stop: it can be encoded, has a path, and does not change a binary file. */
  predicate Answerable(s: Snapshot, requested: Option<seq<Record>>) {
    && EncodeOf(s.state).Some? && requested.Some?
    && HookPayload.Encode(s.state.settings, Merge(s.state.records, requested.value)).Some?
    && s.state.hasConfigPath
    && (s.disk.config == Some(Binary) ==> Merge(s.state.records, requested.value) == s.state.records)
  }

  /**
    The accesses of an answerable request without a failed one: the file is read, written unless it is there and
    nothing changes, and the hook is asked. If it takes the configuration, memory, disk and hook hold the request; if it
    refuses, file and hook get back what they had.
   */
  ghost predicate Done(s: Snapshot, requested: seq<Record>, end: Snapshot, reply: Reply, calls: seq<Access>) {
    var after := Merge(s.state.records, requested);
    var config, previous := HookPayload.Encode(s.state.settings, after), EncodeOf(s.state);
    var text := PlanFor(TextOf(s.disk.config), s.state.records, after, s.state.tokens).payload;
    var writes := s.disk.config.None? || after != s.state.records;
    && config.Some? && previous.Some? && (writes ==> text.Some?) && (reply == Success || reply == Failure)
    && var first := [ReadConfig(true)] + if writes then [WroteConfig(text.value, Written)] else [];
       if reply == Success then
         && calls == first + [AskedHook(config.value, Took)]
         && end.state.records == after && end.state.synced && end.accepted == config
         && end.disk == if writes then s.disk.(config := Some(Utf8(text.value))) else s.disk
       else
         && (exists back :: calls == first + ([AskedHook(config.value, Refused)]
                                             + [RestoredConfig(s.disk.config, Written),
                                               AskedHook(previous.value, back)]))
         && end.state == s.state.(synced := false) && end.disk == s.disk
  }

  ghost predicate Answered(s: Snapshot, requested: Option<seq<Record>>, end: Snapshot, reply: Reply,
                           calls: seq<Access>) {
    Answerable(s, requested) && Faultless(calls) ==> Done(s, requested.value, end, reply, calls)
  }

  lemma FaultlessParts(first: seq<Access>, rest: seq<Access>)
    requires Faultless(first + rest)
    ensures Faultless(first) && Faultless(rest)
  {
    assert forall i :: 0 <= i < |first| ==> (first + rest)[i] == first[i];
    assert forall i :: 0 <= i < |rest| ==> (first + rest)[|first| + i] == rest[i];
  }

  lemma FaultlessAsk(s: Snapshot, now: Snapshot, after: seq<Record>, tokens: map<u32, string>, payload: string,
                     a: Answers)
    requires EncodeOf(s.state).Some? && now.disk.settings == s.disk.settings
    requires Faultless(AskHook(s, now, after, tokens, payload, a).calls)
    ensures var t := AskHook(s, now, after, tokens, payload, a);
            var end := End(now, t);
            if a.hook.Took? then
              && t.reply == Success && t.calls == [AskedHook(payload, Took)] && end.disk == now.disk
              && end.state == CommitConfig(s.state, after, tokens).(synced := true) && end.accepted == Some(payload)
            else
              && t.reply == Failure && end.state == s.state.(synced := false) && end.disk == s.disk
              && t.calls == [AskedHook(payload, Refused)]
                            + [RestoredConfig(s.disk.config, Written), AskedHook(EncodeOf(s.state).value, a.hookBack)]
  {
    var t := AskHook(s, now, after, tokens, payload, a);
    assert !Failed(t.calls[0]);
    if !a.hook.Took? {
      assert !Failed(t.calls[1]);
      assert now.disk.(config := s.disk.config) == s.disk;
    }
  }

  lemma FaultlessPersist(s: Snapshot, after: seq<Record>, plan: Plan, payload: string, a: Answers)
    requires EncodeOf(s.state).Some? && Faultless(Persist(s, after, plan, payload, a).calls)
    ensures plan.payload.None? || a.write.Written?
    ensures var now := if plan.payload.Some? then s.(disk := s.disk.(config := Some(Utf8(plan.payload.value)))) else s;
            var t, ask := Persist(s, after, plan, payload, a), AskHook(s, now, after, plan.tokens, payload, a);
            && Faultless(ask.calls) && t.reply == ask.reply && End(s, t) == End(now, ask)
            && t.calls == (if plan.payload.Some? then [WroteConfig(plan.payload.value, Written)] else []) + ask.calls
  {
    var t := Persist(s, after, plan, payload, a);
    if plan.payload.Some? {
      assert !Failed(t.calls[0]);
      var now := s.(disk := s.disk.(config := Some(Utf8(plan.payload.value))));
      FaultlessParts([WroteConfig(plan.payload.value, Written)], AskHook(s, now, after, plan.tokens, payload, a).calls);
    }
  }

  lemma FaultlessRequestIsDone(s: Snapshot, requested: Option<seq<Record>>, a: Answers)
    ensures var t := SetAppConfig(s, requested, a); Answered(s, requested, End(s, t), t.reply, t.calls)
  {
    var t := SetAppConfig(s, requested, a);
    if Answerable(s, requested) && Faultless(t.calls) {
      var after := Merge(s.state.records, requested.value);
      var payload := HookPayload.Encode(s.state.settings, after).value;
      assert !Failed(t.calls[0]);
      FaultlessParts([ReadConfig(true)], AfterReading(s, after, payload, a).calls);
      FaultlessReadingIsDone(s, requested.value, after, payload, a);
    }
  }

  lemma FaultlessReadingIsDone(s: Snapshot, requested: seq<Record>, after: seq<Record>, payload: string, a: Answers)
    requires Answerable(s, Some(requested)) && after == Merge(s.state.records, requested)
    requires Some(payload) == HookPayload.Encode(s.state.settings, after)
    requires Faultless(AfterReading(s, after, payload, a).calls)
    ensures var t := AfterReading(s, after, payload, a);
            Done(s, requested, End(s, t), t.reply, [ReadConfig(true)] + t.calls)
  {
    var plan := PlanOf(s, after).value;
    var now := if plan.payload.Some? then s.(disk := s.disk.(config := Some(Utf8(plan.payload.value)))) else s;
    FaultlessPersist(s, after, plan, payload, a);
    FaultlessAsk(s, now, after, plan.tokens, payload, a);
    Reassociate([ReadConfig(true)], if plan.payload.Some? then [WroteConfig(plan.payload.value, Written)] else [],
                AskHook(s, now, after, plan.tokens, payload, a).calls);
  }

  /** A valid setting without a failed access is written, committed and confirmed. */
  ghost predicate SettingAnswered(s: Snapshot, payload: seq<byte>, end: Snapshot, reply: Reply, calls: seq<Access>) {
    if |payload| != 2 || !ValidSetting(payload[0], payload[1]) then reply == Rejected && calls == [] && end == s
    else if !s.state.hasSettingsPath then
      reply == Rejected && calls == [] && end == s.(state := s.state.(synced := false))
    else Faultless(calls) ==>
      && reply == Success && |calls| == 1 && calls[0].WroteSettings? && end.state.settings == calls[0].settings
      && end.disk == s.disk.(settings := Some(end.state.settings))
      && end.state.settings
         == (if |s.state.settings| == 256 then s.state.settings else NormalizeSettings(Some(s.state.settings)))
            [payload[0] := payload[1]]
  }

  lemma FaultlessSettingIsDone(s: Snapshot, payload: seq<byte>, w: WriteResult, readBack: bool)
    ensures var t := SetSettings(s, payload, w, readBack); SettingAnswered(s, payload, End(s, t), t.reply, t.calls)
  {
    var t := SetSettings(s, payload, w, readBack);
    if |payload| == 2 && ValidSetting(payload[0], payload[1]) && s.state.hasSettingsPath && Faultless(t.calls) {
      assert !Failed(t.calls[0]);
    }
  }
}
