/**
  The server thread and the control thread over one shared state. A policy request works on a detached copy and
  holds the action gate until it has written the copy back; a control iteration holds the gate from before its
  policy snapshot until after its last action. Every other request runs under the state lock, on the server thread.
 */
module Interleaving {
  import opened Domain
  import Text
  import opened AppConfig
  import opened ConfigRewrite
  import opened ConfigCommit
  import opened CommitTheorems
  import HookPayload

  datatype Request =
    | AppConfigRequest(requested: Option<seq<Record>>, answers: Answers)
    | SettingRequest(payload: seq<byte>, write: WriteResult, readBack: bool)

  function TrailOf(s: Snapshot, r: Request): Trail {
    match r
    case AppConfigRequest(requested, a) => SetAppConfig(s, requested, a)
    case SettingRequest(payload, w, readBack) => SetSettings(s, payload, w, readBack)
  }

  /** The state a request has reached after `at` of its effects. */
  function Reached(base: Snapshot, trail: Trail, at: nat): Snapshot
    requires at <= |trail.states|
  {
    if at == 0 then base else trail.states[at - 1]
  }

  datatype Server =
    | Listening
    | AtGate(request: Request)
    | Working(request: Request, base: Snapshot, trail: Trail, at: nat)

  datatype Control =
    | Resting
    | Entered
    | Prepared(payload: Option<string>, revision: nat)
    | Answered(payload: Option<string>, revision: nat, answer: Option<HookAnswer>)
    | Acting(policy: Shared)

  datatype Holder = Nobody | ServerThread | ControlThread

  datatype System = System(
    shared: Shared, disk: Disk, accepted: Option<string>, server: Server, control: Control, gate: Holder)

  datatype Step =
    | TakeGate(request: Request)
    | CopyState
    | Effect
    | WriteBack
    | Command(other: nat)
    | Enter
    | Prepare
    | Ask(answer: HookAnswer)
    | Apply(hookReady: bool)
    | Act
    | Finish(other: nat)

  function Now(s: System): Snapshot { Snapshot(s.shared, s.disk, s.accepted) }

  predicate Enabled(s: System, step: Step) {
    match step
    case TakeGate(_) => s.server.Listening? && s.gate.Nobody?
    case CopyState => s.server.AtGate?
    case Effect => s.server.Working? && s.server.at < |s.server.trail.states|
    case WriteBack => s.server.Working? && s.server.at == |s.server.trail.states|
    case Command(_) => s.server.Listening?
    case Enter => s.control.Resting? && s.gate.Nobody?
    case Prepare => s.control.Entered?
    case Ask(_) => s.control.Prepared?
    case Apply(_) => s.control.Answered?
    case Act => s.control.Acting?
    case Finish(_) => s.control.Acting?
  }

  /** The result of a hook sync counts only if the configuration is still the one that was sent. */
  predicate SyncHolds(s: Shared, payload: Option<string>, revision: nat, answer: Option<HookAnswer>) {
    answer == Some(Took) && revision == s.revision && payload.Some? && payload == EncodeOf(s)
  }

  function Do(s: System, step: Step): System
    requires Enabled(s, step)
  {
    match step
    case TakeGate(r) => s.(server := AtGate(r), gate := ServerThread)
    case CopyState => s.(server := Working(s.server.request, Now(s), TrailOf(Now(s), s.server.request), 0))
    case Effect =>
      var next := s.server.trail.states[s.server.at];
      s.(server := s.server.(at := s.server.at + 1), disk := next.disk, accepted := next.accepted)
    case WriteBack =>
      s.(shared := Reached(s.server.base, s.server.trail, s.server.at).state, server := Listening, gate := Nobody)
    case Command(other) => s.(shared := s.shared.(other := other))
    case Enter => s.(control := Entered, gate := ControlThread)
    case Prepare => s.(control := Prepared(EncodeOf(s.shared), s.shared.revision))
    case Ask(answer) =>
      var c := s.control;
      if c.payload.None? then s.(control := Answered(None, c.revision, None))
      else s.(control := Answered(c.payload, c.revision, Some(answer)),
              accepted := AfterHook(s.accepted, c.payload.value, answer))
    case Apply(hookReady) =>
      var c := s.control;
      var shared := s.shared.(synced := hookReady && SyncHolds(s.shared, c.payload, c.revision, c.answer));
      s.(shared := shared, control := Acting(shared))
    case Act => s
    case Finish(other) => s.(shared := s.shared.(other := other), control := Resting, gate := Nobody)
  }

  // ---- The invariant

  predicate SamePolicy(a: Shared, b: Shared) {
    a.settings == b.settings && a.records == b.records && a.tokens == b.tokens && a.revision == b.revision
  }

  predicate GateHeld(s: System) {
    && (s.gate.ServerThread? <==> !s.server.Listening?)
    && (s.gate.ControlThread? <==> !s.control.Resting?)
  }

  predicate ServerFits(s: System) {
    if s.server.Working? then
      && s.server.base.state == s.shared && SyncHonest(s.server.base)
      && s.server.at <= |s.server.trail.states|
      && s.disk == Reached(s.server.base, s.server.trail, s.server.at).disk
      && s.accepted == Reached(s.server.base, s.server.trail, s.server.at).accepted
    else SyncHonest(Now(s))
  }

  predicate ControlFits(s: System) {
    match s.control
    case Resting => true
    case Entered => true
    case Prepared(payload, revision) => payload == EncodeOf(s.shared) && revision == s.shared.revision
    case Answered(payload, revision, answer) =>
      && payload == EncodeOf(s.shared) && revision == s.shared.revision
      && (answer == Some(Took) ==> payload.Some? && s.accepted == payload)
      && (answer.Some? <==> payload.Some?)
    case Acting(policy) => SamePolicy(policy, s.shared)
  }

  predicate TrailFits(s: System) { s.server.Working? ==> s.server.trail == TrailOf(s.server.base, s.server.request) }

  predicate Invariant(s: System) { GateHeld(s) && TrailFits(s) && ServerFits(s) && ControlFits(s) }

  lemma RequestKeepsSync(s: Snapshot, r: Request)
    requires SyncHonest(s)
    ensures SyncHonest(End(s, TrailOf(s, r)))
  {
    match r
    case AppConfigRequest(requested, a) => ConfigKeepsSync(s, requested, a);
    case SettingRequest(payload, w, readBack) => SettingsKeepSync(s, payload, w, readBack);
  }

  lemma StepKeepsInvariant(s: System, step: Step)
    requires Invariant(s) && Enabled(s, step)
    ensures Invariant(Do(s, step))
  {
    if step.Effect? || step.WriteBack? || step.CopyState? {
      ServerStepKeeps(s, step);
    } else {
      OtherStepKeeps(s, step);
    }
  }

  lemma ServerStepKeeps(s: System, step: Step)
    requires Invariant(s) && Enabled(s, step) && (step.Effect? || step.WriteBack? || step.CopyState?)
    ensures Invariant(Do(s, step))
  {
    if step.WriteBack? {
      WriteBackIsEnd(s);
      RequestKeepsSync(s.server.base, s.server.request);
    } else if step.Effect? {
      EffectAdvances(s);
    }
  }

  lemma WriteBackIsEnd(s: System)
    requires ServerFits(s) && Enabled(s, WriteBack)
    ensures Now(Do(s, WriteBack)) == End(s.server.base, s.server.trail)
  {
  }

  lemma EffectAdvances(s: System)
    requires ServerFits(s) && Enabled(s, Effect)
    ensures ServerFits(Do(s, Effect)) && Do(s, Effect).shared == s.shared
  {
  }

  lemma OtherStepKeeps(s: System, step: Step)
    requires Invariant(s) && Enabled(s, step) && !(step.Effect? || step.WriteBack? || step.CopyState?)
    ensures Invariant(Do(s, step))
  {
  }

  // ---- Runs

  predicate Start(s: System) {
    s.server.Listening? && s.control.Resting? && s.gate.Nobody? && SyncHonest(Now(s))
  }

  predicate IsRun(s: System, steps: seq<Step>) {
    steps == [] || (var n := |steps| - 1; IsRun(s, steps[..n]) && Enabled(After(s, steps[..n]), steps[n]))
  }

  function After(s: System, steps: seq<Step>): System {
    if steps == [] then s
    else
      var n := |steps| - 1;
      var before := After(s, steps[..n]);
      if Enabled(before, steps[n]) then Do(before, steps[n]) else before
  }

  lemma {:induction false} RunKeepsInvariant(s: System, steps: seq<Step>)
    requires Start(s) && IsRun(s, steps)
    ensures Invariant(After(s, steps))
  {
    if steps == [] {
    } else {
      var n := |steps| - 1;
      RunKeepsInvariant(s, steps[..n]);
      StepKeepsInvariant(After(s, steps[..n]), steps[n]);
    }
  }

  /**
    For every interleaving: when a policy request writes its copy back, the shared state is still the one it
    copied, so the outcome is that of running the whole request on the current state and nothing else is lost.
   */
  lemma {:induction false} NoUpdateIsLost(s: System, steps: seq<Step>)
    requires Start(s) && IsRun(s, steps) && Enabled(After(s, steps), WriteBack)
    ensures var now := After(s, steps);
            && now.server.base.state == now.shared
            && Now(Do(now, WriteBack)) == End(now.server.base, TrailOf(now.server.base, now.server.request))
  {
    RunKeepsInvariant(s, steps);
    WriteBackIsEnd(After(s, steps));
  }

  /** While a control iteration acts, its policy snapshot is still the shared policy; the two threads never overlap. */
  lemma {:induction false} PolicyIsStable(s: System, steps: seq<Step>)
    requires Start(s) && IsRun(s, steps) && After(s, steps).control.Acting?
    ensures var now := After(s, steps);
            SamePolicy(now.control.policy, now.shared) && now.server.Listening? && now.gate.ControlThread?
  {
    RunKeepsInvariant(s, steps);
  }

  /** With the gate held, a hook answer is never stale: the claim is set exactly by a confirmed, ready hook. */
  lemma {:induction false} AnswersAreNeverStale(s: System, steps: seq<Step>, hookReady: bool)
    requires Start(s) && IsRun(s, steps) && Enabled(After(s, steps), Apply(hookReady))
    ensures var now := After(s, steps);
            Do(now, Apply(hookReady)).shared.synced <==> hookReady && now.control.answer == Some(Took)
  {
    RunKeepsInvariant(s, steps);
  }

  /**
    In every reachable state in which no policy request is at work, the sync claim is true of the last payload
    taken.
   */
  lemma {:induction false} SyncClaimIsTrue(s: System, steps: seq<Step>)
    requires Start(s) && IsRun(s, steps)
    ensures !After(s, steps).server.Working? ==> SyncHonest(Now(After(s, steps)))
  {
    RunKeepsInvariant(s, steps);
  }

  predicate Taken(answer: HookAnswer) { answer.Took? || (answer.Broken? && answer.taken) }

  /** How many effects a request has had once it has asked the hook. */
  function AskedAt(plan: Plan): nat { if plan.payload.Some? then 2 else 1 }

  /**
    A config request has given the hook another configuration than the one it had: it got as far as asking, the new
    payload differs, the hook took it, and the old payload was not taken back as the last effect of a rollback.
   */
  predicate HookIsAhead(s: Snapshot, requested: Option<seq<Record>>, a: Answers, at: nat) {
    && GetsThrough(s, requested, a)
    && var after := Merge(s.state.records, requested.value);
       var plan := PlanOf(s, after).value;
       && !WriteUnconfirmed(plan, a) && HookPayload.Encode(s.state.settings, after) != EncodeOf(s.state)
       && Taken(a.hook) && at >= AskedAt(plan)
       && !(!a.hook.Took? && Taken(a.hookBack) && at == AskedAt(plan) + 3)
  }

  lemma AskHookAccepts(s: Snapshot, now: Snapshot, after: seq<Record>, tokens: map<Text.u32, string>, payload: string,
                       a: Answers,
                       at: nat)
    requires EncodeOf(s.state).Some? && at <= |AskHook(s, now, after, tokens, payload, a).states|
    ensures |AskHook(s, now, after, tokens, payload, a).states| == if a.hook.Took? then 2 else 4
    ensures Reached(now, AskHook(s, now, after, tokens, payload, a), at).accepted
            == if at == 4 && Taken(a.hookBack) then EncodeOf(s.state)
               else if at > 0 && Taken(a.hook) then Some(payload)
               else now.accepted
  {
  }

  lemma PersistAccepts(s: Snapshot, after: seq<Record>, plan: Plan, payload: string, a: Answers, at: nat)
    requires EncodeOf(s.state).Some? && s.accepted == EncodeOf(s.state)
    requires at <= |Persist(s, after, plan, payload, a).states|
    ensures Reached(s, Persist(s, after, plan, payload, a), at).accepted != s.accepted
            <==> && !WriteUnconfirmed(plan, a) && Some(payload) != EncodeOf(s.state) && Taken(a.hook)
                 && at >= AskedAt(plan)
                 && !(!a.hook.Took? && Taken(a.hookBack) && at == AskedAt(plan) + 3)
  {
    if !WriteUnconfirmed(plan, a) && at >= AskedAt(plan) - 1 {
      var now := s.(disk := DiskAfter(s, plan, a.write));
      AskHookAccepts(s, now, after, plan.tokens, payload, a, at - (AskedAt(plan) - 1));
    }
  }

  lemma ConfigRequestAccepts(s: Snapshot, requested: Option<seq<Record>>, a: Answers, at: nat)
    requires SyncHonest(s) && s.state.synced && at <= |SetAppConfig(s, requested, a).states|
    ensures Reached(s, SetAppConfig(s, requested, a), at).accepted != s.accepted <==> HookIsAhead(s, requested, a, at)
  {
    if GetsThrough(s, requested, a) {
      var after := Merge(s.state.records, requested.value);
      PersistAccepts(s, after, PlanOf(s, after).value, HookPayload.Encode(s.state.settings, after).value, a, at);
    }
  }

  /** A request at work, after `at` of its effects: when what the hook holds is no longer what a sync claim says. */
  predicate ClaimIsAhead(base: Snapshot, r: Request, at: nat) {
    base.state.synced && r.AppConfigRequest? && HookIsAhead(base, r.requested, r.answers, at)
  }

  /**
    While a request is at work the claim may be ahead of the hook: exactly if it started from a synced state and is a
    config request that has given the hook another configuration. A settings request never breaks the claim.
   */
  lemma {:induction false} SyncClaimInFlight(s: System, steps: seq<Step>)
    requires Start(s) && IsRun(s, steps) && After(s, steps).server.Working?
    ensures var now := After(s, steps);
            SyncHonest(Now(now)) <==> !ClaimIsAhead(now.server.base, now.server.request, now.server.at)
  {
    RunKeepsInvariant(s, steps);
    WorkingClaim(After(s, steps));
  }

  lemma WorkingClaim(s: System)
    requires Invariant(s) && s.server.Working?
    ensures SyncHonest(Now(s)) <==> !ClaimIsAhead(s.server.base, s.server.request, s.server.at)
  {
    var base, r, at := s.server.base, s.server.request, s.server.at;
    if base.state.synced {
      match r
      case AppConfigRequest(requested, a) => ConfigRequestAccepts(base, requested, a, at);
      case SettingRequest(payload, w, readBack) => assert Reached(base, TrailOf(base, r), at).accepted == base.accepted;
    }
  }

  /** Every such state is reached: the claim is ahead there exactly if the request, its answers and `at` say so. */
  lemma {:induction false} SyncClaimCanBeAhead(s: System, request: Request, at: nat) returns (steps: seq<Step>)
    requires Start(s) && at <= |TrailOf(Now(s), request).states|
    ensures IsRun(s, steps) && After(s, steps).server == Working(request, Now(s), TrailOf(Now(s), request), at)
    ensures SyncHonest(Now(After(s, steps))) <==> !ClaimIsAhead(Now(s), request, at)
  {
    steps := Effects(s, request, TrailOf(Now(s), request), at);
    SyncClaimInFlight(s, steps);
  }

  /**
    Whenever the gate is free, a control iteration can run, whatever the hook answers: it acts on the shared policy as
    it is, and sets the claim exactly if a ready hook took the payload of that policy.
   */
  lemma {:induction false} IterationRuns(s: System, before: seq<Step>, answer: HookAnswer, hookReady: bool, other: nat)
    returns (steps: seq<Step>)
    requires Start(s) && IsRun(s, before)
    requires var now := After(s, before); now.control.Resting? && now.gate.Nobody?
    ensures IsRun(s, before + steps)
    ensures After(s, before + steps) == Iterated(After(s, before), answer, hookReady, other)
  {
    var asked := IterationAsks(s, before, answer);
    var now := After(s, before);
    AnswerLeads(now, answer, hookReady, other);
    RunSnoc(s, asked, Apply(hookReady));
    RunSnoc(s, asked + [Apply(hookReady)], Act);
    RunSnoc(s, asked + [Apply(hookReady)] + [Act], Finish(other));
    steps := [Enter, Prepare, Ask(answer)] + [Apply(hookReady), Act, Finish(other)];
    ThreeMore(asked, Apply(hookReady), Act, Finish(other));
    SixMore(before, [Enter, Prepare, Ask(answer)], [Apply(hookReady), Act, Finish(other)]);
  }

  /** The state after an undisturbed iteration. */
  function Iterated(now: System, answer: HookAnswer, hookReady: bool, other: nat): System {
    var payload := EncodeOf(now.shared);
    now.(shared := now.shared.(synced := hookReady && payload.Some? && answer == Took, other := other),
         accepted := if payload.None? then now.accepted else AfterHook(now.accepted, payload.value, answer))
  }

  lemma AnswerLeads(now: System, answer: HookAnswer, hookReady: bool, other: nat)
    requires now.control.Resting? && now.gate.Nobody?
    ensures var asked := HookAsked(now, answer);
            && Enabled(asked, Apply(hookReady)) && Do(asked, Apply(hookReady)).control.Acting?
            && Do(Do(asked, Apply(hookReady)), Finish(other)) == Iterated(now, answer, hookReady, other)
  {
    AppliedAnswer(now.shared, answer, hookReady);
  }

  lemma AppliedAnswer(s: Shared, answer: HookAnswer, hookReady: bool)
    ensures var payload := EncodeOf(s);
            SyncHolds(s, payload, s.revision, if payload.None? then None else Some(answer))
            <==> payload.Some? && answer == Took
  {
  }

  lemma SixMore<T>(s: seq<T>, a: seq<T>, b: seq<T>)
    ensures s + a + b == s + (a + b)
  {
  }

  /** The first half of an iteration, up to the hook's answer. */
  function HookAsked(now: System, answer: HookAnswer): System {
    var payload := EncodeOf(now.shared);
    now.(control := Answered(payload, now.shared.revision, if payload.None? then None else Some(answer)),
         gate := ControlThread,
         accepted := if payload.None? then now.accepted else AfterHook(now.accepted, payload.value, answer))
  }

  lemma {:induction false} IterationAsks(s: System, before: seq<Step>, answer: HookAnswer) returns (asked: seq<Step>)
    requires Start(s) && IsRun(s, before)
    requires var now := After(s, before); now.control.Resting? && now.gate.Nobody?
    ensures asked == before + [Enter, Prepare, Ask(answer)] && IsRun(s, asked)
    ensures After(s, asked) == HookAsked(After(s, before), answer)
  {
    RunSnoc(s, before, Enter);
    RunSnoc(s, before + [Enter], Prepare);
    RunSnoc(s, before + [Enter] + [Prepare], Ask(answer));
    AskingLeads(After(s, before), answer);
    asked := before + [Enter] + [Prepare] + [Ask(answer)];
    ThreeMore(before, Enter, Prepare, Ask(answer));
  }

  lemma AskingLeads(now: System, answer: HookAnswer)
    requires now.control.Resting? && now.gate.Nobody?
    ensures Do(Do(Do(now, Enter), Prepare), Ask(answer)) == HookAsked(now, answer)
  {
    PreparingLeads(now, EncodeOf(now.shared));
    AskLeads(now.(control := Prepared(EncodeOf(now.shared), now.shared.revision), gate := ControlThread), answer);
  }

  lemma PreparingLeads(now: System, payload: Option<string>)
    requires now.control.Resting? && now.gate.Nobody? && payload == EncodeOf(now.shared)
    ensures Do(Do(now, Enter), Prepare)
            == now.(control := Prepared(payload, now.shared.revision), gate := ControlThread)
  {
  }

  lemma AskLeads(s: System, answer: HookAnswer)
    requires s.control.Prepared?
    ensures var c := s.control;
            Do(s, Ask(answer))
            == s.(control := Answered(c.payload, c.revision, if c.payload.None? then None else Some(answer)),
                  accepted := if c.payload.None? then s.accepted else AfterHook(s.accepted, c.payload.value, answer))
  {
  }

  lemma ThreeMore<T>(s: seq<T>, a: T, b: T, c: T)
    ensures s + [a] + [b] + [c] == s + [a, b, c]
  {
  }

  /** One such state: a managed app is about to become whitelisted. */
  lemma SyncClaimAheadExample() returns (s: System, steps: seq<Step>)
    ensures Start(s) && IsRun(s, steps) && !SyncHonest(Now(After(s, steps)))
  {
    var was, now := Record(10001, 10, true), Record(10001, 40, true);
    var settings: seq<byte> := DefaultSettings();
    var a := Answers(true, Written, true, Took, Written, Took);
    OneRecordEncodes(settings, was);
    OneRecordEncodes(settings, now);
    OneRecordMerges(was, now);
    s := System(Shared(settings, [was], map[10001 := "10001"], true, 0, true, true, 0),
                Disk(Some(Utf8("10001 10 1\n")), None), HookPayload.Encode(settings, [was]), Listening, Resting,
                  Nobody);
    PayloadsDiffer(settings, was, now);
    PlanWrites(Now(s), [now]);
    AskedWithTwoEffects(Now(s), [now], a);
    steps := SyncClaimCanBeAhead(s, AppConfigRequest(Some([now]), a), 2);
  }

  lemma PlanWrites(s: Snapshot, after: seq<Record>)
    requires s.disk.config.Some? && s.disk.config.value.Utf8? && after != s.state.records
    ensures PlanOf(s, after).Some? && PlanOf(s, after).value.payload.Some?
  {
  }

  lemma PayloadsDiffer(settings: seq<byte>, was: Record, now: Record)
    requires 1 <= |settings| && was.uid == now.uid && 10_000 <= was.uid <= HookPayload.MAX_LEGACY_UID
    requires HookPayload.Managed(was) && !HookPayload.Managed(now)
    ensures HookPayload.Encode(settings, [was]) != HookPayload.Encode(settings, [now])
  {
    OneRecordEncodes(settings, was);
    OneRecordEncodes(settings, now);
    HookPayload.HookReadsWhatDaemonWrites(settings, [was], |settings|);
    HookPayload.HookReadsWhatDaemonWrites(settings, [now], |settings|);
    assert was in [was] && was.uid as int in HookPayload.ManagedUids([was]);
    assert HookPayload.ManagedUids([now]) == {};
  }

  lemma OneRecordMerges(was: Record, now: Record)
    requires was.uid == now.uid && was.uid != Text.U32_MAX
    ensures Merge([was], [now]) == [now]
  {
    assert Lookup([now], was.uid) == Some(now);
    assert was in [was];
    assert Others([now], [was]) == [];
  }

  lemma OneRecordEncodes(settings: seq<byte>, r: Record)
    requires r.uid <= HookPayload.MAX_LEGACY_UID
    ensures HookPayload.Encode(settings, [r]).Some?
  {
  }

  lemma AskedWithTwoEffects(s: Snapshot, requested: seq<Record>, a: Answers)
    requires GetsThrough(s, Some(requested), a) && a.write.Written? && a.hook.Took?
    ensures |SetAppConfig(s, Some(requested), a).states| >= 2
  {
  }

  lemma RequestStarts(s: System, request: Request) returns (steps: seq<Step>)
    requires Start(s)
    ensures IsRun(s, steps)
    ensures After(s, steps) == s.(server := Working(request, Now(s), TrailOf(Now(s), request), 0), gate := ServerThread)
  {
    steps := [] + [TakeGate(request)];
    RunSnoc(s, [], TakeGate(request));
    RunSnoc(s, steps, CopyState);
    steps := steps + [CopyState];
  }

  lemma {:induction false} Effects(s: System, request: Request, trail: Trail, at: nat) returns (steps: seq<Step>)
    requires Start(s) && trail == TrailOf(Now(s), request) && at <= |trail.states|
    ensures IsRun(s, steps) && After(s, steps).shared == s.shared
    ensures After(s, steps).server == Working(request, Now(s), trail, at)
  {
    steps := RequestStarts(s, request);
    steps := MoreEffects(s, steps, at);
  }

  lemma {:induction false} MoreEffects(s: System, before: seq<Step>, more: nat) returns (steps: seq<Step>)
    requires IsRun(s, before) && After(s, before).server.Working?
    requires After(s, before).server.at + more <= |After(s, before).server.trail.states|
    ensures IsRun(s, steps) && After(s, steps).shared == After(s, before).shared
    ensures After(s, steps).server == After(s, before).server.(at := After(s, before).server.at + more)
  {
    if more == 0 {
      steps := before;
    } else {
      var fewer := MoreEffects(s, before, more - 1);
      steps := OneEffect(s, fewer);
    }
  }

  lemma {:induction false} OneEffect(s: System, before: seq<Step>) returns (steps: seq<Step>)
    requires IsRun(s, before) && Enabled(After(s, before), Effect)
    ensures IsRun(s, steps) && After(s, steps).shared == After(s, before).shared
    ensures After(s, steps).server == After(s, before).server.(at := After(s, before).server.at + 1)
  {
    RunSnoc(s, before, Effect);
    steps := before + [Effect];
  }

  lemma {:induction false} RunSnoc(s: System, steps: seq<Step>, step: Step)
    requires IsRun(s, steps) && Enabled(After(s, steps), step)
    ensures IsRun(s, steps + [step]) && After(s, steps + [step]) == Do(After(s, steps), step)
  {
    assert (steps + [step])[..|steps|] == steps;
  }

  // ---- Memory and disk over runs

  /** A request that settles every stored line and whose file accesses do not leave disk and memory apart. */
  ghost predicate Tame(s: Snapshot, r: Request, resolve: Resolver) {
    r.AppConfigRequest? ==> !Diverges(r.answers) && (r.requested.Some? ==> Settles(s, r.requested.value, resolve))
  }

  /** Every request is tame on the state it copies. */
  ghost predicate TameRun(s: System, steps: seq<Step>, resolve: Resolver) {
    if steps == [] then true
    else
      var n := |steps| - 1;
      var before := After(s, steps[..n]);
      && TameRun(s, steps[..n], resolve)
      && (steps[n].CopyState? && before.server.AtGate? ==> Tame(Now(before), before.server.request, resolve))
  }

  /** What a request at work started from, or the current state. */
  function Settled(s: System): Snapshot { if s.server.Working? then s.server.base else Now(s) }

  ghost predicate DiskFits(s: System, resolve: Resolver) {
    && Agrees(Settled(s), resolve)
    && (s.server.Working? ==> Tame(s.server.base, s.server.request, resolve))
  }

  lemma TameRequestAgrees(s: Snapshot, r: Request, resolve: Resolver)
    requires Agrees(s, resolve) && Honest(resolve) && Tame(s, r, resolve)
    ensures Agrees(End(s, TrailOf(s, r)), resolve)
  {
    match r
    case AppConfigRequest(requested, a) =>
      if requested.Some? { DiskFollowsMemory(s, resolve, requested.value, a); } else { StoppedEarly(s, requested, a); }
    case SettingRequest(payload, w, readBack) => SettingsLeaveConfig(s, payload, w, readBack);
  }

  lemma SettingsLeaveConfig(s: Snapshot, payload: seq<byte>, w: WriteResult, readBack: bool)
    ensures var end := End(s, SetSettings(s, payload, w, readBack));
            end.disk.config == s.disk.config && end.state.records == s.state.records
              && end.state.tokens == s.state.tokens
  {
  }

  lemma StepKeepsDisk(s: System, step: Step, resolve: Resolver)
    requires Invariant(s) && DiskFits(s, resolve) && Honest(resolve) && Enabled(s, step)
    requires step.CopyState? ==> Tame(Now(s), s.server.request, resolve)
    ensures DiskFits(Do(s, step), resolve)
  {
    if step.WriteBack? {
      WriteBackIsEnd(s);
      TameRequestAgrees(s.server.base, s.server.request, resolve);
    } else if !step.Effect? {
      assert Do(s, step).disk == s.disk && Do(s, step).shared.records == s.shared.records;
      assert Do(s, step).shared.tokens == s.shared.tokens;
    }
  }

  /** In every interleaving of tame requests, whenever none is at work the file reloads as what memory holds. */
  lemma {:induction false} DiskFollowsEveryRun(s: System, steps: seq<Step>, resolve: Resolver)
    requires Start(s) && IsRun(s, steps) && Agrees(Now(s), resolve) && Honest(resolve) && TameRun(s, steps, resolve)
    ensures DiskFits(After(s, steps), resolve)
  {
    if steps == [] {
    } else {
      var n := |steps| - 1;
      DiskFollowsEveryRun(s, steps[..n], resolve);
      RunKeepsInvariant(s, steps[..n]);
      StepKeepsDisk(After(s, steps[..n]), steps[n], resolve);
    }
  }

  // ---- The case of distinct UIDs

  /** A request with distinct UIDs whose file accesses do not leave disk and memory apart. */
  ghost predicate Plain(r: Request) {
    r.AppConfigRequest? ==> !Diverges(r.answers) && (r.requested.Some? ==> Distinct(r.requested.value))
  }

  ghost predicate DistinctFits(s: System) {
    Distinct(Settled(s).state.records) && (!s.server.Listening? ==> Plain(s.server.request))
  }

  lemma PlainStaysDistinct(s: Snapshot, r: Request)
    requires Distinct(s.state.records) && Plain(r)
    ensures Distinct(End(s, TrailOf(s, r)).state.records)
  {
    match r
    case AppConfigRequest(requested, a) =>
      ConfigIsAllOrNothing(s, requested, a);
      if requested.Some? { MergeStaysDistinct(s.state.records, requested.value); }
    case SettingRequest(payload, w, readBack) => SettingsLeaveConfig(s, payload, w, readBack);
  }

  lemma StepKeepsDistinct(s: System, step: Step)
    requires Invariant(s) && DistinctFits(s) && Enabled(s, step) && (step.TakeGate? ==> Plain(step.request))
    ensures DistinctFits(Do(s, step))
  {
    if step.WriteBack? {
      WriteBackIsEnd(s);
      PlainStaysDistinct(s.server.base, s.server.request);
    } else if !step.Effect? {
      assert Do(s, step).shared.records == s.shared.records;
    }
  }

  /** With distinct UIDs in memory and in every request, all requests are tame. */
  lemma {:induction false} DistinctRunIsTame(s: System, steps: seq<Step>, resolve: Resolver)
    requires Start(s) && IsRun(s, steps) && Agrees(Now(s), resolve) && Honest(resolve) && Distinct(s.shared.records)
    requires forall i :: 0 <= i < |steps| && steps[i].TakeGate? ==> Plain(steps[i].request)
    ensures TameRun(s, steps, resolve) && DistinctFits(After(s, steps))
  {
    if steps == [] {
    } else {
      var n := |steps| - 1;
      var before := After(s, steps[..n]);
      DistinctRunIsTame(s, steps[..n], resolve);
      RunKeepsInvariant(s, steps[..n]);
      DiskFollowsEveryRun(s, steps[..n], resolve);
      StepKeepsDistinct(before, steps[n]);
      if steps[n].CopyState? { PlainIsTame(Now(before), before.server.request, resolve); }
    }
  }

  lemma PlainIsTame(s: Snapshot, r: Request, resolve: Resolver)
    requires Agrees(s, resolve) && Honest(resolve) && Distinct(s.state.records) && Plain(r)
    ensures Tame(s, r, resolve)
  {
    if r.AppConfigRequest? && r.requested.Some? { DistinctDiskFollows(s, resolve, r.requested.value, r.answers); }
  }
}
