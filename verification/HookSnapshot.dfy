/** What the hook remembers between the daemon's requests, and when it suppresses an app's background work. */
module HookSnapshot {
  import opened Domain
  import HookPayload

  const MIN_UID: int := 10_000
  const MAX_AGE_MS: nat := 15_000

  // ---- The copy-on-write sets

  ghost predicate Distinct(v: seq<int>) { forall i, j :: 0 <= i < j < |v| ==> v[i] != v[j] }

  /** A small set in an array that is replaced, never changed. */
  class VectorSet {
    var vector: seq<int>

    constructor ()
      ensures vector == []
    {
      vector := [];
    }

    method Add(n: int)
      requires Distinct(vector)
      modifies this
      ensures Distinct(vector) && vector == if n in old(vector) then old(vector) else old(vector) + [n]
    {
      for i := 0 to |vector|
        invariant n !in vector[..i] && vector == old(vector)
      {
        if vector[i] == n { return; }
      }
      vector := vector + [n];
    }

    /** The last element takes the place of the erased one. */
    method Erase(n: int)
      requires Distinct(vector)
      modifies this
      ensures Distinct(vector) && forall x :: x in vector <==> x in old(vector) && x != n
      ensures |vector| == if n in old(vector) then |old(vector)| - 1 else |old(vector)|
    {
      var current := vector;
      for i := 0 to |current|
        invariant n !in current[..i] && vector == current
      {
        if current[i] == n {
          var last := |current| - 1;
          vector := if i < last then current[..i] + [current[last]] + current[i + 1..last] else current[..last];
          forall x ensures x in vector <==> x in current && x != n {
            if x in current && x != n {
              var k :| 0 <= k < |current| && current[k] == x;
              assert vector[if k == last then i else k] == x;
            }
          }
          return;
        }
      }
    }

    /** System UIDs are never members. */
    method Contains(n: int) returns (r: bool)
      ensures r == (n >= MIN_UID && n in vector)
    {
      r := false;
      if n < MIN_UID { return; }
      for i := 0 to |vector|
        invariant n !in vector[..i] && !r
      {
        if vector[i] == n { return true; }
      }
    }
  }

  // ---- The hook's state

  datatype Snapshot =
    Snapshot(managed: set<int>, foreground: set<int>, pending: set<int>, foregroundAt: int, pendingAt: int)

  /** `generation` is the identity of the managed-app set; 0 is the one no snapshot belongs to yet. */
  datatype State = State(generation: nat, snapshot: Snapshot)

  function Unpublished(managed: set<int>): Snapshot { Snapshot(managed, {}, {}, -1, -1) }

  predicate Fresh(at: int, now: int) { at >= 0 && now >= at && now - at <= MAX_AGE_MS }

  predicate Member(uid: int, s: set<int>) { uid >= MIN_UID && uid in s }

  predicate Suppresses(s: Snapshot, uid: int, now: int) {
    && Member(uid, s.managed) && !Member(uid, s.foreground) && !Member(uid, s.pending)
    && Fresh(s.foregroundAt, now) && Fresh(s.pendingAt, now)
  }

  /** A request that took effect or was turned away; publications carry the generation they were prepared for. */
  datatype Event =
    | Configured(managed: set<int>)
    | Foreground(expected: nat, uids: set<int>, at: nat)
    | Pending(expected: nat, uids: set<int>, at: nat)

  predicate Counts(s: State, expected: nat) { s.generation > 0 && expected == s.generation }

  function Do(s: State, e: Event): State {
    match e
    case Configured(managed) => State(s.generation + 1, Unpublished(managed))
    case Foreground(expected, uids, at) =>
      if Counts(s, expected) then s.(snapshot := s.snapshot.(foreground := uids, foregroundAt := at, pendingAt := -1))
      else s
    case Pending(expected, uids, at) =>
      if Counts(s, expected) then s.(snapshot := s.snapshot.(pending := uids, pendingAt := at)) else s
  }

  function After(events: seq<Event>): State {
    if events == [] then State(0, Unpublished({})) else Do(After(events[..|events| - 1]), events[|events| - 1])
  }

  // ---- The service

  class HookService {
    var generation: nat
    var snapshot: Snapshot
    var settings: seq<int>
    var managedApp: set<int>
    var permissive: set<int>
    var initialized: bool
    ghost var history: seq<Event>
    ghost var lookups: seq<bool>

    constructor (settings: seq<int>)
      ensures Fits() && this.settings == settings && history == [] && lookups == [] && !initialized
    {
      generation, snapshot, managedApp, permissive := 0, Unpublished({}), {}, {};
      this.settings, initialized := settings, false;
      history, lookups := [], [];
    }

    ghost predicate Fits()
      reads this
    {
      State(generation, snapshot) == After(history) && (generation > 0 ==> snapshot.managed == managedApp)
    }

    /** `handleConfig`: all of a payload takes effect or none of it. */
    method HandleConfig(payload: string) returns (ok: bool)
      requires Fits()
      modifies this
      ensures Fits()
      ensures ok ==> HookPayload.Parse(payload, |old(settings)|).Some?
      ensures ok ==> var p := HookPayload.Parse(payload, |old(settings)|).value;
                managedApp == p.managed && permissive == p.permissive
                  && history == old(history) + [Configured(p.managed)]
                && |p.settings| <= |old(settings)| && settings == p.settings + old(settings)[|p.settings|..]
      ensures !ok ==> history == old(history) && settings == old(settings) && managedApp == old(managedApp)
                      && permissive == old(permissive) && snapshot == old(snapshot)
      // A payload that parses is refused only if the system's fields are still looked for and not found.
      ensures HookPayload.Parse(payload, |old(settings)|).Some? ==>
              lookups == old(lookups) + if old(initialized) then [] else [ok]
      ensures HookPayload.Parse(payload, |old(settings)|).Some? && !ok ==> !old(initialized) && !initialized
    {
      var parsed := HookPayload.HandleConfig(payload, |settings|);
      if parsed.None? { return false; }
      if !initialized {
        initialized := FindFields();
        if !initialized { return false; }
      }
      ParsedFits(payload, |settings|);
      Install(parsed.value);
      ok := true;
    }

    /** `Config.Init`: whether the system server has the fields the hook needs. */
    method FindFields() returns (found: bool)
      modifies this`lookups
      ensures lookups == old(lookups) + [found]
    {
      found := *;
      lookups := lookups + [found];
    }

    /** The publication at the end of `handleConfig`, under the lock of the configuration. */
    method Install(p: HookPayload.Parsed)
      requires Fits() && |p.settings| <= |settings|
      modifies this`settings, this`managedApp, this`permissive, this`generation, this`snapshot, this`history
      ensures Fits() && managedApp == p.managed && permissive == p.permissive
      ensures history == old(history) + [Configured(p.managed)]
      ensures settings == p.settings + old(settings)[|p.settings|..]
    {
      settings := p.settings + settings[|p.settings|..];
      managedApp, permissive := p.managed, p.permissive;
      generation, snapshot := generation + 1, Unpublished(p.managed);
      history := history + [Configured(p.managed)];
      assert history[..|history| - 1] == old(history);
    }

    /** `publishForegroundSnapshot`: a new scan un-pairs the pending set. */
    method PublishForeground(expected: nat, uids: set<int>, now: nat) returns (ok: bool)
      requires Fits()
      modifies this`snapshot, this`history
      ensures Fits() && history == old(history) + [Event.Foreground(expected, uids, now)]
      ensures ok == (generation > 0 && expected == generation)
    {
      ok := generation > 0 && expected == generation;
      if ok { snapshot := Snapshot(snapshot.managed, uids, snapshot.pending, now, -1); }
      history := history + [Event.Foreground(expected, uids, now)];
      assert history[..|history| - 1] == old(history);
    }

    method PublishPending(expected: nat, uids: set<int>, now: nat) returns (ok: bool)
      requires Fits()
      modifies this`snapshot, this`history
      ensures Fits() && history == old(history) + [Pending(expected, uids, now)]
      ensures ok == (generation > 0 && expected == generation)
    {
      ok := generation > 0 && expected == generation;
      if ok { snapshot := Snapshot(snapshot.managed, snapshot.foreground, uids, snapshot.foregroundAt, now); }
      history := history + [Pending(expected, uids, now)];
      assert history[..|history| - 1] == old(history);
    }

    /** `handlePendingApp`: one unmanaged UID refuses the whole list. */
    method HandlePending(uids: seq<int>, now: nat) returns (ok: bool)
      requires Fits()
      modifies this`snapshot, this`history
      ensures Fits()
      ensures ok <==> generation > 0 && forall i :: 0 <= i < |uids| ==> Member(uids[i], managedApp)
      ensures ok ==> history == old(history) + [Pending(generation, (set x | x in uids), now)]
      ensures !ok ==> snapshot == old(snapshot)
    {
      var expected := generation;
      var next := new VectorSet();
      for i := 0 to |uids|
        invariant Distinct(next.vector) && (forall x :: x in next.vector <==> x in uids[..i]) && fresh(next)
        invariant forall k :: 0 <= k < i ==> Member(uids[k], managedApp)
        invariant Fits() && history == old(history) && snapshot == old(snapshot)
      {
        if !Member(uids[i], managedApp) { return false; }
        assert uids[..i + 1] == uids[..i] + [uids[i]];
        next.Add(uids[i]);
      }
      assert uids[..|uids|] == uids;
      var pending := set x | x in next.vector;
      assert pending == set x | x in uids;
      ok := PublishPending(expected, pending, now);
    }

    /** `handleWakeupLock` as far as the snapshot goes: ignoring wake locks publishes an empty foreground set. */
    method HandleWakeLock(ignore: bool, now: nat) returns (ok: bool)
      requires Fits()
      modifies this`snapshot, this`history
      ensures Fits() && history == old(history) + if ignore then [Event.Foreground(generation, {}, now)] else []
    {
      ok := true;
      if ignore { ok := PublishForeground(generation, {}, now); }
    }

    /** `shouldSuppressBackgroundWork`. */
    method ShouldSuppress(uid: int, now: int) returns (r: bool)
      requires Fits()
      ensures r == Suppresses(After(history).snapshot, uid, now)
    {
      var s := snapshot;
      if !Member(uid, s.managed) || Member(uid, s.foreground) || Member(uid, s.pending) { return false; }
      r := Fresh(s.foregroundAt, now) && Fresh(s.pendingAt, now);
    }
  }

  lemma ParsedFits(payload: string, capacity: nat)
    ensures HookPayload.Parse(payload, capacity).Some? ==>
            |HookPayload.Parse(payload, capacity).value.settings| <= capacity
  {
    var lines := HookPayload.PayloadLines(payload);
    if HookPayload.Parse(payload, capacity).Some? { SettingsCount(HookPayload.ConfigWords(lines[0])); }
  }

  lemma {:induction false} SettingsCount(words: seq<string>)
    requires HookPayload.ParseSettings(words).Some?
    ensures |HookPayload.ParseSettings(words).value| == |words|
  {
    if words == [] {
    } else {
      SettingsCount(words[..|words| - 1]);
    }
  }

  // ---- Suppression, read off the history alone

  /** How many configurations have been accepted. */
  function Configurations(events: seq<Event>): nat {
    if events == [] then 0
    else Configurations(events[..|events| - 1]) + if events[|events| - 1].Configured? then 1 else 0
  }

  /** Event `i` was a publication prepared for the configuration in force, the last one accepted before it. */
  predicate Published(events: seq<Event>, i: nat)
    requires i < |events|
    decreases |events|
  {
    var n := |events| - 1;
    if i < n then Published(events[..n], i)
    else !events[n].Configured? && events[n].expected > 0 && events[n].expected == Configurations(events[..n])
  }

  lemma {:induction false} GenerationCounts(events: seq<Event>)
    ensures After(events).generation == Configurations(events)
  {
    if events == [] {
    } else {
      GenerationCounts(events[..|events| - 1]);
    }
  }

  /** The last accepted configuration. */
  ghost predicate LastConfig(events: seq<Event>, c: nat) {
    && c < |events| && events[c].Configured?
    && forall i :: c < i < |events| ==> !events[i].Configured?
  }

  /** The last foreground set published since then. */
  ghost predicate LastForeground(events: seq<Event>, c: nat, f: nat) {
    && c < f < |events| && events[f].Foreground? && Published(events, f)
    && forall i :: f < i < |events| && events[i].Foreground? ==> !Published(events, i)
  }

  /** The last pending set published after that. */
  ghost predicate LastPending(events: seq<Event>, f: nat, p: nat) {
    && f < p < |events| && events[p].Pending? && Published(events, p)
    && forall i :: p < i < |events| && events[i].Pending? ==> !Published(events, i)
  }

  ghost predicate Justified(events: seq<Event>, c: nat, f: nat, p: nat, uid: int, now: int) {
    && LastConfig(events, c) && LastForeground(events, c, f) && LastPending(events, f, p)
    && uid >= 10_000 && uid in events[c].managed && uid !in events[f].uids && uid !in events[p].uids
    && events[f].at <= now <= events[f].at + 15_000 && events[p].at <= now <= events[p].at + 15_000
  }

  /** Where the three parts of the snapshot come from. */
  datatype Sources = Sources(config: Option<nat>, foreground: Option<nat>, pending: Option<nat>)

  function SourcesOf(events: seq<Event>): Sources {
    if events == [] then Sources(None, None, None)
    else
      var n := |events| - 1;
      var before := SourcesOf(events[..n]);
      if events[n].Configured? then Sources(Some(n), None, None)
      else if !Published(events, n) then before
      else if events[n].Foreground? then before.(foreground := Some(n), pending := None)
      else before.(pending := Some(n))
  }

  predicate IsForeground(events: seq<Event>, i: nat, s: Snapshot) {
    i < |events| && events[i].Foreground? && s.foreground == events[i].uids && s.foregroundAt == events[i].at
  }

  predicate IsPending(events: seq<Event>, i: nat, s: Snapshot) {
    i < |events| && events[i].Pending? && s.pending == events[i].uids && s.pendingAt == events[i].at
  }

  lemma {:induction false} SnapshotComesFromSources(events: seq<Event>)
    ensures var src, s := SourcesOf(events), After(events).snapshot;
            && (src.config.Some? ==> src.config.value < |events| && events[src.config.value].Configured?
                                     && s.managed == events[src.config.value].managed)
            && (src.config.None? ==> s == Unpublished({}) && After(events).generation == 0)
            && (src.foreground.Some? ==> IsForeground(events, src.foreground.value, s))
            && (src.foreground.None? ==> s.foregroundAt == -1)
            && (src.pending.Some? ==> IsPending(events, src.pending.value, s))
            && (src.pending.None? ==> s.pendingAt == -1)
  {
    if events == [] {
    } else {
      var n := |events| - 1;
      SnapshotComesFromSources(events[..n]);
      GenerationCounts(events[..n]);
    }
  }

  ghost predicate NoForeground(events: seq<Event>, after: int) {
    forall i :: 0 <= i < |events| && after < i && events[i].Foreground? ==> !Published(events, i)
  }

  ghost predicate NoPending(events: seq<Event>, after: int) {
    forall i :: 0 <= i < |events| && after < i && events[i].Pending? ==> !Published(events, i)
  }

  lemma {:induction false} ConfigIsLast(events: seq<Event>)
    ensures var c := SourcesOf(events).config;
            if c.Some? then LastConfig(events, c.value)
            else SourcesOf(events) == Sources(None, None, None) && forall i :: 0 <= i < |events| ==>
              !events[i].Configured?
  {
    if events == [] {
    } else {
      var n := |events| - 1;
      ConfigIsLast(events[..n]);
      SnapshotComesFromSources(events[..n]);
      GenerationCounts(events[..n]);
      assert forall i :: 0 <= i < n ==> events[..n][i] == events[i];
    }
  }

  lemma {:induction false} ForegroundIsLast(events: seq<Event>)
    requires SourcesOf(events).config.Some?
    ensures var src := SourcesOf(events);
            if src.foreground.Some? then LastForeground(events, src.config.value, src.foreground.value)
            else NoForeground(events, src.config.value)
  {
    var n := |events| - 1;
    if !events[n].Configured? {
      SnapshotComesFromSources(events[..n]);
      ForegroundIsLast(events[..n]);
      assert forall i :: 0 <= i < n ==>
        events[..n][i] == events[i] && Published(events[..n], i) == Published(events, i);
    }
  }

  lemma {:induction false} PendingIsLast(events: seq<Event>)
    requires SourcesOf(events).foreground.Some?
    ensures var src := SourcesOf(events);
            if src.pending.Some? then LastPending(events, src.foreground.value, src.pending.value)
            else NoPending(events, src.foreground.value)
  {
    var n := |events| - 1;
    SnapshotComesFromSources(events[..n]);
    if !(events[n].Foreground? && Published(events, n)) {
      PendingIsLast(events[..n]);
      assert forall i :: 0 <= i < n ==>
        events[..n][i] == events[i] && Published(events[..n], i) == Published(events, i);
    }
  }

  /** Conversely, the last publications are the sources. */
  lemma {:induction false} LastAreSources(events: seq<Event>, c: nat, f: nat, p: nat)
    requires LastConfig(events, c) && LastForeground(events, c, f) && LastPending(events, f, p)
    ensures SourcesOf(events) == Sources(Some(c), Some(f), Some(p))
  {
    ConfigIsLast(events);
    assert SourcesOf(events).config == Some(c);
    ForegroundIsLast(events);
    assert SourcesOf(events).foreground == Some(f);
    PendingIsLast(events);
  }

  /**
    The hook suppresses an app exactly when, since the last accepted configuration, a foreground set and then a
    pending set were published, no foreground set later, both at most 15 seconds old, with the app managed and in
    neither: over every sequence of requests, of whatever generation they were prepared for.
   */
  lemma {:induction false} SuppressionIsJustified(events: seq<Event>, uid: int, now: int)
    ensures Suppresses(After(events).snapshot, uid, now)
            <==> exists c: nat, f: nat, p: nat :: Justified(events, c, f, p, uid, now)
  {
    SnapshotComesFromSources(events);
    var src := SourcesOf(events);
    if Suppresses(After(events).snapshot, uid, now) {
      ConfigIsLast(events);
      ForegroundIsLast(events);
      PendingIsLast(events);
      assert Justified(events, src.config.value, src.foreground.value, src.pending.value, uid, now);
    }
    if c: nat, f: nat, p: nat :| Justified(events, c, f, p, uid, now) {
      LastAreSources(events, c, f, p);
    }
  }
}
