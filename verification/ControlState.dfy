/** What the daemon remembers about the apps it controls, and the bookkeeping that changes it. */
module ControlStateTracking {
  import opened Domain
  import opened Trace
  import opened Transactions
  import Deferral
  import Audit

  datatype Ownership = SignalOnly | CgroupBinder | ResidualUnknown

  /** A process as a blocked signature remembers it. The source keeps the sorted list, the model its multiset. */
  datatype Mark = Mark(pid: int, package: string, start: Option<nat>)

  type Signature = multiset<Mark>

  function SignatureOf(ps: seq<Process>): Signature {
    if ps == [] then multiset{}
    else SignatureOf(ps[..|ps| - 1]) + multiset{Mark(ps[|ps| - 1].pid, ps[|ps| - 1].package, ps[|ps| - 1].start)}
  }

  datatype View = View(
    frozen: set<Identity>,
    since: map<Identity, nat>,
    ownership: map<Identity, Ownership>,
    pending: map<Identity, nat>,
    blocked: map<Identity, Signature>)

  function At<K, V>(m: map<K, V>, k: K): Option<V> {
    if k in m then Some(m[k]) else None
  }

  function Owner(v: View, id: Identity): Ownership {
    if id in v.ownership then v.ownership[id] else ResidualUnknown
  }

  function Restricted<V>(m: map<Identity, V>, ids: set<Identity>): map<Identity, V> {
    map id | id in m && id in ids :: m[id]
  }

  predicate Unresolved(v: View, id: Identity) {
    if id in v.ownership then v.ownership[id] != SignalOnly else id in v.frozen
  }

  /** The invariant of the tracked state. */
  ghost predicate Consistent(v: View) {
    && v.since.Keys == v.frozen
    && v.frozen <= v.ownership.Keys
    && v.pending.Keys !! v.frozen
    && v.blocked.Keys !! v.frozen
  }

  /** Detached ownership, due times and blocked signatures belong to controlled UIDs only. */
  ghost predicate Scoped(v: View, uids: set<nat>) {
    && (forall id :: id in v.ownership && id !in v.frozen ==> id.uid in uids)
    && (forall id :: id in v.pending ==> id.uid in uids)
    && (forall id :: id in v.blocked ==> id.uid in uids)
  }

  predicate SameAt(a: View, b: View, id: Identity) {
    && (id in a.frozen <==> id in b.frozen)
    && At(a.since, id) == At(b.since, id)
    && At(a.ownership, id) == At(b.ownership, id)
    && At(a.pending, id) == At(b.pending, id)
    && At(a.blocked, id) == At(b.blocked, id)
  }

  ghost predicate OnlyUid(a: View, b: View, uid: nat) {
    forall id: Identity :: id.uid != uid ==> SameAt(a, b, id)
  }

  ghost predicate OnlyIdentity(a: View, b: View, id: Identity) {
    forall other: Identity :: other != id ==> SameAt(a, b, other)
  }

  /** A tainted ownership entry that is still there is still tainted. */
  ghost predicate TaintKept(a: View, b: View) {
    forall id :: id in a.ownership && id in b.ownership && a.ownership[id] != SignalOnly ==>
      b.ownership[id] != SignalOnly
  }

  /** Nothing became SignalOnly. */
  ghost predicate NoNewSignalOnly(a: View, b: View) {
    forall id :: id in b.ownership && b.ownership[id] == SignalOnly ==>
      id in a.ownership && a.ownership[id] == SignalOnly
  }

  // ---- The single-identity updates

  function Tracked(v: View, id: Identity, now: nat, ownership: Ownership): View {
    var owner := if At(v.ownership, id) == Some(ResidualUnknown) || (id in v.frozen && id !in v.ownership)
                 then ResidualUnknown else ownership;
    v.(frozen := v.frozen + {id},
       since := if id in v.since then v.since else v.since[id := now],
       ownership := v.ownership[id := owner])
  }

  function Cleared(v: View, id: Identity): View {
    v.(frozen := v.frozen - {id}, since := v.since - {id}, ownership := v.ownership - {id})
  }

  /** An audit found the app running: it counts as thawed, but its ownership entry survives, weakened. */
  function Abnormal(v: View, id: Identity): View {
    v.(frozen := v.frozen - {id},
       since := v.since - {id},
       ownership := v.ownership[id := if Owner(v, id) == SignalOnly then SignalOnly else ResidualUnknown])
  }

  function WithoutTransient(v: View, uid: nat): View {
    v.(pending := map id | id in v.pending && id.uid != uid :: v.pending[id],
       blocked := map id | id in v.blocked && id.uid != uid :: v.blocked[id])
  }

  /** No detached ownership left for these UIDs. */
  function WithoutDetached(v: View, uids: set<nat>): View {
    v.(ownership := map id | id in v.ownership && (id in v.frozen || id.uid !in uids) :: v.ownership[id])
  }

  // ---- Thawing a list of identities

  /** One thaw attempt: the discovery answer and, for a batch of the identity's own package, every process's result. */
  datatype Thaw = Thaw(found: Option<seq<Process>>, undos: seq<Undo>)

  ghost predicate PlausibleThaw(id: Identity, th: Thaw) {
    |th.undos| == if th.found.Some? && SoleOwner(th.found.value, id.package) then |th.found.value| else 0
  }

  /** The attempt leaves nothing to thaw: the app is gone, or each of its processes was checked and thawed. */
  predicate Clean(id: Identity, th: Thaw) {
    th.found.Some? && SoleOwner(th.found.value, id.package) && AllUndone(th.undos)
  }

  ghost function ThawEvents(id: Identity, owner: Ownership, th: Thaw): seq<Event>
    requires PlausibleThaw(id, th)
  {
    [Discovered(id.uid, th.found)]
    + if th.found.Some? then UnfreezeEvents(th.found.value, owner == SignalOnly, th.undos) else []
  }

  ghost predicate PlausibleThaws(ids: seq<Identity>, thaws: seq<Thaw>) {
    |thaws| == |ids| && forall k :: 0 <= k < |ids| ==> PlausibleThaw(ids[k], thaws[k])
  }

  ghost function AfterThaws(v: View, ids: seq<Identity>, thaws: seq<Thaw>): View
    requires PlausibleThaws(ids, thaws)
  {
    if ids == [] then v
    else
      var n := |ids| - 1;
      var u := AfterThaws(v, ids[..n], thaws[..n]);
      if Clean(ids[n], thaws[n]) then Cleared(u, ids[n]) else u
  }

  ghost function ThawsEvents(v: View, ids: seq<Identity>, thaws: seq<Thaw>): seq<Event>
    requires PlausibleThaws(ids, thaws)
  {
    if ids == [] then []
    else
      var n := |ids| - 1;
      ThawsEvents(v, ids[..n], thaws[..n])
      + ThawEvents(ids[n], Owner(AfterThaws(v, ids[..n], thaws[..n]), ids[n]), thaws[n])
  }

  /** `u` and `t` are the state and the calls after these thaw attempts. */
  ghost predicate ThawRun(v: View, ids: seq<Identity>, thaws: seq<Thaw>, u: View, t: seq<Event>) {
    PlausibleThaws(ids, thaws) && u == AfterThaws(v, ids, thaws) && t == ThawsEvents(v, ids, thaws)
  }

  ghost predicate AllClean(ids: seq<Identity>, thaws: seq<Thaw>)
    requires |ids| == |thaws|
  {
    forall k :: 0 <= k < |ids| ==> Clean(ids[k], thaws[k])
  }

  ghost function CleanOnes(ids: seq<Identity>, thaws: seq<Thaw>): set<Identity>
    requires |ids| == |thaws|
  {
    set k | 0 <= k < |ids| && Clean(ids[k], thaws[k]) :: ids[k]
  }

  class RuntimeControlState {
    var frozenApps: set<Identity>
    var frozenSince: map<Identity, nat>
    var ownership: map<Identity, Ownership>
    var pending: map<Identity, nat>
    var blocked: map<Identity, Signature>
    var audit: Audit.Clock
    const deferral: Deferral.DownloadDeferral

    constructor ()
      ensures Seen() == View({}, map[], map[], map[], map[]) && audit == Audit.Clock(None, None)
      ensures fresh(deferral) && deferral.samples == map[]
    {
      frozenApps, frozenSince, ownership, pending, blocked := {}, map[], map[], map[], map[];
      audit := Audit.Clock(None, None);
      deferral := new Deferral.DownloadDeferral();
    }

    /** The tracked state as one value. */
    function Seen(): View
      reads this
    {
      View(frozenApps, frozenSince, ownership, pending, blocked)
    }

    method TrackFrozen(id: Identity, now: nat, owner: Ownership)
      modifies this`frozenApps, this`frozenSince, this`ownership
      ensures Seen() == Tracked(old(Seen()), id, now, owner)
    {
      var kept := if (id in ownership && ownership[id] == ResidualUnknown) || (id in frozenApps && id !in ownership)
                  then ResidualUnknown else owner;
      frozenApps := frozenApps + {id};
      if id !in frozenSince {
        frozenSince := frozenSince[id := now];
      }
      ownership := ownership[id := kept];
    }

    method ClearFrozen(id: Identity)
      modifies this`frozenApps, this`frozenSince, this`ownership
      ensures Seen() == Cleared(old(Seen()), id)
    {
      frozenApps := frozenApps - {id};
      frozenSince := frozenSince - {id};
      ownership := ownership - {id};
    }

    method MarkAbnormalThaw(id: Identity)
      modifies this`frozenApps, this`frozenSince, this`ownership
      ensures Seen() == Abnormal(old(Seen()), id)
    {
      var owner := Owner(Seen(), id);
      frozenApps := frozenApps - {id};
      frozenSince := frozenSince - {id};
      ownership := ownership[id := if owner == SignalOnly then SignalOnly else ResidualUnknown];
    }

    method ClearTransient(uid: nat)
      modifies this`pending, this`blocked, deferral
      ensures Seen() == WithoutTransient(old(Seen()), uid)
      ensures deferral.samples == Deferral.After(old(deferral.samples), Deferral.Cleared(uid))
    {
      pending := map id | id in pending && id.uid != uid :: pending[id];
      blocked := map id | id in blocked && id.uid != uid :: blocked[id];
      deferral.ClearUid(uid);
    }

    method DropDetached(uids: set<nat>)
      modifies this`ownership
      ensures Seen() == WithoutDetached(old(Seen()), uids)
    {
      ownership := map id | id in ownership && (id in frozenApps || id.uid !in uids) :: ownership[id];
    }

    /** `refreeze_audit_due`. */
    method AuditDue(settings: seq<nat>, now: nat) returns (due: bool)
      modifies this`audit
      ensures due == Audit.Due(old(audit), settings, now)
      ensures audit == Audit.Tick(old(audit), settings, now)
    {
      var started := if audit.started.Some? then audit.started.value else now;
      var interval := if now < started + Audit.PHASE then Some(Audit.MINUTE) else Audit.LateInterval(settings);
      if interval.None? {
        audit := Audit.Clock(Some(started), None);
        return false;
      }
      var next := if audit.next.Some? then audit.next.value else started + Audit.MINUTE;
      if now < next {
        audit := Audit.Clock(Some(started), Some(next));
        return false;
      }
      audit := Audit.Clock(Some(started), Some(now + interval.value));
      return true;
    }

    /** One turn of `thaw_frozen_identities`. */
    method ThawOne(w: World, id: Identity) returns (clean: bool, ghost th: Thaw)
      modifies this`frozenApps, this`frozenSince, this`ownership, w
      ensures PlausibleThaw(id, th) && clean == Clean(id, th)
      ensures Seen() == if clean then Cleared(old(Seen()), id) else old(Seen())
      ensures w.trace == old(w.trace) + ThawEvents(id, Owner(old(Seen()), id), th)
    {
      var found := w.Discover(id.uid);
      ghost var undos := [];
      clean := false;
      if found == Some([]) {
        clean := true;
      } else if found.Some? {
        clean, undos := UnfreezeIdentity(w, id.package, found.value, Owner(Seen(), id) == SignalOnly);
      }
      th := Thaw(found, undos);
      if clean {
        ClearFrozen(id);
      }
    }

    /** The same turn, seen as the next step of a run of thaw attempts. */
    method ThawNext(w: World, id: Identity, ghost v: View, ghost ids: seq<Identity>, ghost thaws: seq<Thaw>,
                    ghost events: seq<Event>)
      returns (clean: bool, ghost thaws': seq<Thaw>, ghost events': seq<Event>)
      requires ThawRun(v, ids, thaws, Seen(), events)
      modifies this`frozenApps, this`frozenSince, this`ownership, w
      ensures ThawRun(v, ids + [id], thaws', Seen(), events + events') && w.trace == old(w.trace) + events'
      ensures AllClean(ids + [id], thaws') <==> AllClean(ids, thaws) && clean
    {
      ghost var u := Seen();
      ghost var th;
      clean, th := ThawOne(w, id);
      ThawsSnoc(v, ids, thaws, u, events, id, th);
      thaws', events' := thaws + [th], ThawEvents(id, Owner(u, id), th);
    }

    /** `thaw_frozen_identities`. */
    method ThawIdentities(w: World, ids: seq<Identity>)
      returns (ok: bool, ghost thaws: seq<Thaw>, ghost events: seq<Event>)
      modifies this`frozenApps, this`frozenSince, this`ownership, w
      ensures ThawRun(old(Seen()), ids, thaws, Seen(), events) && w.trace == old(w.trace) + events
      ensures ok == AllClean(ids, thaws)
    {
      ghost var v, start := Seen(), w.trace;
      ok, thaws, events := true, [], [];
      var n := 0;
      while n < |ids|
        invariant n <= |ids| && w.trace == start + events
        invariant ThawRun(v, ids[..n], thaws, Seen(), events) && ok == AllClean(ids[..n], thaws)
      {
        var clean;
        ghost var more;
        assert ids[..n + 1] == ids[..n] + [ids[n]];
        clean, thaws, more := ThawNext(w, ids[n], v, ids[..n], thaws, events);
        events := events + more;
        ok, n := ok && clean, n + 1;
      }
      assert ids[..n] == ids;
    }

    /** `thaw_all_frozen`: control was disabled, so every tracked app is thawed and nothing else is remembered. */
    method ThawAll(w: World)
      returns (ok: bool, ghost ids: seq<Identity>, ghost thaws: seq<Thaw>, ghost events: seq<Event>)
      requires Consistent(Seen())
      modifies this`frozenApps, this`frozenSince, this`ownership, this`pending, this`blocked, deferral, w
      ensures Listing(ids, old(frozenApps)) && PlausibleThaws(ids, thaws)
      ensures w.trace == old(w.trace) + events && events == ThawsEvents(old(Seen()), ids, thaws)
      ensures Seen() == AfterThawAll(old(Seen()), CleanOnes(ids, thaws))
      ensures ok <==> frozenApps == {}
      ensures deferral.samples == Deferral.After(old(deferral.samples), Deferral.Reset)
    {
      var listed := Listed(frozenApps);
      ids := listed;
      ok, thaws, events := ThawIdentities(w, listed);
      ThawsClearExactlyClean(old(Seen()), ids, thaws);
      AllCleanMeansNoneLeft(old(frozenApps), ids, thaws);
      assert Restricted(old(ownership) - CleanOnes(ids, thaws), frozenApps) == Restricted(old(ownership), frozenApps);
      ownership := Restricted(ownership, frozenApps);
      pending, blocked := map[], map[];
      deferral.Clear();
    }
  }

  /** Control disabled: the cleanly thawed apps are forgotten and the others keep only their tracking entries. */
  function AfterThawAll(v: View, gone: set<Identity>): View {
    var left := v.frozen - gone;
    View(left, v.since - gone, Restricted(v.ownership, left), map[], map[])
  }

  lemma ThawAllKeepsInvariant(v: View, gone: set<Identity>)
    requires Consistent(v)
    ensures var u := AfterThawAll(v, gone);
            && Consistent(u) && TaintKept(v, u) && NoNewSignalOnly(v, u)
            && u.ownership.Keys == u.frozen && u.since.Keys == u.frozen
  {
  }

  lemma AllCleanMeansNoneLeft(frozen: set<Identity>, ids: seq<Identity>, thaws: seq<Thaw>)
    requires Listing(ids, frozen) && |thaws| == |ids|
    ensures AllClean(ids, thaws) <==> frozen - CleanOnes(ids, thaws) == {}
  {
    if frozen - CleanOnes(ids, thaws) == {} {
      forall k | 0 <= k < |ids| ensures Clean(ids[k], thaws[k]) {
        assert ids[k] in ids && ids[k] in frozen;
        assert ids[k] !in frozen - CleanOnes(ids, thaws);
        var j :| 0 <= j < |ids| && Clean(ids[j], thaws[j]) && ids[j] == ids[k];
        assert j == k;
      }
    } else {
      var id :| id in frozen - CleanOnes(ids, thaws);
      assert id in ids;
    }
  }

  lemma ThawsSnoc(v: View, ids: seq<Identity>, thaws: seq<Thaw>, u: View, t: seq<Event>, id: Identity, th: Thaw)
    requires ThawRun(v, ids, thaws, u, t) && PlausibleThaw(id, th)
    ensures ThawRun(v, ids + [id], thaws + [th],
                    if Clean(id, th) then Cleared(u, id) else u, t + ThawEvents(id, Owner(u, id), th))
    ensures AllClean(ids + [id], thaws + [th]) <==> AllClean(ids, thaws) && Clean(id, th)
  {
    assert (ids + [id])[..|ids|] == ids && (thaws + [th])[..|ids|] == thaws;
    assert AllClean(ids + [id], thaws + [th]) ==> AllClean(ids, thaws) && Clean(id, th) by {
      if AllClean(ids + [id], thaws + [th]) {
        assert forall k :: 0 <= k < |ids| ==> (ids + [id])[k] == ids[k] && (thaws + [th])[k] == thaws[k];
        assert Clean((ids + [id])[|ids|], (thaws + [th])[|ids|]);
      }
    }
  }

  /** A list of a set's members, each once. */
  ghost predicate Listing(ids: seq<Identity>, s: set<Identity>) {
    && (forall i, j :: 0 <= i < j < |ids| ==> ids[i] != ids[j])
    && (forall id :: id in ids <==> id in s)
  }

  method Listed(s: set<Identity>) returns (ids: seq<Identity>)
    ensures Listing(ids, s)
  {
    ids := [];
    var rest := s;
    while rest != {}
      invariant rest <= s && Listing(ids, s - rest)
      decreases rest
    {
      var id :| id in rest;
      ids, rest := ids + [id], rest - {id};
    }
  }

  /** Of distinct identities, exactly the cleanly thawed ones stop being tracked; nothing else changes. */
  lemma {:induction false} ThawsClearExactlyClean(v: View, ids: seq<Identity>, thaws: seq<Thaw>)
    requires PlausibleThaws(ids, thaws)
    ensures var u, gone := AfterThaws(v, ids, thaws), CleanOnes(ids, thaws);
            u == v.(frozen := v.frozen - gone, since := v.since - gone, ownership := v.ownership - gone)
  {
    if ids == [] {
    } else {
      var n := |ids| - 1;
      ThawsClearExactlyClean(v, ids[..n], thaws[..n]);
      var front, gone := CleanOnes(ids[..n], thaws[..n]), CleanOnes(ids, thaws);
      assert forall k :: 0 <= k < n ==> ids[..n][k] == ids[k] && thaws[..n][k] == thaws[k];
      assert gone == front + if Clean(ids[n], thaws[n]) then {ids[n]} else {};
    }
  }

  /** Every discovery in these calls found no process. */
  ghost predicate NothingFound(t: seq<Event>) {
    forall e :: e in t && e.Discovered? ==> e.found == Some([])
  }

  /** Attempts whose discoveries find nothing are all clean, and make no other call. */
  lemma {:induction false} NothingFoundIsClean(v: View, ids: seq<Identity>, thaws: seq<Thaw>)
    requires PlausibleThaws(ids, thaws) && NothingFound(ThawsEvents(v, ids, thaws))
    ensures AllClean(ids, thaws) && forall e :: e in ThawsEvents(v, ids, thaws) ==> e.Discovered?
  {
    if ids == [] {
    } else {
      var n := |ids| - 1;
      var u := AfterThaws(v, ids[..n], thaws[..n]);
      var front, last := ThawsEvents(v, ids[..n], thaws[..n]), ThawEvents(ids[n], Owner(u, ids[n]), thaws[n]);
      assert forall e :: e in front || e in last ==> e in front + last;
      NothingFoundIsClean(v, ids[..n], thaws[..n]);
      OneCleanMore(ids, thaws, n);
      assert last[0] == Discovered(ids[n].uid, thaws[n].found) && last[0] in last;
    }
  }

  lemma OneCleanMore(ids: seq<Identity>, thaws: seq<Thaw>, n: nat)
    requires |ids| == |thaws| == n + 1 && AllClean(ids[..n], thaws[..n])
    ensures Clean(ids[n], thaws[n]) ==> AllClean(ids, thaws)
  {
    assert forall k :: 0 <= k < n ==> ids[..n][k] == ids[k] && thaws[..n][k] == thaws[k];
  }

  /** Which backend thaws an identity is decided by its ownership before the run: no attempt disturbs another's. */
  lemma {:induction false} ThawsUseOwnOwnership(v: View, ids: seq<Identity>, thaws: seq<Thaw>, k: nat)
    requires PlausibleThaws(ids, thaws) && k < |ids|
    requires forall i, j :: 0 <= i < j < |ids| ==> ids[i] != ids[j]
    ensures exists a, b :: ThawsEvents(v, ids, thaws) == a + ThawEvents(ids[k], Owner(v, ids[k]), thaws[k]) + b
  {
    var n := |ids| - 1;
    var last := ThawEvents(ids[n], Owner(AfterThaws(v, ids[..n], thaws[..n]), ids[n]), thaws[n]);
    if k == n {
      ThawsClearExactlyClean(v, ids[..n], thaws[..n]);
      var front := ThawsEvents(v, ids[..n], thaws[..n]);
      assert front + last == front + last + [];
    } else {
      ThawsUseOwnOwnership(v, ids[..n], thaws[..n], k);
      var mine := ThawEvents(ids[k], Owner(v, ids[k]), thaws[k]);
      var a, b :| ThawsEvents(v, ids[..n], thaws[..n]) == a + mine + b;
      EventsReassociate(a + mine, b, last);
    }
  }

  lemma EventsReassociate(a: seq<Event>, b: seq<Event>, c: seq<Event>)
    ensures a + b + c == a + (b + c)
  {
  }

  lemma {:induction false} ThawsSafe(v: View, ids: seq<Identity>, thaws: seq<Thaw>)
    requires PlausibleThaws(ids, thaws)
    ensures Guarded(ThawsEvents(v, ids, thaws)) && Harmless(ThawsEvents(v, ids, thaws))
  {
    if ids == [] {
    } else {
      var n := |ids| - 1;
      var front := ThawsEvents(v, ids[..n], thaws[..n]);
      var owner := Owner(AfterThaws(v, ids[..n], thaws[..n]), ids[n]);
      ThawsSafe(v, ids[..n], thaws[..n]);
      var look := [Discovered(ids[n].uid, thaws[n].found)];
      assert GuardedAt(look, 0);
      if thaws[n].found.Some? {
        UnfreezeSafe(thaws[n].found.value, owner == SignalOnly, thaws[n].undos);
        GuardedConcat(look, UnfreezeEvents(thaws[n].found.value, owner == SignalOnly, thaws[n].undos));
      }
      GuardedConcat(front, ThawEvents(ids[n], owner, thaws[n]));
    }
  }
}
