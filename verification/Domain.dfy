/** Values shared by the control plane: processes, app-config records, settings and the pure policy questions. */
module Domain {

  datatype Option<+T> = None | Some(value: T)

  /** An Android process state as the hook reports it. */
  datatype ProcessState = Foreground | Visible | Service | Cached | Empty | Unknown

  datatype ControlState = Running | PendingFreeze | Frozen | Unfreezing | Unclear

  datatype Process = Process(
    pid: int,
    uid: nat,
    package: string,
    state: ProcessState,
    control: ControlState,
    cgroup: Option<string>,
    binder: Option<string>,
    start: Option<nat>)

  /** The same kernel process: everything the identity recheck looks at. */
  predicate SameProcess(a: Process, b: Process) {
    a.pid == b.pid && a.uid == b.uid && a.package == b.package && a.start == b.start
  }

  /** The copy a signal backend acts on: without a cgroup path only SIGSTOP and SIGCONT remain. */
  function SignalTarget(p: Process): Process { p.(cgroup := None) }

  function Target(signal: bool, p: Process): Process { if signal then SignalTarget(p) else p }

  function AsPending(p: Process): Process { p.(control := PendingFreeze) }

  function PendingBatch(ps: seq<Process>): (r: seq<Process>)
    ensures |r| == |ps|
    ensures forall i :: 0 <= i < |ps| ==> r[i] == AsPending(ps[i])
  {
    seq(|ps|, i requires 0 <= i < |ps| => AsPending(ps[i]))
  }

  predicate SinglePackage(ps: seq<Process>) {
    forall i :: 0 <= i < |ps| ==> ps[i].package == ps[0].package
  }

  datatype Identity = Identity(package: string, uid: nat)

  /** One line of the manager's app configuration. */
  datatype AppRecord = AppRecord(uid: nat, mode: int, permissive: bool)

  function Setting(settings: seq<nat>, i: nat): nat {
    if i < |settings| then settings[i] else 0
  }

  predicate IsControlMode(mode: int) { mode in {10, 20, 21, 30, 31} }

  function ControlledUids(config: seq<AppRecord>): set<nat> {
    set r | r in config && IsControlMode(r.mode) :: r.uid
  }

  predicate SystemUid(uid: nat) { uid % 100_000 < 10_000 }

  predicate ProtectedPackage(package: string) {
    package in {
      "io.github.jark006.freezeit", "com.topjohnwu.magisk", "io.github.huskydg.magisk",
      "org.lsposed.manager", "io.github.lsposed.manager", "android", "com.android.systemui",
      "com.android.phone"}
  }

  /** What `is_control_allowed_for` answers for a record's policy and the app built from its UID. */
  predicate ControlAllowed(record: AppRecord, package: string) {
    IsControlMode(record.mode) && !SystemUid(record.uid) && !ProtectedPackage(package)
  }

  function DelayMs(record: AppRecord, settings: seq<nat>): nat {
    1000 * match record.mode
           case 10 => Setting(settings, 4)
           case 20 => Setting(settings, 2)
           case 21 => Setting(settings, 2)
           case 30 => Setting(settings, 2)
           case 31 => Setting(settings, 2)
           case _ => 0
  }

  function WakeupInterval(settings: seq<nat>): Option<nat> {
    match Setting(settings, 3)
    case 1 => Some(300_000)
    case 2 => Some(900_000)
    case 3 => Some(1_800_000)
    case 4 => Some(3_600_000)
    case 5 => Some(7_200_000)
    case _ => None
  }

  function WakeupDuration(settings: seq<nat>): nat { 1000 * Setting(settings, 2) }

  datatype Backend = TerminateBackend | SignalBackend | FreezerBackend

  function RequestedBackend(record: AppRecord, settings: seq<nat>): Backend {
    if record.mode == 10 then TerminateBackend
    else if record.mode in {20, 21} then SignalBackend
    else if record.mode in {30, 31} && Setting(settings, 5) == 2 then SignalBackend
    else FreezerBackend
  }

  datatype Decision = Freeze | Postpone | Signal | Terminate

  function Lowered(s: string): (r: string)
    ensures |r| == |s|
  {
    seq(|s|, i requires 0 <= i < |s| => if 'A' <= s[i] <= 'Z' then s[i] + ' ' else s[i])
  }

  predicate Contains(s: string, part: string) {
    part <= s || (s != [] && Contains(s[1..], part))
  }

  predicate BinderBusy(state: string) {
    var s := Lowered(state);
    || Contains(s, "binder_queue active") || Contains(s, "busy") || Contains(s, "sync_txn")
    || Contains(s, "txns_pending") || Contains(s, "binder_pending")
  }

  /** Some process is not idle evidence enough to freeze its group. */
  predicate FreezeHeldBack(ps: seq<Process>) {
    exists i :: 0 <= i < |ps| &&
      (ps[i].state in {Foreground, Visible, ProcessState.Unknown} ||
       (ps[i].control == PendingFreeze && ps[i].binder.Some? && BinderBusy(ps[i].binder.value)))
  }

  predicate AllHaveCgroup(ps: seq<Process>) {
    ps != [] && forall i :: 0 <= i < |ps| ==> ps[i].cgroup.Some?
  }

  /** What the pass decides to do with a batch of an allowed app, before any kernel action. */
  function Decide(record: AppRecord, settings: seq<nat>, binderAvailable: bool, ps: seq<Process>): Decision {
    match RequestedBackend(record, settings)
    case TerminateBackend => Terminate
    case SignalBackend => Signal
    case FreezerBackend =>
      if FreezeHeldBack(ps) then Postpone
      else if AllHaveCgroup(ps) && binderAvailable then Freeze
      else Signal
  }

  // ---- Package names in byte order

  predicate Below(a: string, b: string) {
    b != [] && (a == [] || a[0] < b[0] || (a[0] == b[0] && Below(a[1..], b[1..])))
  }

  lemma {:induction false} BelowTransitive(a: string, b: string, c: string)
    requires !Below(b, a) && !Below(c, b)
    ensures !Below(c, a)
    decreases |a|
  {
    if a != [] && b != [] && c != [] && a[0] == b[0] == c[0] {
      BelowTransitive(a[1..], b[1..], c[1..]);
    }
  }

  lemma {:induction false} BelowIrreflexive(a: string)
    ensures !Below(a, a)
  {
    if a == [] {
    } else {
      BelowIrreflexive(a[1..]);
    }
  }

  lemma {:induction false} BelowAsymmetric(a: string, b: string)
    requires Below(a, b)
    ensures !Below(b, a)
  {
    if a != [] && a[0] == b[0] { BelowAsymmetric(a[1..], b[1..]); }
  }

  /** The package name a batch is filed under: its least one, so that the order of discovery does not matter. */
  function MinPackage(ps: seq<Process>): (m: string)
    requires ps != []
    ensures exists i :: 0 <= i < |ps| && ps[i].package == m
    ensures forall i :: 0 <= i < |ps| ==> !Below(ps[i].package, m)
  {
    BelowIrreflexive(ps[0].package);
    if |ps| == 1 then ps[0].package
    else
      var rest := MinPackage(ps[1..]);
      assert forall i :: 1 <= i < |ps| ==> ps[i] == ps[1..][i - 1];
      if Below(rest, ps[0].package) then
        BelowAsymmetric(rest, ps[0].package);
        rest
      else
        assert forall i :: 1 <= i < |ps| ==> !Below(ps[i].package, ps[0].package) by {
          forall i | 1 <= i < |ps| ensures !Below(ps[i].package, ps[0].package) {
            BelowTransitive(ps[0].package, rest, ps[i].package);
          }
        }
        ps[0].package
  }
}
