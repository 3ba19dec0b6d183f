/**
  All-or-nothing kernel transactions over a batch of processes. A `Story` says how one run of the freeze
  transaction went; the calls it made and the outcome it reports are functions of that story.
 */
module Transactions {
  import opened Domain
  import opened Trace

  /** One rollback or thaw attempt: the identity check and, if that succeeded, the thaw's own result. */
  datatype Undo = Undo(answer: Option<bool>, ok: bool) {
    predicate Done() { answer == Some(true) && ok }
  }

  datatype Obstacle = MixedPackages | NotValid(answer: Option<bool>) | ApplyFailed

  datatype Story =
    | Refused(at: nat, why: Obstacle)
    | Completed
    | Undone(at: nat, why: Obstacle, undos: seq<Undo>)

  datatype Outcome = Outcome(
    applied: nat,
    rolledBack: nat,
    rollbackFailures: nat,
    residualPossible: bool,
    failure: Option<Obstacle>)

  ghost predicate SamePackageUpTo(ps: seq<Process>, n: nat)
    requires n <= |ps|
  {
    forall i :: 0 <= i < n ==> ps[i].package == ps[0].package
  }

  ghost predicate Plausible(ps: seq<Process>, s: Story) {
    match s
    case Refused(at, why) =>
      && at < |ps| && SamePackageUpTo(ps, at) && !why.ApplyFailed?
      && (why.MixedPackages? <==> ps[at].package != ps[0].package)
      && (why.NotValid? ==> why.answer != Some(true))
    case Completed => SinglePackage(ps)
    case Undone(at, why, undos) =>
      && at < |ps| && SinglePackage(ps) && !why.MixedPackages? && |undos| == at
      && (why.NotValid? ==> why.answer != Some(true))
  }

  function DoneCount(undos: seq<Undo>): (n: nat)
    ensures n <= |undos|
  {
    if undos == [] then 0
    else DoneCount(undos[..|undos| - 1]) + if undos[|undos| - 1].Done() then 1 else 0
  }

  function OutcomeOf(ps: seq<Process>, s: Story): Outcome {
    match s
    case Refused(_, why) => Outcome(0, 0, 0, false, Some(why))
    case Completed => Outcome(|ps|, 0, 0, false, None)
    case Undone(at, why, undos) =>
      Outcome(at, DoneCount(undos), |undos| - DoneCount(undos), true, Some(why))
  }

  function Prechecks(ps: seq<Process>, n: nat): (t: seq<Event>)
    requires n <= |ps|
  {
    seq(n, i requires 0 <= i < n => Validated(ps[i], Some(true)))
  }

  function Applies(ps: seq<Process>, signal: bool, n: nat): seq<Event>
    requires n <= |ps|
  {
    if n == 0 then []
    else Applies(ps, signal, n - 1) + [Validated(ps[n - 1], Some(true)), Froze(Target(signal, ps[n - 1]), true)]
  }

  function UndoEvents(check: Process, target: Process, u: Undo): seq<Event> {
    [Validated(check, u.answer)] + if u.answer == Some(true) then [Unfroze(target, u.ok)] else []
  }

  /** The rollback of the first `at` processes, last one first. */
  function Rollback(ps: seq<Process>, signal: bool, at: nat, undos: seq<Undo>): seq<Event>
    requires |undos| <= at <= |ps|
  {
    if undos == [] then []
    else
      var n := |undos|;
      Rollback(ps, signal, at, undos[..n - 1]) + UndoEvents(ps[at - n], Target(signal, ps[at - n]), undos[n - 1])
  }

  function Blow(ps: seq<Process>, signal: bool, at: nat, why: Obstacle): seq<Event>
    requires at < |ps|
  {
    match why
    case MixedPackages => []
    case NotValid(answer) => [Validated(ps[at], answer)]
    case ApplyFailed => [Validated(ps[at], Some(true)), Froze(Target(signal, ps[at]), false)]
  }

  ghost function Events(ps: seq<Process>, signal: bool, s: Story): seq<Event>
    requires Plausible(ps, s)
  {
    match s
    case Refused(at, why) => Prechecks(ps, at) + Blow(ps, signal, at, why)
    case Completed => Prechecks(ps, |ps|) + Applies(ps, signal, |ps|)
    case Undone(at, why, undos) =>
      Prechecks(ps, |ps|) + Applies(ps, signal, at) + Blow(ps, signal, at, why) + Rollback(ps, signal, at, undos)
  }

  // ---- The transaction

  method Precheck(w: World, ps: seq<Process>, signal: bool) returns (refusal: Option<Story>)
    modifies w
    ensures refusal.Some? ==> refusal.value.Refused? && Plausible(ps, refusal.value)
    ensures refusal.Some? ==> w.trace == old(w.trace) + Events(ps, signal, refusal.value)
    ensures refusal.None? ==> SinglePackage(ps) && w.trace == old(w.trace) + Prechecks(ps, |ps|)
  {
    assert Prechecks(ps, 0) == [];
    for i := 0 to |ps|
      invariant SamePackageUpTo(ps, i)
      invariant w.trace == old(w.trace) + Prechecks(ps, i)
    {
      if ps[i].package != ps[0].package {
        return Some(Refused(i, MixedPackages));
      }
      var answer := w.Validate(ps[i]);
      if answer != Some(true) {
        return Some(Refused(i, NotValid(answer)));
      }
      assert Prechecks(ps, i + 1) == Prechecks(ps, i) + [Validated(ps[i], Some(true))];
    }
    refusal := None;
  }

  method ApplyAll(w: World, ps: seq<Process>, signal: bool) returns (at: nat, failure: Option<Obstacle>)
    modifies w
    ensures at <= |ps| && (failure.None? <==> at == |ps|)
    ensures failure.Some? ==> !failure.value.MixedPackages?
    ensures failure.Some? && failure.value.NotValid? ==> failure.value.answer != Some(true)
    ensures failure.None? ==> w.trace == old(w.trace) + Applies(ps, signal, at)
    ensures failure.Some? ==>
              w.trace == old(w.trace) + Applies(ps, signal, at) + Blow(ps, signal, at, failure.value)
  {
    at, failure := 0, None;
    while at < |ps|
      invariant at <= |ps|
      invariant w.trace == old(w.trace) + Applies(ps, signal, at)
    {
      var answer := w.Validate(ps[at]);
      if answer != Some(true) {
        return at, Some(NotValid(answer));
      }
      var ok := w.Freeze(Target(signal, ps[at]));
      if !ok {
        return at, Some(ApplyFailed);
      }
      at := at + 1;
    }
  }

  /** One checked thaw. */
  method Attempt(w: World, check: Process, target: Process) returns (u: Undo)
    modifies w
    ensures w.trace == old(w.trace) + UndoEvents(check, target, u)
  {
    var ok := false;
    var answer := w.Validate(check);
    if answer == Some(true) {
      ok := w.Unfreeze(target);
    }
    u := Undo(answer, ok);
  }

  method RollbackAll(w: World, ps: seq<Process>, signal: bool, at: nat)
    returns (rolledBack: nat, rollbackFailures: nat, ghost undos: seq<Undo>)
    requires at <= |ps|
    modifies w
    ensures |undos| == at && rolledBack == DoneCount(undos) && rollbackFailures == at - rolledBack
    ensures w.trace == old(w.trace) + Rollback(ps, signal, at, undos)
  {
    undos, rolledBack, rollbackFailures := [], 0, 0;
    for k := 0 to at
      invariant |undos| == k && rolledBack == DoneCount(undos) && rollbackFailures == k - rolledBack
      invariant w.trace == old(w.trace) + Rollback(ps, signal, at, undos)
    {
      var p := ps[at - 1 - k];
      var u := Attempt(w, p, Target(signal, p));
      if u.Done() { rolledBack := rolledBack + 1; } else { rollbackFailures := rollbackFailures + 1; }
      RollbackSnoc(ps, signal, at, undos, u);
      undos := undos + [u];
    }
  }

  lemma {:induction false} RollbackSnoc(ps: seq<Process>, signal: bool, at: nat, undos: seq<Undo>, u: Undo)
    requires |undos| < at <= |ps|
    ensures var p := ps[at - 1 - |undos|];
            Rollback(ps, signal, at, undos + [u])
              == Rollback(ps, signal, at, undos) + UndoEvents(p, Target(signal, p), u)
    ensures DoneCount(undos + [u]) == DoneCount(undos) + if u.Done() then 1 else 0
  {
    assert (undos + [u])[..|undos|] == undos;
  }

  /** `apply_freeze_transaction`; with `signal` the freeze and rollback act on copies without a cgroup path. */
  method FreezeTransaction(w: World, ps: seq<Process>, signal: bool) returns (o: Outcome, ghost story: Story)
    modifies w
    ensures Plausible(ps, story)
    ensures o == OutcomeOf(ps, story)
    ensures w.trace == old(w.trace) + Events(ps, signal, story)
  {
    var refusal := Precheck(w, ps, signal);
    if refusal.Some? {
      return Outcome(0, 0, 0, false, Some(refusal.value.why)), refusal.value;
    }
    var at, failure := ApplyAll(w, ps, signal);
    if failure.None? {
      return Outcome(at, 0, 0, false, None), Completed;
    }
    var rolledBack, rollbackFailures;
    ghost var undos;
    ghost var t := Prechecks(ps, |ps|) + Applies(ps, signal, at) + Blow(ps, signal, at, failure.value);
    assert w.trace == old(w.trace) + t;
    rolledBack, rollbackFailures, undos := RollbackAll(w, ps, signal, at);
    assert w.trace == old(w.trace) + (t + Rollback(ps, signal, at, undos));
    o := Outcome(at, rolledBack, rollbackFailures, true, failure);
    story := Undone(at, failure.value, undos);
  }

  // ---- What every story guarantees

  lemma {:induction false} AppliesSafe(ps: seq<Process>, signal: bool, n: nat)
    requires n <= |ps|
    ensures Guarded(Applies(ps, signal, n))
    ensures Aimed(Applies(ps, signal, n), ps)
  {
    if n == 0 {
    } else {
      AppliesSafe(ps, signal, n - 1);
      var step := [Validated(ps[n - 1], Some(true)), Froze(Target(signal, ps[n - 1]), true)];
      assert GuardedAt(step, 0) && GuardedAt(step, 1);
      GuardedConcat(Applies(ps, signal, n - 1), step);
      assert ps[n - 1] in ps && SameProcess(ps[n - 1], step[1].p);
    }
  }

  lemma {:induction false} RollbackSafe(ps: seq<Process>, signal: bool, at: nat, undos: seq<Undo>)
    requires |undos| <= at <= |ps|
    ensures Guarded(Rollback(ps, signal, at, undos)) && Harmless(Rollback(ps, signal, at, undos))
  {
    if undos == [] {
    } else {
      var n := |undos|;
      var step := UndoEvents(ps[at - n], Target(signal, ps[at - n]), undos[n - 1]);
      assert forall i :: 0 <= i < |step| ==> GuardedAt(step, i);
      RollbackSafe(ps, signal, at, undos[..n - 1]);
      GuardedConcat(Rollback(ps, signal, at, undos[..n - 1]), step);
    }
  }

  /** No story acts on an unchecked process or on one outside its batch, and only a one-package batch is frozen. */
  lemma TransactionSafe(ps: seq<Process>, signal: bool, s: Story)
    requires Plausible(ps, s)
    ensures Guarded(Events(ps, signal, s))
    ensures Aimed(Events(ps, signal, s), ps)
    ensures !Harmless(Events(ps, signal, s)) ==> SinglePackage(ps)
  {
    match s
    case Refused(at, why) =>
      assert forall i :: 0 <= i < |Events(ps, signal, s)| ==> GuardedAt(Events(ps, signal, s), i);
    case Completed =>
      AppliesSafe(ps, signal, |ps|);
      GuardedConcat(Prechecks(ps, |ps|), Applies(ps, signal, |ps|));
    case Undone(at, why, undos) =>
      AppliesSafe(ps, signal, at);
      RollbackSafe(ps, signal, at, undos);
      var blow := Blow(ps, signal, at, why);
      assert forall i :: 0 <= i < |blow| ==> GuardedAt(blow, i);
      GuardedConcat(Prechecks(ps, |ps|), Applies(ps, signal, at));
      GuardedConcat(Prechecks(ps, |ps|) + Applies(ps, signal, at), blow);
      GuardedConcat(Prechecks(ps, |ps|) + Applies(ps, signal, at) + blow, Rollback(ps, signal, at, undos));
      assert Aimed(blow, ps) by {
        if why.ApplyFailed? { assert ps[at] in ps && SameProcess(ps[at], blow[1].p); }
      }
  }

  /** The successful freezes of a run, in call order. */
  function Frozen(t: seq<Event>): seq<Process> {
    if t == [] then []
    else Frozen(t[..|t| - 1]) + if t[|t| - 1].Froze? && t[|t| - 1].ok then [t[|t| - 1].p] else []
  }

  lemma {:induction false} FrozenConcat(a: seq<Event>, b: seq<Event>)
    ensures Frozen(a + b) == Frozen(a) + Frozen(b)
  {
    if b == [] {
      assert a + b == a;
    } else {
      FrozenConcat(a, b[..|b| - 1]);
      assert (a + b)[..|a + b| - 1] == a + b[..|b| - 1];
    }
  }

  lemma {:induction false} FrozenNothing(t: seq<Event>)
    requires forall i :: 0 <= i < |t| ==> !(t[i].Froze? && t[i].ok)
    ensures Frozen(t) == []
  {
    if t == [] {
    } else {
      FrozenNothing(t[..|t| - 1]);
    }
  }

  lemma {:induction false} FrozenSnoc(t: seq<Event>, e: Event)
    ensures Frozen(t + [e]) == Frozen(t) + if e.Froze? && e.ok then [e.p] else []
  {
    assert (t + [e])[..|t|] == t;
  }

  lemma {:induction false} FrozenApplies(ps: seq<Process>, signal: bool, n: nat)
    requires n <= |ps|
    ensures Frozen(Applies(ps, signal, n)) == seq(n, i requires 0 <= i < n => Target(signal, ps[i]))
  {
    if n == 0 {
    } else {
      var check, freeze := Validated(ps[n - 1], Some(true)), Froze(Target(signal, ps[n - 1]), true);
      FrozenApplies(ps, signal, n - 1);
      FrozenSnoc(Applies(ps, signal, n - 1), check);
      FrozenSnoc(Applies(ps, signal, n - 1) + [check], freeze);
      assert Applies(ps, signal, n) == (Applies(ps, signal, n - 1) + [check]) + [freeze];
    }
  }

  /** All n processes are frozen in batch order, or exactly the reported prefix is and the transaction failed. */
  lemma FreezesExactlyAppliedPrefix(ps: seq<Process>, signal: bool, s: Story)
    requires Plausible(ps, s)
    ensures var n := OutcomeOf(ps, s).applied;
            && n <= |ps| && (n == |ps| > 0 ==> OutcomeOf(ps, s).failure.None?)
            && Frozen(Events(ps, signal, s)) == seq(n, i requires 0 <= i < n => Target(signal, ps[i]))
    ensures OutcomeOf(ps, s).failure.None? ==> OutcomeOf(ps, s).applied == |ps|
  {
    match s
    case Refused(at, why) =>
      FrozenNothing(Events(ps, signal, s));
    case Completed =>
      FrozenApplies(ps, signal, |ps|);
      FrozenNothing(Prechecks(ps, |ps|));
      FrozenConcat(Prechecks(ps, |ps|), Applies(ps, signal, |ps|));
    case Undone(at, why, undos) =>
      FrozenUndone(ps, signal, at, why, undos);
  }

  lemma FrozenUndone(ps: seq<Process>, signal: bool, at: nat, why: Obstacle, undos: seq<Undo>)
    requires Plausible(ps, Undone(at, why, undos))
    ensures Frozen(Events(ps, signal, Undone(at, why, undos)))
         == seq(at, i requires 0 <= i < at => Target(signal, ps[i]))
  {
    var pre, app, blow, back :=
      Prechecks(ps, |ps|), Applies(ps, signal, at), Blow(ps, signal, at, why), Rollback(ps, signal, at, undos);
    FrozenApplies(ps, signal, at);
    RollbackSafe(ps, signal, at, undos);
    FrozenOnlySecond(pre, app, blow, back);
  }

  lemma {:induction false} FrozenOnlySecond(a: seq<Event>, b: seq<Event>, c: seq<Event>, d: seq<Event>)
    requires forall i :: 0 <= i < |a| ==> !(a[i].Froze? && a[i].ok)
    requires forall i :: 0 <= i < |c| ==> !(c[i].Froze? && c[i].ok)
    requires Harmless(d)
    ensures Frozen(a + b + c + d) == Frozen(b)
  {
    FrozenNothing(a);
    FrozenNothing(c);
    FrozenNothing(d);
    FrozenConcat(a, b);
    FrozenConcat(a + b, c);
    FrozenConcat(a + b + c, d);
  }

  lemma {:induction false} RollbackReleases(ps: seq<Process>, signal: bool, at: nat, undos: seq<Undo>, k: nat)
    requires |undos| <= at <= |ps| && k < |undos| && undos[k].Done()
    ensures Released(Rollback(ps, signal, at, undos), ps[at - 1 - k].pid)
  {
    var n := |undos|;
    var front := Rollback(ps, signal, at, undos[..n - 1]);
    var step := UndoEvents(ps[at - n], Target(signal, ps[at - n]), undos[n - 1]);
    if k == n - 1 {
      assert step[1].Unfroze? && step[1].ok && step[1].p.pid == ps[at - 1 - k].pid;
    } else {
      RollbackReleases(ps, signal, at, undos[..n - 1], k);
    }
    ReleasedConcat(front, step, ps[at - 1 - k].pid);
  }

  lemma {:induction false} AllDone(undos: seq<Undo>)
    requires DoneCount(undos) == |undos|
    ensures forall k :: 0 <= k < |undos| ==> undos[k].Done()
  {
    if undos == [] {
    } else {
      AllDone(undos[..|undos| - 1]);
    }
  }

  lemma {:induction false} AppliesHolds(ps: seq<Process>, signal: bool, n: nat, pid: int)
    requires n <= |ps| && Holds(Applies(ps, signal, n), pid)
    ensures exists i :: 0 <= i < n && ps[i].pid == pid
  {
    if n == 0 {
    } else {
      var step := [Validated(ps[n - 1], Some(true)), Froze(Target(signal, ps[n - 1]), true)];
      HoldsConcat(Applies(ps, signal, n - 1), step, pid);
      if !Holds(step, pid) { AppliesHolds(ps, signal, n - 1, pid); }
    }
  }

  /**
    Conservation: a failed transaction with no failed rollback leaves no process frozen, a transaction that
    could leave one says so, and rollback attempts are counted without loss.
   */
  lemma NothingHeldAfterCleanFailure(ps: seq<Process>, signal: bool, s: Story, pid: int)
    requires Plausible(ps, s)
    ensures var o := OutcomeOf(ps, s);
            && (o.residualPossible ==> o.applied == o.rolledBack + o.rollbackFailures)
            && (o.failure.Some? && o.rollbackFailures == 0 ==> !Holds(Events(ps, signal, s), pid))
            && (o.failure.Some? && !o.residualPossible ==> Harmless(Events(ps, signal, s)))
  {
    if s.Undone? && OutcomeOf(ps, s).rollbackFailures == 0 {
      CleanRollbackHoldsNothing(ps, signal, s, pid);
    }
  }

  lemma CleanRollbackHoldsNothing(ps: seq<Process>, signal: bool, s: Story, pid: int)
    requires Plausible(ps, s) && s.Undone? && DoneCount(s.undos) == |s.undos|
    ensures !Holds(Events(ps, signal, s), pid)
  {
    var at, undos := s.at, s.undos;
    var pre, app, blow, back :=
      Prechecks(ps, |ps|), Applies(ps, signal, at), Blow(ps, signal, at, s.why), Rollback(ps, signal, at, undos);
    RollbackSafe(ps, signal, at, undos);
    AllDone(undos);
    if Holds(Events(ps, signal, s), pid) {
      HoldsConcat(pre + app + blow, back, pid);
      HoldsConcat(pre + app, blow, pid);
      HoldsConcat(pre, app, pid);
      AppliesHolds(ps, signal, at, pid);
      var i :| 0 <= i < at && ps[i].pid == pid;
      RollbackReleases(ps, signal, at, undos, at - 1 - i);
    }
  }

  ghost predicate NeverThaws(t: seq<Event>) {
    forall i :: 0 <= i < |t| ==> !t[i].Unfroze?
  }

  lemma HeldUnlessThawed(t: seq<Event>, freeze: Event)
    requires NeverThaws(t) && freeze in t && freeze.Froze? && freeze.ok
    ensures Holds(t, freeze.p.pid)
  {
    var i :| 0 <= i < |t| && t[i] == freeze;
    assert !Released(t[i..], freeze.p.pid);
  }

  lemma {:induction false} AppliesFreezesEach(ps: seq<Process>, signal: bool, n: nat, k: nat)
    requires k < n <= |ps|
    ensures Froze(Target(signal, ps[k]), true) in Applies(ps, signal, n)
  {
    if k == n - 1 {
      assert Applies(ps, signal, n)[|Applies(ps, signal, n - 1)| + 1] == Froze(Target(signal, ps[k]), true);
    } else {
      AppliesFreezesEach(ps, signal, n - 1, k);
    }
  }

  lemma {:induction false} AppliesNeverThaw(ps: seq<Process>, signal: bool, n: nat)
    requires n <= |ps|
    ensures NeverThaws(Applies(ps, signal, n))
  {
    if n == 0 {
    } else {
      AppliesNeverThaw(ps, signal, n - 1);
    }
  }

  /** A completed transaction leaves every process of the batch frozen. */
  lemma CompletedHoldsBatch(ps: seq<Process>, signal: bool, k: nat)
    requires SinglePackage(ps) && k < |ps|
    ensures NeverThaws(Events(ps, signal, Completed)) && Holds(Events(ps, signal, Completed), ps[k].pid)
  {
    AppliesNeverThaw(ps, signal, |ps|);
    AppliesFreezesEach(ps, signal, |ps|, k);
    HeldUnlessThawed(Events(ps, signal, Completed), Froze(Target(signal, ps[k]), true));
  }

  /** The processes whose identity a run checked, in call order. */
  function Checked(t: seq<Event>): seq<Process> {
    if t == [] then []
    else Checked(t[..|t| - 1]) + if t[|t| - 1].Validated? then [t[|t| - 1].p] else []
  }

  lemma {:induction false} CheckedUndo(front: seq<Event>, check: Process, target: Process, u: Undo)
    ensures Checked(front + UndoEvents(check, target, u)) == Checked(front) + [check]
  {
    var whole := front + UndoEvents(check, target, u);
    var base := front + [Validated(check, u.answer)];
    assert base[..|front|] == front;
    if u.answer == Some(true) {
      assert whole[..|whole| - 1] == base;
    } else {
      assert whole == base;
    }
  }

  /** The first `at` processes from the last one on, as far as `n` of them. */
  function Backwards(ps: seq<Process>, at: nat, n: nat): (r: seq<Process>)
    requires n <= at <= |ps|
    ensures |r| == n && forall k :: 0 <= k < n ==> r[k] == ps[at - 1 - k]
  {
    if n == 0 then [] else Backwards(ps, at, n - 1) + [ps[at - n]]
  }

  /** Rollback attempts exactly the frozen prefix, last process first. */
  lemma {:induction false} RollbackOrder(ps: seq<Process>, signal: bool, at: nat, undos: seq<Undo>)
    requires |undos| <= at <= |ps|
    ensures Checked(Rollback(ps, signal, at, undos)) == Backwards(ps, at, |undos|)
  {
    if undos == [] {
    } else {
      var n := |undos|;
      RollbackOrder(ps, signal, at, undos[..n - 1]);
      CheckedUndo(Rollback(ps, signal, at, undos[..n - 1]), ps[at - n], Target(signal, ps[at - n]), undos[n - 1]);
    }
  }

  // ---- Thawing one identity

  predicate SoleOwner(ps: seq<Process>, package: string) {
    forall i :: 0 <= i < |ps| ==> ps[i].package == package
  }

  function UnfreezeEvents(ps: seq<Process>, signal: bool, undos: seq<Undo>): seq<Event>
    requires |undos| <= |ps|
  {
    if undos == [] then []
    else
      var n := |undos|;
      var p := Target(signal, ps[n - 1]);
      UnfreezeEvents(ps, signal, undos[..n - 1]) + UndoEvents(p, p, undos[n - 1])
  }

  predicate AllUndone(undos: seq<Undo>) { forall k :: 0 <= k < |undos| ==> undos[k].Done() }

  lemma {:induction false} UnfreezeSnoc(ps: seq<Process>, signal: bool, undos: seq<Undo>, u: Undo)
    requires |undos| < |ps|
    ensures var p := Target(signal, ps[|undos|]);
            UnfreezeEvents(ps, signal, undos + [u]) == UnfreezeEvents(ps, signal, undos) + UndoEvents(p, p, u)
    ensures AllUndone(undos + [u]) <==> AllUndone(undos) && u.Done()
  {
    assert (undos + [u])[..|undos|] == undos && (undos + [u])[|undos|] == u;
  }

  /** `unfreeze_identity_processes`: every process is tried; a foreign package in the batch stops it at once. */
  method UnfreezeIdentity(w: World, package: string, ps: seq<Process>, signal: bool)
    returns (clean: bool, ghost undos: seq<Undo>)
    modifies w
    ensures !SoleOwner(ps, package) ==> !clean && undos == [] && w.trace == old(w.trace)
    ensures SoleOwner(ps, package) ==>
              |undos| == |ps| && clean == AllUndone(undos)
                && w.trace == old(w.trace) + UnfreezeEvents(ps, signal, undos)
  {
    undos := [];
    if exists i :: 0 <= i < |ps| && ps[i].package != package {
      return false, [];
    }
    clean := true;
    for k := 0 to |ps|
      invariant |undos| == k && clean == AllUndone(undos)
      invariant w.trace == old(w.trace) + UnfreezeEvents(ps, signal, undos)
    {
      var p := Target(signal, ps[k]);
      var u := Attempt(w, p, p);
      clean := clean && u.Done();
      UnfreezeSnoc(ps, signal, undos, u);
      undos := undos + [u];
    }
  }

  lemma {:induction false} UnfreezeSafe(ps: seq<Process>, signal: bool, undos: seq<Undo>)
    requires |undos| <= |ps|
    ensures Guarded(UnfreezeEvents(ps, signal, undos)) && Harmless(UnfreezeEvents(ps, signal, undos))
  {
    if undos == [] {
    } else {
      var n := |undos|;
      var p := Target(signal, ps[n - 1]);
      var step := UndoEvents(p, p, undos[n - 1]);
      assert forall i :: 0 <= i < |step| ==> GuardedAt(step, i);
      UnfreezeSafe(ps, signal, undos[..n - 1]);
      GuardedConcat(UnfreezeEvents(ps, signal, undos[..n - 1]), step);
    }
  }

  lemma {:induction false} UnfreezeReleases(ps: seq<Process>, signal: bool, undos: seq<Undo>, k: nat)
    requires k < |undos| <= |ps| && undos[k].Done()
    ensures Released(UnfreezeEvents(ps, signal, undos), ps[k].pid)
  {
    var n := |undos|;
    var p := Target(signal, ps[n - 1]);
    var step := UndoEvents(p, p, undos[n - 1]);
    if k == n - 1 {
      assert step[1].Unfroze? && step[1].ok && step[1].p.pid == ps[k].pid;
    } else {
      UnfreezeReleases(ps, signal, undos[..n - 1], k);
    }
    ReleasedConcat(UnfreezeEvents(ps, signal, undos[..n - 1]), step, ps[k].pid);
  }

  // ---- Killing a batch

  function Kills(ps: seq<Process>, n: nat): seq<Event>
    requires n <= |ps|
  {
    if n == 0 then []
    else Kills(ps, n - 1) + [Validated(ps[n - 1], Some(true)), Terminated(ps[n - 1], true)]
  }

  /** How one run of the terminate transaction went. */
  datatype KillStory = Spared(at: nat, why: Obstacle) | KilledAll | Stopped(at: nat, why: Obstacle)

  ghost predicate PlausibleKill(ps: seq<Process>, k: KillStory) {
    match k
    case Spared(at, why) => Plausible(ps, Refused(at, why))
    case KilledAll => SinglePackage(ps)
    case Stopped(at, why) =>
      at < |ps| && SinglePackage(ps) && !why.MixedPackages? && (why.NotValid? ==> why.answer != Some(true))
  }

  function KillBlow(ps: seq<Process>, at: nat, why: Obstacle): seq<Event>
    requires at < |ps|
  {
    match why
    case MixedPackages => []
    case NotValid(answer) => [Validated(ps[at], answer)]
    case ApplyFailed => [Validated(ps[at], Some(true)), Terminated(ps[at], false)]
  }

  ghost function KillEvents(ps: seq<Process>, k: KillStory): seq<Event>
    requires PlausibleKill(ps, k)
  {
    match k
    case Spared(at, why) => Events(ps, false, Refused(at, why))
    case KilledAll => Prechecks(ps, |ps|) + Kills(ps, |ps|)
    case Stopped(at, why) => Prechecks(ps, |ps|) + Kills(ps, at) + KillBlow(ps, at, why)
  }

  method KillAll(w: World, ps: seq<Process>) returns (at: nat, failure: Option<Obstacle>)
    modifies w
    ensures at <= |ps| && (failure.None? <==> at == |ps|)
    ensures failure.Some? ==> !failure.value.MixedPackages?
    ensures failure.Some? && failure.value.NotValid? ==> failure.value.answer != Some(true)
    ensures failure.None? ==> w.trace == old(w.trace) + Kills(ps, at)
    ensures failure.Some? ==> w.trace == old(w.trace) + Kills(ps, at) + KillBlow(ps, at, failure.value)
  {
    at, failure := 0, None;
    while at < |ps|
      invariant at <= |ps|
      invariant w.trace == old(w.trace) + Kills(ps, at)
    {
      var answer := w.Validate(ps[at]);
      if answer != Some(true) {
        return at, Some(NotValid(answer));
      }
      var ok := w.Terminate(ps[at]);
      if !ok {
        return at, Some(ApplyFailed);
      }
      at := at + 1;
    }
  }

  /**
    `apply_terminate_transaction`: checks the whole batch first, then kills in order and stops at the first failure.
   */
  method TerminateTransaction(w: World, ps: seq<Process>)
    returns (applied: nat, failed: bool, ghost story: KillStory)
    modifies w
    ensures PlausibleKill(ps, story) && w.trace == old(w.trace) + KillEvents(ps, story)
    ensures failed <==> !story.KilledAll?
    ensures applied == match story case Spared(_, _) => 0 case KilledAll => |ps| case Stopped(at, _) => at
  {
    var refusal := Precheck(w, ps, false);
    if refusal.Some? {
      return 0, true, Spared(refusal.value.at, refusal.value.why);
    }
    var at, failure := KillAll(w, ps);
    if failure.Some? {
      return at, true, Stopped(at, failure.value);
    }
    return at, false, KilledAll;
  }

  lemma {:induction false} KillsSafe(ps: seq<Process>, n: nat)
    requires n <= |ps|
    ensures Guarded(Kills(ps, n)) && Aimed(Kills(ps, n), ps)
    ensures forall i :: 0 <= i < |Kills(ps, n)| ==> Kills(ps, n)[i].Validated? || Kills(ps, n)[i].Terminated?
  {
    if n == 0 {
    } else {
      KillsSafe(ps, n - 1);
      var step := [Validated(ps[n - 1], Some(true)), Terminated(ps[n - 1], true)];
      assert GuardedAt(step, 0) && GuardedAt(step, 1);
      GuardedConcat(Kills(ps, n - 1), step);
      assert ps[n - 1] in ps && SameProcess(ps[n - 1], step[1].p);
    }
  }

  /** A kill hits only a checked process of a one-package batch, and killing freezes nothing. */
  lemma TerminationSafe(ps: seq<Process>, k: KillStory)
    requires PlausibleKill(ps, k)
    ensures var t := KillEvents(ps, k);
            && Guarded(t) && Aimed(t, ps) && (!Harmless(t) ==> SinglePackage(ps))
            && forall i :: 0 <= i < |t| ==> t[i].Validated? || t[i].Terminated?
  {
    match k
    case Spared(at, why) => TransactionSafe(ps, false, Refused(at, why));
    case KilledAll =>
      KillsSafe(ps, |ps|);
      GuardedConcat(Prechecks(ps, |ps|), Kills(ps, |ps|));
    case Stopped(at, why) =>
      KillsSafe(ps, at);
      var blow := KillBlow(ps, at, why);
      assert forall i :: 0 <= i < |blow| ==> GuardedAt(blow, i);
      GuardedConcat(Prechecks(ps, |ps|), Kills(ps, at));
      GuardedConcat(Prechecks(ps, |ps|) + Kills(ps, at), blow);
      assert Aimed(blow, ps) by {
        if why.ApplyFailed? { assert ps[at] in ps && SameProcess(ps[at], blow[1].p); }
      }
  }
}
