/**
  The daemon's effects. Every closure the control code is given becomes a method of `World` whose answer is
  arbitrary; the ghost trace records each call with its answer, in order.
 */
module Trace {
  import opened Domain

  datatype RxSample = Value(bytes: nat) | Missing | Failed

  datatype LedgerAnswer = Unreadable | NoEntry | SignalOnlyEntry | ResidualEntry

  datatype Event =
    | Discovered(uid: nat, found: Option<seq<Process>>)
    | Validated(p: Process, answer: Option<bool>)
    | Froze(p: Process, ok: bool)
    | Unfroze(p: Process, ok: bool)
    | Terminated(p: Process, ok: bool)
    | Sampled(uid: nat, sample: RxSample)
    | LedgerRead(p: Process, entry: LedgerAnswer)
    | Promoted(p: Process, answer: Option<bool>)

  class World {
    ghost var trace: seq<Event>

    constructor ()
      ensures trace == []
    {
      trace := [];
    }

    /** `None` is a failed /proc walk. */
    method Discover(uid: nat) returns (found: Option<seq<Process>>)
      modifies this
      ensures trace == old(trace) + [Discovered(uid, found)]
    {
      found := *;
      trace := trace + [Discovered(uid, found)];
    }

    /** The identity recheck; `None` is an error. */
    method Validate(p: Process) returns (answer: Option<bool>)
      modifies this
      ensures trace == old(trace) + [Validated(p, answer)]
    {
      answer := *;
      trace := trace + [Validated(p, answer)];
    }

    method Freeze(p: Process) returns (ok: bool)
      modifies this
      ensures trace == old(trace) + [Froze(p, ok)]
    {
      ok := *;
      trace := trace + [Froze(p, ok)];
    }

    method Unfreeze(p: Process) returns (ok: bool)
      modifies this
      ensures trace == old(trace) + [Unfroze(p, ok)]
    {
      ok := *;
      trace := trace + [Unfroze(p, ok)];
    }

    method Terminate(p: Process) returns (ok: bool)
      modifies this
      ensures trace == old(trace) + [Terminated(p, ok)]
    {
      ok := *;
      trace := trace + [Terminated(p, ok)];
    }

    method SampleRx(uid: nat) returns (sample: RxSample)
      modifies this
      ensures trace == old(trace) + [Sampled(uid, sample)]
    {
      sample := *;
      trace := trace + [Sampled(uid, sample)];
    }

    method RecordedOwnership(p: Process) returns (entry: LedgerAnswer)
      modifies this
      ensures trace == old(trace) + [LedgerRead(p, entry)]
    {
      entry := *;
      trace := trace + [LedgerRead(p, entry)];
    }

    method Promote(p: Process) returns (answer: Option<bool>)
      modifies this
      ensures trace == old(trace) + [Promoted(p, answer)]
    {
      answer := *;
      trace := trace + [Promoted(p, answer)];
    }
  }

  predicate KernelAction(e: Event) { e.Froze? || e.Unfroze? || e.Terminated? }

  /** Freezing and killing: the actions the safety theorems restrict. */
  predicate Harmful(e: Event) { e.Froze? || e.Terminated? }

  predicate Confirms(check: Event, action: Event)
    requires KernelAction(action)
  {
    check.Validated? && check.answer == Some(true) && SameProcess(check.p, action.p)
  }

  predicate GuardedAt(t: seq<Event>, i: nat)
    requires i < |t|
  {
    KernelAction(t[i]) ==> i > 0 && Confirms(t[i - 1], t[i])
  }

  /** Every kernel action comes right after a successful identity check of the same process. */
  ghost predicate Guarded(t: seq<Event>) {
    forall i :: 0 <= i < |t| ==> GuardedAt(t, i)
  }

  /** Every freeze or kill hits a process of the batch. */
  ghost predicate Aimed(t: seq<Event>, batch: seq<Process>) {
    forall i :: 0 <= i < |t| && Harmful(t[i]) ==> exists p :: p in batch && SameProcess(p, t[i].p)
  }

  ghost predicate Harmless(t: seq<Event>) {
    forall i :: 0 <= i < |t| ==> !Harmful(t[i])
  }

  predicate Released(t: seq<Event>, pid: int) {
    exists j :: 0 <= j < |t| && t[j].Unfroze? && t[j].ok && t[j].p.pid == pid
  }

  /** Some freeze of this pid succeeded and no later thaw of it did. */
  predicate Holds(t: seq<Event>, pid: int) {
    exists i :: 0 <= i < |t| && t[i].Froze? && t[i].ok && t[i].p.pid == pid && !Released(t[i..], pid)
  }

  lemma GuardedConcat(a: seq<Event>, b: seq<Event>)
    requires Guarded(a) && Guarded(b)
    ensures Guarded(a + b)
  {
    forall i | 0 <= i < |a + b| ensures GuardedAt(a + b, i) {
      if i < |a| {
        assert GuardedAt(a, i);
      } else {
        assert GuardedAt(b, i - |a|);
      }
    }
  }

  lemma AimedConcat(a: seq<Event>, b: seq<Event>, batch: seq<Process>)
    requires Aimed(a, batch) && Aimed(b, batch)
    ensures Aimed(a + b, batch)
  {
  }

  lemma ReleasedConcat(a: seq<Event>, b: seq<Event>, pid: int)
    ensures Released(a + b, pid) <==> Released(a, pid) || Released(b, pid)
  {
    assert forall j :: 0 <= j < |a| ==> (a + b)[j] == a[j];
    assert forall j :: 0 <= j < |b| ==> (a + b)[|a| + j] == b[j];
  }

  lemma HoldsConcat(a: seq<Event>, b: seq<Event>, pid: int)
    requires Holds(a + b, pid)
    ensures Holds(b, pid) || (Holds(a, pid) && !Released(b, pid))
  {
    var t := a + b;
    var i :| 0 <= i < |t| && t[i].Froze? && t[i].ok && t[i].p.pid == pid && !Released(t[i..], pid);
    if i >= |a| {
      assert t[i..] == b[i - |a|..];
      assert b[i - |a|] == t[i];
    } else {
      assert t[i..] == a[i..] + b;
      ReleasedConcat(a[i..], b, pid);
    }
  }
}
