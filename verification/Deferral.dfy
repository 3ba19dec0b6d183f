/** The download-rate gate: one remembered sample per UID stands for the whole history of sampling. */
module Deferral {
  import opened Domain
  import opened Trace

  const THRESHOLD: nat := 5 * 1024 * 1024

  datatype Sample = Sample(bytes: nat, at: nat)

  datatype Happening =
    | Evaluated(uid: nat, package: string, sample: RxSample, at: nat)
    | Cleared(uid: nat)
    | Reset

  predicate IsCandidate(package: string) {
    Lowered(package) in {
      "com.baidu.netdisk", "com.quark.clouddrive", "com.google.android.apps.docs", "com.pikpak.android",
      "com.trim.app"}
  }

  /** The remembered samples after one happening. */
  function After(samples: map<nat, Sample>, e: Happening): map<nat, Sample> {
    match e
    case Evaluated(uid, package, sample, at) =>
      if IsCandidate(package) && sample.Value? then samples[uid := Sample(sample.bytes, at)] else samples - {uid}
    case Cleared(uid) => samples - {uid}
    case Reset => map[]
  }

  class DownloadDeferral {
    var samples: map<nat, Sample>

    constructor ()
      ensures samples == map[]
    {
      samples := map[];
    }

    method ClearUid(uid: nat)
      modifies this
      ensures samples == After(old(samples), Cleared(uid))
    {
      samples := samples - {uid};
    }

    method Clear()
      modifies this
      ensures samples == After(old(samples), Reset)
    {
      samples := map[];
    }

    method Evaluate(uid: nat, package: string, sample: RxSample, at: nat) returns (proceed: bool)
      modifies this
      ensures samples == After(old(samples), Evaluated(uid, package, sample, at))
      ensures proceed == Proceeds(old(samples), uid, package, sample, at)
    {
      if !IsCandidate(package) {
        samples := samples - {uid};
        return true;
      }
      if !sample.Value? {
        samples := samples - {uid};
        return false;
      }
      var previous := if uid in samples then Some(samples[uid]) else None;
      samples := samples[uid := Sample(sample.bytes, at)];
      if previous.None? {
        return false;
      }
      if at <= previous.value.at || sample.bytes < previous.value.bytes {
        return false;
      }
      return (sample.bytes - previous.value.bytes) * 1000 / (at - previous.value.at) <= THRESHOLD;
    }
  }

  predicate Proceeds(samples: map<nat, Sample>, uid: nat, package: string, sample: RxSample, at: nat) {
    !IsCandidate(package) ||
    (&& sample.Value? && uid in samples
     && samples[uid].at < at && samples[uid].bytes <= sample.bytes
     && (sample.bytes - samples[uid].bytes) * 1000 / (at - samples[uid].at) <= THRESHOLD)
  }

  // ---- The full-history specification

  /** The remembered samples after several happenings. */
  function AfterAll(samples: map<nat, Sample>, h: seq<Happening>): map<nat, Sample> {
    if h == [] then samples else After(AfterAll(samples, h[..|h| - 1]), h[|h| - 1])
  }

  lemma {:induction false} AfterAllConcat(samples: map<nat, Sample>, a: seq<Happening>, b: seq<Happening>)
    ensures AfterAll(samples, a + b) == AfterAll(AfterAll(samples, a), b)
  {
    if b == [] {
      assert a + b == a;
    } else {
      var n := |b| - 1;
      assert (a + b)[..|a| + n] == a + b[..n];
      AfterAllConcat(samples, a, b[..n]);
    }
  }

  lemma {:induction false} AfterOne(samples: map<nat, Sample>, e: Happening)
    ensures AfterAll(samples, [e]) == After(samples, e)
  {
    assert [e][..0] == [];
  }

  function Replay(h: seq<Happening>): map<nat, Sample> { AfterAll(map[], h) }

  predicate Concerns(e: Happening, uid: nat) { e.Reset? || e.uid == uid }

  /** The last happening that concerned this UID. */
  function LastFor(h: seq<Happening>, uid: nat): (e: Option<Happening>)
    ensures e.Some? ==> exists i :: 0 <= i < |h| && h[i] == e.value && Concerns(h[i], uid)
                                    && forall j :: i < j < |h| ==> !Concerns(h[j], uid)
    ensures e.None? ==> forall j :: 0 <= j < |h| ==> !Concerns(h[j], uid)
  {
    if h == [] then None
    else if Concerns(h[|h| - 1], uid) then Some(h[|h| - 1])
    else LastFor(h[..|h| - 1], uid)
  }

  /** A candidate proceeds when its last happening was a usable sample and at most 5 MiB a second came since then. */
  predicate SlowSinceLastSample(h: seq<Happening>, uid: nat, bytes: nat, at: nat) {
    var last := LastFor(h, uid);
    && last.Some? && last.value.Evaluated? && IsCandidate(last.value.package) && last.value.sample.Value?
    && last.value.at < at && last.value.sample.bytes <= bytes
    && (bytes - last.value.sample.bytes) * 1000 < (5 * 1024 * 1024 + 1) * (at - last.value.at)
  }

  lemma {:induction false} ReplayKeepsLastSample(h: seq<Happening>, uid: nat)
    ensures uid in Replay(h) <==>
            var last := LastFor(h, uid);
            last.Some? && last.value.Evaluated? && IsCandidate(last.value.package) && last.value.sample.Value?
    ensures uid in Replay(h) ==>
              Replay(h)[uid] == Sample(LastFor(h, uid).value.sample.bytes, LastFor(h, uid).value.at)
  {
    if h == [] {
    } else {
      ReplayKeepsLastSample(h[..|h| - 1], uid);
    }
  }

  lemma DivisionBound(a: nat, d: nat, limit: nat)
    requires d > 0
    ensures a / d <= limit <==> a < (limit + 1) * d
  {
    var q := a / d;
    assert a == q * d + a % d;
    if q <= limit {
      assert (limit - q) * d >= 0;
      assert (limit + 1) * d == (limit - q) * d + q * d + d;
    } else {
      assert (q - limit - 1) * d >= 0;
      assert q * d == (q - limit - 1) * d + (limit + 1) * d;
    }
  }

  /** The one-sample state answers exactly as the full history does, after every history. */
  lemma OneSampleRefinesHistory(h: seq<Happening>, uid: nat, package: string, sample: RxSample, at: nat)
    ensures Proceeds(Replay(h), uid, package, sample, at) <==>
            !IsCandidate(package) || (sample.Value? && SlowSinceLastSample(h, uid, sample.bytes, at))
  {
    ReplayKeepsLastSample(h, uid);
    if uid in Replay(h) && sample.Value? {
      var previous := Replay(h)[uid];
      if previous.at < at && previous.bytes <= sample.bytes {
        DivisionBound((sample.bytes - previous.bytes) * 1000, at - previous.at, THRESHOLD);
      }
    }
  }
}
