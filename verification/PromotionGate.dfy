/** The ledger on disk and the control pass together: an unresolved stop of the past keeps later ones unpromoted. */
module PromotionGate {
  import opened Domain
  import opened Trace
  import opened Transactions
  import opened ControlStateTracking
  import opened Actions
  import opened ControlTurn
  import opened TurnTheorems
  import Deferral
  import L = Ledger
  import T = LedgerTheorems

  function KeyOf(p: Process): L.Key
    requires p.start.Some?
  {
    L.Key(p.pid, p.start.value)
  }

  /** How a reading of the ledger, or the failure to read it, reaches the control pass. */
  function EntryOf(ok: bool, owned: Option<L.Ownership>): LedgerAnswer {
    if !ok then Unreadable
    else if owned.None? then NoEntry
    else if owned.value.SignalOnly? then SignalOnlyEntry
    else ResidualEntry
  }

  /** An answer the ledger's reader can give while the files are as they are (see `Ledger.Store.RecordedOwnership`). */
  ghost predicate Truthful(e: Event, d: L.Disk) {
    e.LedgerRead? && e.p.start.Some? ==>
      exists ok: bool, owned: Option<L.Ownership> ::
        (ok ==> L.WeakerOrSame(owned, L.Report(d, KeyOf(e.p)))) && e.entry == EntryOf(ok, owned)
  }

  /** Neither removes the entry nor promotes it. */
  predicate Leaves(m: T.Move, x: L.Key) {
    !m.Replacing? && (m.Taking? || m.Promoting? ==> m.key != x)
  }

  /** A residual entry stays residual through crashes, failures and whatever is done for other processes. */
  lemma {:induction false} ResidualStays(d: L.Disk, moves: seq<T.Move>, x: L.Key)
    requires L.Report(d, x) == Some(L.ResidualUnknown) && forall i :: 0 <= i < |moves| ==> Leaves(moves[i], x)
    ensures L.Report(T.After(d, moves), x) == Some(L.ResidualUnknown)
  {
    T.EntryOutlivesCrashes(d, moves, x);
    var n := |moves|;
    assert moves[..n] == moves;
    if T.SignalOnlyAt(d, moves, x, n) {
      var k := T.SignalOnlyWasPromoted(d, moves, x, n);
    }
  }

  /**
    A process of the batch has a residual entry on disk, recorded by this daemon or by one before a restart, and it
    was not resolved since. Then whatever memory holds, the turn asks for no promotion and earns no SignalOnly.
   */
  lemma {:induction false} ResidualStopsPromotion(d: L.Disk, moves: seq<T.Move>, c: Context, samples: map<nat,
                                                  Deferral.Sample>, v: View,
                               turn: Turn,
                               j: nat)
    requires Consistent(v) && PlausibleTurn(c, samples, v, turn) && turn.Acting? && turn.act.Signalled?
    requires j < |turn.ps| && turn.ps[j].start.Some?
    requires L.Report(d, KeyOf(turn.ps[j])) == Some(L.ResidualUnknown)
    requires forall i :: 0 <= i < |moves| ==> Leaves(moves[i], KeyOf(turn.ps[j]))
    requires forall i :: 0 <= i < |turn.act.ledger| ==> Truthful(turn.act.ledger[i], T.After(d, moves))
    ensures turn.act.promos == [] && NoNewSignalOnly(v, AfterTurn(c, samples, v, turn))
  {
    ResidualStays(d, moves, KeyOf(turn.ps[j]));
    ResidualIsRead(T.After(d, moves), Entered(v, IdOf(c, turn.ps)), IdOf(c, turn.ps), turn.ps, turn.act.ledger, j);
    UnpromotedStop(c, samples, v, turn);
  }

  lemma UnpromotedStop(c: Context, samples: map<nat, Deferral.Sample>, v: View, turn: Turn)
    requires Consistent(v) && PlausibleTurn(c, samples, v, turn) && turn.Acting? && turn.act.Signalled?
    requires turn.act.promos == []
    ensures NoNewSignalOnly(v, AfterTurn(c, samples, v, turn))
  {
    EnteredReady(c, v, turn.ps);
    UnpromotedView(Entered(v, IdOf(c, turn.ps)), IdOf(c, turn.ps), c.now, turn.ps, turn.act.story);
  }

  lemma {:induction false} UnpromotedView(v: View, id: Identity, now: nat, ps: seq<Process>, story: Story)
    requires Ready(v, id, ps) && Plausible(PendingBatch(ps), story)
    ensures NoNewSignalOnly(v, AfterSignal(v, id, now, SignatureOf(ps), OutcomeOf(PendingBatch(ps), story), false))
  {
    SignalViewFits(v, id, now, SignatureOf(ps), OutcomeOf(PendingBatch(ps), story), false);
  }

  lemma ResidualIsRead(d: L.Disk, v: View, id: Identity, ps: seq<Process>, ledger: seq<Event>, j: nat)
    requires j < |ps| && ps[j].start.Some? && L.Report(d, KeyOf(ps[j])) == Some(L.ResidualUnknown)
    requires forall i :: 0 <= i < |ledger| ==> Truthful(ledger[i], d)
    ensures !PromotionAllowed(v, id, PendingBatch(ps), ledger)
  {
    var p := PendingBatch(ps)[j];
    if j < |ledger| && ledger[j].LedgerRead? && ledger[j].p == p {
      assert KeyOf(p) == KeyOf(ps[j]) && Truthful(ledger[j], d);
      assert ledger[j].entry == ResidualEntry || ledger[j].entry == Unreadable;
    }
  }
}
