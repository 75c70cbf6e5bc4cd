/** What became of a charge that the ledger never counted, in whole runs of interleaved budgeted calls. */
module BudgetedRuns {
  import opened Results
  import opened BudgetTracker
  import opened BudgetedCalls
  import L = BudgetLedger

  predicate Finished(p: Phase) {
    p.Paid? || p.Dropped?
  }

  lemma StepKeepsIds(m: Machine, pricing: map<string, Price>, e: Event, i: nat)
    requires Enabled(m, pricing, e) && i < |m.calls| && HasId(m.calls[i].phase)
    ensures var n := Step(m, pricing, e);
      && i < |n.calls| && HasId(n.calls[i].phase) && n.calls[i].phase.id == m.calls[i].phase.id
      && (Finished(m.calls[i].phase) ==> n.calls[i].phase == m.calls[i].phase)
  {
    hide L.Reserve, L.Settle, L.ReapOne, L.Halt, Cost, Charged, ValidCall, Dispatch, Apply, Accepts;
  }

  /** A call keeps its reservation for good, and a finished call stays as it is. */
  lemma {:induction false} IdsStay(m: Machine, pricing: map<string, Price>, events: seq<Event>, n: Machine, i: nat)
    requires Run(m, pricing, events, n) && i < |m.calls| && HasId(m.calls[i].phase)
    ensures i < |n.calls| && HasId(n.calls[i].phase) && n.calls[i].phase.id == m.calls[i].phase.id
    ensures Finished(m.calls[i].phase) ==> n.calls[i].phase == m.calls[i].phase
    decreases |events|
  {
    hide Step, Enabled;
    if events != [] {
      StepKeepsIds(m, pricing, events[0], i);
      IdsStay(Step(m, pricing, events[0]), pricing, events[1..], n, i);
    }
  }

  predicate Settled(l: L.Ledger, id: nat) {
    id < |l.reservations| && l.reservations[id].settled
  }

  /** A reservation is settled by the call that owns it, which then is finished and counted, or by the reaper. */
  lemma WhoSettles(m: Machine, pricing: map<string, Price>, e: Event, id: nat)
    requires Inv(m, pricing) && Enabled(m, pricing, e) && !Settled(m.ledger, id) && Settled(Step(m, pricing, e).ledger, id)
    ensures var n := Step(m, pricing, e);
      if e.ReapTurn? then e.id == id && id < |m.ledger.reservations| && L.Expired(m.ledger.reservations[id], e.now)
      else
        && e.SettleFor? && e.i < |n.calls| && n.calls[e.i].phase.id == id
        && (n.calls[e.i].phase.Dropped? || (n.calls[e.i].phase.Paid? && n.calls[e.i].phase.counted))
  {
    hide Inv, L.Reaches, L.ValidKey, Cost, Charged, ValidCall, Dispatch, Apply, L.Clamped;
  }

  /** Event k is a turn of the reaper that finds the reservation open and expired; the call has not settled it yet. */
  ghost predicate ReapsAt(m: Machine, pricing: map<string, Price>, events: seq<Event>, k: nat, id: nat, i: nat) {
    && k < |events| && events[k].ReapTurn? && events[k].id == id
    && var before := StepAll(m, pricing, events[..k]);
       && before.Some? && id < |before.value.ledger.reservations|
       && L.Expired(before.value.ledger.reservations[id], events[k].now)
       && (i < |before.value.calls| ==> !before.value.calls[i].phase.Paid?)
  }

  lemma Later(m: Machine, pricing: map<string, Price>, events: seq<Event>, k: nat)
    requires k < |events| && Enabled(m, pricing, events[0])
    ensures StepAll(m, pricing, events[..k + 1]) == StepAll(Step(m, pricing, events[0]), pricing, events[1..][..k])
  {
    hide Step, Enabled;
    assert events[..k + 1][1..] == events[1..][..k];
  }

  lemma {:induction false} UncountedReapedSince(m: Machine, pricing: map<string, Price>, events: seq<Event>, n: Machine, i: nat) returns (k: nat)
    requires Inv(m, pricing) && Run(m, pricing, events, n) && IdsDiffer(n.calls)
    requires i < |n.calls| && n.calls[i].phase.Paid? && n.calls[i].phase.cost >= 0.0 && !n.calls[i].phase.counted
    requires !Settled(m.ledger, n.calls[i].phase.id) && Settled(n.ledger, n.calls[i].phase.id)
    ensures ReapsAt(m, pricing, events, k, n.calls[i].phase.id, i)
    decreases |events|
  {
    hide Step, Enabled, Inv, Run;
    var id := n.calls[i].phase.id;
    Unfold(m, pricing, events, n);
    var e, rest := events[0], events[1..];
    var next := Step(m, pricing, e);
    if !Settled(next.ledger, id) {
      StepKeeps(m, pricing, e);
      var j := UncountedReapedSince(next, pricing, rest, n, i);
      Later(m, pricing, events, j);
      k := j + 1;
    } else {
      WhoSettles(m, pricing, e, id);
      if e.ReapTurn? {
        NotYetPaid(m, pricing, rest, n, i, e);
        k := 0;
      } else {
        IdsStay(next, pricing, rest, n, e.i);
      }
    }
  }

  lemma Unfold(m: Machine, pricing: map<string, Price>, events: seq<Event>, n: Machine)
    requires Run(m, pricing, events, n) && m != n
    ensures events != [] && Enabled(m, pricing, events[0]) && Run(Step(m, pricing, events[0]), pricing, events[1..], n)
  {
    hide Step, Enabled;
  }

  /** While its reservation is open, a call that will be paid is not paid yet. */
  lemma NotYetPaid(m: Machine, pricing: map<string, Price>, rest: seq<Event>, n: Machine, i: nat, e: Event)
    requires Inv(m, pricing) && Enabled(m, pricing, e) && Run(Step(m, pricing, e), pricing, rest, n)
    requires i < |n.calls| && n.calls[i].phase.Paid? && n.calls[i].phase.cost >= 0.0 && !Settled(m.ledger, n.calls[i].phase.id)
    ensures i < |m.calls| ==> !m.calls[i].phase.Paid?
  {
    hide Step, Enabled, Inv, Run;
    if i < |m.calls| && m.calls[i].phase.Paid? {
      StepKeepsIds(m, pricing, e, i);
      IdsStay(Step(m, pricing, e), pricing, rest, n, i);
      PaidIsSettled(m, pricing, m.calls[i]);
    }
  }

  lemma PaidIsSettled(m: Machine, pricing: map<string, Price>, c: CallState)
    requires Inv(m, pricing) && c in m.calls && c.phase.Paid? && c.phase.cost >= 0.0
    ensures Settled(m.ledger, c.phase.id)
  {
    hide L.Inv, IdsDiffer, TrackersAgree, LedgerAgrees;
    assert CallOk(m, pricing, c);
  }

  /**
   A settlement that was not counted came too late: earlier in the run the reaper had found its
   reservation expired and closed it for nothing.
   */
  lemma UncountedWereReaped(limits: seq<Option<real>>, pricing: map<string, Price>, events: seq<Event>, n: Machine, i: nat)
    requires Run(Opening(limits), pricing, events, n)
    requires i < |n.calls| && n.calls[i].phase.Paid? && n.calls[i].phase.cost >= 0.0
    ensures var p := n.calls[i].phase;
      && p.id < |n.ledger.reservations| && n.ledger.reservations[p.id].settled
      && n.ledger.reservations[p.id].actual == if p.counted then p.cost else 0.0
    ensures !n.calls[i].phase.counted ==> exists k: nat :: ReapsAt(Opening(limits), pricing, events, k, n.calls[i].phase.id, i)
  {
    OpeningIsOk(limits, pricing);
    RunKeeps(Opening(limits), pricing, events, n);
    hide L.Inv, Run, TrackersAgree, LedgerAgrees, ReapsAt;
    assert CallOk(n, pricing, n.calls[i]);
    if !n.calls[i].phase.counted {
      var k := UncountedReapedSince(Opening(limits), pricing, events, n, i);
    }
  }
}
