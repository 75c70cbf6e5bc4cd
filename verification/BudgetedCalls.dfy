/**
 Budgeted calls interleaved at their awaits: any number of adapters with their own trackers share
 one reservation ledger.  A call asks its tracker, reserves its estimate, runs at the provider, is
 charged to the tracker and settles its reservation, while reapers, operators and other calls act.
 */
module BudgetedCalls {
  import opened Results
  import opened Strings
  import opened BudgetTracker
  import L = BudgetLedger

  /** counted tells whether the settlement still found its reservation open. */
  datatype Phase =
    | Asking(estimate: LlmCall)
    | Admitted(estimate: LlmCall)
    | Holding(id: nat, estimate: LlmCall)
    | Owing(id: nat, cost: real)
    | Refunding(id: nat)
    | Paid(id: nat, cost: real, counted: bool)
    | Dropped(id: nat)
    | Stranded(id: nat)
    | Denied

  datatype CallState = CallState(tracker: nat, key: string, limit: Option<real>, phase: Phase)

  datatype Machine = Machine(ledger: L.Ledger, trackers: seq<State>, calls: seq<CallState>)

  datatype Event =
    | Start(tracker: nat, key: string, limit: Option<real>, estimate: LlmCall)
    | Check(i: nat)
    | ReserveFor(i: nat, now: int)
    | Answer(i: nat, actual: LlmCall)
    | ProviderFails(i: nat)
    | SettleFor(i: nat)
    | ReapTurn(id: nat, now: int)
    | HaltKey(key: string, reason: string)
    | HaltRun(tracker: nat, reason: string)

  const TTL: int := 300000

  predicate Enabled(m: Machine, pricing: map<string, Price>, e: Event) {
    match e
    case Start(t, _, _, _) => t < |m.trackers|
    case Check(i) => i < |m.calls| && m.calls[i].phase.Asking? && m.calls[i].tracker < |m.trackers|
    case ReserveFor(i, _) => i < |m.calls| && m.calls[i].phase.Admitted? && m.calls[i].phase.estimate.model in pricing
    case Answer(i, _) => i < |m.calls| && m.calls[i].phase.Holding? && m.calls[i].tracker < |m.trackers|
    case ProviderFails(i) => i < |m.calls| && m.calls[i].phase.Holding?
    case SettleFor(i) => i < |m.calls| && (m.calls[i].phase.Owing? || m.calls[i].phase.Refunding?)
    case ReapTurn(_, _) => true
    case HaltKey(_, _) => true
    case HaltRun(t, _) => t < |m.trackers|
  }

  function Move(m: Machine, i: nat, p: Phase): Machine
    requires i < |m.calls|
  {
    m.(calls := m.calls[i := m.calls[i].(phase := p)])
  }

  /** The reservation is open and accepts the amount. */
  predicate Accepts(l: L.Ledger, id: nat, amount: real) {
    id < |l.reservations| && !l.reservations[id].settled && amount >= 0.0 && l.reservations[id].key in l.budgets
  }

  function Step(m: Machine, pricing: map<string, Price>, e: Event): Machine
    requires Enabled(m, pricing, e)
  {
    match e
    case Start(t, key, limit, estimate) => m.(calls := m.calls + [CallState(t, key, limit, Asking(estimate))])
    case Check(i) =>
      var estimate := m.calls[i].phase.estimate;
      Move(m, i, if Dispatch(m.trackers[m.calls[i].tracker], pricing, estimate).Ok? then Admitted(estimate) else Denied)
    case ReserveFor(i, now) =>
      var c := m.calls[i];
      var (ledger, r) := L.Reserve(m.ledger, c.key, c.limit, Cost(pricing[c.phase.estimate.model], c.phase.estimate), TTL, now);
      Move(m, i, if r.Ok? then Holding(r.value, c.phase.estimate) else Denied).(ledger := ledger)
    case Answer(i, actual) =>
      var c := m.calls[i];
      if !ValidCall(actual) then Move(m, i, Stranded(c.phase.id))
      else
        Move(m, i, if actual.model in pricing then Owing(c.phase.id, Cost(pricing[actual.model], actual)) else Stranded(c.phase.id)).(
          trackers := m.trackers[c.tracker := Charged(m.trackers[c.tracker], pricing, actual)])
    case ProviderFails(i) => Move(m, i, Refunding(m.calls[i].phase.id))
    case SettleFor(i) =>
      var p := m.calls[i].phase;
      if p.Owing? then Move(m, i, Paid(p.id, p.cost, Accepts(m.ledger, p.id, p.cost))).(ledger := L.Settle(m.ledger, p.id, p.cost).0)
      else Move(m, i, Dropped(p.id)).(ledger := L.Settle(m.ledger, p.id, 0.0).0)
    case ReapTurn(id, now) => m.(ledger := L.ReapOne(m.ledger, id, now))
    case HaltKey(key, reason) => m.(ledger := L.Halt(m.ledger, key, reason).0)
    case HaltRun(t, reason) => m.(trackers := m.trackers[t := Apply(m.trackers[t], pricing, HaltOp(reason))])
  }

  // ---------------------------------------------------------------------------------------
  // What was charged and what was counted
  // ---------------------------------------------------------------------------------------

  function ChargeOf(p: Phase): real {
    if p.Owing? || p.Paid? then p.cost else 0.0
  }

  function CountedOf(p: Phase): real {
    if p.Paid? && p.counted then p.cost else 0.0
  }

  /** Charges of the tracker's calls. */
  function ChargedBy(calls: seq<CallState>, tracker: nat): real {
    if calls == [] then 0.0
    else
      var c := calls[|calls| - 1];
      ChargedBy(calls[..|calls| - 1], tracker) + if c.tracker == tracker then ChargeOf(c.phase) else 0.0
  }

  /** Charges of the key's calls. */
  function ChargedTo(calls: seq<CallState>, key: string): real {
    if calls == [] then 0.0
    else
      var c := calls[|calls| - 1];
      ChargedTo(calls[..|calls| - 1], key) + if c.key == key then ChargeOf(c.phase) else 0.0
  }

  /** Settlements of the key's calls that found their reservation open. */
  function CountedTo(calls: seq<CallState>, key: string): real {
    if calls == [] then 0.0
    else
      var c := calls[|calls| - 1];
      CountedTo(calls[..|calls| - 1], key) + if c.key == key then CountedOf(c.phase) else 0.0
  }

  lemma {:induction false} SumsMove(calls: seq<CallState>, i: nat, p: Phase, tracker: nat, key: string)
    requires i < |calls|
    ensures var after := calls[i := calls[i].(phase := p)];
      && ChargedBy(after, tracker) == ChargedBy(calls, tracker) + (if calls[i].tracker == tracker then ChargeOf(p) - ChargeOf(calls[i].phase) else 0.0)
      && CountedTo(after, key) == CountedTo(calls, key) + (if calls[i].key == key then CountedOf(p) - CountedOf(calls[i].phase) else 0.0)
  {
    hide ChargeOf, CountedOf;
    var after, n := calls[i := calls[i].(phase := p)], |calls| - 1;
    if i < n {
      SumsMove(calls[..n], i, p, tracker, key);
      assert after[..n] == calls[..n][i := calls[i].(phase := p)];
    } else {
      assert after[..n] == calls[..n];
    }
  }

  lemma SumsStart(calls: seq<CallState>, c: CallState, tracker: nat, key: string)
    requires ChargeOf(c.phase) == 0.0 && CountedOf(c.phase) == 0.0
    ensures ChargedBy(calls + [c], tracker) == ChargedBy(calls, tracker) && CountedTo(calls + [c], key) == CountedTo(calls, key)
  {
    assert (calls + [c])[..|calls|] == calls;
  }

  // ---------------------------------------------------------------------------------------
  // The invariant
  // ---------------------------------------------------------------------------------------

  predicate HasId(p: Phase) {
    p.Holding? || p.Owing? || p.Refunding? || p.Paid? || p.Dropped? || p.Stranded?
  }

  /** What a call may rely on of its reservation: the reaper alone settles it before the call does, for nothing. */
  predicate CallOk(m: Machine, pricing: map<string, Price>, c: CallState) {
    && c.tracker < |m.trackers|
    && (c.phase.Admitted? ==> c.phase.estimate.model in pricing)
    && (HasId(c.phase) ==>
          && c.phase.id < |m.ledger.reservations| && m.ledger.reservations[c.phase.id].key == c.key
          && (m.ledger.reservations[c.phase.id].settled ==> m.ledger.reservations[c.phase.id].actual == CountedOf(c.phase)))
    && (c.phase.Holding? ==>
          && c.phase.estimate.model in pricing
          && m.ledger.reservations[c.phase.id].estimated == Cost(pricing[c.phase.estimate.model], c.phase.estimate))
    && (c.phase.Dropped? || (c.phase.Paid? && (c.phase.counted || c.phase.cost >= 0.0)) ==> m.ledger.reservations[c.phase.id].settled)
  }

  ghost predicate IdsDiffer(calls: seq<CallState>) {
    forall i, j :: 0 <= i < j < |calls| && HasId(calls[i].phase) && HasId(calls[j].phase) ==> calls[i].phase.id != calls[j].phase.id
  }

  ghost predicate TrackersAgree(m: Machine) {
    forall t :: 0 <= t < |m.trackers| ==> m.trackers[t].spent == ChargedBy(m.calls, t)
  }

  function Spent(l: L.Ledger, key: string): real {
    if key in l.budgets then l.budgets[key].spent else 0.0
  }

  ghost predicate LedgerAgrees(m: Machine) {
    forall key: string :: Spent(m.ledger, key) == CountedTo(m.calls, key)
  }

  ghost predicate CallsOk(m: Machine, pricing: map<string, Price>) {
    forall i :: 0 <= i < |m.calls| ==> CallOk(m, pricing, m.calls[i])
  }

  ghost predicate Inv(m: Machine, pricing: map<string, Price>) {
    L.Inv(m.ledger) && CallsOk(m, pricing) && IdsDiffer(m.calls) && TrackersAgree(m) && LedgerAgrees(m)
  }

  /** Every charge still owed is within its reservation's estimate, and every key is below its limit. */
  ghost predicate Modest(m: Machine) {
    && L.BelowLimits(m.ledger)
    && forall i :: 0 <= i < |m.calls| && m.calls[i].phase.Owing? && m.calls[i].phase.id < |m.ledger.reservations| ==>
         m.calls[i].phase.cost <= m.ledger.reservations[m.calls[i].phase.id].estimated
  }

  /** A provider's answer costs no more than its call's estimate. */
  predicate Estimated(m: Machine, pricing: map<string, Price>, e: Event) {
    e.Answer? && Enabled(m, pricing, e) && e.actual.model in pricing && m.calls[e.i].phase.estimate.model in pricing ==>
      Cost(pricing[e.actual.model], e.actual) <= Cost(pricing[m.calls[e.i].phase.estimate.model], m.calls[e.i].phase.estimate)
  }

  // ---------------------------------------------------------------------------------------
  // Every step keeps it
  // ---------------------------------------------------------------------------------------

  /** What ledger calls leave alone: reservations keep their key and estimate, and settled ones everything. */
  ghost predicate ReservationsLater(l: L.Ledger, n: L.Ledger, except: int) {
    && |l.reservations| <= |n.reservations|
    && forall id :: 0 <= id < |l.reservations| ==>
         && n.reservations[id].key == l.reservations[id].key && n.reservations[id].estimated == l.reservations[id].estimated
         && (l.reservations[id].settled ==> n.reservations[id] == l.reservations[id])
         && (id != except && n.reservations[id].settled && !l.reservations[id].settled ==> n.reservations[id].actual == 0.0)
  }

  lemma CallStaysOk(m: Machine, n: Machine, pricing: map<string, Price>, c: CallState, except: int)
    requires CallOk(m, pricing, c) && ReservationsLater(m.ledger, n.ledger, except) && |m.trackers| == |n.trackers|
    requires HasId(c.phase) ==> c.phase.id != except
    requires HasId(c.phase) && CountedOf(c.phase) != 0.0 ==> m.ledger.reservations[c.phase.id].settled
    ensures CallOk(n, pricing, c)
  {
    hide Cost;
  }

  /** Only call i moved; the ledger changed at most in that call's reservation, new ones, or by reaping. */
  lemma MoveKeepsCalls(m: Machine, n: Machine, pricing: map<string, Price>, i: nat)
    requires CallsOk(m, pricing) && IdsDiffer(m.calls) && i < |m.calls| && |m.trackers| == |n.trackers|
    requires |n.calls| == |m.calls| && n.calls == m.calls[i := n.calls[i]] && CallOk(n, pricing, n.calls[i])
    requires ReservationsLater(m.ledger, n.ledger, if HasId(m.calls[i].phase) then m.calls[i].phase.id else -1)
    requires HasId(n.calls[i].phase) ==>
      if HasId(m.calls[i].phase) then n.calls[i].phase.id == m.calls[i].phase.id else n.calls[i].phase.id == |m.ledger.reservations|
    ensures CallsOk(n, pricing) && IdsDiffer(n.calls)
  {
    hide ReservationsLater, Cost;
    var except := if HasId(m.calls[i].phase) then m.calls[i].phase.id else -1;
    forall j | 0 <= j < |n.calls| && j != i
      ensures CallOk(n, pricing, n.calls[j])
    {
      CallStaysOk(m, n, pricing, m.calls[j], except);
    }
    assert forall j :: 0 <= j < |m.calls| ==> CallOk(m, pricing, m.calls[j]);
  }

  lemma LedgerMoveKeepsCalls(m: Machine, n: Machine, pricing: map<string, Price>)
    requires CallsOk(m, pricing) && n.calls == m.calls && |m.trackers| == |n.trackers|
    requires ReservationsLater(m.ledger, n.ledger, -1)
    ensures CallsOk(n, pricing)
  {
    hide ReservationsLater, Cost;
    forall j | 0 <= j < |n.calls|
      ensures CallOk(n, pricing, n.calls[j])
    {
      CallStaysOk(m, n, pricing, m.calls[j], -1);
    }
  }

  lemma MoveKeepsSums(m: Machine, n: Machine, i: nat, usd: real, counted: real)
    requires TrackersAgree(m) && LedgerAgrees(m) && i < |m.calls| && |m.trackers| == |n.trackers| && m.calls[i].tracker < |m.trackers|
    requires |n.calls| == |m.calls| && n.calls == m.calls[i := m.calls[i].(phase := n.calls[i].phase)]
    requires usd == ChargeOf(n.calls[i].phase) - ChargeOf(m.calls[i].phase) && counted == CountedOf(n.calls[i].phase) - CountedOf(m.calls[i].phase)
    requires forall t :: 0 <= t < |m.trackers| ==> n.trackers[t].spent == m.trackers[t].spent + if t == m.calls[i].tracker then usd else 0.0
    requires forall key: string :: Spent(n.ledger, key) == Spent(m.ledger, key) + if key == m.calls[i].key then counted else 0.0
    ensures TrackersAgree(n) && LedgerAgrees(n)
  {
    hide Spent, ChargeOf, CountedOf, ChargedBy, CountedTo;
    forall t: nat
      ensures ChargedBy(n.calls, t) == ChargedBy(m.calls, t) + if m.calls[i].tracker == t then usd else 0.0
    {
      SumsMove(m.calls, i, n.calls[i].phase, t, "");
    }
    forall key: string
      ensures CountedTo(n.calls, key) == CountedTo(m.calls, key) + if m.calls[i].key == key then counted else 0.0
    {
      SumsMove(m.calls, i, n.calls[i].phase, 0, key);
    }
  }

  lemma ReserveIsLater(l: L.Ledger, key: string, limit: Option<real>, estimated: real, now: int)
    ensures var (n, r) := L.Reserve(l, key, limit, estimated, TTL, now);
      && ReservationsLater(l, n, -1) && (forall k: string :: Spent(n, k) == Spent(l, k))
      && (r.Ok? ==> r.value == |l.reservations| < |n.reservations| && n.reservations[r.value] == L.Reservation(key, estimated, now + TTL, false, 0.0))
  {
    hide L.ValidKey, L.Reaches;
  }

  lemma SettleIsLater(l: L.Ledger, id: nat, actual: real)
    requires L.Inv(l)
    ensures var n := L.Settle(l, id, actual).0;
      && ReservationsLater(l, n, id)
      && (Accepts(l, id, actual) ==> n.reservations[id].settled && n.reservations[id].actual == actual)
      && (!Accepts(l, id, actual) ==> n == l)
      && forall k: string :: Spent(n, k) == Spent(l, k) + if Accepts(l, id, actual) && k == l.reservations[id].key then actual else 0.0
  {
    hide L.Clamped, L.Balances;
  }

  lemma ReapIsLater(l: L.Ledger, id: nat, now: int)
    requires L.Inv(l)
    ensures var n := L.ReapOne(l, id, now); ReservationsLater(l, n, -1) && forall k: string :: Spent(n, k) == Spent(l, k)
  {
    hide L.Settle, L.Inv;
    SettleIsLater(l, id, 0.0);
  }

  lemma CheckKeeps(m: Machine, pricing: map<string, Price>, e: Event)
    requires Inv(m, pricing) && Enabled(m, pricing, e) && (e.Check? || e.ProviderFails?)
    ensures Inv(Step(m, pricing, e), pricing)
  {
    hide L.Inv, Cost, TrackersAgree, LedgerAgrees, IdsDiffer, Reached, Spent;
    var n := Step(m, pricing, e);
    assert CallOk(m, pricing, m.calls[e.i]);
    MoveKeepsCalls(m, n, pricing, e.i);
    MoveKeepsSums(m, n, e.i, 0.0, 0.0);
  }

  lemma ReserveForKeeps(m: Machine, pricing: map<string, Price>, i: nat, now: int)
    requires Inv(m, pricing) && Enabled(m, pricing, ReserveFor(i, now))
    ensures Inv(Step(m, pricing, ReserveFor(i, now)), pricing)
  {
    hide L.Inv, Cost, TrackersAgree, LedgerAgrees, IdsDiffer, L.Reserve, ReservationsLater, Spent;
    var n, c := Step(m, pricing, ReserveFor(i, now)), m.calls[i];
    var estimated := Cost(pricing[c.phase.estimate.model], c.phase.estimate);
    assert CallOk(m, pricing, c);
    L.ReserveKeeps(m.ledger, c.key, c.limit, estimated, TTL, now);
    ReserveIsLater(m.ledger, c.key, c.limit, estimated, now);
    MoveKeepsCalls(m, n, pricing, i);
    MoveKeepsSums(m, n, i, 0.0, 0.0);
  }

  lemma AnswerKeeps(m: Machine, pricing: map<string, Price>, i: nat, actual: LlmCall)
    requires Inv(m, pricing) && Enabled(m, pricing, Answer(i, actual))
    ensures Inv(Step(m, pricing, Answer(i, actual)), pricing)
  {
    hide L.Inv, Cost, TrackersAgree, LedgerAgrees, IdsDiffer, Reached, ValidCall, Spent;
    var n := Step(m, pricing, Answer(i, actual));
    assert CallOk(m, pricing, m.calls[i]);
    MoveKeepsCalls(m, n, pricing, i);
    MoveKeepsSums(m, n, i, if ValidCall(actual) && actual.model in pricing then Cost(pricing[actual.model], actual) else 0.0, 0.0);
  }

  lemma SettleForKeeps(m: Machine, pricing: map<string, Price>, i: nat)
    requires Inv(m, pricing) && Enabled(m, pricing, SettleFor(i))
    ensures Inv(Step(m, pricing, SettleFor(i)), pricing)
  {
    hide Cost, TrackersAgree, LedgerAgrees, IdsDiffer, L.Settle, L.Balances, Spent;
    var n, p := Step(m, pricing, SettleFor(i)), m.calls[i].phase;
    var amount := if p.Owing? then p.cost else 0.0;
    assert CallOk(m, pricing, m.calls[i]);
    assert L.ReservationOk(m.ledger.reservations[p.id], m.ledger.budgets.Keys);
    hide L.Inv;
    L.SettleKeeps(m.ledger, p.id, amount);
    SettleIsLater(m.ledger, p.id, amount);
    MoveKeepsCalls(m, n, pricing, i);
    MoveKeepsSums(m, n, i, 0.0, if Accepts(m.ledger, p.id, amount) then amount else 0.0);
  }

  lemma LedgerStepKeeps(m: Machine, pricing: map<string, Price>, e: Event)
    requires Inv(m, pricing) && Enabled(m, pricing, e) && (e.ReapTurn? || e.HaltKey?)
    ensures Inv(Step(m, pricing, e), pricing)
  {
    hide CallsOk, ChargedBy, CountedTo, L.ReapOne;
    var n := Step(m, pricing, e);
    if e.ReapTurn? {
      hide L.Inv;
      L.ReapOneKeeps(m.ledger, e.id, e.now);
      ReapIsLater(m.ledger, e.id, e.now);
    }
    LedgerMoveKeepsCalls(m, n, pricing);
    assert forall key: string :: Spent(n.ledger, key) == Spent(m.ledger, key);
  }

  lemma StartKeeps(m: Machine, pricing: map<string, Price>, e: Event)
    requires Inv(m, pricing) && Enabled(m, pricing, e) && e.Start?
    ensures Inv(Step(m, pricing, e), pricing)
  {
    hide L.Inv, Cost, ChargedBy, CountedTo, Spent;
    var n := Step(m, pricing, e);
    forall t: nat
      ensures ChargedBy(n.calls, t) == ChargedBy(m.calls, t)
    {
      SumsStart(m.calls, n.calls[|m.calls|], t, "");
    }
    forall key: string
      ensures CountedTo(n.calls, key) == CountedTo(m.calls, key)
    {
      SumsStart(m.calls, n.calls[|m.calls|], 0, key);
    }
    forall j | 0 <= j < |n.calls|
      ensures CallOk(n, pricing, n.calls[j])
    {
      assert j < |m.calls| ==> CallOk(m, pricing, m.calls[j]);
    }
    hide CallOk;
  }

  lemma HaltRunKeeps(m: Machine, pricing: map<string, Price>, e: Event)
    requires Inv(m, pricing) && Enabled(m, pricing, e) && e.HaltRun?
    ensures Inv(Step(m, pricing, e), pricing)
  {
    hide L.Inv, Cost, CallsOk, ChargedBy, CountedTo, Spent;
    var n := Step(m, pricing, e);
    LedgerMoveKeepsCalls(m, n, pricing);
    assert forall t :: 0 <= t < |m.trackers| ==> n.trackers[t].spent == m.trackers[t].spent;
  }

  lemma StepKeeps(m: Machine, pricing: map<string, Price>, e: Event)
    requires Inv(m, pricing) && Enabled(m, pricing, e)
    ensures Inv(Step(m, pricing, e), pricing)
  {
    hide Inv, Step, Enabled;
    match e
    case ReserveFor(i, now) => ReserveForKeeps(m, pricing, i, now);
    case Answer(i, actual) => AnswerKeeps(m, pricing, i, actual);
    case SettleFor(i) => SettleForKeeps(m, pricing, i);
    case ReapTurn(_, _) => LedgerStepKeeps(m, pricing, e);
    case HaltKey(_, _) => LedgerStepKeeps(m, pricing, e);
    case Start(_, _, _, _) => StartKeeps(m, pricing, e);
    case HaltRun(_, _) => HaltRunKeeps(m, pricing, e);
    case _ => CheckKeeps(m, pricing, e);
  }

  // ---------------------------------------------------------------------------------------
  // Answers within their estimates keep every key below its limit
  // ---------------------------------------------------------------------------------------

  lemma SettleForStaysModest(m: Machine, pricing: map<string, Price>, i: nat)
    requires Inv(m, pricing) && Modest(m) && Enabled(m, pricing, SettleFor(i))
    ensures Modest(Step(m, pricing, SettleFor(i)))
  {
    hide L.Inv, Cost, TrackersAgree, LedgerAgrees, IdsDiffer, L.Settle, L.BelowLimits, Spent;
    OwingHaveIds(m, pricing);
    var p, n := m.calls[i].phase, Step(m, pricing, SettleFor(i));
    var amount := if p.Owing? then p.cost else 0.0;
    assert CallOk(m, pricing, m.calls[i]);
    assert m.ledger.reservations[p.id].estimated >= 0.0 by {
      EstimatesAreNonNegative(m.ledger, p.id);
    }
    L.SettleWithinEstimate(m.ledger, p.id, amount);
    SettleIsLater(m.ledger, p.id, amount);
    OwingStaysModest(m, n, i);
  }

  lemma EstimatesAreNonNegative(l: L.Ledger, id: nat)
    requires L.Inv(l) && id < |l.reservations|
    ensures l.reservations[id].estimated >= 0.0
  {
    hide L.Balances;
    assert L.ReservationOk(l.reservations[id], l.budgets.Keys);
  }

  /** The calls other than i that owe still owe the same against the same estimate. */
  lemma OwingStaysModest(m: Machine, n: Machine, i: nat)
    requires Modest(m) && L.BelowLimits(n.ledger) && |n.calls| >= |m.calls| && |n.ledger.reservations| >= |m.ledger.reservations|
    requires forall id :: 0 <= id < |m.ledger.reservations| ==> n.ledger.reservations[id].estimated == m.ledger.reservations[id].estimated
    requires forall j :: 0 <= j < |m.calls| && j != i ==> n.calls[j] == m.calls[j]
    requires forall j :: |m.calls| <= j < |n.calls| ==> !n.calls[j].phase.Owing?
    requires forall j :: 0 <= j < |m.calls| && j != i && m.calls[j].phase.Owing? ==> m.calls[j].phase.id < |m.ledger.reservations|
    requires i < |n.calls| && n.calls[i].phase.Owing? && n.calls[i].phase.id < |n.ledger.reservations| ==>
      n.calls[i].phase.cost <= n.ledger.reservations[n.calls[i].phase.id].estimated
    ensures Modest(n)
  {
    hide L.BelowLimits;
  }

  lemma OwingHaveIds(m: Machine, pricing: map<string, Price>)
    requires CallsOk(m, pricing)
    ensures forall j :: 0 <= j < |m.calls| && m.calls[j].phase.Owing? ==> m.calls[j].phase.id < |m.ledger.reservations|
  {
    hide Cost;
    forall j | 0 <= j < |m.calls| && m.calls[j].phase.Owing?
      ensures m.calls[j].phase.id < |m.ledger.reservations|
    {
      assert CallOk(m, pricing, m.calls[j]);
    }
  }

  lemma OtherStepsStayModest(m: Machine, pricing: map<string, Price>, e: Event)
    requires Inv(m, pricing) && Modest(m) && Enabled(m, pricing, e) && !e.SettleFor? && Estimated(m, pricing, e)
    ensures Modest(Step(m, pricing, e))
  {
    hide L.Inv, Cost, TrackersAgree, LedgerAgrees, IdsDiffer, L.BelowLimits, Spent, L.Reserve, L.ReapOne, ValidCall, Dispatch, Charged;
    OwingHaveIds(m, pricing);
    var n := Step(m, pricing, e);
    match e
    case ReserveFor(i, now) =>
      var estimated := Cost(pricing[m.calls[i].phase.estimate.model], m.calls[i].phase.estimate);
      L.ReserveKeeps(m.ledger, m.calls[i].key, m.calls[i].limit, estimated, TTL, now);
      ReserveIsLater(m.ledger, m.calls[i].key, m.calls[i].limit, estimated, now);
      OwingStaysModest(m, n, i);
    case ReapTurn(id, now) =>
      L.ReapOneKeeps(m.ledger, id, now);
      ReapIsLater(m.ledger, id, now);
      OwingStaysModest(m, n, |n.calls|);
    case Answer(i, actual) =>
      assert CallOk(m, pricing, m.calls[i]);
      OwingStaysModest(m, n, i);
    case HaltKey(_, _) =>
      HaltKeepsLimits(m.ledger, e.key, e.reason);
      OwingStaysModest(m, n, |n.calls|);
    case Check(i) => OwingStaysModest(m, n, i);
    case ProviderFails(i) => OwingStaysModest(m, n, i);
    case Start(_, _, _, _) => OwingStaysModest(m, n, |n.calls|);
    case HaltRun(_, _) => OwingStaysModest(m, n, |n.calls|);
    case SettleFor(_) => assert false;
  }

  lemma HaltKeepsLimits(l: L.Ledger, key: string, reason: string)
    requires L.BelowLimits(l)
    ensures L.BelowLimits(L.Halt(l, key, reason).0) && L.Halt(l, key, reason).0.reservations == l.reservations
  {
  }

  // ---------------------------------------------------------------------------------------
  // Whole runs
  // ---------------------------------------------------------------------------------------

  /** The machine after the events, if each was possible. */
  function StepAll(m: Machine, pricing: map<string, Price>, events: seq<Event>): Option<Machine>
    decreases |events|
  {
    if events == [] then Some(m)
    else if Enabled(m, pricing, events[0]) then StepAll(Step(m, pricing, events[0]), pricing, events[1..])
    else None
  }

  predicate Run(m: Machine, pricing: map<string, Price>, events: seq<Event>, n: Machine) {
    StepAll(m, pricing, events) == Some(n)
  }

  ghost predicate EstimatedRun(m: Machine, pricing: map<string, Price>, events: seq<Event>)
    decreases |events|
  {
    events == [] || (Enabled(m, pricing, events[0]) && Estimated(m, pricing, events[0]) && EstimatedRun(Step(m, pricing, events[0]), pricing, events[1..]))
  }

  function Opening(limits: seq<Option<real>>): Machine {
    Machine(L.EMPTY, FreshTrackers(limits), [])
  }

  function FreshTrackers(limits: seq<Option<real>>): (r: seq<State>)
    ensures |r| == |limits| && forall t :: 0 <= t < |r| ==> r[t] == Fresh(limits[t])
  {
    if limits == [] then [] else FreshTrackers(limits[..|limits| - 1]) + [Fresh(limits[|limits| - 1])]
  }

  lemma OpeningIsOk(limits: seq<Option<real>>, pricing: map<string, Price>)
    ensures Inv(Opening(limits), pricing) && Modest(Opening(limits))
  {
    L.EmptyBalances();
    hide L.Inv, L.BelowLimits;
  }

  lemma {:induction false} RunKeeps(m: Machine, pricing: map<string, Price>, events: seq<Event>, n: Machine)
    requires Inv(m, pricing) && Run(m, pricing, events, n)
    ensures Inv(n, pricing)
    ensures Modest(m) && EstimatedRun(m, pricing, events) ==> Modest(n)
    decreases |events|
  {
    hide Inv, Modest, Step, Enabled, Estimated;
    if events != [] {
      var next := Step(m, pricing, events[0]);
      StepKeeps(m, pricing, events[0]);
      if Modest(m) && EstimatedRun(m, pricing, events) {
        if events[0].SettleFor? {
          SettleForStaysModest(m, pricing, events[0].i);
        } else {
          OtherStepsStayModest(m, pricing, events[0]);
        }
      }
      RunKeeps(next, pricing, events[1..], n);
    }
  }

  function UncountedOf(p: Phase): real {
    if p.Owing? || (p.Paid? && !p.counted) then p.cost else 0.0
  }

  /** The charges of the key's calls that are not in the ledger: still owed, or settled after the reaper. */
  function Uncounted(calls: seq<CallState>, key: string): real {
    if calls == [] then 0.0
    else
      var c := calls[|calls| - 1];
      Uncounted(calls[..|calls| - 1], key) + if c.key == key then UncountedOf(c.phase) else 0.0
  }

  lemma {:induction false} ChargesSplit(calls: seq<CallState>, key: string)
    ensures ChargedTo(calls, key) == CountedTo(calls, key) + Uncounted(calls, key)
  {
    if calls != [] {
      ChargesSplit(calls[..|calls| - 1], key);
    }
  }

  /**
   In every interleaving: the ledger's books balance and its clamp never fires, each tracker's
   spend is the sum of its calls' charges, and a key's spend falls short of the charges of its
   calls by exactly those still owed or settled after their reservation was reaped.
   */
  lemma ChargesAreConserved(limits: seq<Option<real>>, pricing: map<string, Price>, events: seq<Event>, n: Machine, key: string, t: nat)
    requires Run(Opening(limits), pricing, events, n)
    ensures L.Inv(n.ledger)
    ensures t < |n.trackers| ==> n.trackers[t].spent == ChargedBy(n.calls, t)
    ensures ChargedTo(n.calls, key) == Spent(n.ledger, key) + Uncounted(n.calls, key)
  {
    OpeningIsOk(limits, pricing);
    RunKeeps(Opening(limits), pricing, events, n);
    ChargesSplit(n.calls, key);
    hide L.Inv, Run, CallsOk, ChargedBy, ChargedTo, CountedTo, Uncounted, Spent;
  }

  lemma {:induction false} NoneUncounted(calls: seq<CallState>, key: string)
    requires forall i :: 0 <= i < |calls| && calls[i].key == key ==> UncountedOf(calls[i].phase) == 0.0
    ensures Uncounted(calls, key) == 0.0
  {
    if calls != [] {
      NoneUncounted(calls[..|calls| - 1], key);
    }
  }

  /**
   When every answer costs at most its estimate, a limited key stays below its limit, and once all
   of its charges are settled before any reaping, so does the sum of what its calls were charged.
   */
  lemma ChargesStayBelowLimit(limits: seq<Option<real>>, pricing: map<string, Price>, events: seq<Event>, n: Machine, key: string)
    requires Run(Opening(limits), pricing, events, n) && EstimatedRun(Opening(limits), pricing, events)
    requires key in n.ledger.budgets && n.ledger.budgets[key].limit.Some?
    ensures n.ledger.budgets[key].spent + n.ledger.budgets[key].reserved < n.ledger.budgets[key].limit.value
    ensures (forall i :: 0 <= i < |n.calls| && n.calls[i].key == key ==> UncountedOf(n.calls[i].phase) == 0.0) ==>
      ChargedTo(n.calls, key) < n.ledger.budgets[key].limit.value
  {
    OpeningIsOk(limits, pricing);
    RunKeeps(Opening(limits), pricing, events, n);
    hide Run, EstimatedRun, CallsOk, ChargedTo, CountedTo, Uncounted;
    assert L.Balances(n.ledger.budgets[key], n.ledger.reservations, key);
    L.SumsNonNegative(n.ledger.reservations, key, n.ledger.budgets.Keys);
    if forall i :: 0 <= i < |n.calls| && n.calls[i].key == key ==> UncountedOf(n.calls[i].phase) == 0.0 {
      NoneUncounted(n.calls, key);
      ChargesSplit(n.calls, key);
    }
  }

  // ---------------------------------------------------------------------------------------
  // One call by itself
  // ---------------------------------------------------------------------------------------

  datatype Outcome = Completed(output: LlmCall) | Refused | ProviderFailed | PastLimit(reason: Option<string>) | Failed

  /** What becomes of an answered call once its charge is known: a model without a price fails it. */
  function Answered(after: State, pricing: map<string, Price>, actual: LlmCall, settled: bool): Outcome {
    if actual.model !in pricing || !settled then Failed
    else if after.exhausted then PastLimit(after.halted) else Completed(actual)
  }

  /** A call of an adapter that has no ledger. */
  function CallUnreserved(s: State, pricing: map<string, Price>, c: CallState, answer: Option<LlmCall>): (State, Outcome)
    requires c.phase.Asking?
  {
    if Dispatch(s, pricing, c.phase.estimate).Err? then (s, Refused)
    else if answer.None? then (s, ProviderFailed)
    else if !ValidCall(answer.value) then (s, Failed)
    else (Charged(s, pricing, answer.value), Answered(Charged(s, pricing, answer.value), pricing, answer.value, true))
  }

  /** What a call with no other in between does to its tracker and the ledger; no answer means that the provider failed. */
  function CallAlone(s: State, l: L.Ledger, pricing: map<string, Price>, c: CallState, now: int, answer: Option<LlmCall>): (State, L.Ledger, Outcome)
    requires c.phase.Asking?
  {
    var estimate := c.phase.estimate;
    if Dispatch(s, pricing, estimate).Err? then (s, l, Refused)
    else
      var (held, r) := L.Reserve(l, c.key, c.limit, Cost(pricing[estimate.model], estimate), TTL, now);
      if r.Err? then (s, l, Refused)
      else if answer.None? then (s, L.Settle(held, r.value, 0.0).0, ProviderFailed)
      else if !ValidCall(answer.value) then (s, held, Failed)
      else
        var after := Charged(s, pricing, answer.value);
        if answer.value.model !in pricing then (after, held, Failed)
        else
          var (settled, ok) := L.Settle(held, r.value, Cost(pricing[answer.value.model], answer.value));
          (after, settled, Answered(after, pricing, answer.value, ok.Ok?))
  }

  /** Without a ledger a call goes as it does with one that grants and settles its reservation. */
  lemma LedgerOnlyRefuses(s: State, l: L.Ledger, pricing: map<string, Price>, c: CallState, now: int, answer: Option<LlmCall>)
    requires c.phase.Asking? && L.Inv(l)
    ensures var (t, n, r) := CallAlone(s, l, pricing, c, now, answer);
      && (r != Refused && (answer.Some? && answer.value.model in pricing ==> Cost(pricing[answer.value.model], answer.value) >= 0.0) ==>
            (t, r) == CallUnreserved(s, pricing, c, answer))
      && (r == Refused ==> t == s && n == l)
  {
    hide Charged, ValidCall, Cost, Reached, Dispatch, L.Inv, L.Settle;
    var estimate := c.phase.estimate;
    if Dispatch(s, pricing, estimate).Ok? {
      DispatchedIsPriced(s, pricing, estimate);
      var (held, r) := L.Reserve(l, c.key, c.limit, Cost(pricing[estimate.model], estimate), TTL, now);
      L.ReserveKeeps(l, c.key, c.limit, Cost(pricing[estimate.model], estimate), TTL, now);
      if r.Ok? && answer.Some? && answer.value.model in pricing {
        SettlesUnlessNegative(held, r.value, Cost(pricing[answer.value.model], answer.value));
      }
    }
  }

  lemma DispatchedIsPriced(s: State, pricing: map<string, Price>, c: LlmCall)
    requires Dispatch(s, pricing, c).Ok?
    ensures c.model in pricing
  {
  }

  lemma SettlesUnlessNegative(l: L.Ledger, id: nat, amount: real)
    requires L.Inv(l)
    ensures L.Settle(l, id, amount).1.Ok? <==> amount >= 0.0
  {
    hide L.Balances;
    if id < |l.reservations| {
      assert L.ReservationOk(l.reservations[id], l.budgets.Keys);
    }
  }

  // ---------------------------------------------------------------------------------------
  // What comes of one call, told from the tracker, the prices and the ledger before it
  // ---------------------------------------------------------------------------------------

  /** The tracker was not halted, and the well-formed, priced call stays below its limit. */
  predicate Admissible(s: State, pricing: map<string, Price>, c: LlmCall) {
    && !Blank(c.model) && 0 <= c.tokensIn <= MAX_SAFE_INTEGER && 0 <= c.tokensOut <= MAX_SAFE_INTEGER
    && s.halted.None? && c.model in pricing && (s.limit.Some? ==> s.spent + Cost(pricing[c.model], c) < s.limit.value)
  }

  /** The key is valid and not halted, its limit is the one it has had, and the estimate stays below it. */
  predicate Grantable(l: L.Ledger, key: string, limit: Option<real>, estimated: real) {
    && !Blank(key) && |key| <= 256 && key !in l.halts && estimated >= 0.0
    && (key in l.budgets ==> l.budgets[key].limit == limit) && (limit.Some? ==> L.CommittedOf(l, key) + estimated < limit.value)
  }

  /** Well-formed and priced, and not negative if it is to be settled. */
  predicate Chargeable(pricing: map<string, Price>, c: LlmCall, settles: bool) {
    && !Blank(c.model) && 0 <= c.tokensIn <= MAX_SAFE_INTEGER && 0 <= c.tokensOut <= MAX_SAFE_INTEGER
    && c.model in pricing && (settles ==> Cost(pricing[c.model], c) >= 0.0)
  }

  /** What the caller gets, from the tracker as it was; granted is true without a ledger. */
  predicate Gets(s: State, pricing: map<string, Price>, estimate: LlmCall, granted: bool, settles: bool, answer: Option<LlmCall>, r: Outcome) {
    if !Admissible(s, pricing, estimate) || !granted then r == Refused
    else if answer.None? then r == ProviderFailed
    else if !Chargeable(pricing, answer.value, settles) then r == Failed
    else if s.limit.Some? && s.spent + Cost(pricing[answer.value.model], answer.value) >= s.limit.value then r == PastLimit(None)
    else r == Completed(answer.value)
  }

  /** What the tracker has counted: nothing unless a well-formed answer came, then the answer. */
  predicate Counts(s: State, t: State, pricing: map<string, Price>, answer: Option<LlmCall>, r: Outcome) {
    && t.limit == s.limit && t.halted == s.halted
    && (r.Refused? || r.ProviderFailed? ==> t == s)
    && (r.Completed? || r.PastLimit? ==>
          && answer.Some? && answer.value.model in pricing && t.spent == s.spent + Cost(pricing[answer.value.model], answer.value)
          && t.calls == s.calls + 1 && t.tokensIn == s.tokensIn + answer.value.tokensIn && t.tokensOut == s.tokensOut + answer.value.tokensOut)
    && (r.Completed? ==> !t.exhausted) && (r.PastLimit? ==> t.exhausted)
  }

  function EstimatedCost(pricing: map<string, Price>, c: LlmCall): real {
    if c.model in pricing then Cost(pricing[c.model], c) else 0.0
  }

  lemma DispatchIff(s: State, pricing: map<string, Price>, c: LlmCall)
    ensures Dispatch(s, pricing, c).Ok? <==> Admissible(s, pricing, c)
  {
    hide Blank, Cost;
  }

  lemma SettlesWhatItReserved(l: L.Ledger, key: string, limit: Option<real>, estimated: real, now: int, amount: real)
    requires L.Reserve(l, key, limit, estimated, TTL, now).1.Ok?
    ensures var (held, r) := L.Reserve(l, key, limit, estimated, TTL, now); L.Settle(held, r.value, amount).1.Ok? <==> amount >= 0.0
  {
    hide L.ValidKey, L.Reaches;
  }

  lemma UnreservedGets(s: State, pricing: map<string, Price>, c: CallState, answer: Option<LlmCall>)
    requires c.phase.Asking?
    ensures var (t, r) := CallUnreserved(s, pricing, c, answer);
      Gets(s, pricing, c.phase.estimate, true, false, answer, r) && Counts(s, t, pricing, answer, r)
  {
    hide Blank, Cost, Dispatch, Admissible;
    DispatchIff(s, pricing, c.phase.estimate);
    if Admissible(s, pricing, c.phase.estimate) {
      AdmissibleIsNotHalted(s, pricing, c.phase.estimate);
    }
  }

  lemma AdmissibleIsNotHalted(s: State, pricing: map<string, Price>, c: LlmCall)
    requires Admissible(s, pricing, c)
    ensures s.halted.None? && c.model in pricing
  {
  }

  lemma AloneGets(s: State, l: L.Ledger, pricing: map<string, Price>, c: CallState, now: int, answer: Option<LlmCall>)
    requires c.phase.Asking?
    ensures var (t, n, r) := CallAlone(s, l, pricing, c, now, answer);
      && Gets(s, pricing, c.phase.estimate, Grantable(l, c.key, c.limit, EstimatedCost(pricing, c.phase.estimate)), true, answer, r)
      && Counts(s, t, pricing, answer, r)
  {
    hide Blank, Cost, Dispatch, Admissible, L.Reserve, L.Settle, Grantable;
    var estimate := c.phase.estimate;
    DispatchIff(s, pricing, estimate);
    if Admissible(s, pricing, estimate) {
      AdmissibleIsNotHalted(s, pricing, estimate);
      var cost := Cost(pricing[estimate.model], estimate);
      GrantedIff(l, c.key, c.limit, cost, now);
      if L.Reserve(l, c.key, c.limit, cost, TTL, now).1.Ok? && answer.Some? && answer.value.model in pricing {
        SettlesWhatItReserved(l, c.key, c.limit, cost, now, Cost(pricing[answer.value.model], answer.value));
      }
    }
  }

  /**
   What a call by itself leaves in the ledger: nothing when it is refused, nothing reserved and
   its cost, if it has one, spent when it goes through or the provider fails, and its estimate
   still reserved when its answer cannot be charged.
   */
  lemma AloneBooks(s: State, l: L.Ledger, pricing: map<string, Price>, c: CallState, now: int, answer: Option<LlmCall>)
    requires c.phase.Asking? && L.Inv(l)
    ensures var (t, n, r) := CallAlone(s, l, pricing, c, now, answer);
      if r == Refused then n == l
      else
        && L.OthersAreSame(l, n, c.key)
        && L.ReservedOf(n, c.key) == L.ReservedOf(l, c.key) + (if r == Failed then EstimatedCost(pricing, c.phase.estimate) else 0.0)
        && L.SpentOf(n, c.key) == L.SpentOf(l, c.key) +
            (if r == Failed || r == ProviderFailed || answer.None? then 0.0 else EstimatedCost(pricing, answer.value))
  {
    hide Blank, Cost, Dispatch, L.Reserve, L.Settle, L.Inv, L.OthersAreSame, L.ReservedOf, L.SpentOf, Charged;
    var estimate := c.phase.estimate;
    if Dispatch(s, pricing, estimate).Ok? {
      DispatchedIsPriced(s, pricing, estimate);
      var cost := Cost(pricing[estimate.model], estimate);
      if L.Reserve(l, c.key, c.limit, cost, TTL, now).1.Ok? {
        var amount := if answer.Some? && answer.value.model in pricing then Cost(pricing[answer.value.model], answer.value) else 0.0;
        L.ReservedAndSettled(l, c.key, c.limit, cost, TTL, now, amount);
        SettlesWhatItReserved(l, c.key, c.limit, cost, now, amount);
      }
    }
  }

  lemma GrantedIff(l: L.Ledger, key: string, limit: Option<real>, estimated: real, now: int)
    ensures L.Reserve(l, key, limit, estimated, TTL, now).1.Ok? <==> Grantable(l, key, limit, estimated)
  {
    hide L.Reserve, Blank;
    L.ReserveSucceedsIff(l, key, limit, estimated, TTL, now);
  }

  /** The adapter's call, with its ledger if it has one, run to its end by itself. */
  method Call(tracker: BudgetTracker, ledger: L.MemoryBudgetLedger?, c: CallState, now: int, answer: Option<LlmCall>) returns (r: Outcome)
    requires c.phase.Asking?
    modifies tracker, ledger
    ensures ledger != null ==>
      (tracker.state, ledger.Contents(), r) == CallAlone(old(tracker.state), old(if ledger == null then L.EMPTY else ledger.Contents()), tracker.pricing, c, now, answer)
    ensures ledger == null ==> (tracker.state, r) == CallUnreserved(old(tracker.state), tracker.pricing, c, answer)
    ensures Gets(old(tracker.state), tracker.pricing, c.phase.estimate,
      old(ledger == null || Grantable(ledger.Contents(), c.key, c.limit, EstimatedCost(tracker.pricing, c.phase.estimate))), ledger != null, answer, r)
    ensures Counts(old(tracker.state), tracker.state, tracker.pricing, answer, r)
  {
    hide L.Reserve, L.Settle, Charged, ValidCall, Cost, Reached, Gets, Counts, Grantable;
    var estimate := c.phase.estimate;
    UnreservedGets(tracker.state, tracker.pricing, c, answer);
    if ledger != null {
      AloneGets(tracker.state, ledger.Contents(), tracker.pricing, c, now, answer);
    }
    var admitted := tracker.AssertCanDispatch(estimate);
    if admitted.Err? {
      return Refused;
    }
    var reservation := None;
    if ledger != null {
      var cost := tracker.CostOf(estimate);
      var reserved := ledger.DoReserve(c.key, c.limit, cost.value, TTL, now);
      if reserved.Err? {
        return Refused;
      }
      reservation := Some(reserved.value);
    }
    if answer.None? {
      if reservation.Some? {
        var released := ledger.DoSettle(reservation.value, 0.0);
      }
      return ProviderFailed;
    }
    var state := tracker.Charge(answer.value);
    if state.Err? {
      return Failed;
    }
    var actual := tracker.CostOf(answer.value);
    if actual.Err? {
      return Failed;
    }
    if reservation.Some? {
      var settled := ledger.DoSettle(reservation.value, actual.value);
      if settled.Err? {
        return Failed;
      }
    }
    return if state.value.exhausted then PastLimit(state.value.halted) else Completed(answer.value);
  }

  /** The steps that a lone call takes. */
  function LoneSteps(m: Machine, pricing: map<string, Price>, c: CallState, now: int, answer: Option<LlmCall>): seq<Event>
    requires c.phase.Asking? && c.tracker < |m.trackers|
  {
    var estimate := c.phase.estimate;
    var asked := [Start(c.tracker, c.key, c.limit, estimate), Check(|m.calls|)];
    if Dispatch(m.trackers[c.tracker], pricing, estimate).Err? then asked
    else
      var tried := asked + [ReserveFor(|m.calls|, now)];
      if L.Reserve(m.ledger, c.key, c.limit, Cost(pricing[estimate.model], estimate), TTL, now).1.Err? then tried
      else if answer.None? then tried + [ProviderFails(|m.calls|), SettleFor(|m.calls|)]
      else if ValidCall(answer.value) && answer.value.model in pricing then tried + [Answer(|m.calls|, answer.value), SettleFor(|m.calls|)]
      else tried + [Answer(|m.calls|, answer.value)]
  }

  /** A lone call is one of the machine's runs, so all that holds of every interleaving holds of it. */
  lemma LoneCallIsARun(m: Machine, pricing: map<string, Price>, c: CallState, now: int, answer: Option<LlmCall>)
    requires c.phase.Asking? && c.tracker < |m.trackers|
    ensures var (s, l, r) := CallAlone(m.trackers[c.tracker], m.ledger, pricing, c, now, answer);
      var n := StepAll(m, pricing, LoneSteps(m, pricing, c, now, answer));
      n.Some? && n.value.ledger == l && n.value.trackers == m.trackers[c.tracker := s]
  {
    hide L.Reserve, L.Settle, Charged, ValidCall, Cost, Reached, Answered;
    var events := LoneSteps(m, pricing, c, now, answer);
    var m1 := Step(m, pricing, events[0]);
    var m2 := Step(m1, pricing, events[1]);
    assert StepAll(m, pricing, events) == StepAll(m2, pricing, events[2..]);
    if |events| > 2 {
      var m3 := Step(m2, pricing, events[2]);
      assert StepAll(m2, pricing, events[2..]) == StepAll(m3, pricing, events[3..]);
      if |events| > 3 {
        var m4 := Step(m3, pricing, events[3]);
        assert StepAll(m3, pricing, events[3..]) == StepAll(m4, pricing, events[4..]);
        if |events| > 4 {
          var m5 := Step(m4, pricing, events[4]);
          assert StepAll(m4, pricing, events[4..]) == StepAll(m5, pricing, events[5..]);
        }
      }
    }
  }
}
