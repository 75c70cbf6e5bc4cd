/**
 A tracker's own limit when calls overlap.  Admission asks for the money spent only, so estimates
 in flight can carry the spend past the limit: by how much, exactly when a run stays below, and
 exactly when an admission makes it possible to pass.
 */
module BudgetedLimits {
  import opened Results
  import opened BudgetTracker
  import opened BudgetedCalls
  import opened BudgetedRuns
  import L = BudgetLedger

  ghost predicate NonNegative(pricing: map<string, Price>) {
    forall model :: model in pricing ==> pricing[model].inputPerMtok >= 0.0 && pricing[model].outputPerMtok >= 0.0
  }

  function EstimateOf(pricing: map<string, Price>, estimate: LlmCall): real {
    if estimate.model in pricing then Cost(pricing[estimate.model], estimate) else 0.0
  }

  /** The estimate of an admitted call until its provider answers. */
  function FlightOf(pricing: map<string, Price>, p: Phase): real {
    if p.Admitted? || p.Holding? then EstimateOf(pricing, p.estimate) else 0.0
  }

  /** The estimates of the tracker's calls in flight. */
  function InFlight(pricing: map<string, Price>, calls: seq<CallState>, tracker: nat): real {
    if calls == [] then 0.0
    else
      var c := calls[|calls| - 1];
      InFlight(pricing, calls[..|calls| - 1], tracker) + if c.tracker == tracker then FlightOf(pricing, c.phase) else 0.0
  }

  function Committed(m: Machine, pricing: map<string, Price>, t: nat): real
    requires t < |m.trackers|
  {
    m.trackers[t].spent + InFlight(pricing, m.calls, t)
  }

  ghost predicate FlightsOk(m: Machine, pricing: map<string, Price>) {
    forall i :: 0 <= i < |m.calls| ==> FlightOf(pricing, m.calls[i].phase) >= 0.0
  }

  /** The tracker admits one more call. */
  predicate AdmitsNow(m: Machine, pricing: map<string, Price>, e: Event, t: nat)
    requires Enabled(m, pricing, e) && t < |m.trackers|
  {
    e.Check? && m.calls[e.i].tracker == t && Dispatch(m.trackers[t], pricing, m.calls[e.i].phase.estimate).Ok?
  }

  lemma {:induction false} FlightMoves(pricing: map<string, Price>, calls: seq<CallState>, i: nat, p: Phase, t: nat)
    requires i < |calls|
    ensures InFlight(pricing, calls[i := calls[i].(phase := p)], t) ==
      InFlight(pricing, calls, t) + if calls[i].tracker == t then FlightOf(pricing, p) - FlightOf(pricing, calls[i].phase) else 0.0
  {
    hide FlightOf;
    var after, n := calls[i := calls[i].(phase := p)], |calls| - 1;
    if i < n {
      FlightMoves(pricing, calls[..n], i, p, t);
      assert after[..n] == calls[..n][i := calls[i].(phase := p)];
    } else {
      assert after[..n] == calls[..n];
    }
  }

  lemma FlightStarts(pricing: map<string, Price>, calls: seq<CallState>, c: CallState, t: nat)
    requires FlightOf(pricing, c.phase) == 0.0
    ensures InFlight(pricing, calls + [c], t) == InFlight(pricing, calls, t)
  {
    assert (calls + [c])[..|calls|] == calls;
  }

  lemma CostIsNonNegative(pricing: map<string, Price>, c: LlmCall)
    requires NonNegative(pricing) && ValidCall(c)
    ensures EstimateOf(pricing, c) >= 0.0
  {
    if c.model in pricing {
      Times(c.tokensIn as real / 1000000.0, pricing[c.model].inputPerMtok);
      Times(c.tokensOut as real / 1000000.0, pricing[c.model].outputPerMtok);
    }
  }

  lemma Times(x: real, y: real)
    requires x >= 0.0 && y >= 0.0
    ensures x * y >= 0.0
  {
  }

  /** What one move of a call does to the tracker's commitment. */
  lemma MoveCommits(m: Machine, n: Machine, pricing: map<string, Price>, i: nat, t: nat)
    requires i < |m.calls| == |n.calls| && n.calls == m.calls[i := m.calls[i].(phase := n.calls[i].phase)]
    requires t < |m.trackers| == |n.trackers| && FlightsOk(m, pricing) && FlightOf(pricing, n.calls[i].phase) >= 0.0
    ensures FlightsOk(n, pricing)
    ensures Committed(n, pricing, t) == Committed(m, pricing, t) + n.trackers[t].spent - m.trackers[t].spent
      + if m.calls[i].tracker == t then FlightOf(pricing, n.calls[i].phase) - FlightOf(pricing, m.calls[i].phase) else 0.0
  {
    hide FlightOf;
    FlightMoves(pricing, m.calls, i, n.calls[i].phase, t);
  }

  /** Only an admission commits more, by its estimate, and it was below the limit when only the money spent is counted. */
  lemma StepCommits(m: Machine, pricing: map<string, Price>, e: Event, t: nat)
    requires NonNegative(pricing) && CallsOk(m, pricing) && FlightsOk(m, pricing) && t < |m.trackers|
    requires Enabled(m, pricing, e) && Estimated(m, pricing, e)
    ensures var n := Step(m, pricing, e);
      && FlightsOk(n, pricing) && |n.trackers| == |m.trackers| && n.trackers[t].limit == m.trackers[t].limit
      && (if AdmitsNow(m, pricing, e, t) then
            Committed(n, pricing, t) == Committed(m, pricing, t) + EstimateOf(pricing, m.calls[e.i].phase.estimate)
            && !Reached(m.trackers[t].limit, m.trackers[t].spent + EstimateOf(pricing, m.calls[e.i].phase.estimate))
          else Committed(n, pricing, t) <= Committed(m, pricing, t))
  {
    hide L.Reserve, L.Settle, L.ReapOne, L.Halt, Cost, InFlight, Accepts, CallsOk, ValidCall, EstimateOf, Reached;
    var n := Step(m, pricing, e);
    match e
    case Start(_, _, _, _) => FlightStarts(pricing, m.calls, n.calls[|m.calls|], t);
    case Check(i) => CheckCommits(m, pricing, i, t);
    case Answer(i, actual) => AnswerCommits(m, pricing, i, actual, t);
    case ReserveFor(i, now) => MoveCommits(m, n, pricing, i, t);
    case ProviderFails(i) => MoveCommits(m, n, pricing, i, t);
    case SettleFor(i) => MoveCommits(m, n, pricing, i, t);
    case _ =>
  }

  lemma CheckCommits(m: Machine, pricing: map<string, Price>, i: nat, t: nat)
    requires NonNegative(pricing) && FlightsOk(m, pricing) && t < |m.trackers| && Enabled(m, pricing, Check(i))
    ensures var n := Step(m, pricing, Check(i));
      && FlightsOk(n, pricing)
      && (if AdmitsNow(m, pricing, Check(i), t) then
            Committed(n, pricing, t) == Committed(m, pricing, t) + EstimateOf(pricing, m.calls[i].phase.estimate)
            && !Reached(m.trackers[t].limit, m.trackers[t].spent + EstimateOf(pricing, m.calls[i].phase.estimate))
          else Committed(n, pricing, t) == Committed(m, pricing, t))
  {
    hide Cost, InFlight, FlightsOk, ValidCall, Reached;
    if Dispatch(m.trackers[m.calls[i].tracker], pricing, m.calls[i].phase.estimate).Ok? {
      CostIsNonNegative(pricing, m.calls[i].phase.estimate);
    }
    MoveCommits(m, Step(m, pricing, Check(i)), pricing, i, t);
  }

  lemma AnswerCommits(m: Machine, pricing: map<string, Price>, i: nat, actual: LlmCall, t: nat)
    requires NonNegative(pricing) && CallsOk(m, pricing) && FlightsOk(m, pricing) && t < |m.trackers|
    requires Enabled(m, pricing, Answer(i, actual)) && Estimated(m, pricing, Answer(i, actual))
    ensures var n := Step(m, pricing, Answer(i, actual));
      FlightsOk(n, pricing) && n.trackers[t].limit == m.trackers[t].limit && Committed(n, pricing, t) <= Committed(m, pricing, t)
  {
    hide Cost, InFlight, CallsOk, ValidCall, Reached;
    InFlightIsPriced(m, pricing, i);
    MoveCommits(m, Step(m, pricing, Answer(i, actual)), pricing, i, t);
  }

  lemma InFlightIsPriced(m: Machine, pricing: map<string, Price>, i: nat)
    requires CallsOk(m, pricing) && i < |m.calls| && m.calls[i].phase.Holding?
    ensures m.calls[i].phase.estimate.model in pricing
  {
    assert CallOk(m, pricing, m.calls[i]);
  }

  /** Event k admits a call while these estimates of the tracker were in flight. */
  ghost predicate AdmitsAt(m: Machine, pricing: map<string, Price>, events: seq<Event>, k: nat, t: nat, flight: real) {
    && k < |events|
    && var before := StepAll(m, pricing, events[..k]);
       && before.Some? && Enabled(before.value, pricing, events[k]) && t < |before.value.trackers|
       && AdmitsNow(before.value, pricing, events[k], t) && flight == InFlight(pricing, before.value.calls, t)
  }

  lemma {:induction false} CommittedSince(m: Machine, pricing: map<string, Price>, events: seq<Event>, n: Machine, t: nat, limit: real) returns (k: nat, flight: real)
    requires NonNegative(pricing) && Inv(m, pricing) && FlightsOk(m, pricing) && t < |m.trackers| && m.trackers[t].limit == Some(limit)
    requires Run(m, pricing, events, n) && EstimatedRun(m, pricing, events)
    ensures |n.trackers| == |m.trackers|
    ensures Committed(n, pricing, t) <= Committed(m, pricing, t) ||
      (AdmitsAt(m, pricing, events, k, t, flight) && Committed(n, pricing, t) < limit + flight)
    decreases |events|
  {
    hide Step, Enabled, Inv, FlightsOk, InFlight, EstimateOf, AdmitsNow, CallsOk;
    k, flight := 0, 0.0;
    if events != [] {
      var e := events[0];
      var next := Step(m, pricing, e);
      InvHasCalls(m, pricing);
      StepCommits(m, pricing, e, t);
      StepKeeps(m, pricing, e);
      var j, f := CommittedSince(next, pricing, events[1..], n, t, limit);
      if Committed(n, pricing, t) > Committed(next, pricing, t) {
        Later(m, pricing, events, j);
        k, flight := j + 1, f;
      } else if AdmitsNow(m, pricing, e, t) {
        assert events[..0] == [];
        k, flight := 0, InFlight(pricing, m.calls, t);
      }
    }
  }

  lemma InvHasCalls(m: Machine, pricing: map<string, Price>)
    requires Inv(m, pricing)
    ensures CallsOk(m, pricing)
  {
  }

  /**
   When no answer costs more than its estimate, a tracker's spend and its estimates in flight stay
   below its limit plus what was in flight at one of its admissions; without any admission they are zero.
   */
  lemma OvershootIsWhatOverlapped(limits: seq<Option<real>>, pricing: map<string, Price>, events: seq<Event>, n: Machine, t: nat)
    requires NonNegative(pricing) && t < |limits| && limits[t].Some?
    requires Run(Opening(limits), pricing, events, n) && EstimatedRun(Opening(limits), pricing, events)
    ensures |n.trackers| == |limits|
    ensures n.trackers[t].spent + InFlight(pricing, n.calls, t) <= 0.0 ||
      exists k: nat, flight: real ::
        AdmitsAt(Opening(limits), pricing, events, k, t, flight)
        && n.trackers[t].spent + InFlight(pricing, n.calls, t) < limits[t].value + flight
  {
    OpeningIsOk(limits, pricing);
    hide Inv, Modest, Run, EstimatedRun, AdmitsAt;
    var k, flight := CommittedSince(Opening(limits), pricing, events, n, t, limits[t].value);
  }

  // ---------------------------------------------------------------------------------------
  // Exactly when a tracker stays below its limit
  // ---------------------------------------------------------------------------------------

  /** The tracker's spend and estimates in flight are below the limit, now and after each of the events. */
  ghost predicate StaysBelow(m: Machine, pricing: map<string, Price>, events: seq<Event>, t: nat, limit: real)
    decreases |events|
  {
    && t < |m.trackers| && Committed(m, pricing, t) < limit
    && (events == [] || (Enabled(m, pricing, events[0]) && StaysBelow(Step(m, pricing, events[0]), pricing, events[1..], t, limit)))
  }

  /** What the tracker does not ask: that the call fits beside the estimates in flight. */
  predicate Fits(m: Machine, pricing: map<string, Price>, t: nat, estimate: LlmCall, limit: real)
    requires t < |m.trackers|
  {
    Committed(m, pricing, t) + EstimateOf(pricing, estimate) < limit
  }

  /** Every call that the tracker admits fits beside the estimates in flight. */
  ghost predicate AdmitsWhatFits(m: Machine, pricing: map<string, Price>, events: seq<Event>, t: nat, limit: real)
    decreases |events|
  {
    events == [] ||
      (&& t < |m.trackers| && Enabled(m, pricing, events[0])
       && (AdmitsNow(m, pricing, events[0], t) ==> Fits(m, pricing, t, m.calls[events[0].i].phase.estimate, limit))
       && AdmitsWhatFits(Step(m, pricing, events[0]), pricing, events[1..], t, limit))
  }

  lemma {:induction false} StaysBelowFrom(m: Machine, pricing: map<string, Price>, events: seq<Event>, t: nat, limit: real)
    requires NonNegative(pricing) && Inv(m, pricing) && FlightsOk(m, pricing) && EstimatedRun(m, pricing, events)
    requires t < |m.trackers| && Committed(m, pricing, t) < limit
    ensures StaysBelow(m, pricing, events, t, limit) <==> AdmitsWhatFits(m, pricing, events, t, limit)
    decreases |events|
  {
    hide Step, Enabled, Inv, FlightsOk, InFlight, EstimateOf, AdmitsNow, CallsOk, Estimated;
    if events != [] {
      var next := Step(m, pricing, events[0]);
      InvHasCalls(m, pricing);
      StepCommits(m, pricing, events[0], t);
      StepKeeps(m, pricing, events[0]);
      if Committed(next, pricing, t) < limit {
        StaysBelowFrom(next, pricing, events[1..], t, limit);
      } else {
        NotBelow(next, pricing, events[1..], t, limit);
      }
    }
  }

  lemma NotBelow(m: Machine, pricing: map<string, Price>, events: seq<Event>, t: nat, limit: real)
    requires t < |m.trackers| && Committed(m, pricing, t) >= limit
    ensures !StaysBelow(m, pricing, events, t, limit)
  {
  }

  lemma NothingCommitted(limits: seq<Option<real>>, pricing: map<string, Price>, t: nat)
    requires t < |limits|
    ensures t < |Opening(limits).trackers| && Committed(Opening(limits), pricing, t) == 0.0 && FlightsOk(Opening(limits), pricing)
    ensures Opening(limits).trackers[t].limit == limits[t]
  {
  }

  /**
   Over every run whose answers cost at most their estimates, a tracker's spend and estimates in
   flight stay below its limit exactly when the limit is positive and every call that the tracker
   admits fits beside the estimates in flight.
   */
  lemma StaysBelowIffAdmitsWhatFits(limits: seq<Option<real>>, pricing: map<string, Price>, events: seq<Event>, t: nat)
    requires NonNegative(pricing) && t < |limits| && limits[t].Some? && EstimatedRun(Opening(limits), pricing, events)
    ensures StaysBelow(Opening(limits), pricing, events, t, limits[t].value) <==>
      limits[t].value > 0.0 && AdmitsWhatFits(Opening(limits), pricing, events, t, limits[t].value)
  {
    hide StaysBelow, AdmitsWhatFits, EstimatedRun, Inv, Modest, Committed, FlightsOk;
    OpeningIsOk(limits, pricing);
    NothingCommitted(limits, pricing, t);
    if limits[t].value > 0.0 {
      StaysBelowFrom(Opening(limits), pricing, events, t, limits[t].value);
    } else {
      NotBelow(Opening(limits), pricing, events, t, limits[t].value);
    }
  }

  // ---------------------------------------------------------------------------------------
  // What is committed can be spent
  // ---------------------------------------------------------------------------------------

  /** Calls in flight are well-formed and priced. */
  ghost predicate FlightsValid(m: Machine, pricing: map<string, Price>) {
    forall i :: 0 <= i < |m.calls| && (m.calls[i].phase.Admitted? || m.calls[i].phase.Holding?) ==>
      ValidCall(m.calls[i].phase.estimate) && m.calls[i].phase.estimate.model in pricing
  }

  lemma StepKeepsFlightsValid(m: Machine, pricing: map<string, Price>, e: Event)
    requires FlightsValid(m, pricing) && Enabled(m, pricing, e)
    ensures FlightsValid(Step(m, pricing, e), pricing)
  {
    hide L.Reserve, L.Settle, L.ReapOne, L.Halt, Cost, Charged, ValidCall, Reached, Apply, Accepts;
  }

  lemma {:induction false} RunKeepsFlightsValid(m: Machine, pricing: map<string, Price>, events: seq<Event>, n: Machine)
    requires FlightsValid(m, pricing) && Run(m, pricing, events, n)
    ensures FlightsValid(n, pricing)
    decreases |events|
  {
    hide FlightsValid, Step, Enabled;
    if events != [] {
      StepKeepsFlightsValid(m, pricing, events[0]);
      RunKeepsFlightsValid(Step(m, pricing, events[0]), pricing, events[1..], n);
    }
  }

  lemma ValidFlightsAreOk(m: Machine, pricing: map<string, Price>)
    requires NonNegative(pricing) && FlightsValid(m, pricing)
    ensures FlightsOk(m, pricing)
  {
    hide NonNegative, EstimateOf, ValidCall;
    forall i | 0 <= i < |m.calls|
      ensures FlightOf(pricing, m.calls[i].phase) >= 0.0
    {
      if m.calls[i].phase.Admitted? || m.calls[i].phase.Holding? {
        CostIsNonNegative(pricing, m.calls[i].phase.estimate);
      }
    }
  }

  /** No call is checked, so none is admitted. */
  predicate NoChecks(events: seq<Event>) {
    forall k :: 0 <= k < |events| ==> !events[k].Check?
  }

  /** Every call of the tracker that is in flight holds its reservation, as between any two awaits of the adapter. */
  ghost predicate AllHold(m: Machine, t: nat) {
    forall i :: 0 <= i < |m.calls| && m.calls[i].tracker == t ==> !m.calls[i].phase.Admitted?
  }

  /** A run, and an estimated one, goes on with one more possible event. */
  lemma {:induction false} RunGoesOn(m: Machine, pricing: map<string, Price>, events: seq<Event>, n: Machine, e: Event)
    requires Run(m, pricing, events, n) && Enabled(n, pricing, e)
    ensures Run(m, pricing, events + [e], Step(n, pricing, e))
    ensures EstimatedRun(m, pricing, events) && Estimated(n, pricing, e) ==> EstimatedRun(m, pricing, events + [e])
    decreases |events|
  {
    hide Step, Enabled, Estimated;
    if events == [] {
      assert events + [e] == [e] && [e][1..] == [];
      assert Run(Step(m, pricing, e), pricing, [], Step(n, pricing, e)) && EstimatedRun(Step(m, pricing, e), pricing, []);
    } else {
      RunGoesOn(Step(m, pricing, events[0]), pricing, events[1..], n, e);
      assert (events + [e])[1..] == events[1..] + [e];
    }
  }

  /** Each of the first k calls is answered with just its estimate. */
  lemma {:induction false} AnswerFirst(m: Machine, pricing: map<string, Price>, t: nat, k: nat) returns (events: seq<Event>, n: Machine)
    requires FlightsValid(m, pricing) && AllHold(m, t) && t < |m.trackers| && k <= |m.calls|
    ensures Run(m, pricing, events, n) && EstimatedRun(m, pricing, events) && NoChecks(events)
    ensures |n.calls| == |m.calls| && (forall j :: k <= j < |m.calls| ==> n.calls[j] == m.calls[j])
    ensures |n.trackers| == |m.trackers| && n.trackers[t].spent == m.trackers[t].spent + InFlight(pricing, m.calls[..k], t)
  {
    hide Step, Enabled, Estimated, ValidCall, Cost;
    if k == 0 {
      events, n := [], m;
    } else {
      var before, o := AnswerFirst(m, pricing, t, k - 1);
      assert m.calls[..k][..k - 1] == m.calls[..k - 1];
      var c := m.calls[k - 1];
      if c.tracker == t && c.phase.Holding? {
        var e := Answer(k - 1, c.phase.estimate);
        OwnEstimateIsCharged(o, pricing, k - 1);
        RunGoesOn(m, pricing, before, o, e);
        events, n := before + [e], Step(o, pricing, e);
      } else {
        events, n := before, o;
      }
    }
  }

  lemma OwnEstimateIsCharged(m: Machine, pricing: map<string, Price>, i: nat)
    requires i < |m.calls| && m.calls[i].phase.Holding? && m.calls[i].tracker < |m.trackers|
    requires ValidCall(m.calls[i].phase.estimate) && m.calls[i].phase.estimate.model in pricing
    ensures var e := Answer(i, m.calls[i].phase.estimate);
      && Enabled(m, pricing, e) && Estimated(m, pricing, e)
      && var n := Step(m, pricing, e);
         && |n.calls| == |m.calls| && (forall j :: 0 <= j < |m.calls| && j != i ==> n.calls[j] == m.calls[j])
         && |n.trackers| == |m.trackers|
         && n.trackers[m.calls[i].tracker].spent == m.trackers[m.calls[i].tracker].spent + EstimateOf(pricing, m.calls[i].phase.estimate)
  {
    hide ValidCall, Cost;
  }

  lemma {:induction false} FlightIsNonNegative(pricing: map<string, Price>, calls: seq<CallState>, t: nat)
    requires forall i :: 0 <= i < |calls| ==> FlightOf(pricing, calls[i].phase) >= 0.0
    ensures InFlight(pricing, calls, t) >= 0.0
  {
    hide FlightOf;
    if calls != [] {
      FlightIsNonNegative(pricing, calls[..|calls| - 1], t);
    }
  }

  lemma {:induction false} NoMoreIsCommitted(m: Machine, pricing: map<string, Price>, events: seq<Event>, n: Machine, t: nat)
    requires NonNegative(pricing) && Inv(m, pricing) && FlightsOk(m, pricing) && t < |m.trackers|
    requires Run(m, pricing, events, n) && EstimatedRun(m, pricing, events) && NoChecks(events)
    ensures t < |n.trackers| && n.trackers[t].spent <= Committed(m, pricing, t)
    decreases |events|
  {
    hide Step, Enabled, Inv, FlightOf, EstimateOf, CallsOk, Estimated;
    if events == [] {
      FlightIsNonNegative(pricing, m.calls, t);
    } else {
      hide InFlight, FlightsOk;
      InvHasCalls(m, pricing);
      StepCommits(m, pricing, events[0], t);
      StepKeeps(m, pricing, events[0]);
      NoMoreIsCommitted(Step(m, pricing, events[0]), pricing, events[1..], n, t);
    }
  }

  /** Without another admission, answers within their estimates can make the tracker's spend reach the limit. */
  ghost predicate CanReach(m: Machine, pricing: map<string, Price>, t: nat, limit: real) {
    exists events, n :: Run(m, pricing, events, n) && EstimatedRun(m, pricing, events) && NoChecks(events) && t < |n.trackers| && n.trackers[t].spent >= limit
  }

  lemma CanReachIff(m: Machine, pricing: map<string, Price>, t: nat, limit: real)
    requires NonNegative(pricing) && Inv(m, pricing) && FlightsValid(m, pricing) && AllHold(m, t) && t < |m.trackers|
    ensures CanReach(m, pricing, t, limit) <==> Committed(m, pricing, t) >= limit
  {
    hide Run, EstimatedRun, Inv, FlightsValid, AllHold;
    ValidFlightsAreOk(m, pricing);
    hide NonNegative, FlightsOk;
    if CanReach(m, pricing, t, limit) {
      var events, n :| Run(m, pricing, events, n) && EstimatedRun(m, pricing, events) && NoChecks(events) && t < |n.trackers| && n.trackers[t].spent >= limit;
      NoMoreIsCommitted(m, pricing, events, n, t);
    }
    if Committed(m, pricing, t) >= limit {
      var events, n := AnswerFirst(m, pricing, t, |m.calls|);
      assert m.calls[..|m.calls|] == m.calls;
    }
  }

  /**
   After any run, with every call in flight holding its reservation: the tracker's spend can reach
   its limit by answers within their estimates exactly when spend and estimates in flight do.
   */
  lemma LimitCanBeReachedIff(limits: seq<Option<real>>, pricing: map<string, Price>, before: seq<Event>, m: Machine, t: nat)
    requires NonNegative(pricing) && t < |limits| && limits[t].Some? && Run(Opening(limits), pricing, before, m) && AllHold(m, t)
    ensures t < |m.trackers| && (CanReach(m, pricing, t, limits[t].value) <==> Committed(m, pricing, t) >= limits[t].value)
  {
    hide Run, Inv, Modest, FlightsValid, AllHold, CanReach, NonNegative;
    OpeningIsOk(limits, pricing);
    RunKeeps(Opening(limits), pricing, before, m);
    assert FlightsValid(Opening(limits), pricing) by { NoneInFlight(limits, pricing); }
    RunKeepsFlightsValid(Opening(limits), pricing, before, m);
    TrackersStay(Opening(limits), pricing, before, m);
    CanReachIff(m, pricing, t, limits[t].value);
  }

  lemma NoneInFlight(limits: seq<Option<real>>, pricing: map<string, Price>)
    ensures FlightsValid(Opening(limits), pricing)
  {
  }

  lemma TrackersStayInStep(m: Machine, pricing: map<string, Price>, e: Event)
    requires Enabled(m, pricing, e)
    ensures |Step(m, pricing, e).trackers| == |m.trackers|
  {
    hide L.Reserve, L.Settle, L.ReapOne, L.Halt, Cost, Charged, Apply, Dispatch, ValidCall, Accepts;
  }

  lemma {:induction false} TrackersStay(m: Machine, pricing: map<string, Price>, events: seq<Event>, n: Machine)
    requires Run(m, pricing, events, n)
    ensures |n.trackers| == |m.trackers|
    decreases |events|
  {
    hide Enabled, Step;
    if events != [] {
      TrackersStayInStep(m, pricing, events[0]);
      TrackersStay(Step(m, pricing, events[0]), pricing, events[1..], n);
    }
  }

  /**
   When the tracker has admitted a call and its ledger has granted the reservation, answers within
   their estimates can make the spend reach the limit exactly when the call did not fit beside the
   estimates in flight, which the tracker did not ask.
   */
  lemma AdmissionIsSafeIffItFits(limits: seq<Option<real>>, pricing: map<string, Price>, before: seq<Event>, m: Machine, i: nat, now: int)
    requires NonNegative(pricing) && Run(Opening(limits), pricing, before, m)
    requires Enabled(m, pricing, Check(i)) && m.calls[i].tracker < |limits| && limits[m.calls[i].tracker].Some? && AllHold(m, m.calls[i].tracker)
    requires AdmitsNow(m, pricing, Check(i), m.calls[i].tracker)
    requires Enabled(Step(m, pricing, Check(i)), pricing, ReserveFor(i, now))
    requires Step(Step(m, pricing, Check(i)), pricing, ReserveFor(i, now)).calls[i].phase.Holding?
    ensures var t := m.calls[i].tracker;
      CanReach(Step(Step(m, pricing, Check(i)), pricing, ReserveFor(i, now)), pricing, t, limits[t].value) <==>
        !Fits(m, pricing, t, m.calls[i].phase.estimate, limits[t].value)
  {
    var t := m.calls[i].tracker;
    var o := Step(m, pricing, Check(i));
    var n := Step(o, pricing, ReserveFor(i, now));
    hide NonNegative, CanReach;
    assert AllHold(n, t) && |n.trackers| == |m.trackers| by { HeldAfterward(m, pricing, i, now); }
    RunGoesOn(Opening(limits), pricing, before, m, Check(i));
    RunGoesOn(Opening(limits), pricing, before + [Check(i)], o, ReserveFor(i, now));
    LimitCanBeReachedIff(limits, pricing, before + [Check(i)] + [ReserveFor(i, now)], n, t);
    CommittedTogether(m, pricing, i, now);
  }

  lemma HeldAfterward(m: Machine, pricing: map<string, Price>, i: nat, now: int)
    requires Enabled(m, pricing, Check(i)) && AllHold(m, m.calls[i].tracker)
    requires Enabled(Step(m, pricing, Check(i)), pricing, ReserveFor(i, now))
    requires Step(Step(m, pricing, Check(i)), pricing, ReserveFor(i, now)).calls[i].phase.Holding?
    ensures var n := Step(Step(m, pricing, Check(i)), pricing, ReserveFor(i, now)); AllHold(n, m.calls[i].tracker) && |n.trackers| == |m.trackers|
  {
    hide L.Reserve, Dispatch, Cost;
  }

  lemma CommittedTogether(m: Machine, pricing: map<string, Price>, i: nat, now: int)
    requires Enabled(m, pricing, Check(i)) && AdmitsNow(m, pricing, Check(i), m.calls[i].tracker)
    requires Enabled(Step(m, pricing, Check(i)), pricing, ReserveFor(i, now))
    requires Step(Step(m, pricing, Check(i)), pricing, ReserveFor(i, now)).calls[i].phase.Holding?
    ensures var t := m.calls[i].tracker;
      Committed(Step(Step(m, pricing, Check(i)), pricing, ReserveFor(i, now)), pricing, t) == Committed(m, pricing, t) + EstimateOf(pricing, m.calls[i].phase.estimate)
  {
    hide L.Reserve, Cost, Dispatch, EstimateOf, InFlight;
    var t := m.calls[i].tracker;
    var o := Step(m, pricing, Check(i));
    var n := Step(o, pricing, ReserveFor(i, now));
    FlightMoves(pricing, m.calls, i, o.calls[i].phase, t);
    FlightMoves(pricing, o.calls, i, n.calls[i].phase, t);
  }
}
