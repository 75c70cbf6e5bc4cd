/**
 Two runs of two calls, each of 0.6, that end where a caller might not expect: past the tracker's
 limit of 1 because the calls overlap, and past the key's limit of 1 because one settles late.
 */
module BudgetedSamples {
  import opened Results
  import opened Strings
  import opened BudgetTracker
  import opened BudgetedCalls
  import L = BudgetLedger

  const SAMPLE: LlmCall := LlmCall("m", 600000, 0)
  const PRICES: map<string, Price> := map["m" := Price(1.0, 1.0)]

  lemma SampleIsFine()
    ensures ValidCall(SAMPLE) && L.ValidKey("k") && SAMPLE.model in PRICES && Cost(PRICES[SAMPLE.model], SAMPLE) == 0.6
  {
    assert !IsSpace("m"[0]) && !IsSpace("k"[0]);
  }

  /** The one tracker's limit and the key's limit. */
  datatype Setting = Setting(own: Option<real>, shared: Option<real>)

  function TrackerAfter(s: Setting, charges: nat): State {
    if charges == 0 then Fresh(s.own) else Charged(TrackerAfter(s, charges - 1), PRICES, SAMPLE)
  }

  function CallIn(s: Setting, p: Phase): CallState {
    CallState(0, "k", s.shared, p)
  }

  /** Both calls, after so many charges. */
  function Both(s: Setting, l: L.Ledger, charges: nat, first: Phase, second: Phase): Machine {
    Machine(l, [TrackerAfter(s, charges)], [CallIn(s, first), CallIn(s, second)])
  }

  function Reserved(expiresAt: int): L.Reservation {
    L.Reservation("k", 0.6, expiresAt, false, 0.0)
  }

  function Books(s: Setting, reserved: real, spent: real, reservations: seq<L.Reservation>): L.Ledger {
    L.Ledger(map["k" := L.Budget(s.shared, reserved, spent)], reservations, map[])
  }

  /** The event takes the one machine to the other. */
  predicate Leads(m: Machine, e: Event, n: Machine) {
    Enabled(m, PRICES, e) && Estimated(m, PRICES, e) && Step(m, PRICES, e) == n
  }

  lemma TwoStart(s: Setting)
    ensures var start := Start(0, "k", s.shared, SAMPLE); var one := Machine(L.EMPTY, [Fresh(s.own)], [CallIn(s, Asking(SAMPLE))]);
      Leads(Opening([s.own]), start, one) && Leads(one, start, Both(s, L.EMPTY, 0, Asking(SAMPLE), Asking(SAMPLE)))
  {
    hide Cost, ValidCall;
    assert Opening([s.own]).trackers == [Fresh(s.own)];
  }

  /** A call is admitted while nothing has been charged. */
  lemma Admits(s: Setting, l: L.Ledger, first: Phase)
    requires s.own.Some? ==> s.own.value > 0.6
    ensures Leads(Both(s, l, 0, Asking(SAMPLE), Asking(SAMPLE)), Check(0), Both(s, l, 0, Admitted(SAMPLE), Asking(SAMPLE)))
    ensures Leads(Both(s, l, 0, first, Asking(SAMPLE)), Check(1), Both(s, l, 0, first, Admitted(SAMPLE)))
  {
    hide Cost, ValidCall;
    SampleIsFine();
  }

  /** Each call is charged its estimate when it is answered. */
  lemma Answers(s: Setting, l: L.Ledger)
    ensures Leads(Both(s, l, 0, Holding(0, SAMPLE), Holding(1, SAMPLE)), Answer(0, SAMPLE), Both(s, l, 1, Owing(0, 0.6), Holding(1, SAMPLE)))
    ensures Leads(Both(s, l, 1, Owing(0, 0.6), Holding(1, SAMPLE)), Answer(1, SAMPLE), Both(s, l, 2, Owing(0, 0.6), Owing(1, 0.6)))
  {
    hide Cost, ValidCall, Charged;
    SampleIsFine();
  }

  /** A reservation of the sample at this time is granted. */
  predicate Grants(s: Setting, l: L.Ledger, now: int, n: L.Ledger, id: nat) {
    L.Reserve(l, "k", s.shared, 0.6, TTL, now) == (n, Ok(id))
  }

  lemma Reserves(s: Setting, l: L.Ledger, now: int, n: L.Ledger, id: nat, other: Phase)
    requires Grants(s, l, now, n, id)
    ensures Leads(Both(s, l, 0, Admitted(SAMPLE), other), ReserveFor(0, now), Both(s, n, 0, Holding(id, SAMPLE), other))
    ensures Leads(Both(s, l, 0, other, Admitted(SAMPLE)), ReserveFor(1, now), Both(s, n, 0, other, Holding(id, SAMPLE)))
  {
    hide Cost, ValidCall, L.Reserve;
    SampleIsFine();
  }

  lemma FirstGrant(s: Setting)
    requires s.shared.Some? ==> s.shared.value > 0.6
    ensures Grants(s, L.EMPTY, 0, Books(s, 0.6, 0.0, [Reserved(TTL)]), 0)
  {
    hide L.ValidKey;
    SampleIsFine();
    var n := L.Reserve(L.EMPTY, "k", s.shared, 0.6, TTL, 0).0;
    assert n.budgets == Books(s, 0.6, 0.0, []).budgets && n.reservations == [Reserved(TTL)];
  }

  /** A grant beside what is reserved already. */
  lemma SecondGrant(s: Setting, reserved: real, now: int, r: L.Reservation)
    requires s.shared.Some? ==> s.shared.value > reserved + 0.6
    ensures Grants(s, Books(s, reserved, 0.0, [r]), now, Books(s, reserved + 0.6, 0.0, [r, Reserved(now + TTL)]), 1)
  {
    hide L.ValidKey;
    SampleIsFine();
    var n := L.Reserve(Books(s, reserved, 0.0, [r]), "k", s.shared, 0.6, TTL, now).0;
    assert n.budgets == Books(s, reserved + 0.6, 0.0, []).budgets && n.reservations == [r, Reserved(now + TTL)];
  }

  /** Each event takes one machine of the list to the next. */
  ghost predicate Chain(ms: seq<Machine>, events: seq<Event>) {
    |ms| == |events| + 1 && forall k :: 0 <= k < |events| ==> Leads(ms[k], events[k], ms[k + 1])
  }

  lemma {:induction false} ChainIsRun(ms: seq<Machine>, events: seq<Event>)
    requires Chain(ms, events)
    ensures Run(ms[0], PRICES, events, ms[|events|]) && EstimatedRun(ms[0], PRICES, events)
    decreases |events|
  {
    hide Step, Enabled, Estimated;
    if events != [] {
      assert forall k :: 0 <= k < |events[1..]| ==> Leads(ms[1..][k], events[1..][k], ms[1..][k + 1]) by {
        forall k | 0 <= k < |events[1..]|
          ensures Leads(ms[1..][k], events[1..][k], ms[1..][k + 1])
        {
          assert Leads(ms[k + 1], events[k + 1], ms[k + 2]);
        }
      }
      ChainIsRun(ms[1..], events[1..]);
    }
  }

  // ---------------------------------------------------------------------------------------
  // Calls that overlap carry a tracker past its limit
  // ---------------------------------------------------------------------------------------

  const OWN_LIMIT: Setting := Setting(Some(1.0), None)

  /** The second call is checked when the first has its reservation and no answer yet. */
  function OverlappingRun(): seq<Event> {
    [Start(0, "k", None, SAMPLE), Start(0, "k", None, SAMPLE), Check(0), ReserveFor(0, 0), Check(1), ReserveFor(1, 0),
     Answer(0, SAMPLE), Answer(1, SAMPLE)]
  }

  lemma OverlapOvershoots() returns (n: Machine)
    ensures Run(Opening([Some(1.0)]), PRICES, OverlappingRun(), n) && EstimatedRun(Opening([Some(1.0)]), PRICES, OverlappingRun())
    ensures |n.trackers| == 1 && n.trackers[0].spent == 1.2
  {
    hide Leads, Both, Books, Reserved, Run, EstimatedRun, Grants, CallIn, Opening, Fresh;
    var s, ask := OWN_LIMIT, Asking(SAMPLE);
    var once, twice := Books(s, 0.6, 0.0, [Reserved(TTL)]), Books(s, 1.2, 0.0, [Reserved(TTL), Reserved(TTL)]);
    var events, h0, h1 := OverlappingRun(), Holding(0, SAMPLE), Holding(1, SAMPLE);
    n := Both(s, twice, 2, Owing(0, 0.6), Owing(1, 0.6));
    SpentAfterTwo(s, twice, Owing(0, 0.6), Owing(1, 0.6));
    TwoStart(s);
    Admits(s, L.EMPTY, ask);
    Admits(s, once, h0);
    FirstGrant(s);
    SecondGrant(s, 0.6, 0, Reserved(TTL));
    Reserves(s, L.EMPTY, 0, once, 0, ask);
    Reserves(s, once, 0, twice, 1, h0);
    Answers(s, twice);
    var ms := [
      Opening([s.own]), Machine(L.EMPTY, [Fresh(s.own)], [CallIn(s, ask)]), Both(s, L.EMPTY, 0, ask, ask),
      Both(s, L.EMPTY, 0, Admitted(SAMPLE), ask), Both(s, once, 0, h0, ask), Both(s, once, 0, h0, Admitted(SAMPLE)),
      Both(s, twice, 0, h0, h1), Both(s, twice, 1, Owing(0, 0.6), h1), n];
    assert Chain(ms, events);
    ChainIsRun(ms, events);
  }

  lemma SpentAfterTwo(s: Setting, l: L.Ledger, first: Phase, second: Phase)
    ensures |Both(s, l, 2, first, second).trackers| == 1 && Both(s, l, 2, first, second).trackers[0].spent == 1.2
  {
    hide Cost, ValidCall;
    SampleIsFine();
    assert TrackerAfter(s, 1).spent == 0.6;
  }

  // ---------------------------------------------------------------------------------------
  // A settlement that comes after the reaper leaves the key's charges past its limit
  // ---------------------------------------------------------------------------------------

  const KEY_LIMIT: Setting := Setting(None, Some(1.0))

  /** The first call's reservation expires and is reaped before its answer comes. */
  function LateRun(): seq<Event> {
    [Start(0, "k", Some(1.0), SAMPLE), Start(0, "k", Some(1.0), SAMPLE), Check(0), ReserveFor(0, 0), ReapTurn(0, TTL),
     Check(1), ReserveFor(1, TTL), Answer(0, SAMPLE), Answer(1, SAMPLE), SettleFor(0), SettleFor(1)]
  }

  function Done(r: L.Reservation, actual: real): L.Reservation {
    r.(settled := true, actual := actual)
  }

  lemma Reaps(s: Setting, first: Phase, second: Phase)
    ensures Leads(Both(s, Books(s, 0.6, 0.0, [Reserved(TTL)]), 0, first, second), ReapTurn(0, TTL), Both(s, Books(s, 0.0, 0.0, [Done(Reserved(TTL), 0.0)]), 0, first, second))
  {
    hide Cost, ValidCall, TrackerAfter;
    var l, n := Books(s, 0.6, 0.0, [Reserved(TTL)]), Books(s, 0.0, 0.0, [Done(Reserved(TTL), 0.0)]);
    assert L.ReapOne(l, 0, TTL).budgets == n.budgets && L.ReapOne(l, 0, TTL).reservations == n.reservations;
  }

  lemma Settles(s: Setting)
    ensures var r0, r1 := Done(Reserved(TTL), 0.0), Reserved(TTL + TTL);
      var l, n := Books(s, 0.6, 0.0, [r0, r1]), Books(s, 0.0, 0.6, [r0, Done(r1, 0.6)]);
      && Leads(Both(s, l, 2, Owing(0, 0.6), Owing(1, 0.6)), SettleFor(0), Both(s, l, 2, Paid(0, 0.6, false), Owing(1, 0.6)))
      && Leads(Both(s, l, 2, Paid(0, 0.6, false), Owing(1, 0.6)), SettleFor(1), Both(s, n, 2, Paid(0, 0.6, false), Paid(1, 0.6, true)))
  {
    hide Cost, ValidCall, TrackerAfter;
    var r0, r1 := Done(Reserved(TTL), 0.0), Reserved(TTL + TTL);
    var l, n := Books(s, 0.6, 0.0, [r0, r1]), Books(s, 0.0, 0.6, [r0, Done(r1, 0.6)]);
    assert L.Settle(l, 0, 0.6).0 == l;
    assert L.Settle(l, 1, 0.6).0.budgets == n.budgets && L.Settle(l, 1, 0.6).0.reservations == n.reservations;
  }

  lemma ChargedTwice(s: Setting, l: L.Ledger, first: Phase, second: Phase)
    ensures var n := Both(s, l, 2, first, second);
      && |n.calls| == 2 && n.calls[0].phase == first && n.calls[0].limit == n.calls[1].limit == s.shared
      && n.ledger == l && ChargedTo(n.calls, "k") == ChargeOf(first) + ChargeOf(second)
  {
    hide TrackerAfter;
    var calls := [CallIn(s, first), CallIn(s, second)];
    assert calls[..1] == [CallIn(s, first)] && calls[..1][..0] == [];
    assert ChargedTo(calls[..1], "k") == ChargeOf(first);
    assert Both(s, l, 2, first, second).calls == calls;
  }

  lemma SpentInBooks(s: Setting, reserved: real, spent: real, reservations: seq<L.Reservation>)
    ensures Spent(Books(s, reserved, spent, reservations), "k") == spent
  {
  }

  /** The first call is paid and not counted: the key has spent 0.6 of its 1, and its calls were charged 1.2. */
  lemma LateSettlementIsLost() returns (n: Machine)
    ensures Run(Opening([None]), PRICES, LateRun(), n) && EstimatedRun(Opening([None]), PRICES, LateRun())
    ensures |n.calls| == 2 && n.calls[0].phase == Paid(0, 0.6, false) && n.calls[0].limit == n.calls[1].limit == Some(1.0)
    ensures Spent(n.ledger, "k") == 0.6 && ChargedTo(n.calls, "k") == 1.2
  {
    hide Leads, Both, Books, Done, Reserved, Run, EstimatedRun, Grants, CallIn, Opening, Fresh, Spent, ChargedTo;
    var s, ask := KEY_LIMIT, Asking(SAMPLE);
    var r0, r1 := Done(Reserved(TTL), 0.0), Reserved(TTL + TTL);
    var once, none := Books(s, 0.6, 0.0, [Reserved(TTL)]), Books(s, 0.0, 0.0, [r0]);
    var again, end := Books(s, 0.6, 0.0, [r0, r1]), Books(s, 0.0, 0.6, [r0, Done(r1, 0.6)]);
    var events, h0, h1 := LateRun(), Holding(0, SAMPLE), Holding(1, SAMPLE);
    var owing, late := Owing(0, 0.6), Paid(0, 0.6, false);
    n := Both(s, end, 2, late, Paid(1, 0.6, true));
    ChargedTwice(s, end, late, Paid(1, 0.6, true));
    SpentInBooks(s, 0.0, 0.6, [r0, Done(r1, 0.6)]);
    TwoStart(s);
    Admits(s, L.EMPTY, ask);
    Admits(s, none, h0);
    FirstGrant(s);
    Reaps(s, h0, ask);
    SecondGrant(s, 0.0, TTL, r0);
    Reserves(s, L.EMPTY, 0, once, 0, ask);
    Reserves(s, none, TTL, again, 1, h0);
    Answers(s, again);
    Settles(s);
    var ms := [
      Opening([s.own]), Machine(L.EMPTY, [Fresh(s.own)], [CallIn(s, ask)]), Both(s, L.EMPTY, 0, ask, ask),
      Both(s, L.EMPTY, 0, Admitted(SAMPLE), ask), Both(s, once, 0, h0, ask), Both(s, none, 0, h0, ask),
      Both(s, none, 0, h0, Admitted(SAMPLE)), Both(s, again, 0, h0, h1), Both(s, again, 1, owing, h1),
      Both(s, again, 2, owing, Owing(1, 0.6)), Both(s, again, 2, late, Owing(1, 0.6)), n];
    assert Chain(ms, events);
    ChainIsRun(ms, events);
  }
}
