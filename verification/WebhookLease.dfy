/**
 The effect-once ledger for webhooks: leased claims that are completed, released or left to run
 out, the object that keeps them, and the interleaving of any number of deliveries over it.
 Every delivery claims its effect key, runs the effect, and completes or releases the claim;
 between these calls other deliveries may run, time may pass, and the delivery may crash.
 */
module WebhookLease {
  import opened Strings

  datatype Status = Processing | Completed

  datatype Claim = Claim(eventId: string, status: Status, claimedAt: int)

  type Claims = map<string, Claim>

  datatype Grant = Claimed | Duplicate | Conflict | KeysRequired

  /** The claim is open and its lease has run out at the given time. */
  predicate Expired(c: Claim, lease: int, now: int) {
    c.status == Processing && now - c.claimedAt >= lease
  }

  /** claim: the clock is read once to decide and again, not earlier, to stamp. */
  function GrantOf(claims: Claims, lease: int, key: string, eventId: string, now: int): Grant {
    if Blank(key) || Blank(eventId) then KeysRequired
    else if key !in claims then Claimed
    else if claims[key].eventId != eventId then Conflict
    else if Expired(claims[key], lease, now) then Claimed
    else Duplicate
  }

  function AfterClaim(claims: Claims, lease: int, key: string, eventId: string, now: int, stamp: int): Claims {
    if GrantOf(claims, lease, key, eventId, now) == Claimed then claims[key := Claim(eventId, Processing, stamp)] else claims
  }

  function AfterComplete(claims: Claims, key: string, eventId: string): Claims {
    if key in claims && claims[key].eventId == eventId then claims[key := claims[key].(status := Completed)] else claims
  }

  function AfterRelease(claims: Claims, key: string, eventId: string): Claims {
    if key in claims && claims[key].eventId == eventId && claims[key].status == Processing then claims - {key} else claims
  }

  class InMemoryWebhookEffectLedger {
    var claims: Claims
    const lease: int

    constructor (leaseMs: int)
      ensures claims == map[] && lease == leaseMs
    {
      claims, lease := map[], leaseMs;
    }

    method TryClaim(key: string, eventId: string, now: int, stamp: int) returns (g: Grant)
      modifies this
      ensures g == GrantOf(old(claims), lease, key, eventId, now)
      ensures claims == AfterClaim(old(claims), lease, key, eventId, now, stamp)
    {
      if Blank(key) || Blank(eventId) {
        return KeysRequired;
      }
      if key !in claims {
        claims := claims[key := Claim(eventId, Processing, stamp)];
        return Claimed;
      }
      var existing := claims[key];
      if existing.eventId == eventId && existing.status == Processing && now - existing.claimedAt >= lease {
        claims := claims[key := existing.(claimedAt := stamp)];
        return Claimed;
      }
      return if existing.eventId == eventId then Duplicate else Conflict;
    }

    method Complete(key: string, eventId: string)
      modifies this
      ensures claims == AfterComplete(old(claims), key, eventId)
    {
      if key in claims && claims[key].eventId == eventId {
        claims := claims[key := claims[key].(status := Completed)];
      }
    }

    method Release(key: string, eventId: string)
      modifies this
      ensures claims == AfterRelease(old(claims), key, eventId)
    {
      if key in claims && claims[key].eventId == eventId && claims[key].status == Processing {
        claims := claims - {key};
      }
    }
  }

  // ---------------------------------------------------------------------------------------
  // A completed key stays completed, whatever is called in whatever order
  // ---------------------------------------------------------------------------------------

  datatype Call = ClaimCall(key: string, eventId: string, now: int, stamp: int) | CompleteCall(key: string, eventId: string) | ReleaseCall(key: string, eventId: string)

  function AfterCall(claims: Claims, lease: int, c: Call): Claims {
    match c
    case ClaimCall(key, eventId, now, stamp) => AfterClaim(claims, lease, key, eventId, now, stamp)
    case CompleteCall(key, eventId) => AfterComplete(claims, key, eventId)
    case ReleaseCall(key, eventId) => AfterRelease(claims, key, eventId)
  }

  function AfterCalls(claims: Claims, lease: int, calls: seq<Call>): Claims {
    if calls == [] then claims else AfterCall(AfterCalls(claims, lease, calls[..|calls| - 1]), lease, calls[|calls| - 1])
  }

  lemma {:induction false} CompletedForGood(claims: Claims, lease: int, calls: seq<Call>, key: string, eventId: string, now: int)
    requires key in claims && claims[key].status == Completed
    ensures var later := AfterCalls(claims, lease, calls);
      && key in later && later[key] == claims[key] && GrantOf(later, lease, key, eventId, now) != Claimed
  {
    if calls != [] {
      CompletedForGood(claims, lease, calls[..|calls| - 1], key, eventId, now);
    }
  }

  // ---------------------------------------------------------------------------------------
  // Deliveries interleaved at their awaits
  // ---------------------------------------------------------------------------------------

  /** Where a delivery stands in applyWebhookEffectOnce; since is the stamp of its claim. */
  datatype Phase =
    | Waiting
    | Running(since: int)
    | Succeeded(since: int)
    | Failing(since: int)
    | Applied
    | Refused(grant: Grant)
    | Threw
    | Crashed

  datatype Delivery = Delivery(key: string, eventId: string, phase: Phase)

  datatype Machine = Machine(claims: Claims, clock: int, deliveries: seq<Delivery>)

  datatype Event =
    | Arrive(key: string, eventId: string)
    | TakeClaim(i: nat, delay: nat)
    | EffectDone(i: nat)
    | EffectFailed(i: nat)
    | FinishComplete(i: nat)
    | FinishRelease(i: nat)
    | Crash(i: nat)
    | Tick(delay: nat)

  predicate Acting(p: Phase) {
    p.Running? || p.Succeeded? || p.Failing?
  }

  predicate Enabled(m: Machine, e: Event) {
    match e
    case Arrive(_, _) => true
    case Tick(_) => true
    case TakeClaim(i, _) => i < |m.deliveries| && m.deliveries[i].phase == Waiting
    case EffectDone(i) => i < |m.deliveries| && m.deliveries[i].phase.Running?
    case EffectFailed(i) => i < |m.deliveries| && m.deliveries[i].phase.Running?
    case FinishComplete(i) => i < |m.deliveries| && m.deliveries[i].phase.Succeeded?
    case FinishRelease(i) => i < |m.deliveries| && m.deliveries[i].phase.Failing?
    case Crash(i) => i < |m.deliveries| && (m.deliveries[i].phase == Waiting || Acting(m.deliveries[i].phase))
  }

  function Move(m: Machine, i: nat, p: Phase): Machine
    requires i < |m.deliveries|
  {
    m.(deliveries := m.deliveries[i := m.deliveries[i].(phase := p)])
  }

  function Step(m: Machine, lease: int, e: Event): Machine
    requires Enabled(m, e)
  {
    match e
    case Arrive(key, eventId) => m.(deliveries := m.deliveries + [Delivery(key, eventId, Waiting)])
    case Tick(delay) => m.(clock := m.clock + delay)
    case TakeClaim(i, delay) =>
      var d, stamp := m.deliveries[i], m.clock + delay;
      var g := GrantOf(m.claims, lease, d.key, d.eventId, m.clock);
      Move(m, i, if g == Claimed then Running(stamp) else Refused(g)).(
        claims := AfterClaim(m.claims, lease, d.key, d.eventId, m.clock, stamp), clock := stamp)
    case EffectDone(i) => Move(m, i, Succeeded(m.deliveries[i].phase.since))
    case EffectFailed(i) => Move(m, i, Failing(m.deliveries[i].phase.since))
    case FinishComplete(i) => Move(m, i, Applied).(claims := AfterComplete(m.claims, m.deliveries[i].key, m.deliveries[i].eventId))
    case FinishRelease(i) => Move(m, i, Threw).(claims := AfterRelease(m.claims, m.deliveries[i].key, m.deliveries[i].eventId))
    case Crash(i) => Move(m, i, Crashed)
  }

  /** The delivery holds its key: it is between claim and completion and its lease has not run out. */
  predicate Holds(m: Machine, lease: int, i: nat) {
    i < |m.deliveries| && Acting(m.deliveries[i].phase) && m.clock - m.deliveries[i].phase.since < lease
  }

  /** A delivery that completes or releases its claim does so within its lease. */
  predicate Timely(m: Machine, lease: int, e: Event) {
    (e.FinishComplete? || e.FinishRelease?) ==> Holds(m, lease, e.i)
  }

  // ---------------------------------------------------------------------------------------
  // The invariant
  // ---------------------------------------------------------------------------------------

  predicate HolderOk(m: Machine, lease: int, i: nat)
    requires i < |m.deliveries|
  {
    var d := m.deliveries[i];
    Holds(m, lease, i) ==> d.key in m.claims && m.claims[d.key] == Claim(d.eventId, Processing, d.phase.since)
  }

  predicate AppliedOk(m: Machine, i: nat)
    requires i < |m.deliveries|
  {
    var d := m.deliveries[i];
    d.phase == Applied ==> d.key in m.claims && m.claims[d.key].eventId == d.eventId && m.claims[d.key].status == Completed
  }

  /** No two deliveries hold one key, and no two have applied one key. */
  ghost predicate Exclusive(m: Machine, lease: int) {
    forall i: nat, j: nat :: i < j < |m.deliveries| && m.deliveries[i].key == m.deliveries[j].key ==>
      && !(Holds(m, lease, i) && Holds(m, lease, j))
      && !(m.deliveries[i].phase == Applied && m.deliveries[j].phase == Applied)
  }

  ghost predicate AppliedBySomeone(m: Machine, key: string) {
    exists i: nat :: i < |m.deliveries| && m.deliveries[i].key == key && m.deliveries[i].phase == Applied
  }

  ghost predicate CompletedWereApplied(m: Machine) {
    forall key :: key in m.claims && m.claims[key].status == Completed ==> AppliedBySomeone(m, key)
  }

  ghost predicate Inv(m: Machine, lease: int) {
    && (forall i: nat :: i < |m.deliveries| ==> HolderOk(m, lease, i) && AppliedOk(m, i))
    && Exclusive(m, lease)
    && CompletedWereApplied(m)
  }

  const START: Machine := Machine(map[], 0, [])

  lemma StartIsOk(lease: int)
    ensures Inv(START, lease)
  {
  }

  // ---------------------------------------------------------------------------------------
  // Every timely step keeps it
  // ---------------------------------------------------------------------------------------

  /** The other deliveries and the claims they rely on are as before, and time did not go back. */
  ghost predicate OthersUntouched(m: Machine, n: Machine, i: nat) {
    && i < |m.deliveries| && |n.deliveries| == |m.deliveries| && m.clock <= n.clock
    && forall j: nat :: j < |m.deliveries| && j != i ==> n.deliveries[j] == m.deliveries[j]
  }

  /** Steps that leave the claims alone and neither start holding nor apply. */
  lemma QuietMoveKeeps(m: Machine, n: Machine, lease: int, i: nat)
    requires Inv(m, lease) && OthersUntouched(m, n, i) && n.claims == m.claims
    requires n.deliveries[i].key == m.deliveries[i].key && n.deliveries[i].eventId == m.deliveries[i].eventId
    requires m.deliveries[i].phase != Applied && n.deliveries[i].phase != Applied
    requires Acting(n.deliveries[i].phase) ==> Acting(m.deliveries[i].phase) && n.deliveries[i].phase.since == m.deliveries[i].phase.since
    ensures Inv(n, lease)
  {
    assert forall j: nat :: j < |m.deliveries| ==> Holds(n, lease, j) ==> Holds(m, lease, j);
    forall j: nat | j < |n.deliveries|
      ensures HolderOk(n, lease, j) && AppliedOk(n, j)
    {
      assert HolderOk(m, lease, j) && AppliedOk(m, j);
    }
    hide Holds, HolderOk, AppliedOk;
    forall key | AppliedBySomeone(m, key)
      ensures AppliedBySomeone(n, key)
    {
      var j: nat :| j < |m.deliveries| && m.deliveries[j].key == key && m.deliveries[j].phase == Applied;
      assert n.deliveries[j] == m.deliveries[j];
    }
    hide AppliedBySomeone;
  }

  lemma ArrivalKeeps(m: Machine, lease: int, d: Delivery, clock: int)
    requires Inv(m, lease) && m.clock <= clock && d.phase == Waiting
    ensures Inv(m.(clock := clock), lease) && Inv(m.(deliveries := m.deliveries + [d]), lease)
  {
    var n, t := m.(deliveries := m.deliveries + [d]), m.(clock := clock);
    assert forall j: nat :: j < |m.deliveries| ==> HolderOk(m, lease, j) && AppliedOk(m, j) && n.deliveries[j] == m.deliveries[j];
    forall key | AppliedBySomeone(m, key)
      ensures AppliedBySomeone(n, key) && AppliedBySomeone(t, key)
    {
      var j: nat :| j < |m.deliveries| && m.deliveries[j].key == key && m.deliveries[j].phase == Applied;
      assert n.deliveries[j] == t.deliveries[j] == m.deliveries[j];
    }
    hide AppliedBySomeone;
  }

  /** A granted claim: nobody held or had applied the key. */
  lemma GrantKeeps(m: Machine, lease: int, i: nat, delay: nat)
    requires Inv(m, lease) && Enabled(m, TakeClaim(i, delay))
    requires GrantOf(m.claims, lease, m.deliveries[i].key, m.deliveries[i].eventId, m.clock) == Claimed
    ensures Inv(Step(m, lease, TakeClaim(i, delay)), lease)
  {
    hide Blank;
    var n := Step(m, lease, TakeClaim(i, delay));
    var key := m.deliveries[i].key;
    forall j: nat | j < |m.deliveries| && m.deliveries[j].key == key
      ensures !Holds(m, lease, j) && m.deliveries[j].phase != Applied
    {
      assert HolderOk(m, lease, j) && AppliedOk(m, j);
    }
    forall j: nat | j < |n.deliveries| && j != i
      ensures n.deliveries[j] == m.deliveries[j] && (Holds(n, lease, j) ==> Holds(m, lease, j))
      ensures HolderOk(n, lease, j) && AppliedOk(n, j)
    {
      assert HolderOk(m, lease, j) && AppliedOk(m, j);
    }
    forall k | k in n.claims && n.claims[k].status == Completed
      ensures AppliedBySomeone(n, k)
    {
      assert AppliedBySomeone(m, k);
      var j: nat :| j < |m.deliveries| && m.deliveries[j].key == k && m.deliveries[j].phase == Applied;
      assert n.deliveries[j] == m.deliveries[j];
    }
    hide AppliedBySomeone, GrantOf, AfterClaim;
  }

  /** Exactly when a delivery that finishes late does no harm. */
  ghost predicate LateIsHarmless(m: Machine, lease: int, e: Event)
    requires (e.FinishComplete? || e.FinishRelease?) && e.i < |m.deliveries|
  {
    var key, eventId := m.deliveries[e.i].key, m.deliveries[e.i].eventId;
    if e.FinishComplete? then
      && key in m.claims && m.claims[key].eventId == eventId && m.claims[key].status == Processing
      && forall j: nat :: j < |m.deliveries| && m.deliveries[j].key == key ==> j == e.i || !Holds(m, lease, j)
    else
      forall j: nat :: j < |m.deliveries| && m.deliveries[j].key == key && m.deliveries[j].eventId == eventId ==> j == e.i || !Holds(m, lease, j)
  }

  lemma TimelyIsHarmless(m: Machine, lease: int, e: Event)
    requires Inv(m, lease) && (e.FinishComplete? || e.FinishRelease?) && Enabled(m, e) && Timely(m, lease, e)
    ensures LateIsHarmless(m, lease, e)
  {
    assert HolderOk(m, lease, e.i);
    hide CompletedWereApplied;
  }

  lemma HarmlessCompleteKeeps(m: Machine, lease: int, e: Event)
    requires Inv(m, lease) && e.FinishComplete? && Enabled(m, e) && LateIsHarmless(m, lease, e)
    ensures Inv(Step(m, lease, e), lease)
  {
    var n := Step(m, lease, e);
    var key := m.deliveries[e.i].key;
    forall j: nat | j < |n.deliveries| && j != e.i
      ensures n.deliveries[j] == m.deliveries[j] && Holds(n, lease, j) == Holds(m, lease, j)
      ensures m.deliveries[j].key == key ==> !Holds(m, lease, j) && m.deliveries[j].phase != Applied
      ensures HolderOk(n, lease, j) && AppliedOk(n, j)
    {
      assert HolderOk(m, lease, j) && AppliedOk(m, j);
    }
    forall k | k in n.claims && n.claims[k].status == Completed
      ensures AppliedBySomeone(n, k)
    {
      if k == key {
        assert n.deliveries[e.i].phase == Applied;
      } else {
        assert AppliedBySomeone(m, k);
        var j: nat :| j < |m.deliveries| && m.deliveries[j].key == k && m.deliveries[j].phase == Applied;
        assert n.deliveries[j] == m.deliveries[j];
      }
    }
    hide AppliedBySomeone;
  }

  lemma HarmlessReleaseKeeps(m: Machine, lease: int, e: Event)
    requires Inv(m, lease) && e.FinishRelease? && Enabled(m, e) && LateIsHarmless(m, lease, e)
    ensures Inv(Step(m, lease, e), lease)
  {
    var n := Step(m, lease, e);
    forall j: nat | j < |n.deliveries| && j != e.i
      ensures n.deliveries[j] == m.deliveries[j] && Holds(n, lease, j) == Holds(m, lease, j)
      ensures HolderOk(n, lease, j) && AppliedOk(n, j)
    {
      assert HolderOk(m, lease, j) && AppliedOk(m, j);
    }
    forall k | k in n.claims && n.claims[k].status == Completed
      ensures AppliedBySomeone(n, k)
    {
      assert AppliedBySomeone(m, k);
      var j: nat :| j < |m.deliveries| && m.deliveries[j].key == k && m.deliveries[j].phase == Applied;
      assert n.deliveries[j] == m.deliveries[j];
    }
    hide AppliedBySomeone;
  }

  /** A complete or release, timely or late, keeps the invariant exactly when nobody else's claim is in its way. */
  lemma FinishKeepsIffHarmless(m: Machine, lease: int, e: Event)
    requires Inv(m, lease) && (e.FinishComplete? || e.FinishRelease?) && Enabled(m, e)
    ensures Inv(Step(m, lease, e), lease) <==> LateIsHarmless(m, lease, e)
  {
    if LateIsHarmless(m, lease, e) {
      if e.FinishComplete? {
        HarmlessCompleteKeeps(m, lease, e);
      } else {
        HarmlessReleaseKeeps(m, lease, e);
      }
    } else if Inv(Step(m, lease, e), lease) {
      HarmfulFinishBreaks(m, lease, e);
    }
    hide Inv, LateIsHarmless, Step;
  }

  lemma HarmfulFinishBreaks(m: Machine, lease: int, e: Event)
    requires Inv(m, lease) && (e.FinishComplete? || e.FinishRelease?) && Enabled(m, e) && !LateIsHarmless(m, lease, e)
    ensures !Inv(Step(m, lease, e), lease)
  {
    var n := Step(m, lease, e);
    var key, eventId := m.deliveries[e.i].key, m.deliveries[e.i].eventId;
    assert n.deliveries[e.i].key == key;
    if e.FinishComplete? && !(key in m.claims && m.claims[key].eventId == eventId) {
      assert !AppliedOk(n, e.i);
    } else if e.FinishComplete? && m.claims[key].status == Completed {
      assert AppliedBySomeone(m, key);
      var j: nat :| j < |m.deliveries| && m.deliveries[j].key == key && m.deliveries[j].phase == Applied;
      assert n.deliveries[j] == m.deliveries[j] && n.deliveries[e.i].phase == Applied;
      assert !Exclusive(n, lease);
    } else {
      var j: nat :| j < |m.deliveries| && m.deliveries[j].key == key && (e.FinishRelease? ==> m.deliveries[j].eventId == eventId) && j != e.i && Holds(m, lease, j);
      assert HolderOk(m, lease, j) && n.deliveries[j] == m.deliveries[j] && Holds(n, lease, j);
      assert !HolderOk(n, lease, j);
    }
  }

  /** If the event finishes a delivery, then harmlessly. */
  ghost predicate Harmless(m: Machine, lease: int, e: Event)
    requires Enabled(m, e)
  {
    (e.FinishComplete? || e.FinishRelease?) ==> LateIsHarmless(m, lease, e)
  }

  /** A step keeps the invariant exactly when it is harmless; a timely one always is. */
  lemma StepKeeps(m: Machine, lease: int, e: Event)
    requires Inv(m, lease) && Enabled(m, e)
    ensures Inv(Step(m, lease, e), lease) <==> Harmless(m, lease, e)
    ensures Timely(m, lease, e) ==> Harmless(m, lease, e)
  {
    hide Inv, Blank, Timely, GrantOf, LateIsHarmless;
    match e
    case Arrive(key, eventId) => ArrivalKeeps(m, lease, Delivery(key, eventId, Waiting), m.clock);
    case Tick(delay) => ArrivalKeeps(m, lease, Delivery("", "", Waiting), m.clock + delay);
    case TakeClaim(i, delay) =>
      if GrantOf(m.claims, lease, m.deliveries[i].key, m.deliveries[i].eventId, m.clock) == Claimed {
        GrantKeeps(m, lease, i, delay);
      } else {
        QuietMoveKeeps(m, Step(m, lease, e), lease, i);
      }
    case EffectDone(i) => QuietMoveKeeps(m, Step(m, lease, e), lease, i);
    case EffectFailed(i) => QuietMoveKeeps(m, Step(m, lease, e), lease, i);
    case Crash(i) => QuietMoveKeeps(m, Step(m, lease, e), lease, i);
    case _ =>
      FinishKeepsIffHarmless(m, lease, e);
      if Timely(m, lease, e) {
        TimelyIsHarmless(m, lease, e);
      }
  }

  // ---------------------------------------------------------------------------------------
  // Whole runs
  // ---------------------------------------------------------------------------------------

  /** The events can happen one after another from here, and end there. */
  ghost predicate Reaches(m: Machine, lease: int, events: seq<Event>, n: Machine)
    decreases |events|
  {
    if events == [] then n == m else Enabled(m, events[0]) && Reaches(Step(m, lease, events[0]), lease, events[1..], n)
  }

  ghost predicate TimelyRun(m: Machine, lease: int, events: seq<Event>)
    decreases |events|
  {
    events == [] || (Enabled(m, events[0]) && Timely(m, lease, events[0]) && TimelyRun(Step(m, lease, events[0]), lease, events[1..]))
  }

  /** Deliveries may finish late as long as nobody else's claim is in the way. */
  ghost predicate HarmlessRun(m: Machine, lease: int, events: seq<Event>)
    decreases |events|
  {
    events == [] || (Enabled(m, events[0]) && Harmless(m, lease, events[0]) && HarmlessRun(Step(m, lease, events[0]), lease, events[1..]))
  }

  /** The invariant holds after every one of the events. */
  ghost predicate KeptThroughout(m: Machine, lease: int, events: seq<Event>)
    decreases |events|
  {
    Inv(m, lease) &&
      (events == [] || (Enabled(m, events[0]) && KeptThroughout(Step(m, lease, events[0]), lease, events[1..])))
  }

  /** A run keeps the invariant throughout exactly when every finish in it is harmless. */
  lemma {:induction false} RunKeepsIffHarmless(m: Machine, lease: int, events: seq<Event>)
    requires Inv(m, lease)
    ensures KeptThroughout(m, lease, events) <==> HarmlessRun(m, lease, events)
    decreases |events|
  {
    hide Inv, Step, Enabled, Timely, Harmless;
    if events != [] && Enabled(m, events[0]) {
      StepKeeps(m, lease, events[0]);
      if Harmless(m, lease, events[0]) {
        RunKeepsIffHarmless(Step(m, lease, events[0]), lease, events[1..]);
      } else if KeptThroughout(m, lease, events) {
        KeptAtOnce(Step(m, lease, events[0]), lease, events[1..]);
      }
    }
  }

  lemma KeptAtOnce(m: Machine, lease: int, events: seq<Event>)
    requires KeptThroughout(m, lease, events)
    ensures Inv(m, lease)
  {
    hide Inv, Step, Enabled;
  }

  /** Timely runs, in which every delivery finishes within its lease, are harmless. */
  lemma TimelyRunIsHarmless(lease: int, events: seq<Event>)
    requires TimelyRun(START, lease, events)
    ensures HarmlessRun(START, lease, events)
  {
    StartIsOk(lease);
    TimelyRunFrom(START, lease, events);
  }

  lemma {:induction false} TimelyRunFrom(m: Machine, lease: int, events: seq<Event>)
    requires Inv(m, lease) && TimelyRun(m, lease, events)
    ensures HarmlessRun(m, lease, events)
    decreases |events|
  {
    hide Inv, Step, Enabled, Timely, Harmless;
    if events != [] {
      StepKeeps(m, lease, events[0]);
      TimelyRunFrom(Step(m, lease, events[0]), lease, events[1..]);
    }
  }

  lemma {:induction false} RunKeeps(m: Machine, lease: int, events: seq<Event>, n: Machine)
    requires Inv(m, lease) && Reaches(m, lease, events, n) && HarmlessRun(m, lease, events)
    ensures Inv(n, lease)
    decreases |events|
  {
    hide Inv, Step, Enabled, Timely, Harmless;
    if events != [] {
      StepKeeps(m, lease, events[0]);
      RunKeeps(Step(m, lease, events[0]), lease, events[1..], n);
    }
  }

  /** No two deliveries hold one key, at most one has applied it, and once it has, nobody holds or can claim the key again. */
  ghost predicate Promise(m: Machine, lease: int) {
    forall i: nat, j: nat :: i < |m.deliveries| && j < |m.deliveries| && i != j && m.deliveries[i].key == m.deliveries[j].key ==>
      && !(Holds(m, lease, i) && Holds(m, lease, j))
      && (m.deliveries[i].phase == Applied ==>
            && m.deliveries[j].phase != Applied && !Holds(m, lease, j)
            && GrantOf(m.claims, lease, m.deliveries[j].key, m.deliveries[j].eventId, m.clock) != Claimed)
  }

  lemma InvKeepsPromise(m: Machine, lease: int)
    requires Inv(m, lease)
    ensures Promise(m, lease)
  {
    hide CompletedWereApplied, Blank;
    forall i: nat, j: nat | i < |m.deliveries| && j < |m.deliveries| && i != j && m.deliveries[i].key == m.deliveries[j].key
      ensures !(Holds(m, lease, i) && Holds(m, lease, j)) && !(m.deliveries[i].phase == Applied && m.deliveries[j].phase == Applied)
      ensures m.deliveries[i].phase == Applied ==>
        !Holds(m, lease, j) && GrantOf(m.claims, lease, m.deliveries[j].key, m.deliveries[j].eventId, m.clock) != Claimed
    {
      assert HolderOk(m, lease, j) && AppliedOk(m, i);
      if i < j {
        assert Exclusive(m, lease);
      } else {
        assert j < i;
      }
    }
  }

  /** In every harmless run of any deliveries effects are applied once. */
  lemma EffectsAreAppliedOnce(lease: int, events: seq<Event>, n: Machine)
    requires Reaches(START, lease, events, n) && HarmlessRun(START, lease, events)
    ensures Promise(n, lease)
  {
    hide Inv, Promise, Reaches, HarmlessRun;
    StateIsOk(lease, events, n);
    InvKeepsPromise(n, lease);
  }

  lemma StateIsOk(lease: int, events: seq<Event>, n: Machine)
    requires Reaches(START, lease, events, n) && HarmlessRun(START, lease, events)
    ensures Inv(n, lease)
  {
    hide Reaches, HarmlessRun;
    StartIsOk(lease);
    RunKeeps(START, lease, events, n);
  }

  lemma AppliedIffCompleted(lease: int, events: seq<Event>, n: Machine, key: string)
    requires Reaches(START, lease, events, n) && HarmlessRun(START, lease, events)
    ensures AppliedBySomeone(n, key) <==> key in n.claims && n.claims[key].status == Completed
  {
    StateIsOk(lease, events, n);
    hide Reaches, HarmlessRun;
    if AppliedBySomeone(n, key) {
      var j: nat :| j < |n.deliveries| && n.deliveries[j].key == key && n.deliveries[j].phase == Applied;
      assert AppliedOk(n, j);
    }
    hide AppliedBySomeone;
  }

  /** One delivery overruns its lease, the event is delivered again, and both complete: the effect is applied twice. */
  function LateRun(lease: nat, key: string, eventId: string): seq<Event> {
    [Arrive(key, eventId), Arrive(key, eventId), TakeClaim(0, 0), Tick(lease), TakeClaim(1, 0),
     EffectDone(0), EffectDone(1), FinishComplete(0), FinishComplete(1)]
  }

  predicate BothApplied(n: Machine, key: string) {
    |n.deliveries| == 2 && forall i :: 0 <= i < 2 ==> n.deliveries[i].key == key && n.deliveries[i].phase == Applied
  }

  lemma LateRunAppliesTwice(lease: nat, key: string, eventId: string)
    requires lease > 0 && !Blank(key) && !Blank(eventId)
    ensures exists n :: Reaches(START, lease, LateRun(lease, key, eventId), n) && BothApplied(n, key)
  {
    hide Blank;
    var d := Delivery(key, eventId, Waiting);
    var open, late := Claim(eventId, Processing, 0), Claim(eventId, Processing, lease);
    var m1 := Machine(map[], 0, [d]);
    var m2 := Machine(map[], 0, [d, d]);
    var m3 := Machine(map[key := open], 0, [d.(phase := Running(0)), d]);
    var m4 := m3.(clock := lease);
    var m5 := Machine(map[key := late], lease, [d.(phase := Running(0)), d.(phase := Running(lease))]);
    var m6 := m5.(deliveries := [d.(phase := Succeeded(0)), d.(phase := Running(lease))]);
    var m7 := m5.(deliveries := [d.(phase := Succeeded(0)), d.(phase := Succeeded(lease))]);
    var done := map[key := late.(status := Completed)];
    var m8 := Machine(done, lease, [d.(phase := Applied), d.(phase := Succeeded(lease))]);
    var m9 := Machine(done, lease, [d.(phase := Applied), d.(phase := Applied)]);
    var es := LateRun(lease, key, eventId);
    assert Step(START, lease, es[0]) == m1;
    assert Step(m1, lease, es[1]) == m2;
    assert Step(m2, lease, es[2]) == m3;
    assert Step(m3, lease, es[3]) == m4;
    assert Step(m4, lease, es[4]) == m5;
    assert Step(m5, lease, es[5]) == m6;
    assert Step(m6, lease, es[6]) == m7;
    assert Step(m7, lease, es[7]) == m8;
    assert Step(m8, lease, es[8]) == m9;
    hide Step;
    ReachesBackwards(m8, lease, es[8..], m9);
    ReachesBackwards(m7, lease, es[7..], m9);
    ReachesBackwards(m6, lease, es[6..], m9);
    ReachesBackwards(m5, lease, es[5..], m9);
    ReachesBackwards(m4, lease, es[4..], m9);
    ReachesBackwards(m3, lease, es[3..], m9);
    ReachesBackwards(m2, lease, es[2..], m9);
    ReachesBackwards(m1, lease, es[1..], m9);
    ReachesBackwards(START, lease, es, m9);
  }

  lemma ReachesBackwards(m: Machine, lease: int, events: seq<Event>, n: Machine)
    requires events != [] && Enabled(m, events[0])
    requires if |events| == 1 then Step(m, lease, events[0]) == n else Reaches(Step(m, lease, events[0]), lease, events[1..], n)
    ensures Reaches(m, lease, events, n)
  {
    hide Step, Enabled;
  }
}
