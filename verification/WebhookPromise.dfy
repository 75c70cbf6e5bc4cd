/**
 Which late deliveries break effect-once.  A completion or release that is not harmless need not
 break it at once, but then the run can go on harmlessly to a point at which it is broken.
 */
module WebhookPromise {
  import opened Strings
  import opened WebhookLease

  // ---------------------------------------------------------------------------------------
  // What claims and claimants have in common in every run
  // ---------------------------------------------------------------------------------------

  /** Whoever got past a claim has names, and no stamp lies ahead of the clock. */
  ghost predicate Stamped(m: Machine) {
    && (forall i :: 0 <= i < |m.deliveries| && Acting(m.deliveries[i].phase) ==>
          !Blank(m.deliveries[i].key) && !Blank(m.deliveries[i].eventId) && m.deliveries[i].phase.since <= m.clock)
    && forall key :: key in m.claims ==> !Blank(key) && !Blank(m.claims[key].eventId) && m.claims[key].claimedAt <= m.clock
  }

  lemma StepKeepsStamped(m: Machine, lease: int, e: Event)
    requires Stamped(m) && Enabled(m, e)
    ensures Stamped(Step(m, lease, e))
  {
    hide Blank;
  }

  lemma {:induction false} RunKeepsStamped(m: Machine, lease: int, events: seq<Event>, n: Machine)
    requires Stamped(m) && Reaches(m, lease, events, n)
    ensures Stamped(n)
    decreases |events|
  {
    hide Stamped, Step, Enabled;
    if events != [] {
      StepKeepsStamped(m, lease, events[0]);
      RunKeepsStamped(Step(m, lease, events[0]), lease, events[1..], n);
    }
  }

  // ---------------------------------------------------------------------------------------
  // Continuations without a finish
  // ---------------------------------------------------------------------------------------

  /** Whatever happens next, as long as finishes are harmless, effects are applied once. */
  ghost predicate Secure(m: Machine, lease: int) {
    forall events, n :: Reaches(m, lease, events, n) && HarmlessRun(m, lease, events) ==> Promise(n, lease)
  }

  lemma BrokenNow(m: Machine, lease: int)
    requires !Promise(m, lease)
    ensures !Secure(m, lease)
  {
    hide Promise;
    assert Reaches(m, lease, [], m) && HarmlessRun(m, lease, []);
  }

  lemma BrokenLater(m: Machine, lease: int, e: Event)
    requires Enabled(m, e) && !e.FinishComplete? && !e.FinishRelease? && !Secure(Step(m, lease, e), lease)
    ensures !Secure(m, lease)
  {
    hide Promise, Step, Enabled;
    var events, n :| Reaches(Step(m, lease, e), lease, events, n) && HarmlessRun(Step(m, lease, e), lease, events) && !Promise(n, lease);
    assert ([e] + events)[1..] == events;
    assert Reaches(m, lease, [e] + events, n) && HarmlessRun(m, lease, [e] + events);
  }

  /** An applied key that a delivery of this event could claim after some time: it arrives, and then it can. */
  lemma ClaimableBreaks(m: Machine, lease: int, i: nat, eventId: string, wait: nat)
    requires i < |m.deliveries| && m.deliveries[i].phase == Applied
    requires GrantOf(m.claims, lease, m.deliveries[i].key, eventId, m.clock + wait) == Claimed
    ensures !Secure(m, lease)
  {
    hide GrantOf, Holds, Secure;
    var key := m.deliveries[i].key;
    var arrived := Step(m, lease, Arrive(key, eventId));
    var later := Step(arrived, lease, Tick(wait));
    assert later.deliveries[i] == m.deliveries[i] && later.deliveries[|m.deliveries|] == Delivery(key, eventId, Waiting);
    BrokenNow(later, lease);
    BrokenLater(arrived, lease, Tick(wait));
    BrokenLater(m, lease, Arrive(key, eventId));
  }

  /** A held key that is free: another delivery arrives, claims it, and holds it too. */
  lemma FreedBreaks(m: Machine, lease: int, j: nat)
    requires lease > 0 && Holds(m, lease, j) && m.deliveries[j].key !in m.claims
    requires !Blank(m.deliveries[j].key) && !Blank(m.deliveries[j].eventId)
    ensures !Secure(m, lease)
  {
    hide Blank, Secure;
    var d, k := m.deliveries[j], |m.deliveries|;
    var arrived := Step(m, lease, Arrive(d.key, d.eventId));
    var claimed := Step(arrived, lease, TakeClaim(k, 0));
    assert claimed.deliveries[j] == d && claimed.deliveries[k] == Delivery(d.key, d.eventId, Running(m.clock));
    assert Holds(claimed, lease, j) && Holds(claimed, lease, k);
    BrokenNow(claimed, lease);
    BrokenLater(arrived, lease, TakeClaim(k, 0));
    BrokenLater(m, lease, Arrive(d.key, d.eventId));
  }

  // ---------------------------------------------------------------------------------------
  // Exactly the harmless finishes are safe
  // ---------------------------------------------------------------------------------------

  lemma HarmfulCompleteBreaks(m: Machine, lease: int, e: Event)
    requires Inv(m, lease) && Stamped(m) && e.FinishComplete? && Enabled(m, e) && !LateIsHarmless(m, lease, e)
    ensures !Secure(Step(m, lease, e), lease)
  {
    hide Secure, Blank, CompletedWereApplied, Exclusive;
    var n, key, eventId := Step(m, lease, e), m.deliveries[e.i].key, m.deliveries[e.i].eventId;
    assert n.deliveries[e.i].phase == Applied && n.deliveries[e.i].key == key;
    if key !in m.claims {
      ClaimableBreaks(n, lease, e.i, eventId, 0);
    } else if m.claims[key].status == Completed {
      var j := WhoApplied(m, lease, key);
      assert n.deliveries[j] == m.deliveries[j];
      BrokenNow(n, lease);
    } else if m.claims[key].eventId != eventId {
      ClaimableBreaks(n, lease, e.i, m.claims[key].eventId, if lease > 0 then lease else 0);
    } else {
      var j: nat :| j < |m.deliveries| && m.deliveries[j].key == key && j != e.i && Holds(m, lease, j);
      assert n.deliveries[j] == m.deliveries[j] && Holds(n, lease, j);
      BrokenNow(n, lease);
    }
  }

  lemma WhoApplied(m: Machine, lease: int, key: string) returns (j: nat)
    requires Inv(m, lease) && key in m.claims && m.claims[key].status == Completed
    ensures j < |m.deliveries| && m.deliveries[j].key == key && m.deliveries[j].phase == Applied
  {
    assert AppliedBySomeone(m, key);
    j :| j < |m.deliveries| && m.deliveries[j].key == key && m.deliveries[j].phase == Applied;
  }

  lemma HarmfulReleaseBreaks(m: Machine, lease: int, e: Event)
    requires Inv(m, lease) && Stamped(m) && e.FinishRelease? && Enabled(m, e) && !LateIsHarmless(m, lease, e)
    ensures !Secure(Step(m, lease, e), lease)
  {
    hide Secure, Blank, CompletedWereApplied, Exclusive;
    var n, d := Step(m, lease, e), m.deliveries[e.i];
    var j: nat :| j < |m.deliveries| && m.deliveries[j].key == d.key && m.deliveries[j].eventId == d.eventId && j != e.i && Holds(m, lease, j);
    assert HolderOk(m, lease, j) && n.deliveries[j] == m.deliveries[j] && Holds(n, lease, j);
    FreedBreaks(n, lease, j);
  }

  lemma InvIsSecure(m: Machine, lease: int)
    requires Inv(m, lease)
    ensures Secure(m, lease)
  {
    hide Inv, Promise, Reaches, HarmlessRun;
    forall events, n | Reaches(m, lease, events, n) && HarmlessRun(m, lease, events)
      ensures Promise(n, lease)
    {
      RunKeeps(m, lease, events, n);
      InvKeepsPromise(n, lease);
    }
  }

  lemma SecureIffHarmless(m: Machine, lease: int, e: Event)
    requires Inv(m, lease) && Stamped(m) && Enabled(m, e)
    ensures Secure(Step(m, lease, e), lease) <==> Harmless(m, lease, e)
  {
    hide Inv, Stamped, Secure, Step, LateIsHarmless;
    StepKeeps(m, lease, e);
    if Harmless(m, lease, e) {
      InvIsSecure(Step(m, lease, e), lease);
    } else if e.FinishComplete? {
      HarmfulCompleteBreaks(m, lease, e);
    } else {
      HarmfulReleaseBreaks(m, lease, e);
    }
  }

  lemma StartIsStamped()
    ensures Stamped(START)
  {
  }

  /**
   After any harmless run, a completion or release, on time or late, is harmless exactly when no
   harmless continuation ever breaks effect-once.
   */
  lemma FinishIsSafeIffHarmless(lease: int, before: seq<Event>, m: Machine, e: Event)
    requires Reaches(START, lease, before, m) && HarmlessRun(START, lease, before)
    requires (e.FinishComplete? || e.FinishRelease?) && Enabled(m, e)
    ensures Secure(Step(m, lease, e), lease) <==> LateIsHarmless(m, lease, e)
  {
    hide Inv, Stamped, Secure, Step, LateIsHarmless, Reaches, HarmlessRun, Enabled;
    StateIsOk(lease, before, m);
    StartIsStamped();
    RunKeepsStamped(START, lease, before, m);
    SecureIffHarmless(m, lease, e);
  }

  /** From no point of the events on can a harmless continuation break effect-once. */
  ghost predicate SecureThroughout(m: Machine, lease: int, events: seq<Event>)
    decreases |events|
  {
    Secure(m, lease) &&
      (events == [] || (Enabled(m, events[0]) && SecureThroughout(Step(m, lease, events[0]), lease, events[1..])))
  }

  lemma {:induction false} SecureThroughoutFrom(m: Machine, lease: int, events: seq<Event>)
    requires Inv(m, lease) && Stamped(m)
    ensures SecureThroughout(m, lease, events) <==> HarmlessRun(m, lease, events)
    decreases |events|
  {
    hide Inv, Stamped, Secure, Step, Enabled, Harmless;
    InvIsSecure(m, lease);
    if events != [] && Enabled(m, events[0]) {
      var next := Step(m, lease, events[0]);
      SecureIffHarmless(m, lease, events[0]);
      StepKeeps(m, lease, events[0]);
      StepKeepsStamped(m, lease, events[0]);
      if Harmless(m, lease, events[0]) {
        SecureThroughoutFrom(next, lease, events[1..]);
      } else {
        NotSecure(next, lease, events[1..]);
      }
    }
  }

  lemma NotSecure(m: Machine, lease: int, events: seq<Event>)
    requires !Secure(m, lease)
    ensures !SecureThroughout(m, lease, events)
  {
    hide Secure;
  }

  /** A run is safe for effect-once at every point exactly when every completion and release in it is harmless. */
  lemma RunIsSafeIffHarmless(lease: int, events: seq<Event>)
    ensures SecureThroughout(START, lease, events) <==> HarmlessRun(START, lease, events)
  {
    hide Inv, Stamped, SecureThroughout, HarmlessRun;
    StartIsOk(lease);
    StartIsStamped();
    SecureThroughoutFrom(START, lease, events);
  }

  // ---------------------------------------------------------------------------------------
  // What a claim is told
  // ---------------------------------------------------------------------------------------

  /** After any harmless run: once a key is applied, or while it is held, its event is told of a duplicate and any other of a conflict. */
  lemma TakenKeyIsTold(lease: int, before: seq<Event>, m: Machine, i: nat, eventId: string)
    requires Reaches(START, lease, before, m) && HarmlessRun(START, lease, before) && i < |m.deliveries| && !Blank(eventId)
    requires m.deliveries[i].phase == Applied || Holds(m, lease, i)
    ensures GrantOf(m.claims, lease, m.deliveries[i].key, eventId, m.clock) == if eventId == m.deliveries[i].eventId then Duplicate else Conflict
  {
    hide Reaches, HarmlessRun, Blank;
    StateIsOk(lease, before, m);
    StartIsStamped();
    RunKeepsStamped(START, lease, before, m);
    assert HolderOk(m, lease, i) && AppliedOk(m, i);
    hide CompletedWereApplied, Exclusive;
  }

  /** A delivery whose claim still stands can be overtaken by its own event exactly when it no longer holds the key. */
  lemma OvertakenIffNotHeld(lease: int, before: seq<Event>, m: Machine, i: nat)
    requires Reaches(START, lease, before, m) && HarmlessRun(START, lease, before) && i < |m.deliveries| && Acting(m.deliveries[i].phase)
    requires var d := m.deliveries[i]; d.key in m.claims && m.claims[d.key] == Claim(d.eventId, Processing, d.phase.since)
    ensures GrantOf(m.claims, lease, m.deliveries[i].key, m.deliveries[i].eventId, m.clock) == Claimed <==> !Holds(m, lease, i)
  {
    hide Reaches, HarmlessRun, Blank;
    StartIsStamped();
    RunKeepsStamped(START, lease, before, m);
  }

  /** A delivery that gives up in time leaves the key to whoever comes. */
  lemma ReleasedKeyIsFree(lease: int, before: seq<Event>, m: Machine, i: nat, eventId: string)
    requires Reaches(START, lease, before, m) && HarmlessRun(START, lease, before)
    requires Enabled(m, FinishRelease(i)) && Holds(m, lease, i) && !Blank(eventId)
    ensures GrantOf(Step(m, lease, FinishRelease(i)).claims, lease, m.deliveries[i].key, eventId, m.clock) == Claimed
  {
    hide Reaches, HarmlessRun, Blank;
    StateIsOk(lease, before, m);
    StartIsStamped();
    RunKeepsStamped(START, lease, before, m);
    assert HolderOk(m, lease, i);
    hide CompletedWereApplied, Exclusive;
  }
}
