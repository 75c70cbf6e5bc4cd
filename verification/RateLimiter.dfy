/** The sliding-window limiter with a bounded number of tenants, as a value, as the object, and over runs of calls. */
module RateLimiter {
  import opened Strings

  /** The limits, all positive. */
  datatype Limits = Limits(maxRequests: int, window: int, maxTenants: int)

  predicate Positive(c: Limits) {
    c.maxRequests >= 1 && c.window >= 1 && c.maxTenants >= 1
  }

  /** The windows by tenant, and the tenants in the order in which the map holds them. */
  datatype Windows = Windows(order: seq<string>, times: map<string, seq<int>>)

  const EMPTY: Windows := Windows([], map[])

  /** The time stamps less than a window old. */
  function Recent(times: seq<int>, at: int, window: int): seq<int> {
    if times == [] then []
    else
      var last := times[|times| - 1];
      Recent(times[..|times| - 1], at, window) + if at - last < window then [last] else []
  }

  function Times(w: Windows, key: string): seq<int> {
    if key in w.times then w.times[key] else []
  }

  predicate Admits(w: Windows, c: Limits, key: string, at: int) {
    key != "" && |Recent(Times(w, key), at, c.window)| < c.maxRequests
  }

  /** The tenant that makes room for a new one, first in the map's order. */
  predicate Evicts(w: Windows, c: Limits, key: string, at: int) {
    Admits(w, c, key, at) && key !in w.times && |w.times| >= c.maxTenants && w.order != []
  }

  function AfterAllow(w: Windows, c: Limits, key: string, at: int): Windows {
    if key == "" then w
    else
      var recent := Recent(Times(w, key), at, c.window);
      if !Admits(w, c, key, at) then Set(w, key, recent)
      else Set(if Evicts(w, c, key, at) then Windows(w.order[1..], w.times - {w.order[0]}) else w, key, recent + [at])
  }

  /** Map.set: a known key keeps its place. */
  function Set(w: Windows, key: string, times: seq<int>): Windows {
    Windows(if key in w.times then w.order else w.order + [key], w.times[key := times])
  }

  class ScimRateLimiter {
    var windows: Windows
    const limits: Limits

    constructor (limits: Limits)
      requires Positive(limits)
      ensures windows == EMPTY && this.limits == limits
    {
      this.limits := limits;
      windows := EMPTY;
    }

    method Allow(tenant: string, at: int) returns (ok: bool)
      modifies this
      ensures ok == Admits(old(windows), limits, Trim(tenant), at)
      ensures windows == AfterAllow(old(windows), limits, Trim(tenant), at)
    {
      hide Trim;
      var key := Trim(tenant);
      if key == "" {
        return false;
      }
      var recent := Filter(if key in windows.times then windows.times[key] else [], at);
      if |recent| >= limits.maxRequests {
        windows := Set(windows, key, recent);
        return false;
      }
      recent := recent + [at];
      if key !in windows.times && |windows.times| >= limits.maxTenants {
        if |windows.order| > 0 {
          windows := Windows(windows.order[1..], windows.times - {windows.order[0]});
        }
      }
      windows := Set(windows, key, recent);
      return true;
    }

    method Filter(times: seq<int>, at: int) returns (recent: seq<int>)
      ensures recent == Recent(times, at, limits.window)
    {
      recent := [];
      for i := 0 to |times|
        invariant recent == Recent(times[..i], at, limits.window)
      {
        assert times[..i + 1][..i] == times[..i];
        if at - times[i] < limits.window {
          recent := recent + [times[i]];
        }
      }
      assert times[..|times|] == times;
    }
  }

  // ---------------------------------------------------------------------------------------
  // Runs
  // ---------------------------------------------------------------------------------------

  datatype Call = Call(key: string, at: int)

  function After(c: Limits, calls: seq<Call>): Windows {
    if calls == [] then EMPTY
    else
      var last := calls[|calls| - 1];
      AfterAllow(After(c, calls[..|calls| - 1]), c, last.key, last.at)
  }

  /** The times at which the tenant's calls were accepted. */
  function Granted(c: Limits, calls: seq<Call>, key: string): seq<int> {
    if calls == [] then []
    else
      var before, last := calls[..|calls| - 1], calls[|calls| - 1];
      Granted(c, before, key) + if last.key == key && Admits(After(c, before), c, key, last.at) then [last.at] else []
  }

  predicate Ordered(calls: seq<Call>) {
    forall i :: 0 < i < |calls| ==> calls[i - 1].at <= calls[i].at
  }

  /** The clock of the calls has not passed the time. */
  predicate UpTo(calls: seq<Call>, at: int) {
    calls != [] ==> calls[|calls| - 1].at <= at
  }

  /** The tenant was never evicted to make room. */
  predicate Kept(c: Limits, calls: seq<Call>, key: string) {
    calls == [] ||
      (var before, last := calls[..|calls| - 1], calls[|calls| - 1];
       Kept(c, before, key) && (Evicts(After(c, before), c, last.key, last.at) ==> After(c, before).order[0] != key))
  }

  // ---------------------------------------------------------------------------------------
  // The map stays bounded
  // ---------------------------------------------------------------------------------------

  ghost predicate Bounded(w: Windows, c: Limits) {
    && (forall key :: key in w.times <==> key in w.order) && |w.order| == |w.times| <= c.maxTenants
    && forall i, j :: 0 <= i < j < |w.order| ==> w.order[i] != w.order[j]
  }

  lemma SetKeepsBound(w: Windows, c: Limits, key: string, times: seq<int>)
    requires Bounded(w, c) && (key in w.times || |w.times| < c.maxTenants)
    ensures Bounded(Set(w, key, times), c)
  {
    if key !in w.times {
      assert w.times[key := times].Keys == w.times.Keys + {key};
      assert |w.times[key := times]| == |w.times[key := times].Keys| && |w.times| == |w.times.Keys|;
    } else {
      assert w.times[key := times].Keys == w.times.Keys;
    }
  }

  lemma NewTenantIsAdmitted(w: Windows, c: Limits, key: string, at: int)
    requires Positive(c) && key != "" && key !in w.times
    ensures Admits(w, c, key, at)
  {
  }

  lemma AllowKeepsBound(w: Windows, c: Limits, key: string, at: int)
    requires Positive(c) && Bounded(w, c)
    ensures Bounded(AfterAllow(w, c, key, at), c)
  {
    hide Recent, Set, Bounded, Admits;
    if key != "" {
      var recent := Recent(Times(w, key), at, c.window);
      if key in w.times {
        SetKeepsBound(w, c, key, recent);
        SetKeepsBound(w, c, key, recent + [at]);
      } else {
        NewTenantIsAdmitted(w, c, key, at);
        if Evicts(w, c, key, at) {
          EvictionMakesRoom(w, c);
          SetKeepsBound(Windows(w.order[1..], w.times - {w.order[0]}), c, key, recent + [at]);
        } else {
          NoEvictionHasRoom(w, c, key, at);
          SetKeepsBound(w, c, key, recent + [at]);
        }
      }
    }
  }

  lemma NoEvictionHasRoom(w: Windows, c: Limits, key: string, at: int)
    requires Positive(c) && Bounded(w, c) && Admits(w, c, key, at) && key !in w.times && !Evicts(w, c, key, at)
    ensures |w.times| < c.maxTenants
  {
    hide Admits;
  }

  lemma EvictionMakesRoom(w: Windows, c: Limits)
    requires Bounded(w, c)
    ensures w.order != [] ==> Bounded(Windows(w.order[1..], w.times - {w.order[0]}), c) && |w.times - {w.order[0]}| < c.maxTenants
  {
    if w.order != [] {
      var rest := w.times - {w.order[0]};
      assert rest.Keys == w.times.Keys - {w.order[0]};
      assert |rest| == |rest.Keys| && |w.times| == |w.times.Keys|;
      TailHasTheRest(w.order);
    }
  }

  lemma TailHasTheRest(order: seq<string>)
    requires order != [] && forall i, j :: 0 <= i < j < |order| ==> order[i] != order[j]
    ensures forall key :: key in order[1..] <==> key in order && key != order[0]
    ensures forall i, j :: 0 <= i < j < |order| - 1 ==> order[1..][i] != order[1..][j]
  {
    assert order == [order[0]] + order[1..];
  }

  lemma {:induction false} TenantsAreBounded(c: Limits, calls: seq<Call>)
    requires Positive(c)
    ensures Bounded(After(c, calls), c)
  {
    hide AfterAllow, Bounded;
    if calls == [] {
      EmptyIsBounded(c);
    } else {
      TenantsAreBounded(c, calls[..|calls| - 1]);
      AllowKeepsBound(After(c, calls[..|calls| - 1]), c, calls[|calls| - 1].key, calls[|calls| - 1].at);
    }
  }

  lemma EmptyIsBounded(c: Limits)
    requires Positive(c)
    ensures Bounded(EMPTY, c)
  {
  }

  // ---------------------------------------------------------------------------------------
  // The window is what was granted lately
  // ---------------------------------------------------------------------------------------

  lemma RecentAppend(times: seq<int>, t: int, at: int, window: int)
    ensures Recent(times + [t], at, window) == Recent(times, at, window) + if at - t < window then [t] else []
  {
    assert (times + [t])[..|times|] == times;
  }

  /** Dropping what is old by now does not change what is recent later. */
  lemma {:induction false} RecentLater(times: seq<int>, at: int, later: int, window: int)
    requires at <= later
    ensures Recent(Recent(times, at, window), later, window) == Recent(times, later, window)
  {
    if times != [] {
      var before, last := times[..|times| - 1], times[|times| - 1];
      RecentLater(before, at, later, window);
      if at - last < window {
        RecentAppend(Recent(before, at, window), last, later, window);
      } else {
        assert Recent(before, at, window) + [] == Recent(before, at, window);
      }
    }
  }

  /** Before every grant fewer than the maximum were granted within the window. */
  predicate Spaced(granted: seq<int>, c: Limits) {
    granted == [] ||
      (Spaced(granted[..|granted| - 1], c) && |Recent(granted[..|granted| - 1], granted[|granted| - 1], c.window)| < c.maxRequests)
  }

  /** What the limiter holds of the tenant tells from now on what was granted lately. */
  ghost predicate Remembers(c: Limits, calls: seq<Call>, key: string) {
    && (forall x :: UpTo(calls, x) ==> Recent(Times(After(c, calls), key), x, c.window) == Recent(Granted(c, calls, key), x, c.window))
    && Spaced(Granted(c, calls, key), c)
    && forall i :: 0 <= i < |Granted(c, calls, key)| ==> calls != [] && Granted(c, calls, key)[i] <= calls[|calls| - 1].at
  }

  lemma TimesAfter(w: Windows, c: Limits, key: string, at: int, tenant: string)
    requires Bounded(w, c) && (Evicts(w, c, key, at) ==> w.order[0] != tenant) && tenant != ""
    ensures Times(AfterAllow(w, c, key, at), tenant) ==
      if key != tenant then Times(w, tenant)
      else Recent(Times(w, key), at, c.window) + if Admits(w, c, key, at) then [at] else []
  {
    hide Recent;
  }

  lemma SpacedAppend(granted: seq<int>, at: int, c: Limits)
    requires Spaced(granted, c) && |Recent(granted, at, c.window)| < c.maxRequests
    ensures Spaced(granted + [at], c)
  {
    hide Recent;
    assert (granted + [at])[..|granted|] == granted;
  }

  lemma {:induction false} RunRemembers(c: Limits, calls: seq<Call>, key: string)
    requires Positive(c) && Ordered(calls) && Kept(c, calls, key) && key != ""
    ensures Remembers(c, calls, key)
  {
    if calls != [] {
      var n := |calls| - 1;
      var before, last := calls[..n], calls[n];
      RunRemembers(c, before, key);
      TenantsAreBounded(c, before);
      LastCallRemembers(c, before, last, key);
      assert before + [last] == calls;
    }
    hide Remembers, Bounded;
  }

  /** Both sides keep agreeing on what is recent when the tenant's call trims its window and is granted or not. */
  lemma StillRecent(held: seq<int>, granted: seq<int>, at: int, more: seq<int>, x: int, window: int)
    requires at <= x && Recent(held, x, window) == Recent(granted, x, window) && (more == [] || more == [at])
    ensures Recent(Recent(held, at, window) + more, x, window) == Recent(granted + more, x, window)
  {
    hide Recent;
    var recent := Recent(held, at, window);
    assert recent + [] == recent && granted + [] == granted;
    RecentLater(held, at, x, window);
    RecentAppend(recent, at, x, window);
    RecentAppend(granted, at, x, window);
  }

  lemma OneMoreCall(c: Limits, before: seq<Call>, last: Call, key: string)
    ensures After(c, before + [last]) == AfterAllow(After(c, before), c, last.key, last.at)
    ensures Granted(c, before + [last], key) ==
      Granted(c, before, key) + if last.key == key && Admits(After(c, before), c, key, last.at) then [last.at] else []
  {
    assert (before + [last])[..|before|] == before;
  }

  lemma LastCallRemembers(c: Limits, before: seq<Call>, last: Call, key: string)
    requires Remembers(c, before, key) && Bounded(After(c, before), c) && UpTo(before, last.at) && key != ""
    requires Evicts(After(c, before), c, last.key, last.at) ==> After(c, before).order[0] != key
    ensures Remembers(c, before + [last], key)
  {
    hide Recent, AfterAllow, Bounded, Evicts, Spaced, After, Granted, Times;
    var calls, w, held, granted := before + [last], After(c, before), Times(After(c, before), key), Granted(c, before, key);
    OneMoreCall(c, before, last, key);
    TimesAfter(w, c, last.key, last.at, key);
    assert granted + [] == granted;
    var ok := Admits(w, c, key, last.at);
    if last.key == key && ok {
      assert Recent(held, last.at, c.window) == Recent(granted, last.at, c.window);
      SpacedAppend(granted, last.at, c);
    }
    forall x | UpTo(calls, x)
      ensures Recent(Times(After(c, calls), key), x, c.window) == Recent(Granted(c, calls, key), x, c.window)
    {
      assert UpTo(before, x) && last.at <= x;
      assert Recent(held, x, c.window) == Recent(granted, x, c.window);
      if last.key == key {
        StillRecent(held, granted, last.at, if ok then [last.at] else [], x, c.window);
      }
    }
  }

  // ---------------------------------------------------------------------------------------
  // The promise
  // ---------------------------------------------------------------------------------------

  /** The grants in the window that ends at x, open on the left and closed on the right. */
  function Window(granted: seq<int>, x: int, window: int): seq<int> {
    if granted == [] then []
    else
      var last := granted[|granted| - 1];
      Window(granted[..|granted| - 1], x, window) + if x - window < last <= x then [last] else []
  }

  lemma {:induction false} WindowWithinRecent(granted: seq<int>, x: int, at: int, window: int)
    requires at <= x
    ensures |Window(granted, x, window)| <= |Recent(granted, at, window)|
  {
    if granted != [] {
      WindowWithinRecent(granted[..|granted| - 1], x, at, window);
    }
  }

  lemma {:induction false} SpacedWindows(granted: seq<int>, c: Limits, x: int)
    requires Positive(c) && Spaced(granted, c)
    ensures |Window(granted, x, c.window)| <= c.maxRequests
  {
    if granted != [] {
      var before, last := granted[..|granted| - 1], granted[|granted| - 1];
      SpacedWindows(before, c, x);
      if x - c.window < last <= x {
        WindowWithinRecent(before, x, last, c.window);
      }
    }
  }

  lemma {:induction false} PastWindowIsRecent(granted: seq<int>, at: int, window: int)
    requires forall i :: 0 <= i < |granted| ==> granted[i] <= at
    ensures Window(granted, at, window) == Recent(granted, at, window)
  {
    if granted != [] {
      PastWindowIsRecent(granted[..|granted| - 1], at, window);
    }
  }

  /** Whatever the other tenants do, a tenant that was not evicted has at most the maximum of grants in every window. */
  lemma AtMostMaxInEveryWindow(c: Limits, calls: seq<Call>, key: string, x: int)
    requires Positive(c) && Ordered(calls) && Kept(c, calls, key) && key != ""
    ensures |Window(Granted(c, calls, key), x, c.window)| <= c.maxRequests
  {
    RunRemembers(c, calls, key);
    SpacedWindows(Granted(c, calls, key), c, x);
  }

  /** Its next call is accepted exactly when fewer than the maximum were granted in the window that ends now. */
  lemma AcceptedIffRoom(c: Limits, calls: seq<Call>, key: string, at: int)
    requires Positive(c) && Ordered(calls) && Kept(c, calls, key) && key != "" && UpTo(calls, at)
    ensures Admits(After(c, calls), c, key, at) <==> |Window(Granted(c, calls, key), at, c.window)| < c.maxRequests
  {
    RunRemembers(c, calls, key);
    assert forall i :: 0 <= i < |Granted(c, calls, key)| ==> Granted(c, calls, key)[i] <= at;
    PastWindowIsRecent(Granted(c, calls, key), at, c.window);
    hide Recent, Window, After, Granted, Kept, Spaced;
  }

  lemma StartsAllowed(c: Limits, w: Windows, key: string, at: int)
    requires Positive(c) && key != "" && key !in w.times
    ensures AfterAllow(w, c, key, at) == Set(if Evicts(w, c, key, at) then Windows(w.order[1..], w.times - {w.order[0]}) else w, key, [at])
  {
    NewTenantIsAdmitted(w, c, key, at);
    assert Recent([], at, c.window) + [at] == [at];
  }

  /** The number of calls up to and with the one at which the tenant last came into the map. */
  function Joined(c: Limits, calls: seq<Call>, key: string): nat {
    if calls == [] then 0
    else
      var before := calls[..|calls| - 1];
      if key in After(c, calls).times && key !in After(c, before).times then |calls| else Joined(c, before, key)
  }

  /** The map's order is the one in which its tenants last came in. */
  ghost predicate InOrderOfJoining(c: Limits, calls: seq<Call>, order: seq<string>) {
    && (forall i :: 0 <= i < |order| ==> Joined(c, calls, order[i]) <= |calls|)
    && forall i, j :: 0 <= i < j < |order| ==> Joined(c, calls, order[i]) < Joined(c, calls, order[j])
  }

  /** What one call does to the tenants in the map and to their order. */
  lemma TenantsAfter(w: Windows, c: Limits, key: string, at: int)
    requires Positive(c) && Bounded(w, c)
    ensures var n := AfterAllow(w, c, key, at);
      if key == "" || key in w.times then n.order == w.order && n.times.Keys == w.times.Keys
      else if |w.times| < c.maxTenants then n.order == w.order + [key] && n.times.Keys == w.times.Keys + {key}
      else w.order != [] && n.order == w.order[1..] + [key] && n.times.Keys == w.times.Keys - {w.order[0]} + {key}
  {
    hide Recent;
    if key != "" && key !in w.times {
      NewTenantIsAdmitted(w, c, key, at);
    }
  }

  lemma {:induction false} OrderIsOfJoining(c: Limits, calls: seq<Call>)
    requires Positive(c)
    ensures InOrderOfJoining(c, calls, After(c, calls).order)
  {
    hide AfterAllow, Bounded, InOrderOfJoining;
    if calls == [] {
      assert After(c, calls) == EMPTY;
      EmptyIsInOrder(c);
    } else {
      var before, last := calls[..|calls| - 1], calls[|calls| - 1];
      OrderIsOfJoining(c, before);
      TenantsAreBounded(c, before);
      var w, n := After(c, before), After(c, calls);
      TenantsAfter(w, c, last.key, last.at);
      HeldAreListed(w, c);
      hide After;
      var rest := if n.order == w.order || |w.times| < c.maxTenants then w.order else w.order[1..];
      RestIsInOrder(c, before, w.order, rest);
      assert forall i :: 0 <= i < |rest| ==> rest[i] in w.times;
      JoinedStay(c, calls, rest);
      if n.order != rest {
        assert n.order == rest + [last.key] && last.key in n.times && last.key !in w.times;
        NewestIsLast(c, calls, rest);
      }
    }
  }

  lemma EmptyIsInOrder(c: Limits)
    ensures InOrderOfJoining(c, [], EMPTY.order)
  {
  }

  lemma RestIsInOrder(c: Limits, calls: seq<Call>, order: seq<string>, rest: seq<string>)
    requires InOrderOfJoining(c, calls, order) && (rest == order || (order != [] && rest == order[1..]))
    ensures InOrderOfJoining(c, calls, rest)
  {
    hide Joined;
  }

  lemma JoinedStay(c: Limits, calls: seq<Call>, order: seq<string>)
    requires calls != [] && InOrderOfJoining(c, calls[..|calls| - 1], order)
    requires forall i :: 0 <= i < |order| ==> order[i] in After(c, calls[..|calls| - 1]).times
    ensures InOrderOfJoining(c, calls, order) && forall i :: 0 <= i < |order| ==> Joined(c, calls, order[i]) < |calls|
  {
    hide After;
    assert forall i :: 0 <= i < |order| ==> Joined(c, calls, order[i]) == Joined(c, calls[..|calls| - 1], order[i]);
    hide Joined;
  }

  lemma NewestIsLast(c: Limits, calls: seq<Call>, order: seq<string>)
    requires calls != [] && InOrderOfJoining(c, calls, order) && forall i :: 0 <= i < |order| ==> Joined(c, calls, order[i]) < |calls|
    requires calls[|calls| - 1].key in After(c, calls).times && calls[|calls| - 1].key !in After(c, calls[..|calls| - 1]).times
    ensures InOrderOfJoining(c, calls, order + [calls[|calls| - 1].key])
  {
    hide After;
    assert Joined(c, calls, calls[|calls| - 1].key) == |calls|;
    hide Joined;
  }

  lemma HeldAreListed(w: Windows, c: Limits)
    requires Bounded(w, c)
    ensures forall key :: key in w.times <==> key in w.order
  {
  }

  /** A tenant leaves the map only when it is full and a new one comes, and then it is the one that has been in it longest. */
  lemma LongestHeldIsEvicted(c: Limits, calls: seq<Call>, call: Call, key: string)
    requires Positive(c) && key in After(c, calls).times && key !in After(c, calls + [call]).times
    ensures call.key !in After(c, calls).times && call.key in After(c, calls + [call]).times && |After(c, calls).times| == c.maxTenants
    ensures forall other :: other in After(c, calls).times && other != key ==>
      other in After(c, calls + [call]).times && Joined(c, calls, key) < Joined(c, calls, other)
  {
    hide AfterAllow;
    assert (calls + [call])[..|calls|] == calls;
    TenantsAreBounded(c, calls);
    OrderIsOfJoining(c, calls);
    var w := After(c, calls);
    TenantsAfter(w, c, call.key, call.at);
    hide Joined, After;
    forall other | other in w.times && other != key
      ensures Joined(c, calls, key) < Joined(c, calls, other)
    {
      var j :| 0 <= j < |w.order| && w.order[j] == other;
      assert w.order[0] == key;
    }
  }

  /** An evicted tenant starts afresh: with room for one tenant, two grants fall into one window of one. */
  lemma EvictionForgets()
    ensures var c, calls := Limits(1, 10, 1), [Call("a", 0), Call("b", 1), Call("a", 2)];
      Granted(c, calls, "a") == [0, 2] && |Window(Granted(c, calls, "a"), 2, 10)| == 2 && !Kept(c, calls, "a")
  {
    hide After, AfterAllow, Admits, Recent, Granted, Kept, Window, Evicts;
    var c, calls := Limits(1, 10, 1), [Call("a", 0), Call("b", 1), Call("a", 2)];
    FirstTwoCalls();
    var second := [Call("a", 0), Call("b", 1)];
    var w2 := Windows(["b"], map["b" := [1]]);
    assert calls == second + [Call("a", 2)];
    OneMoreCall(c, second, Call("a", 2), "a");
    NewTenantIsAdmitted(w2, c, "a", 2);
    if Kept(c, calls, "a") {
      KeptBefore(c, second, Call("a", 2), "a");
    }
    TwoInWindow();
  }

  lemma KeptBefore(c: Limits, before: seq<Call>, last: Call, key: string)
    requires Kept(c, before + [last], key)
    ensures Kept(c, before, key)
    ensures Evicts(After(c, before), c, last.key, last.at) ==> After(c, before).order[0] != key
  {
    hide Evicts, After;
    assert (before + [last])[..|before|] == before;
  }

  lemma FirstTwoCalls()
    ensures var c, second := Limits(1, 10, 1), [Call("a", 0), Call("b", 1)];
      After(c, second) == Windows(["b"], map["b" := [1]]) && Granted(c, second, "a") == [0] && !Kept(c, second, "a")
  {
    hide After, AfterAllow, Admits, Recent, Granted, Kept;
    var c, w1 := Limits(1, 10, 1), Windows(["a"], map["a" := [0]]);
    var first, second := [Call("a", 0)], [Call("a", 0), Call("b", 1)];
    NoGrantsYet(c, "a");
    assert first == [] + first && second == first + [Call("b", 1)];
    OneMoreCall(c, [], Call("a", 0), "a");
    NewTenantIsAdmitted(EMPTY, c, "a", 0);
    StartsAllowed(c, EMPTY, "a", 0);
    assert After(c, first) == w1;
    OneMoreCall(c, first, Call("b", 1), "a");
    NewTenantIsAdmitted(w1, c, "b", 1);
    StartsAllowed(c, w1, "b", 1);
    assert w1.times - {"a"} == map[];
    if Kept(c, second, "a") {
      KeptBefore(c, first, Call("b", 1), "a");
    }
  }

  lemma TwoInWindow()
    ensures |Window([0, 2], 2, 10)| == 2
  {
    assert [0, 2][..1] == [0] && [0][..0] == [];
  }

  // ---------------------------------------------------------------------------------------
  // How many tenants the promise holds for
  // ---------------------------------------------------------------------------------------

  predicate CallsBy(calls: seq<Call>, keys: set<string>) {
    forall i :: 0 <= i < |calls| ==> calls[i].key in keys
  }

  /** Every tenant has at most the maximum of grants in every window of every run in which these tenants call. */
  ghost predicate LimitsAll(c: Limits, keys: set<string>) {
    forall calls, key, x :: Ordered(calls) && CallsBy(calls, keys) && key in keys ==> |Window(Granted(c, calls, key), x, c.window)| <= c.maxRequests
  }

  lemma {:induction false} TenantsAreCallers(c: Limits, calls: seq<Call>, keys: set<string>)
    requires Positive(c) && CallsBy(calls, keys)
    ensures After(c, calls).times.Keys <= keys
  {
    if calls != [] {
      TenantsAreCallers(c, calls[..|calls| - 1], keys);
      hide Recent, Admits, After;
    }
  }

  /** As many tenants as the map holds never evict one another. */
  lemma {:induction false} FewTenantsAreKept(c: Limits, calls: seq<Call>, keys: set<string>, key: string)
    requires Positive(c) && CallsBy(calls, keys) && |keys| <= c.maxTenants
    ensures Kept(c, calls, key)
  {
    hide After, Admits;
    if calls != [] {
      var before, last := calls[..|calls| - 1], calls[|calls| - 1];
      var w := After(c, before);
      FewTenantsAreKept(c, before, keys, key);
      TenantsAreCallers(c, before, keys);
      if Evicts(w, c, last.key, last.at) {
        Subset(w.times.Keys + {last.key}, keys);
      }
    }
  }

  lemma {:induction false} Subset(a: set<string>, b: set<string>)
    requires a <= b
    ensures |a| <= |b|
  {
    if a != {} {
      var x :| x in a;
      Subset(a - {x}, b - {x});
    }
  }

  /** The tenant's calls at time 0. */
  function Burst(key: string, n: nat): (r: seq<Call>)
    ensures |r| == n && forall i :: 0 <= i < n ==> r[i] == Call(key, 0)
  {
    if n == 0 then [] else Burst(key, n - 1) + [Call(key, 0)]
  }

  function Zeros(n: nat): (r: seq<int>)
    ensures |r| == n && forall i :: 0 <= i < n ==> r[i] == 0
  {
    if n == 0 then [] else Zeros(n - 1) + [0]
  }

  /** One call of each tenant at time 0. */
  function OneEach(keys: seq<string>): (r: seq<Call>)
    ensures |r| == |keys| && forall i :: 0 <= i < |r| ==> r[i] == Call(keys[i], 0)
  {
    if keys == [] then [] else OneEach(keys[..|keys| - 1]) + [Call(keys[|keys| - 1], 0)]
  }

  lemma {:induction false} AllZerosAreRecent(n: nat, window: int)
    requires window >= 1
    ensures Recent(Zeros(n), 0, window) == Zeros(n) && Window(Zeros(n), 0, window) == Zeros(n)
  {
    if n > 0 {
      AllZerosAreRecent(n - 1, window);
      assert Zeros(n)[..n - 1] == Zeros(n - 1);
    }
  }

  /** One more call of the only tenant, below the maximum, is granted. */
  lemma BurstGoesOn(c: Limits, key: string, n: nat)
    requires Positive(c) && key != "" && 0 < n < c.maxRequests
    ensures var w := Windows([key], map[key := Zeros(n)]);
      Admits(w, c, key, 0) && AfterAllow(w, c, key, 0) == Windows([key], map[key := Zeros(n + 1)])
  {
    hide Recent;
    AllZerosAreRecent(n, c.window);
    var w := Windows([key], map[key := Zeros(n)]);
    assert Times(w, key) == Zeros(n);
    assert w.times[key := Zeros(n) + [0]] == map[key := Zeros(n + 1)];
  }

  /** A burst up to the maximum is granted whole. */
  lemma {:induction false} BurstIsGranted(c: Limits, key: string, n: nat)
    requires Positive(c) && key != "" && 0 < n <= c.maxRequests
    ensures After(c, Burst(key, n)) == Windows([key], map[key := Zeros(n)]) && Granted(c, Burst(key, n), key) == Zeros(n)
  {
    hide After, Granted, AfterAllow, Admits, Evicts;
    OneMoreCall(c, Burst(key, n - 1), Call(key, 0), key);
    if n == 1 {
      NoGrantsYet(c, key);
      NewcomerJoins(c, EMPTY, key, 0);
      assert Zeros(0) + [0] == Zeros(1) == [0];
    } else {
      BurstIsGranted(c, key, n - 1);
      BurstGoesOn(c, key, n - 1);
    }
  }

  lemma NoGrantsYet(c: Limits, key: string)
    ensures After(c, []) == EMPTY && Granted(c, [], key) == []
  {
  }

  /** A new tenant finds room. */
  lemma NewcomerJoins(c: Limits, w: Windows, key: string, at: int)
    requires Positive(c) && key != "" && key !in w.times && |w.times| < c.maxTenants
    ensures Admits(w, c, key, at) && AfterAllow(w, c, key, at) == Windows(w.order + [key], w.times[key := [at]])
    ensures |w.times[key := [at]]| == |w.times| + 1 && w.times[key := [at]].Keys == w.times.Keys + {key}
  {
    hide Recent;
    NewTenantIsAdmitted(w, c, key, at);
    StartsAllowed(c, w, key, at);
    var more := w.times[key := [at]];
    assert more.Keys == w.times.Keys + {key};
    assert |more| == |more.Keys| && |w.times| == |w.times.Keys|;
  }

  /** A new tenant takes the place of the first one. */
  lemma NewcomerEvicts(c: Limits, w: Windows, key: string, at: int)
    requires Positive(c) && key != "" && key !in w.times && |w.times| >= c.maxTenants && w.order != [] && w.order[0] != key
    ensures w.order[0] !in AfterAllow(w, c, key, at).times
  {
    hide Recent;
    NewTenantIsAdmitted(w, c, key, at);
    StartsAllowed(c, w, key, at);
  }

  ghost predicate FreshTenants(first: string, others: seq<string>) {
    && (forall i :: 0 <= i < |others| ==> others[i] != first && others[i] != "")
    && forall i, j :: 0 <= i < j < |others| ==> others[i] != others[j]
  }

  /** The map holds these tenants and no other. */
  ghost predicate Holds(w: Windows, tenants: seq<string>) {
    w.order == tenants && |w.times| == |tenants| && forall key :: key in w.times ==> key in tenants
  }

  lemma OneMoreIsHeld(c: Limits, w: Windows, tenants: seq<string>, key: string)
    requires Positive(c) && Holds(w, tenants) && key != "" && key !in tenants && |tenants| < c.maxTenants
    ensures Holds(AfterAllow(w, c, key, 0), tenants + [key])
  {
    hide AfterAllow, Admits;
    NewcomerJoins(c, w, key, 0);
  }

  /** New tenants fill the map behind the first one. */
  lemma {:induction false} OthersFillTheMap(c: Limits, first: string, n: nat, others: seq<string>)
    requires Positive(c) && first != "" && 0 < n <= c.maxRequests && FreshTenants(first, others) && |others| < c.maxTenants
    ensures Holds(After(c, Burst(first, n) + OneEach(others)), [first] + others)
    ensures Granted(c, Burst(first, n) + OneEach(others), first) == Zeros(n)
  {
    hide After, Granted, AfterAllow, Admits, Positive, Holds;
    if others == [] {
      BurstIsGranted(c, first, n);
      assert Burst(first, n) + OneEach(others) == Burst(first, n) && [first] + others == [first];
      assert Holds(Windows([first], map[first := Zeros(n)]), [first]) by { OnlyOne(first, Zeros(n)); }
    } else {
      var k := |others| - 1;
      var calls, last := Burst(first, n) + OneEach(others[..k]), others[k];
      OthersFillTheMap(c, first, n, others[..k]);
      assert Burst(first, n) + OneEach(others) == calls + [Call(last, 0)];
      OneMoreCall(c, calls, Call(last, 0), first);
      OneMoreIsHeld(c, After(c, calls), [first] + others[..k], last);
      assert ([first] + others[..k]) + [last] == [first] + others;
    }
  }

  lemma OnlyOne(key: string, times: seq<int>)
    ensures Holds(Windows([key], map[key := times]), [key])
  {
  }

  /** The run in which the first tenant is evicted by as many others as the map holds, and comes back at once. */
  function Overrun(c: Limits, first: string, others: seq<string>): seq<Call>
    requires Positive(c)
  {
    Burst(first, c.maxRequests) + OneEach(others) + [Call(first, 0)]
  }

  lemma OverrunExceeds(c: Limits, first: string, others: seq<string>)
    requires Positive(c) && first != "" && FreshTenants(first, others) && |others| == c.maxTenants
    ensures Granted(c, Overrun(c, first, others), first) == Zeros(c.maxRequests + 1)
  {
    hide After, Granted, AfterAllow, Admits;
    var n, k := c.maxRequests, |others| - 1;
    var filled, last := Burst(first, n) + OneEach(others[..k]), others[k];
    OthersFillTheMap(c, first, n, others[..k]);
    var full := filled + [Call(last, 0)];
    assert Burst(first, n) + OneEach(others) == full;
    OneMoreCall(c, filled, Call(last, 0), first);
    NewcomerEvicts(c, After(c, filled), last, 0);
    assert After(c, filled).order[0] == first;
    NewTenantIsAdmitted(After(c, full), c, first, 0);
    OneMoreCall(c, full, Call(first, 0), first);
    assert Overrun(c, first, others) == full + [Call(first, 0)];
  }

  lemma {:induction false} SomeOf(keys: set<string>, n: nat) returns (r: seq<string>)
    requires n <= |keys|
    ensures |r| == n && (forall i :: 0 <= i < n ==> r[i] in keys) && forall i, j :: 0 <= i < j < n ==> r[i] != r[j]
  {
    if n == 0 {
      r := [];
    } else {
      var x :| x in keys;
      var rest := SomeOf(keys - {x}, n - 1);
      r := [x] + rest;
    }
  }

  lemma TooManyTenantsOverrun(c: Limits, keys: set<string>)
    requires Positive(c) && "" !in keys && |keys| > c.maxTenants
    ensures !LimitsAll(c, keys)
  {
    hide Granted, Window, FreshTenants;
    var first :| first in keys;
    var others := SomeOf(keys - {first}, c.maxTenants);
    assert FreshTenants(first, others) by {
      OthersAreFresh(keys, first, others);
    }
    OverrunExceeds(c, first, others);
    AllZerosAreRecent(c.maxRequests + 1, c.window);
    assert Ordered(Overrun(c, first, others)) && CallsBy(Overrun(c, first, others), keys);
    assert |Window(Granted(c, Overrun(c, first, others), first), 0, c.window)| == c.maxRequests + 1;
  }

  lemma OthersAreFresh(keys: set<string>, first: string, others: seq<string>)
    requires "" !in keys && (forall i :: 0 <= i < |others| ==> others[i] in keys - {first}) && forall i, j :: 0 <= i < j < |others| ==> others[i] != others[j]
    ensures FreshTenants(first, others)
  {
  }

  /** The limiter keeps its promise to a set of tenants, whatever they do, exactly when the map holds them all. */
  lemma LimitsAllIffRoom(c: Limits, keys: set<string>)
    requires Positive(c) && "" !in keys
    ensures LimitsAll(c, keys) <==> |keys| <= c.maxTenants
  {
    hide Granted, Window, Kept;
    if |keys| <= c.maxTenants {
      forall calls, key, x | Ordered(calls) && CallsBy(calls, keys) && key in keys
        ensures |Window(Granted(c, calls, key), x, c.window)| <= c.maxRequests
      {
        FewTenantsAreKept(c, calls, keys, key);
        AtMostMaxInEveryWindow(c, calls, key, x);
      }
    } else {
      TooManyTenantsOverrun(c, keys);
    }
  }
}
