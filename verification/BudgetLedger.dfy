/**
 The budget reservation ledger: admission against a key's budget, settlement of reservations,
 reaping of expired ones and the operator's halt, on values and as the object that keeps them.
 Amounts are reals; a reservation's id is its place in the list of reservations.
 */
module BudgetLedger {
  import opened Results
  import opened Strings

  datatype Budget = Budget(limit: Option<real>, reserved: real, spent: real)

  datatype Reservation = Reservation(key: string, estimated: real, expiresAt: int, settled: bool, actual: real)

  datatype Ledger = Ledger(budgets: map<string, Budget>, reservations: seq<Reservation>, halts: map<string, string>)

  datatype Error = KeyInvalid | AmountInvalid | TtlInvalid | Halted(reason: string) | LimitChanged | Exhausted | ReasonRequired | BudgetMissing

  const EMPTY: Ledger := Ledger(map[], [], map[])

  predicate ValidKey(key: string) {
    !Blank(key) && |key| <= 256
  }

  function BudgetOf(l: Ledger, key: string, limit: Option<real>): Budget {
    if key in l.budgets then l.budgets[key] else Budget(limit, 0.0, 0.0)
  }

  /** The sum would reach the limit. */
  predicate Reaches(limit: Option<real>, amount: real) {
    limit.Some? && amount >= limit.value
  }

  function Reserve(l: Ledger, key: string, limit: Option<real>, estimated: real, ttl: int, now: int): (r: (Ledger, Result<nat, Error>))
    ensures r.1.Err? ==> r.0 == l
  {
    if !ValidKey(key) then (l, Err(KeyInvalid))
    else if estimated < 0.0 then (l, Err(AmountInvalid))
    else if ttl < 1 then (l, Err(TtlInvalid))
    else if key in l.halts then (l, Err(Halted(l.halts[key])))
    else
      var current := BudgetOf(l, key, limit);
      if current.limit != limit then (l, Err(LimitChanged))
      else if Reaches(limit, current.spent + current.reserved + estimated) then (l, Err(Exhausted))
      else
        (l.(budgets := l.budgets[key := current.(reserved := current.reserved + estimated)],
            reservations := l.reservations + [Reservation(key, estimated, now + ttl, false, 0.0)]),
         Ok(|l.reservations|))
  }

  function Clamped(amount: real): real {
    if amount > 0.0 then amount else 0.0
  }

  function Settle(l: Ledger, id: nat, actual: real): (r: (Ledger, Result<(), Error>))
    ensures r.1.Err? ==> r.0 == l
  {
    if actual < 0.0 then (l, Err(AmountInvalid))
    else if id >= |l.reservations| || l.reservations[id].settled then (l, Ok(()))
    else
      var r := l.reservations[id];
      if r.key !in l.budgets then (l, Err(BudgetMissing))
      else
        var b := l.budgets[r.key];
        (l.(budgets := l.budgets[r.key := b.(reserved := Clamped(b.reserved - r.estimated), spent := b.spent + actual)],
            reservations := l.reservations[id := r.(settled := true, actual := actual)]),
         Ok(()))
  }

  predicate Expired(r: Reservation, now: int) {
    !r.settled && r.expiresAt <= now
  }

  /** One turn of the reaper's loop. */
  function ReapOne(l: Ledger, id: nat, now: int): Ledger {
    if id < |l.reservations| && Expired(l.reservations[id], now) then Settle(l, id, 0.0).0 else l
  }

  /** The reaper's loop over the first n reservations. */
  function Reap(l: Ledger, n: nat, now: int): Ledger {
    if n == 0 then l else ReapOne(Reap(l, n - 1, now), n - 1, now)
  }

  function ExpiredCount(reservations: seq<Reservation>, now: int): nat {
    if reservations == [] then 0
    else ExpiredCount(reservations[..|reservations| - 1], now) + if Expired(reservations[|reservations| - 1], now) then 1 else 0
  }

  function Halt(l: Ledger, key: string, reason: string): (r: (Ledger, Result<(), Error>))
    ensures r.1.Err? ==> r.0 == l
  {
    if !ValidKey(key) then (l, Err(KeyInvalid))
    else if Blank(reason) then (l, Err(ReasonRequired))
    else (l.(halts := l.halts[key := Truncate(Trim(reason), 200)]), Ok(()))
  }

  /** What is spent and reserved of the key so far. */
  function CommittedOf(l: Ledger, key: string): real {
    if key in l.budgets then l.budgets[key].spent + l.budgets[key].reserved else 0.0
  }

  /** An amount can be settled exactly if it is not negative and an open reservation's key has a budget; only an open one is changed. */
  lemma SettleSucceedsIff(l: Ledger, id: nat, actual: real)
    ensures Settle(l, id, actual).1.Ok? <==>
      actual >= 0.0 && (id < |l.reservations| && !l.reservations[id].settled ==> l.reservations[id].key in l.budgets)
    ensures Settle(l, id, actual).1.Ok? ==>
      var n := Settle(l, id, actual).0;
      if id < |l.reservations| && !l.reservations[id].settled then
        && |n.reservations| == |l.reservations| && n.halts == l.halts && n.budgets.Keys == l.budgets.Keys
        && n.reservations[id] == l.reservations[id].(settled := true, actual := actual)
        && forall j :: 0 <= j < |l.reservations| && j != id ==> n.reservations[j] == l.reservations[j]
      else n == l
  {
  }

  /**
   A reservation is granted exactly for a valid key that is not halted, an amount that is not
   negative, a lasting time, the limit that the key has had, and if that stays below it.
   */
  lemma ReserveSucceedsIff(l: Ledger, key: string, limit: Option<real>, estimated: real, ttl: int, now: int)
    ensures Reserve(l, key, limit, estimated, ttl, now).1.Ok? <==>
      && !Blank(key) && |key| <= 256 && key !in l.halts && estimated >= 0.0 && ttl > 0
      && (key in l.budgets ==> l.budgets[key].limit == limit)
      && (limit.Some? ==> CommittedOf(l, key) + estimated < limit.value)
    ensures Reserve(l, key, limit, estimated, ttl, now).1.Ok? ==>
      var (n, r) := Reserve(l, key, limit, estimated, ttl, now);
      && r.value == |l.reservations| && |n.reservations| == |l.reservations| + 1 && n.reservations[..|l.reservations|] == l.reservations
      && n.reservations[r.value] == Reservation(key, estimated, now + ttl, false, 0.0)
      && key in n.budgets && CommittedOf(n, key) == CommittedOf(l, key) + estimated && n.budgets[key].limit == limit
      && (forall k :: k in l.budgets && k != key ==> k in n.budgets && n.budgets[k] == l.budgets[k]) && n.halts == l.halts
  {
    hide Blank;
  }

  // ---------------------------------------------------------------------------------------
  // The books balance
  // ---------------------------------------------------------------------------------------

  /** The estimates of the key's reservations that are not settled. */
  function OpenEstimates(reservations: seq<Reservation>, key: string): real {
    if reservations == [] then 0.0
    else
      var r := reservations[|reservations| - 1];
      OpenEstimates(reservations[..|reservations| - 1], key) + if r.key == key && !r.settled then r.estimated else 0.0
  }

  /** The actual amounts of the key's settled reservations. */
  function SettledActuals(reservations: seq<Reservation>, key: string): real {
    if reservations == [] then 0.0
    else
      var r := reservations[|reservations| - 1];
      SettledActuals(reservations[..|reservations| - 1], key) + if r.key == key && r.settled then r.actual else 0.0
  }

  predicate ReservationOk(r: Reservation, keys: set<string>) {
    r.key in keys && r.estimated >= 0.0 && r.actual >= 0.0
  }

  predicate Balances(b: Budget, reservations: seq<Reservation>, key: string) {
    b.reserved == OpenEstimates(reservations, key) && b.spent == SettledActuals(reservations, key)
  }

  ghost predicate Inv(l: Ledger) {
    && (forall i :: 0 <= i < |l.reservations| ==> ReservationOk(l.reservations[i], l.budgets.Keys))
    && forall key :: key in l.budgets ==> Balances(l.budgets[key], l.reservations, key)
  }

  /** The committed amount of every key with a limit is below it. */
  ghost predicate BelowLimits(l: Ledger) {
    forall key :: key in l.budgets ==> !Reaches(l.budgets[key].limit, l.budgets[key].spent + l.budgets[key].reserved)
  }

  lemma SumsAppend(reservations: seq<Reservation>, r: Reservation, key: string)
    ensures OpenEstimates(reservations + [r], key) == OpenEstimates(reservations, key) + if r.key == key && !r.settled then r.estimated else 0.0
    ensures SettledActuals(reservations + [r], key) == SettledActuals(reservations, key) + if r.key == key && r.settled then r.actual else 0.0
  {
    assert (reservations + [r])[..|reservations|] == reservations;
  }

  lemma {:induction false} SumsUpdate(reservations: seq<Reservation>, id: nat, actual: real, key: string)
    requires id < |reservations| && !reservations[id].settled
    ensures var r := reservations[id];
      var after := reservations[id := r.(settled := true, actual := actual)];
      && OpenEstimates(after, key) == OpenEstimates(reservations, key) - (if r.key == key then r.estimated else 0.0)
      && SettledActuals(after, key) == SettledActuals(reservations, key) + (if r.key == key then actual else 0.0)
  {
    var r, n := reservations[id], |reservations| - 1;
    var after := reservations[id := r.(settled := true, actual := actual)];
    if id < n {
      SumsUpdate(reservations[..n], id, actual, key);
      assert after[..n] == reservations[..n][id := r.(settled := true, actual := actual)];
    } else {
      assert after[..n] == reservations[..n];
    }
  }

  lemma {:induction false} NoReservations(reservations: seq<Reservation>, key: string)
    requires forall i :: 0 <= i < |reservations| ==> reservations[i].key != key
    ensures OpenEstimates(reservations, key) == 0.0 && SettledActuals(reservations, key) == 0.0
  {
    if reservations != [] {
      NoReservations(reservations[..|reservations| - 1], key);
    }
  }

  lemma {:induction false} SumsNonNegative(reservations: seq<Reservation>, key: string, keys: set<string>)
    requires forall i :: 0 <= i < |reservations| ==> ReservationOk(reservations[i], keys)
    ensures OpenEstimates(reservations, key) >= 0.0 && SettledActuals(reservations, key) >= 0.0
  {
    if reservations != [] {
      SumsNonNegative(reservations[..|reservations| - 1], key, keys);
    }
  }

  lemma {:induction false} OneOfOpen(reservations: seq<Reservation>, id: nat, keys: set<string>)
    requires forall i :: 0 <= i < |reservations| ==> ReservationOk(reservations[i], keys)
    requires id < |reservations| && !reservations[id].settled
    ensures reservations[id].estimated <= OpenEstimates(reservations, reservations[id].key)
  {
    var n := |reservations| - 1;
    if id < n {
      OneOfOpen(reservations[..n], id, keys);
    } else {
      SumsNonNegative(reservations[..n], reservations[id].key, keys);
    }
  }

  lemma ReserveKeeps(l: Ledger, key: string, limit: Option<real>, estimated: real, ttl: int, now: int)
    requires Inv(l)
    ensures Inv(Reserve(l, key, limit, estimated, ttl, now).0)
    ensures BelowLimits(l) ==> BelowLimits(Reserve(l, key, limit, estimated, ttl, now).0)
  {
    hide Blank, Truncate, OpenEstimates, SettledActuals;
    var (t, r) := Reserve(l, key, limit, estimated, ttl, now);
    if r.Ok? {
      if key !in l.budgets {
        NoReservations(l.reservations, key);
      }
      forall k | k in t.budgets
        ensures Balances(t.budgets[k], t.reservations, k)
      {
        SumsAppend(l.reservations, t.reservations[|l.reservations|], k);
      }
    }
  }

  /** The clamp never changes what is subtracted. */
  lemma ClampNeverFires(l: Ledger, id: nat)
    requires Inv(l) && id < |l.reservations| && !l.reservations[id].settled
    ensures l.reservations[id].key in l.budgets
    ensures var b := l.budgets[l.reservations[id].key]; Clamped(b.reserved - l.reservations[id].estimated) == b.reserved - l.reservations[id].estimated
  {
    hide OpenEstimates, SettledActuals;
    assert ReservationOk(l.reservations[id], l.budgets.Keys);
    assert Balances(l.budgets[l.reservations[id].key], l.reservations, l.reservations[id].key);
    OneOfOpen(l.reservations, id, l.budgets.Keys);
  }

  lemma SettleKeeps(l: Ledger, id: nat, actual: real)
    requires Inv(l)
    ensures Inv(Settle(l, id, actual).0)
  {
    hide OpenEstimates, SettledActuals, Clamped;
    var (t, r) := Settle(l, id, actual);
    if actual >= 0.0 && id < |l.reservations| && !l.reservations[id].settled {
      ClampNeverFires(l, id);
      forall k | k in t.budgets
        ensures Balances(t.budgets[k], t.reservations, k)
      {
        SumsUpdate(l.reservations, id, actual, k);
      }
    }
  }

  function ReservedOf(l: Ledger, key: string): real {
    if key in l.budgets then l.budgets[key].reserved else 0.0
  }

  function SpentOf(l: Ledger, key: string): real {
    if key in l.budgets then l.budgets[key].spent else 0.0
  }

  /** No other key's books and no halt changed. */
  predicate OthersAreSame(l: Ledger, n: Ledger, key: string) {
    && n.halts == l.halts && n.budgets.Keys == l.budgets.Keys + {key}
    && forall k :: k in l.budgets && k != key ==> n.budgets[k] == l.budgets[k]
  }

  /** A reservation holds its estimate on its key alone; its settlement takes that back and books the amount. */
  lemma ReservedAndSettled(l: Ledger, key: string, limit: Option<real>, estimated: real, ttl: int, now: int, amount: real)
    requires Inv(l) && Reserve(l, key, limit, estimated, ttl, now).1.Ok?
    ensures var (held, r) := Reserve(l, key, limit, estimated, ttl, now);
      && ReservedOf(held, key) == ReservedOf(l, key) + estimated && SpentOf(held, key) == SpentOf(l, key) && OthersAreSame(l, held, key)
      && (amount >= 0.0 ==>
          var n := Settle(held, r.value, amount).0;
          ReservedOf(n, key) == ReservedOf(l, key) && SpentOf(n, key) == SpentOf(l, key) + amount && OthersAreSame(l, n, key))
  {
    hide Clamped, Blank, Reaches, Inv;
    var (held, r) := Reserve(l, key, limit, estimated, ttl, now);
    ReserveKeeps(l, key, limit, estimated, ttl, now);
    ClampNeverFires(held, r.value);
  }

  /** The settlement of an open reservation keeps its key below the limit exactly when the overrun fits in what is left. */
  lemma SettleStaysBelowIff(l: Ledger, id: nat, actual: real)
    requires Inv(l) && BelowLimits(l) && actual >= 0.0 && id < |l.reservations| && !l.reservations[id].settled
    ensures l.reservations[id].key in l.budgets
    ensures var b := l.budgets[l.reservations[id].key];
      BelowLimits(Settle(l, id, actual).0) <==> !Reaches(b.limit, b.spent + b.reserved + (actual - l.reservations[id].estimated))
  {
    hide OpenEstimates, SettledActuals, Clamped;
    ClampNeverFires(l, id);
    var key, t := l.reservations[id].key, Settle(l, id, actual).0;
    assert t.budgets[key].spent + t.budgets[key].reserved == l.budgets[key].spent + l.budgets[key].reserved + (actual - l.reservations[id].estimated);
    assert forall k :: k in l.budgets && k != key ==> t.budgets[k] == l.budgets[k];
    hide Settle, Inv;
  }

  lemma ReapOneKeeps(l: Ledger, id: nat, now: int)
    requires Inv(l)
    ensures Inv(ReapOne(l, id, now))
    ensures BelowLimits(l) ==> BelowLimits(ReapOne(l, id, now))
  {
    hide BelowLimits, Settle, Reaches, OpenEstimates, SettledActuals;
    if id < |l.reservations| && Expired(l.reservations[id], now) {
      SettleKeeps(l, id, 0.0);
      if BelowLimits(l) {
        SettleWithinEstimate(l, id, 0.0);
      }
    }
  }

  lemma SettleWithinEstimate(l: Ledger, id: nat, actual: real)
    requires Inv(l) && BelowLimits(l)
    requires id < |l.reservations| ==> l.reservations[id].settled || actual <= l.reservations[id].estimated
    ensures BelowLimits(Settle(l, id, actual).0)
  {
    if actual >= 0.0 && id < |l.reservations| && !l.reservations[id].settled {
      SettleStaysBelowIff(l, id, actual);
    }
  }

  /** A reservation after the reaper was there: closed for nothing if it was open and its time had come. */
  function Reaped(r: Reservation, now: int): Reservation {
    if !r.settled && r.expiresAt <= now then r.(settled := true, actual := 0.0) else r
  }

  /** The reaper closes exactly the expired ones among those it has come to, and spends nothing. */
  lemma {:induction false} ReapClosesExpired(l: Ledger, n: nat, now: int)
    requires Inv(l) && n <= |l.reservations|
    ensures var t := Reap(l, n, now);
      && Inv(t) && |t.reservations| == |l.reservations| && t.halts == l.halts && t.budgets.Keys == l.budgets.Keys
      && (forall i :: 0 <= i < |l.reservations| ==> t.reservations[i] == if i < n then Reaped(l.reservations[i], now) else l.reservations[i])
      && forall key :: key in l.budgets ==> t.budgets[key].spent == l.budgets[key].spent && t.budgets[key].limit == l.budgets[key].limit
  {
    hide Inv, Clamped;
    if n > 0 {
      ReapClosesExpired(l, n - 1, now);
      var before := Reap(l, n - 1, now);
      ReapOneKeeps(before, n - 1, now);
      assert before.reservations[n - 1] == l.reservations[n - 1];
      if Expired(before.reservations[n - 1], now) {
        ClampNeverFires(before, n - 1);
      }
    }
  }

  // ---------------------------------------------------------------------------------------
  // Any sequence of calls
  // ---------------------------------------------------------------------------------------

  datatype Call =
    | ReserveCall(key: string, limit: Option<real>, estimated: real, ttl: int, now: int)
    | SettleCall(id: nat, actual: real)
    | ReapCall(id: nat, now: int)
    | HaltCall(key: string, reason: string)

  function Apply(l: Ledger, c: Call): Ledger {
    match c
    case ReserveCall(key, limit, estimated, ttl, now) => Reserve(l, key, limit, estimated, ttl, now).0
    case SettleCall(id, actual) => Settle(l, id, actual).0
    case ReapCall(id, now) => ReapOne(l, id, now)
    case HaltCall(key, reason) => Halt(l, key, reason).0
  }

  function ApplyAll(l: Ledger, calls: seq<Call>): Ledger {
    if calls == [] then l else Apply(ApplyAll(l, calls[..|calls| - 1]), calls[|calls| - 1])
  }

  /** No settlement asks for more than its reservation's estimate. */
  predicate WithinEstimate(l: Ledger, c: Call) {
    c.SettleCall? && c.id < |l.reservations| && !l.reservations[c.id].settled ==> c.actual <= l.reservations[c.id].estimated
  }

  ghost predicate AllWithinEstimates(calls: seq<Call>) {
    forall i :: 0 <= i < |calls| ==> WithinEstimate(ApplyAll(EMPTY, calls[..i]), calls[i])
  }

  lemma ApplyKeeps(l: Ledger, c: Call)
    requires Inv(l)
    ensures Inv(Apply(l, c)) && (BelowLimits(l) && WithinEstimate(l, c) ==> BelowLimits(Apply(l, c)))
  {
    hide Reserve, Settle, ReapOne, OpenEstimates, SettledActuals, Blank, Trim, Reaches;
    match c
    case ReserveCall(key, limit, estimated, ttl, now) => ReserveKeeps(l, key, limit, estimated, ttl, now);
    case SettleCall(id, actual) =>
      SettleKeeps(l, id, actual);
      if BelowLimits(l) && WithinEstimate(l, c) {
        SettleWithinEstimate(l, id, actual);
      }
    case ReapCall(id, now) => ReapOneKeeps(l, id, now);
    case HaltCall(key, reason) =>
  }

  /** After any calls the books balance, and when no settlement overruns its estimate every limited key is below its limit. */
  lemma {:induction false} BooksAlwaysBalance(calls: seq<Call>)
    ensures Inv(ApplyAll(EMPTY, calls))
    ensures AllWithinEstimates(calls) ==> BelowLimits(ApplyAll(EMPTY, calls))
  {
    hide Inv, BelowLimits, Apply, WithinEstimate;
    if calls == [] {
      EmptyBalances();
    } else {
      var n := |calls| - 1;
      BooksAlwaysBalance(calls[..n]);
      ApplyKeeps(ApplyAll(EMPTY, calls[..n]), calls[n]);
      assert forall i :: 0 <= i < n ==> calls[..n][..i] == calls[..i];
    }
  }

  lemma EmptyBalances()
    ensures Inv(EMPTY) && BelowLimits(EMPTY)
  {
  }

  /** A settled reservation keeps its amount, a key keeps its limit and an halted key its halt, through any later calls. */
  lemma {:induction false} SettledForGood(l: Ledger, calls: seq<Call>)
    ensures var t := ApplyAll(l, calls);
      && |l.reservations| <= |t.reservations|
      && (forall id :: 0 <= id < |l.reservations| && l.reservations[id].settled ==> t.reservations[id] == l.reservations[id])
      && (forall key :: key in l.budgets ==> key in t.budgets && t.budgets[key].limit == l.budgets[key].limit)
      && forall key :: key in l.halts ==> key in t.halts
  {
    if calls != [] {
      SettledForGood(l, calls[..|calls| - 1]);
      hide Blank, Trim, Truncate, ValidKey, Reaches, Clamped;
    }
  }

  // ---------------------------------------------------------------------------------------
  // The object
  // ---------------------------------------------------------------------------------------

  class MemoryBudgetLedger {
    var budgets: map<string, Budget>
    var reservations: seq<Reservation>
    var halts: map<string, string>

    function Contents(): Ledger
      reads this
    {
      Ledger(budgets, reservations, halts)
    }

    constructor ()
      ensures Contents() == EMPTY
    {
      budgets, reservations, halts := map[], [], map[];
    }

    method DoReserve(key: string, limit: Option<real>, estimated: real, ttl: int, now: int) returns (r: Result<nat, Error>)
      modifies this
      ensures (Contents(), r) == Reserve(old(Contents()), key, limit, estimated, ttl, now)
    {
      if !ValidKey(key) {
        return Err(KeyInvalid);
      }
      if estimated < 0.0 {
        return Err(AmountInvalid);
      }
      if ttl < 1 {
        return Err(TtlInvalid);
      }
      if key in halts {
        return Err(Halted(halts[key]));
      }
      var current := if key in budgets then budgets[key] else Budget(limit, 0.0, 0.0);
      if current.limit != limit && key in budgets {
        return Err(LimitChanged);
      }
      if limit.Some? && current.spent + current.reserved + estimated >= limit.value {
        return Err(Exhausted);
      }
      current := current.(limit := limit, reserved := current.reserved + estimated);
      budgets := budgets[key := current];
      var id := |reservations|;
      reservations := reservations + [Reservation(key, estimated, now + ttl, false, 0.0)];
      return Ok(id);
    }

    method DoSettle(id: nat, actual: real) returns (r: Result<(), Error>)
      modifies this
      ensures (Contents(), r) == Settle(old(Contents()), id, actual)
    {
      if actual < 0.0 {
        return Err(AmountInvalid);
      }
      if id >= |reservations| || reservations[id].settled {
        return Ok(());
      }
      var reservation := reservations[id];
      if reservation.key !in budgets {
        return Err(BudgetMissing);
      }
      var budget := budgets[reservation.key];
      var left := budget.reserved - reservation.estimated;
      budget := budget.(reserved := if left > 0.0 then left else 0.0, spent := budget.spent + actual);
      budgets := budgets[reservation.key := budget];
      reservations := reservations[id := reservation.(settled := true, actual := actual)];
      return Ok(());
    }

    method DoReapExpired(now: int) returns (count: nat)
      requires Inv(Contents())
      modifies this
      ensures Contents() == Reap(old(Contents()), |old(reservations)|, now)
      ensures Inv(Contents()) && count == ExpiredCount(old(reservations), now)
      ensures forall i :: 0 <= i < |reservations| ==> !Expired(reservations[i], now)
    {
      hide Inv, Settle, OpenEstimates, SettledActuals, Clamped;
      count := 0;
      ghost var was := Contents();
      for id := 0 to |reservations|
        invariant Contents() == Reap(was, id, now) && Inv(Contents()) && |reservations| == |was.reservations|
        invariant count == ExpiredCount(was.reservations[..id], now)
        invariant forall i :: id <= i < |reservations| ==> reservations[i] == was.reservations[i]
        invariant forall i :: 0 <= i < id ==> !Expired(reservations[i], now)
      {
        assert was.reservations[..id + 1][..id] == was.reservations[..id];
        ReapOneKeeps(Contents(), id, now);
        if !reservations[id].settled && reservations[id].expiresAt <= now {
          SettleMarks(Contents(), id);
          var r := DoSettle(id, 0.0);
          count := count + 1;
        }
      }
      assert was.reservations[..|reservations|] == was.reservations;
    }

    method DoHalt(key: string, reason: string) returns (r: Result<(), Error>)
      modifies this
      ensures (Contents(), r) == Halt(old(Contents()), key, reason)
    {
      if !ValidKey(key) {
        return Err(KeyInvalid);
      }
      var normalized := Truncate(Trim(reason), 200);
      if normalized == "" {
        return Err(ReasonRequired);
      }
      halts := halts[key := normalized];
      return Ok(());
    }
  }

  lemma SettleMarks(l: Ledger, id: nat)
    requires Inv(l) && id < |l.reservations| && !l.reservations[id].settled
    ensures Settle(l, id, 0.0).1.Ok?
    ensures Settle(l, id, 0.0).0.reservations == l.reservations[id := l.reservations[id].(settled := true, actual := 0.0)]
  {
    ClampNeverFires(l, id);
  }
}
