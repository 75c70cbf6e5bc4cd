/** Part refunds rule out cancelling, over whole runs: what is refunded never sinks, and a cancellation refunds all. */
module CommerceRefunds {
  import opened Results
  import opened Commerce
  import opened CommerceInvariant
  import opened CommerceRuns
  import opened CommerceRetries

  ghost predicate RefundBooked(s: State, e: RefundEntry) {
    e.orderId in s.payments && e.amount.amount <= s.payments[e.orderId].refundedAmount.amount
  }

  ghost predicate CancellationBooked(s: State, e: CancellationEntry) {
    e.orderId in s.payments && s.payments[e.orderId].amount.amount <= s.payments[e.orderId].refundedAmount.amount
  }

  /** No payment shows less refunded than any of its refunds, and a cancelled one all. */
  ghost predicate Booked(s: State) {
    && (forall id :: id in s.payments ==> 0 <= s.payments[id].refundedAmount.amount)
    && (forall k :: k in s.refundEntries ==> RefundBooked(s, s.refundEntries[k]))
    && (forall k :: k in s.cancellations ==> CancellationBooked(s, s.cancellations[k]))
  }

  lemma NothingBooked()
    ensures Booked(EMPTY)
  {
  }

  /** What is booked stays so when payments only move on. */
  lemma BookedLater(s: State, t: State)
    requires Booked(s) && PaymentsLater(s, t)
    ensures forall id :: id in s.payments ==> id in t.payments && 0 <= t.payments[id].refundedAmount.amount
    ensures forall k :: k in s.refundEntries ==> RefundBooked(t, s.refundEntries[k])
    ensures forall k :: k in s.cancellations ==> CancellationBooked(t, s.cancellations[k])
  {
    forall k | k in s.refundEntries
      ensures RefundBooked(t, s.refundEntries[k])
    {
      assert RefundBooked(s, s.refundEntries[k]);
    }
    forall k | k in s.cancellations
      ensures CancellationBooked(t, s.cancellations[k])
    {
      assert CancellationBooked(s, s.cancellations[k]);
    }
  }

  lemma RefundKeepsBooked(s: State, who: Identity, orderId: Id, amount: Money, key: string)
    requires Tables(s) && Booked(s)
    ensures Booked(RefundOrder(s, who, orderId, amount, key).0)
  {
    hide Tables, CommitRefund, SameCurrency, ScopedKey, RefundBooked, CancellationBooked, PaymentsLater, OrdersLater, CartsLater;
    var k := ScopedKey(who.tenant, key);
    if RefundOrder(s, who, orderId, amount, key).1.Ok? && k !in s.refundEntries {
      var t := RefundOrder(s, who, orderId, amount, key).0;
      RefundIsReady(s, who, orderId, amount, key);
      RefundIsLater(s, who, orderId, amount, key);
      BookedLater(s, t);
      RefundTouches(s, orderId, amount, k);
    }
  }

  lemma RefundTouches(s: State, orderId: Id, amount: Money, key: string)
    requires Booked(s) && ReadyToRefund(s, orderId, amount, key)
    ensures var t := CommitRefund(s, orderId, amount, key).0;
      && t.payments.Keys == s.payments.Keys && t.cancellations == s.cancellations
      && key in t.refundEntries && t.refundEntries == s.refundEntries[key := t.refundEntries[key]]
      && t.refundEntries[key].orderId == orderId && t.refundEntries[key].amount == amount && RefundBooked(t, t.refundEntries[key])
      && t.payments[orderId].amount == s.payments[orderId].amount
  {
    hide SameCurrency, CancellationBooked;
  }

  lemma CancelKeepsBooked(s: State, who: Identity, orderId: Id, reason: string, key: string)
    requires Tables(s) && Booked(s)
    ensures Booked(Cancel(s, who, orderId, reason, key).0)
  {
    hide Tables, RefundOrder, ScopedKey, RefundBooked;
    if Cancel(s, who, orderId, reason, key).1.Ok? && ScopedKey(who.tenant, key) !in s.cancellations {
      var amount := s.payments[orderId].amount;
      var (t, r) := RefundOrder(s, who, orderId, amount, key + ":refund");
      RefundKeepsBooked(s, who, orderId, amount, key + ":refund");
      FullRefundIsBooked(s, who, orderId, key + ":refund");
      CancellationTouches(t, orderId, reason, ScopedKey(who.tenant, key), r.value);
    }
  }

  /** A refund of the whole amount, fresh or repeated, leaves at least that refunded. */
  lemma FullRefundIsBooked(s: State, who: Identity, orderId: Id, key: string)
    requires Tables(s) && Booked(s) && orderId in s.payments && RefundOrder(s, who, orderId, s.payments[orderId].amount, key).1.Ok?
    ensures var t := RefundOrder(s, who, orderId, s.payments[orderId].amount, key).0;
      orderId in t.payments && t.payments[orderId].amount.amount <= t.payments[orderId].refundedAmount.amount
  {
    hide Tables, CommitRefund, SameCurrency, ScopedKey, CancellationBooked;
    var k, amount := ScopedKey(who.tenant, key), s.payments[orderId].amount;
    if k in s.refundEntries {
      assert RefundBooked(s, s.refundEntries[k]);
    } else {
      RefundIsReady(s, who, orderId, amount, key);
      RefundTouches(s, orderId, amount, k);
    }
  }

  lemma CancellationTouches(s: State, orderId: Id, reason: string, key: string, r: RefundResult)
    requires Booked(s) && orderId in s.payments && s.payments[orderId].amount.amount <= s.payments[orderId].refundedAmount.amount
    ensures Booked(CommitCancellation(s, orderId, reason, key, r).0)
  {
    var t := CommitCancellation(s, orderId, reason, key, r).0;
    forall k | k in s.refundEntries
      ensures RefundBooked(t, s.refundEntries[k])
    {
      assert RefundBooked(s, s.refundEntries[k]);
    }
    forall k | k in s.cancellations
      ensures CancellationBooked(t, s.cancellations[k])
    {
      assert CancellationBooked(s, s.cancellations[k]);
    }
  }

  /** Operations other than refunds and cancellations add no entries, and payments of nothing refunded at most. */
  lemma OtherOpsAddNothing(s: State, op: Op)
    requires Tables(s) && !op.Refunding? && !op.Cancelling?
    ensures var t := Step(s, op);
      && t.refundEntries == s.refundEntries && t.cancellations == s.cancellations
      && forall id :: id in t.payments && id !in s.payments ==> t.payments[id].refundedAmount.amount == 0
  {
    hide Tables, CommitLines, CommitSnapshots, Subtotal, EarnedPoints, FirstShort, SameCurrency, ScopedKey, ValidMoney, RaiseLine, HasLine, RefundOrder, Cancel;
  }

  lemma StepKeepsBooked(s: State, op: Op)
    requires Tables(s) && Booked(s)
    ensures Booked(Step(s, op))
  {
    hide Tables, Checkout, RefundOrder, Cancel, RefundBooked, CancellationBooked, OrdersLater, CartsLater, PaymentsLater;
    match op
    case Refunding(who, orderId, amount, key) => RefundKeepsBooked(s, who, orderId, amount, key);
    case Cancelling(who, orderId, reason, key) => CancelKeepsBooked(s, who, orderId, reason, key);
    case _ =>
      OtherOpsAddNothing(s, op);
      StepIsLater(s, op);
      BookedLater(s, Step(s, op));
  }

  lemma {:induction false} EveryRunKeepsBooked(ops: seq<Op>)
    ensures Booked(Run(EMPTY, ops)) && Tables(Run(EMPTY, ops))
  {
    hide Booked, Tables, Step;
    EveryRunKeepsTables(ops);
    if ops == [] {
      NothingBooked();
    } else {
      EveryRunKeepsBooked(ops[..|ops| - 1]);
      StepKeepsBooked(Run(EMPTY, ops[..|ops| - 1]), ops[|ops| - 1]);
    }
  }

  // ---------------------------------------------------------------------------------------
  // A part refund blocks cancelling for good
  // ---------------------------------------------------------------------------------------

  /** Something was refunded, never all at once, and the order was not cancelled. */
  ghost predicate Blocked(s: State, id: Id) {
    && id in s.payments && s.payments[id].refundedAmount.amount > 0
    && (forall k :: k in s.refundEntries && s.refundEntries[k].orderId == id ==> s.refundEntries[k].amount.amount < s.payments[id].amount.amount)
    && forall k :: k in s.cancellations ==> s.cancellations[k].orderId != id
  }

  lemma PartRefundBlocks(s: State, id: Id)
    requires Booked(s) && id in s.payments && 0 < s.payments[id].refundedAmount.amount < s.payments[id].amount.amount
    ensures Blocked(s, id)
  {
    forall k | k in s.refundEntries && s.refundEntries[k].orderId == id
      ensures s.refundEntries[k].amount.amount < s.payments[id].amount.amount
    {
      assert RefundBooked(s, s.refundEntries[k]);
    }
    forall k | k in s.cancellations
      ensures s.cancellations[k].orderId != id
    {
      assert CancellationBooked(s, s.cancellations[k]);
    }
  }

  lemma BlockedMeansRefused(s: State, who: Identity, id: Id, reason: string, key: string)
    requires Blocked(s, id)
    ensures Cancel(s, who, id, reason, key).1.Err?
  {
    hide CommitRefund, SameCurrency, ScopedKey;
  }

  lemma RefundStaysBlocked(s: State, who: Identity, orderId: Id, amount: Money, key: string, id: Id)
    requires Tables(s) && Booked(s) && Blocked(s, id)
    ensures Blocked(RefundOrder(s, who, orderId, amount, key).0, id)
  {
    hide Tables, Booked, CommitRefund, SameCurrency, ScopedKey, OrdersLater, CartsLater;
    var k := ScopedKey(who.tenant, key);
    if RefundOrder(s, who, orderId, amount, key).1.Ok? && k !in s.refundEntries {
      RefundIsReady(s, who, orderId, amount, key);
      RefundIsLater(s, who, orderId, amount, key);
      RefundTouches(s, orderId, amount, k);
    }
  }

  lemma CancelStaysBlocked(s: State, who: Identity, orderId: Id, reason: string, key: string, id: Id)
    requires Tables(s) && Booked(s) && Blocked(s, id)
    ensures Blocked(Cancel(s, who, orderId, reason, key).0, id)
  {
    hide Tables, Booked, RefundOrder, ScopedKey;
    if orderId == id {
      BlockedMeansRefused(s, who, id, reason, key);
    } else if Cancel(s, who, orderId, reason, key).1.Ok? && ScopedKey(who.tenant, key) !in s.cancellations {
      RefundStaysBlocked(s, who, orderId, s.payments[orderId].amount, key + ":refund", id);
    }
  }

  lemma StepStaysBlocked(s: State, op: Op, id: Id)
    requires Tables(s) && Booked(s) && Blocked(s, id)
    ensures Blocked(Step(s, op), id)
  {
    hide Tables, Booked, Checkout, RefundOrder, Cancel, OrdersLater, CartsLater;
    match op
    case Refunding(who, orderId, amount, key) => RefundStaysBlocked(s, who, orderId, amount, key, id);
    case Cancelling(who, orderId, reason, key) => CancelStaysBlocked(s, who, orderId, reason, key, id);
    case _ =>
      OtherOpsAddNothing(s, op);
      StepIsLater(s, op);
  }

  lemma {:induction false} RunStaysBlocked(s: State, ops: seq<Op>, id: Id)
    requires Tables(s) && Booked(s) && Blocked(s, id)
    ensures Tables(Run(s, ops)) && Booked(Run(s, ops)) && Blocked(Run(s, ops), id)
  {
    hide Tables, Booked, Blocked, Step;
    if ops != [] {
      var before := Run(s, ops[..|ops| - 1]);
      RunStaysBlocked(s, ops[..|ops| - 1], id);
      StepKeepsTables(before, ops[|ops| - 1]);
      StepKeepsBooked(before, ops[|ops| - 1]);
      StepStaysBlocked(before, ops[|ops| - 1], id);
    }
  }

  /**
   Once part of a payment is refunded, its order can never be cancelled, by anyone, with any key,
   whatever happens next, further refunds included.
   */
  lemma PartRefundRulesOutCancelling(before: seq<Op>, id: Id, ops: seq<Op>, who: Identity, reason: string, key: string)
    requires id in Run(EMPTY, before).payments
    requires 0 < Run(EMPTY, before).payments[id].refundedAmount.amount < Run(EMPTY, before).payments[id].amount.amount
    ensures Cancel(Run(Run(EMPTY, before), ops), who, id, reason, key).1.Err?
  {
    hide Run, Tables, Booked, Blocked, Cancel;
    EveryRunKeepsBooked(before);
    PartRefundBlocks(Run(EMPTY, before), id);
    RunStaysBlocked(Run(EMPTY, before), ops, id);
    BlockedMeansRefused(Run(Run(EMPTY, before), ops), who, id, reason, key);
  }
}
