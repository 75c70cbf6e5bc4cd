/**
 Which results the validators accept, told before the call from the caller, the stored lines and
 the stock.
 */
module CommerceAcceptance {
  import opened Results
  import opened Commerce
  import opened CommerceIntegrity
  import opened CommerceInvariant
  import opened CommerceRuns
  import opened CommerceRetries
  import opened CommerceResults

  // ---------------------------------------------------------------------------------------
  // What stored results have in common with the orders and the stock
  // ---------------------------------------------------------------------------------------

  /** The stored checkout is its owner's, of its lines, from the stock's locations. */
  ghost predicate CheckoutFits(s: State, e: CheckoutEntry) {
    && e.result.order.owner == e.owner && e.result.order.lines == e.lines && |e.result.inventory| == |e.lines|
    && forall i :: 0 <= i < |e.lines| ==> e.lines[i].sku in s.inventory && e.result.inventory[i].location == s.inventory[e.lines[i].sku].location
  }

  ghost predicate CancellationFits(s: State, e: CancellationEntry) {
    e.orderId in s.orders && SameSale(e.result.order, s.orders[e.orderId])
  }

  ghost predicate ResultsFit(s: State) {
    && (forall k :: k in s.checkouts ==> CheckoutFits(s, s.checkouts[k]))
    && (forall k :: k in s.cancellations ==> CancellationFits(s, s.cancellations[k]))
  }

  ghost predicate LocationsStay(s: State, t: State) {
    forall sku :: sku in s.inventory ==> sku in t.inventory && t.inventory[sku].location == s.inventory[sku].location
  }

  /** Stored results still fit when orders keep what was sold and stock its places. */
  lemma StoredStillFit(s: State, t: State)
    requires ResultsFit(s) && LocationsStay(s, t) && OrdersLater(s, t)
    ensures forall k :: k in s.checkouts ==> CheckoutFits(t, s.checkouts[k])
    ensures forall k :: k in s.cancellations ==> CancellationFits(t, s.cancellations[k])
  {
    forall k | k in s.cancellations
      ensures CancellationFits(t, s.cancellations[k])
    {
      assert CancellationFits(s, s.cancellations[k]);
    }
  }

  lemma SeedLeavesResults(s: State, p: Product, location: string)
    requires p.sku !in s.inventory
    ensures var t := SeedProduct(s, p, location).0; t.checkouts == s.checkouts && t.cancellations == s.cancellations && LocationsStay(s, t)
  {
    hide ValidMoney;
  }

  lemma AddLeavesResults(s: State, who: Identity, cartId: Id, sku: string, quantity: int)
    ensures var t := AddLine(s, who, cartId, sku, quantity).0; t.checkouts == s.checkouts && t.cancellations == s.cancellations && LocationsStay(s, t)
  {
    hide RaiseLine, HasLine;
  }

  lemma CartOpsLeaveResults(s: State, op: Op)
    requires op.Seed? || op.NewCart? || op.Add?
    requires op.Seed? ==> op.product.sku !in s.inventory
    ensures var t := Step(s, op); t.checkouts == s.checkouts && t.cancellations == s.cancellations && LocationsStay(s, t)
  {
    hide SeedProduct, AddLine, Checkout, RefundOrder, Cancel;
    match op
    case Seed(product, location) => SeedLeavesResults(s, product, location);
    case Add(who, cartId, sku, quantity) => AddLeavesResults(s, who, cartId, sku, quantity);
    case NewCart(_) =>
  }

  /** Fresh or repeated, the result of a checkout is the caller's, of the cart's lines, from the stock's locations. */
  lemma CheckoutResultFits(s: State, who: Identity, cartId: Id, key: string)
    requires Inv(s) && ResultsFit(s) && Checkout(s, who, cartId, key).1.Ok?
    ensures OwnsCart(s, who, cartId)
    ensures CheckoutFits(s, CheckoutEntry(who, cartId, s.carts[cartId].lines, Checkout(s, who, cartId, key).1.value))
  {
    hide Inv, CommitCheckout, SoundCheckout, ReadyToCommit, FirstShort, SameCurrency, ScopedKey;
    var k := ScopedKey(who.tenant, key);
    if k in s.checkouts {
      assert CheckoutFits(s, s.checkouts[k]);
    } else {
      CheckoutIsReady(s, who, cartId, key);
      ReadyCartHasLines(s, who, s.carts[cartId], k);
      FreshCheckoutSound(s, who, s.carts[cartId], k);
      FreshOrder(s, who, s.carts[cartId], k);
    }
  }

  lemma FreshOrder(s: State, who: Identity, cart: Cart, key: string)
    requires cart.lines != [] && SoundCheckout(CommitCheckout(s, who, cart, key).1)
    ensures var (t, r) := CommitCheckout(s, who, cart, key);
      && r.order.owner == who && r.order.lines == cart.lines && |r.inventory| == |cart.lines| && t.inventory == CommitLines(s.inventory, cart.lines)
  {
    hide OrderSound, PaymentIntegrity, StockSound, CommitLines, CommitSnapshots, EarnedPoints, Subtotal;
  }

  lemma CheckoutsStayFit(s: State, who: Identity, cartId: Id, key: string)
    requires Inv(s) && Tables(s) && ResultsFit(s)
    ensures ResultsFit(Checkout(s, who, cartId, key).0)
  {
    hide Inv, Tables, CommitCheckout, SoundCheckout, ReadyToCommit, FirstShort, SameCurrency, ScopedKey, CheckoutFits, CancellationFits, OrdersLater, CartsLater, PaymentsLater;
    var k := ScopedKey(who.tenant, key);
    if Checkout(s, who, cartId, key).1.Ok? && k !in s.checkouts {
      var cart, t := s.carts[cartId], Checkout(s, who, cartId, key).0;
      CheckoutIsReady(s, who, cartId, key);
      ReadyCartHasLines(s, who, cart, k);
      FreshCheckoutSound(s, who, cart, k);
      FreshOrder(s, who, cart, k);
      CheckoutTables(s, who, cart, k);
      CheckoutIsLater(s, who, cartId, key);
      CommitLinesEffect(s.inventory, cart.lines);
      StoredStillFit(s, t);
      assert CheckoutFits(t, t.checkouts[k]) by {
        CheckoutResultFits(s, who, cartId, key);
        FitsLater(s, t, t.checkouts[k]);
      }
    }
  }

  lemma FitsLater(s: State, t: State, e: CheckoutEntry)
    requires CheckoutFits(s, e) && LocationsStay(s, t)
    ensures CheckoutFits(t, e)
  {
  }

  lemma RefundsStayFit(s: State, who: Identity, orderId: Id, amount: Money, key: string)
    requires Tables(s) && ResultsFit(s)
    ensures ResultsFit(RefundOrder(s, who, orderId, amount, key).0)
  {
    var t := RefundOrder(s, who, orderId, amount, key).0;
    RefundLeavesResults(s, who, orderId, amount, key);
    RefundIsLater(s, who, orderId, amount, key);
    hide Tables, RefundOrder, CheckoutFits, CancellationFits, OrdersLater, CartsLater, PaymentsLater;
    StoredStillFit(s, t);
  }

  lemma RefundLeavesResults(s: State, who: Identity, orderId: Id, amount: Money, key: string)
    ensures var t := RefundOrder(s, who, orderId, amount, key).0;
      t.checkouts == s.checkouts && t.cancellations == s.cancellations && t.inventory == s.inventory
  {
    hide SameCurrency, ScopedKey;
  }

  lemma CancellationsStayFit(s: State, who: Identity, orderId: Id, reason: string, key: string)
    requires Tables(s) && ResultsFit(s)
    ensures ResultsFit(Cancel(s, who, orderId, reason, key).0)
  {
    hide Tables, RefundOrder, ScopedKey, CheckoutFits, OrdersLater, CartsLater, PaymentsLater;
    if Cancel(s, who, orderId, reason, key).1.Ok? && ScopedKey(who.tenant, key) !in s.cancellations {
      var amount := s.payments[orderId].amount;
      var t := Cancel(s, who, orderId, reason, key).0;
      RefundLeavesResults(s, who, orderId, amount, key + ":refund");
      CancelIsLater(s, who, orderId, reason, key);
      StoredStillFit(s, t);
    }
  }

  lemma StepStaysFit(s: State, op: Op)
    requires Inv(s) && Tables(s) && ResultsFit(s) && (op.Seed? ==> op.product.sku !in s.products)
    ensures ResultsFit(Step(s, op))
  {
    hide Tables, Checkout, RefundOrder, Cancel, ResultsFit, StocksOk, CartsOk, OrdersOk, RefundsOk, CheckoutsOk, LoyaltyOk, RefundEntriesOk;
    match op
    case Buy(who, cartId, key) => CheckoutsStayFit(s, who, cartId, key);
    case Refunding(who, orderId, amount, key) => RefundsStayFit(s, who, orderId, amount, key);
    case Cancelling(who, orderId, reason, key) => CancellationsStayFit(s, who, orderId, reason, key);
    case _ =>
      CartOpsLeaveResults(s, op);
      CartStepIsLater(s, op);
      CartOpStaysFit(s, Step(s, op));
  }

  lemma CartOpStaysFit(s: State, t: State)
    requires ResultsFit(s) && t.checkouts == s.checkouts && t.cancellations == s.cancellations && LocationsStay(s, t) && Later(s, t)
    ensures ResultsFit(t)
  {
    hide CheckoutFits, CancellationFits, OrdersLater, CartsLater, PaymentsLater;
    StoredStillFit(s, t);
  }

  // ---------------------------------------------------------------------------------------
  // Acceptance, told before the call
  // ---------------------------------------------------------------------------------------

  /** Every line's SKU is stocked at a named location. */
  ghost predicate Located(inventory: map<string, Stock>, lines: seq<Line>) {
    forall i :: 0 <= i < |lines| ==> lines[i].sku in inventory && inventory[lines[i].sku].location != ""
  }

  /** A checkout's result is accepted exactly when the caller, the cart's SKUs and their stock's locations have names. */
  lemma CheckoutAcceptedIff(s: State, who: Identity, cartId: Id, key: string)
    requires Inv(s) && ResultsSound(s) && ResultsFit(s) && Checkout(s, who, cartId, key).1.Ok?
    ensures OwnsCart(s, who, cartId)
    ensures ValidCheckout(Checkout(s, who, cartId, key).1.value) <==> Named(who, s.carts[cartId].lines) && Located(s.inventory, s.carts[cartId].lines)
  {
    hide Inv, ResultsSound, ResultsFit, Checkout, SoundCheckout, ValidCheckout;
    CheckoutsStaySound(s, who, cartId, key);
    CheckoutResultFits(s, who, cartId, key);
    SoundCheckoutAcceptedIff(Checkout(s, who, cartId, key).1.value);
  }

  /** The order in the result of a refund is the stored one as it was sold. */
  lemma RefundResultFits(s: State, who: Identity, orderId: Id, amount: Money, key: string)
    requires Tables(s) && RefundOrder(s, who, orderId, amount, key).1.Ok?
    ensures OwnsOrder(s, who, orderId) && SameSale(RefundOrder(s, who, orderId, amount, key).1.value.order, s.orders[orderId])
  {
    RefundNamesSale(s, who, orderId, amount, key);
    RefundIsLater(s, who, orderId, amount, key);
    hide Tables, CommitRefund, SameCurrency, ScopedKey, CartsLater, PaymentsLater;
  }

  /** A refund's result is accepted exactly when the caller and the order's SKUs have names. */
  lemma RefundAcceptedIff(s: State, who: Identity, orderId: Id, amount: Money, key: string)
    requires Inv(s) && Tables(s) && ResultsSound(s) && RefundOrder(s, who, orderId, amount, key).1.Ok?
    ensures OwnsOrder(s, who, orderId)
    ensures ValidRefund(RefundOrder(s, who, orderId, amount, key).1.value) <==> Named(who, s.orders[orderId].lines)
  {
    hide Inv, Tables, ResultsSound, RefundOrder, SoundRefund, ValidRefund, Named;
    RefundsStaySound(s, who, orderId, amount, key);
    RefundResultFits(s, who, orderId, amount, key);
    SoundRefundAcceptedIff(RefundOrder(s, who, orderId, amount, key).1.value);
  }

  lemma CancellationResultFits(s: State, who: Identity, orderId: Id, reason: string, key: string)
    requires Tables(s) && ResultsFit(s) && Cancel(s, who, orderId, reason, key).1.Ok?
    ensures OwnsOrder(s, who, orderId) && SameSale(Cancel(s, who, orderId, reason, key).1.value.order, s.orders[orderId])
  {
    hide Tables, RefundOrder, CheckoutFits, ScopedKey;
    var k := ScopedKey(who.tenant, key);
    if k in s.cancellations {
      assert CancellationFits(s, s.cancellations[k]);
    } else {
      RefundResultFits(s, who, orderId, s.payments[orderId].amount, key + ":refund");
    }
  }

  /** A cancellation's result is accepted exactly when the caller and the order's SKUs have names. */
  lemma CancellationAcceptedIff(s: State, who: Identity, orderId: Id, reason: string, key: string)
    requires Inv(s) && Tables(s) && ResultsSound(s) && ResultsFit(s) && Cancel(s, who, orderId, reason, key).1.Ok?
    ensures OwnsOrder(s, who, orderId)
    ensures ValidCancellation(Cancel(s, who, orderId, reason, key).1.value) <==> Named(who, s.orders[orderId].lines)
  {
    hide Inv, Tables, ResultsSound, ResultsFit, Cancel, SoundCancellation, ValidCancellation, Named;
    CancellationsStaySound(s, who, orderId, reason, key);
    CancellationResultFits(s, who, orderId, reason, key);
    SoundCancellationAcceptedIff(Cancel(s, who, orderId, reason, key).1.value);
  }

  // ---------------------------------------------------------------------------------------
  // Whole runs
  // ---------------------------------------------------------------------------------------

  lemma StepStaysSound(s: State, op: Op)
    requires Inv(s) && ResultsSound(s)
    ensures ResultsSound(Step(s, op))
  {
    hide Inv, Checkout, RefundOrder, Cancel, ResultsSound;
    match op
    case Buy(who, cartId, key) => CheckoutsStaySound(s, who, cartId, key);
    case Refunding(who, orderId, amount, key) => RefundsStaySound(s, who, orderId, amount, key);
    case Cancelling(who, orderId, reason, key) => CancellationsStaySound(s, who, orderId, reason, key);
    case _ => SameTables(s, op);
  }

  lemma SameTables(s: State, op: Op)
    requires ResultsSound(s) && (op.Seed? || op.NewCart? || op.Add?)
    ensures ResultsSound(Step(s, op))
  {
    hide SoundCheckout, SoundRefund, SoundCancellation, ValidMoney, RaiseLine, HasLine;
  }

  lemma NothingStored()
    ensures ResultsSound(EMPTY) && ResultsFit(EMPTY)
  {
  }

  lemma {:induction false} ReachableResultsFit(ops: seq<Op>)
    requires SeedsOnce(ops)
    ensures ResultsSound(Run(EMPTY, ops)) && ResultsFit(Run(EMPTY, ops))
  {
    hide Inv, Tables, ResultsSound, ResultsFit, Step;
    if ops == [] {
      NothingStored();
    } else {
      var n := |ops| - 1;
      var before := Run(EMPTY, ops[..n]);
      assert SeedsOnce(ops[..n]) by {
        assert forall i :: 0 <= i < n ==> ops[..n][i] == ops[i];
      }
      ReachableResultsFit(ops[..n]);
      ReachableStatesAreOk(ops[..n]);
      EveryRunKeepsTables(ops[..n]);
      if ops[n].Seed? {
        SeedIsNew(ops);
      }
      StepStaysSound(before, ops[n]);
      StepStaysFit(before, ops[n]);
    }
  }

  /**
   After any run that seeds each SKU once, every success of the next call, fresh or repeated, is
   accepted by its validator exactly when the caller and the SKUs of the stored cart or order, and
   for checkouts the locations of their stock, have names.
   */
  lemma ReachableResultsAcceptedIff(ops: seq<Op>, who: Identity, id: Id, amount: Money, reason: string, key: string)
    requires SeedsOnce(ops)
    ensures var s := Run(EMPTY, ops);
      Checkout(s, who, id, key).1.Ok? ==>
        && OwnsCart(s, who, id)
        && (ValidCheckout(Checkout(s, who, id, key).1.value) <==> Named(who, s.carts[id].lines) && Located(s.inventory, s.carts[id].lines))
    ensures var s := Run(EMPTY, ops);
      RefundOrder(s, who, id, amount, key).1.Ok? ==>
        OwnsOrder(s, who, id) && (ValidRefund(RefundOrder(s, who, id, amount, key).1.value) <==> Named(who, s.orders[id].lines))
    ensures var s := Run(EMPTY, ops);
      Cancel(s, who, id, reason, key).1.Ok? ==>
        OwnsOrder(s, who, id) && (ValidCancellation(Cancel(s, who, id, reason, key).1.value) <==> Named(who, s.orders[id].lines))
  {
    hide Run, Inv, Tables, ResultsSound, ResultsFit, Checkout, RefundOrder, Cancel, Named, Located, ValidCheckout, ValidRefund, ValidCancellation;
    var s := Run(EMPTY, ops);
    ReachableStatesAreOk(ops);
    ReachableResultsFit(ops);
    EveryRunKeepsTables(ops);
    if Checkout(s, who, id, key).1.Ok? {
      CheckoutAcceptedIff(s, who, id, key);
    }
    if RefundOrder(s, who, id, amount, key).1.Ok? {
      RefundAcceptedIff(s, who, id, amount, key);
    }
    if Cancel(s, who, id, reason, key).1.Ok? {
      CancellationAcceptedIff(s, who, id, reason, key);
    }
  }
}
