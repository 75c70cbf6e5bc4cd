/**
 The repository's validators of checkout, refund and cancellation results, and what all results,
 fresh or repeated, have in common.  Whether a validator accepts one depends on names alone.
 */
module CommerceResults {
  import opened Results
  import opened Strings
  import opened Commerce
  import opened CommerceIntegrity
  import opened CommerceInvariant
  import opened CommerceRuns

  // ---------------------------------------------------------------------------------------
  // The schemas and the validators
  // ---------------------------------------------------------------------------------------

  predicate LineParses(l: Line) {
    l.sku != "" && l.quantity > 0 && ValidMoney(l.unitPrice) && ValidMoney(l.lineTotal)
  }

  ghost predicate OrderParses(o: Order) {
    && o.owner.tenant != "" && o.owner.customerId != "" && ValidCurrency(o.currency)
    && (forall i :: 0 <= i < |o.lines| ==> LineParses(o.lines[i]))
    && ValidMoney(o.subtotal) && ValidMoney(o.tax) && ValidMoney(o.discount) && ValidMoney(o.total)
  }

  predicate StockParses(st: Stock) {
    st.sku != "" && st.location != "" && st.onHand >= 0 && st.reserved >= 0 && st.committed >= 0 && st.revision >= 0
  }

  /** validateCheckoutResult accepts the result; the payment's schema is part of PaymentIntegrity. */
  ghost predicate ValidCheckout(r: CheckoutResult) {
    && OrderParses(r.order) && (forall i :: 0 <= i < |r.inventory| ==> StockParses(r.inventory[i]))
    && OrderIntegrity(r.order) && PaymentIntegrity(r.payment)
    && (forall i :: 0 <= i < |r.inventory| ==> InventoryIntegrity(r.inventory[i]))
    && r.payment.orderId == r.order.id && r.payment.amount.currency == r.order.currency
  }

  /** validateRefundResult accepts the result. */
  ghost predicate ValidRefund(r: RefundResult) {
    && ValidMoney(r.refund.amount) && OrderParses(r.order) && OrderIntegrity(r.order) && PaymentIntegrity(r.payment)
    && SameCurrency([r.refund.amount, r.payment.amount, r.payment.refundedAmount])
    && r.refund.orderId == r.order.id && r.payment.orderId == r.order.id
    && r.refund.status == Succeeded && 0 < r.refund.amount.amount <= r.payment.refundedAmount.amount
  }

  /** validateCancellationResult accepts the result. */
  ghost predicate ValidCancellation(r: CancellationResult) {
    && r.cancellation.reason != "" && OrderParses(r.order) && ValidMoney(r.refund.amount)
    && OrderIntegrity(r.order) && PaymentIntegrity(r.payment)
    && r.cancellation.orderId == r.order.id && r.refund.orderId == r.order.id && r.refund.status == Succeeded
    && r.cancellation.refundId == r.refund.id
  }

  /** The names that the operations accept empty and the schemas do not. */
  predicate Named(who: Identity, lines: seq<Line>) {
    who.tenant != "" && who.customerId != "" && forall i :: 0 <= i < |lines| ==> lines[i].sku != ""
  }

  predicate NamesGiven(o: Order) {
    Named(o.owner, o.lines)
  }

  /** The stock records belong to the order's lines. */
  predicate StocksOfLines(lines: seq<Line>, inventory: seq<Stock>) {
    |inventory| == |lines| && forall i :: 0 <= i < |lines| ==> inventory[i].sku == lines[i].sku
  }

  // ---------------------------------------------------------------------------------------
  // What every result has apart from its names
  // ---------------------------------------------------------------------------------------

  /** What the order's schema asks for, apart from names. */
  ghost predicate OrderSound(o: Order) {
    && OrderIntegrity(o) && ValidCurrency(o.currency)
    && (forall i :: 0 <= i < |o.lines| ==> o.lines[i].quantity > 0 && ValidMoney(o.lines[i].unitPrice) && ValidMoney(o.lines[i].lineTotal))
    && ValidMoney(o.subtotal) && ValidMoney(o.tax) && ValidMoney(o.discount) && ValidMoney(o.total)
  }

  predicate StockSound(st: Stock) {
    InventoryIntegrity(st) && st.onHand >= 0 && st.reserved >= 0 && st.committed >= 0 && st.revision >= 0
  }

  ghost predicate SoundCheckout(r: CheckoutResult) {
    && OrderSound(r.order) && PaymentIntegrity(r.payment)
    && StocksOfLines(r.order.lines, r.inventory) && (forall i :: 0 <= i < |r.inventory| ==> StockSound(r.inventory[i]))
    && r.payment.orderId == r.order.id && r.payment.amount.currency == r.order.currency
  }

  ghost predicate SoundRefund(r: RefundResult) {
    && ValidMoney(r.refund.amount) && OrderSound(r.order) && PaymentIntegrity(r.payment)
    && SameCurrency([r.refund.amount, r.payment.amount, r.payment.refundedAmount])
    && r.refund.orderId == r.order.id && r.payment.orderId == r.order.id
    && r.refund.status == Succeeded && 0 < r.refund.amount.amount <= r.payment.refundedAmount.amount
  }

  ghost predicate SoundCancellation(r: CancellationResult) {
    && r.cancellation.reason != "" && OrderSound(r.order) && PaymentIntegrity(r.payment) && ValidMoney(r.refund.amount)
    && r.cancellation.orderId == r.order.id && r.refund.orderId == r.order.id && r.refund.status == Succeeded
    && r.cancellation.refundId == r.refund.id
  }

  lemma SoundOrderParsesIff(o: Order)
    requires OrderSound(o)
    ensures OrderParses(o) && OrderIntegrity(o) <==> NamesGiven(o)
  {
    hide OrderIntegrity, ValidMoney, ValidCurrency;
  }

  /** A sound checkout result is accepted exactly when its names and the locations of its stock are given. */
  lemma SoundCheckoutAcceptedIff(r: CheckoutResult)
    requires SoundCheckout(r)
    ensures ValidCheckout(r) <==> NamesGiven(r.order) && forall i :: 0 <= i < |r.inventory| ==> r.inventory[i].location != ""
  {
    hide OrderSound, OrderParses, OrderIntegrity, PaymentIntegrity;
    SoundOrderParsesIff(r.order);
    assert OrderIntegrity(r.order) by {
      SoundOrderIsIntegral(r.order);
    }
  }

  lemma SoundOrderIsIntegral(o: Order)
    requires OrderSound(o)
    ensures OrderIntegrity(o)
  {
  }

  lemma SoundRefundAcceptedIff(r: RefundResult)
    requires SoundRefund(r)
    ensures ValidRefund(r) <==> NamesGiven(r.order)
  {
    hide OrderSound, OrderParses, OrderIntegrity, PaymentIntegrity, SameCurrency, NamesGiven;
    SoundOrderParsesIff(r.order);
  }

  lemma SoundCancellationAcceptedIff(r: CancellationResult)
    requires SoundCancellation(r)
    ensures ValidCancellation(r) <==> NamesGiven(r.order)
  {
    hide OrderSound, OrderParses, OrderIntegrity, PaymentIntegrity, NamesGiven;
    SoundOrderParsesIff(r.order);
  }

  /** All stored results are sound, and those of refunds are for the order they were asked for. */
  ghost predicate ResultsSound(s: State) {
    && (forall k :: k in s.checkouts ==> SoundCheckout(s.checkouts[k].result))
    && (forall k :: k in s.refundEntries ==> SoundRefund(s.refundEntries[k].result) && s.refundEntries[k].result.order.id == s.refundEntries[k].orderId)
    && (forall k :: k in s.cancellations ==> SoundCancellation(s.cancellations[k].result))
  }

  lemma SoldOrderIsSound(o: Order, products: map<string, Product>)
    requires OrderOk(o, products)
    ensures OrderSound(o)
  {
    SoldOrderAccepted(o, products);
    TotalIsPositive(o, products);
    SoldLines(o, products);
    hide OrderIntegrity, LinesOk, Subtotal;
  }

  lemma SoldLines(o: Order, products: map<string, Product>)
    requires OrderOk(o, products)
    ensures forall i :: 0 <= i < |o.lines| ==> o.lines[i].quantity > 0 && ValidMoney(o.lines[i].unitPrice) && ValidMoney(o.lines[i].lineTotal)
  {
    forall i | 0 <= i < |o.lines|
      ensures o.lines[i].quantity > 0 && ValidMoney(o.lines[i].unitPrice) && ValidMoney(o.lines[i].lineTotal)
    {
      assert LineOk(o.lines[i]);
    }
  }

  lemma PaymentAccepted(o: Order, p: Payment, refunded: int, products: map<string, Product>)
    requires OrderOk(o, products) && PaymentOk(o, p, refunded)
    ensures PaymentIntegrity(p) && p.orderId == o.id && p.amount.currency == o.currency == p.refundedAmount.currency && ValidCurrency(o.currency)
  {
    hide OrderOk;
    TotalIsPositive(o, products);
  }

  // ---------------------------------------------------------------------------------------
  // Checkouts
  // ---------------------------------------------------------------------------------------

  lemma PrefixTakesLess(lines: seq<Line>, sku: string)
    requires lines != [] && lines[|lines| - 1].quantity > 0
    ensures QuantityOf(lines[..|lines| - 1], sku) <= QuantityOf(lines, sku)
  {
    assert lines == lines[..|lines| - 1] + [lines[|lines| - 1]];
    QuantityAppend(lines[..|lines| - 1], lines[|lines| - 1], sku);
  }

  lemma {:induction false} SnapshotsSound(inventory: map<string, Stock>, lines: seq<Line>)
    requires forall sku :: sku in inventory ==> StockShape(inventory[sku], sku) && 0 <= inventory[sku].committed
    requires forall sku :: sku in inventory ==> inventory[sku].committed + QuantityOf(lines, sku) <= inventory[sku].onHand
    requires forall i :: 0 <= i < |lines| ==> lines[i].quantity > 0 && lines[i].sku in inventory
    ensures var snapshots := CommitSnapshots(inventory, lines);
      && StocksOfLines(lines, snapshots)
      && forall i :: 0 <= i < |lines| ==> StockSound(snapshots[i]) && snapshots[i].location == inventory[lines[i].sku].location
  {
    hide QuantityOf, CommitLines;
    if lines != [] {
      var n := |lines| - 1;
      forall sku | sku in inventory
        ensures inventory[sku].committed + QuantityOf(lines[..n], sku) <= inventory[sku].onHand
      {
        PrefixTakesLess(lines, sku);
      }
      SnapshotsSound(inventory, lines[..n]);
      CommitLinesEffect(inventory, lines);
      QuantitiesAreNotNegative(lines, lines[n].sku);
    }
  }

  lemma {:induction false} QuantitiesAreNotNegative(lines: seq<Line>, sku: string)
    requires forall i :: 0 <= i < |lines| ==> lines[i].quantity > 0
    ensures QuantityOf(lines, sku) >= 0
  {
    if lines != [] {
      QuantitiesAreNotNegative(lines[1..], sku);
    }
  }

  lemma {:induction false} OrderedIsNotNegative(ids: seq<Id>, orders: map<Id, Order>, sku: string)
    requires forall id, i :: id in orders && 0 <= i < |orders[id].lines| ==> orders[id].lines[i].quantity > 0
    ensures Ordered(ids, orders, sku) >= 0
  {
    if ids != [] {
      OrderedIsNotNegative(ids[..|ids| - 1], orders, sku);
      var id := ids[|ids| - 1];
      if id in orders {
        QuantitiesAreNotNegative(orders[id].lines, sku);
      }
    }
  }

  lemma CommittedIsNotNegative(s: State, sku: string)
    requires Inv(s) && sku in s.inventory
    ensures s.inventory[sku].committed >= 0
  {
    hide ProductsOk, CartsOk, RefundsOk, CheckoutsOk, LoyaltyOk, RefundEntriesOk, OrderOk, PaymentOk, RefundedOf, Ordered;
    forall id, i | id in s.orders && 0 <= i < |s.orders[id].lines|
      ensures s.orders[id].lines[i].quantity > 0
    {
      SoldLines(s.orders[id], s.products);
    }
    OrderedIsNotNegative(s.orderIds, s.orders, sku);
  }

  lemma FreshCheckoutSound(s: State, who: Identity, cart: Cart, key: string)
    requires Inv(s) && ReadyToCommit(s, who, cart, key)
    ensures SoundCheckout(CommitCheckout(s, who, cart, key).1)
    ensures forall i :: 0 <= i < |cart.lines| ==>
      cart.lines[i].sku in s.inventory && CommitCheckout(s, who, cart, key).1.inventory[i].location == s.inventory[cart.lines[i].sku].location
  {
    hide ProductsOk, OrdersOk, RefundsOk, CheckoutsOk, LoyaltyOk, RefundEntriesOk, Ordered, OrderOk, PaymentOk, OrderSound, PaymentIntegrity,
      StockSound, CommitSnapshots, CommitLines, EarnedPoints, Subtotal, QuantityOf, LinesOk, PricedAsProducts;
    var r := CommitCheckout(s, who, cart, key).1;
    NewOrderOk(s, who, cart, key);
    SoldOrderIsSound(r.order, s.products);
    PaymentAccepted(r.order, r.payment, 0, s.products);
    forall sku | sku in s.inventory
      ensures s.inventory[sku].committed + QuantityOf(cart.lines, sku) <= s.inventory[sku].onHand && 0 <= s.inventory[sku].committed
    {
      LinesAreServed(s, who, cart, key, sku);
      CommittedIsNotNegative(s, sku);
    }
    CartQuantities(s, cart);
    assert forall i :: 0 <= i < |cart.lines| ==> Served(s.inventory, cart.lines[i]);
    SnapshotsSound(s.inventory, cart.lines);
  }

  lemma CartQuantities(s: State, cart: Cart)
    requires CartsOk(s) && cart.id in s.carts && s.carts[cart.id] == cart
    ensures forall i :: 0 <= i < |cart.lines| ==> cart.lines[i].quantity > 0
  {
    assert CartOk(s, cart);
    assert forall i :: 0 <= i < |cart.lines| ==> LineOk(cart.lines[i]);
  }

  lemma CheckoutsStaySound(s: State, who: Identity, cartId: Id, key: string)
    requires Inv(s) && ResultsSound(s)
    ensures ResultsSound(Checkout(s, who, cartId, key).0)
    ensures Checkout(s, who, cartId, key).1.Ok? ==> SoundCheckout(Checkout(s, who, cartId, key).1.value)
  {
    hide Inv, CommitCheckout, ReadyToCommit, SoundCheckout, SoundRefund, SoundCancellation, FirstShort, SameCurrency, ScopedKey;
    var k := ScopedKey(who.tenant, key);
    if Checkout(s, who, cartId, key).1.Ok? && k !in s.checkouts {
      CheckoutIsReady(s, who, cartId, key);
      var cart := s.carts[cartId];
      ReadyCartHasLines(s, who, cart, k);
      FreshCheckoutSound(s, who, cart, k);
      CheckoutTables(s, who, cart, k);
    }
  }

  lemma ReadyCartHasLines(s: State, who: Identity, cart: Cart, key: string)
    requires ReadyToCommit(s, who, cart, key)
    ensures cart.lines != []
  {
  }

  lemma CheckoutTables(s: State, who: Identity, cart: Cart, key: string)
    requires cart.lines != []
    ensures var (t, r) := CommitCheckout(s, who, cart, key);
      t.checkouts == s.checkouts[key := CheckoutEntry(who, cart.id, cart.lines, r)] && t.refundEntries == s.refundEntries && t.cancellations == s.cancellations
  {
    hide CommitLines, CommitSnapshots, Subtotal, EarnedPoints;
  }

  // ---------------------------------------------------------------------------------------
  // Refunds and cancellations
  // ---------------------------------------------------------------------------------------

  lemma FreshRefundSound(s: State, orderId: Id, amount: Money, key: string)
    requires Inv(s) && ReadyToRefund(s, orderId, amount, key)
    ensures SoundRefund(CommitRefund(s, orderId, amount, key).1) && CommitRefund(s, orderId, amount, key).1.order.id == orderId
  {
    hide Inv, OrderOk, PaymentOk, OrderSound, PaymentIntegrity, RefundedOf, SameSale;
    var r := CommitRefund(s, orderId, amount, key).1;
    OrderFacts(s, orderId);
    InvHasOrders(s);
    RefundedPaymentOk(s, orderId, amount, key);
    SameSaleOk(r.order, s.orders[orderId], s.products);
    SoldOrderIsSound(r.order, s.products);
    PaymentAccepted(r.order, r.payment, RefundedOf(s.refunds, orderId) + amount.amount, s.products);
    RefundedIsNotNegative(s.orders[orderId], s.payments[orderId], RefundedOf(s.refunds, orderId));
    SaleCurrency(r.order, s.orders[orderId]);
  }

  lemma InvHasOrders(s: State)
    requires Inv(s)
    ensures OrdersOk(s)
  {
    hide OrdersOk;
  }

  lemma RefundedIsNotNegative(o: Order, p: Payment, refunded: int)
    requires PaymentOk(o, p, refunded)
    ensures p.refundedAmount.amount >= 0
  {
  }

  lemma SaleCurrency(a: Order, b: Order)
    requires SameSale(a, b)
    ensures a.currency == b.currency
  {
  }

  lemma RefundsStaySound(s: State, who: Identity, orderId: Id, amount: Money, key: string)
    requires Inv(s) && ResultsSound(s)
    ensures ResultsSound(RefundOrder(s, who, orderId, amount, key).0)
    ensures RefundOrder(s, who, orderId, amount, key).1.Ok? ==>
      SoundRefund(RefundOrder(s, who, orderId, amount, key).1.value) && RefundOrder(s, who, orderId, amount, key).1.value.order.id == orderId
  {
    hide Inv, CommitRefund, ReadyToRefund, SoundCheckout, SoundRefund, SoundCancellation, SameCurrency, ScopedKey;
    var k := ScopedKey(who.tenant, key);
    if RefundOrder(s, who, orderId, amount, key).1.Ok? && k !in s.refundEntries {
      RefundIsReady(s, who, orderId, amount, key);
      FreshRefundSound(s, orderId, amount, k);
      RefundTables(s, orderId, amount, k);
    }
  }

  lemma RefundTables(s: State, orderId: Id, amount: Money, key: string)
    requires orderId in s.orders && orderId in s.payments
    ensures var (t, r) := CommitRefund(s, orderId, amount, key);
      t.refundEntries == s.refundEntries[key := RefundEntry(orderId, amount, r)] && t.checkouts == s.checkouts && t.cancellations == s.cancellations
  {
  }

  lemma CancellationOfSoundRefund(s: State, orderId: Id, reason: string, key: string, r: RefundResult)
    requires SoundRefund(r) && r.order.id == orderId && reason != ""
    ensures SoundCancellation(CommitCancellation(s, orderId, reason, key, r).1)
  {
    hide PaymentIntegrity, CartIntegrity, SameCurrency, Subtotal;
  }

  lemma CancellationsStaySound(s: State, who: Identity, orderId: Id, reason: string, key: string)
    requires Inv(s) && ResultsSound(s)
    ensures ResultsSound(Cancel(s, who, orderId, reason, key).0)
    ensures Cancel(s, who, orderId, reason, key).1.Ok? ==> SoundCancellation(Cancel(s, who, orderId, reason, key).1.value)
  {
    hide Inv, RefundOrder, SoundCheckout, SoundRefund, SoundCancellation, ScopedKey;
    if Cancel(s, who, orderId, reason, key).1.Ok? && ScopedKey(who.tenant, key) !in s.cancellations {
      var amount := s.payments[orderId].amount;
      var (t, r) := RefundOrder(s, who, orderId, amount, key + ":refund");
      RefundsStaySound(s, who, orderId, amount, key + ":refund");
      CancellationOfSoundRefund(t, orderId, reason, ScopedKey(who.tenant, key), r.value);
    }
  }
}
