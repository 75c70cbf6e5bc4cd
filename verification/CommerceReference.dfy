/** The merchant as the object it is: maps reassigned in place, each method doing exactly one operation of the state machine. */
module CommerceReference {
  import opened Results
  import opened Strings
  import opened Commerce

  /** The order sells the cart, and the payment captures its total. */
  ghost predicate IsSale(sequence: nat, who: Identity, cart: Cart, order: Order, payment: Payment)
    requires cart.lines != []
  {
    var currency := cart.lines[0].unitPrice.currency;
    var subtotal, zero := Money(currency, Subtotal(cart.lines)), Money(currency, 0);
    && order == Order(sequence + 1, 1, who, cart.lines, subtotal, zero, zero, subtotal, currency, Paid)
    && payment == Payment(order.id, sequence + 2, subtotal, zero, Captured)
  }

  /** The order and its payment are recorded, and the stock is committed to the order. */
  ghost predicate Sells(s: State, t: State, who: Identity, cart: Cart, order: Order, payment: Payment, snapshots: seq<Stock>)
    requires cart.lines != []
  {
    && IsSale(s.sequence, who, cart, order, payment)
    && snapshots == CommitSnapshots(s.inventory, cart.lines)
    && t == s.(
      inventory := CommitLines(s.inventory, cart.lines), orderIds := s.orderIds + [order.id], orders := s.orders[order.id := order],
      payments := s.payments[order.id := payment], sequence := s.sequence + 2)
  }

  /** The account, opened if need be, earns the order's points. */
  ghost predicate Earns(s: State, who: Identity, order: Order, accounts: map<string, LoyaltyAccount>,
                        loyalty: map<string, seq<LoyaltyTransaction>>, sequence: nat) {
    var key := ScopedKey(who.tenant, who.customerId);
    var known := key in s.accounts;
    var account := if known then s.accounts[key] else LoyaltyAccount(s.sequence + 1, who, 0, 0);
    var points := EarnedPoints(order.subtotal.amount);
    var log := if key in s.loyalty then s.loyalty[key] else [];
    && sequence == (if known then s.sequence + 1 else s.sequence + 2)
    && accounts == s.accounts[key := account.(balance := account.balance + points, revision := account.revision + 1)]
    && loyalty == s.loyalty[key := log + [LoyaltyTransaction(sequence, account.id, Earn, points, order.id)]]
  }

  /** A sale, its earning, the closed cart, the entry and the delivery's four ids make up a committed checkout. */
  lemma CommittedTogether(s: State, sold: State, who: Identity, cart: Cart, key: string, order: Order, payment: Payment, snapshots: seq<Stock>,
                          accounts: map<string, LoyaltyAccount>, loyalty: map<string, seq<LoyaltyTransaction>>, id: nat)
    requires cart.lines != [] && Sells(s, sold, who, cart, order, payment, snapshots) && Earns(sold, who, order, accounts, loyalty, id)
    ensures var result := CheckoutResult(order, payment, snapshots);
      CommitCheckout(s, who, cart, key) ==
        (sold.(accounts := accounts, loyalty := loyalty, carts := s.carts[cart.id := cart.(status := CheckedOut, revision := cart.revision + 1)],
               checkouts := s.checkouts[key := CheckoutEntry(who, cart.id, cart.lines, result)], sequence := id + 4), result)
  {
    hide CommitLines, CommitSnapshots, Subtotal, EarnedPoints, ScopedKey;
  }

  class InMemoryCommerceReference {
    var products: map<string, Product>
    var carts: map<Id, Cart>
    var orderIds: seq<Id>
    var orders: map<Id, Order>
    var payments: map<Id, Payment>
    var refunds: seq<Refund>
    var inventory: map<string, Stock>
    var accounts: map<string, LoyaltyAccount>
    var loyalty: map<string, seq<LoyaltyTransaction>>
    var checkouts: map<string, CheckoutEntry>
    var refundEntries: map<string, RefundEntry>
    var cancellations: map<string, CancellationEntry>
    var sequence: nat

    function Contents(): State
      reads this
    {
      State(products, carts, orderIds, orders, payments, refunds, inventory, accounts, loyalty, checkouts, refundEntries, cancellations, sequence)
    }

    constructor ()
      ensures Contents() == EMPTY
    {
      products, carts, orderIds, orders, payments, refunds := map[], map[], [], map[], map[], [];
      inventory, accounts, loyalty := map[], map[], map[];
      checkouts, refundEntries, cancellations, sequence := map[], map[], map[], 0;
    }

    method NextId() returns (id: Id)
      modifies this`sequence
      ensures id == sequence == old(sequence) + 1
    {
      sequence := sequence + 1;
      return sequence;
    }

    method DoSeedProduct(product: Product, location: string) returns (r: Result<(), Error>)
      modifies this
      ensures (Contents(), r) == SeedProduct(old(Contents()), product, location)
    {
      if !(0 <= product.onHand <= MAX_SAFE_INTEGER) {
        return Err(BadOnHand);
      }
      if !ValidMoney(product.price) {
        return Err(BadMoney);
      }
      products := products[product.sku := product];
      inventory := inventory[product.sku := Stock(product.sku, location, product.onHand, 0, 0, 0, false)];
      return Ok(());
    }

    method DoCreateCart(who: Identity) returns (cart: Cart)
      modifies this
      ensures (Contents(), cart) == CreateCart(old(Contents()), who)
    {
      var id := NextId();
      cart := Cart(id, who, 0, [], Open);
      carts := carts[id := cart];
    }

    method DoAddLine(who: Identity, cartId: Id, sku: string, quantity: int) returns (r: Result<Cart, Error>)
      modifies this
      ensures (Contents(), r) == AddLine(old(Contents()), who, cartId, sku, quantity)
    {
      if cartId !in carts || carts[cartId].owner != who {
        return Err(CartNotFound);
      }
      var cart := carts[cartId];
      if cart.status != Open {
        return Err(CartCheckedOut);
      }
      if sku !in products {
        return Err(UnknownSku);
      }
      if !(0 < quantity <= MAX_SAFE_INTEGER) {
        return Err(BadQuantity);
      }
      var price := products[sku].price;
      var existing := FindLine(cart.lines, sku);
      var lines: seq<Line>;
      if existing {
        lines := MapLines(cart.lines, sku, quantity, price);
      } else {
        lines := cart.lines + [Line(sku, quantity, price, Money(price.currency, quantity * price.amount))];
      }
      var updated := cart.(revision := cart.revision + 1, lines := lines);
      carts := carts[cartId := updated];
      return Ok(updated);
    }

    method DoCheckout(who: Identity, cartId: Id, idempotencyKey: string) returns (r: Result<CheckoutResult, Error>)
      modifies this
      ensures (Contents(), r) == Checkout(old(Contents()), who, cartId, idempotencyKey)
    {
      hide CommitCheckout, FirstShort, SameCurrency, LineMonies, ScopedKey, Blank;
      if Blank(idempotencyKey) {
        return Err(KeyRequired);
      }
      if cartId !in carts || carts[cartId].owner != who {
        return Err(CartNotFound);
      }
      var cart := carts[cartId];
      var key := ScopedKey(who.tenant, idempotencyKey);
      if key in checkouts {
        var previous := checkouts[key];
        if (previous.owner, previous.cartId, previous.lines) != (who, cart.id, cart.lines) {
          return Err(KeyReused);
        }
        return Ok(previous.result);
      }
      if cart.status != Open {
        return Err(CartCheckedOut);
      }
      if |cart.lines| == 0 {
        return Err(EmptyCart);
      }
      var short := CheckStock(inventory, cart.lines);
      if short.Some? {
        return Err(InsufficientInventory(short.value));
      }
      if !SameCurrency(LineMonies(cart.lines)) {
        return Err(CrossCurrency);
      }
      var result := PlaceOrder(who, cart, key);
      return Ok(result);
    }

    /** The rest of checkout, once its checks have passed. */
    method PlaceOrder(who: Identity, cart: Cart, key: string) returns (result: CheckoutResult)
      requires cart.lines != [] && FirstShort(inventory, cart.lines).None?
      modifies this
      ensures (Contents(), result) == CommitCheckout(old(Contents()), who, cart, key)
    {
      hide CommitCheckout, FirstShort, IsSale, Earns, CommitLines, CommitSnapshots;
      ghost var was := Contents();
      var order, payment, snapshots := RecordSale(who, cart);
      ghost var sold := Contents();
      EarnLoyalty(who, order);
      ghost var id := sequence;
      carts := carts[cart.id := cart.(status := CheckedOut, revision := cart.revision + 1)];
      result := CheckoutResult(order, payment, snapshots);
      checkouts := checkouts[key := CheckoutEntry(who, cart.id, cart.lines, result)];
      NumberDelivery();
      CommittedTogether(was, sold, who, cart, key, order, payment, snapshots, accounts, loyalty, id);
    }

    /** The ids of the webhook's event and delivery, of the fulfillment and of its tracking number. */
    method NumberDelivery()
      modifies this`sequence
      ensures sequence == old(sequence) + 4
    {
      var eventId := NextId();
      var deliveryId := NextId();
      var fulfillmentId := NextId();
      var trackingNumber := NextId();
    }

    /** The order and its payment, and the stock committed to it. */
    method RecordSale(who: Identity, cart: Cart) returns (order: Order, payment: Payment, snapshots: seq<Stock>)
      requires cart.lines != [] && FirstShort(inventory, cart.lines).None?
      modifies this`orderIds, this`orders, this`payments, this`inventory, this`sequence
      ensures IsSale(old(sequence), who, cart, order, payment) && sequence == old(sequence) + 2
      ensures inventory == CommitLines(old(inventory), cart.lines) && snapshots == CommitSnapshots(old(inventory), cart.lines)
      ensures orderIds == old(orderIds) + [order.id] && orders == old(orders)[order.id := order] && payments == old(payments)[order.id := payment]
    {
      hide CommitLines, CommitSnapshots, Subtotal, FirstShort;
      var currency := cart.lines[0].unitPrice.currency;
      var sum := SumLines(cart.lines);
      var subtotal, zero := Money(currency, sum), Money(currency, 0);
      var orderId := NextId();
      order := Order(orderId, 1, who, cart.lines, subtotal, zero, zero, subtotal, currency, Paid);
      var paymentId := NextId();
      payment := Payment(orderId, paymentId, subtotal, zero, Captured);
      snapshots := CommitStock(cart.lines);
      orderIds, orders := orderIds + [orderId], orders[orderId := order];
      payments := payments[orderId := payment];
    }

    method CommitStock(lines: seq<Line>) returns (snapshots: seq<Stock>)
      requires FirstShort(inventory, lines).None?
      modifies this`inventory
      ensures inventory == CommitLines(old(inventory), lines) && snapshots == CommitSnapshots(old(inventory), lines)
    {
      snapshots := [];
      ghost var before := inventory;
      ServedLinesAreStocked(inventory, lines);
      for i := 0 to |lines|
        invariant inventory == CommitLines(before, lines[..i]) && snapshots == CommitSnapshots(before, lines[..i])
        invariant inventory.Keys == before.Keys
      {
        assert lines[..i + 1][..i] == lines[..i];
        var stock := inventory[lines[i].sku];
        var updated := stock.(committed := stock.committed + lines[i].quantity, revision := stock.revision + 1);
        inventory := inventory[lines[i].sku := updated];
        snapshots := snapshots + [updated];
      }
      assert lines[..|lines|] == lines;
    }

    method EarnLoyalty(who: Identity, order: Order)
      modifies this`accounts, this`loyalty, this`sequence
      ensures Earns(old(Contents()), who, order, accounts, loyalty, sequence)
    {
      var key := ScopedKey(who.tenant, who.customerId);
      var account: LoyaltyAccount;
      if key in accounts {
        account := accounts[key];
      } else {
        var accountId := NextId();
        account := LoyaltyAccount(accountId, who, 0, 0);
      }
      var points := EarnedPoints(order.subtotal.amount);
      var id := NextId();
      var transaction := LoyaltyTransaction(id, account.id, Earn, points, order.id);
      accounts := accounts[key := account.(balance := account.balance + points, revision := account.revision + 1)];
      loyalty := loyalty[key := (if key in loyalty then loyalty[key] else []) + [transaction]];
    }

    method DoRefund(who: Identity, orderId: Id, amount: Money, idempotencyKey: string) returns (r: Result<RefundResult, Error>)
      modifies this
      ensures (Contents(), r) == RefundOrder(old(Contents()), who, orderId, amount, idempotencyKey)
    {
      hide CommitRefund, ScopedKey;
      if orderId !in orders || orders[orderId].owner != who {
        return Err(OrderNotFound);
      }
      if orderId !in payments {
        return Err(PaymentNotFound);
      }
      var payment := payments[orderId];
      if Blank(idempotencyKey) {
        return Err(KeyRequired);
      }
      if !SameCurrency([amount, payment.amount, payment.refundedAmount]) {
        return Err(CrossCurrency);
      }
      if amount.amount <= 0 {
        return Err(NotPositive);
      }
      var key := ScopedKey(who.tenant, idempotencyKey);
      if key in refundEntries {
        var previous := refundEntries[key];
        if (previous.orderId, previous.amount) != (orderId, amount) {
          return Err(KeyReused);
        }
        return Ok(previous.result);
      }
      if payment.refundedAmount.amount + amount.amount > payment.amount.amount {
        return Err(ExceedsCaptured);
      }
      var result := BookRefund(orderId, amount, key);
      return Ok(result);
    }

    /** The rest of a refund, once its checks have passed. */
    method BookRefund(orderId: Id, amount: Money, key: string) returns (result: RefundResult)
      requires orderId in orders && orderId in payments
      modifies this
      ensures (Contents(), result) == CommitRefund(old(Contents()), orderId, amount, key)
    {
      var order, payment := orders[orderId], payments[orderId];
      var refunded, captured := payment.refundedAmount.amount + amount.amount, payment.amount.amount;
      var updatedPayment := payment.(
        refundedAmount := Money(payment.amount.currency, refunded),
        status := if refunded == captured then FullyRefunded else PartiallyRefunded);
      var updatedOrder := order.(revision := order.revision + 1, status := if updatedPayment.status == FullyRefunded then RefundedOrder else order.status);
      var refundId := NextId();
      var refund := Refund(refundId, orderId, amount, Succeeded);
      payments := payments[orderId := updatedPayment];
      orders := orders[orderId := updatedOrder];
      refunds := refunds + [refund];
      result := RefundResult(refund, updatedPayment, updatedOrder);
      refundEntries := refundEntries[key := RefundEntry(orderId, amount, result)];
    }

    method DoCancel(who: Identity, orderId: Id, reason: string, idempotencyKey: string) returns (r: Result<CancellationResult, Error>)
      modifies this
      ensures (Contents(), r) == Cancel(old(Contents()), who, orderId, reason, idempotencyKey)
    {
      hide RefundOrder;
      if orderId !in orders || orders[orderId].owner != who {
        return Err(OrderNotFound);
      }
      if orderId !in payments {
        return Err(PaymentNotFound);
      }
      if Blank(reason) || Blank(idempotencyKey) {
        return Err(ReasonOrKeyRequired);
      }
      var key := ScopedKey(who.tenant, idempotencyKey);
      if key in cancellations {
        var previous := cancellations[key];
        if (previous.orderId, previous.reason) != (orderId, reason) {
          return Err(KeyReused);
        }
        return Ok(previous.result);
      }
      var refundResult := DoRefund(who, orderId, payments[orderId].amount, idempotencyKey + ":refund");
      if refundResult.Err? {
        return Err(refundResult.error);
      }
      var refund := refundResult.value;
      var cancellationId := NextId();
      var cancelled := refund.order.(status := CancelledOrder);
      orders := orders[orderId := cancelled];
      var result := CancellationResult(Cancellation(cancellationId, orderId, reason, refund.refund.id), refund.payment, cancelled, refund.refund);
      cancellations := cancellations[key := CancellationEntry(orderId, reason, result)];
      return Ok(result);
    }

    method DoObserveSettlement(who: Identity, orderId: Id) returns (r: Result<SettlementObservation, Error>)
      ensures r == ObserveSettlement(Contents(), who, orderId)
    {
      if orderId !in orders || orders[orderId].owner != who {
        return Err(OrderNotFound);
      }
      if orderId !in payments {
        return Err(PaymentNotFound);
      }
      var payment := payments[orderId];
      var own: seq<Refund> := [];
      var sum := 0;
      for i := 0 to |refunds|
        invariant own == RefundsOf(refunds[..i], orderId) && sum == TotalOf(own)
      {
        assert refunds[..i + 1][..i] == refunds[..i];
        if refunds[i].orderId == orderId {
          assert (own + [refunds[i]])[..|own|] == own;
          own, sum := own + [refunds[i]], sum + refunds[i].amount.amount;
        }
      }
      assert refunds[..|refunds|] == refunds;
      var currency := payment.amount.currency;
      return Ok(SettlementObservation(payment, own,
        Settlement(orderId, payment.paymentId, payment.amount, Money(currency, sum), Money(currency, 0), Money(currency, payment.amount.amount - sum))));
    }
  }

  lemma {:induction false} ServedLinesAreStocked(inventory: map<string, Stock>, lines: seq<Line>)
    requires FirstShort(inventory, lines).None?
    ensures forall i :: 0 <= i < |lines| ==> lines[i].sku in inventory
  {
    if lines != [] {
      ServedLinesAreStocked(inventory, lines[1..]);
    }
  }

  method FindLine(lines: seq<Line>, sku: string) returns (found: bool)
    ensures found <==> HasLine(lines, sku)
  {
    for i := 0 to |lines|
      invariant forall k :: 0 <= k < i ==> lines[k].sku != sku
    {
      if lines[i].sku == sku {
        return true;
      }
    }
    return false;
  }

  method MapLines(lines: seq<Line>, sku: string, quantity: int, price: Money) returns (r: seq<Line>)
    ensures r == RaiseLine(lines, sku, quantity, price)
  {
    hide Raised;
    r := [];
    for i := 0 to |lines|
      invariant r + RaiseLine(lines[i..], sku, quantity, price) == RaiseLine(lines, sku, quantity, price)
    {
      var line := Raised(lines[i], sku, quantity, price);
      assert lines[i..][1..] == lines[i + 1..] && lines[i..][0] == lines[i];
      assert r + RaiseLine(lines[i..], sku, quantity, price) == (r + [line]) + RaiseLine(lines[i + 1..], sku, quantity, price);
      r := r + [line];
    }
  }

  method CheckStock(inventory: map<string, Stock>, lines: seq<Line>) returns (short: Option<string>)
    ensures short == FirstShort(inventory, lines)
  {
    for i := 0 to |lines|
      invariant FirstShort(inventory, lines[i..]) == FirstShort(inventory, lines)
    {
      var sku := lines[i].sku;
      assert lines[i..][1..] == lines[i + 1..];
      if sku !in inventory || inventory[sku].onHand - inventory[sku].reserved - inventory[sku].committed < lines[i].quantity {
        return Some(sku);
      }
    }
    return None;
  }

  method SumLines(lines: seq<Line>) returns (sum: int)
    ensures sum == Subtotal(lines)
  {
    sum := 0;
    for i := 0 to |lines|
      invariant sum + Subtotal(lines[i..]) == Subtotal(lines)
    {
      assert lines[i..][1..] == lines[i + 1..];
      sum := sum + lines[i].lineTotal.amount;
    }
  }
}
