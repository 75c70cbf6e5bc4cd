/**
 The in-memory merchant as a state machine on values: products, carts, orders, payments,
 refunds, cancellations, stock, loyalty accounts, and the idempotency tables.  Every operation
 is a function from a state to a new state and a result; CommerceReference runs them in place.
 */
module Commerce {
  import opened Results
  import opened Strings

  // ---------------------------------------------------------------------------------------
  // Data
  // ---------------------------------------------------------------------------------------

  datatype Money = Money(currency: string, amount: int)

  datatype Identity = Identity(tenant: string, customerId: string)

  /** Ids are numbered by one sequence; the prefix that tells the kinds apart is left out. */
  type Id = nat

  datatype Product = Product(sku: string, price: Money, onHand: int)

  datatype Line = Line(sku: string, quantity: int, unitPrice: Money, lineTotal: Money)

  datatype CartStatus = Open | CheckedOut

  datatype Cart = Cart(id: Id, owner: Identity, revision: nat, lines: seq<Line>, status: CartStatus)

  datatype OrderStatus = Paid | CancelledOrder | RefundedOrder

  datatype Order = Order(id: Id, revision: nat, owner: Identity, lines: seq<Line>, subtotal: Money, tax: Money, discount: Money,
                         total: Money, currency: string, status: OrderStatus)

  datatype PaymentStatus = Captured | PartiallyRefunded | FullyRefunded

  datatype Payment = Payment(orderId: Id, paymentId: Id, amount: Money, refundedAmount: Money, status: PaymentStatus)

  datatype RefundStatus = Succeeded | Failed

  datatype Refund = Refund(id: Id, orderId: Id, amount: Money, status: RefundStatus)

  datatype Cancellation = Cancellation(id: Id, orderId: Id, reason: string, refundId: Id)

  datatype Stock = Stock(sku: string, location: string, onHand: int, reserved: int, committed: int, revision: int, backorderAllowed: bool)

  datatype LoyaltyAccount = LoyaltyAccount(id: Id, owner: Identity, balance: int, revision: nat)

  datatype LoyaltyKind = Earn | Redeem | Expire | Adjust

  datatype LoyaltyTransaction = LoyaltyTransaction(id: Id, accountId: Id, kind: LoyaltyKind, points: int, reference: Id)

  datatype Settlement = Settlement(orderId: Id, paymentId: Id, captured: Money, refunded: Money, chargeback: Money, net: Money)

  datatype SettlementObservation = SettlementObservation(payment: Payment, refunds: seq<Refund>, settlement: Settlement)

  datatype CheckoutResult = CheckoutResult(order: Order, payment: Payment, inventory: seq<Stock>)

  datatype RefundResult = RefundResult(refund: Refund, payment: Payment, order: Order)

  datatype CancellationResult = CancellationResult(cancellation: Cancellation, payment: Payment, order: Order, refund: Refund)

  datatype CheckoutEntry = CheckoutEntry(owner: Identity, cartId: Id, lines: seq<Line>, result: CheckoutResult)

  datatype RefundEntry = RefundEntry(orderId: Id, amount: Money, result: RefundResult)

  datatype CancellationEntry = CancellationEntry(orderId: Id, reason: string, result: CancellationResult)

  datatype Error =
    | BadOnHand | BadMoney | CartNotFound | CartCheckedOut | UnknownSku | BadQuantity
    | KeyRequired | KeyReused | EmptyCart | InsufficientInventory(sku: string) | CrossCurrency
    | OrderNotFound | PaymentNotFound | NotPositive | ExceedsCaptured | ReasonOrKeyRequired | AccountNotFound

  /**
   The merchant.  Maps whose iteration order is observed keep it beside them: orderIds lists the
   keys of orders as inserted, and refunds, which are never changed, are listed as they came.
   */
  datatype State = State(
    products: map<string, Product>,
    carts: map<Id, Cart>,
    orderIds: seq<Id>,
    orders: map<Id, Order>,
    payments: map<Id, Payment>,
    refunds: seq<Refund>,
    inventory: map<string, Stock>,
    accounts: map<string, LoyaltyAccount>,
    loyalty: map<string, seq<LoyaltyTransaction>>,
    checkouts: map<string, CheckoutEntry>,
    refundEntries: map<string, RefundEntry>,
    cancellations: map<string, CancellationEntry>,
    sequence: nat)

  const EMPTY: State := State(map[], map[], [], map[], map[], [], map[], map[], map[], map[], map[], map[], 0)

  const MAX_SAFE_INTEGER: int := 9007199254740991

  // ---------------------------------------------------------------------------------------
  // Helpers of the operations
  // ---------------------------------------------------------------------------------------

  predicate ValidCurrency(c: string) {
    |c| == 3 && forall i :: 0 <= i < 3 ==> 'A' <= c[i] <= 'Z'
  }

  /** Money.parse accepts it. */
  predicate ValidMoney(m: Money) {
    ValidCurrency(m.currency) && m.amount >= 0
  }

  /** assertSameCurrency does not throw. */
  predicate SameCurrency(ms: seq<Money>) {
    ms != [] && ms[0].currency != "" && forall i :: 0 <= i < |ms| ==> ms[i].currency == ms[0].currency
  }

  function ScopedKey(tenant: string, key: string): string {
    tenant + ":" + key
  }

  function LineMonies(lines: seq<Line>): seq<Money> {
    if lines == [] then [] else [lines[0].unitPrice, lines[0].lineTotal] + LineMonies(lines[1..])
  }

  function Subtotal(lines: seq<Line>): int {
    if lines == [] then 0 else lines[0].lineTotal.amount + Subtotal(lines[1..])
  }

  /** The quantity of a SKU over the lines. */
  function QuantityOf(lines: seq<Line>, sku: string): int {
    if lines == [] then 0 else (if lines[0].sku == sku then lines[0].quantity else 0) + QuantityOf(lines[1..], sku)
  }

  function HasLine(lines: seq<Line>, sku: string): bool {
    exists i :: 0 <= i < |lines| && lines[i].sku == sku
  }

  /** A line of the SKU raised by a quantity, with its total at the product's current price. */
  function Raised(l: Line, sku: string, quantity: int, price: Money): Line {
    if l.sku == sku then l.(quantity := l.quantity + quantity, lineTotal := Money(price.currency, (l.quantity + quantity) * price.amount)) else l
  }

  function RaiseLine(lines: seq<Line>, sku: string, quantity: int, price: Money): (r: seq<Line>)
    ensures |r| == |lines| && forall i :: 0 <= i < |r| ==> r[i].sku == lines[i].sku
  {
    if lines == [] then [] else [Raised(lines[0], sku, quantity, price)] + RaiseLine(lines[1..], sku, quantity, price)
  }

  /** The first line the stock cannot serve. */
  function FirstShort(inventory: map<string, Stock>, lines: seq<Line>): Option<string> {
    if lines == [] then None
    else
      var sku := lines[0].sku;
      if sku !in inventory || inventory[sku].onHand - inventory[sku].reserved - inventory[sku].committed < lines[0].quantity then Some(sku)
      else FirstShort(inventory, lines[1..])
  }

  function CommitLine(inventory: map<string, Stock>, line: Line): map<string, Stock> {
    if line.sku in inventory then
      var stock := inventory[line.sku];
      inventory[line.sku := stock.(committed := stock.committed + line.quantity, revision := stock.revision + 1)]
    else inventory
  }

  function CommitLines(inventory: map<string, Stock>, lines: seq<Line>): map<string, Stock> {
    if lines == [] then inventory
    else CommitLine(CommitLines(inventory, lines[..|lines| - 1]), lines[|lines| - 1])
  }

  /** The stock records right after each line was committed. */
  function CommitSnapshots(inventory: map<string, Stock>, lines: seq<Line>): seq<Stock> {
    if lines == [] then []
    else
      var n := |lines| - 1;
      var after := CommitLines(inventory, lines);
      CommitSnapshots(inventory, lines[..n]) + if lines[n].sku in after then [after[lines[n].sku]] else []
  }

  function EarnedPoints(subtotal: int): int {
    var hundreds := if subtotal >= 0 then subtotal / 100 else -(-subtotal / 100);
    var capped := if hundreds > MAX_SAFE_INTEGER then MAX_SAFE_INTEGER else hundreds;
    if capped > 1 then capped else 1
  }

  // ---------------------------------------------------------------------------------------
  // Operations
  // ---------------------------------------------------------------------------------------

  function SeedProduct(s: State, p: Product, location: string): (r: (State, Result<(), Error>))
    ensures r.1.Err? ==> r.0 == s
  {
    if !(0 <= p.onHand <= MAX_SAFE_INTEGER) then (s, Err(BadOnHand))
    else if !ValidMoney(p.price) then (s, Err(BadMoney))
    else (s.(products := s.products[p.sku := p], inventory := s.inventory[p.sku := Stock(p.sku, location, p.onHand, 0, 0, 0, false)]), Ok(()))
  }

  function CreateCart(s: State, who: Identity): (State, Cart) {
    var cart := Cart(s.sequence + 1, who, 0, [], Open);
    (s.(carts := s.carts[cart.id := cart], sequence := cart.id), cart)
  }

  predicate OwnsCart(s: State, who: Identity, cartId: Id) {
    cartId in s.carts && s.carts[cartId].owner == who
  }

  function AddLine(s: State, who: Identity, cartId: Id, sku: string, quantity: int): (r: (State, Result<Cart, Error>))
    ensures r.1.Err? ==> r.0 == s
  {
    if !OwnsCart(s, who, cartId) then (s, Err(CartNotFound))
    else
      var cart := s.carts[cartId];
      if cart.status != Open then (s, Err(CartCheckedOut))
      else if sku !in s.products then (s, Err(UnknownSku))
      else if !(0 < quantity <= MAX_SAFE_INTEGER) then (s, Err(BadQuantity))
      else
        var price := s.products[sku].price;
        var lines :=
          if HasLine(cart.lines, sku) then RaiseLine(cart.lines, sku, quantity, price)
          else cart.lines + [Line(sku, quantity, price, Money(price.currency, quantity * price.amount))];
        var updated := cart.(revision := cart.revision + 1, lines := lines);
        (s.(carts := s.carts[cartId := updated]), Ok(updated))
  }

  /** The effect of a checkout whose checks have passed. */
  function CommitCheckout(s: State, who: Identity, cart: Cart, key: string): (State, CheckoutResult)
    requires cart.lines != []
  {
    var currency := cart.lines[0].unitPrice.currency;
    var subtotal, zero := Money(currency, Subtotal(cart.lines)), Money(currency, 0);
    var orderId, paymentId := s.sequence + 1, s.sequence + 2;
    var order := Order(orderId, 1, who, cart.lines, subtotal, zero, zero, subtotal, currency, Paid);
    var payment := Payment(orderId, paymentId, subtotal, zero, Captured);
    var snapshots := CommitSnapshots(s.inventory, cart.lines);
    var loyaltyKey := ScopedKey(who.tenant, who.customerId);
    var known := loyaltyKey in s.accounts;
    var account := if known then s.accounts[loyaltyKey] else LoyaltyAccount(s.sequence + 3, who, 0, 0);
    var last := if known then paymentId else s.sequence + 3;
    var points := EarnedPoints(subtotal.amount);
    var transaction := LoyaltyTransaction(last + 1, account.id, Earn, points, orderId);
    var log := if loyaltyKey in s.loyalty then s.loyalty[loyaltyKey] else [];
    var result := CheckoutResult(order, payment, snapshots);
    (s.(
      inventory := CommitLines(s.inventory, cart.lines),
      orderIds := s.orderIds + [orderId],
      orders := s.orders[orderId := order],
      payments := s.payments[orderId := payment],
      accounts := s.accounts[loyaltyKey := account.(balance := account.balance + points, revision := account.revision + 1)],
      loyalty := s.loyalty[loyaltyKey := log + [transaction]],
      carts := s.carts[cart.id := cart.(status := CheckedOut, revision := cart.revision + 1)],
      checkouts := s.checkouts[key := CheckoutEntry(who, cart.id, cart.lines, result)],
      sequence := last + 5),  // the transaction, the webhook's event and delivery, the fulfillment and its tracking number
     result)
  }

  function Checkout(s: State, who: Identity, cartId: Id, idempotencyKey: string): (r: (State, Result<CheckoutResult, Error>))
    ensures r.1.Err? ==> r.0 == s
  {
    if Blank(idempotencyKey) then (s, Err(KeyRequired))
    else if !OwnsCart(s, who, cartId) then (s, Err(CartNotFound))
    else
      var cart := s.carts[cartId];
      var key := ScopedKey(who.tenant, idempotencyKey);
      if key in s.checkouts then
        var previous := s.checkouts[key];
        if (previous.owner, previous.cartId, previous.lines) != (who, cart.id, cart.lines) then (s, Err(KeyReused))
        else (s, Ok(previous.result))
      else if cart.status != Open then (s, Err(CartCheckedOut))
      else if cart.lines == [] then (s, Err(EmptyCart))
      else if FirstShort(s.inventory, cart.lines).Some? then (s, Err(InsufficientInventory(FirstShort(s.inventory, cart.lines).value)))
      else if !SameCurrency(LineMonies(cart.lines)) then (s, Err(CrossCurrency))
      else
        var (after, result) := CommitCheckout(s, who, cart, key);
        (after, Ok(result))
  }

  predicate OwnsOrder(s: State, who: Identity, orderId: Id) {
    orderId in s.orders && s.orders[orderId].owner == who
  }

  /** The effect of a refund whose checks have passed. */
  function CommitRefund(s: State, orderId: Id, amount: Money, key: string): (State, RefundResult)
    requires orderId in s.orders && orderId in s.payments
  {
    var order, payment := s.orders[orderId], s.payments[orderId];
    var refunded := payment.refundedAmount.amount + amount.amount;
    var updatedPayment := payment.(
      refundedAmount := Money(payment.amount.currency, refunded),
      status := if refunded == payment.amount.amount then FullyRefunded else PartiallyRefunded);
    var updatedOrder := order.(revision := order.revision + 1, status := if updatedPayment.status == FullyRefunded then RefundedOrder else order.status);
    var refund := Refund(s.sequence + 1, orderId, amount, Succeeded);
    var result := RefundResult(refund, updatedPayment, updatedOrder);
    (s.(
      payments := s.payments[orderId := updatedPayment],
      orders := s.orders[orderId := updatedOrder],
      refunds := s.refunds + [refund],
      refundEntries := s.refundEntries[key := RefundEntry(orderId, amount, result)],
      sequence := s.sequence + 1),
     result)
  }

  function RefundOrder(s: State, who: Identity, orderId: Id, amount: Money, idempotencyKey: string): (r: (State, Result<RefundResult, Error>))
    ensures r.1.Err? ==> r.0 == s
  {
    if !OwnsOrder(s, who, orderId) then (s, Err(OrderNotFound))
    else if orderId !in s.payments then (s, Err(PaymentNotFound))
    else if Blank(idempotencyKey) then (s, Err(KeyRequired))
    else
      var payment := s.payments[orderId];
      if !SameCurrency([amount, payment.amount, payment.refundedAmount]) then (s, Err(CrossCurrency))
      else if amount.amount <= 0 then (s, Err(NotPositive))
      else
        var key := ScopedKey(who.tenant, idempotencyKey);
        if key in s.refundEntries then
          var previous := s.refundEntries[key];
          if (previous.orderId, previous.amount) != (orderId, amount) then (s, Err(KeyReused)) else (s, Ok(previous.result))
        else if payment.refundedAmount.amount + amount.amount > payment.amount.amount then (s, Err(ExceedsCaptured))
        else
          var (after, result) := CommitRefund(s, orderId, amount, key);
          (after, Ok(result))
  }

  function Cancel(s: State, who: Identity, orderId: Id, reason: string, idempotencyKey: string): (r: (State, Result<CancellationResult, Error>))
    ensures r.1.Err? ==> r.0 == s
  {
    if !OwnsOrder(s, who, orderId) then (s, Err(OrderNotFound))
    else if orderId !in s.payments then (s, Err(PaymentNotFound))
    else if Blank(reason) || Blank(idempotencyKey) then (s, Err(ReasonOrKeyRequired))
    else
      var key := ScopedKey(who.tenant, idempotencyKey);
      if key in s.cancellations then
        var previous := s.cancellations[key];
        if (previous.orderId, previous.reason) != (orderId, reason) then (s, Err(KeyReused)) else (s, Ok(previous.result))
      else
        var (refunded, refundResult) := RefundOrder(s, who, orderId, s.payments[orderId].amount, idempotencyKey + ":refund");
        match refundResult
        case Err(e) => (s, Err(e))
        case Ok(r) =>
          var (after, result) := CommitCancellation(refunded, orderId, reason, key, r);
          (after, Ok(result))
  }

  function CommitCancellation(s: State, orderId: Id, reason: string, key: string, r: RefundResult): (State, CancellationResult) {
    var cancellation := Cancellation(s.sequence + 1, orderId, reason, r.refund.id);
    var cancelled := r.order.(status := CancelledOrder);
    var result := CancellationResult(cancellation, r.payment, cancelled, r.refund);
    (s.(
      orders := s.orders[orderId := cancelled],
      cancellations := s.cancellations[key := CancellationEntry(orderId, reason, result)],
      sequence := s.sequence + 1),
     result)
  }

  function RefundsOf(refunds: seq<Refund>, orderId: Id): seq<Refund> {
    if refunds == [] then []
    else RefundsOf(refunds[..|refunds| - 1], orderId) + if refunds[|refunds| - 1].orderId == orderId then [refunds[|refunds| - 1]] else []
  }

  function TotalOf(refunds: seq<Refund>): int {
    if refunds == [] then 0 else TotalOf(refunds[..|refunds| - 1]) + refunds[|refunds| - 1].amount.amount
  }

  function ObserveSettlement(s: State, who: Identity, orderId: Id): Result<SettlementObservation, Error> {
    if !OwnsOrder(s, who, orderId) then Err(OrderNotFound)
    else if orderId !in s.payments then Err(PaymentNotFound)
    else
      var payment := s.payments[orderId];
      var refunds := RefundsOf(s.refunds, orderId);
      var currency := payment.amount.currency;
      var refunded := Money(currency, TotalOf(refunds));
      Ok(SettlementObservation(payment, refunds,
        Settlement(orderId, payment.paymentId, payment.amount, refunded, Money(currency, 0), Money(currency, payment.amount.amount - refunded.amount))))
  }

  function ObserveLoyalty(s: State, who: Identity): Result<(LoyaltyAccount, seq<LoyaltyTransaction>), Error> {
    var key := ScopedKey(who.tenant, who.customerId);
    if key !in s.accounts then Err(AccountNotFound)
    else Ok((s.accounts[key], if key in s.loyalty then s.loyalty[key] else []))
  }
}
