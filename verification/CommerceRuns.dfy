/** Whole runs of the merchant: the invariant holds throughout, retries repeat their results, and the checkers accept every state. */
module CommerceRuns {
  import opened Results
  import opened Strings
  import opened Commerce
  import opened CommerceIntegrity
  import opened CommerceInvariant

  datatype Op =
    | Seed(product: Product, location: string)
    | NewCart(who: Identity)
    | Add(who: Identity, cartId: Id, sku: string, quantity: int)
    | Buy(who: Identity, cartId: Id, key: string)
    | Refunding(who: Identity, orderId: Id, amount: Money, key: string)
    | Cancelling(who: Identity, orderId: Id, reason: string, key: string)

  function Step(s: State, op: Op): State {
    match op
    case Seed(product, location) => SeedProduct(s, product, location).0
    case NewCart(who) => CreateCart(s, who).0
    case Add(who, cartId, sku, quantity) => AddLine(s, who, cartId, sku, quantity).0
    case Buy(who, cartId, key) => Checkout(s, who, cartId, key).0
    case Refunding(who, orderId, amount, key) => RefundOrder(s, who, orderId, amount, key).0
    case Cancelling(who, orderId, reason, key) => Cancel(s, who, orderId, reason, key).0
  }

  function Run(s: State, ops: seq<Op>): State {
    if ops == [] then s else Step(Run(s, ops[..|ops| - 1]), ops[|ops| - 1])
  }

  /** A successful seeding keeps what orders and open carts rely on. */
  ghost predicate Admissible(s: State, op: Op) {
    op.Seed? && SeedProduct(s, op.product, op.location).1.Ok? ==> SeedKeeps(s, op.product)
  }

  ghost predicate AdmissibleRun(s: State, ops: seq<Op>) {
    forall i :: 0 <= i < |ops| ==> Admissible(Run(s, ops[..i]), ops[i])
  }

  /** Every seeding is of a positive price and of a SKU that no earlier operation seeded. */
  ghost predicate SeedsOnce(ops: seq<Op>) {
    && (forall i :: 0 <= i < |ops| && ops[i].Seed? ==> ops[i].product.price.amount > 0)
    && forall i, j :: 0 <= i < j < |ops| && ops[i].Seed? && ops[j].Seed? ==> ops[i].product.sku != ops[j].product.sku
  }

  // ---------------------------------------------------------------------------------------
  // The invariant over runs
  // ---------------------------------------------------------------------------------------

  lemma StepKeeps(s: State, op: Op)
    requires Inv(s) && Admissible(s, op)
    ensures Inv(Step(s, op))
  {
    hide Inv, SeedKeeps, SeedProduct, CreateCart, AddLine, Checkout, RefundOrder, Cancel;
    match op
    case Seed(product, location) =>
      if SeedProduct(s, product, location).1.Ok? {
        SeedKeepsInvariantIff(s, product, location);
      }
    case NewCart(who) => CreateCartKeeps(s, who);
    case Add(who, cartId, sku, quantity) => AddLineKeeps(s, who, cartId, sku, quantity);
    case Buy(who, cartId, key) => CheckoutKeeps(s, who, cartId, key);
    case Refunding(who, orderId, amount, key) => RefundKeeps(s, who, orderId, amount, key);
    case Cancelling(who, orderId, reason, key) => CancelKeeps(s, who, orderId, reason, key);
  }

  lemma {:induction false} RunKeeps(s: State, ops: seq<Op>)
    requires Inv(s) && AdmissibleRun(s, ops)
    ensures Inv(Run(s, ops))
  {
    hide Inv, Admissible, Step;
    if ops != [] {
      var n := |ops| - 1;
      assert forall i :: 0 <= i < n ==> ops[..n][..i] == ops[..i];
      RunKeeps(s, ops[..n]);
      StepKeeps(Run(s, ops[..n]), ops[n]);
    }
  }

  lemma {:induction false} NothingOrdered(ids: seq<Id>, orders: map<Id, Order>, sku: string)
    requires forall id, i :: id in orders && 0 <= i < |orders[id].lines| ==> orders[id].lines[i].sku != sku
    ensures Ordered(ids, orders, sku) == 0
  {
    if ids != [] {
      var id := ids[|ids| - 1];
      NothingOrdered(ids[..|ids| - 1], orders, sku);
      if id in orders {
        NoQuantity(orders[id].lines, sku);
      }
    }
  }

  lemma FirstSeedKeeps(s: State, p: Product)
    requires Inv(s) && p.price.amount > 0 && p.sku !in s.products
    ensures SeedKeeps(s, p)
  {
    hide ProductsOk, StocksOk, CheckoutsOk, LoyaltyOk, RefundsOk, RefundEntriesOk, PaymentOk, RefundedOf, Ordered, PricedAsProducts, LineOk, UniqueSkus;
    assert forall id :: id in s.carts ==> CartOk(s, s.carts[id]);
    assert forall id :: id in s.orders ==> OrderOk(s.orders[id], s.products);
    NothingOrdered(s.orderIds, s.orders, p.sku);
  }

  lemma StepSeeds(s: State, op: Op, sku: string)
    requires sku in Step(s, op).products
    ensures sku in s.products || (op.Seed? && op.product.sku == sku)
  {
    hide CommitLines, CommitSnapshots, EarnedPoints, Subtotal, FirstShort, SameCurrency, ValidMoney;
  }

  lemma {:induction false} ProductsWereSeeded(ops: seq<Op>, sku: string)
    requires sku in Run(EMPTY, ops).products
    ensures exists i :: 0 <= i < |ops| && ops[i].Seed? && ops[i].product.sku == sku
  {
    hide Step;
    if ops != [] {
      var n := |ops| - 1;
      StepSeeds(Run(EMPTY, ops[..n]), ops[n], sku);
      if !(ops[n].Seed? && ops[n].product.sku == sku) {
        ProductsWereSeeded(ops[..n], sku);
        var i :| 0 <= i < n && ops[..n][i].Seed? && ops[..n][i].product.sku == sku;
        assert ops[i] == ops[..n][i];
      }
    }
  }

  lemma SeedIsNew(ops: seq<Op>)
    requires SeedsOnce(ops) && ops != [] && ops[|ops| - 1].Seed?
    ensures ops[|ops| - 1].product.sku !in Run(EMPTY, ops[..|ops| - 1]).products
  {
    var n := |ops| - 1;
    if ops[n].product.sku in Run(EMPTY, ops[..n]).products {
      ProductsWereSeeded(ops[..n], ops[n].product.sku);
      assert false;
    }
  }

  lemma OneMoreIsAdmissible(s: State, ops: seq<Op>)
    requires ops != [] && AdmissibleRun(s, ops[..|ops| - 1]) && Admissible(Run(s, ops[..|ops| - 1]), ops[|ops| - 1])
    ensures AdmissibleRun(s, ops)
  {
    hide Admissible, Run;
    assert forall i :: 0 <= i < |ops| - 1 ==> ops[..|ops| - 1][..i] == ops[..i];
  }

  /** Seeding each SKU once, at a positive price, keeps the invariant over the whole run. */
  lemma {:induction false} ReachableStatesAreOk(ops: seq<Op>)
    requires SeedsOnce(ops)
    ensures Inv(Run(EMPTY, ops)) && AdmissibleRun(EMPTY, ops)
  {
    hide Inv, SeedKeeps, SeedProduct, Step;
    if ops == [] {
      EmptyIsOk();
    } else {
      var n := |ops| - 1;
      var before := Run(EMPTY, ops[..n]);
      assert SeedsOnce(ops[..n]) by {
        assert forall i :: 0 <= i < n ==> ops[..n][i] == ops[i];
      }
      ReachableStatesAreOk(ops[..n]);
      if ops[n].Seed? {
        SeedIsNew(ops);
        FirstSeedKeeps(before, ops[n].product);
      }
      StepKeeps(before, ops[n]);
      OneMoreIsAdmissible(EMPTY, ops);
    }
  }

  /** Then the committed quantity of a SKU is the total over all orders, and never more than there is. */
  lemma CommittedIsOrdered(ops: seq<Op>, sku: string)
    requires SeedsOnce(ops) && sku in Run(EMPTY, ops).inventory
    ensures var s := Run(EMPTY, ops);
      s.inventory[sku].committed == Ordered(s.orderIds, s.orders, sku) <= s.inventory[sku].onHand && s.inventory[sku].reserved == 0
  {
    hide ProductsOk, CartsOk, OrdersOk, RefundsOk, CheckoutsOk, LoyaltyOk, RefundEntriesOk, Ordered, Run;
    ReachableStatesAreOk(ops);
  }

  // ---------------------------------------------------------------------------------------
  // Cancellations
  // ---------------------------------------------------------------------------------------

  /** What the invariant says of one order and its payment. */
  lemma OrderFacts(s: State, id: Id)
    requires Inv(s) && id in s.orders
    ensures id in s.payments && s.orders[id].id == id
    ensures OrderOk(s.orders[id], s.products) && PaymentOk(s.orders[id], s.payments[id], RefundedOf(s.refunds, id))
  {
    hide OrderOk, PaymentOk, RefundedOf, ProductsOk, StocksOk, CartsOk, RefundsOk, CheckoutsOk, LoyaltyOk, RefundEntriesOk;
  }

  /** A fresh cancellation is a refund of the whole amount followed by the change of status. */
  lemma CancelIsRefundThenStatus(s: State, who: Identity, orderId: Id, reason: string, key: string)
    requires Cancel(s, who, orderId, reason, key).1.Ok? && ScopedKey(who.tenant, key) !in s.cancellations
    ensures orderId in s.payments
    ensures var (t, r) := RefundOrder(s, who, orderId, s.payments[orderId].amount, key + ":refund");
      && r.Ok? && Cancel(s, who, orderId, reason, key).0 == CommitCancellation(t, orderId, reason, ScopedKey(who.tenant, key), r.value).0
      && Cancel(s, who, orderId, reason, key).1.value.payment == r.value.payment
  {
    hide RefundOrder;
  }

  /** A cancellation that succeeds leaves the order cancelled and the whole payment refunded. */
  lemma CancelRefundsInFull(s: State, who: Identity, orderId: Id, reason: string, key: string)
    requires Inv(s) && Cancel(s, who, orderId, reason, key).1.Ok? && ScopedKey(who.tenant, key) !in s.cancellations
    ensures var (t, r) := Cancel(s, who, orderId, reason, key);
      && orderId in t.orders && orderId in t.payments && t.orders[orderId].status == CancelledOrder
      && RefundedOf(t.refunds, orderId) == t.orders[orderId].total.amount && r.value.payment == t.payments[orderId]
  {
    hide Inv, RefundOrder, Cancel, RefundedOf, SameSale;
    CancelIsRefundThenStatus(s, who, orderId, reason, key);
    var amount := s.payments[orderId].amount;
    var (t, r) := RefundOrder(s, who, orderId, amount, key + ":refund");
    RefundKeeps(s, who, orderId, amount, key + ":refund");
    RefundResultIsCurrent(s, who, orderId, amount, key + ":refund");
    FinalPaymentIsRefunded(t, orderId);
    SameTotal(r.value.order, t.orders[orderId]);
  }

  lemma SameTotal(a: Order, b: Order)
    requires SameSale(a, b)
    ensures a.total == b.total
  {
  }

  lemma TotalIsPositive(o: Order, products: map<string, Product>)
    requires OrderOk(o, products)
    ensures o.total == Money(o.currency, Subtotal(o.lines)) && o.total.amount > 0 && ValidCurrency(o.currency)
  {
    SubtotalPositive(o.lines);
  }

  lemma FinalPaymentIsRefunded(s: State, orderId: Id)
    requires Inv(s) && orderId in s.orders
    ensures orderId in s.payments
    ensures s.payments[orderId].status == FullyRefunded <==> RefundedOf(s.refunds, orderId) == s.orders[orderId].total.amount
    ensures s.payments[orderId].amount == s.orders[orderId].total && s.payments[orderId].amount.amount > 0
    ensures s.payments[orderId].refundedAmount == Money(s.payments[orderId].amount.currency, RefundedOf(s.refunds, orderId))
    ensures ValidCurrency(s.payments[orderId].amount.currency)
  {
    hide Inv, RefundedOf, OrderOk, ValidCurrency;
    OrderFacts(s, orderId);
    TotalIsPositive(s.orders[orderId], s.products);
  }

  lemma LongerKeyIsNotBlank(key: string, more: string)
    requires !Blank(key)
    ensures !Blank(key + more)
  {
    assert forall i :: 0 <= i < |key| ==> (key + more)[i] == key[i];
  }

  /** With unused keys an order can be cancelled exactly when nothing of it was refunded yet. */
  lemma CancelsIffNothingRefunded(s: State, who: Identity, orderId: Id, reason: string, key: string)
    requires Inv(s) && OwnsOrder(s, who, orderId) && !Blank(reason) && !Blank(key)
    requires ScopedKey(who.tenant, key) !in s.cancellations && ScopedKey(who.tenant, key + ":refund") !in s.refundEntries
    ensures Cancel(s, who, orderId, reason, key).1.Ok? <==> RefundedOf(s.refunds, orderId) == 0
  {
    hide Inv, RefundedOf, CommitRefund, CommitCancellation, Blank;
    FinalPaymentIsRefunded(s, orderId);
    OrderFacts(s, orderId);
    assert SameCurrency([s.payments[orderId].amount, s.payments[orderId].amount, s.payments[orderId].refundedAmount]);
    LongerKeyIsNotBlank(key, ":refund");
    hide SameCurrency;
  }

  // ---------------------------------------------------------------------------------------
  // The repository's checkers accept every such state
  // ---------------------------------------------------------------------------------------

  lemma {:induction false} UnitPricesHold(lines: seq<Line>)
    ensures |UnitPrices(lines)| == |lines| && forall i :: 0 <= i < |lines| ==> UnitPrices(lines)[i] == lines[i].unitPrice
  {
    if lines != [] {
      UnitPricesHold(lines[1..]);
    }
  }

  lemma OneCurrency(lines: seq<Line>, products: map<string, Product>)
    requires LinesOk(lines, products)
    ensures CartIntegrity(lines) <==> forall i :: 0 <= i < |lines| ==> lines[i].unitPrice.currency == lines[0].unitPrice.currency
  {
    UnitPricesHold(lines);
    assert forall i :: 0 <= i < |lines| ==> LineOk(lines[i]) && lines[i].lineTotal.amount >= 0;
    hide UnitPrices, UniqueSkus;
  }

  /** The cart checker accepts a cart exactly when it is empty or in one currency. */
  lemma CartCheckerAcceptsIff(s: State, id: Id)
    requires Inv(s) && id in s.carts
    ensures var lines := s.carts[id].lines;
      CartIntegrity(lines) <==> forall i :: 0 <= i < |lines| ==> lines[i].unitPrice.currency == lines[0].unitPrice.currency
  {
    hide ProductsOk, StocksOk, OrdersOk, RefundsOk, CheckoutsOk, LoyaltyOk, RefundEntriesOk, CartIntegrity, LinesOk;
    assert CartOk(s, s.carts[id]);
    OneCurrency(s.carts[id].lines, s.products);
  }

  lemma SoldOrderAccepted(o: Order, products: map<string, Product>)
    requires OrderOk(o, products)
    ensures OrderIntegrity(o)
  {
    hide LinesOk, Subtotal, CartIntegrity;
    OneCurrency(o.lines, products);
    TotalIsPositive(o, products);
  }

  lemma OrderCheckerAccepts(s: State, id: Id)
    requires Inv(s) && id in s.orders
    ensures OrderIntegrity(s.orders[id])
  {
    hide *;
    OrderFacts(s, id);
    SoldOrderAccepted(s.orders[id], s.products);
  }

  lemma PaymentCheckerAccepts(s: State, id: Id)
    requires Inv(s) && id in s.orders
    ensures id in s.payments && PaymentIntegrity(s.payments[id])
  {
    hide Inv, RefundedOf, OrderOk;
    OrderFacts(s, id);
    FinalPaymentIsRefunded(s, id);
  }

  lemma StockCheckerAccepts(s: State, sku: string)
    requires Inv(s) && sku in s.inventory
    ensures InventoryIntegrity(s.inventory[sku])
  {
    hide Ordered;
  }

  lemma {:induction false} RefundsOfAreSettled(refunds: seq<Refund>, p: Payment)
    requires forall k :: 0 <= k < |refunds| && refunds[k].orderId == p.orderId ==> SettledRefund(p, refunds[k])
    ensures forall k :: 0 <= k < |RefundsOf(refunds, p.orderId)| ==> SettledRefund(p, RefundsOf(refunds, p.orderId)[k])
  {
    if refunds != [] {
      RefundsOfAreSettled(refunds[..|refunds| - 1], p);
    }
  }

  lemma RefundsOfOrderAreSettled(s: State, id: Id)
    requires Inv(s) && id in s.orders
    ensures id in s.payments
    ensures forall k :: 0 <= k < |RefundsOf(s.refunds, id)| ==> SettledRefund(s.payments[id], RefundsOf(s.refunds, id)[k])
  {
    hide ProductsOk, StocksOk, CartsOk, OrdersOk, CheckoutsOk, LoyaltyOk, RefundEntriesOk, RefundsOf, RefundedOf, OrderOk;
    OrderFacts(s, id);
    TotalIsPositive(s.orders[id], s.products);
    RefundsOfAreSettled(s.refunds, s.payments[id]);
  }

  /** What the owner observes of an order's settlement passes the settlement checker, with no chargebacks. */
  lemma SettlementCheckerAccepts(s: State, id: Id)
    requires Inv(s) && id in s.orders
    ensures var seen := ObserveSettlement(s, s.orders[id].owner, id);
      seen.Ok? && SettlementIntegrity(seen.value.payment, seen.value.refunds, [], seen.value.settlement)
  {
    hide Inv, OrderOk, RefundsOf, TotalOf, SettledRefund;
    OrderFacts(s, id);
    FinalPaymentIsRefunded(s, id);
    RefundsOfOrderAreSettled(s, id);
  }

  // ---------------------------------------------------------------------------------------
  // Loyalty accounts, over every run
  // ---------------------------------------------------------------------------------------

  lemma CheckoutCommitsOrNothing(s: State, who: Identity, cartId: Id, key: string)
    ensures Checkout(s, who, cartId, key).0 == s ||
      (cartId in s.carts && s.carts[cartId].lines != []
       && Checkout(s, who, cartId, key).0 == CommitCheckout(s, who, s.carts[cartId], ScopedKey(who.tenant, key)).0)
  {
    hide CommitCheckout, FirstShort, SameCurrency;
  }

  lemma BuyingKeepsLoyalty(s: State, who: Identity, cartId: Id, key: string)
    requires LoyaltyOk(s)
    ensures LoyaltyOk(Checkout(s, who, cartId, key).0)
  {
    hide LoyaltyOk, Checkout, CommitCheckout, ScopedKey;
    CheckoutCommitsOrNothing(s, who, cartId, key);
    if Checkout(s, who, cartId, key).0 != s {
      CheckoutKeepsLoyalty(s, who, s.carts[cartId], ScopedKey(who.tenant, key));
    }
  }

  lemma SeedLeavesLoyalty(s: State, p: Product, location: string)
    ensures var t := SeedProduct(s, p, location).0; t.accounts == s.accounts && t.loyalty == s.loyalty && s.sequence <= t.sequence
  {
    hide ValidMoney;
  }

  lemma AddLeavesLoyalty(s: State, who: Identity, cartId: Id, sku: string, quantity: int)
    ensures var t := AddLine(s, who, cartId, sku, quantity).0; t.accounts == s.accounts && t.loyalty == s.loyalty && s.sequence <= t.sequence
  {
    hide RaiseLine, HasLine;
  }

  lemma StepKeepsLoyalty(s: State, op: Op)
    requires LoyaltyOk(s)
    ensures LoyaltyOk(Step(s, op))
  {
    hide LoyaltyOk, SeedProduct, AddLine, Checkout, RefundOrder, Cancel;
    match op
    case Buy(who, cartId, key) => BuyingKeepsLoyalty(s, who, cartId, key);
    case _ =>
      match op {
        case Refunding(who, orderId, amount, key) => RefundLeavesLoyalty(s, who, orderId, amount, key);
        case Cancelling(who, orderId, reason, key) => CancelLeavesLoyalty(s, who, orderId, reason, key);
        case Seed(product, location) => SeedLeavesLoyalty(s, product, location);
        case Add(who, cartId, sku, quantity) => AddLeavesLoyalty(s, who, cartId, sku, quantity);
        case NewCart(_) =>
      }
      LoyaltyFrame(s, Step(s, op));
  }

  lemma RefundLeavesLoyalty(s: State, who: Identity, orderId: Id, amount: Money, key: string)
    ensures var t := RefundOrder(s, who, orderId, amount, key).0; t.accounts == s.accounts && t.loyalty == s.loyalty && s.sequence <= t.sequence
  {
    hide SameCurrency;
  }

  lemma CancelLeavesLoyalty(s: State, who: Identity, orderId: Id, reason: string, key: string)
    ensures var t := Cancel(s, who, orderId, reason, key).0; t.accounts == s.accounts && t.loyalty == s.loyalty && s.sequence <= t.sequence
  {
    hide RefundOrder;
    if orderId in s.payments {
      RefundLeavesLoyalty(s, who, orderId, s.payments[orderId].amount, key + ":refund");
    }
  }

  lemma {:induction false} AccountsAlwaysReconcile(ops: seq<Op>)
    ensures LoyaltyOk(Run(EMPTY, ops))
  {
    hide Step, AccountOk;
    if ops != [] {
      AccountsAlwaysReconcile(ops[..|ops| - 1]);
      StepKeepsLoyalty(Run(EMPTY, ops[..|ops| - 1]), ops[|ops| - 1]);
    }
  }

  /** After any run, what a customer observes of the account passes the loyalty checker exactly when the owner's names are not empty. */
  lemma LoyaltyCheckerAcceptsIff(ops: seq<Op>, who: Identity)
    requires ObserveLoyalty(Run(EMPTY, ops), who).Ok?
    ensures var (account, log) := ObserveLoyalty(Run(EMPTY, ops), who).value;
      LoyaltyIntegrity(account, log) <==> account.owner.tenant != "" && account.owner.customerId != ""
  {
    hide Run, LedgerReconciles;
    var s := Run(EMPTY, ops);
    AccountsAlwaysReconcile(ops);
    assert AccountOk(s.accounts[KeyOf(who)], s.loyalty[KeyOf(who)], s.sequence);
  }

  // ---------------------------------------------------------------------------------------
  // Keys of different tenants
  // ---------------------------------------------------------------------------------------

  /** The other tenant's name goes on from this one's with a colon. */
  predicate Shadows(t: string, u: string) {
    t + ":" <= u
  }

  lemma LongerTenantIsShadowed(t: string, k: string, u: string, l: string)
    requires ScopedKey(t, k) == ScopedKey(u, l) && |t| <= |u|
    ensures (t == u && k == l) || Shadows(t, u)
  {
    var a := ScopedKey(t, k);
    assert a[..|t|] == t && a[..|u|] == u && a[|t|] == ':';
    if |t| == |u| {
      assert a[|t| + 1..] == k && a[|u| + 1..] == l;
    } else {
      assert u[..|t|] == t && u[|t|] == ':';
    }
  }

  /** Two tenants have a scoped key in common exactly when one's name goes on from the other's with a colon. */
  lemma ScopedKeysCollideIff(t: string, u: string)
    requires t != u
    ensures (exists k, l :: ScopedKey(t, k) == ScopedKey(u, l)) <==> Shadows(t, u) || Shadows(u, t)
  {
    if k, l :| ScopedKey(t, k) == ScopedKey(u, l) {
      if |t| <= |u| {
        LongerTenantIsShadowed(t, k, u, l);
      } else {
        LongerTenantIsShadowed(u, l, t, k);
      }
    }
    if Shadows(t, u) {
      ShadowedKeysMeet(t, u);
    }
    if Shadows(u, t) {
      ShadowedKeysMeet(u, t);
      var k :| ScopedKey(u, k) == ScopedKey(t, "");
    }
  }

  lemma ShadowedKeysMeet(t: string, u: string)
    requires Shadows(t, u)
    ensures exists k :: ScopedKey(t, k) == ScopedKey(u, "")
  {
    var k := u[|t| + 1..] + ":";
    assert u == t + ":" + u[|t| + 1..];
    assert ScopedKey(t, k) == ScopedKey(u, "");
  }

  /** With a colon in a tenant's name, two customers of different tenants can share the key of one loyalty account. */
  lemma ScopedKeysCanCollide()
    ensures var a, b := Identity("x", "y:z"), Identity("x:y", "z"); a != b && KeyOf(a) == KeyOf(b)
  {
    assert "x" + ":" + "y:z" == "x:y" + ":" + "z";
    assert "x" != "x:y" by {
      assert |"x"| != |"x:y"|;
    }
  }
}
