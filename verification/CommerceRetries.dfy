/**
 What no run of the merchant takes back, and the retries that rest on it.  All of this holds over
 every run, however often SKUs are seeded again and at whatever price.
 */
module CommerceRetries {
  import opened Results
  import opened Strings
  import opened Commerce
  import opened CommerceInvariant
  import opened CommerceRuns

  // ---------------------------------------------------------------------------------------
  // What holds after every run
  // ---------------------------------------------------------------------------------------

  ghost predicate CartIdsOk(s: State) {
    forall id :: id in s.carts ==> s.carts[id].id == id && id <= s.sequence
  }

  ghost predicate OrderIdsOk(s: State) {
    s.payments.Keys == s.orders.Keys && forall id :: id in s.orders ==> s.orders[id].id == id && id <= s.sequence
  }

  ghost predicate OneCurrencyEach(s: State) {
    forall id :: id in s.payments ==> s.payments[id].amount.currency == s.payments[id].refundedAmount.currency
  }

  /** Stored refund results name orders as they were sold. */
  ghost predicate RefundsNameSales(s: State) {
    forall k :: k in s.refundEntries ==>
      s.refundEntries[k].orderId in s.orders && SameSale(s.refundEntries[k].result.order, s.orders[s.refundEntries[k].orderId])
  }

  /** The part of the invariant that neither prices nor seedings can break. */
  ghost predicate Tables(s: State) {
    CartIdsOk(s) && OrderIdsOk(s) && OneCurrencyEach(s) && RefundsNameSales(s) && EntriesOk(s) && EntriesDiffer(s.checkouts)
  }

  lemma EmptyTables()
    ensures Tables(EMPTY)
  {
  }

  /** Nothing but products, stock and open carts changed. */
  lemma CartChangeKeepsTables(s: State, t: State)
    requires Tables(s) && CartIdsOk(t)
    requires t.orders == s.orders && t.payments == s.payments && t.refundEntries == s.refundEntries && t.checkouts == s.checkouts
    requires s.sequence <= t.sequence
    requires forall id :: id in s.carts && s.carts[id].status == CheckedOut ==> id in t.carts && t.carts[id] == s.carts[id]
    ensures Tables(t)
  {
    hide SameSale, EntriesDiffer, CartIdsOk;
    forall k | k in t.checkouts
      ensures EntryOk(t, t.checkouts[k])
    {
      assert EntryOk(s, s.checkouts[k]);
    }
  }

  lemma SeedKeepsTables(s: State, p: Product, location: string)
    requires Tables(s)
    ensures Tables(SeedProduct(s, p, location).0)
  {
    hide OrderIdsOk, OneCurrencyEach, RefundsNameSales, EntriesOk, EntriesDiffer, ValidMoney;
    CartChangeKeepsTables(s, SeedProduct(s, p, location).0);
  }

  lemma NewCartKeepsTables(s: State, who: Identity)
    requires Tables(s)
    ensures Tables(CreateCart(s, who).0)
  {
    hide OrderIdsOk, OneCurrencyEach, RefundsNameSales, EntriesOk, EntriesDiffer;
    CartChangeKeepsTables(s, CreateCart(s, who).0);
  }

  lemma AddKeepsTables(s: State, who: Identity, cartId: Id, sku: string, quantity: int)
    requires Tables(s)
    ensures Tables(AddLine(s, who, cartId, sku, quantity).0)
  {
    hide OrderIdsOk, OneCurrencyEach, RefundsNameSales, EntriesOk, EntriesDiffer, RaiseLine, HasLine;
    CartChangeKeepsTables(s, AddLine(s, who, cartId, sku, quantity).0);
  }

  /** A fresh order of an open cart, and its entry, keep the tables. */
  lemma NewSaleKeepsTables(s: State, t: State, key: string, e: CheckoutEntry)
    requires Tables(s) && EntryAdded(s, t, key, e) && EntryOk(t, e) && CartIdsOk(t)
    requires t.refundEntries == s.refundEntries && s.sequence < e.result.order.id <= t.sequence
    requires t.payments == s.payments[e.result.order.id := e.result.payment]
    requires e.result.payment.amount.currency == e.result.payment.refundedAmount.currency
    ensures Tables(t)
  {
    hide EntryOk, SameSale, CartIdsOk;
    assert EntriesOk(t) && EntriesDiffer(t.checkouts) by {
      forall k | k in s.checkouts
        ensures EntryOk(t, s.checkouts[k]) && s.checkouts[k].cartId != e.cartId && s.checkouts[k].result.order.id != e.result.order.id
      {
        OldEntriesStay(s, t, key, e, k);
      }
    }
  }

  /** A checkout about to commit has its checks behind it. */
  ghost predicate Committing(s: State, who: Identity, cartId: Id, key: string) {
    && OwnsCart(s, who, cartId) && s.carts[cartId].status == Open && s.carts[cartId].lines != [] && key !in s.checkouts
  }

  lemma FreshCheckoutCommits(s: State, who: Identity, cartId: Id, idempotencyKey: string)
    requires Checkout(s, who, cartId, idempotencyKey).1.Ok? && ScopedKey(who.tenant, idempotencyKey) !in s.checkouts
    ensures Committing(s, who, cartId, ScopedKey(who.tenant, idempotencyKey))
    ensures var (t, r) := CommitCheckout(s, who, s.carts[cartId], ScopedKey(who.tenant, idempotencyKey));
      Checkout(s, who, cartId, idempotencyKey) == (t, Ok(r))
  {
    hide CommitCheckout, FirstShort, SameCurrency;
  }

  lemma CommitKeepsTables(s: State, who: Identity, cartId: Id, key: string)
    requires Tables(s) && Committing(s, who, cartId, key)
    ensures Tables(CommitCheckout(s, who, s.carts[cartId], key).0)
  {
    hide EntriesOk, EntriesDiffer, OneCurrencyEach, RefundsNameSales, CommitLines, CommitSnapshots, EarnedPoints, Subtotal;
    var t := CommitCheckout(s, who, s.carts[cartId], key).0;
    NewSaleKeepsTables(s, t, key, t.checkouts[key]);
  }

  lemma CheckoutKeepsTables(s: State, who: Identity, cartId: Id, key: string)
    requires Tables(s)
    ensures Tables(Checkout(s, who, cartId, key).0)
  {
    hide Tables, CommitCheckout, Committing, FirstShort, SameCurrency, ScopedKey;
    if Checkout(s, who, cartId, key).1.Ok? && ScopedKey(who.tenant, key) !in s.checkouts {
      FreshCheckoutCommits(s, who, cartId, key);
      CommitKeepsTables(s, who, cartId, ScopedKey(who.tenant, key));
    }
  }

  /** One order and its payment moved on in one currency. */
  lemma SaleChangeKeepsTables(s: State, t: State, id: Id)
    requires Tables(s) && id in s.orders && t.carts == s.carts && t.checkouts == s.checkouts && s.sequence <= t.sequence
    requires id in t.orders && t.orders == s.orders[id := t.orders[id]] && SameSale(t.orders[id], s.orders[id])
    requires id in t.payments && t.payments == s.payments[id := t.payments[id]] && t.payments[id].amount.currency == t.payments[id].refundedAmount.currency
    requires forall k :: k in t.refundEntries ==>
      if k in s.refundEntries then t.refundEntries[k] == s.refundEntries[k]
      else t.refundEntries[k].orderId == id && SameSale(t.refundEntries[k].result.order, t.orders[id])
    ensures Tables(t)
  {
    assert EntriesOk(t) by {
      forall k | k in t.checkouts
        ensures EntryOk(t, t.checkouts[k])
      {
        assert EntryOk(s, s.checkouts[k]);
      }
    }
    hide EntryOk, EntriesOk, EntriesDiffer;
  }

  lemma RefundKeepsTables(s: State, who: Identity, orderId: Id, amount: Money, key: string)
    requires Tables(s)
    ensures Tables(RefundOrder(s, who, orderId, amount, key).0)
  {
    hide EntriesOk, EntriesDiffer, SameCurrency, ScopedKey;
    var t := RefundOrder(s, who, orderId, amount, key).0;
    if t != s {
      SaleChangeKeepsTables(s, t, orderId);
    }
  }

  /** Whether fresh or repeated, the result of a refund names the order as it was sold. */
  lemma RefundNamesSale(s: State, who: Identity, orderId: Id, amount: Money, key: string)
    requires Tables(s) && RefundOrder(s, who, orderId, amount, key).1.Ok?
    ensures var (t, r) := RefundOrder(s, who, orderId, amount, key);
      orderId in t.orders && orderId in t.payments && SameSale(r.value.order, t.orders[orderId])
  {
    hide CartIdsOk, EntriesOk, EntriesDiffer, OneCurrencyEach, SameCurrency, ScopedKey;
    var k := ScopedKey(who.tenant, key);
    assert k in s.refundEntries ==> s.refundEntries[k].orderId in s.orders;
  }

  lemma CommitCancellationKeepsTables(s: State, orderId: Id, reason: string, key: string, r: RefundResult)
    requires Tables(s) && orderId in s.orders && SameSale(r.order, s.orders[orderId])
    ensures Tables(CommitCancellation(s, orderId, reason, key, r).0)
  {
    hide EntriesOk, EntriesDiffer, CartIdsOk, RefundsNameSales;
    var t := CommitCancellation(s, orderId, reason, key, r).0;
    assert t.payments == s.payments[orderId := s.payments[orderId]];
    SaleChangeKeepsTables(s, t, orderId);
  }

  lemma CancelKeepsTables(s: State, who: Identity, orderId: Id, reason: string, key: string)
    requires Tables(s)
    ensures Tables(Cancel(s, who, orderId, reason, key).0)
  {
    hide Tables, RefundOrder, Cancel, CommitCancellation, SameSale, ScopedKey;
    if Cancel(s, who, orderId, reason, key).1.Ok? && ScopedKey(who.tenant, key) !in s.cancellations {
      CancelIsRefundThenStatus(s, who, orderId, reason, key);
      var amount := s.payments[orderId].amount;
      var (t, r) := RefundOrder(s, who, orderId, amount, key + ":refund");
      RefundKeepsTables(s, who, orderId, amount, key + ":refund");
      RefundNamesSale(s, who, orderId, amount, key + ":refund");
      CommitCancellationKeepsTables(t, orderId, reason, ScopedKey(who.tenant, key), r.value);
    } else {
      OldCancelChangesNothing(s, who, orderId, reason, key);
    }
  }

  lemma OldCancelChangesNothing(s: State, who: Identity, orderId: Id, reason: string, key: string)
    requires Cancel(s, who, orderId, reason, key).1.Ok? ==> ScopedKey(who.tenant, key) in s.cancellations
    ensures Cancel(s, who, orderId, reason, key).0 == s
  {
    hide RefundOrder;
  }

  lemma StepKeepsTables(s: State, op: Op)
    requires Tables(s)
    ensures Tables(Step(s, op))
  {
    hide Tables, SeedProduct, CreateCart, AddLine, Checkout, RefundOrder, Cancel;
    match op
    case Seed(product, location) => SeedKeepsTables(s, product, location);
    case NewCart(who) => NewCartKeepsTables(s, who);
    case Add(who, cartId, sku, quantity) => AddKeepsTables(s, who, cartId, sku, quantity);
    case Buy(who, cartId, key) => CheckoutKeepsTables(s, who, cartId, key);
    case Refunding(who, orderId, amount, key) => RefundKeepsTables(s, who, orderId, amount, key);
    case Cancelling(who, orderId, reason, key) => CancelKeepsTables(s, who, orderId, reason, key);
  }

  lemma {:induction false} RunKeepsTables(s: State, ops: seq<Op>)
    requires Tables(s)
    ensures Tables(Run(s, ops))
  {
    hide Tables, Step;
    if ops != [] {
      RunKeepsTables(s, ops[..|ops| - 1]);
      StepKeepsTables(Run(s, ops[..|ops| - 1]), ops[|ops| - 1]);
    }
  }

  lemma EveryRunKeepsTables(ops: seq<Op>)
    ensures Tables(Run(EMPTY, ops))
  {
    hide Tables, Run;
    EmptyTables();
    RunKeepsTables(EMPTY, ops);
  }

  // ---------------------------------------------------------------------------------------
  // What only grows
  // ---------------------------------------------------------------------------------------

  ghost predicate Extends<T>(m: map<string, T>, more: map<string, T>) {
    forall k :: k in m ==> k in more && more[k] == m[k]
  }

  ghost predicate CartsLater(s: State, t: State) {
    forall id :: id in s.carts ==>
      && id in t.carts && t.carts[id].id == s.carts[id].id && t.carts[id].owner == s.carts[id].owner
      && (s.carts[id].status == CheckedOut ==> t.carts[id] == s.carts[id])
  }

  ghost predicate OrdersLater(s: State, t: State) {
    forall id :: id in s.orders ==> id in t.orders && SameSale(t.orders[id], s.orders[id])
  }

  predicate PaymentLater(p: Payment, q: Payment) {
    q.amount == p.amount && q.paymentId == p.paymentId && q.refundedAmount.currency == p.refundedAmount.currency
    && p.refundedAmount.amount <= q.refundedAmount.amount
  }

  ghost predicate PaymentsLater(s: State, t: State) {
    forall id :: id in s.payments ==> id in t.payments && PaymentLater(s.payments[id], t.payments[id])
  }

  /** What no operation takes back: the idempotency tables grow, checked-out carts stay, orders and payments keep what was sold and captured. */
  ghost predicate Later(s: State, t: State) {
    && Extends(s.checkouts, t.checkouts) && Extends(s.refundEntries, t.refundEntries) && Extends(s.cancellations, t.cancellations)
    && CartsLater(s, t) && OrdersLater(s, t) && PaymentsLater(s, t)
  }

  lemma LaterIsReflexive(s: State)
    ensures Later(s, s)
  {
  }

  lemma LaterIsTransitive(s: State, t: State, u: State)
    requires Later(s, t) && Later(t, u)
    ensures Later(s, u)
  {
  }

  /** Nothing but carts and stock records changed, and one cart grew or was added. */
  lemma CartChangeIsLater(s: State, t: State, cart: Cart)
    requires t.checkouts == s.checkouts && t.refundEntries == s.refundEntries && t.cancellations == s.cancellations
    requires t.orders == s.orders && t.payments == s.payments && t.carts == s.carts[cart.id := cart]
    requires cart.id in s.carts ==> s.carts[cart.id].id == cart.id && s.carts[cart.id].owner == cart.owner && s.carts[cart.id].status == Open
    ensures Later(s, t)
  {
  }

  /** A cart was checked out into a fresh order with a fresh entry. */
  lemma NewOrderIsLater(s: State, t: State, cart: Cart, id: Id, key: string)
    requires key in t.checkouts && key !in s.checkouts && t.checkouts == s.checkouts[key := t.checkouts[key]]
    requires t.refundEntries == s.refundEntries && t.cancellations == s.cancellations && t.carts == s.carts[cart.id := cart]
    requires cart.id in s.carts ==> s.carts[cart.id].id == cart.id && s.carts[cart.id].owner == cart.owner && s.carts[cart.id].status == Open
    requires id !in s.orders && id in t.orders && t.orders == s.orders[id := t.orders[id]]
    requires id !in s.payments && id in t.payments && t.payments == s.payments[id := t.payments[id]]
    ensures Later(s, t)
  {
  }

  lemma FreshIds(s: State)
    requires Tables(s)
    ensures s.sequence + 1 !in s.orders && s.sequence + 1 !in s.payments && s.sequence + 1 !in s.carts
    ensures forall id :: id in s.carts ==> s.carts[id].id == id
  {
    hide EntriesOk, EntriesDiffer, RefundsNameSales;
  }

  lemma CheckoutIsLater(s: State, who: Identity, cartId: Id, key: string)
    requires Tables(s)
    ensures Later(s, Checkout(s, who, cartId, key).0)
  {
    hide Tables, Later, CommitLines, CommitSnapshots, EarnedPoints, Subtotal, FirstShort, SameCurrency, ScopedKey;
    FreshIds(s);
    var (t, r) := Checkout(s, who, cartId, key);
    if r.Ok? && ScopedKey(who.tenant, key) !in s.checkouts {
      NewOrderIsLater(s, t, t.carts[cartId], s.sequence + 1, ScopedKey(who.tenant, key));
    } else {
      LaterIsReflexive(s);
    }
  }

  /** One order and its payment moved on, and the refund and cancellation tables grew. */
  lemma OrderChangeIsLater(s: State, t: State, id: Id)
    requires t.checkouts == s.checkouts && t.carts == s.carts
    requires Extends(s.refundEntries, t.refundEntries) && Extends(s.cancellations, t.cancellations)
    requires id in s.orders && id in t.orders && t.orders == s.orders[id := t.orders[id]] && SameSale(t.orders[id], s.orders[id])
    requires id in s.payments && id in t.payments && t.payments == s.payments[id := t.payments[id]] && PaymentLater(s.payments[id], t.payments[id])
    ensures Later(s, t)
  {
    hide SameSale, PaymentLater, Extends;
    assert Extends(s.checkouts, t.checkouts) && CartsLater(s, t) by {
      LaterIsReflexive(s);
    }
    assert OrdersLater(s, t) by {
      forall k | k in s.orders && k != id
        ensures SameSale(s.orders[k], s.orders[k])
      {
        SaleIsItself(s.orders[k], s.payments[id]);
      }
    }
    forall k | k in s.payments && k != id
      ensures PaymentLater(s.payments[k], s.payments[k])
    {
      SaleIsItself(s.orders[id], s.payments[k]);
    }
  }

  lemma SaleIsItself(o: Order, p: Payment)
    ensures SameSale(o, o) && PaymentLater(p, p)
  {
  }

  lemma PaymentCurrency(s: State, id: Id)
    requires Tables(s) && id in s.payments
    ensures s.payments[id].amount.currency == s.payments[id].refundedAmount.currency
  {
    hide EntriesOk, EntriesDiffer, RefundsNameSales, CartIdsOk, OrderIdsOk;
  }

  lemma RefundIsLater(s: State, who: Identity, orderId: Id, amount: Money, key: string)
    requires Tables(s)
    ensures Later(s, RefundOrder(s, who, orderId, amount, key).0)
  {
    hide Tables, Later, SameCurrency, ScopedKey;
    var t := RefundOrder(s, who, orderId, amount, key).0;
    if t == s {
      LaterIsReflexive(s);
    } else {
      PaymentCurrency(s, orderId);
      OrderChangeIsLater(s, t, orderId);
    }
  }

  lemma CancelIsLater(s: State, who: Identity, orderId: Id, reason: string, key: string)
    requires Tables(s)
    ensures Later(s, Cancel(s, who, orderId, reason, key).0)
  {
    hide Tables, Later, RefundOrder, Cancel, ScopedKey, SameSale;
    if Cancel(s, who, orderId, reason, key).1.Ok? && ScopedKey(who.tenant, key) !in s.cancellations {
      CancelIsRefundThenStatus(s, who, orderId, reason, key);
      var amount := s.payments[orderId].amount;
      var (t, r) := RefundOrder(s, who, orderId, amount, key + ":refund");
      RefundIsLater(s, who, orderId, amount, key + ":refund");
      RefundNamesSale(s, who, orderId, amount, key + ":refund");
      RefundsLeaveCancellations(s, who, orderId, amount, key + ":refund");
      CancellationIsLater(t, orderId, reason, ScopedKey(who.tenant, key), r.value);
      LaterIsTransitive(s, t, Cancel(s, who, orderId, reason, key).0);
    } else {
      OldCancelChangesNothing(s, who, orderId, reason, key);
      LaterIsReflexive(s);
    }
  }

  lemma CancellationIsLater(s: State, orderId: Id, reason: string, key: string, r: RefundResult)
    requires orderId in s.orders && orderId in s.payments && SameSale(r.order, s.orders[orderId]) && key !in s.cancellations
    ensures Later(s, CommitCancellation(s, orderId, reason, key, r).0)
  {
    hide Later;
    var t := CommitCancellation(s, orderId, reason, key, r).0;
    assert t.payments == s.payments[orderId := s.payments[orderId]];
    OrderChangeIsLater(s, t, orderId);
  }

  lemma RefundsLeaveCancellations(s: State, who: Identity, orderId: Id, amount: Money, key: string)
    ensures RefundOrder(s, who, orderId, amount, key).0.cancellations == s.cancellations
  {
    hide SameCurrency;
  }

  lemma StepIsLater(s: State, op: Op)
    requires Tables(s)
    ensures Later(s, Step(s, op))
  {
    hide Tables, Checkout, RefundOrder, Cancel, Later;
    match op
    case Buy(who, cartId, key) => CheckoutIsLater(s, who, cartId, key);
    case Refunding(who, orderId, amount, key) => RefundIsLater(s, who, orderId, amount, key);
    case Cancelling(who, orderId, reason, key) => CancelIsLater(s, who, orderId, reason, key);
    case _ => CartStepIsLater(s, op);
  }

  lemma CartStepIsLater(s: State, op: Op)
    requires Tables(s) && (op.Seed? || op.NewCart? || op.Add?)
    ensures Later(s, Step(s, op))
  {
    hide Tables, Later, ValidMoney, RaiseLine, HasLine;
    FreshIds(s);
    LaterIsReflexive(s);
    var t := Step(s, op);
    match op
    case NewCart(who) => CartChangeIsLater(s, t, CreateCart(s, who).1);
    case Add(who, cartId, sku, quantity) =>
      if t != s {
        CartChangeIsLater(s, t, t.carts[cartId]);
      }
    case _ => SeedIsLater(s, op.product, op.location);
  }

  lemma SeedIsLater(s: State, p: Product, location: string)
    ensures Later(s, SeedProduct(s, p, location).0)
  {
  }

  lemma {:induction false} LaterAfterRun(s: State, ops: seq<Op>)
    requires Tables(s)
    ensures Later(s, Run(s, ops)) && Tables(Run(s, ops))
  {
    hide Tables, Step, Later;
    if ops == [] {
      LaterIsReflexive(s);
    } else {
      var n := |ops| - 1;
      LaterAfterRun(s, ops[..n]);
      StepIsLater(Run(s, ops[..n]), ops[n]);
      StepKeepsTables(Run(s, ops[..n]), ops[n]);
      LaterIsTransitive(s, Run(s, ops[..n]), Run(s, ops));
    }
  }

  /** After any run, no further run takes back an entry, a checked-out cart, a sale or a payment. */
  lemma RunIsLater(before: seq<Op>, ops: seq<Op>)
    ensures Later(Run(EMPTY, before), Run(Run(EMPTY, before), ops))
  {
    hide *;
    EveryRunKeepsTables(before);
    LaterAfterRun(Run(EMPTY, before), ops);
  }

  // ---------------------------------------------------------------------------------------
  // Retries
  // ---------------------------------------------------------------------------------------

  /** After a successful checkout its entry is in the table and its cart is checked out with the entry's lines. */
  lemma CheckoutIsRecorded(s: State, who: Identity, cartId: Id, key: string)
    requires Tables(s) && Checkout(s, who, cartId, key).1.Ok?
    ensures var (t, r) := Checkout(s, who, cartId, key);
      && ScopedKey(who.tenant, key) in t.checkouts && cartId in t.carts && t.carts[cartId].id == cartId
      && t.checkouts[ScopedKey(who.tenant, key)] == CheckoutEntry(who, cartId, t.carts[cartId].lines, r.value)
      && t.carts[cartId].owner == who && t.carts[cartId].status == CheckedOut
  {
    hide CommitLines, CommitSnapshots, EarnedPoints, Subtotal, FirstShort, SameCurrency, OrderIdsOk, OneCurrencyEach, RefundsNameSales, EntriesDiffer;
    var k := ScopedKey(who.tenant, key);
    if k in s.checkouts {
      assert EntryOk(s, s.checkouts[k]);
    }
  }

  /** Whatever came before and comes between, a checkout that succeeded gives the identical result and changes nothing when it is retried. */
  lemma CheckoutRetries(before: seq<Op>, who: Identity, cartId: Id, key: string, ops: seq<Op>)
    requires Checkout(Run(EMPTY, before), who, cartId, key).1.Ok?
    ensures var (t, r) := Checkout(Run(EMPTY, before), who, cartId, key); Checkout(Run(t, ops), who, cartId, key) == (Run(t, ops), r)
  {
    hide Tables, CommitCheckout, FirstShort, SameCurrency, Run;
    var s := Run(EMPTY, before);
    var t := Checkout(s, who, cartId, key).0;
    EveryRunKeepsTables(before);
    CheckoutIsRecorded(s, who, cartId, key);
    CheckoutKeepsTables(s, who, cartId, key);
    LaterAfterRun(t, ops);
  }

  lemma RefundIsRecorded(s: State, who: Identity, orderId: Id, amount: Money, key: string)
    requires RefundOrder(s, who, orderId, amount, key).1.Ok?
    ensures var (t, r) := RefundOrder(s, who, orderId, amount, key);
      && ScopedKey(who.tenant, key) in t.refundEntries
      && t.refundEntries[ScopedKey(who.tenant, key)] == RefundEntry(orderId, amount, r.value)
      && OwnsOrder(t, who, orderId) && orderId in t.payments
      && amount.currency != "" && amount.currency == t.payments[orderId].amount.currency == t.payments[orderId].refundedAmount.currency
  {
    hide ScopedKey, Blank, SameCurrency;
    RefundIsInOneCurrency(s, who, orderId, amount, key);
  }

  lemma RefundIsInOneCurrency(s: State, who: Identity, orderId: Id, amount: Money, key: string)
    requires RefundOrder(s, who, orderId, amount, key).1.Ok?
    ensures orderId in s.payments && amount.currency != ""
    ensures amount.currency == s.payments[orderId].amount.currency == s.payments[orderId].refundedAmount.currency
  {
    hide ScopedKey, Blank, CommitRefund;
    var ms := [amount, s.payments[orderId].amount, s.payments[orderId].refundedAmount];
    assert ms[1].currency == ms[0].currency == ms[2].currency;
  }

  /** Whatever came before and comes between, a refund that succeeded gives the identical result and changes nothing when it is retried. */
  lemma RefundRetries(before: seq<Op>, who: Identity, orderId: Id, amount: Money, key: string, ops: seq<Op>)
    requires RefundOrder(Run(EMPTY, before), who, orderId, amount, key).1.Ok?
    ensures var (t, r) := RefundOrder(Run(EMPTY, before), who, orderId, amount, key);
      RefundOrder(Run(t, ops), who, orderId, amount, key) == (Run(t, ops), r)
  {
    hide Tables, CommitRefund, Run;
    var s := Run(EMPTY, before);
    var t := RefundOrder(s, who, orderId, amount, key).0;
    EveryRunKeepsTables(before);
    RefundIsRecorded(s, who, orderId, amount, key);
    RefundKeepsTables(s, who, orderId, amount, key);
    LaterAfterRun(t, ops);
  }

  lemma CancellationIsRecorded(s: State, who: Identity, orderId: Id, reason: string, key: string)
    requires Tables(s) && Cancel(s, who, orderId, reason, key).1.Ok?
    ensures var (t, r) := Cancel(s, who, orderId, reason, key);
      && ScopedKey(who.tenant, key) in t.cancellations
      && t.cancellations[ScopedKey(who.tenant, key)] == CancellationEntry(orderId, reason, r.value)
      && OwnsOrder(t, who, orderId) && orderId in t.payments
  {
    hide Tables, RefundOrder;
    CancelIsLater(s, who, orderId, reason, key);
  }

  /** Whatever came before and comes between, a cancellation that succeeded gives the identical result and changes nothing when it is retried. */
  lemma CancelRetries(before: seq<Op>, who: Identity, orderId: Id, reason: string, key: string, ops: seq<Op>)
    requires Cancel(Run(EMPTY, before), who, orderId, reason, key).1.Ok?
    ensures var (t, r) := Cancel(Run(EMPTY, before), who, orderId, reason, key); Cancel(Run(t, ops), who, orderId, reason, key) == (Run(t, ops), r)
  {
    hide Tables, RefundOrder, CommitCancellation, Run;
    var s := Run(EMPTY, before);
    var t := Cancel(s, who, orderId, reason, key).0;
    EveryRunKeepsTables(before);
    CancellationIsRecorded(s, who, orderId, reason, key);
    CancelKeepsTables(s, who, orderId, reason, key);
    LaterAfterRun(t, ops);
  }

  /** However often a cart is checked out, by whom and with which keys, all successes give one and the same order. */
  lemma OneOrderPerCart(before: seq<Op>, who: Identity, cartId: Id, key: string, ops: seq<Op>, again: Identity, otherKey: string)
    requires Checkout(Run(EMPTY, before), who, cartId, key).1.Ok?
    requires Checkout(Run(Checkout(Run(EMPTY, before), who, cartId, key).0, ops), again, cartId, otherKey).1.Ok?
    ensures again == who && ScopedKey(who.tenant, otherKey) == ScopedKey(who.tenant, key)
    ensures Checkout(Run(Checkout(Run(EMPTY, before), who, cartId, key).0, ops), again, cartId, otherKey).1 == Checkout(Run(EMPTY, before), who, cartId, key).1
  {
    hide Tables, CommitCheckout, FirstShort, SameCurrency, Run;
    var s := Run(EMPTY, before);
    var t := Checkout(s, who, cartId, key).0;
    var u := Run(t, ops);
    EveryRunKeepsTables(before);
    CheckoutIsRecorded(s, who, cartId, key);
    CheckoutKeepsTables(s, who, cartId, key);
    LaterAfterRun(t, ops);
    CheckoutIsRecorded(u, again, cartId, otherKey);
    CheckedOutCartReplays(u, again, cartId, otherKey);
    EntriesOfTablesDiffer(u);
  }

  lemma EntriesOfTablesDiffer(s: State)
    requires Tables(s)
    ensures EntriesDiffer(s.checkouts)
  {
    hide EntriesDiffer;
  }

  lemma CheckedOutCartReplays(u: State, who: Identity, cartId: Id, key: string)
    requires cartId in u.carts && u.carts[cartId].status == CheckedOut && Checkout(u, who, cartId, key).1.Ok?
    ensures Checkout(u, who, cartId, key).0 == u
  {
    hide CommitCheckout, FirstShort, SameCurrency;
  }
}
