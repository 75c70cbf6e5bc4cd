/**
 Exactly when each operation of the merchant succeeds, and what a success books: told from the
 orders, refunds and stock as they stand, not from the checks that the operation makes.
 */
module CommerceDecisions {
  import opened Results
  import opened Strings
  import opened Commerce
  import opened CommerceIntegrity
  import opened CommerceInvariant
  import opened CommerceRuns

  // ---------------------------------------------------------------------------------------
  // Seeding and carts
  // ---------------------------------------------------------------------------------------

  /** A product is seeded exactly with a quantity that is not negative and safe, in a currency of three capitals, at no negative price. */
  lemma SeedSucceedsIff(s: State, p: Product, location: string)
    ensures SeedProduct(s, p, location).1.Ok? <==>
      && 0 <= p.onHand <= MAX_SAFE_INTEGER && p.price.amount >= 0
      && |p.price.currency| == 3 && forall i :: 0 <= i < 3 ==> 'A' <= p.price.currency[i] <= 'Z'
    ensures SeedProduct(s, p, location).1.Ok? ==>
      var t := SeedProduct(s, p, location).0;
      && p.sku in t.products && t.products[p.sku] == p && p.sku in t.inventory
      && t.inventory[p.sku].onHand == p.onHand && t.inventory[p.sku].committed == t.inventory[p.sku].reserved == 0
      && t.inventory[p.sku].location == location && !t.inventory[p.sku].backorderAllowed
      && (forall sku :: sku != p.sku ==> (sku in t.products <==> sku in s.products) && (sku in t.inventory <==> sku in s.inventory))
      && (forall sku :: sku in s.products && sku != p.sku ==> t.products[sku] == s.products[sku])
      && forall sku :: sku in s.inventory && sku != p.sku ==> t.inventory[sku] == s.inventory[sku]
  {
  }

  /** A new cart is the caller's own, empty and open, and takes no other's place. */
  lemma CreateCartBooks(s: State, who: Identity)
    requires Inv(s)
    ensures var (t, cart) := CreateCart(s, who);
      && cart.owner == who && cart.lines == [] && cart.status == Open && cart.revision == 0
      && cart.id !in s.carts && t == s.(carts := s.carts[cart.id := cart], sequence := t.sequence)
  {
    hide ProductsOk, StocksOk, OrdersOk, CheckoutsOk, LoyaltyOk, RefundsOk, RefundEntriesOk;
  }

  /** A line is added exactly to the caller's own open cart, of a seeded SKU, in a positive and safe quantity. */
  lemma AddLineSucceedsIff(s: State, who: Identity, cartId: Id, sku: string, quantity: int)
    ensures AddLine(s, who, cartId, sku, quantity).1.Ok? <==>
      && cartId in s.carts && s.carts[cartId].owner == who && s.carts[cartId].status == Open
      && sku in s.products && 0 < quantity <= MAX_SAFE_INTEGER
  {
    hide RaiseLine, HasLine;
  }

  /** What a line of the SKU holds after the addition: the old quantity and the new, at the price. */
  ghost predicate LineAdded(before: seq<Line>, l: Line, sku: string, price: Money, quantity: int) {
    && l.quantity == QuantityOf(before, sku) + quantity && l.unitPrice == price
    && l.lineTotal == Money(price.currency, l.quantity * price.amount)
  }

  /** The lines after the addition: those there were, the one of the SKU raised, or a new one at the end. */
  ghost predicate LinesGrow(before: seq<Line>, after: seq<Line>, sku: string, price: Money, quantity: int) {
    && |before| <= |after| <= |before| + 1
    && (|after| > |before| <==> forall i :: 0 <= i < |before| ==> before[i].sku != sku)
    && (forall i :: 0 <= i < |before| ==> after[i].sku == before[i].sku && (before[i].sku != sku ==> after[i] == before[i]))
    && (|after| > |before| ==> after[|before|].sku == sku)
    && forall i :: 0 <= i < |after| && after[i].sku == sku ==> LineAdded(before, after[i], sku, price, quantity)
  }

  /** A successful addition grows the cart's lines so and changes nothing else but the cart's revision. */
  lemma AddLineBooks(s: State, who: Identity, cartId: Id, sku: string, quantity: int)
    requires Inv(s) && AddLine(s, who, cartId, sku, quantity).1.Ok?
    ensures var (t, r) := AddLine(s, who, cartId, sku, quantity);
      && cartId in t.carts && r == Ok(t.carts[cartId]) && t == s.(carts := s.carts[cartId := t.carts[cartId]])
      && t.carts[cartId] == s.carts[cartId].(revision := s.carts[cartId].revision + 1, lines := t.carts[cartId].lines)
      && LinesGrow(s.carts[cartId].lines, t.carts[cartId].lines, sku, s.products[sku].price, quantity)
  {
    var before, price := s.carts[cartId], s.products[sku].price;
    CartLinesAreOk(s, cartId);
    if HasLine(before.lines, sku) {
      RaisedLinesGrow(before.lines, sku, quantity, price);
    } else {
      NewLineGrows(before.lines, sku, quantity, price);
    }
    hide RaiseLine, LinesGrow, Inv;
  }

  lemma NewLineGrows(lines: seq<Line>, sku: string, quantity: int, price: Money)
    requires !HasLine(lines, sku)
    ensures LinesGrow(lines, lines + [Line(sku, quantity, price, Money(price.currency, quantity * price.amount))], sku, price, quantity)
  {
    NoQuantity(lines, sku);
    hide QuantityOf;
  }

  lemma CartLinesAreOk(s: State, cartId: Id)
    requires Inv(s) && cartId in s.carts
    ensures LinesOk(s.carts[cartId].lines, s.products) && (s.carts[cartId].status == Open ==> PricedAsProducts(s.carts[cartId].lines, s.products))
  {
    hide ProductsOk, StocksOk, OrdersOk, RefundsOk, CheckoutsOk, LoyaltyOk, RefundEntriesOk, LinesOk, PricedAsProducts;
    assert CartOk(s, s.carts[cartId]);
  }

  lemma {:induction false} RaisedAt(lines: seq<Line>, sku: string, quantity: int, price: Money, i: nat)
    requires i < |lines|
    ensures RaiseLine(lines, sku, quantity, price)[i] == Raised(lines[i], sku, quantity, price)
  {
    if i > 0 {
      RaisedAt(lines[1..], sku, quantity, price, i - 1);
    }
  }

  lemma RaisedLinesGrow(lines: seq<Line>, sku: string, quantity: int, price: Money)
    requires UniqueSkus(lines) && HasLine(lines, sku)
    requires forall i :: 0 <= i < |lines| && lines[i].sku == sku ==> lines[i].unitPrice == price
    ensures LinesGrow(lines, RaiseLine(lines, sku, quantity, price), sku, price, quantity)
  {
    hide RaiseLine, QuantityOf;
    forall i | 0 <= i < |lines|
      ensures RaiseLine(lines, sku, quantity, price)[i] == Raised(lines[i], sku, quantity, price)
      ensures QuantityOf(lines, lines[i].sku) == lines[i].quantity
    {
      RaisedAt(lines, sku, quantity, price, i);
      QuantityAt(lines, i);
    }
  }

  // ---------------------------------------------------------------------------------------
  // Checkout
  // ---------------------------------------------------------------------------------------

  /** What is there beyond all orders serves the line. */
  ghost predicate IsLeft(s: State, l: Line) {
    l.sku in s.inventory && Ordered(s.orderIds, s.orders, l.sku) + l.quantity <= s.inventory[l.sku].onHand
  }

  ghost predicate OneCurrency(lines: seq<Line>) {
    forall i, j :: 0 <= i < |lines| && 0 <= j < |lines| ==> lines[i].unitPrice.currency == lines[j].unitPrice.currency
  }

  /**
   With an unused key a checkout succeeds exactly on the caller's own open cart with lines in one
   currency, each of which is left over by all orders; a used key repeats exactly its own cart's checkout.
   */
  lemma CheckoutSucceedsIff(s: State, who: Identity, cartId: Id, key: string)
    requires Inv(s)
    ensures ScopedKey(who.tenant, key) !in s.checkouts ==>
      (Checkout(s, who, cartId, key).1.Ok? <==>
        && !Blank(key) && cartId in s.carts && s.carts[cartId].owner == who
        && s.carts[cartId].status == Open && s.carts[cartId].lines != [] && OneCurrency(s.carts[cartId].lines)
        && forall i :: 0 <= i < |s.carts[cartId].lines| ==> IsLeft(s, s.carts[cartId].lines[i]))
    ensures ScopedKey(who.tenant, key) in s.checkouts ==>
      (Checkout(s, who, cartId, key).1.Ok? <==>
        !Blank(key) && cartId in s.carts && s.carts[cartId].owner == who && s.checkouts[ScopedKey(who.tenant, key)].cartId == cartId)
  {
    hide Blank, ScopedKey, CommitCheckout, Inv, SameCurrency, FirstShort, LineMonies, OneCurrency, IsLeft;
    if cartId in s.carts {
      CartIdIsKey(s, cartId);
      CartChecks(s, cartId);
    }
    if ScopedKey(who.tenant, key) in s.checkouts {
      UsedKeyFits(s, ScopedKey(who.tenant, key));
    }
  }

  /** What the checks of the cart's lines come to. */
  lemma CartChecks(s: State, cartId: Id)
    requires Inv(s) && cartId in s.carts
    ensures var lines := s.carts[cartId].lines;
      && (FirstShort(s.inventory, lines).None? <==> forall i :: 0 <= i < |lines| ==> IsLeft(s, lines[i]))
      && (lines != [] ==> (SameCurrency(LineMonies(lines)) <==> OneCurrency(lines)))
  {
    var lines := s.carts[cartId].lines;
    CartLinesAreOk(s, cartId);
    hide Inv, FirstShort, LineMonies, SameCurrency, OneCurrency, IsLeft, Served;
    NoneShort(s.inventory, lines);
    LeftIffServed(s, lines);
    if lines != [] {
      CurrencyIff(lines);
    }
  }

  lemma CartIdIsKey(s: State, cartId: Id)
    requires Inv(s) && cartId in s.carts
    ensures s.carts[cartId].id == cartId
  {
    hide ProductsOk, StocksOk, OrdersOk, RefundsOk, CheckoutsOk, LoyaltyOk, RefundEntriesOk, CartOk;
  }

  lemma UsedKeyFits(s: State, key: string)
    requires Inv(s) && key in s.checkouts
    ensures var e := s.checkouts[key]; e.cartId in s.carts && s.carts[e.cartId].lines == e.lines && s.carts[e.cartId].owner == e.owner
  {
    hide ProductsOk, StocksOk, CartsOk, OrdersOk, RefundsOk, LoyaltyOk, RefundEntriesOk, EntriesDiffer;
    assert EntryOk(s, s.checkouts[key]);
  }

  lemma LeftIffServed(s: State, lines: seq<Line>)
    requires Inv(s)
    ensures forall i :: 0 <= i < |lines| ==> (Served(s.inventory, lines[i]) <==> IsLeft(s, lines[i]))
  {
    hide ProductsOk, CartsOk, OrdersOk, RefundsOk, CheckoutsOk, LoyaltyOk, RefundEntriesOk, Ordered;
  }

  lemma CurrencyIff(lines: seq<Line>)
    requires lines != [] && forall i :: 0 <= i < |lines| ==> LineOk(lines[i])
    ensures SameCurrency(LineMonies(lines)) <==> OneCurrency(lines)
  {
    hide LineMonies;
    if SameCurrency(LineMonies(lines)) {
      hide SameCurrency;
      SameCurrencyOfLines(lines);
    } else if OneCurrency(lines) {
      var ms := LineMonies(lines);
      MoniesHold(lines, 0);
      assert LineOk(lines[0]);
      forall k | 0 <= k < |ms|
        ensures ms[k].currency == ms[0].currency
      {
        MoniesHold(lines, k / 2);
        assert k == 2 * (k / 2) || k == 2 * (k / 2) + 1;
        assert LineOk(lines[k / 2]);
      }
    }
  }

  /** The points that a sale earns: one for every full hundred, at least one, no more than a safe integer. */
  ghost predicate PointsOf(subtotal: int, points: int) {
    if subtotal < 200 then points == 1
    else if subtotal >= 100 * MAX_SAFE_INTEGER then points == MAX_SAFE_INTEGER
    else 100 * points <= subtotal < 100 * points + 100
  }

  /** The order is new, of the cart's lines and for their total, and it is paid and captured in full. */
  ghost predicate SaleBooked(s: State, t: State, who: Identity, cart: Cart, o: Order, p: Payment)
  {
    && o.id !in s.orders && o.id in t.orders && t.orders == s.orders[o.id := o] && t.orderIds == s.orderIds + [o.id]
    && o.owner == who && o.lines == cart.lines && o.status == Paid && o.revision == 1
    && o.total.amount == o.subtotal.amount == Subtotal(cart.lines) && o.tax.amount == o.discount.amount == 0
    && t.payments == s.payments[o.id := p]
    && p.orderId == o.id && p.amount == o.total && p.refundedAmount.amount == 0 && p.status == Captured
  }

  /** The caller's account, opened if need be, earns the points in one transaction for the order. */
  ghost predicate PointsBooked(s: State, t: State, who: Identity, o: Order) {
    var key := KeyOf(who);
    && key in t.accounts && key in t.loyalty && t.loyalty[key] != []
    && (exists points :: PointsOf(o.subtotal.amount, points) && Earned(s, t, key, points, o.id))
    && (key !in s.accounts ==> t.accounts[key].owner == who)
    && (forall k :: k in s.accounts && k != key ==> k in t.accounts && t.accounts[k] == s.accounts[k])
    && forall k :: k in s.loyalty && k != key ==> k in t.loyalty && t.loyalty[k] == s.loyalty[k]
  }

  ghost predicate Earned(s: State, t: State, key: string, points: int, orderId: Id)
    requires key in t.accounts && key in t.loyalty && t.loyalty[key] != []
  {
    var log := t.loyalty[key];
    && t.accounts[key].balance == (if key in s.accounts then s.accounts[key].balance else 0) + points
    && log[..|log| - 1] == (if key in s.loyalty then s.loyalty[key] else [])
    && log[|log| - 1].points == points && log[|log| - 1].kind == Earn && log[|log| - 1].reference == orderId
    && log[|log| - 1].accountId == t.accounts[key].id
  }

  /** The lines' quantities are committed, each in its own record, and the result shows the records. */
  ghost predicate StockBooked(s: State, t: State, cart: Cart, snapshots: seq<Stock>) {
    && t.inventory.Keys == s.inventory.Keys && |snapshots| == |cart.lines|
    && (forall sku :: sku in s.inventory ==>
          t.inventory[sku].committed == s.inventory[sku].committed + QuantityOf(cart.lines, sku)
          && t.inventory[sku] == s.inventory[sku].(committed := t.inventory[sku].committed, revision := t.inventory[sku].revision))
    && forall i :: 0 <= i < |cart.lines| ==> cart.lines[i].sku in t.inventory && snapshots[i] == t.inventory[cart.lines[i].sku]
  }

  /** What a successful checkout with an unused key books. */
  lemma CheckoutBooks(s: State, who: Identity, cartId: Id, key: string)
    requires Inv(s) && Checkout(s, who, cartId, key).1.Ok? && ScopedKey(who.tenant, key) !in s.checkouts
    ensures cartId in s.carts
    ensures var (t, r) := Checkout(s, who, cartId, key);
      && SaleBooked(s, t, who, s.carts[cartId], r.value.order, r.value.payment)
      && PointsBooked(s, t, who, r.value.order)
      && StockBooked(s, t, s.carts[cartId], r.value.inventory)
      && t.carts == s.carts[cartId := s.carts[cartId].(status := CheckedOut, revision := s.carts[cartId].revision + 1)]
      && t.products == s.products && t.refunds == s.refunds && t.refundEntries == s.refundEntries && t.cancellations == s.cancellations
  {
    hide Blank, ScopedKey, Inv, CommitCheckout, SaleBooked, PointsBooked, StockBooked, ReadyToCommit, FirstShort, SameCurrency;
    var k := ScopedKey(who.tenant, key);
    CheckoutIsReady(s, who, cartId, key);
    var cart := s.carts[cartId];
    CartIdIsKey(s, cartId);
    SaleIsBooked(s, who, cart, k);
    PointsAreBooked(s, who, cart, k);
    StockIsBooked(s, who, cart, k);
    RestIsLeft(s, who, cart, k);
  }

  lemma SaleIsBooked(s: State, who: Identity, cart: Cart, key: string)
    requires Inv(s) && ReadyToCommit(s, who, cart, key)
    ensures cart.lines != []
    ensures var (t, r) := CommitCheckout(s, who, cart, key); SaleBooked(s, t, who, cart, r.order, r.payment)
  {
    NewIdsAreFresh(s);
    hide Inv, CommitLines, CommitSnapshots, EarnedPoints, Subtotal, ScopedKey, Served;
  }

  /** The account and the transaction of a commitment. */
  lemma LoyaltyAfter(s: State, who: Identity, cart: Cart, key: string) returns (account: LoyaltyAccount, id: Id)
    requires cart.lines != []
    ensures var (t, r) := CommitCheckout(s, who, cart, key);
      var points := EarnedPoints(r.order.subtotal.amount);
      && account == (if KeyOf(who) in s.accounts then s.accounts[KeyOf(who)] else LoyaltyAccount(account.id, who, 0, 0))
      && t.accounts == s.accounts[KeyOf(who) := account.(balance := account.balance + points, revision := account.revision + 1)]
      && t.loyalty == s.loyalty[KeyOf(who) :=
        (if KeyOf(who) in s.loyalty then s.loyalty[KeyOf(who)] else []) + [LoyaltyTransaction(id, account.id, Earn, points, r.order.id)]]
  {
    hide CommitLines, CommitSnapshots, Subtotal, ScopedKey, EarnedPoints;
    var known := KeyOf(who) in s.accounts;
    account := if known then s.accounts[KeyOf(who)] else LoyaltyAccount(s.sequence + 3, who, 0, 0);
    id := if known then s.sequence + 3 else s.sequence + 4;
  }

  lemma PointsAreBooked(s: State, who: Identity, cart: Cart, key: string)
    requires cart.lines != []
    ensures var (t, r) := CommitCheckout(s, who, cart, key); PointsBooked(s, t, who, r.order)
  {
    hide CommitCheckout, ScopedKey;
    var (t, r) := CommitCheckout(s, who, cart, key);
    var account, id := LoyaltyAfter(s, who, cart, key);
    var points := EarnedPoints(r.order.subtotal.amount);
    assert PointsOf(r.order.subtotal.amount, points);
    hide EarnedPoints;
    assert Earned(s, t, KeyOf(who), points, r.order.id);
  }

  lemma RestIsLeft(s: State, who: Identity, cart: Cart, key: string)
    requires cart.lines != []
    ensures var t := CommitCheckout(s, who, cart, key).0;
      && t.carts == s.carts[cart.id := cart.(status := CheckedOut, revision := cart.revision + 1)]
      && t.products == s.products && t.refunds == s.refunds && t.refundEntries == s.refundEntries && t.cancellations == s.cancellations
  {
    hide CommitLines, CommitSnapshots, EarnedPoints, Subtotal, ScopedKey;
  }

  lemma StockIsBooked(s: State, who: Identity, cart: Cart, key: string)
    requires Inv(s) && ReadyToCommit(s, who, cart, key)
    ensures cart.lines != []
    ensures var (t, r) := CommitCheckout(s, who, cart, key); StockBooked(s, t, cart, r.inventory)
  {
    hide Inv, ReadyToCommit, CommitLines, CommitSnapshots, EarnedPoints, Subtotal, ScopedKey, QuantityOf, UniqueSkus;
    ReadyLines(s, who, cart, key);
    CommitLinesEffect(s.inventory, cart.lines);
    SnapshotsAreCurrent(s.inventory, cart.lines);
    StockAfter(s, who, cart, key);
    hide CommitCheckout;
  }

  lemma StockAfter(s: State, who: Identity, cart: Cart, key: string)
    requires cart.lines != []
    ensures var (t, r) := CommitCheckout(s, who, cart, key);
      t.inventory == CommitLines(s.inventory, cart.lines) && r.inventory == CommitSnapshots(s.inventory, cart.lines)
  {
    hide CommitLines, CommitSnapshots, EarnedPoints, Subtotal, ScopedKey;
  }

  lemma ReadyLines(s: State, who: Identity, cart: Cart, key: string)
    requires Inv(s) && ReadyToCommit(s, who, cart, key)
    ensures cart.lines != [] && UniqueSkus(cart.lines) && forall i :: 0 <= i < |cart.lines| ==> cart.lines[i].sku in s.inventory
  {
    CartLinesAreOk(s, cart.id);
    hide Inv;
    assert forall i :: 0 <= i < |cart.lines| ==> Served(s.inventory, cart.lines[i]);
  }

  /** Of lines with different SKUs, each snapshot is the record as the whole commitment leaves it. */
  lemma {:induction false} SnapshotsAreCurrent(inventory: map<string, Stock>, lines: seq<Line>)
    requires UniqueSkus(lines) && forall i :: 0 <= i < |lines| ==> lines[i].sku in inventory
    ensures var snapshots, after := CommitSnapshots(inventory, lines), CommitLines(inventory, lines);
      && |snapshots| == |lines| && after.Keys == inventory.Keys
      && forall i :: 0 <= i < |lines| ==> snapshots[i] == after[lines[i].sku]
  {
    hide CommitLine;
    if lines != [] {
      var n := |lines| - 1;
      SnapshotsAreCurrent(inventory, lines[..n]);
      LineLeavesOthers(CommitLines(inventory, lines[..n]), lines[n]);
      forall i | 0 <= i < n
        ensures CommitLines(inventory, lines)[lines[i].sku] == CommitLines(inventory, lines[..n])[lines[i].sku]
      {
        assert lines[..n][i] == lines[i] && lines[i].sku != lines[n].sku;
      }
    }
  }

  lemma LineLeavesOthers(inventory: map<string, Stock>, l: Line)
    ensures CommitLine(inventory, l).Keys == inventory.Keys
    ensures forall sku :: sku in inventory && sku != l.sku ==> CommitLine(inventory, l)[sku] == inventory[sku]
  {
  }

  // ---------------------------------------------------------------------------------------
  // Refunds
  // ---------------------------------------------------------------------------------------

  /**
   With an unused key a refund succeeds exactly on the caller's own order, in its currency, for a
   positive amount that with all refunds of the order so far is within its total; a used key
   repeats exactly its own refund.
   */
  lemma RefundSucceedsIff(s: State, who: Identity, orderId: Id, amount: Money, key: string)
    requires Inv(s)
    ensures ScopedKey(who.tenant, key) !in s.refundEntries ==>
      (RefundOrder(s, who, orderId, amount, key).1.Ok? <==>
        && orderId in s.orders && s.orders[orderId].owner == who && !Blank(key)
        && amount.currency == s.orders[orderId].currency && 0 < amount.amount
        && RefundedOf(s.refunds, orderId) + amount.amount <= s.orders[orderId].total.amount)
    ensures ScopedKey(who.tenant, key) in s.refundEntries ==>
      (RefundOrder(s, who, orderId, amount, key).1.Ok? <==>
        && orderId in s.orders && s.orders[orderId].owner == who && !Blank(key)
        && amount.currency == s.orders[orderId].currency && 0 < amount.amount
        && s.refundEntries[ScopedKey(who.tenant, key)].orderId == orderId && s.refundEntries[ScopedKey(who.tenant, key)].amount == amount)
  {
    hide Blank, ScopedKey, CommitRefund, Inv, SameCurrency, RefundedOf;
    if orderId in s.orders {
      PaymentOfOrder(s, orderId);
      RefundCurrency(s, orderId, amount);
    }
  }

  lemma RefundCurrency(s: State, orderId: Id, amount: Money)
    requires Inv(s) && orderId in s.orders
    ensures orderId in s.payments
    ensures SameCurrency([amount, s.payments[orderId].amount, s.payments[orderId].refundedAmount]) <==> amount.currency == s.orders[orderId].currency
  {
    hide Inv;
    PaymentOfOrder(s, orderId);
    var ms := [amount, s.payments[orderId].amount, s.payments[orderId].refundedAmount];
    assert ms[0] == amount && ms[1] == s.payments[orderId].amount && ms[2] == s.payments[orderId].refundedAmount;
  }

  lemma PaymentOfOrder(s: State, orderId: Id)
    requires Inv(s) && orderId in s.orders
    ensures orderId in s.payments && s.orders[orderId].currency != ""
    ensures var o, p := s.orders[orderId], s.payments[orderId];
      && p.amount.amount == o.total.amount && p.amount.currency == p.refundedAmount.currency == o.currency
      && p.refundedAmount.amount == RefundedOf(s.refunds, orderId)
  {
    hide Inv, RefundedOf;
    OrderFacts(s, orderId);
  }

  /** What a successful refund with an unused key books. */
  lemma RefundBooks(s: State, who: Identity, orderId: Id, amount: Money, key: string)
    requires Inv(s) && RefundOrder(s, who, orderId, amount, key).1.Ok? && ScopedKey(who.tenant, key) !in s.refundEntries
    ensures orderId in s.orders && orderId in s.payments
    ensures var (t, r) := RefundOrder(s, who, orderId, amount, key);
      var all := RefundedOf(s.refunds, orderId) + amount.amount == s.orders[orderId].total.amount;
      && orderId in t.orders && orderId in t.payments && r.value.order == t.orders[orderId] && r.value.payment == t.payments[orderId]
      && t.refunds == s.refunds + [r.value.refund] && r.value.refund.orderId == orderId && r.value.refund.amount == amount && r.value.refund.status == Succeeded
      && RefundedOf(t.refunds, orderId) == RefundedOf(s.refunds, orderId) + amount.amount
      && t.payments == s.payments[orderId := t.payments[orderId]] && t.orders == s.orders[orderId := t.orders[orderId]]
      && t.payments[orderId].amount == s.payments[orderId].amount && t.payments[orderId].refundedAmount.amount == RefundedOf(t.refunds, orderId)
      && t.payments[orderId].status == (if all then FullyRefunded else PartiallyRefunded)
      && SameSale(t.orders[orderId], s.orders[orderId]) && t.orders[orderId].revision == s.orders[orderId].revision + 1
      && t.orders[orderId].status == (if all then RefundedOrder else s.orders[orderId].status)
      && t.products == s.products && t.inventory == s.inventory && t.carts == s.carts && t.orderIds == s.orderIds && t.accounts == s.accounts
      && t.loyalty == s.loyalty && t.checkouts == s.checkouts && t.cancellations == s.cancellations
  {
    hide Blank, ScopedKey, Inv, RefundedOf, SameCurrency;
    RefundIsReady(s, who, orderId, amount, key);
    PaymentOfOrder(s, orderId);
    RefundAppended(s.refunds, Refund(s.sequence + 1, orderId, amount, Succeeded), orderId);
  }

  // ---------------------------------------------------------------------------------------
  // Cancellations
  // ---------------------------------------------------------------------------------------

  /** With an unused key and an unused key for its refund, a cancellation succeeds exactly on the caller's own order of which nothing was refunded. */
  lemma CancelSucceedsIff(s: State, who: Identity, orderId: Id, reason: string, key: string)
    requires Inv(s)
    requires ScopedKey(who.tenant, key) !in s.cancellations && ScopedKey(who.tenant, key + ":refund") !in s.refundEntries
    ensures Cancel(s, who, orderId, reason, key).1.Ok? <==>
      orderId in s.orders && s.orders[orderId].owner == who && !Blank(reason) && !Blank(key) && RefundedOf(s.refunds, orderId) == 0
  {
    if OwnsOrder(s, who, orderId) && !Blank(reason) && !Blank(key) {
      CancelsIffNothingRefunded(s, who, orderId, reason, key);
    }
    hide Inv, RefundedOf, Blank, RefundOrder;
  }

  /** A used key repeats exactly its own cancellation. */
  lemma UsedCancelSucceedsIff(s: State, who: Identity, orderId: Id, reason: string, key: string)
    requires Inv(s) && ScopedKey(who.tenant, key) in s.cancellations
    ensures Cancel(s, who, orderId, reason, key).1.Ok? <==>
      && orderId in s.orders && s.orders[orderId].owner == who && !Blank(reason) && !Blank(key)
      && s.cancellations[ScopedKey(who.tenant, key)].orderId == orderId && s.cancellations[ScopedKey(who.tenant, key)].reason == reason
    ensures Cancel(s, who, orderId, reason, key).1.Ok? ==>
      Cancel(s, who, orderId, reason, key) == (s, Ok(s.cancellations[ScopedKey(who.tenant, key)].result))
  {
    hide Blank, RefundOrder, ScopedKey, Inv, RefundedOf;
    if orderId in s.orders {
      PaymentOfOrder(s, orderId);
    }
  }

  /** What a successful cancellation with unused keys books beyond its full refund. */
  lemma CancelBooks(s: State, who: Identity, orderId: Id, reason: string, key: string)
    requires Inv(s) && Cancel(s, who, orderId, reason, key).1.Ok?
    requires ScopedKey(who.tenant, key) !in s.cancellations && ScopedKey(who.tenant, key + ":refund") !in s.refundEntries
    ensures orderId in s.orders
    ensures var (t, r) := Cancel(s, who, orderId, reason, key);
      && orderId in t.orders && orderId in t.payments && r.value.order == t.orders[orderId] && r.value.payment == t.payments[orderId]
      && r.value.cancellation.orderId == orderId && r.value.cancellation.reason == reason && r.value.cancellation.refundId == r.value.refund.id
      && t.refunds == s.refunds + [r.value.refund] && r.value.refund.orderId == orderId && r.value.refund.amount.amount == s.orders[orderId].total.amount
      && t.orders == s.orders[orderId := t.orders[orderId]] && SameSale(t.orders[orderId], s.orders[orderId]) && t.orders[orderId].status == CancelledOrder
      && t.payments[orderId].status == FullyRefunded && t.inventory == s.inventory && t.carts == s.carts
  {
    hide Inv, RefundOrder, RefundedOf, SameSale, ScopedKey, Blank;
    var amount := s.payments[orderId].amount;
    var (t, r) := RefundOrder(s, who, orderId, amount, key + ":refund");
    PaymentOfOrder(s, orderId);
    RefundBooks(s, who, orderId, amount, key + ":refund");
    RefundResultIsCurrent(s, who, orderId, amount, key + ":refund");
    CancelledSale(r.value.order, s.orders[orderId]);
  }

  lemma CancelledSale(a: Order, b: Order)
    requires SameSale(a, b)
    ensures SameSale(a.(status := CancelledOrder), b)
  {
  }

  // ---------------------------------------------------------------------------------------
  // Refusals name what is wrong
  // ---------------------------------------------------------------------------------------

  /** The reason that an addition names is the case. */
  ghost predicate AddRefusal(s: State, who: Identity, cartId: Id, sku: string, quantity: int, e: Error) {
    match e
    case CartNotFound => !(cartId in s.carts && s.carts[cartId].owner == who)
    case CartCheckedOut => cartId in s.carts && s.carts[cartId].status == CheckedOut
    case UnknownSku => sku !in s.products
    case BadQuantity => quantity <= 0 || quantity > MAX_SAFE_INTEGER
    case _ => false
  }

  lemma AddRefusalIsTrue(s: State, who: Identity, cartId: Id, sku: string, quantity: int)
    requires AddLine(s, who, cartId, sku, quantity).1.Err?
    ensures AddRefusal(s, who, cartId, sku, quantity, AddLine(s, who, cartId, sku, quantity).1.error)
  {
    hide RaiseLine, HasLine;
  }

  ghost predicate CheckoutRefusal(s: State, who: Identity, cartId: Id, key: string, e: Error) {
    match e
    case KeyRequired => Blank(key)
    case CartNotFound => !(cartId in s.carts && s.carts[cartId].owner == who)
    case KeyReused => ScopedKey(who.tenant, key) in s.checkouts && s.checkouts[ScopedKey(who.tenant, key)].cartId != cartId
    case CartCheckedOut => cartId in s.carts && s.carts[cartId].status == CheckedOut
    case EmptyCart => cartId in s.carts && s.carts[cartId].lines == []
    case InsufficientInventory(sku) => cartId in s.carts && exists i :: 0 <= i < |s.carts[cartId].lines| && IsFirstShort(s, s.carts[cartId].lines, i, sku)
    case CrossCurrency => cartId in s.carts && !OneCurrency(s.carts[cartId].lines)
    case _ => false
  }

  /** The line is of the SKU, what is left does not serve it, and it serves all lines before. */
  ghost predicate IsFirstShort(s: State, lines: seq<Line>, i: nat, sku: string)
    requires i < |lines|
  {
    lines[i].sku == sku && !IsLeft(s, lines[i]) && forall j :: 0 <= j < i ==> IsLeft(s, lines[j])
  }

  lemma {:induction false} FirstShortIsFirst(inventory: map<string, Stock>, lines: seq<Line>) returns (i: nat)
    requires FirstShort(inventory, lines).Some?
    ensures i < |lines| && lines[i].sku == FirstShort(inventory, lines).value && !Served(inventory, lines[i])
    ensures forall j :: 0 <= j < i ==> Served(inventory, lines[j])
  {
    if !Served(inventory, lines[0]) {
      i := 0;
    } else {
      i := FirstShortIsFirst(inventory, lines[1..]);
      forall j | 0 <= j < i + 1
        ensures Served(inventory, lines[j])
      {
        assert j > 0 ==> lines[j] == lines[1..][j - 1];
      }
      i := i + 1;
    }
  }

  lemma CheckoutRefusalIsTrue(s: State, who: Identity, cartId: Id, key: string)
    requires Inv(s) && Checkout(s, who, cartId, key).1.Err?
    ensures CheckoutRefusal(s, who, cartId, key, Checkout(s, who, cartId, key).1.error)
  {
    hide Blank, ScopedKey, CommitCheckout, Inv, SameCurrency, FirstShort, LineMonies, OneCurrency, IsLeft, Served;
    if cartId in s.carts {
      CartIdIsKey(s, cartId);
      CartChecks(s, cartId);
      var lines := s.carts[cartId].lines;
      if FirstShort(s.inventory, lines).Some? {
        var i := FirstShortIsFirst(s.inventory, lines);
        LeftIffServed(s, lines);
        assert IsFirstShort(s, lines, i, FirstShort(s.inventory, lines).value);
      }
    }
    if ScopedKey(who.tenant, key) in s.checkouts {
      UsedKeyFits(s, ScopedKey(who.tenant, key));
    }
    hide IsFirstShort;
  }

  ghost predicate RefundRefusal(s: State, who: Identity, orderId: Id, amount: Money, key: string, e: Error) {
    match e
    case OrderNotFound => !(orderId in s.orders && s.orders[orderId].owner == who)
    case KeyRequired => Blank(key)
    case CrossCurrency => orderId in s.orders && amount.currency != s.orders[orderId].currency
    case NotPositive => amount.amount <= 0
    case KeyReused =>
      && ScopedKey(who.tenant, key) in s.refundEntries
      && (s.refundEntries[ScopedKey(who.tenant, key)].orderId != orderId || s.refundEntries[ScopedKey(who.tenant, key)].amount != amount)
    case ExceedsCaptured => orderId in s.orders && RefundedOf(s.refunds, orderId) + amount.amount > s.orders[orderId].total.amount
    case _ => false
  }

  lemma RefundRefusalIsTrue(s: State, who: Identity, orderId: Id, amount: Money, key: string)
    requires Inv(s) && RefundOrder(s, who, orderId, amount, key).1.Err?
    ensures RefundRefusal(s, who, orderId, amount, key, RefundOrder(s, who, orderId, amount, key).1.error)
  {
    hide Blank, ScopedKey, CommitRefund, Inv, SameCurrency, RefundedOf;
    if orderId in s.orders {
      PaymentOfOrder(s, orderId);
      RefundCurrency(s, orderId, amount);
    }
  }

  ghost predicate CancelRefusal(s: State, who: Identity, orderId: Id, reason: string, key: string, e: Error) {
    match e
    case OrderNotFound => !(orderId in s.orders && s.orders[orderId].owner == who)
    case ReasonOrKeyRequired => Blank(reason) || Blank(key)
    case KeyReused =>
      || (&& ScopedKey(who.tenant, key) in s.cancellations
          && (s.cancellations[ScopedKey(who.tenant, key)].orderId != orderId || s.cancellations[ScopedKey(who.tenant, key)].reason != reason))
      || ScopedKey(who.tenant, key + ":refund") in s.refundEntries
    case ExceedsCaptured => orderId in s.orders && RefundedOf(s.refunds, orderId) > 0
    case _ => false
  }

  lemma CancelRefusalIsTrue(s: State, who: Identity, orderId: Id, reason: string, key: string)
    requires Inv(s) && Cancel(s, who, orderId, reason, key).1.Err?
    ensures CancelRefusal(s, who, orderId, reason, key, Cancel(s, who, orderId, reason, key).1.error)
  {
    hide Blank, ScopedKey, Inv, RefundedOf, RefundOrder;
    if orderId in s.orders && s.orders[orderId].owner == who && !Blank(reason) && !Blank(key) && ScopedKey(who.tenant, key) !in s.cancellations {
      FullRefundRefusal(s, who, orderId, key);
    }
    if orderId in s.orders {
      PaymentOfOrder(s, orderId);
    }
  }

  /** The refund inside a cancellation can only be refused for its key or for earlier refunds. */
  lemma FullRefundRefusal(s: State, who: Identity, orderId: Id, key: string)
    requires Inv(s) && OwnsOrder(s, who, orderId) && !Blank(key)
    ensures orderId in s.payments
    ensures var r := RefundOrder(s, who, orderId, s.payments[orderId].amount, key + ":refund").1;
      r.Err? ==>
        || (r.error == KeyReused && ScopedKey(who.tenant, key + ":refund") in s.refundEntries)
        || (r.error == ExceedsCaptured && RefundedOf(s.refunds, orderId) > 0)
  {
    hide Blank, ScopedKey, Inv, RefundedOf, RefundOrder;
    LongerKeyIsNotBlank(key, ":refund");
    FinalPaymentIsRefunded(s, orderId);
    PaymentOfOrder(s, orderId);
    var amount := s.payments[orderId].amount;
    if RefundOrder(s, who, orderId, amount, key + ":refund").1.Err? {
      RefundRefusalIsTrue(s, who, orderId, amount, key + ":refund");
    }
  }

  // ---------------------------------------------------------------------------------------
  // Observations
  // ---------------------------------------------------------------------------------------

  /** Just the owner observes an order's settlement: its payment, its own refunds and no other, and what they leave of its total. */
  lemma SettlementShows(s: State, who: Identity, orderId: Id)
    requires Inv(s)
    ensures var r := ObserveSettlement(s, who, orderId);
      && (r.Ok? <==> orderId in s.orders && s.orders[orderId].owner == who)
      && (r.Ok? ==>
          && orderId in s.payments && r.value.payment == s.payments[orderId]
          && (forall x :: x in r.value.refunds <==> x in s.refunds && x.orderId == orderId)
          && r.value.settlement.captured.amount == s.orders[orderId].total.amount
          && r.value.settlement.net.amount == s.orders[orderId].total.amount - RefundedOf(s.refunds, orderId))
  {
    hide Inv, RefundsOf, TotalOf;
    if orderId in s.orders {
      PaymentOfOrder(s, orderId);
    }
    OwnRefunds(s.refunds, orderId);
  }

  lemma {:induction false} OwnRefunds(refunds: seq<Refund>, orderId: Id)
    ensures forall x :: x in RefundsOf(refunds, orderId) <==> x in refunds && x.orderId == orderId
  {
    if refunds != [] {
      OwnRefunds(refunds[..|refunds| - 1], orderId);
      assert refunds == refunds[..|refunds| - 1] + [refunds[|refunds| - 1]];
    }
  }
}
