/** The invariant of the merchant, its preservation by every operation, and what it implies. */
module CommerceInvariant {
  import opened Results
  import opened Commerce
  import opened CommerceIntegrity

  // ---------------------------------------------------------------------------------------
  // The invariant
  // ---------------------------------------------------------------------------------------

  ghost predicate UniqueSkus(lines: seq<Line>) {
    forall i, j :: 0 <= i < j < |lines| ==> lines[i].sku != lines[j].sku
  }

  predicate LineOk(l: Line) {
    l.quantity > 0 && ValidMoney(l.unitPrice) && l.unitPrice.amount > 0
    && l.lineTotal == Money(l.unitPrice.currency, l.unitPrice.amount * l.quantity)
  }

  ghost predicate LinesOk(lines: seq<Line>, products: map<string, Product>) {
    UniqueSkus(lines) && forall i :: 0 <= i < |lines| ==> LineOk(lines[i]) && lines[i].sku in products
  }

  ghost predicate PricedAsProducts(lines: seq<Line>, products: map<string, Product>) {
    forall i :: 0 <= i < |lines| ==> lines[i].sku in products ==> lines[i].unitPrice == products[lines[i].sku].price
  }

  /** The quantity of a SKU over all orders. */
  ghost function Ordered(ids: seq<Id>, orders: map<Id, Order>, sku: string): int {
    if ids == [] then 0
    else Ordered(ids[..|ids| - 1], orders, sku) + if ids[|ids| - 1] in orders then QuantityOf(orders[ids[|ids| - 1]].lines, sku) else 0
  }

  ghost function RefundedOf(refunds: seq<Refund>, orderId: Id): int {
    TotalOf(RefundsOf(refunds, orderId))
  }

  ghost predicate ProductsOk(s: State) {
    && s.products.Keys == s.inventory.Keys
    && forall sku :: sku in s.products ==> ValidMoney(s.products[sku].price) && s.products[sku].price.amount > 0
  }

  predicate StockShape(st: Stock, sku: string) {
    st.sku == sku && st.reserved == 0 && !st.backorderAllowed && st.revision >= 0 && st.committed <= st.onHand
  }

  /** The committed quantity of every SKU is what the orders took, and never more than there is. */
  ghost predicate StocksOk(s: State) {
    && (forall sku :: sku in s.inventory ==> StockShape(s.inventory[sku], sku) && s.inventory[sku].committed == Ordered(s.orderIds, s.orders, sku))
    && forall sku :: sku !in s.inventory ==> Ordered(s.orderIds, s.orders, sku) == 0
  }

  ghost predicate CartOk(s: State, cart: Cart) {
    LinesOk(cart.lines, s.products) && (cart.status == Open ==> PricedAsProducts(cart.lines, s.products))
  }

  ghost predicate CartsOk(s: State) {
    forall id :: id in s.carts ==> s.carts[id].id == id && id <= s.sequence && CartOk(s, s.carts[id])
  }

  ghost predicate OrderOk(o: Order, products: map<string, Product>) {
    && o.lines != [] && LinesOk(o.lines, products) && ValidCurrency(o.currency)
    && (forall i :: 0 <= i < |o.lines| ==> o.lines[i].unitPrice.currency == o.currency)
    && o.subtotal == Money(o.currency, Subtotal(o.lines)) && o.total == o.subtotal
    && o.tax == o.discount == Money(o.currency, 0)
  }

  ghost predicate PaymentOk(o: Order, p: Payment, refunded: int) {
    && p.orderId == o.id && p.amount == o.total
    && p.refundedAmount == Money(o.currency, refunded)
    && 0 <= refunded <= o.total.amount
    && p.status == (if refunded == o.total.amount then FullyRefunded else if refunded > 0 then PartiallyRefunded else Captured)
  }

  ghost predicate OrdersOk(s: State) {
    && (forall i, j :: 0 <= i < j < |s.orderIds| ==> s.orderIds[i] != s.orderIds[j])
    && (forall id :: id in s.orderIds <==> id in s.orders)
    && s.payments.Keys == s.orders.Keys
    && (forall id :: id in s.orders ==> s.orders[id].id == id && id <= s.sequence && OrderOk(s.orders[id], s.products))
    && (forall id :: id in s.orders ==> PaymentOk(s.orders[id], s.payments[id], RefundedOf(s.refunds, id)))
  }

  ghost predicate RefundsOk(s: State) {
    forall k :: 0 <= k < |s.refunds| ==>
      && s.refunds[k].orderId in s.orders && s.refunds[k].status == Succeeded && s.refunds[k].amount.amount > 0
      && s.refunds[k].amount.currency == s.orders[s.refunds[k].orderId].currency
  }

  ghost predicate EntryOk(s: State, e: CheckoutEntry) {
    && e.cartId in s.carts && s.carts[e.cartId].status == CheckedOut
    && s.carts[e.cartId].lines == e.lines && s.carts[e.cartId].owner == e.owner
    && e.result.order.id in s.orders
    && s.orders[e.result.order.id].lines == e.lines && s.orders[e.result.order.id].owner == e.owner
  }

  ghost predicate ComesFromCheckout(s: State, orderId: Id) {
    exists k :: k in s.checkouts && s.checkouts[k].result.order.id == orderId
  }

  ghost predicate WasCheckedOut(s: State, cartId: Id) {
    exists k :: k in s.checkouts && s.checkouts[k].cartId == cartId
  }

  ghost predicate EntriesOk(s: State) {
    forall k :: k in s.checkouts ==> EntryOk(s, s.checkouts[k])
  }

  ghost predicate EntriesDiffer(checkouts: map<string, CheckoutEntry>) {
    forall k, l :: k in checkouts && l in checkouts && k != l ==>
      checkouts[k].cartId != checkouts[l].cartId && checkouts[k].result.order.id != checkouts[l].result.order.id
  }

  /** Keys, checked-out carts and orders are in one-to-one correspondence. */
  ghost predicate CheckoutsOk(s: State) {
    && EntriesOk(s) && EntriesDiffer(s.checkouts)
    && (forall id :: id in s.orders ==> ComesFromCheckout(s, id))
    && (forall id :: id in s.carts && s.carts[id].status == CheckedOut ==> WasCheckedOut(s, id))
  }

  ghost predicate AccountOk(account: LoyaltyAccount, log: seq<LoyaltyTransaction>, sequence: nat) {
    && LedgerReconciles(account, log) && account.balance >= 0
    && forall i :: 0 <= i < |log| ==> log[i].id <= sequence
  }

  function KeyOf(who: Identity): string {
    ScopedKey(who.tenant, who.customerId)
  }

  ghost predicate LoyaltyOk(s: State) {
    && s.accounts.Keys == s.loyalty.Keys
    && forall key :: key in s.accounts ==> AccountOk(s.accounts[key], s.loyalty[key], s.sequence) && KeyOf(s.accounts[key].owner) == key
  }

  /** They differ at most in revision and status. */
  predicate SameSale(a: Order, b: Order) {
    a == b.(revision := a.revision, status := a.status)
  }

  ghost predicate RefundEntryOk(s: State, e: RefundEntry) {
    && e.orderId in s.orders && e.orderId in s.payments && SameSale(e.result.order, s.orders[e.orderId])
    && 0 < e.amount.amount <= s.payments[e.orderId].refundedAmount.amount
    && (e.amount == s.payments[e.orderId].amount ==> e.result.payment == s.payments[e.orderId])
  }

  ghost predicate RefundEntriesOk(s: State) {
    forall k :: k in s.refundEntries ==> RefundEntryOk(s, s.refundEntries[k])
  }

  ghost predicate Inv(s: State) {
    ProductsOk(s) && StocksOk(s) && CartsOk(s) && OrdersOk(s) && RefundsOk(s) && CheckoutsOk(s) && LoyaltyOk(s) && RefundEntriesOk(s)
  }

  lemma EmptyIsOk()
    ensures Inv(EMPTY)
  {
  }

  // ---------------------------------------------------------------------------------------
  // Sums
  // ---------------------------------------------------------------------------------------

  lemma {:induction false} QuantityAppend(lines: seq<Line>, l: Line, sku: string)
    ensures QuantityOf(lines + [l], sku) == QuantityOf(lines, sku) + if l.sku == sku then l.quantity else 0
  {
    if lines == [] {
      assert lines + [l] == [l];
    } else {
      QuantityAppend(lines[1..], l, sku);
      assert (lines + [l])[1..] == lines[1..] + [l];
    }
  }

  lemma {:induction false} NoQuantity(lines: seq<Line>, sku: string)
    requires forall i :: 0 <= i < |lines| ==> lines[i].sku != sku
    ensures QuantityOf(lines, sku) == 0
  {
    if lines != [] {
      NoQuantity(lines[1..], sku);
    }
  }

  lemma {:induction false} QuantityAt(lines: seq<Line>, i: nat)
    requires UniqueSkus(lines) && i < |lines|
    ensures QuantityOf(lines, lines[i].sku) == lines[i].quantity
  {
    if i == 0 {
      NoQuantity(lines[1..], lines[0].sku);
    } else {
      QuantityAt(lines[1..], i - 1);
    }
  }

  /** A change of orders that keeps the lines of the listed ones does not change what was ordered. */
  lemma {:induction false} OrderedFrame(ids: seq<Id>, orders: map<Id, Order>, changed: map<Id, Order>, sku: string)
    requires forall i :: 0 <= i < |ids| ==> ids[i] in orders && ids[i] in changed && changed[ids[i]].lines == orders[ids[i]].lines
    ensures Ordered(ids, changed, sku) == Ordered(ids, orders, sku)
  {
    if ids != [] {
      OrderedFrame(ids[..|ids| - 1], orders, changed, sku);
    }
  }

  lemma {:induction false} NoRefundsYet(refunds: seq<Refund>, orderId: Id)
    requires forall k :: 0 <= k < |refunds| ==> refunds[k].orderId != orderId
    ensures RefundsOf(refunds, orderId) == []
  {
    if refunds != [] {
      NoRefundsYet(refunds[..|refunds| - 1], orderId);
    }
  }

  lemma RefundAppended(refunds: seq<Refund>, r: Refund, orderId: Id)
    ensures RefundedOf(refunds + [r], orderId) == RefundedOf(refunds, orderId) + if r.orderId == orderId then r.amount.amount else 0
  {
    assert (refunds + [r])[..|refunds|] == refunds;
    var before := RefundsOf(refunds, orderId);
    assert (before + [r])[..|before|] == before;
    assert before + [] == before;
  }

  // ---------------------------------------------------------------------------------------
  // Seeding products
  // ---------------------------------------------------------------------------------------

  /** Seeding this product keeps what the carts and orders rely on. */
  ghost predicate SeedKeeps(s: State, p: Product) {
    && p.price.amount > 0
    && Ordered(s.orderIds, s.orders, p.sku) == 0
    && forall id, i :: id in s.carts && s.carts[id].status == Open && 0 <= i < |s.carts[id].lines| && s.carts[id].lines[i].sku == p.sku ==>
         s.carts[id].lines[i].unitPrice == p.price
  }

  lemma LinesStayOk(lines: seq<Line>, products: map<string, Product>, more: map<string, Product>)
    requires LinesOk(lines, products) && products.Keys <= more.Keys
    ensures LinesOk(lines, more)
  {
  }

  lemma OrderStaysOk(o: Order, products: map<string, Product>, more: map<string, Product>)
    requires OrderOk(o, products) && products.Keys <= more.Keys
    ensures OrderOk(o, more)
  {
    LinesStayOk(o.lines, products, more);
  }

  /** Orders, payments and refunds are unaffected by more products and later ids. */
  lemma OrdersFrame(s: State, t: State)
    requires OrdersOk(s) && RefundsOk(s)
    requires t.orderIds == s.orderIds && t.orders == s.orders && t.payments == s.payments && t.refunds == s.refunds
    requires s.products.Keys <= t.products.Keys && s.sequence <= t.sequence
    ensures OrdersOk(t) && RefundsOk(t)
  {
    hide OrderOk, PaymentOk, RefundedOf;
    forall id | id in t.orders
      ensures OrderOk(t.orders[id], t.products)
    {
      OrderStaysOk(s.orders[id], s.products, t.products);
    }
  }

  /** The checkout table stays right while checked-out carts and the lines and owners of orders stay. */
  lemma CheckoutsFrame(s: State, t: State)
    requires CheckoutsOk(s) && t.checkouts == s.checkouts && t.orders.Keys == s.orders.Keys
    requires forall id :: id in s.orders ==> t.orders[id].lines == s.orders[id].lines && t.orders[id].owner == s.orders[id].owner
    requires forall id :: id in s.carts && s.carts[id].status == CheckedOut ==> id in t.carts && t.carts[id] == s.carts[id]
    requires forall id :: id in t.carts && t.carts[id].status == CheckedOut ==> id in s.carts && s.carts[id].status == CheckedOut
    ensures CheckoutsOk(t)
  {
    forall id | id in t.orders
      ensures ComesFromCheckout(t, id)
    {
      assert ComesFromCheckout(s, id);
    }
    forall id | id in t.carts && t.carts[id].status == CheckedOut
      ensures WasCheckedOut(t, id)
    {
      assert WasCheckedOut(s, id);
    }
    forall k | k in t.checkouts
      ensures EntryOk(t, t.checkouts[k])
    {
      assert EntryOk(s, s.checkouts[k]);
    }
  }

  lemma LoyaltyFrame(s: State, t: State)
    requires LoyaltyOk(s) && t.accounts == s.accounts && t.loyalty == s.loyalty && s.sequence <= t.sequence
    ensures LoyaltyOk(t)
  {
    hide LedgerReconciles;
  }

  /** Refund entries stay right while their orders and payments stay. */
  lemma RefundEntriesFrame(s: State, t: State)
    requires RefundEntriesOk(s) && t.refundEntries == s.refundEntries
    requires forall id :: id in s.orders ==> id in t.orders && t.orders[id] == s.orders[id]
    requires forall id :: id in s.payments ==> id in t.payments && t.payments[id] == s.payments[id]
    ensures RefundEntriesOk(t)
  {
    hide SameSale;
  }

  lemma StocksFrame(s: State, t: State)
    requires StocksOk(s) && t.inventory == s.inventory
    requires forall sku :: Ordered(t.orderIds, t.orders, sku) == Ordered(s.orderIds, s.orders, sku)
    ensures StocksOk(t)
  {
    hide Ordered;
  }

  lemma SeededCarts(s: State, t: State, p: Product)
    requires CartsOk(s) && t.carts == s.carts && t.sequence == s.sequence && t.products == s.products[p.sku := p]
    ensures CartsOk(t) <==> forall id, i :: id in s.carts && s.carts[id].status == Open && 0 <= i < |s.carts[id].lines| && s.carts[id].lines[i].sku == p.sku ==>
      s.carts[id].lines[i].unitPrice == p.price
  {
    hide UniqueSkus, LineOk;
    forall id | id in s.carts
      ensures CartOk(s, s.carts[id])
    {
    }
  }

  lemma SeededStocks(s: State, t: State, p: Product)
    requires StocksOk(s) && t.orderIds == s.orderIds && t.orders == s.orders && p.onHand >= 0
    requires exists location :: t.inventory == s.inventory[p.sku := Stock(p.sku, location, p.onHand, 0, 0, 0, false)]
    ensures StocksOk(t) <==> Ordered(s.orderIds, s.orders, p.sku) == 0
  {
    hide Ordered;
    assert t.inventory[p.sku].committed == 0;
  }

  /**
   Seeding keeps the invariant exactly when the price is positive, no order has taken any of the
   SKU, and every open cart line of the SKU already has the new price.
   */
  lemma SeedKeepsInvariantIff(s: State, p: Product, location: string)
    requires Inv(s) && SeedProduct(s, p, location).1.Ok?
    ensures Inv(SeedProduct(s, p, location).0) <==> SeedKeeps(s, p)
  {
    hide Ordered, ValidMoney, StocksOk, CartsOk, OrdersOk, RefundsOk, CheckoutsOk, LoyaltyOk, RefundEntriesOk;
    var t := SeedProduct(s, p, location).0;
    SeededStocks(s, t, p);
    SeededCarts(s, t, p);
    OrdersFrame(s, t);
    CheckoutsFrame(s, t);
    LoyaltyFrame(s, t);
    RefundEntriesFrame(s, t);
    assert t.products[p.sku] == p;
  }

  // ---------------------------------------------------------------------------------------
  // Carts
  // ---------------------------------------------------------------------------------------

  lemma CreateCartKeeps(s: State, who: Identity)
    requires Inv(s)
    ensures Inv(CreateCart(s, who).0)
  {
    hide Ordered, StocksOk, OrdersOk, RefundsOk, CheckoutsOk, LoyaltyOk, RefundEntriesOk;
    var t := CreateCart(s, who).0;
    assert t.sequence !in s.carts by {
      hide CartOk;
    }
    StocksFrame(s, t);
    OrdersFrame(s, t);
    CheckoutsFrame(s, t);
    LoyaltyFrame(s, t);
    RefundEntriesFrame(s, t);
    forall id | id in t.carts
      ensures t.carts[id].id == id && id <= t.sequence && CartOk(t, t.carts[id])
    {
      if id in s.carts {
        assert CartOk(s, s.carts[id]);
      }
    }
  }

  lemma {:induction false} RaisedLine(lines: seq<Line>, sku: string, quantity: int, price: Money)
    requires quantity > 0
    requires forall i :: 0 <= i < |lines| ==> LineOk(lines[i]) && (lines[i].sku == sku ==> lines[i].unitPrice == price)
    ensures forall i :: 0 <= i < |lines| ==>
      LineOk(RaiseLine(lines, sku, quantity, price)[i]) && RaiseLine(lines, sku, quantity, price)[i].unitPrice == lines[i].unitPrice
  {
    hide ValidMoney;
    if lines != [] {
      RaisedLine(lines[1..], sku, quantity, price);
    }
  }

  lemma AddedLinesOk(s: State, cart: Cart, sku: string, quantity: int)
    requires ProductsOk(s) && CartOk(s, cart) && cart.status == Open && sku in s.products && quantity > 0
    ensures var price := s.products[sku].price;
      var lines := if HasLine(cart.lines, sku) then RaiseLine(cart.lines, sku, quantity, price)
                   else cart.lines + [Line(sku, quantity, price, Money(price.currency, quantity * price.amount))];
      LinesOk(lines, s.products) && PricedAsProducts(lines, s.products)
  {
    hide ValidMoney;
    var price := s.products[sku].price;
    if HasLine(cart.lines, sku) {
      RaisedLine(cart.lines, sku, quantity, price);
    } else {
      assert quantity * price.amount == price.amount * quantity;
    }
  }

  lemma {:induction false} RaisedQuantity(lines: seq<Line>, sku: string, quantity: int, price: Money, other: string)
    requires UniqueSkus(lines)
    ensures QuantityOf(RaiseLine(lines, sku, quantity, price), other) ==
      QuantityOf(lines, other) + if other == sku && HasLine(lines, sku) then quantity else 0
  {
    if lines != [] {
      RaisedQuantity(lines[1..], sku, quantity, price, other);
      var raised := RaiseLine(lines, sku, quantity, price);
      assert raised[1..] == RaiseLine(lines[1..], sku, quantity, price);
      assert HasLine(lines, sku) <==> lines[0].sku == sku || HasLine(lines[1..], sku) by {
        assert forall i :: 1 <= i < |lines| ==> lines[i] == lines[1..][i - 1];
      }
      if lines[0].sku == sku {
        assert !HasLine(lines[1..], sku);
      }
      hide HasLine;
    }
  }

  /** A line added to a cart raises the quantity of its SKU by just that much, and of no other. */
  lemma AddLineAddsQuantity(s: State, who: Identity, cartId: Id, sku: string, quantity: int, other: string)
    requires Inv(s) && AddLine(s, who, cartId, sku, quantity).1.Ok?
    ensures QuantityOf(AddLine(s, who, cartId, sku, quantity).1.value.lines, other) ==
      QuantityOf(s.carts[cartId].lines, other) + if other == sku then quantity else 0
  {
    hide ProductsOk, StocksOk, OrdersOk, RefundsOk, CheckoutsOk, LoyaltyOk, RefundEntriesOk, RaiseLine, HasLine, QuantityOf;
    var lines, price := s.carts[cartId].lines, s.products[sku].price;
    assert CartOk(s, s.carts[cartId]);
    RaisedQuantity(lines, sku, quantity, price, other);
    QuantityAppend(lines, Line(sku, quantity, price, Money(price.currency, quantity * price.amount)), other);
  }

  lemma AddLineKeeps(s: State, who: Identity, cartId: Id, sku: string, quantity: int)
    requires Inv(s)
    ensures Inv(AddLine(s, who, cartId, sku, quantity).0)
  {
    hide Ordered, StocksOk, OrdersOk, RefundsOk, CheckoutsOk, LoyaltyOk, RefundEntriesOk, LinesOk, PricedAsProducts, RaiseLine, HasLine;
    var (t, r) := AddLine(s, who, cartId, sku, quantity);
    if r.Ok? {
      assert CartOk(s, s.carts[cartId]);
      AddedLinesOk(s, s.carts[cartId], sku, quantity);
      StocksFrame(s, t);
      OrdersFrame(s, t);
      CheckoutsFrame(s, t);
      LoyaltyFrame(s, t);
      RefundEntriesFrame(s, t);
      forall id | id in t.carts && id != cartId
        ensures CartOk(t, t.carts[id])
      {
        assert CartOk(s, s.carts[id]);
      }
    }
  }

  // ---------------------------------------------------------------------------------------
  // Checkout
  // ---------------------------------------------------------------------------------------

  /** Committing lines raises the committed quantity of each SKU by what the lines take of it, and nothing else but revisions. */
  lemma {:induction false} CommitLinesEffect(inventory: map<string, Stock>, lines: seq<Line>)
    ensures CommitLines(inventory, lines).Keys == inventory.Keys
    ensures forall sku :: sku in inventory ==>
      var before, after := inventory[sku], CommitLines(inventory, lines)[sku];
      && after.committed == before.committed + QuantityOf(lines, sku)
      && after.revision >= before.revision
      && after == before.(committed := after.committed, revision := after.revision)
  {
    if lines != [] {
      var n := |lines| - 1;
      CommitLinesEffect(inventory, lines[..n]);
      assert lines == lines[..n] + [lines[n]];
      forall sku | sku in inventory
        ensures QuantityOf(lines, sku) == QuantityOf(lines[..n], sku) + if lines[n].sku == sku then lines[n].quantity else 0
      {
        QuantityAppend(lines[..n], lines[n], sku);
      }
    }
  }

  predicate Served(inventory: map<string, Stock>, l: Line) {
    l.sku in inventory && l.quantity <= inventory[l.sku].onHand - inventory[l.sku].reserved - inventory[l.sku].committed
  }

  lemma {:induction false} NoneShort(inventory: map<string, Stock>, lines: seq<Line>)
    ensures FirstShort(inventory, lines).None? <==> forall i :: 0 <= i < |lines| ==> Served(inventory, lines[i])
  {
    if lines != [] {
      NoneShort(inventory, lines[1..]);
      assert forall i :: 0 <= i < |lines| - 1 ==> lines[1..][i] == lines[i + 1];
      if forall i :: 0 <= i < |lines| - 1 ==> Served(inventory, lines[1..][i]) {
        forall i | 1 <= i < |lines|
          ensures Served(inventory, lines[i])
        {
          assert Served(inventory, lines[1..][i - 1]);
        }
      }
    }
  }

  lemma {:induction false} MoniesHold(lines: seq<Line>, i: nat)
    requires i < |lines|
    ensures |LineMonies(lines)| == 2 * |lines|
    ensures LineMonies(lines)[2 * i] == lines[i].unitPrice && LineMonies(lines)[2 * i + 1] == lines[i].lineTotal
  {
    if i > 0 {
      MoniesHold(lines[1..], i - 1);
    } else if |lines| > 1 {
      MoniesHold(lines[1..], 0);
    }
  }

  lemma {:induction false} SameCurrencyAt(lines: seq<Line>, i: nat)
    requires i < |lines| && SameCurrency(LineMonies(lines))
    ensures lines[i].unitPrice.currency == lines[0].unitPrice.currency
  {
    MoniesHold(lines, i);
    MoniesHold(lines, 0);
    hide LineMonies;
    assert LineMonies(lines)[2 * i].currency == LineMonies(lines)[0].currency;
  }

  lemma SameCurrencyOfLines(lines: seq<Line>)
    requires lines != [] && SameCurrency(LineMonies(lines))
    ensures forall i :: 0 <= i < |lines| ==> lines[i].unitPrice.currency == lines[0].unitPrice.currency
  {
    hide LineMonies, SameCurrency;
    forall i | 0 <= i < |lines|
      ensures lines[i].unitPrice.currency == lines[0].unitPrice.currency
    {
      SameCurrencyAt(lines, i);
    }
  }

  lemma {:induction false} SubtotalPositive(lines: seq<Line>)
    requires forall i :: 0 <= i < |lines| ==> LineOk(lines[i])
    ensures Subtotal(lines) >= 0 && (lines != [] ==> Subtotal(lines) > 0)
  {
    hide ValidMoney;
    if lines != [] {
      SubtotalPositive(lines[1..]);
      assert lines[0].unitPrice.amount * lines[0].quantity > 0;
    }
  }

  /** The checks of a checkout that is about to commit have passed. */
  ghost predicate ReadyToCommit(s: State, who: Identity, cart: Cart, key: string) {
    && cart.id in s.carts && s.carts[cart.id] == cart && cart.owner == who && cart.status == Open && cart.lines != []
    && key !in s.checkouts
    && (forall i :: 0 <= i < |cart.lines| ==> Served(s.inventory, cart.lines[i]))
    && forall i :: 0 <= i < |cart.lines| ==> cart.lines[i].unitPrice.currency == cart.lines[0].unitPrice.currency
  }

  lemma CheckoutIsReady(s: State, who: Identity, cartId: Id, idempotencyKey: string)
    requires Inv(s) && Checkout(s, who, cartId, idempotencyKey).1.Ok? && ScopedKey(who.tenant, idempotencyKey) !in s.checkouts
    ensures OwnsCart(s, who, cartId) && ReadyToCommit(s, who, s.carts[cartId], ScopedKey(who.tenant, idempotencyKey))
    ensures Checkout(s, who, cartId, idempotencyKey).0 == CommitCheckout(s, who, s.carts[cartId], ScopedKey(who.tenant, idempotencyKey)).0
  {
    hide Ordered, StocksOk, OrdersOk, RefundsOk, CheckoutsOk, LoyaltyOk, RefundEntriesOk, CartOk, CommitCheckout, SameCurrency, Served;
    NoneShort(s.inventory, s.carts[cartId].lines);
    SameCurrencyOfLines(s.carts[cartId].lines);
  }

  lemma NewOrderOk(s: State, who: Identity, cart: Cart, key: string)
    requires CartsOk(s) && ReadyToCommit(s, who, cart, key)
    ensures var (t, r) := CommitCheckout(s, who, cart, key);
      && OrderOk(r.order, s.products)
      && PaymentOk(r.order, r.payment, 0)
  {
    hide CommitSnapshots, CommitLines, UniqueSkus, Served, EarnedPoints;
    assert CartOk(s, cart);
    SubtotalPositive(cart.lines);
    assert LineOk(cart.lines[0]);
  }

  lemma NewIdsAreFresh(s: State)
    requires OrdersOk(s) && RefundsOk(s)
    ensures s.sequence + 1 !in s.orders && s.sequence + 1 !in s.orderIds
    ensures RefundedOf(s.refunds, s.sequence + 1) == 0
  {
    hide OrderOk, PaymentOk;
    NoRefundsYet(s.refunds, s.sequence + 1);
  }

  /** Adding a fresh order with an untouched payment keeps the order tables. */
  lemma NewOrderKeepsOrders(s: State, t: State, o: Order, p: Payment)
    requires OrdersOk(s) && RefundsOk(s) && o.id !in s.orders && s.sequence < o.id <= t.sequence
    requires OrderOk(o, s.products) && PaymentOk(o, p, 0) && RefundedOf(s.refunds, o.id) == 0
    requires t.products == s.products && t.refunds == s.refunds
    requires t.orderIds == s.orderIds + [o.id] && t.orders == s.orders[o.id := o] && t.payments == s.payments[o.id := p]
    ensures OrdersOk(t) && RefundsOk(t)
  {
    hide OrderOk, PaymentOk, RefundedOf;
    assert forall i :: 0 <= i < |s.orderIds| ==> s.orderIds[i] in s.orderIds;
  }

  lemma CheckoutKeepsOrders(s: State, who: Identity, cart: Cart, key: string)
    requires OrdersOk(s) && RefundsOk(s) && CartsOk(s) && ReadyToCommit(s, who, cart, key)
    ensures OrdersOk(CommitCheckout(s, who, cart, key).0) && RefundsOk(CommitCheckout(s, who, cart, key).0)
  {
    hide OrderOk, PaymentOk, CartOk, Served, CommitLines, CommitSnapshots, EarnedPoints, RefundedOf, Subtotal, OrdersOk, RefundsOk, CartsOk;
    var (t, r) := CommitCheckout(s, who, cart, key);
    NewOrderOk(s, who, cart, key);
    NewIdsAreFresh(s);
    NewOrderKeepsOrders(s, t, r.order, r.payment);
  }

  lemma OrderedAfterCheckout(s: State, o: Order, sku: string)
    requires OrdersOk(s) && o.id !in s.orderIds
    ensures Ordered(s.orderIds + [o.id], s.orders[o.id := o], sku) == Ordered(s.orderIds, s.orders, sku) + QuantityOf(o.lines, sku)
  {
    hide OrderOk, PaymentOk, QuantityOf;
    var ids, orders := s.orderIds + [o.id], s.orders[o.id := o];
    assert ids[..|ids| - 1] == s.orderIds;
    assert forall i :: 0 <= i < |s.orderIds| ==> s.orderIds[i] in s.orderIds;
    OrderedFrame(s.orderIds, s.orders, orders, sku);
  }

  /** What the lines of a cart that is ready take of each SKU is there. */
  lemma LinesAreServed(s: State, who: Identity, cart: Cart, key: string, sku: string)
    requires CartsOk(s) && StocksOk(s) && ReadyToCommit(s, who, cart, key) && sku in s.inventory
    ensures s.inventory[sku].committed + QuantityOf(cart.lines, sku) <= s.inventory[sku].onHand
  {
    hide Ordered;
    assert CartOk(s, cart);
    if i :| 0 <= i < |cart.lines| && cart.lines[i].sku == sku {
      QuantityAt(cart.lines, i);
      assert Served(s.inventory, cart.lines[i]);
    } else {
      NoQuantity(cart.lines, sku);
    }
  }

  lemma CheckoutKeepsStocks(s: State, who: Identity, cart: Cart, key: string)
    requires ProductsOk(s) && StocksOk(s) && OrdersOk(s) && RefundsOk(s) && CartsOk(s) && ReadyToCommit(s, who, cart, key)
    ensures StocksOk(CommitCheckout(s, who, cart, key).0) && ProductsOk(CommitCheckout(s, who, cart, key).0)
  {
    hide Ordered, QuantityOf, OrdersOk, RefundsOk, CommitLines, CommitSnapshots, EarnedPoints, Subtotal, ValidMoney;
    var (t, r) := CommitCheckout(s, who, cart, key);
    NewIdsAreFresh(s);
    CommitLinesEffect(s.inventory, cart.lines);
    assert CartOk(s, cart);
    forall sku
      ensures Ordered(t.orderIds, t.orders, sku) == Ordered(s.orderIds, s.orders, sku) + QuantityOf(cart.lines, sku)
    {
      OrderedAfterCheckout(s, r.order, sku);
    }
    forall sku | sku in s.inventory
      ensures s.inventory[sku].committed + QuantityOf(cart.lines, sku) <= s.inventory[sku].onHand
    {
      LinesAreServed(s, who, cart, key, sku);
    }
    forall sku | sku !in s.inventory
      ensures QuantityOf(cart.lines, sku) == 0
    {
      NoQuantity(cart.lines, sku);
    }
  }

  lemma CheckoutKeepsCarts(s: State, who: Identity, cart: Cart, key: string)
    requires CartsOk(s) && ReadyToCommit(s, who, cart, key)
    ensures CartsOk(CommitCheckout(s, who, cart, key).0)
  {
    hide LinesOk, PricedAsProducts, CommitLines, CommitSnapshots, EarnedPoints, Subtotal;
    var t := CommitCheckout(s, who, cart, key).0;
    forall id | id in t.carts
      ensures CartOk(t, t.carts[id])
    {
      assert CartOk(s, s.carts[id]);
    }
  }

  /** The table after a fresh order of an open cart, checked out with it, got the next entry. */
  ghost predicate EntryAdded(s: State, t: State, key: string, e: CheckoutEntry) {
    && key !in s.checkouts && t.checkouts == s.checkouts[key := e]
    && e.cartId in s.carts && s.carts[e.cartId].status == Open && e.result.order.id !in s.orders
    && t.orders == s.orders[e.result.order.id := e.result.order]
    && t.carts.Keys == s.carts.Keys && forall id :: id in s.carts && id != e.cartId ==> t.carts[id] == s.carts[id]
  }

  lemma OldEntriesStay(s: State, t: State, key: string, e: CheckoutEntry, k: string)
    requires EntryAdded(s, t, key, e) && k in s.checkouts && EntryOk(s, s.checkouts[k])
    ensures EntryOk(t, s.checkouts[k]) && s.checkouts[k].cartId != e.cartId && s.checkouts[k].result.order.id != e.result.order.id
  {
  }

  lemma OldOrdersStayChecked(s: State, t: State, key: string, e: CheckoutEntry, id: Id)
    requires key !in s.checkouts && t.checkouts == s.checkouts[key := e]
    ensures ComesFromCheckout(t, id) <==> ComesFromCheckout(s, id) || id == e.result.order.id
    ensures WasCheckedOut(t, id) <==> WasCheckedOut(s, id) || id == e.cartId
  {
    assert t.checkouts[key] == e;
    assert forall k :: k in s.checkouts ==> k in t.checkouts && t.checkouts[k] == s.checkouts[k];
  }

  lemma NewEntryKeepsEntries(s: State, t: State, key: string, e: CheckoutEntry)
    requires CheckoutsOk(s) && EntryAdded(s, t, key, e) && EntryOk(t, e)
    ensures CheckoutsOk(t)
  {
    hide EntryOk, ComesFromCheckout, WasCheckedOut;
    assert EntriesOk(t) && EntriesDiffer(t.checkouts) by {
      forall k | k in s.checkouts
        ensures EntryOk(t, s.checkouts[k]) && s.checkouts[k].cartId != e.cartId && s.checkouts[k].result.order.id != e.result.order.id
      {
        OldEntriesStay(s, t, key, e, k);
      }
    }
    hide EntriesOk, EntriesDiffer;
    forall id | id in t.orders
      ensures ComesFromCheckout(t, id)
    {
      OldOrdersStayChecked(s, t, key, e, id);
    }
    forall id | id in t.carts && t.carts[id].status == CheckedOut
      ensures WasCheckedOut(t, id)
    {
      OldOrdersStayChecked(s, t, key, e, id);
    }
  }

  lemma CheckoutKeepsEntries(s: State, who: Identity, cart: Cart, key: string)
    requires CheckoutsOk(s) && OrdersOk(s) && RefundsOk(s) && ReadyToCommit(s, who, cart, key)
    ensures CheckoutsOk(CommitCheckout(s, who, cart, key).0)
  {
    hide CheckoutsOk, OrdersOk, RefundsOk, CommitLines, CommitSnapshots, EarnedPoints, Subtotal, Served, RefundedOf;
    var t := CommitCheckout(s, who, cart, key).0;
    NewIdsAreFresh(s);
    NewEntryKeepsEntries(s, t, key, t.checkouts[key]);
  }

  lemma EarningKeepsLedger(account: LoyaltyAccount, log: seq<LoyaltyTransaction>, transaction: LoyaltyTransaction, sequence: nat)
    requires AccountOk(account, log, sequence)
    requires transaction.accountId == account.id && transaction.id > sequence && transaction.kind == Earn && transaction.points > 0
    ensures AccountOk(account.(balance := account.balance + transaction.points, revision := account.revision + 1), log + [transaction], transaction.id)
  {
    var more := log + [transaction];
    var richer := account.(balance := account.balance + transaction.points, revision := account.revision + 1);
    assert more[..|log|] == log && more[..|more|] == more;
    forall i | 0 <= i < |more|
      ensures TransactionOk(richer, more, i)
    {
      if i < |log| {
        assert TransactionOk(account, log, i);
        assert more[..i + 1] == log[..i + 1];
      }
    }
  }

  lemma ChangedAccountKeepsLoyalty(s: State, t: State, key: string)
    requires LoyaltyOk(s) && s.sequence <= t.sequence
    requires key in t.accounts && key in t.loyalty && AccountOk(t.accounts[key], t.loyalty[key], t.sequence) && KeyOf(t.accounts[key].owner) == key
    requires t.accounts == s.accounts[key := t.accounts[key]] && t.loyalty == s.loyalty[key := t.loyalty[key]]
    ensures LoyaltyOk(t)
  {
    hide LedgerReconciles;
  }

  lemma AccountBeforeIsOk(s: State, key: string, newcomer: LoyaltyAccount)
    requires LoyaltyOk(s) && newcomer.balance == 0 && KeyOf(newcomer.owner) == key
    ensures var account := if key in s.accounts then s.accounts[key] else newcomer;
      AccountOk(account, if key in s.loyalty then s.loyalty[key] else [], s.sequence) && KeyOf(account.owner) == key
  {
  }

  /** A point for every full hundred of the subtotal, at least one, and no more than a safe integer. */
  lemma PointsForSubtotal(subtotal: int)
    ensures 1 <= EarnedPoints(subtotal) <= MAX_SAFE_INTEGER
    ensures 100 <= subtotal <= 100 * MAX_SAFE_INTEGER ==> 100 * EarnedPoints(subtotal) <= subtotal < 100 * EarnedPoints(subtotal) + 100
    ensures subtotal < 100 ==> EarnedPoints(subtotal) == 1
    ensures subtotal > 100 * MAX_SAFE_INTEGER ==> EarnedPoints(subtotal) == MAX_SAFE_INTEGER
  {
  }

  lemma CheckoutKeepsLoyalty(s: State, who: Identity, cart: Cart, key: string)
    requires LoyaltyOk(s) && cart.lines != []
    ensures LoyaltyOk(CommitCheckout(s, who, cart, key).0)
  {
    hide AccountOk, LoyaltyOk, CommitLines, CommitSnapshots, Subtotal, EarnedPoints, ScopedKey;
    var t := CommitCheckout(s, who, cart, key).0;
    var loyaltyKey := ScopedKey(who.tenant, who.customerId);
    var newcomer := LoyaltyAccount(s.sequence + 3, who, 0, 0);
    var account := if loyaltyKey in s.accounts then s.accounts[loyaltyKey] else newcomer;
    var log := if loyaltyKey in s.loyalty then s.loyalty[loyaltyKey] else [];
    AccountBeforeIsOk(s, loyaltyKey, newcomer);
    PointsForSubtotal(Subtotal(cart.lines));
    var transaction := LoyaltyTransaction(t.sequence - 4, account.id, Earn, EarnedPoints(Subtotal(cart.lines)), s.sequence + 1);
    EarningKeepsLedger(account, log, transaction, s.sequence);
    LaterAccountOk(t.accounts[loyaltyKey], log + [transaction], transaction.id, t.sequence);
    ChangedAccountKeepsLoyalty(s, t, loyaltyKey);
  }

  lemma LaterAccountOk(account: LoyaltyAccount, log: seq<LoyaltyTransaction>, sequence: nat, later: nat)
    requires AccountOk(account, log, sequence) && sequence <= later
    ensures AccountOk(account, log, later)
  {
    hide LedgerReconciles;
  }

  lemma CheckoutKeepsRefundEntries(s: State, who: Identity, cart: Cart, key: string)
    requires OrdersOk(s) && RefundsOk(s) && RefundEntriesOk(s) && cart.lines != []
    ensures RefundEntriesOk(CommitCheckout(s, who, cart, key).0)
  {
    hide RefundEntriesOk, RefundsOk, RefundedOf, OrderOk, PaymentOk, CommitLines, CommitSnapshots, EarnedPoints, Subtotal;
    NewIdsAreFresh(s);
    RefundEntriesFrame(s, CommitCheckout(s, who, cart, key).0);
  }

  lemma CheckoutKeeps(s: State, who: Identity, cartId: Id, idempotencyKey: string)
    requires Inv(s)
    ensures Inv(Checkout(s, who, cartId, idempotencyKey).0)
  {
    hide ProductsOk, StocksOk, CartsOk, OrdersOk, RefundsOk, CheckoutsOk, LoyaltyOk, RefundEntriesOk, CommitCheckout, ReadyToCommit, FirstShort, SameCurrency;
    var key := ScopedKey(who.tenant, idempotencyKey);
    if Checkout(s, who, cartId, idempotencyKey).1.Ok? && key !in s.checkouts {
      CheckoutIsReady(s, who, cartId, idempotencyKey);
      var cart := s.carts[cartId];
      CheckoutKeepsStocks(s, who, cart, key);
      CheckoutKeepsCarts(s, who, cart, key);
      CheckoutKeepsOrders(s, who, cart, key);
      CheckoutKeepsEntries(s, who, cart, key);
      CheckoutKeepsLoyalty(s, who, cart, key);
      CheckoutKeepsRefundEntries(s, who, cart, key);
    }
  }

  // ---------------------------------------------------------------------------------------
  // Refunds and cancellations
  // ---------------------------------------------------------------------------------------

  /** The checks of a refund that is about to commit have passed. */
  ghost predicate ReadyToRefund(s: State, orderId: Id, amount: Money, key: string) {
    && orderId in s.orders && orderId in s.payments && key !in s.refundEntries
    && SameCurrency([amount, s.payments[orderId].amount, s.payments[orderId].refundedAmount])
    && 0 < amount.amount <= s.payments[orderId].amount.amount - s.payments[orderId].refundedAmount.amount
  }

  lemma RefundIsReady(s: State, who: Identity, orderId: Id, amount: Money, idempotencyKey: string)
    requires RefundOrder(s, who, orderId, amount, idempotencyKey).1.Ok? && ScopedKey(who.tenant, idempotencyKey) !in s.refundEntries
    ensures OwnsOrder(s, who, orderId) && ReadyToRefund(s, orderId, amount, ScopedKey(who.tenant, idempotencyKey))
    ensures var (t, r) := CommitRefund(s, orderId, amount, ScopedKey(who.tenant, idempotencyKey));
      RefundOrder(s, who, orderId, amount, idempotencyKey) == (t, Ok(r))
  {
    hide SameCurrency, CommitRefund;
  }

  lemma SameSalesKeepStocks(s: State, t: State)
    requires StocksOk(s) && OrdersOk(s) && t.inventory == s.inventory && t.orderIds == s.orderIds
    requires t.orders.Keys == s.orders.Keys && forall id :: id in s.orders ==> SameSale(t.orders[id], s.orders[id])
    ensures StocksOk(t)
  {
    hide OrderOk, PaymentOk, RefundedOf, StocksOk;
    assert forall i :: 0 <= i < |s.orderIds| ==> s.orderIds[i] in s.orderIds;
    forall sku
      ensures Ordered(s.orderIds, t.orders, sku) == Ordered(s.orderIds, s.orders, sku)
    {
      OrderedFrame(s.orderIds, s.orders, t.orders, sku);
    }
    StocksFrame(s, t);
  }

  lemma SameCarts(s: State, t: State)
    requires CartsOk(s) && t.products == s.products && t.carts == s.carts && s.sequence <= t.sequence
    ensures CartsOk(t)
  {
    hide LinesOk, PricedAsProducts;
    assert forall id :: id in s.carts ==> CartOk(s, s.carts[id]);
  }

  /** Orders changed in revision and status only keep the stock and checkout tables right. */
  lemma SameSalesFrame(s: State, t: State)
    requires ProductsOk(s) && StocksOk(s) && CartsOk(s) && OrdersOk(s) && CheckoutsOk(s) && LoyaltyOk(s)
    requires t.products == s.products && t.inventory == s.inventory && t.carts == s.carts && t.checkouts == s.checkouts
    requires t.orderIds == s.orderIds && t.accounts == s.accounts && t.loyalty == s.loyalty && s.sequence <= t.sequence
    requires t.orders.Keys == s.orders.Keys && forall id :: id in s.orders ==> SameSale(t.orders[id], s.orders[id])
    ensures ProductsOk(t) && StocksOk(t) && CartsOk(t) && CheckoutsOk(t) && LoyaltyOk(t)
  {
    hide StocksOk, CartsOk, OrdersOk, CheckoutsOk, LoyaltyOk;
    CheckoutsFrame(s, t);
    LoyaltyFrame(s, t);
    SameSalesKeepStocks(s, t);
    SameCarts(s, t);
  }

  lemma SameSaleOk(a: Order, b: Order, products: map<string, Product>)
    requires OrderOk(b, products) && SameSale(a, b)
    ensures OrderOk(a, products)
  {
  }

  lemma RefundedPaymentOk(s: State, orderId: Id, amount: Money, key: string)
    requires OrdersOk(s) && ReadyToRefund(s, orderId, amount, key)
    ensures var (t, r) := CommitRefund(s, orderId, amount, key);
      && r.order.id == orderId && SameSale(r.order, s.orders[orderId])
      && PaymentOk(r.order, r.payment, RefundedOf(s.refunds, orderId) + amount.amount)
      && amount.currency == s.orders[orderId].currency
  {
    hide RefundedOf;
    assert OrderOk(s.orders[orderId], s.products) && PaymentOk(s.orders[orderId], s.payments[orderId], RefundedOf(s.refunds, orderId));
    hide OrdersOk, LinesOk, Subtotal;
    var ms := [amount, s.payments[orderId].amount, s.payments[orderId].refundedAmount];
    assert ms[1].currency == ms[0].currency;
  }

  /** One order changed in revision and status, with a payment that fits its refunds, keeps the order tables. */
  lemma ChangedOrderKeepsOrders(s: State, t: State, o: Order, p: Payment)
    requires OrdersOk(s) && o.id in s.orders && SameSale(o, s.orders[o.id]) && PaymentOk(o, p, RefundedOf(t.refunds, o.id))
    requires t.products == s.products && t.orderIds == s.orderIds && s.sequence <= t.sequence
    requires t.orders == s.orders[o.id := o] && t.payments == s.payments[o.id := p]
    requires forall id :: id != o.id ==> RefundedOf(t.refunds, id) == RefundedOf(s.refunds, id)
    ensures OrdersOk(t)
  {
    SameSaleOk(o, s.orders[o.id], s.products);
    hide OrderOk, PaymentOk, RefundedOf, SameSale;
  }

  lemma RefundKeepsRefunds(s: State, orderId: Id, amount: Money, key: string)
    requires RefundsOk(s) && ReadyToRefund(s, orderId, amount, key) && amount.currency == s.orders[orderId].currency
    ensures RefundsOk(CommitRefund(s, orderId, amount, key).0)
  {
    hide SameCurrency;
  }

  lemma RefundKeepsOrders(s: State, orderId: Id, amount: Money, key: string)
    requires OrdersOk(s) && RefundsOk(s) && ReadyToRefund(s, orderId, amount, key)
    ensures OrdersOk(CommitRefund(s, orderId, amount, key).0) && RefundsOk(CommitRefund(s, orderId, amount, key).0)
  {
    hide OrdersOk, RefundsOk, OrderOk, PaymentOk, RefundedOf, SameCurrency;
    var (t, r) := CommitRefund(s, orderId, amount, key);
    RefundedPaymentOk(s, orderId, amount, key);
    RefundKeepsRefunds(s, orderId, amount, key);
    forall id
      ensures RefundedOf(t.refunds, id) == RefundedOf(s.refunds, id) + if id == orderId then amount.amount else 0
    {
      RefundAppended(s.refunds, r.refund, id);
    }
    ChangedOrderKeepsOrders(s, t, r.order, r.payment);
  }

  lemma RefundKeepsEntries(s: State, orderId: Id, amount: Money, key: string)
    requires RefundEntriesOk(s) && OrdersOk(s) && ReadyToRefund(s, orderId, amount, key)
    ensures RefundEntriesOk(CommitRefund(s, orderId, amount, key).0)
  {
    hide SameCurrency, OrderOk, RefundedOf;
    var (t, r) := CommitRefund(s, orderId, amount, key);
    assert PaymentOk(s.orders[orderId], s.payments[orderId], RefundedOf(s.refunds, orderId));
    forall k | k in t.refundEntries
      ensures RefundEntryOk(t, t.refundEntries[k])
    {
      if k != key {
        assert RefundEntryOk(s, s.refundEntries[k]);
      }
    }
  }

  lemma CommitRefundKeeps(s: State, orderId: Id, amount: Money, key: string)
    requires Inv(s) && ReadyToRefund(s, orderId, amount, key)
    ensures Inv(CommitRefund(s, orderId, amount, key).0)
  {
    hide ProductsOk, StocksOk, CartsOk, OrdersOk, RefundsOk, CheckoutsOk, LoyaltyOk, RefundEntriesOk, PaymentOk, RefundedOf, SameCurrency;
    RefundKeepsOrders(s, orderId, amount, key);
    RefundKeepsEntries(s, orderId, amount, key);
    RefundedPaymentOk(s, orderId, amount, key);
    SameSalesFrame(s, CommitRefund(s, orderId, amount, key).0);
  }

  lemma RefundKeeps(s: State, who: Identity, orderId: Id, amount: Money, idempotencyKey: string)
    requires Inv(s)
    ensures Inv(RefundOrder(s, who, orderId, amount, idempotencyKey).0)
  {
    hide Inv, CommitRefund, ReadyToRefund, SameCurrency;
    var key := ScopedKey(who.tenant, idempotencyKey);
    if RefundOrder(s, who, orderId, amount, idempotencyKey).1.Ok? && key !in s.refundEntries {
      RefundIsReady(s, who, orderId, amount, idempotencyKey);
      CommitRefundKeeps(s, orderId, amount, key);
    }
  }

  /** A final payment is what a full refund leaves. */
  lemma FullRefundIsFinal(s: State, orderId: Id, amount: Money)
    requires OrdersOk(s) && orderId in s.orders && amount == s.payments[orderId].amount
    requires amount.amount <= s.payments[orderId].refundedAmount.amount
    ensures s.payments[orderId].status == FullyRefunded
  {
    hide RefundedOf, OrderOk;
    assert PaymentOk(s.orders[orderId], s.payments[orderId], RefundedOf(s.refunds, orderId));
  }

  /** Whether fresh or repeated, the result of a refund names the order as it is, and for the full amount the payment too. */
  lemma RefundResultIsCurrent(s: State, who: Identity, orderId: Id, amount: Money, idempotencyKey: string)
    requires Inv(s) && RefundOrder(s, who, orderId, amount, idempotencyKey).1.Ok?
    ensures var (t, r) := RefundOrder(s, who, orderId, amount, idempotencyKey);
      && orderId in t.orders && orderId in t.payments && SameSale(r.value.order, t.orders[orderId])
      && (amount == s.payments[orderId].amount ==> r.value.payment == t.payments[orderId] && t.payments[orderId].status == FullyRefunded)
  {
    hide ProductsOk, StocksOk, CartsOk, OrdersOk, RefundsOk, CheckoutsOk, LoyaltyOk, CommitRefund, SameCurrency, ReadyToRefund;
    var key := ScopedKey(who.tenant, idempotencyKey);
    var (t, r) := RefundOrder(s, who, orderId, amount, idempotencyKey);
    RefundKeeps(s, who, orderId, amount, idempotencyKey);
    if key !in s.refundEntries {
      RefundIsReady(s, who, orderId, amount, idempotencyKey);
      CommitRefundEntry(s, orderId, amount, key);
    }
    assert t.refundEntries[key] == RefundEntry(orderId, amount, r.value);
    assert RefundEntryOk(t, t.refundEntries[key]);
    if amount == s.payments[orderId].amount {
      FullRefundIsFinal(t, orderId, amount);
    }
  }

  lemma CommitRefundEntry(s: State, orderId: Id, amount: Money, key: string)
    requires orderId in s.orders && orderId in s.payments
    ensures var (t, r) := CommitRefund(s, orderId, amount, key);
      && t.refundEntries == s.refundEntries[key := RefundEntry(orderId, amount, r)]
      && orderId in t.orders && orderId in t.payments && t.payments[orderId].amount == s.payments[orderId].amount
  {
  }

  lemma CancellationKeepsRefundEntries(s: State, orderId: Id, reason: string, key: string, r: RefundResult)
    requires RefundEntriesOk(s) && orderId in s.orders && SameSale(r.order, s.orders[orderId])
    ensures RefundEntriesOk(CommitCancellation(s, orderId, reason, key, r).0)
  {
    var t := CommitCancellation(s, orderId, reason, key, r).0;
    forall k | k in t.refundEntries
      ensures RefundEntryOk(t, t.refundEntries[k])
    {
      assert RefundEntryOk(s, s.refundEntries[k]);
    }
  }

  lemma CancelledOrder(s: State, o: Order)
    requires OrdersOk(s) && o.id in s.orders && SameSale(o, s.orders[o.id])
    ensures o.id in s.payments && PaymentOk(o, s.payments[o.id], RefundedOf(s.refunds, o.id))
  {
    hide RefundedOf, OrderOk;
    assert PaymentOk(s.orders[o.id], s.payments[o.id], RefundedOf(s.refunds, o.id));
  }

  lemma OrderHasItsId(s: State, id: Id)
    requires OrdersOk(s) && id in s.orders
    ensures s.orders[id].id == id
  {
    hide OrderOk, PaymentOk, RefundedOf;
  }

  lemma CancellationKeepsRefunds(s: State, orderId: Id, reason: string, key: string, r: RefundResult)
    requires RefundsOk(s) && orderId in s.orders && SameSale(r.order, s.orders[orderId])
    ensures RefundsOk(CommitCancellation(s, orderId, reason, key, r).0)
  {
  }

  lemma CommitCancellationKeeps(s: State, orderId: Id, reason: string, key: string, r: RefundResult)
    requires Inv(s) && orderId in s.orders && SameSale(r.order, s.orders[orderId])
    ensures Inv(CommitCancellation(s, orderId, reason, key, r).0)
  {
    var (t, c) := CommitCancellation(s, orderId, reason, key, r);
    hide ProductsOk, StocksOk, CartsOk, OrdersOk, RefundsOk, CheckoutsOk, LoyaltyOk, RefundEntriesOk, PaymentOk, RefundedOf;
    OrderHasItsId(s, orderId);
    CancellationKeepsRefunds(s, orderId, reason, key, r);
    SameSalesFrame(s, t);
    CancellationKeepsRefundEntries(s, orderId, reason, key, r);
    CancelledOrder(s, c.order);
    assert t.payments == s.payments[orderId := s.payments[orderId]];
    ChangedOrderKeepsOrders(s, t, c.order, s.payments[orderId]);
  }

  lemma CancelKeeps(s: State, who: Identity, orderId: Id, reason: string, idempotencyKey: string)
    requires Inv(s)
    ensures Inv(Cancel(s, who, orderId, reason, idempotencyKey).0)
  {
    hide Inv, RefundOrder, CommitCancellation, SameSale;
    if Cancel(s, who, orderId, reason, idempotencyKey).1.Ok? && ScopedKey(who.tenant, idempotencyKey) !in s.cancellations {
      var (t, r) := RefundOrder(s, who, orderId, s.payments[orderId].amount, idempotencyKey + ":refund");
      RefundKeeps(s, who, orderId, s.payments[orderId].amount, idempotencyKey + ":refund");
      RefundResultIsCurrent(s, who, orderId, s.payments[orderId].amount, idempotencyKey + ":refund");
      CommitCancellationKeeps(t, orderId, reason, ScopedKey(who.tenant, idempotencyKey), r.value);
    }
  }
}
