/** One sale, of any product to any customer, and what follows from runs that contain it. */
module CommerceSamples {
  import opened Results
  import opened Strings
  import opened Commerce
  import opened CommerceIntegrity
  import opened CommerceInvariant
  import opened CommerceRuns
  import opened CommerceRefunds
  import opened CommerceResults

  const FIVE: Money := Money("USD", 5)

  function FilledCart(who: Identity, sku: string, location: string): seq<Op> {
    [Seed(Product(sku, FIVE, 3), location), NewCart(who), Add(who, 1, sku, 1)]
  }

  function OneLine(sku: string): seq<Line> {
    [Line(sku, 1, FIVE, FIVE)]
  }

  /** The merchant with one product and one filled cart. */
  function CartState(who: Identity, sku: string, location: string): State {
    EMPTY.(
      products := map[sku := Product(sku, FIVE, 3)], inventory := map[sku := Stock(sku, location, 3, 0, 0, 0, false)],
      carts := map[1 := Cart(1, who, 1, OneLine(sku), Open)], sequence := 1)
  }

  lemma CartIsFilled(who: Identity, sku: string, location: string)
    ensures Run(EMPTY, FilledCart(who, sku, location)) == CartState(who, sku, location)
  {
    var ops := FilledCart(who, sku, location);
    assert ops[..3] == ops && ops[..2][..1] == ops[..1] && ops[..1][..0] == [];
    var s1 := SeedProduct(EMPTY, Product(sku, FIVE, 3), location).0;
    var s2 := CreateCart(s1, who).0;
    assert FIVE.currency == ['U', 'S', 'D'];
    assert Run(EMPTY, ops[..1]) == s1 && s1.products == map[sku := Product(sku, FIVE, 3)];
    assert Run(EMPTY, ops[..2]) == s2 && s2.carts == map[1 := Cart(1, who, 0, [], Open)];
    assert Run(EMPTY, ops) == AddLine(s2, who, 1, sku, 1).0;
    assert [] + OneLine(sku) == OneLine(sku) && Money("USD", 1 * 5) == FIVE;
    assert AddLine(s2, who, 1, sku, 1).1 == Ok(Cart(1, who, 1, OneLine(sku), Open));
    assert s2.carts[1 := Cart(1, who, 1, OneLine(sku), Open)] == CartState(who, sku, location).carts;
  }

  lemma CartIsAccepted(who: Identity, sku: string, location: string)
    ensures Checkout(CartState(who, sku, location), who, 1, "k") ==
      (CommitCheckout(CartState(who, sku, location), who, Cart(1, who, 1, OneLine(sku), Open), ScopedKey(who.tenant, "k")).0,
       Ok(CommitCheckout(CartState(who, sku, location), who, Cart(1, who, 1, OneLine(sku), Open), ScopedKey(who.tenant, "k")).1))
  {
    hide CommitCheckout;
    var lines, s := OneLine(sku), CartState(who, sku, location);
    assert !IsSpace("k"[0]) && lines[1..] == [];
    assert FirstShort(s.inventory, lines).None? by {
      assert FirstShort(s.inventory, []).None?;
    }
    assert LineMonies(lines) == [FIVE, FIVE] by {
      assert LineMonies([]) == [];
    }
    assert FIVE.currency[0] == 'U';
    assert SameCurrency([FIVE, FIVE]);
    hide FirstShort, LineMonies, SameCurrency;
  }

  /** The cart is checked out. */
  function FirstSale(who: Identity, sku: string, location: string): seq<Op> {
    FilledCart(who, sku, location) + [Buy(who, 1, "k")]
  }

  lemma SaleIsMade(who: Identity, sku: string, location: string)
    ensures var s := Run(EMPTY, FirstSale(who, sku, location));
      && s.orderIds == [2] && 2 in s.orders && s.orders[2].lines == OneLine(sku)
      && s.orders[2].owner == who && 2 in s.payments && s.payments[2] == Payment(2, 3, FIVE, Money("USD", 0), Captured)
      && KeyOf(who) in s.accounts && s.accounts[KeyOf(who)].owner == who && s.refundEntries == map[]
  {
    hide Run, CartState, CommitCheckout, OneLine, ScopedKey;
    var cart := Cart(1, who, 1, OneLine(sku), Open);
    CartIsFilled(who, sku, location);
    CartIsAccepted(who, sku, location);
    OneMoreOp(FilledCart(who, sku, location), Buy(who, 1, "k"));
    CartStateIsFresh(who, sku, location);
    SaleOf(CartState(who, sku, location), who, cart, ScopedKey(who.tenant, "k"), sku);
    EarningOf(CartState(who, sku, location), who, cart, ScopedKey(who.tenant, "k"));
  }

  lemma SaleOf(s: State, who: Identity, cart: Cart, key: string, sku: string)
    requires s.sequence == 1 && s.orderIds == [] && s.refundEntries == map[] && cart.lines == OneLine(sku)
    ensures cart.lines != []
    ensures var t := CommitCheckout(s, who, cart, key).0;
      && t.orderIds == [2] && 2 in t.orders && t.orders[2].lines == OneLine(sku) && t.orders[2].owner == who
      && 2 in t.payments && t.payments[2] == Payment(2, 3, FIVE, Money("USD", 0), Captured) && t.refundEntries == map[]
  {
    assert Subtotal(OneLine(sku)) == 5 by {
      assert Subtotal([]) == 0 && OneLine(sku)[1..] == [];
    }
    hide CommitLines, CommitSnapshots, EarnedPoints, Subtotal, ScopedKey;
  }

  lemma EarningOf(s: State, who: Identity, cart: Cart, key: string)
    requires s.accounts == map[] && cart.lines != []
    ensures var t := CommitCheckout(s, who, cart, key).0; KeyOf(who) in t.accounts && t.accounts[KeyOf(who)].owner == who
  {
    hide CommitLines, CommitSnapshots, EarnedPoints, Subtotal, ScopedKey;
  }

  lemma CartStateIsFresh(who: Identity, sku: string, location: string)
    ensures OneLine(sku) != []
    ensures var s := CartState(who, sku, location); s.sequence == 1 && s.orderIds == [] && s.accounts == map[] && s.refundEntries == map[]
  {
  }

  lemma OneMoreOp(ops: seq<Op>, op: Op)
    ensures Run(EMPTY, ops + [op]) == Step(Run(EMPTY, ops), op)
  {
    assert (ops + [op])[..|ops|] == ops;
  }

  /** Seeding the SKU again after the sale: nothing is committed, although one piece was ordered. */
  lemma ReseedingForgetsOrders(who: Identity, sku: string, location: string)
    ensures var s := Run(EMPTY, FirstSale(who, sku, location) + [Seed(Product(sku, FIVE, 3), location)]);
      && sku in s.inventory && s.inventory[sku].committed == 0
      && Ordered(s.orderIds, s.orders, sku) == 1
  {
    hide Run, OneLine;
    var before := Run(EMPTY, FirstSale(who, sku, location));
    SaleIsMade(who, sku, location);
    OneMoreOp(FirstSale(who, sku, location), Seed(Product(sku, FIVE, 3), location));
    assert FIVE.currency == ['U', 'S', 'D'];
    OnePiece(sku);
    assert [2][..0] == [];
    assert Ordered([], before.orders, sku) == 0;
  }

  lemma OnePiece(sku: string)
    ensures QuantityOf(OneLine(sku), sku) == 1
  {
    assert OneLine(sku)[1..] == [];
  }

  /** Two of the five are refunded: whatever happens next, the order cannot be cancelled. */
  lemma PartRefundedSaleStays(who: Identity, sku: string, location: string, ops: seq<Op>, reason: string, key: string)
    ensures var s := Run(EMPTY, FirstSale(who, sku, location) + [Refunding(who, 2, Money("USD", 2), "r")]);
      && 2 in s.payments && s.payments[2].refundedAmount == Money("USD", 2)
      && Cancel(Run(s, ops), who, 2, reason, key).1.Err?
  {
    hide Run, Cancel, ScopedKey;
    SaleIsMade(who, sku, location);
    OneMoreOp(FirstSale(who, sku, location), Refunding(who, 2, Money("USD", 2), "r"));
    assert !IsSpace("r"[0]);
    assert SameCurrency([Money("USD", 2), FIVE, Money("USD", 0)]) by { assert "USD" != "" ; }
    PartRefundRulesOutCancelling(FirstSale(who, sku, location) + [Refunding(who, 2, Money("USD", 2), "r")], 2, ops, who, reason, key);
  }

  /** A product without a name at no location, bought by nobody, is sold, and the validator refuses the result. */
  lemma NamelessCheckoutIsRefused()
    ensures var nobody := Identity("", "");
      && SeedsOnce(FilledCart(nobody, "", ""))
      && var r := Checkout(Run(EMPTY, FilledCart(nobody, "", "")), nobody, 1, "k").1;
         r.Ok? && !ValidCheckout(r.value)
  {
    hide Run, CommitLines, CommitSnapshots, EarnedPoints, OrderIntegrity, PaymentIntegrity, InventoryIntegrity, Checkout;
    CartIsFilled(Identity("", ""), "", "");
    CartIsAccepted(Identity("", ""), "", "");
  }

  // ---------------------------------------------------------------------------------------
  // Whose loyalty account a customer can come to observe
  // ---------------------------------------------------------------------------------------

  /** In some run one customer observes an account that another one owns. */
  ghost predicate CanObserve(who: Identity, owner: Identity) {
    exists ops :: ObserveLoyalty(Run(EMPTY, ops), who).Ok? && ObserveLoyalty(Run(EMPTY, ops), who).value.0.owner == owner
  }

  /** A customer can come to observe another's account, in some run, exactly when tenant and name of both make one key. */
  lemma ObservesIffSameKey(who: Identity, owner: Identity)
    ensures CanObserve(who, owner) <==> KeyOf(who) == KeyOf(owner)
  {
    hide Run, AccountOk, ScopedKey;
    if CanObserve(who, owner) {
      var ops :| ObserveLoyalty(Run(EMPTY, ops), who).Ok? && ObserveLoyalty(Run(EMPTY, ops), who).value.0.owner == owner;
      AccountsAlwaysReconcile(ops);
    }
    if KeyOf(who) == KeyOf(owner) {
      SaleIsMade(owner, "s", "l");
      assert ObserveLoyalty(Run(EMPTY, FirstSale(owner, "s", "l")), who).Ok?;
    }
  }

  /** A key splits at its first colon only when there is no other. */
  lemma KeyWithoutMoreColons(who: Identity, other: Identity)
    requires ':' !in who.tenant && ':' !in who.customerId && KeyOf(who) == KeyOf(other)
    ensures other == who
  {
    var key, t, n := KeyOf(who), who.tenant, |other.tenant|;
    assert key[n] == ':' && key[..|t|] == t && key[|t| + 1..] == who.customerId;
    assert forall i :: 0 <= i < |t| ==> key[i] == t[i];
    assert forall i :: |t| < i < |key| ==> key[i] == who.customerId[i - |t| - 1];
    assert n == |t|;
    assert key[..n] == other.tenant && key[n + 1..] == other.customerId;
  }

  /** With one more colon, the key can be split there. */
  lemma KeyWithMoreColons(who: Identity) returns (other: Identity)
    requires ':' in who.tenant || ':' in who.customerId
    ensures other != who && KeyOf(other) == KeyOf(who)
  {
    var t, c := who.tenant, who.customerId;
    if ':' in t {
      var i :| 0 <= i < |t| && t[i] == ':';
      other := Identity(t[..i], t[i + 1..] + ":" + c);
      assert t == t[..i] + ":" + t[i + 1..];
    } else {
      var i :| 0 <= i < |c| && c[i] == ':';
      other := Identity(t + ":" + c[..i], c[i + 1..]);
      assert c == c[..i] + ":" + c[i + 1..];
    }
    assert KeyOf(other) == KeyOf(who);
    assert |other.tenant| != |t|;
  }

  /** In every run a customer observes no account but the own one, exactly when there is no colon in tenant and name. */
  lemma ObservedAccountIsOwnIff(who: Identity)
    ensures (forall owner :: CanObserve(who, owner) ==> owner == who) <==> ':' !in who.tenant && ':' !in who.customerId
  {
    hide CanObserve, KeyOf;
    if ':' !in who.tenant && ':' !in who.customerId {
      forall owner | CanObserve(who, owner)
        ensures owner == who
      {
        ObservesIffSameKey(who, owner);
        KeyWithoutMoreColons(who, owner);
      }
    } else {
      var other := KeyWithMoreColons(who);
      ObservesIffSameKey(who, other);
    }
  }
}
