/** The repository's own integrity checkers: what each accepts, and the loops that decide it. */
module CommerceIntegrity {
  import opened Commerce

  function UnitPrices(lines: seq<Line>): seq<Money> {
    if lines == [] then [] else [lines[0].unitPrice] + UnitPrices(lines[1..])
  }

  predicate LineIntegrity(line: Line, currency: string) {
    && ValidMoney(line.unitPrice) && ValidMoney(line.lineTotal)
    && line.lineTotal.amount == line.unitPrice.amount * line.quantity
    && line.lineTotal.currency == currency
  }

  /** assertCartIntegrity accepts the lines. */
  ghost predicate CartIntegrity(lines: seq<Line>) {
    lines != [] ==>
      && SameCurrency(UnitPrices(lines))
      && forall i :: 0 <= i < |lines| ==> LineIntegrity(lines[i], lines[0].unitPrice.currency)
  }

  /** assertOrderIntegrity accepts the order. */
  ghost predicate OrderIntegrity(o: Order) {
    && CartIntegrity(o.lines)
    && SameCurrency([o.subtotal, o.tax, o.discount, o.total])
    && o.subtotal.amount == Subtotal(o.lines)
    && o.total.amount == Subtotal(o.lines) + o.tax.amount - o.discount.amount
    && o.total.amount >= 0
  }

  /** assertPaymentIntegrity accepts the payment. */
  predicate PaymentIntegrity(p: Payment) {
    var captured, refunded := p.amount.amount, p.refundedAmount.amount;
    && ValidMoney(p.amount) && ValidMoney(p.refundedAmount)
    && SameCurrency([p.amount, p.refundedAmount])
    && refunded <= captured
    && (if refunded == captured then p.status == FullyRefunded
        else if refunded > 0 then p.status == PartiallyRefunded
        else p.status != PartiallyRefunded)
  }

  /** assertInventoryIntegrity accepts the stock record. */
  predicate InventoryIntegrity(st: Stock) {
    (st.reserved + st.committed <= st.onHand || st.backorderAllowed) && st.revision >= 0
  }

  datatype ChargebackStatus = Opened | Won | Lost

  datatype Chargeback = Chargeback(orderId: Id, paymentId: Id, amount: Money, status: ChargebackStatus)

  predicate SettledRefund(p: Payment, r: Refund) {
    ValidMoney(r.amount) && r.orderId == p.orderId && r.status == Succeeded && SameCurrency([r.amount, p.amount])
  }

  predicate SettledChargeback(p: Payment, c: Chargeback) {
    && ValidMoney(c.amount) && c.orderId == p.orderId && c.paymentId == p.paymentId && SameCurrency([c.amount, p.amount])
    && 0 < c.amount.amount <= p.amount.amount && c.status == Lost
  }

  function ChargebackTotal(cs: seq<Chargeback>): int {
    if cs == [] then 0 else ChargebackTotal(cs[..|cs| - 1]) + cs[|cs| - 1].amount.amount
  }

  /** The payment's and the settlement's schemas accept their amounts. */
  predicate SettlementParses(p: Payment, t: Settlement) {
    && ValidMoney(p.amount) && ValidMoney(p.refundedAmount)
    && ValidMoney(t.captured) && ValidMoney(t.refunded) && ValidMoney(t.chargeback) && ValidMoney(t.net)
  }

  /** assertSettlementIntegrity accepts the provider's totals. */
  ghost predicate SettlementIntegrity(p: Payment, refunds: seq<Refund>, chargebacks: seq<Chargeback>, t: Settlement) {
    var refunded, chargeback := TotalOf(refunds), ChargebackTotal(chargebacks);
    && SettlementParses(p, t)
    && t.orderId == p.orderId && t.paymentId == p.paymentId
    && SameCurrency([p.amount, p.refundedAmount, t.captured, t.refunded, t.chargeback, t.net])
    && (forall i :: 0 <= i < |refunds| ==> SettledRefund(p, refunds[i]))
    && refunded == p.refundedAmount.amount
    && (forall i :: 0 <= i < |chargebacks| ==> SettledChargeback(p, chargebacks[i]))
    && refunded + chargeback <= p.amount.amount
    && t.captured.amount == p.amount.amount && t.refunded.amount == refunded && t.chargeback.amount == chargeback
    && t.net.amount == p.amount.amount - refunded - chargeback
  }

  method AssertSettlementIntegrity(p: Payment, refunds: seq<Refund>, chargebacks: seq<Chargeback>, t: Settlement) returns (ok: bool)
    ensures ok <==> SettlementIntegrity(p, refunds, chargebacks, t)
  {
    hide SameCurrency, SettlementParses;
    if !SettlementParses(p, t) {
      return false;
    }
    if t.orderId != p.orderId || t.paymentId != p.paymentId
       || !SameCurrency([p.amount, p.refundedAmount, t.captured, t.refunded, t.chargeback, t.net]) {
      return false;
    }
    var captured := p.amount.amount;
    var refunded := 0;
    for i := 0 to |refunds|
      invariant refunded == TotalOf(refunds[..i])
      invariant forall k :: 0 <= k < i ==> SettledRefund(p, refunds[k])
    {
      if !SettledRefund(p, refunds[i]) {
        return false;
      }
      assert refunds[..i + 1][..i] == refunds[..i];
      refunded := refunded + refunds[i].amount.amount;
    }
    assert refunds[..|refunds|] == refunds;
    if refunded != p.refundedAmount.amount {
      return false;
    }
    var chargeback := 0;
    for i := 0 to |chargebacks|
      invariant chargeback == ChargebackTotal(chargebacks[..i])
      invariant forall k :: 0 <= k < i ==> SettledChargeback(p, chargebacks[k])
    {
      if !SettledChargeback(p, chargebacks[i]) {
        return false;
      }
      assert chargebacks[..i + 1][..i] == chargebacks[..i];
      chargeback := chargeback + chargebacks[i].amount.amount;
    }
    assert chargebacks[..|chargebacks|] == chargebacks;
    return refunded + chargeback <= captured
      && t.captured.amount == captured && t.refunded.amount == refunded && t.chargeback.amount == chargeback
      && t.net.amount == captured - refunded - chargeback;
  }

  predicate RightSign(t: LoyaltyTransaction) {
    match t.kind
    case Earn => t.points > 0
    case Adjust => t.points > 0
    case Redeem => t.points < 0
    case Expire => t.points < 0
  }

  function Balance(log: seq<LoyaltyTransaction>): int {
    if log == [] then 0 else Balance(log[..|log| - 1]) + log[|log| - 1].points
  }

  ghost predicate TransactionOk(account: LoyaltyAccount, log: seq<LoyaltyTransaction>, i: nat)
    requires i < |log|
  {
    && log[i].accountId == account.id
    && (forall k :: 0 <= k < i ==> log[k].id != log[i].id)
    && RightSign(log[i])
    && Balance(log[..i + 1]) >= 0
  }

  /** The ledger part of assertLoyaltyLedgerIntegrity: transactions in order, never below zero, summing to the balance. */
  ghost predicate LedgerReconciles(account: LoyaltyAccount, log: seq<LoyaltyTransaction>) {
    && (forall i :: 0 <= i < |log| ==> TransactionOk(account, log, i))
    && Balance(log) == account.balance
  }

  /** assertLoyaltyLedgerIntegrity accepts the account: its schema also wants the owner's names to be non-empty. */
  ghost predicate LoyaltyIntegrity(account: LoyaltyAccount, log: seq<LoyaltyTransaction>) {
    account.owner.tenant != "" && account.owner.customerId != "" && account.balance >= 0 && LedgerReconciles(account, log)
  }

  method AssertLoyaltyLedgerIntegrity(account: LoyaltyAccount, log: seq<LoyaltyTransaction>) returns (ok: bool)
    ensures ok <==> LoyaltyIntegrity(account, log)
  {
    hide RightSign;
    if account.owner.tenant == "" || account.owner.customerId == "" || account.balance < 0 {
      return false;
    }
    var seen: set<Id> := {};
    var balance := 0;
    for i := 0 to |log|
      invariant balance == Balance(log[..i])
      invariant forall id :: id in seen <==> exists k :: 0 <= k < i && log[k].id == id
      invariant forall k :: 0 <= k < i ==> TransactionOk(account, log, k)
    {
      assert log[..i + 1][..i] == log[..i];
      if log[i].accountId != account.id || log[i].id in seen || !RightSign(log[i]) || balance + log[i].points < 0 {
        assert !TransactionOk(account, log, i);
        return false;
      }
      seen := seen + {log[i].id};
      balance := balance + log[i].points;
    }
    assert log[..|log|] == log;
    return balance == account.balance;
  }
}
