/**
 * The payment `Account` aggregate: a balance that is credited and charged for seat
 * payments. `requestPayment` always records `PaymentRequested` itself, then either
 * refuses (recorded) or accepts and charges the balance (not recorded). Crediting is
 * not recorded either.
 */
module Payment {
  import opened Ids

  datatype PaymentEvent =
    | AccountCredited(accountId: AccountId, amount: int)
    | PaymentRequested(accountId: AccountId, amount: int)
    | PaymentAccepted(paymentReference: PaymentReference, accountId: AccountId, amount: int, orderId: OrderId)
    | PaymentRefused(accountId: AccountId, amount: int, orderId: OrderId)

  /** The events `requestPayment` records and the balance it leaves. */
  datatype PaymentOutcome = PaymentOutcome(recorded: seq<PaymentEvent>, balance: int)

  /**
   * `requestPayment` on an account holding `balance`: the request is always recorded
   * first; then exactly one of refusal (balance below the amount, recorded, balance
   * kept) or acceptance (balance charged, nothing more recorded).
   */
  function RequestOutcome(balance: int, id: AccountId, amount: int, orderId: OrderId): (r: PaymentOutcome)
    ensures |r.recorded| >= 1 && r.recorded[0] == PaymentRequested(id, amount)
    ensures balance < amount <==> r.recorded == [PaymentRequested(id, amount), PaymentRefused(id, amount, orderId)]
    ensures balance >= amount <==> r.recorded == [PaymentRequested(id, amount)]
    ensures r.balance == if balance < amount then balance else balance - amount
    ensures balance >= 0 ==> r.balance >= 0
  {
    if balance < amount then PaymentOutcome([PaymentRequested(id, amount), PaymentRefused(id, amount, orderId)], balance)
    else PaymentOutcome([PaymentRequested(id, amount)], balance - amount)
  }

  class Account {
    const id: AccountId
    var balance: int
    var changes: seq<PaymentEvent>
    var version: int

    ghost predicate Valid()
      reads this
    {
      version == |changes|
    }

    constructor (id: AccountId)
      ensures this.id == id && Valid()
      ensures balance == 0 && changes == [] && version == 0
    {
      this.id := id;
      balance := 0;
      changes, version := [], 0;
    }

    /** The aggregate root's `recordChange`. */
    method RecordChange(e: PaymentEvent)
      modifies this
      ensures changes == old(changes) + [e] && version == old(version) + 1
      ensures balance == old(balance)
    {
      changes := changes + [e];
      version := version + 1;
    }

    /** `credit`: the balance grows by exactly the amount; nothing is recorded. */
    method Credit(amount: int)
      requires Valid()
      modifies this
      ensures Valid() && balance == old(balance) + amount
      ensures changes == old(changes) && version == old(version)
    {
      ApplyAccountCredited(AccountCredited(id, amount));
    }

    /** `apply(AccountCredited)`. */
    method ApplyAccountCredited(e: PaymentEvent)
      requires Valid() && e.AccountCredited?
      modifies this
      ensures Valid() && balance == old(balance) + e.amount
      ensures changes == old(changes) && version == old(version)
    {
      balance := balance + e.amount;
    }

    /** `requestPayment`; `reference` stands for the freshly generated payment reference. */
    method RequestPayment(amount: int, orderId: OrderId, reference: PaymentReference)
      requires Valid()
      modifies this
      ensures Valid()
      ensures var outcome := RequestOutcome(old(balance), id, amount, orderId);
        changes == old(changes) + outcome.recorded && balance == outcome.balance
    {
      RecordChange(PaymentRequested(id, amount));
      if balance < amount {
        ApplyPaymentRefused(PaymentRefused(id, amount, orderId));
        return;
      }
      ApplyPaymentAccepted(PaymentAccepted(reference, id, amount, orderId));
    }

    /** `apply(PaymentRequested)`. */
    method ApplyPaymentRequested(e: PaymentEvent)
      requires Valid() && e.PaymentRequested?
      modifies this
      ensures Valid() && changes == old(changes) + [e] && balance == old(balance)
    {
      RecordChange(e);
    }

    /** `apply(PaymentAccepted)`: charges the balance and records nothing. */
    method ApplyPaymentAccepted(e: PaymentEvent)
      requires Valid() && e.PaymentAccepted?
      modifies this
      ensures Valid() && balance == old(balance) - e.amount
      ensures changes == old(changes) && version == old(version)
    {
      balance := balance - e.amount;
    }

    /** `apply(PaymentRefused)`: records the refusal; the balance is kept. */
    method ApplyPaymentRefused(e: PaymentEvent)
      requires Valid() && e.PaymentRefused?
      modifies this
      ensures Valid() && changes == old(changes) + [e] && balance == old(balance)
    {
      RecordChange(e);
    }
  }
}
