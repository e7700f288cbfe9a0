/**
 * `ConferenceBookingProcessManager`: the booking saga. Each handler loads the
 * aggregates it needs from the repositories, calls one or two decisions on them and
 * saves them back. The three repositories are in-memory maps from id to aggregate;
 * loading an id that is not there yields a new aggregate, saving puts it under its id.
 */
module BookingSaga {
  import opened Wrappers
  import opened Ids
  import Booking
  import Ordering
  import Payment

  /** A handler reached a null order field that it would use as an id or a seat. */
  datatype SagaError =
    | MissingAccountId(orderId: OrderId)
    | MissingConferenceName(orderId: OrderId)
    | MissingSeat(orderId: OrderId)

  class ConferenceBookingProcessManager {
    var orders: map<OrderId, Ordering.Order>
    var conferences: map<ConferenceName, Booking.Conference>
    var accounts: map<AccountId, Payment.Account>

    /** Every stored aggregate is valid and stored under its own id. */
    ghost predicate Valid()
      reads this, orders.Values, conferences.Values, accounts.Values
    {
      OrdersValid() && ConferencesValid() && AccountsValid()
    }

    ghost predicate OrdersValid()
      reads this, orders.Values
    {
      forall id | id in orders :: orders[id].id == id && orders[id].Valid()
    }

    ghost predicate ConferencesValid()
      reads this, conferences.Values
    {
      forall name | name in conferences :: conferences[name].id == name && conferences[name].Valid()
    }

    ghost predicate AccountsValid()
      reads this, accounts.Values
    {
      forall id | id in accounts :: accounts[id].id == id && accounts[id].Valid()
    }

    /** The manager over the three given repositories, each holding valid aggregates under their own ids. */
    constructor (orders: map<OrderId, Ordering.Order>, conferences: map<ConferenceName, Booking.Conference>,
                 accounts: map<AccountId, Payment.Account>)
      requires forall id | id in orders :: orders[id].id == id && orders[id].Valid()
      requires forall name | name in conferences :: conferences[name].id == name && conferences[name].Valid()
      requires forall id | id in accounts :: accounts[id].id == id && accounts[id].Valid()
      ensures Valid() && this.orders == orders && this.conferences == conferences && this.accounts == accounts
    {
      this.orders, this.conferences, this.accounts := orders, conferences, accounts;
    }

    /* ---------- what the repositories hold ---------- */

    function OrderAt(id: OrderId): set<object>
      reads this
    {
      if id in orders then {orders[id]} else {}
    }

    function ConferenceAt(name: ConferenceName): set<object>
      reads this
    {
      if name in conferences then {conferences[name]} else {}
    }

    function AccountAt(id: AccountId): set<object>
      reads this
    {
      if id in accounts then {accounts[id]} else {}
    }

    /** The account that pays for the stored order `id`, if it is stored. */
    function PayerOf(id: OrderId): set<object>
      reads this, orders.Values
    {
      if id in orders && orders[id].accountId.Some? && orders[id].accountId.value in accounts
      then {accounts[orders[id].accountId.value]} else {}
    }

    /** The conference booked by the stored order `id`, if it is stored. */
    function ConferenceOf(id: OrderId): set<object>
      reads this, orders.Values
    {
      if id in orders && orders[id].conferenceName.Some? && orders[id].conferenceName.value in conferences
      then {conferences[orders[id].conferenceName.value]} else {}
    }

    /** The state `load` gives for an order. */
    ghost function OrderStateOf(id: OrderId): Ordering.OrderState
      reads this, orders.Values
    {
      if id in orders then orders[id].State() else Ordering.Initial
    }

    ghost function OrderChangesOf(id: OrderId): seq<Ordering.OrderEvent>
      reads this, orders.Values
    {
      if id in orders then orders[id].changes else []
    }

    ghost function SeatsOf(name: ConferenceName): seq<Seat>
      reads this, conferences.Values
    {
      if name in conferences then conferences[name].seats else []
    }

    ghost function AvailableSeatsOf(name: ConferenceName): seq<Seat>
      reads this, conferences.Values
    {
      if name in conferences then conferences[name].availableSeats else []
    }

    ghost function ConferenceStatusOf(name: ConferenceName): Booking.ConferenceStatus
      reads this, conferences.Values
    {
      if name in conferences then conferences[name].status else Booking.New
    }

    ghost function ConferenceChangesOf(name: ConferenceName): seq<Booking.ConferenceEvent>
      reads this, conferences.Values
    {
      if name in conferences then conferences[name].changes else []
    }

    ghost function SeatPriceOf(name: ConferenceName): int
      reads this, conferences.Values
    {
      if name in conferences then conferences[name].seatPrice else 0
    }

    ghost function BalanceOf(id: AccountId): int
      reads this, accounts.Values
    {
      if id in accounts then accounts[id].balance else 0
    }

    ghost function PaymentChangesOf(id: AccountId): seq<Payment.PaymentEvent>
      reads this, accounts.Values
    {
      if id in accounts then accounts[id].changes else []
    }

    /* ---------- repository load and save ---------- */

    method LoadOrder(id: OrderId) returns (order: Ordering.Order)
      requires Valid()
      ensures order.Valid() && order.id == id
      ensures id in orders ==> order == orders[id]
      ensures id !in orders ==> fresh(order) && order.State() == Ordering.Initial && order.changes == []
    {
      if id in orders {
        order := orders[id];
      } else {
        order := new Ordering.Order(id);
      }
    }

    method SaveOrder(order: Ordering.Order)
      requires Valid() && order.Valid()
      modifies this
      ensures Valid()
      ensures orders == old(orders)[order.id := order]
      ensures conferences == old(conferences) && accounts == old(accounts)
    {
      orders := orders[order.id := order];
    }

    method LoadConference(name: ConferenceName) returns (conference: Booking.Conference)
      requires Valid()
      ensures conference.Valid() && conference.id == name
      ensures name in conferences ==> conference == conferences[name]
      ensures name !in conferences ==> fresh(conference)
      ensures conference.seats == SeatsOf(name) && conference.availableSeats == AvailableSeatsOf(name)
      ensures conference.status == ConferenceStatusOf(name) && conference.seatPrice == SeatPriceOf(name)
      ensures conference.changes == ConferenceChangesOf(name)
    {
      if name in conferences {
        conference := conferences[name];
      } else {
        conference := new Booking.Conference(name);
      }
    }

    method SaveConference(conference: Booking.Conference)
      requires Valid() && conference.Valid()
      modifies this
      ensures Valid()
      ensures conferences == old(conferences)[conference.id := conference]
      ensures orders == old(orders) && accounts == old(accounts)
    {
      conferences := conferences[conference.id := conference];
    }

    method LoadAccount(id: AccountId) returns (account: Payment.Account)
      requires Valid()
      ensures account.Valid() && account.id == id
      ensures id in accounts ==> account == accounts[id]
      ensures id !in accounts ==> fresh(account)
      ensures account.balance == BalanceOf(id) && account.changes == PaymentChangesOf(id)
    {
      if id in accounts {
        account := accounts[id];
      } else {
        account := new Payment.Account(id);
      }
    }

    method SaveAccount(account: Payment.Account)
      requires Valid() && account.Valid()
      modifies this
      ensures Valid()
      ensures accounts == old(accounts)[account.id := account]
      ensures orders == old(orders) && conferences == old(conferences)
    {
      accounts := accounts[account.id := account];
    }

    /** Load an order and assign it a seat, without saving it. */
    method AssignSeat(id: OrderId, seat: Seat) returns (order: Ordering.Order)
      requires Valid()
      modifies OrderAt(id)
      ensures Valid() && order.Valid() && order.id == id
      ensures id in orders ==> order == orders[id]
      ensures id !in orders ==> fresh(order)
      ensures order.State() == old(OrderStateOf(id)).(status := Ordering.SeatBooked, seat := Some(seat))
      ensures order.changes == old(OrderChangesOf(id)) + [Ordering.OrderSeatBooked(id, seat)]
    {
      order := LoadOrder(id);
      order.Assign(seat);
    }

    /**
     * Request the seat price of conference `name` for `order` from the order's account,
     * then save the order and the account; fails when the order names no account.
     */
    method ChargeOrder(order: Ordering.Order, name: ConferenceName, reference: PaymentReference) returns (r: Outcome<SagaError>)
      requires Valid() && order.Valid()
      requires order.id in orders ==> orders[order.id] == order
      modifies this, if order.accountId.Some? then AccountAt(order.accountId.value) else {}
      ensures Valid() && conferences == old(conferences)
      ensures r.Fail? <==> order.accountId.None?
      ensures r.Fail? ==> r.error == MissingAccountId(order.id) && orders == old(orders) && accounts == old(accounts)
      ensures r.Pass? ==>
        var payer := order.accountId.value;
        var outcome := Payment.RequestOutcome(old(BalanceOf(payer)), payer, old(SeatPriceOf(name)), order.id);
        && orders == old(orders)[order.id := order]
        && payer in accounts && accounts == old(accounts)[payer := accounts[payer]]
        && (payer in old(accounts) ==> accounts == old(accounts))
        && accounts[payer].balance == outcome.balance
        && accounts[payer].changes == old(PaymentChangesOf(payer)) + outcome.recorded
    {
      var conference := LoadConference(name);
      if order.accountId.None? {
        return Fail(MissingAccountId(order.id));
      }
      RequestPaymentFrom(order.accountId.value, conference.seatPrice, order.id, reference);
      SaveOrder(order);
      r := Pass;
    }

    /**
     * Release the seat of `order` on its conference, then refuse the order's payment;
     * save both.
     */
    method Compensate(order: Ordering.Order)
      requires Valid() && order.Valid() && order.conferenceName.Some? && order.seat.Some?
      requires order.id in orders ==> orders[order.id] == order
      modifies this, order, ConferenceAt(order.conferenceName.value)
      ensures Valid() && accounts == old(accounts)
      ensures var name, seat := old(order.conferenceName.value), old(order.seat.value);
        && order.State() == old(order.State()).(status := Ordering.PaymentRefused, seat := None, paymentReference := None)
        && order.changes == old(order.changes) + [Ordering.OrderPaymentRefused(order.id)]
        && orders == old(orders)[order.id := order]
        && name in conferences && conferences == old(conferences)[name := conferences[name]]
        && (name in old(conferences) ==> conferences == old(conferences))
        && conferences[name].seats == Booking.RemoveFirst(old(SeatsOf(name)), seat)
        && conferences[name].availableSeats == old(AvailableSeatsOf(name)) + [seat]
        && conferences[name].status == (if old(ConferenceStatusOf(name)) == Booking.Full then Booking.Open else old(ConferenceStatusOf(name)))
        && conferences[name].changes == old(ConferenceChangesOf(name))
        && conferences[name].seatPrice == old(SeatPriceOf(name))
    {
      var conference := LoadConference(order.conferenceName.value);
      conference.CancelBooking(order.seat.value);
      order.RefusePayment();
      SaveOrder(order);
      SaveConference(conference);
    }

    /** Load an account, request a payment from it and save it. */
    method RequestPaymentFrom(payer: AccountId, amount: int, orderId: OrderId, reference: PaymentReference)
      requires Valid()
      modifies this, AccountAt(payer)
      ensures Valid() && orders == old(orders) && conferences == old(conferences)
      ensures payer in accounts && accounts == old(accounts)[payer := accounts[payer]]
      ensures payer in old(accounts) ==> accounts == old(accounts)
      ensures var outcome := Payment.RequestOutcome(old(BalanceOf(payer)), payer, amount, orderId);
        && accounts[payer].balance == outcome.balance
        && accounts[payer].changes == old(PaymentChangesOf(payer)) + outcome.recorded
    {
      var account := LoadAccount(payer);
      account.RequestPayment(amount, orderId, reference);
      SaveAccount(account);
    }

    /* ---------- the saga handlers ---------- */

    /** `on(OrderRequested)`: book a seat for the order on the conference it names; save that conference only. */
    method OnOrderRequested(e: Ordering.OrderEvent)
      requires Valid() && e.OrderRequested?
      modifies this, ConferenceAt(e.conferenceName)
      ensures Valid()
      ensures orders == old(orders) && accounts == old(accounts)
      ensures e.conferenceName in conferences
      ensures conferences == old(conferences)[e.conferenceName := conferences[e.conferenceName]]
      ensures e.conferenceName in old(conferences) ==> conferences == old(conferences)
      ensures var conference := conferences[e.conferenceName];
        var available := old(AvailableSeatsOf(e.conferenceName));
        && conference.seatPrice == old(SeatPriceOf(e.conferenceName))
        && (available == [] ==>
              && conference.seats == old(SeatsOf(e.conferenceName)) && conference.availableSeats == []
              && conference.status == old(ConferenceStatusOf(e.conferenceName))
              && conference.changes == old(ConferenceChangesOf(e.conferenceName)) + [Booking.SeatBookingRequestRefused(e.conferenceName, e.orderId)])
        && (available != [] ==>
              && conference.seats == old(SeatsOf(e.conferenceName)) + [available[0]]
              && conference.availableSeats == available[1..]
              && conference.status == (if conference.availableSeats == [] then Booking.Full else old(ConferenceStatusOf(e.conferenceName)))
              && conference.changes == old(ConferenceChangesOf(e.conferenceName)))
    {
      var conference := LoadConference(e.conferenceName);
      var _ := conference.BookSeat(e.orderId);
      SaveConference(conference);
    }

    /**
     * `on(SeatBooked)`: assign the seat to the order, then request the conference's
     * seat price for that order from the order's account; save the order and the
     * account. `reference` stands for the payment reference an acceptance generates.
     */
    method OnSeatBooked(e: Booking.ConferenceEvent, reference: PaymentReference) returns (r: Outcome<SagaError>)
      requires Valid() && e.SeatBooked?
      modifies this, OrderAt(e.orderId), PayerOf(e.orderId)
      ensures Valid() && conferences == old(conferences) && orders == old(orders)
      ensures r.Fail? <==> old(OrderStateOf(e.orderId)).accountId.None?
      ensures r.Fail? ==> r.error == MissingAccountId(e.orderId) && accounts == old(accounts)
      ensures r.Pass? || e.orderId in old(orders) ==>
        && e.orderId in orders
        && orders[e.orderId].State() == old(OrderStateOf(e.orderId)).(status := Ordering.SeatBooked, seat := Some(e.bookedSeat))
        && orders[e.orderId].changes == old(OrderChangesOf(e.orderId)) + [Ordering.OrderSeatBooked(e.orderId, e.bookedSeat)]
      ensures r.Pass? ==>
        var payer := old(OrderStateOf(e.orderId)).accountId.value;
        var outcome := Payment.RequestOutcome(old(BalanceOf(payer)), payer, old(SeatPriceOf(e.conferenceName)), e.orderId);
        && payer in accounts && accounts == old(accounts)[payer := accounts[payer]]
        && (payer in old(accounts) ==> accounts == old(accounts))
        && accounts[payer].balance == outcome.balance
        && accounts[payer].changes == old(PaymentChangesOf(payer)) + outcome.recorded
    {
      var order := AssignSeat(e.orderId, e.bookedSeat);
      r := ChargeOrder(order, e.conferenceName, reference);
    }

    /** `on(SeatBookingRequestRefused)`: the order fails its seat booking; save that order only. */
    method OnSeatBookingRequestRefused(e: Booking.ConferenceEvent)
      requires Valid() && e.SeatBookingRequestRefused?
      modifies this, OrderAt(e.orderId)
      ensures Valid() && conferences == old(conferences) && accounts == old(accounts)
      ensures e.orderId in orders && orders == old(orders)[e.orderId := orders[e.orderId]]
      ensures e.orderId in old(orders) ==> orders == old(orders)
      ensures orders[e.orderId].State() == old(OrderStateOf(e.orderId)).(status := Ordering.SeatBookingFailed, seat := None)
      ensures orders[e.orderId].changes == old(OrderChangesOf(e.orderId)) + [Ordering.OrderSeatBookingFailed(e.orderId)]
    {
      var order := LoadOrder(e.orderId);
      order.FailSeatBooking();
      SaveOrder(order);
    }

    /** `on(PaymentAccepted)`: the order is paid with the event's reference; save that order only. */
    method OnPaymentAccepted(e: Payment.PaymentEvent)
      requires Valid() && e.PaymentAccepted?
      modifies this, OrderAt(e.orderId)
      ensures Valid() && conferences == old(conferences) && accounts == old(accounts)
      ensures e.orderId in orders && orders == old(orders)[e.orderId := orders[e.orderId]]
      ensures e.orderId in old(orders) ==> orders == old(orders)
      ensures orders[e.orderId].State() == old(OrderStateOf(e.orderId)).(status := Ordering.Paid, paymentReference := Some(e.paymentReference))
      ensures orders[e.orderId].changes == old(OrderChangesOf(e.orderId)) + [Ordering.OrderPaid(e.orderId, e.paymentReference)]
    {
      var order := LoadOrder(e.orderId);
      order.ConfirmPayment(e.paymentReference);
      SaveOrder(order);
    }

    /**
     * `on(PaymentRefused)`, the compensation: release the order's seat on its
     * conference, and only then refuse the payment on the order, which clears the
     * seat; save the order and the conference.
     */
    method OnPaymentRefused(e: Payment.PaymentEvent) returns (r: Outcome<SagaError>)
      requires Valid() && e.PaymentRefused?
      modifies this, OrderAt(e.orderId), ConferenceOf(e.orderId)
      ensures Valid() && accounts == old(accounts) && orders == old(orders)
      ensures r.Fail? <==> old(OrderStateOf(e.orderId)).conferenceName.None? || old(OrderStateOf(e.orderId)).seat.None?
      ensures r.Fail? ==> r.error == if old(OrderStateOf(e.orderId)).conferenceName.None? then MissingConferenceName(e.orderId) else MissingSeat(e.orderId)
      ensures r.Fail? ==> conferences == old(conferences)
      ensures r.Fail? ==> unchanged(OrderAt(e.orderId)) && unchanged(ConferenceOf(e.orderId))
      ensures r.Pass? ==>
        var before := old(OrderStateOf(e.orderId));
        var name, seat := before.conferenceName.value, before.seat.value;
        && e.orderId in orders
        && orders[e.orderId].State() == before.(status := Ordering.PaymentRefused, seat := None, paymentReference := None)
        && orders[e.orderId].changes == old(OrderChangesOf(e.orderId)) + [Ordering.OrderPaymentRefused(e.orderId)]
        && name in conferences && conferences == old(conferences)[name := conferences[name]]
        && (name in old(conferences) ==> conferences == old(conferences))
        && conferences[name].seats == Booking.RemoveFirst(old(SeatsOf(name)), seat)
        && conferences[name].availableSeats == old(AvailableSeatsOf(name)) + [seat]
        && conferences[name].status == (if old(ConferenceStatusOf(name)) == Booking.Full then Booking.Open else old(ConferenceStatusOf(name)))
        && conferences[name].changes == old(ConferenceChangesOf(name))
        && conferences[name].seatPrice == old(SeatPriceOf(name))
    {
      var order := LoadOrder(e.orderId);
      if order.conferenceName.None? {
        return Fail(MissingConferenceName(e.orderId));
      }
      if order.seat.None? {
        return Fail(MissingSeat(e.orderId));
      }
      Compensate(order);
      r := Pass;
    }
  }
}
