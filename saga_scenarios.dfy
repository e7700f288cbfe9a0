/**
 * The booking saga end to end: one order for a conference with a single seat,
 * each event the aggregates produce handed to the process manager in turn.
 */
module BookingSagaScenarios {
  import opened Wrappers
  import opened Ids
  import Booking
  import Ordering
  import Payment
  import opened BookingSaga

  /** A manager whose repositories hold the order, a one-seat conference at `price` and the payer holding `balance`. */
  method NewSaga(name: ConferenceName, orderId: OrderId, payer: AccountId, price: int, balance: int)
    returns (manager: ConferenceBookingProcessManager, order: Ordering.Order, conference: Booking.Conference, account: Payment.Account)
    ensures fresh(manager) && fresh(order) && fresh(conference) && fresh(account) && manager.Valid()
    ensures manager.orders == map[orderId := order]
    ensures manager.conferences == map[name := conference]
    ensures manager.accounts == map[payer := account]
    ensures order.State() == Ordering.Initial.(conferenceName := Some(name), accountId := Some(payer))
    ensures conference.seats == [] && conference.availableSeats == [Seat(0)]
    ensures conference.status == Booking.Open && conference.seatPrice == price
    ensures account.balance == balance && account.changes == []
  {
    conference := new Booking.Conference(name);
    conference.Open(1, price);
    assert Booking.OpenedSeats(1) == [Seat(0)];
    account := new Payment.Account(payer);
    account.Credit(balance);
    order := new Ordering.Order(orderId);
    order.RequestBooking(name, payer);
    manager := new ConferenceBookingProcessManager(map[orderId := order], map[name := conference], map[payer := account]);
  }

  /**
   * `OrderRequested` then `SeatBooked` handed to the saga: the order gets Seat(0), the
   * conference is FULL and the payer is asked for the seat price of 100.
   */
  method BookAndCharge(name: ConferenceName, orderId: OrderId, payer: AccountId, reference: PaymentReference, balance: int)
    returns (manager: ConferenceBookingProcessManager, order: Ordering.Order, conference: Booking.Conference, account: Payment.Account)
    ensures fresh(manager) && fresh(order) && fresh(conference) && fresh(account) && manager.Valid()
    ensures manager.orders == map[orderId := order]
    ensures manager.conferences == map[name := conference]
    ensures manager.accounts == map[payer := account]
    ensures order.State() == Ordering.OrderState(Ordering.SeatBooked, Some(name), Some(payer), Some(Seat(0)), None)
    ensures conference.seats == [Seat(0)] && conference.availableSeats == [] && conference.status == Booking.Full
    ensures var outcome := Payment.RequestOutcome(balance, payer, 100, orderId);
      account.balance == outcome.balance && account.changes == outcome.recorded
  {
    manager, order, conference, account := NewSaga(name, orderId, payer, 100, balance);
    manager.OnOrderRequested(Ordering.OrderRequested(orderId, name, payer));
    assert conference.seats == [Seat(0)] && conference.availableSeats == [];
    var r := manager.OnSeatBooked(Booking.SeatBooked(name, orderId, Seat(0)), reference);
  }

  /**
   * The payer cannot afford the seat: the payment is refused, and the compensation
   * hands the seat back and marks the order refused.
   */
  method RefusedPaymentReleasesSeat(name: ConferenceName, orderId: OrderId, payer: AccountId, reference: PaymentReference)
    returns (outcome: Outcome<SagaError>, conferenceStatus: Booking.ConferenceStatus, available: seq<Seat>, booked: seq<Seat>,
             orderStatus: Ordering.OrderStatus, seat: Option<Seat>, balance: int, payments: seq<Payment.PaymentEvent>)
    ensures outcome == Pass
    ensures conferenceStatus == Booking.ConferenceStatus.Open && available == [Seat(0)] && booked == []
    ensures orderStatus == Ordering.PaymentRefused && seat == None
    ensures balance == 50 && payments == [Payment.PaymentRequested(payer, 100), Payment.PaymentRefused(payer, 100, orderId)]
  {
    var manager, order, conference, account := BookAndCharge(name, orderId, payer, reference, 50);
    outcome := manager.OnPaymentRefused(Payment.PaymentRefused(payer, 100, orderId));
    conferenceStatus, available, booked := conference.status, conference.availableSeats, conference.seats;
    orderStatus, seat := order.status, order.seat;
    balance, payments := account.balance, account.changes;
  }

  /** The payer can afford the seat: the conference stays FULL and the order ends PAID with the reference. */
  method AcceptedPaymentPaysOrder(name: ConferenceName, orderId: OrderId, payer: AccountId, reference: PaymentReference)
    returns (conferenceStatus: Booking.ConferenceStatus, booked: seq<Seat>, orderStatus: Ordering.OrderStatus,
             paid: Option<PaymentReference>, balance: int, payments: seq<Payment.PaymentEvent>)
    ensures conferenceStatus == Booking.Full && booked == [Seat(0)]
    ensures orderStatus == Ordering.Paid && paid == Some(reference)
    ensures balance == 50 && payments == [Payment.PaymentRequested(payer, 100)]
  {
    var manager, order, conference, account := BookAndCharge(name, orderId, payer, reference, 150);
    manager.OnPaymentAccepted(Payment.PaymentAccepted(reference, payer, 100, orderId));
    conferenceStatus, booked := conference.status, conference.seats;
    orderStatus, paid := order.status, order.paymentReference;
    balance, payments := account.balance, account.changes;
  }
}
