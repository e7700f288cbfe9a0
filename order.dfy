/**
 * The `Order` aggregate: an unguarded status machine. Every decision builds one event
 * and folds it through an evolution that updates the fields and records it, whatever
 * the current status.
 */
module Ordering {
  import opened Wrappers
  import opened Ids
  import opened EventSourcing

  datatype OrderStatus = New | SeatBooked | SeatBookingFailed | Paid | PaymentRefused

  datatype OrderEvent =
    | OrderRequested(orderId: OrderId, conferenceName: ConferenceName, accountId: AccountId)
    | OrderSeatBooked(orderId: OrderId, bookedSeat: Seat)
    | OrderSeatBookingFailed(orderId: OrderId)
    | OrderPaid(orderId: OrderId, paymentReference: PaymentReference)
    | OrderPaymentRefused(orderId: OrderId)

  /** The business fields of an order; all but the status are null in a new order. */
  datatype OrderState = OrderState(
    status: OrderStatus,
    conferenceName: Option<ConferenceName>,
    accountId: Option<AccountId>,
    seat: Option<Seat>,
    paymentReference: Option<PaymentReference>)

  const Initial := OrderState(New, None, None, None, None)

  /** What one `apply` evolution does to the fields, without validation. */
  function Evolve(s: OrderState, e: OrderEvent): OrderState {
    match e
    case OrderRequested(_, conferenceName, accountId) =>
      s.(accountId := Some(accountId), conferenceName := Some(conferenceName))
    case OrderSeatBooked(_, seat) => s.(seat := Some(seat), status := SeatBooked)
    case OrderSeatBookingFailed(_) => s.(seat := None, status := SeatBookingFailed)
    case OrderPaid(_, reference) => s.(paymentReference := Some(reference), status := Paid)
    case OrderPaymentRefused(_) => s.(paymentReference := None, status := PaymentRefused, seat := None)
  }

  function After(s: OrderState, history: seq<OrderEvent>): OrderState {
    Replay(Evolve, s, history)
  }

  /**
   * The consistency the saga relies on: a payment reference only on a PAID order,
   * a seat only on a SEAT_BOOKED or PAID order.
   */
  predicate Consistent(s: OrderState) {
    && (s.paymentReference.Some? ==> s.status == Paid)
    && (s.seat.Some? ==> s.status == SeatBooked || s.status == Paid)
  }

  /** The transitions the booking saga drives an order through. */
  predicate SagaAllows(status: OrderStatus, e: OrderEvent) {
    match e
    case OrderRequested(_, _, _) => status == New
    case OrderSeatBooked(_, _) => status == New
    case OrderSeatBookingFailed(_) => status == New
    case OrderPaid(_, _) => status == SeatBooked
    case OrderPaymentRefused(_) => status == SeatBooked
  }

  /** A history whose every event is a saga transition from the status before it. */
  predicate SagaHistory(s: OrderState, history: seq<OrderEvent>)
    decreases |history|
  {
    history == [] || (SagaAllows(s.status, history[0]) && SagaHistory(Evolve(s, history[0]), history[1..]))
  }

  /** Along the saga's transitions an order stays consistent. */
  lemma {:induction false} SagaKeepsOrderConsistent(s: OrderState, history: seq<OrderEvent>)
    requires Consistent(s) && SagaHistory(s, history)
    ensures Consistent(After(s, history))
    decreases |history|
  {
    if history != [] {
      SagaKeepsOrderConsistent(Evolve(s, history[0]), history[1..]);
    }
  }

  /**
   * The status machine is unguarded: a seat assignment delivered again after the
   * payment was confirmed gives a SEAT_BOOKED order that still carries the payment reference.
   */
  lemma AssignAfterPaymentKeepsReference(id: OrderId, conference: ConferenceName, account: AccountId, seat: Seat, reference: PaymentReference)
    ensures var history := [OrderRequested(id, conference, account), OrderSeatBooked(id, seat), OrderPaid(id, reference), OrderSeatBooked(id, seat)];
      && Consistent(After(Initial, history[..3]))
      && After(Initial, history) == OrderState(SeatBooked, Some(conference), Some(account), Some(seat), Some(reference))
      && !Consistent(After(Initial, history))
  {
    var history := [OrderRequested(id, conference, account), OrderSeatBooked(id, seat), OrderPaid(id, reference), OrderSeatBooked(id, seat)];
    assert history[..3] == [history[0]] + [history[1]] + [history[2]];
    assert history == history[..3] + [history[3]];
    ReplayOne(Evolve, Initial, history[0]);
    ReplaySnoc(Evolve, Initial, [history[0]], history[1]);
    ReplaySnoc(Evolve, Initial, [history[0]] + [history[1]], history[2]);
    ReplaySnoc(Evolve, Initial, history[..3], history[3]);
  }

  /** No evolution but `OrderRequested` touches the conference or the paying account. */
  lemma {:induction false} OnlyRequestSetsConferenceAndAccount(s: OrderState, history: seq<OrderEvent>)
    requires forall i :: 0 <= i < |history| ==> !history[i].OrderRequested?
    ensures After(s, history).conferenceName == s.conferenceName
    ensures After(s, history).accountId == s.accountId
    decreases |history|
  {
    if history != [] {
      OnlyRequestSetsConferenceAndAccount(Evolve(s, history[0]), history[1..]);
    }
  }

  /** Apart from `OrderRequested`, where an order ends up does not depend on its status. */
  lemma OutcomeIgnoresStatus(s: OrderState, other: OrderStatus, e: OrderEvent)
    requires !e.OrderRequested?
    ensures Evolve(s, e) == Evolve(s.(status := other), e)
  {
  }

  class Order {
    const id: OrderId
    var status: OrderStatus
    var conferenceName: Option<ConferenceName>
    var accountId: Option<AccountId>
    var seat: Option<Seat>
    var paymentReference: Option<PaymentReference>
    var changes: seq<OrderEvent>
    var version: int

    function State(): OrderState
      reads this
    {
      OrderState(status, conferenceName, accountId, seat, paymentReference)
    }

    /** Every evolution records, so the fields are the replay of the recorded events. */
    ghost predicate Valid()
      reads this
    {
      version == |changes| && State() == After(Initial, changes)
    }

    constructor (id: OrderId)
      ensures this.id == id && Valid()
      ensures State() == Initial && changes == [] && version == 0
    {
      this.id := id;
      status, conferenceName, accountId, seat, paymentReference := New, None, None, None, None;
      changes, version := [], 0;
    }

    /** The aggregate root's `recordChange`. */
    method RecordChange(e: OrderEvent)
      modifies this
      ensures changes == old(changes) + [e] && version == old(version) + 1
      ensures State() == old(State())
    {
      changes := changes + [e];
      version := version + 1;
    }

    /** The `apply` evolutions, one branch per event type. */
    method Apply(e: OrderEvent)
      requires Valid()
      modifies this
      ensures Valid()
      ensures State() == Evolve(old(State()), e) && changes == old(changes) + [e]
    {
      match e {
        case OrderRequested(_, name, account) =>
          accountId := Some(account);
          conferenceName := Some(name);
        case OrderSeatBooked(_, booked) =>
          seat := Some(booked);
          status := SeatBooked;
        case OrderSeatBookingFailed(_) =>
          seat := None;
          status := SeatBookingFailed;
        case OrderPaid(_, reference) =>
          paymentReference := Some(reference);
          status := Paid;
        case OrderPaymentRefused(_) =>
          paymentReference := None;
          status := PaymentRefused;
          seat := None;
      }
      RecordChange(e);
      ReplaySnoc(Evolve, Initial, old(changes), e);
    }

    /** `requestBooking`: sets the conference and the paying account; the status stays. */
    method RequestBooking(name: ConferenceName, account: AccountId)
      requires Valid()
      modifies this
      ensures Valid() && changes == old(changes) + [OrderRequested(id, name, account)]
      ensures State() == old(State()).(conferenceName := Some(name), accountId := Some(account))
    {
      Apply(OrderRequested(id, name, account));
    }

    /** `assign`: SEAT_BOOKED with the given seat, from any status. */
    method Assign(bookedSeat: Seat)
      requires Valid()
      modifies this
      ensures Valid() && changes == old(changes) + [OrderSeatBooked(id, bookedSeat)]
      ensures State() == old(State()).(status := SeatBooked, seat := Some(bookedSeat))
    {
      Apply(OrderSeatBooked(id, bookedSeat));
    }

    /** `failSeatBooking`: SEAT_BOOKING_FAILED without a seat, from any status. */
    method FailSeatBooking()
      requires Valid()
      modifies this
      ensures Valid() && changes == old(changes) + [OrderSeatBookingFailed(id)]
      ensures State() == old(State()).(status := SeatBookingFailed, seat := None)
    {
      Apply(OrderSeatBookingFailed(id));
    }

    /** `confirmPayment`: PAID with the reference; the seat is kept. */
    method ConfirmPayment(reference: PaymentReference)
      requires Valid()
      modifies this
      ensures Valid() && changes == old(changes) + [OrderPaid(id, reference)]
      ensures State() == old(State()).(status := Paid, paymentReference := Some(reference))
    {
      Apply(OrderPaid(id, reference));
    }

    /** `refusePayment`: PAYMENT_REFUSED, clearing both the seat and the payment reference. */
    method RefusePayment()
      requires Valid()
      modifies this
      ensures Valid() && changes == old(changes) + [OrderPaymentRefused(id)]
      ensures State() == old(State()).(status := PaymentRefused, seat := None, paymentReference := None)
    {
      Apply(OrderPaymentRefused(id));
    }
  }
}
