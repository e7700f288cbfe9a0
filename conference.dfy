/**
 * The `Conference` aggregate: a pool of seats kept as two lists, the booked `seats`
 * and the `availableSeats`. Booking takes the head of the available list; cancelling
 * appends the seat back at its tail. Only a refused booking is recorded as a change:
 * the opening, booking and release evolutions update the fields and record nothing.
 */
module Booking {
  import opened Wrappers
  import opened Ids

  datatype ConferenceStatus = New | Open | Full

  datatype ConferenceEvent =
    | ConferenceOpened(conferenceName: ConferenceName, places: int, seatPrice: int)
    | SeatBooked(conferenceName: ConferenceName, orderId: OrderId, bookedSeat: Seat)
    | SeatBookingRequestRefused(conferenceName: ConferenceName, orderId: OrderId)
    | SeatReleased(conferenceName: ConferenceName, seat: Seat)

  /** The seats `apply(ConferenceOpened)` creates, Seat(0) first; none for a non-positive count. */
  function OpenedSeats(places: int): seq<Seat>
    decreases places
  {
    if places <= 0 then [] else OpenedSeats(places - 1) + [Seat(places - 1)]
  }

  /** The opened seats are Seat(0) ... Seat(places - 1), in this order. */
  lemma {:induction false} OpenedSeatsIndexed(places: int)
    ensures |OpenedSeats(places)| == if places <= 0 then 0 else places
    ensures forall i :: 0 <= i < |OpenedSeats(places)| ==> OpenedSeats(places)[i] == Seat(i)
    decreases places
  {
    if places > 0 {
      OpenedSeatsIndexed(places - 1);
    }
  }

  /** A seat is opened exactly when its number is below the number of places. */
  lemma OpenedSeatsMembership(places: int)
    ensures forall s :: s in OpenedSeats(places) <==> 0 <= s.number < places
  {
    OpenedSeatsIndexed(places);
    var xs := OpenedSeats(places);
    forall s: Seat | 0 <= s.number < places
      ensures s in xs
    {
      assert xs[s.number] == s;
    }
  }

  /** No opened seat occurs twice. */
  lemma {:induction false} OpenedSeatsDuplicateFree(places: int)
    ensures DuplicateFree(OpenedSeats(places))
    decreases places
  {
    if places > 0 {
      OpenedSeatsDuplicateFree(places - 1);
      OpenedSeatsMembership(places - 1);
      var prefix := OpenedSeats(places - 1);
      assert Seat(places - 1) !in prefix;
      forall s | s in OpenedSeats(places)
        ensures multiset(OpenedSeats(places))[s] == 1
      {
        if s == Seat(places - 1) {
          assert multiset(prefix)[s] == 0;
        } else {
          assert s in prefix;
        }
      }
    }
  }

  /** No seat occurs twice. */
  ghost predicate DuplicateFree(xs: seq<Seat>) {
    forall s :: s in xs ==> multiset(xs)[s] == 1
  }

  /** The position of the first occurrence of a seat in a list that holds it. */
  function FirstIndex(xs: seq<Seat>, x: Seat): (k: nat)
    requires x in xs
    ensures k < |xs| && xs[k] == x && x !in xs[..k]
  {
    if xs[0] == x then 0
    else
      assert x in xs[1..] by {
        var i :| 0 <= i < |xs| && xs[i] == x;
        assert xs[1..][i - 1] == x;
      }
      var k := FirstIndex(xs[1..], x);
      assert xs[..k + 1] == [xs[0]] + xs[1..][..k];
      k + 1
  }

  /**
   * `java.util.List.remove(Object)`: drop the first element equal to `x`, if there is
   * one, keeping the order of the others.
   */
  function RemoveFirst(xs: seq<Seat>, x: Seat): (r: seq<Seat>)
    ensures x in xs ==> exists k :: 0 <= k < |xs| && xs[k] == x && x !in xs[..k] && r == xs[..k] + xs[k + 1..]
    ensures x in xs ==> multiset(r) == multiset(xs) - multiset{x} && |r| == |xs| - 1
    ensures x !in xs ==> r == xs
    ensures forall s :: s in r ==> s in xs
  {
    if x !in xs then xs
    else
      var k := FirstIndex(xs, x);
      assert xs == xs[..k] + [x] + xs[k + 1..];
      xs[..k] + xs[k + 1..]
  }

  /**
   * The partition invariant: the booked and the available seats are disjoint, each
   * duplicate-free, and together exactly the seats opened with `places`.
   */
  ghost predicate Partitioned(booked: seq<Seat>, available: seq<Seat>, places: int) {
    multiset(booked) + multiset(available) == multiset(OpenedSeats(places))
  }

  /** What `Partitioned` means, seat by seat. */
  lemma PartitionedMeans(booked: seq<Seat>, available: seq<Seat>, places: int)
    requires Partitioned(booked, available, places)
    ensures DuplicateFree(booked) && DuplicateFree(available)
    ensures forall s :: s in booked ==> s !in available
    ensures forall s :: s in booked || s in available <==> 0 <= s.number < places
  {
    OpenedSeatsMembership(places);
    OpenedSeatsDuplicateFree(places);
    forall s
      ensures multiset(booked)[s] + multiset(available)[s] == multiset(OpenedSeats(places))[s]
    {
    }
  }

  /** A freshly opened conference is partitioned: nothing booked, every seat available. */
  lemma OpeningPartitions(places: int)
    ensures Partitioned([], OpenedSeats(places), places)
  {
  }

  /** Booking any available seat (`apply(SeatBooked)`) keeps the partition. */
  lemma BookingKeepsPartition(booked: seq<Seat>, available: seq<Seat>, places: int, seat: Seat)
    requires Partitioned(booked, available, places) && seat in available
    ensures Partitioned(booked + [seat], RemoveFirst(available, seat), places)
  {
  }

  /** Releasing a booked seat (`apply(SeatReleased)`) keeps the partition. */
  lemma ReleasingBookedSeatKeepsPartition(booked: seq<Seat>, available: seq<Seat>, places: int, seat: Seat)
    requires Partitioned(booked, available, places) && seat in booked
    ensures Partitioned(RemoveFirst(booked, seat), available + [seat], places)
  {
  }

  /** Releasing a seat that is not booked puts a second copy of it in the pool. */
  lemma ReleasingUnbookedSeatBreaksPartition(booked: seq<Seat>, available: seq<Seat>, places: int, seat: Seat)
    requires Partitioned(booked, available, places) && seat !in booked
    ensures !Partitioned(RemoveFirst(booked, seat), available + [seat], places)
  {
    assert multiset(booked + available + [seat])[seat] == multiset(booked + available)[seat] + 1;
    assert multiset(booked) + multiset(available + [seat]) == multiset(booked + available + [seat]);
  }

  class Conference {
    const id: ConferenceName
    var seats: seq<Seat>
    var availableSeats: seq<Seat>
    var seatPrice: int
    var status: ConferenceStatus
    var changes: seq<ConferenceEvent>
    var version: int

    /** A FULL conference has no available seat. */
    ghost predicate Valid()
      reads this
    {
      version == |changes| && (status == Full ==> availableSeats == [])
    }

    constructor (id: ConferenceName)
      ensures this.id == id && Valid()
      ensures seats == [] && availableSeats == [] && seatPrice == 0 && status == New
      ensures changes == [] && version == 0
    {
      this.id := id;
      seats, availableSeats, seatPrice, status := [], [], 0, New;
      changes, version := [], 0;
    }

    /** The aggregate root's `recordChange`. */
    method RecordChange(e: ConferenceEvent)
      modifies this
      ensures changes == old(changes) + [e] && version == old(version) + 1
      ensures seats == old(seats) && availableSeats == old(availableSeats)
      ensures seatPrice == old(seatPrice) && status == old(status)
    {
      changes := changes + [e];
      version := version + 1;
    }

    /** `open`: unguarded; a second opening appends the seats again. */
    method Open(places: int, price: int)
      requires Valid()
      modifies this
      ensures Valid()
      ensures status == ConferenceStatus.Open && seatPrice == price
      ensures seats == old(seats) && availableSeats == old(availableSeats) + OpenedSeats(places)
      ensures changes == old(changes) && version == old(version)
    {
      ApplyConferenceOpened(ConferenceOpened(id, places, price));
    }

    /** `apply(ConferenceOpened)`: appends Seat(0) ... Seat(places - 1) to the available seats. */
    method ApplyConferenceOpened(e: ConferenceEvent)
      requires Valid() && e.ConferenceOpened?
      modifies this
      ensures Valid()
      ensures status == ConferenceStatus.Open && seatPrice == e.seatPrice
      ensures seats == old(seats) && availableSeats == old(availableSeats) + OpenedSeats(e.places)
      ensures changes == old(changes) && version == old(version)
    {
      status := ConferenceStatus.Open;
      seatPrice := e.seatPrice;
      var i := 0;
      while i < e.places
        invariant 0 <= i <= if e.places > 0 then e.places else 0
        invariant availableSeats == old(availableSeats) + OpenedSeats(i)
        invariant seats == old(seats) && status == ConferenceStatus.Open && seatPrice == e.seatPrice
        invariant changes == old(changes) && version == old(version)
      {
        availableSeats := availableSeats + [Seat(i)];
        i := i + 1;
      }
      assert OpenedSeats(i) == OpenedSeats(e.places);
    }

    /**
     * `bookSeat`: with no available seat, records `SeatBookingRequestRefused` and returns
     * nothing; otherwise books the head of the available seats and returns it.
     */
    method BookSeat(orderId: OrderId) returns (r: Option<Seat>)
      requires Valid()
      modifies this
      ensures Valid() && seatPrice == old(seatPrice)
      ensures old(availableSeats) == [] ==>
        && r == None && seats == old(seats) && availableSeats == old(availableSeats) && status == old(status)
        && changes == old(changes) + [SeatBookingRequestRefused(id, orderId)] && version == old(version) + 1
      ensures old(availableSeats) != [] ==>
        && r == Some(old(availableSeats)[0])
        && seats == old(seats) + [r.value] && availableSeats == old(availableSeats)[1..]
        && status == (if availableSeats == [] then Full else old(status))
        && (status == Full <==> availableSeats == [])
        && changes == old(changes) && version == old(version)
    {
      if availableSeats == [] {
        ApplySeatBookingRequestRefused(SeatBookingRequestRefused(id, orderId));
        return None;
      }
      var seat := availableSeats[0];
      ApplySeatBooked(SeatBooked(id, orderId, seat));
      return Some(seat);
    }

    /** `cancelBooking`: releases the seat. */
    method CancelBooking(seat: Seat)
      requires Valid()
      modifies this
      ensures Valid()
      ensures seats == RemoveFirst(old(seats), seat) && availableSeats == old(availableSeats) + [seat]
      ensures status == (if old(status) == Full then ConferenceStatus.Open else old(status))
      ensures seatPrice == old(seatPrice) && changes == old(changes) && version == old(version)
    {
      ApplySeatReleased(SeatReleased(id, seat));
    }

    /** `apply(SeatBooked)`: moves the seat from the available to the booked list; FULL once none is left. */
    method ApplySeatBooked(e: ConferenceEvent)
      requires Valid() && e.SeatBooked?
      modifies this
      ensures Valid()
      ensures availableSeats == RemoveFirst(old(availableSeats), e.bookedSeat) && seats == old(seats) + [e.bookedSeat]
      ensures status == (if availableSeats == [] then Full else old(status))
      ensures seatPrice == old(seatPrice) && changes == old(changes) && version == old(version)
    {
      var seat := e.bookedSeat;
      availableSeats := RemoveFirst(availableSeats, seat);
      seats := seats + [seat];
      if availableSeats == [] {
        status := Full;
      }
    }

    /** `apply(SeatBookingRequestRefused)`: the one conference evolution that records. */
    method ApplySeatBookingRequestRefused(e: ConferenceEvent)
      requires Valid() && e.SeatBookingRequestRefused?
      modifies this
      ensures Valid()
      ensures changes == old(changes) + [e] && version == old(version) + 1
      ensures seats == old(seats) && availableSeats == old(availableSeats)
      ensures seatPrice == old(seatPrice) && status == old(status)
    {
      RecordChange(e);
    }

    /** `apply(SeatReleased)`: moves the seat back to the tail of the available list; FULL becomes OPEN. */
    method ApplySeatReleased(e: ConferenceEvent)
      requires Valid() && e.SeatReleased?
      modifies this
      ensures Valid()
      ensures seats == RemoveFirst(old(seats), e.seat) && availableSeats == old(availableSeats) + [e.seat]
      ensures status == (if old(status) == Full then ConferenceStatus.Open else old(status))
      ensures seatPrice == old(seatPrice) && changes == old(changes) && version == old(version)
    {
      var seat := e.seat;
      seats := RemoveFirst(seats, seat);
      availableSeats := availableSeats + [seat];
      if status == Full {
        status := ConferenceStatus.Open;
      }
    }
  }

  /**
   * A conference opened with `places` seats serves `places + 1` successive bookings:
   * the first `places` return Seat(0) ... Seat(places - 1), each once, the last returns
   * nothing and is recorded as refused, and a conference with seats ends FULL.
   */
  method BookEverySeat(name: ConferenceName, places: nat, price: int, orderId: OrderId)
    returns (booked: seq<Seat>, last: Option<Seat>, status: ConferenceStatus, changes: seq<ConferenceEvent>)
    ensures |booked| == places && DuplicateFree(booked)
    ensures forall i :: 0 <= i < places ==> booked[i] == Seat(i)
    ensures last == None
    ensures status == (if places > 0 then Full else ConferenceStatus.Open)
    ensures changes == [SeatBookingRequestRefused(name, orderId)]
  {
    var conference := new Conference(name);
    conference.Open(places, price);
    OpenedSeatsIndexed(places);
    ghost var all := OpenedSeats(places);
    assert conference.availableSeats == all[0..];
    booked := [];
    var i := 0;
    while i < places
      invariant 0 <= i <= places && conference.Valid()
      invariant booked == OpenedSeats(i) && conference.seats == booked
      invariant conference.availableSeats == all[i..]
      invariant conference.status == (if i == places && places > 0 then Full else ConferenceStatus.Open)
      invariant conference.changes == []
    {
      assert all[i..][0] == Seat(i) && all[i..][1..] == all[i + 1..];
      var seat := conference.BookSeat(orderId);
      booked := booked + [seat.value];
      i := i + 1;
    }
    last := conference.BookSeat(orderId);
    OpenedSeatsDuplicateFree(places);
    status, changes := conference.status, conference.changes;
  }
}
