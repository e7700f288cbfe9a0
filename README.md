# Event-sourcing workshop domain, modelled in Dafny

This project models the domain layer of an event-sourcing workshop written in Java: a
banking account and a conference-booking system. Every aggregate is a small state machine.
A *decision* validates a request and builds an event. An *evolution* (`apply`) folds that
event into the fields and, usually, records it in the aggregate's pending changes. The
model keeps that shape: each aggregate is a Dafny `class` with its fields, a `changes`
sequence and a `version`. Decisions and evolutions are methods with `modifies` clauses.
Where the aggregate can be replayed, the fields are tied to a pure fold of the recorded
events.

Modules, one per source file (plus two for shared types):

- `Wrappers` (`wrappers.dfy`): `Option`, `Result` and `Outcome`. A thrown domain exception becomes `Fail(error)`.
- `Ids` (`ids.dfy`): the identifier value types of the conference side, and `Seat`.
- `EventSourcing` (`event_sourcing.dfy`): `Replay`, the left fold of an event history into a state, and its append laws.
- `Banking` (`banking_account.dfy`): the banking `Account`. Its lifecycle is NEW → OPEN → CLOSED. The synchronous transfer runs `requestTransfer` → `credit` on two accounts, which may be the same object. `credit` then either applies `FundDebited` to the sender directly or calls the sender's `abortTransferRequest`. `debit` exists but no transfer step calls it.
- `BankingRepository` (`banking_repository.dfy`): the banking `AccountRepository` over an event store. The store is a map from account id to its event list, and storing appends to that list.
- `BankingScenarios` (`banking_scenarios.dfy`): the account test scenarios, run on the class.
- `Booking` (`conference.dfy`): the `Conference` seat pool, as two lists. It includes the partition invariant over the booked and available seats.
- `Ordering` (`order.dfy`): the `Order` status machine, which has no guards.
- `Payment` (`payment_account.dfy`): the payment `Account`.
- `BookingSaga` (`process_manager.dfy`): `ConferenceBookingProcessManager`. Its three repositories are maps from id to aggregate object.
- `BookingSagaScenarios` (`saga_scenarios.dfy`): the saga end to end, for a refused and for an accepted payment.

The invariant of each replayable aggregate (banking `Account`, `Order`) is
`version == |changes| && State() == After(Initial, changes)`. In words: the fields are
exactly the replay of everything recorded since construction. A conference and a payment
account cannot keep that invariant. Some of their evolutions change fields without
recording anything, so their invariant is only `version == |changes|` (plus "FULL means
no available seat" for a conference).

Values the source generates are parameters of the model:

- the account number, a random UUID in `open`;
- the identifier from `Account.create` / `AccountId.next`;
- the payment reference from `PaymentReference.generate()`.

## Model

| member | source | states |
|---|---|---|
| EventSourcing.ReplayAppend | src/main/java/fr/soat/banking/domain/AccountRepository.java:35-44 | replaying a history in two pieces is replaying it at once (the basis of hydrating an aggregate event by event) |
| EventSourcing.ReplayOne | src/main/java/fr/soat/banking/domain/AccountRepository.java:39-41 | replaying one event is applying it |
| EventSourcing.ReplaySnoc | src/main/java/fr/soat/banking/domain/AccountRepository.java:39-41 | recording one more event moves the replayed state by exactly that event's evolution |
| Banking.DecideOpen | src/main/java/fr/soat/banking/domain/Account.java:61-69 | open fails exactly when the account is not NEW, with the current status; otherwise one AccountOpened for this account, leaving owner, number, balance 0 and OPEN |
| Banking.DecideDeposit | src/main/java/fr/soat/banking/domain/Account.java:71-79 | deposit fails exactly when the account is not OPEN; otherwise exactly [AccountDeposited] and the balance grows by the amount |
| Banking.DecideWithdraw | src/main/java/fr/soat/banking/domain/Account.java:81-94 | withdraw fails when not OPEN (InvalidStateTransition) or when the amount exceeds the balance (InsufficientFunds with amount and balance); on success exactly [AccountWithdrawn], balance decreased by the amount and never negative |
| Banking.DecideClose | src/main/java/fr/soat/banking/domain/Account.java:96-105 | close fails exactly when not OPEN; otherwise exactly [AccountClosed] and status CLOSED with the balance kept |
| Banking.NegativeDepositOverdraws | src/main/java/fr/soat/banking/domain/Account.java:71-79 | no decision checks the sign of an amount: a deposit of -1 on an empty OPEN account succeeds and leaves balance -1 |
| Banking.CreditEvents | src/main/java/fr/soat/banking/domain/Account.java:139-155 | credit appends one event to each side: FundCredited/FundDebited exactly when the receiver is OPEN, otherwise CreditRequestRefused/TransferRequestAborted |
| Banking.Transfer | src/main/java/fr/soat/banking/domain/Account.java:109-127 | a transfer fails exactly when the sender is not OPEN, with its status as the error |
| Banking.SelfTransfer | src/main/java/fr/soat/banking/domain/Account.java:109-155 | a transfer to oneself fails exactly when not OPEN and otherwise leaves the account's state as it was |
| Banking.TransferConservesTotalBalance | src/main/java/fr/soat/banking/domain/Account.java:109-187 | a transfer between two accounts never changes the sum of their balances |
| Banking.TransferOutcomes | src/main/java/fr/soat/banking/domain/Account.java:109-187 | from an OPEN sender: with funds to an OPEN receiver, sender gets [TransferRequested, FundDebited] and loses the amount, receiver gets [FundCredited] and gains it; with funds to another receiver, [TransferRequested, TransferRequestAborted] / [CreditRequestRefused] and no balance moves; without funds, only [TransferRequestRefused] and the receiver is untouched |
| Banking.Account.constructor | src/main/java/fr/soat/banking/domain/Account.java:16-23 | a new account is NEW with balance 0, no owner or number, no changes, version 0 |
| Banking.Account.Apply | src/main/java/fr/soat/banking/domain/Account.java:27-187 | every evolution (lifecycle and transfer) moves the fields by Evolve, in which only deposits, withdrawals, FundCredited and FundDebited move the balance, and records the event, keeping fields == replay of changes |
| Banking.Account.Open | src/main/java/fr/soat/banking/domain/Account.java:61-69 | the outcome is DecideOpen's; a failure changes nothing at all; a success appends its events and moves the state by them |
| Banking.Account.Deposit | src/main/java/fr/soat/banking/domain/Account.java:71-79 | the outcome is DecideDeposit's; a failure changes nothing; a success appends [AccountDeposited] and adds the amount |
| Banking.Account.Withdraw | src/main/java/fr/soat/banking/domain/Account.java:81-94 | the outcome is DecideWithdraw's (both guards, in order); a failure changes nothing; a success appends [AccountWithdrawn] |
| Banking.Account.Close | src/main/java/fr/soat/banking/domain/Account.java:96-105 | the outcome is DecideClose's; a failure changes nothing; a success appends [AccountClosed] |
| Banking.Account.RequestTransfer | src/main/java/fr/soat/banking/domain/Account.java:109-127 | fails, changing neither account, exactly when the sender is not OPEN; otherwise both accounts end as Transfer prescribes, or as SelfTransfer prescribes when the receiver is the sender itself |
| Banking.Account.Credit | src/main/java/fr/soat/banking/domain/Account.java:139-155 | receiver and sender each get CreditEvents' event and move by it, also when they are one object |
| Banking.Account.AbortTransferRequest | src/main/java/fr/soat/banking/domain/Account.java:168-176 | records TransferRequestAborted and changes no field |
| Banking.Account.Debit | src/main/java/fr/soat/banking/domain/Account.java:178-187 | records FundDebited and takes the amount off the balance, unguarded |
| BankingRepository.AccountRepository.constructor | src/main/java/fr/soat/banking/domain/AccountRepository.java:15-17 | the repository works over the event store it is given |
| BankingRepository.AccountRepository.Save | src/main/java/fr/soat/banking/domain/AccountRepository.java:19-25 | the account's pending changes are appended to its stored events; the events of every other id are untouched |
| BankingRepository.AccountRepository.Load | src/main/java/fr/soat/banking/domain/AccountRepository.java:27-33 | a new account with the given id whose state is the replay of the stored events and whose changes are those events; an unknown id gives an account in its initial state; the store is only read |
| BankingRepository.AccountRepository.Hydrate | src/main/java/fr/soat/banking/domain/AccountRepository.java:35-44 | applying the events one at a time, in order, to a new account yields the replay of the events, with the events as pending changes and version their count |
| BankingRepository.ReloadReproducesAccount | src/main/java/fr/soat/banking/domain/AccountRepository.java:19-44 | saving then loading a valid account gives the stored history followed by its changes, and the replay of the stored history continued by its changes; for an account with no stored events it reproduces owner, number, balance, status, changes and version; for an account whose changes start with AccountOpened (one built from NEW by decisions) it reproduces the state whatever was stored before |
| BankingRepository.OpeningHistoryForgetsStart | src/main/java/fr/soat/banking/domain/Account.java:27-34 | a history starting with AccountOpened replays to the same state from any starting state, because that evolution sets every field |
| BankingRepository.ReplayingTwiceKeepsOpenedState | src/main/java/fr/soat/banking/domain/AccountRepository.java:19-44 | replaying a history that starts with AccountOpened twice in a row gives the state of replaying it once |
| BankingRepository.SaveAfterLoadDuplicatesHistory | src/main/java/fr/soat/banking/domain/AccountRepository.java:19-44 | a hydrated account holds its whole history as pending changes, so load, save, load doubles the stored history, the reloaded changes and the version; the state survives when the history starts with AccountOpened |
| BankingScenarios.ClassicLifecycle | src/test/java/fr/soat/banking/domain/AccountTest.java:10-37 | open("toto"), deposit 100 twice, withdraw 200, close: owner toto, balance 0, CLOSED, version 5 and the five events in order |
| BankingScenarios.InsufficientWithdrawal | src/test/java/fr/soat/banking/domain/AccountTest.java:39-52 | withdrawing 200 from 100 fails with InsufficientFunds(200, 100), leaving balance 100 and version 2 |
| BankingScenarios.InvalidDecisions | src/test/java/fr/soat/banking/domain/AccountTest.java:54-98 | withdraw, deposit and close fail on a NEW account, open fails on an OPEN one, and all four fail on a CLOSED one, each with the status as the error |
| BankingScenarios.TransferBetweenOpenAccounts | src/test/java/fr/soat/banking/domain/AccountTest.java:100-164 | between open accounts holding 200 and 0, an affordable amount moves and both event lists are exact; an unaffordable amount moves nothing and only TransferRequestRefused is added to the sender |
| BankingScenarios.TransferToClosedAccount | src/test/java/fr/soat/banking/domain/AccountTest.java:166-198 | a transfer of 50 to a closed account leaves 200 and 0, the sender records TransferRequested and TransferRequestAborted, the receiver CreditRequestRefused |
| Booking.OpenedSeatsIndexed | src/main/java/fr/soat/conference/domain/booking/Conference.java:42-45 | opening creates Seat(0) … Seat(places - 1), in this order, and none for a non-positive count |
| Booking.OpenedSeatsMembership | src/main/java/fr/soat/conference/domain/booking/Conference.java:42-45 | a seat is opened exactly when its number is below the number of places |
| Booking.OpenedSeatsDuplicateFree | src/main/java/fr/soat/conference/domain/booking/Conference.java:42-45 | no opened seat occurs twice |
| Booking.FirstIndex | src/main/java/fr/soat/conference/domain/booking/Conference.java:80 | the position of a seat in a list holding it: that element is the seat and no earlier one is |
| Booking.RemoveFirst | src/main/java/fr/soat/conference/domain/booking/Conference.java:79-81 | List.remove(Object): for a present seat, the list with its first occurrence cut out and the other elements in their order, so one occurrence fewer (multiset); an absent one leaves the list as it is; nothing new appears |
| Booking.PartitionedMeans | src/main/java/fr/soat/conference/domain/booking/Conference.java:19-20 | the partition means: both lists duplicate-free, disjoint, and together exactly the seats numbered below the places |
| Booking.OpeningPartitions | src/main/java/fr/soat/conference/domain/booking/Conference.java:35-46 | a freshly opened conference is partitioned: nothing booked, every seat available |
| Booking.BookingKeepsPartition | src/main/java/fr/soat/conference/domain/booking/Conference.java:73-86 | booking an available seat keeps the partition |
| Booking.ReleasingBookedSeatKeepsPartition | src/main/java/fr/soat/conference/domain/booking/Conference.java:93-104 | releasing a booked seat keeps the partition |
| Booking.ReleasingUnbookedSeatBreaksPartition | src/main/java/fr/soat/conference/domain/booking/Conference.java:93-104 | releasing a seat that is not booked breaks the partition (the seat is duplicated), so only booked seats may be cancelled |
| Booking.Conference.constructor | src/main/java/fr/soat/conference/domain/booking/Conference.java:19-27 | a new conference is NEW with empty seat lists and no changes |
| Booking.Conference.Open | src/main/java/fr/soat/conference/domain/booking/Conference.java:29-33 | the conference becomes OPEN at the price, with Seat(0) … Seat(places - 1) appended to the available seats; nothing is recorded |
| Booking.Conference.ApplyConferenceOpened | src/main/java/fr/soat/conference/domain/booking/Conference.java:35-46 | the loop appends OpenedSeats(places) to the available seats, sets OPEN and the price, and records nothing |
| Booking.Conference.BookSeat | src/main/java/fr/soat/conference/domain/booking/Conference.java:48-63 | with no seat available: nothing returned, SeatBookingRequestRefused recorded, lists and status unchanged; otherwise the head seat is returned and moved to the booked list, nothing recorded, and the status is FULL exactly when no seat is left |
| Booking.Conference.CancelBooking | src/main/java/fr/soat/conference/domain/booking/Conference.java:65-71 | the seat leaves the booked list (first occurrence) and is appended to the available ones; FULL becomes OPEN; nothing is recorded |
| Booking.Conference.ApplySeatBooked | src/main/java/fr/soat/conference/domain/booking/Conference.java:73-86 | the seat is removed from the available list and appended to the booked one; FULL once none is left |
| Booking.Conference.ApplySeatBookingRequestRefused | src/main/java/fr/soat/conference/domain/booking/Conference.java:88-91 | records the event and changes no seat or status |
| Booking.Conference.ApplySeatReleased | src/main/java/fr/soat/conference/domain/booking/Conference.java:93-104 | the seat is removed from the booked list and appended to the available one; FULL becomes OPEN |
| Booking.BookEverySeat | src/main/java/fr/soat/conference/domain/booking/Conference.java:42-86 | with N places, N bookings return Seat(0) … Seat(N - 1), all distinct, the next returns nothing and is the only recorded change, and the conference ends FULL when N > 0 |
| Ordering.SagaKeepsOrderConsistent | src/main/java/fr/soat/conference/domain/order/Order.java:40-129 | along the saga's transitions an order keeps "reference only when PAID, seat only when SEAT_BOOKED or PAID" |
| Ordering.AssignAfterPaymentKeepsReference | src/main/java/fr/soat/conference/domain/order/Order.java:50-67 | the evolutions are unguarded: a seat assignment after payment gives a SEAT_BOOKED order still holding the payment reference |
| Ordering.OnlyRequestSetsConferenceAndAccount | src/main/java/fr/soat/conference/domain/order/Order.java:40-48 | no history without OrderRequested changes the conference name or the paying account |
| Ordering.OutcomeIgnoresStatus | src/main/java/fr/soat/conference/domain/order/Order.java:59-129 | apart from OrderRequested, an evolution's result does not depend on the status before it |
| Ordering.Order.constructor | src/main/java/fr/soat/conference/domain/order/Order.java:28-31 | a new order is NEW with every other field null and no changes |
| Ordering.Order.Apply | src/main/java/fr/soat/conference/domain/order/Order.java:40-129 | every evolution moves the fields by Evolve and records, keeping fields == replay of changes |
| Ordering.Order.RequestBooking | src/main/java/fr/soat/conference/domain/order/Order.java:33-48 | records OrderRequested and sets the conference and paying account; the status stays as it was |
| Ordering.Order.Assign | src/main/java/fr/soat/conference/domain/order/Order.java:50-67 | records OrderSeatBooked; SEAT_BOOKED with the seat; all other fields kept |
| Ordering.Order.FailSeatBooking | src/main/java/fr/soat/conference/domain/order/Order.java:69-87 | records OrderSeatBookingFailed; SEAT_BOOKING_FAILED with no seat |
| Ordering.Order.ConfirmPayment | src/main/java/fr/soat/conference/domain/order/Order.java:89-107 | records OrderPaid; PAID with the reference; the seat is kept |
| Ordering.Order.RefusePayment | src/main/java/fr/soat/conference/domain/order/Order.java:109-129 | records OrderPaymentRefused; PAYMENT_REFUSED with neither seat nor reference |
| Payment.RequestOutcome | src/main/java/fr/soat/conference/domain/payment/Account.java:34-53 | PaymentRequested always comes first; exactly one of refusal (balance below the amount: PaymentRefused recorded, balance kept) or acceptance (nothing more recorded, balance charged); a non-negative balance never becomes negative |
| Payment.Account.constructor | src/main/java/fr/soat/conference/domain/payment/Account.java:12-16 | a new account has balance 0 and no changes |
| Payment.Account.Credit | src/main/java/fr/soat/conference/domain/payment/Account.java:18-25 | the balance grows by exactly the amount; nothing is recorded |
| Payment.Account.ApplyAccountCredited | src/main/java/fr/soat/conference/domain/payment/Account.java:27-32 | adds the amount and records nothing |
| Payment.Account.RequestPayment | src/main/java/fr/soat/conference/domain/payment/Account.java:34-53 | changes and balance end as RequestOutcome prescribes |
| Payment.Account.ApplyPaymentRequested | src/main/java/fr/soat/conference/domain/payment/Account.java:55-58 | records the event; balance kept |
| Payment.Account.ApplyPaymentAccepted | src/main/java/fr/soat/conference/domain/payment/Account.java:60-65 | takes the amount off and records nothing |
| Payment.Account.ApplyPaymentRefused | src/main/java/fr/soat/conference/domain/payment/Account.java:67-70 | records the event; balance kept |
| BookingSaga.ConferenceBookingProcessManager.constructor | src/main/java/fr/soat/conference/domain/ConferenceBookingProcessManager.java:22-32 | the manager works over the three repositories it is given, each holding valid aggregates under their own ids |
| BookingSaga.ConferenceBookingProcessManager.AssignSeat | src/main/java/fr/soat/conference/domain/ConferenceBookingProcessManager.java:50-51 | the loaded order (the stored one, or a new one) is assigned the seat |
| BookingSaga.ConferenceBookingProcessManager.ChargeOrder | src/main/java/fr/soat/conference/domain/ConferenceBookingProcessManager.java:53-60 | fails exactly when the order has no account; otherwise the order's account is charged the conference's seat price per RequestOutcome and order and account are saved |
| BookingSaga.ConferenceBookingProcessManager.RequestPaymentFrom | src/main/java/fr/soat/conference/domain/ConferenceBookingProcessManager.java:54-60 | the payer's stored (or new) account moves per RequestOutcome and is saved; nothing else changes |
| BookingSaga.ConferenceBookingProcessManager.Compensate | src/main/java/fr/soat/conference/domain/ConferenceBookingProcessManager.java:91-99 | the order's seat is released on its conference (first occurrence out of the booked seats, appended to the available ones, FULL becomes OPEN, price and changes kept) before the order is refused; both are saved |
| BookingSaga.ConferenceBookingProcessManager.OnOrderRequested | src/main/java/fr/soat/conference/domain/ConferenceBookingProcessManager.java:34-43 | books a seat for the order on the named conference (refusal recorded when none is left, else the head seat moves to booked and the status becomes FULL when that was the last seat and otherwise stays as it was; the price is kept) and saves only that conference |
| BookingSaga.ConferenceBookingProcessManager.OnSeatBooked | src/main/java/fr/soat/conference/domain/ConferenceBookingProcessManager.java:45-61 | the order becomes SEAT_BOOKED with the event's seat; it fails exactly when the order has no account; otherwise that account is charged the conference's seat price for the order (RequestOutcome) and saved; conferences untouched |
| BookingSaga.ConferenceBookingProcessManager.OnSeatBookingRequestRefused | src/main/java/fr/soat/conference/domain/ConferenceBookingProcessManager.java:63-72 | the event's order becomes SEAT_BOOKING_FAILED without a seat and is the only thing saved |
| BookingSaga.ConferenceBookingProcessManager.OnPaymentAccepted | src/main/java/fr/soat/conference/domain/ConferenceBookingProcessManager.java:74-83 | the event's order becomes PAID with the event's reference and is the only thing saved |
| BookingSaga.ConferenceBookingProcessManager.OnPaymentRefused | src/main/java/fr/soat/conference/domain/ConferenceBookingProcessManager.java:85-100 | fails, changing nothing, exactly when the order has no conference or no seat; otherwise the seat the order held goes back to the tail of its conference's available seats (FULL becomes OPEN) and the order ends PAYMENT_REFUSED without seat or reference; the conference keeps its seat price |
| BookingSagaScenarios.NewSaga | src/main/java/fr/soat/conference/domain/ConferenceBookingProcessManager.java:22-32 | repositories holding a requested order, a one-seat conference and a credited account |
| BookingSagaScenarios.BookAndCharge | src/main/java/fr/soat/conference/domain/ConferenceBookingProcessManager.java:34-61 | OrderRequested then SeatBooked: the order holds Seat(0), the conference is FULL, the payer is charged per RequestOutcome |
| BookingSagaScenarios.RefusedPaymentReleasesSeat | src/main/java/fr/soat/conference/domain/ConferenceBookingProcessManager.java:85-100 | an unaffordable seat: the compensation passes, the FULL conference is OPEN again with the seat available, the order PAYMENT_REFUSED with no seat, the balance intact, and the payer's changes [PaymentRequested, PaymentRefused] |
| BookingSagaScenarios.AcceptedPaymentPaysOrder | src/main/java/fr/soat/conference/domain/ConferenceBookingProcessManager.java:74-83 | an affordable seat stays booked (FULL), the order is PAID with the reference, and the balance is charged |

## Left out

- Integer width: `Integer`/`int` fields are unbounded `int` here, so 32-bit wrap-around of balances and prices is not modelled.
- Amount validation: the source checks no sign, so negative amounts are accepted everywhere. `Banking.NegativeDepositOverdraws` shows a balance going negative. "The balance stays non-negative" therefore holds only per decision (withdraw, payment), not as an aggregate invariant.
- `AggregateRoot` is not part of this model. `recordChange` is modelled as "append to `changes`, add one to `version`". Optimistic concurrency, version checks and retries are not modelled.
- The event bus, Spring wiring (`@EventListener`, `@Service`, `@Autowired`) and logging are left out. Saga handlers are called directly. The scenarios hand each event to the next handler by hand.
- Because the conference and payment evolutions record only what the code records, `SeatBooked`, `ConferenceOpened`, `SeatReleased`, `AccountCredited` and `PaymentAccepted` never reach the pending changes. A real event bus would therefore never deliver the `SeatBooked` and `PaymentAccepted` events the saga handles. The model calls those handlers anyway.
- Repositories of the conference side (`OrderRepository`, `ConferenceRepository`, payment `AccountRepository`) are not part of this model. They are maps from id to aggregate object. `load` returns the stored object itself, or a new aggregate for an unknown id; `save` stores the object under its id. The source's repositories presumably rehydrate a new object from stored events. Aliasing between two loads of one id is therefore not what the source does.
- The banking `EventStore` is not part of this model. It is a map from id to event list, and `store` appends the given events to the id's list, as the event-sourcing design prescribes.
- BankingRepository.ReloadReproducesAccount: the full round trip (changes and version included) is promised only for an account with no stored events; the state alone is also promised when the account's changes start with `AccountOpened`. Hydration records every replayed event again (see `BankingRepository.SaveAfterLoadDuplicatesHistory`), so a loaded and re-saved account has its history appended twice. Its reloaded state is still right only because `AccountOpened` resets every field (`BankingRepository.ReplayingTwiceKeepsOpenedState`).
- BookingSaga.ConferenceBookingProcessManager.OnSeatBooked: a null account id becomes `Fail(MissingAccountId)` instead of a call to the payment account repository with a null id, which is not part of this model. On that path the source saves nothing. In the model, an order already held by the repository is the object that was assigned, so its SEAT_BOOKED assignment stays visible there although it was never saved. An order that was not held is not added.
- BookingSaga.ConferenceBookingProcessManager.OnPaymentRefused: a null conference name or seat becomes `Fail(MissingConferenceName)` / `Fail(MissingSeat)` and changes nothing. With a null seat, the source instead carries on. `cancelBooking(null)` applies `SeatReleased(null)`: removing null from the booked seats does nothing, null is appended to the available seats, and a FULL conference turns OPEN. Then `refusePayment()` still runs and both aggregates are saved. The model has no null seat, so it does not capture this. A null conference name reaches the conference repository, which is not part of this model.
- Identifier and reference generation (`UUID.randomUUID()`, `AccountId.next`, `PaymentReference.generate()`, `OrderId.next`) is replaced by parameters.
- `StatisticsUpdateManager` (a read-model projection), `TransferRefused.java` (it calls methods that do not exist in the banking `Account`) and `Conference.toString` are left out.
- The account tests expect `TransferSent`, `TransferReceived` and `TransferRefused`, and a refused transfer in which the receiver records nothing. The banking `Account` code emits `FundDebited`, `FundCredited`, `TransferRequestRefused`, `CreditRequestRefused` and `TransferRequestAborted`. The model and its scenarios follow the code. The balances the tests assert agree with it.
- `Booking.Conference.Valid` does not include the seat partition. The source allows opening twice and cancelling an unbooked seat, and both break it. The partition is proved per step by `Booking.BookingKeepsPartition` and `Booking.ReleasingBookedSeatKeepsPartition`, and its failure by `Booking.ReleasingUnbookedSeatBreaksPartition`.
- `Seat.java` is not part of this model. `Seat` is a datatype, so two seats are equal exactly when their numbers are. `List.remove(Object)` in `Conference.java` relies on `Seat.equals`, and the model assumes that value equality.
- `Conference.java` and the process manager read the seat of a `SeatBooked` event through `getSeat()`, but the event declares the field `bookedSeat`. The model reads that field.
