/** The identifiers and value objects the conference aggregates share. */
module Ids {
  datatype ConferenceName = ConferenceName(name: string)
  datatype OrderId = OrderId(value: string)
  /** Identifies a payment account. */
  datatype AccountId = AccountId(value: string)
  datatype PaymentReference = PaymentReference(value: string)
  /** Seats are equal when their numbers are. */
  datatype Seat = Seat(number: int)
}
