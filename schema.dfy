/**
 * The rows the booking core reads and writes, and the failures of the store.
 * Identifiers travel as the strings the request carries (cookie and body
 * values) and are matched exactly.
 */
module Schema {

  /** A row of `bookings`: the transaction id, the user, the hotel and the two dates as stored. */
  datatype Booking = Booking(id: nat, uid: string, hid: string, checkin: string, checkout: string)

  /** Which of the store calls a request makes fail (the call throws). */
  datatype Faults = Faults(userQuery: bool, hotelQuery: bool, bookingsQuery: bool, insert: bool)

  /** No store call fails. */
  const NoFaults := Faults(false, false, false, false)

  /** The result of one awaited store call: its rows, or the error it throws. */
  datatype Fallible<+T> = Ok(value: T) | StoreError

  /** The text of every 500 reply, in `/book` and in `/hotels`. */
  const ServerFailureText := "An error occurred on the server. Try again later."
}
