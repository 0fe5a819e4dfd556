/** The values the two conversation engines exchange with the booking
    database and the mailer, and the record of a call to them. */
module BookingServices {
  import opened Calendar
  import BookingStore

  /** What `createBooking` returns. */
  datatype Created = Created(bookingId: nat, bookingReference: string, secretCode: string)

  /** The row `getBookingBySecretCode` returns: its `booking_date` as shown
      to the user and the day that date denotes. */
  datatype StoredBooking = StoredBooking(
    reference: string, bookingDate: string, day: Day, status: BookingStore.Status)

  datatype Email =
    | VerificationEmail(to: string, name: string, date: string, otpCode: string, reference: string)
    | ConfirmationEmail(to: string, name: string, date: string, reference: string, secretCode: string)

  /** One call to the database or the mailer, with its arguments. */
  datatype Call =
    | AvailabilityQuery(date: string)
    | BookingInsert(name: string, phone: string, date: string)
    | CodeInsert(bookingId: nat)
    | EmailSend(email: Email)
    | OtpCheck(reference: string, otpCode: string)
    | SecretLookup(secretCode: string)
    | ConfirmUpdate(bookingId: nat)
    | CancelUpdate(secretCode: string)
}
