/** The booking management card: a guest looks a booking up by its secret
    code and may cancel a confirmed one. */
module BookingManagement {
  import opened Wrappers
  import opened Text

  /** The booking as the lookup route returns it. */
  datatype BookingDetails = BookingDetails(reference: string, date: string, status: string,
                                           customerName: string, daysRemaining: int)

  const NotFoundText: string := "لم يتم العثور على حجز بهذا الرمز"
  const CancelFailedText: string := "فشل في إلغاء الحجز"

  /** What a request to the booking route came back with: an OK answer
      (for a lookup, the `booking` field, which may be null), a non-OK
      status, or an exception with its message. */
  datatype Answer<T> = Ok(body: T) | NotOk | Thrown(message: string)

  /** The cancel button (and the days line) are shown only for a confirmed
      booking. */
  predicate CancelButtonShown(booking: Option<BookingDetails>) {
    booking.Some? && booking.value.status == "confirmed"
  }

  /** The status as shown: confirmed and cancelled have labels; anything
      else reads as waiting. */
  function StatusLabel(status: string): (r: string)
    ensures status == "confirmed" ==> r == "مؤكد"
    ensures status == "cancelled" ==> r == "ملغي"
    ensures status != "confirmed" && status != "cancelled" ==> r == "في الانتظار"
  {
    if status == "confirmed" then "مؤكد"
    else if status == "cancelled" then "ملغي"
    else "في الانتظار"
  }

  /** The days line under a confirmed booking: the days left while there
      are some, "today" otherwise. Other bookings show no such line. */
  function DaysLabel(booking: BookingDetails): (r: Option<string>)
    ensures r.Some? <==> booking.status == "confirmed"
    ensures r.Some? && booking.daysRemaining > 0 ==>
              r.value == "متبقي " + Decimal(booking.daysRemaining) + " يوم على موعد حجزك"
    ensures r.Some? && booking.daysRemaining <= 0 ==> r.value == "حجزك هو اليوم!"
  {
    if booking.status != "confirmed" then None
    else if booking.daysRemaining > 0 then
      Some("متبقي " + Decimal(booking.daysRemaining) + " يوم على موعد حجزك")
    else Some("حجزك هو اليوم!")
  }

  /** A cancelled booking offers no cancel button any more. */
  lemma {:induction false} CancelledOffersNoCancel(booking: BookingDetails)
    ensures !CancelButtonShown(Some(booking.(status := "cancelled")))
    ensures DaysLabel(booking.(status := "cancelled")).None?
  {
    assert "cancelled" != "confirmed" by {
      assert "cancelled"[1] != "confirmed"[1];
    }
  }

  class BookingManagementView {
    var secretCode: string
    var isLoading: bool
    var errorMessage: Option<string>
    var booking: Option<BookingDetails>
    var confirmDialogOpen: bool

    constructor ()
      ensures secretCode == "" && !isLoading && errorMessage == None && booking == None && !confirmDialogOpen
    {
      secretCode := "";
      isLoading := false;
      errorMessage := None;
      booking := None;
      confirmDialogOpen := false;
    }

    method SetSecretCode(text: string)
      modifies this
      ensures secretCode == text
      ensures isLoading == old(isLoading) && errorMessage == old(errorMessage)
      ensures booking == old(booking) && confirmDialogOpen == old(confirmDialogOpen)
    {
      secretCode := text;
    }

    /** `handleSearch`: a blank code does nothing and sends nothing.
        Otherwise the code as typed is looked up (`looked`); an OK answer
        stores the booking it carries, and a failure clears the booking and
        shows its message. */
    method HandleSearch(answer: Answer<Option<BookingDetails>>) returns (looked: Option<string>)
      modifies this
      ensures Trim(old(secretCode)) == "" ==>
                looked == None && isLoading == old(isLoading) && errorMessage == old(errorMessage)
                && booking == old(booking)
      ensures Trim(old(secretCode)) != "" ==> looked == Some(old(secretCode)) && !isLoading
      ensures Trim(old(secretCode)) != "" && answer.Ok? ==> booking == answer.body && errorMessage == None
      ensures Trim(old(secretCode)) != "" && answer.NotOk? ==> booking == None && errorMessage == Some(NotFoundText)
      ensures Trim(old(secretCode)) != "" && answer.Thrown? ==> booking == None && errorMessage == Some(answer.message)
      ensures secretCode == old(secretCode) && confirmDialogOpen == old(confirmDialogOpen)
    {
      looked := None;
      if Trim(secretCode) == "" {
        return;
      }
      looked := Some(secretCode);
      isLoading := true;
      errorMessage := None;
      match answer {
        case Ok(found) =>
          booking := found;
        case NotOk =>
          errorMessage := Some(NotFoundText);
          booking := None;
        case Thrown(message) =>
          errorMessage := Some(message);
          booking := None;
      }
      isLoading := false;
    }

    /** The cancel button opens the confirmation dialog; it is only there
        for a confirmed booking. */
    method ClickCancel()
      modifies this
      ensures confirmDialogOpen == (old(confirmDialogOpen) || CancelButtonShown(booking))
      ensures secretCode == old(secretCode) && isLoading == old(isLoading)
      ensures errorMessage == old(errorMessage) && booking == old(booking)
    {
      if CancelButtonShown(booking) {
        confirmDialogOpen := true;
      }
    }

    /** `handleCancelBooking`: the code currently typed is sent for
        deletion (`deleted`). An OK answer changes only the shown booking's
        status, to cancelled, and closes the dialog; a failure shows its
        message and keeps the dialog open. The earlier error is not
        cleared first. */
    method HandleCancelBooking(answer: Answer<()>) returns (deleted: string)
      modifies this
      ensures deleted == old(secretCode) && secretCode == old(secretCode) && !isLoading
      ensures answer.Ok? ==>
                !confirmDialogOpen && errorMessage == old(errorMessage)
                && (old(booking).Some? ==> booking == Some(old(booking).value.(status := "cancelled")))
                && (old(booking).None? ==> booking == None)
      ensures answer.NotOk? ==>
                booking == old(booking) && confirmDialogOpen == old(confirmDialogOpen)
                && errorMessage == Some(CancelFailedText)
      ensures answer.Thrown? ==>
                booking == old(booking) && confirmDialogOpen == old(confirmDialogOpen)
                && errorMessage == Some(answer.message)
    {
      deleted := secretCode;
      isLoading := true;
      match answer {
        case Ok(_) =>
          if booking.Some? {
            booking := Some(booking.value.(status := "cancelled"));
          }
          confirmDialogOpen := false;
        case NotOk =>
          errorMessage := Some(CancelFailedText);
        case Thrown(message) =>
          errorMessage := Some(message);
      }
      isLoading := false;
    }
  }
}
