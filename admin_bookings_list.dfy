/** The admin bookings list: the search filter over the rows, the status
    badges, and the confirm and cancel actions of the details dialog. */
module AdminBookingsList {
  import opened Wrappers
  import opened Text
  import opened Lists
  import opened Responses
  import opened AdminDashboard

  /** The search test: the name ignoring case, or the reference, the phone
      number or the secret code as typed. */
  predicate MatchesSearch(b: BookingRow, term: string) {
    Contains(ToLower(b.customerName), ToLower(term))
    || Contains(b.bookingReference, term)
    || Contains(b.customerPhone, term)
    || Contains(b.secretCode, term)
  }

  function SearchFor(term: string): BookingRow -> bool {
    (b: BookingRow) => MatchesSearch(b, term)
  }

  /** `filteredBookings`: the rows that match, in their order. */
  function FilteredBookings(rows: seq<BookingRow>, term: string): (r: seq<BookingRow>)
    ensures IsSubsequence(r, rows)
    ensures forall k :: 0 <= k < |r| ==> MatchesSearch(r[k], term)
    ensures forall k :: 0 <= k < |rows| && MatchesSearch(rows[k], term) ==> rows[k] in r
    ensures |r| == Count(rows, SearchFor(term))
  {
    FilterMembers(rows, SearchFor(term));
    FilterLength(rows, SearchFor(term));
    Filter(rows, SearchFor(term))
  }

  /** Every string contains the empty string. */
  lemma ContainsEmpty(s: string)
    ensures Contains(s, "")
  {
    ContainsAt(s, "", 0);
  }

  /** An empty search keeps every booking. */
  lemma EmptySearchKeepsAll(rows: seq<BookingRow>)
    ensures FilteredBookings(rows, "") == rows
  {
    forall k | 0 <= k < |rows| ensures SearchFor("")(rows[k]) {
      ContainsEmpty(rows[k].bookingReference);
    }
    FilterAll(rows, SearchFor(""));
  }

  /** The name test ignores case: a row found under one spelling of the
      term is found under its lower-case spelling too. */
  lemma NameSearchIgnoresCase(b: BookingRow, term: string)
    requires Contains(ToLower(b.customerName), ToLower(term))
    ensures MatchesSearch(b, ToLower(term))
  {
    ToLowerIdempotent(term);
  }

  lemma ToLowerIdempotent(s: string)
    ensures ToLower(ToLower(s)) == ToLower(s)
  {
    var l := ToLower(s);
    forall k | 0 <= k < |s| ensures ToLower(l)[k] == l[k] {
      assert !IsAsciiUpper(l[k]);
    }
  }

  /** The colour and text of a status badge. */
  datatype Colour = Green | Yellow | Red | Grey
  datatype Badge = Badge(colour: Colour, text: string)

  /** `getStatusBadge`: the three known statuses get fixed labels; any other
      status is shown as it is, in grey. */
  function StatusBadge(status: string): (r: Badge)
    ensures status == "confirmed" ==> r == Badge(Green, "مؤكد")
    ensures status == "pending" ==> r == Badge(Yellow, "قيد الانتظار")
    ensures status == "cancelled" ==> r == Badge(Red, "ملغي")
    ensures status != "confirmed" && status != "pending" && status != "cancelled" ==> r == Badge(Grey, status)
  {
    if status == "confirmed" then Badge(Green, "مؤكد")
    else if status == "pending" then Badge(Yellow, "قيد الانتظار")
    else if status == "cancelled" then Badge(Red, "ملغي")
    else Badge(Grey, status)
  }

  /** The dialog offers "confirm" unless the booking is confirmed, and
      "cancel" unless it is cancelled. */
  predicate ConfirmOffered(b: BookingRow) { b.status != "confirmed" }
  predicate CancelOffered(b: BookingRow) { b.status != "cancelled" }

  /** Every booking offers at least one action, and a pending one (or one
      of any other status) offers both. */
  lemma ActionsOffered(b: BookingRow)
    ensures ConfirmOffered(b) || CancelOffered(b)
    ensures b.status != "confirmed" && b.status != "cancelled" ==> ConfirmOffered(b) && CancelOffered(b)
  {
    assert "confirmed"[1] != "cancelled"[1];
  }

  /** The PUT a status change sends. */
  datatype StatusRequest = StatusRequest(bookingId: nat, status: string)

  class BookingsListView {
    var searchTerm: string
    var selectedBooking: Option<BookingRow>
    var isDialogOpen: bool
    var isActionLoading: bool
    var actionError: Option<string>

    constructor ()
      ensures searchTerm == "" && selectedBooking == None && !isDialogOpen
      ensures !isActionLoading && actionError == None
    {
      searchTerm := "";
      selectedBooking := None;
      isDialogOpen := false;
      isActionLoading := false;
      actionError := None;
    }

    method SetSearchTerm(text: string)
      modifies this
      ensures searchTerm == text
      ensures selectedBooking == old(selectedBooking) && isDialogOpen == old(isDialogOpen)
      ensures actionError == old(actionError)
    {
      searchTerm := text;
    }

    /** `handleViewBooking`: the dialog opens on the chosen row. */
    method HandleViewBooking(b: BookingRow)
      modifies this
      ensures selectedBooking == Some(b) && isDialogOpen
      ensures searchTerm == old(searchTerm) && actionError == old(actionError)
    {
      selectedBooking := Some(b);
      isDialogOpen := true;
    }

    /** `handleStatusChange`: the new status is sent for the booking
        (`request`). An OK answer closes the dialog and asks the dashboard
        to refetch (`refresh`); a failure shows its message and keeps the
        dialog open. The shown rows are not changed here. */
    method HandleStatusChange(bookingId: nat, newStatus: string, answer: PostAnswer<()>)
      returns (request: StatusRequest, refresh: bool)
      modifies this
      ensures request == StatusRequest(bookingId, newStatus)
      ensures refresh <==> answer.Answered?
      ensures answer.Answered? ==> !isDialogOpen && actionError == None
      ensures !answer.Answered? ==>
                isDialogOpen == old(isDialogOpen)
                && actionError == Some(FailureText(answer, "Failed to update booking status"))
      ensures searchTerm == old(searchTerm) && selectedBooking == old(selectedBooking) && !isActionLoading
    {
      request := StatusRequest(bookingId, newStatus);
      isActionLoading := true;
      actionError := None;
      refresh := false;
      if answer.Answered? {
        isDialogOpen := false;
        refresh := true;
      } else {
        actionError := Some(FailureText(answer, "Failed to update booking status"));
      }
      isActionLoading := false;
    }
  }
}
