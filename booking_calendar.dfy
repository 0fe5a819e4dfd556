/** The booking calendar: picking a free day opens the booking form, the
    form is posted to the booking route, and the one-time code is posted
    to the verification route. The three dialogs open and close as these
    steps succeed; a failing step only shows its error. */
module BookingCalendar {
  import opened Wrappers
  import opened Text
  import opened Calendar
  import opened AvailabilityCalendar
  import opened Responses

  /** The booking form. */
  datatype FormData = FormData(customerName: string, customerPhone: string,
                               customerEmail: string, bookingDate: string)

  const EmptyForm := FormData("", "", "", "")

  /** The inputs of the booking form, by their `name` attribute. */
  datatype FormField = CustomerName | CustomerPhone | CustomerEmail

  /** `{...prev, [name]: value}` on the booking form. */
  function WithField(form: FormData, field: FormField, value: string): (r: FormData)
    ensures field == CustomerName ==> r == form.(customerName := value)
    ensures field == CustomerPhone ==> r == form.(customerPhone := value)
    ensures field == CustomerEmail ==> r == form.(customerEmail := value)
  {
    match field
    case CustomerName => form.(customerName := value)
    case CustomerPhone => form.(customerPhone := value)
    case CustomerEmail => form.(customerEmail := value)
  }

  /** The field just written reads back the value, and setting the same
      field twice keeps only the second value. */
  lemma WithFieldReadsBack(form: FormData, field: FormField, a: string, b: string)
    ensures FieldOf(WithField(form, field, a), field) == a
    ensures WithField(WithField(form, field, a), field, b) == WithField(form, field, b)
  {
  }

  /** Setting different fields commutes. */
  lemma WithFieldCommutes(form: FormData, f: FormField, g: FormField, a: string, b: string)
    requires f != g
    ensures WithField(WithField(form, f, a), g, b) == WithField(WithField(form, g, b), f, a)
  {
  }

  function FieldOf(form: FormData, field: FormField): string {
    match field
    case CustomerName => form.customerName
    case CustomerPhone => form.customerPhone
    case CustomerEmail => form.customerEmail
  }

  /** The verification form. */
  datatype VerificationData = VerificationData(bookingReference: string, otpCode: string)

  /** The OK body of the booking route. */
  datatype BookingCreated = BookingCreated(bookingReference: string, otpCode: Option<string>)

  /** The note that shows the one-time code when the route returned it
      (it does when the e-mail could not be sent). */
  function OtpNote(otpCode: Option<string>): (r: Option<string>)
    ensures r.Some? <==> otpCode.Some? && otpCode.value != ""
    ensures r.Some? ==> Contains(r.value, otpCode.value)
  {
    if otpCode.Some? && otpCode.value != "" then
      var prefix := "ملاحظة: رمز التحقق للاختبار هو: ";
      ContainsMiddle(prefix, otpCode.value, "");
      assert prefix + otpCode.value + "" == prefix + otpCode.value;
      Some(prefix + otpCode.value)
    else None
  }

  /** The body posted to the verification route. */
  datatype VerifyRequest = VerifyRequest(bookingReference: string, otpCode: string, email: string,
                                         customerName: string, bookingDate: string)

  class BookingCalendarView {
    var date: Day
    var availableDates: seq<DateEntry>
    var isLoading: bool
    var isLoadingCalendar: bool
    var calendarError: Option<string>
    var bookingDialogOpen: bool
    var verificationDialogOpen: bool
    var successDialogOpen: bool
    var errorMessage: Option<string>
    var form: FormData
    var verification: VerificationData
    var secretCode: Option<string>

    /** Mounted on `today`: empty forms, no dialog open. */
    constructor (today: Day)
      ensures date == today && availableDates == [] && form == EmptyForm
      ensures verification == VerificationData("", "") && secretCode == None
      ensures !bookingDialogOpen && !verificationDialogOpen && !successDialogOpen
      ensures !isLoading && !isLoadingCalendar && calendarError == None && errorMessage == None
    {
      date := today;
      availableDates := [];
      isLoading := false;
      isLoadingCalendar := false;
      calendarError := None;
      bookingDialogOpen := false;
      verificationDialogOpen := false;
      successDialogOpen := false;
      errorMessage := None;
      form := EmptyForm;
      verification := VerificationData("", "");
      secretCode := None;
    }

    /** The effect that runs when `date` changes: it asks for the month of
        `date` and keeps the received array, or an empty list (every day
        free) after an error or a body without an array. */
    method FetchAvailableDates(outcome: FetchOutcome) returns (query: MonthRange)
      modifies this
      ensures query == MonthOf(date) && date == old(date)
      ensures availableDates == FetchedDates(outcome) && calendarError == FetchError(outcome)
      ensures !isLoadingCalendar
      ensures form == old(form) && verification == old(verification) && secretCode == old(secretCode)
      ensures bookingDialogOpen == old(bookingDialogOpen) && verificationDialogOpen == old(verificationDialogOpen)
      ensures successDialogOpen == old(successDialogOpen) && errorMessage == old(errorMessage)
      ensures isLoading == old(isLoading)
    {
      query := MonthOf(date);
      isLoadingCalendar := true;
      calendarError := None;
      match outcome {
        case NetworkError(message) =>
          calendarError := Some(message);
          availableDates := [];
        case HttpError(status) =>
          calendarError := Some("Server responded with status: " + Decimal(status));
          availableDates := [];
        case Received(dates) =>
          if dates.Some? {
            availableDates := dates.value;
          } else {
            availableDates := [];
          }
      }
      isLoadingCalendar := false;
    }

    /** `handleDateSelect`: the clicked day becomes the calendar's date; a
        day the list does not mark unavailable also goes into the form and
        opens the booking dialog. */
    method HandleDateSelect(selected: Option<Day>)
      modifies this
      ensures selected.None? ==> date == old(date) && form == old(form) && bookingDialogOpen == old(bookingDialogOpen)
      ensures selected.Some? ==> date == selected.value
      ensures selected.Some? && !IsDateUnavailable(availableDates, selected.value) ==>
                form == old(form).(bookingDate := IsoOfDay(selected.value)) && bookingDialogOpen
      ensures selected.Some? && IsDateUnavailable(availableDates, selected.value) ==>
                form == old(form) && bookingDialogOpen == old(bookingDialogOpen)
      ensures availableDates == old(availableDates) && verification == old(verification)
      ensures verificationDialogOpen == old(verificationDialogOpen) && successDialogOpen == old(successDialogOpen)
      ensures errorMessage == old(errorMessage) && secretCode == old(secretCode) && isLoading == old(isLoading)
    {
      if selected.None? {
        return;
      }
      var day := selected.value;
      date := day;
      var isAvailable := match EntryIndex(availableDates, day)
                         case Some(k) => availableDates[k].available
                         case None => true;
      if isAvailable {
        form := form.(bookingDate := IsoOfDay(day));
        bookingDialogOpen := true;
      }
    }

    /** `handleInputChange` on one of the booking form's inputs. */
    method HandleInputChange(field: FormField, value: string)
      modifies this
      ensures form == WithField(old(form), field, value)
      ensures date == old(date) && availableDates == old(availableDates) && verification == old(verification)
      ensures bookingDialogOpen == old(bookingDialogOpen) && verificationDialogOpen == old(verificationDialogOpen)
      ensures successDialogOpen == old(successDialogOpen) && errorMessage == old(errorMessage)
    {
      form := WithField(form, field, value);
    }

    /** `handleVerificationInputChange` on the code input. */
    method HandleOtpInput(value: string)
      modifies this
      ensures verification == old(verification).(otpCode := value)
      ensures form == old(form) && date == old(date) && errorMessage == old(errorMessage)
      ensures bookingDialogOpen == old(bookingDialogOpen) && verificationDialogOpen == old(verificationDialogOpen)
    {
      verification := verification.(otpCode := value);
    }

    /** `handleBookingSubmit`: the form is posted (`posted`). An OK answer
        keeps the booking reference for verification and moves from the
        booking dialog to the verification dialog; a failure shows its
        message and leaves the dialogs as they were. */
    method HandleBookingSubmit(answer: PostAnswer<BookingCreated>) returns (posted: FormData)
      modifies this
      ensures posted == old(form) && form == old(form)
      ensures answer.Answered? ==>
                verification == old(verification).(bookingReference := answer.body.bookingReference)
                && !bookingDialogOpen && verificationDialogOpen
                && errorMessage == OtpNote(answer.body.otpCode)
      ensures !answer.Answered? ==>
                verification == old(verification)
                && bookingDialogOpen == old(bookingDialogOpen) && verificationDialogOpen == old(verificationDialogOpen)
                && errorMessage == Some(FailureText(answer, "Failed to create booking"))
      ensures successDialogOpen == old(successDialogOpen) && secretCode == old(secretCode)
      ensures date == old(date) && availableDates == old(availableDates) && !isLoading
    {
      posted := form;
      isLoading := true;
      errorMessage := None;
      match answer {
        case Answered(created) =>
          verification := verification.(bookingReference := created.bookingReference);
          errorMessage := OtpNote(created.otpCode);
          bookingDialogOpen := false;
          verificationDialogOpen := true;
        case Refused(_) =>
          errorMessage := Some(FailureText(answer, "Failed to create booking"));
        case Thrown(message) =>
          errorMessage := Some(message);
      }
      isLoading := false;
    }

    /** `handleVerificationSubmit`: the code is posted with the contact
        details (`posted`). An OK answer stores the secret code and moves
        from the verification dialog to the success dialog; the calendar's
        date ends one day later, because the `Date` object both `setDate`
        calls receive is the one advanced by a day. A failure shows its
        message and leaves the dialogs as they were. */
    method HandleVerificationSubmit(answer: PostAnswer<string>) returns (posted: VerifyRequest)
      modifies this
      ensures posted == VerifyRequest(old(verification).bookingReference, old(verification).otpCode,
                                      old(form).customerEmail, old(form).customerName, old(form).bookingDate)
      ensures answer.Answered? ==>
                secretCode == Some(answer.body) && !verificationDialogOpen && successDialogOpen
                && date == old(date) + 1 && errorMessage == None
      ensures !answer.Answered? ==>
                secretCode == old(secretCode) && date == old(date)
                && verificationDialogOpen == old(verificationDialogOpen) && successDialogOpen == old(successDialogOpen)
                && errorMessage == Some(FailureText(answer, "Failed to verify booking"))
      ensures bookingDialogOpen == old(bookingDialogOpen) && form == old(form) && verification == old(verification)
      ensures availableDates == old(availableDates) && !isLoading
    {
      posted := VerifyRequest(verification.bookingReference, verification.otpCode,
                              form.customerEmail, form.customerName, form.bookingDate);
      isLoading := true;
      errorMessage := None;
      match answer {
        case Answered(code) =>
          secretCode := Some(code);
          verificationDialogOpen := false;
          successDialogOpen := true;
          date := date + 1;
        case Refused(_) =>
          errorMessage := Some(FailureText(answer, "Failed to verify booking"));
        case Thrown(message) =>
          errorMessage := Some(message);
      }
      isLoading := false;
    }
  }
}
