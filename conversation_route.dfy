/** The second conversation engine, the `POST /api/process-conversation`
    route: one `{stage, data}` record per user in a map, advanced by a
    chain of guarded early returns over the user's message. Dates given as
    `d/m/yyyy` are rewritten to `yyyy-mm-dd`, customer fields accumulate
    across messages, several stages are terminal, and a reset keyword is
    heard only where no earlier branch has answered. The route's database
    helpers are parameters (see `RouteServices`), so a step is a function of
    the record, the message and their answers. */
module ConversationRoute {
  import opened Wrappers
  import opened Text
  import opened Patterns
  import opened BookingServices

  datatype Stage =
    | Initial
    | CollectingDate
    | CollectingInfo
    | DateUnavailable
    | VerifyingOtp
    | BookingError
    | BookingConfirmed
    | VerificationError
    | CheckingBooking
    | BookingFound
    | BookingNotFound
    | CheckingError
    | CancellingBooking
    | ConfirmCancellation
    | CancellationConfirmed
    | CancellationError
    | CancellationAborted

  /** The `data` record; an absent field is `undefined`. */
  datatype Data = Data(
    bookingDate: Option<string>,
    email: Option<string>,
    phone: Option<string>,
    name: Option<string>,
    bookingId: Option<nat>,
    bookingReference: Option<string>,
    secretCode: Option<string>,
    otpCode: Option<string>,
    booking: Option<StoredBooking>)

  const EmptyData: Data := Data(None, None, None, None, None, None, None, None, None)

  datatype State = State(stage: Stage, data: Data)

  /** `{ stage: "initial", data: {} }`. */
  const FreshState: State := State(Initial, EmptyData)

  /** JavaScript truthiness of a string field: set and not empty. */
  predicate Present(v: Option<string>) {
    v.Some? && v.value != ""
  }

  /** The fields a stage reads, which the step into it has always set. */
  predicate WellFormed(st: State) {
    (st.stage == CollectingInfo ==> st.data.bookingDate.Some? && IsIsoDateString(st.data.bookingDate.value))
    && (st.stage == VerifyingOtp ==>
       st.data.bookingId.Some? && st.data.otpCode.Some? && st.data.email.Some? && st.data.name.Some?
       && st.data.bookingDate.Some? && st.data.bookingReference.Some? && st.data.secretCode.Some?)
    && (st.stage == ConfirmCancellation ==> st.data.secretCode.Some?)
  }

  /** The route's own database helpers, as the answers they give. `Failure`
      is an exception. The availability helper catches its errors and
      answers false; `confirmBooking` answers nothing. */
  datatype RouteServices = RouteServices(
    checkDateAvailability: string -> bool,
    createBooking: (string, string, string) -> Result<Created>,
    createVerificationCode: nat -> Result<string>,
    confirmBooking: nat -> Result<()>,
    getBookingBySecretCode: string -> Result<Option<StoredBooking>>,
    cancelBooking: string -> Result<bool>)

  // -----------------------------------------------------------------------
  // Message tests, on the lower-cased input

  predicate MentionsCancel(lower: string) {
    Contains(lower, "إلغاء") || Contains(lower, "cancel")
  }

  predicate MentionsBooking(lower: string) {
    (Contains(lower, "حجز") || Contains(lower, "book")) && !MentionsCancel(lower)
  }

  predicate MentionsInquiry(lower: string) {
    Contains(lower, "استعلام") || Contains(lower, "حجزي") || Contains(lower, "my booking")
  }

  predicate Affirms(lower: string) {
    Contains(lower, "نعم") || Contains(lower, "yes") || Contains(lower, "تأكيد") || Contains(lower, "confirm")
  }

  predicate Declines(lower: string) {
    Contains(lower, "لا") || Contains(lower, "no") || Contains(lower, "إلغاء") || Contains(lower, "cancel")
  }

  predicate AsksReset(lower: string) {
    Contains(lower, "بداية") || Contains(lower, "start over") || Contains(lower, "restart")
  }

  // -----------------------------------------------------------------------
  // The date of a `collecting_date` message

  /** The first `\d{4}-\d{2}-\d{2}` match, or failing that the first
      `\d{1,2}/\d{1,2}/\d{4}` match written year first with month and day
      padded to two digits. */
  function NormalisedDate(userInput: string): (r: Option<string>)
    ensures r.None? <==> Match(IsoDate, userInput).None? && Match(SlashDate, userInput).None?
    ensures Match(IsoDate, userInput).Some? ==> r == Match(IsoDate, userInput)
    ensures Match(IsoDate, userInput).None? && Match(SlashDate, userInput).Some? ==>
              var m := Match(SlashDate, userInput).value;
              var parts := Split(m, '/');
              && |parts| == 3
              && m == parts[0] + "/" + parts[1] + "/" + parts[2]
              && 1 <= |parts[0]| <= 2 && AllDigits(parts[0])
              && 1 <= |parts[1]| <= 2 && AllDigits(parts[1])
              && |parts[2]| == 4 && AllDigits(parts[2])
              && r == Some(parts[2] + "-" + PadStart(parts[1], 2, '0') + "-" + PadStart(parts[0], 2, '0'))
    ensures r.Some? ==> IsIsoDateString(r.value)
  {
    DateMatchFacts(userInput);
    var dateMatch := if Match(IsoDate, userInput).Some? then Match(IsoDate, userInput) else Match(SlashDate, userInput);
    match dateMatch
    case None => None
    case Some(bookingDate) =>
      if Contains(bookingDate, "/") then Some(SlashToIso(bookingDate)) else Some(bookingDate)
  }

  /** What the two date matches look like. */
  lemma DateMatchFacts(userInput: string)
    ensures Match(IsoDate, userInput).Some? ==>
              IsIsoDateString(Match(IsoDate, userInput).value) && !Contains(Match(IsoDate, userInput).value, "/")
    ensures Match(SlashDate, userInput).Some? ==>
              var m := Match(SlashDate, userInput).value;
              var parts := Split(m, '/');
              && Contains(m, "/")
              && |parts| == 3
              && m == parts[0] + "/" + parts[1] + "/" + parts[2]
              && 1 <= |parts[0]| <= 2 && AllDigits(parts[0])
              && 1 <= |parts[1]| <= 2 && AllDigits(parts[1])
              && |parts[2]| == 4 && AllDigits(parts[2])
              && SlashToIso(m) == parts[2] + "-" + PadStart(parts[1], 2, '0') + "-" + PadStart(parts[0], 2, '0')
              && IsIsoDateString(SlashToIso(m))
  {
    if Match(IsoDate, userInput).Some? {
      IsoMatchShape(userInput);
      IsoHasNoSlash(Match(IsoDate, userInput).value);
      ContainsChar(Match(IsoDate, userInput).value, '/');
    }
    if Match(SlashDate, userInput).Some? {
      var m := Match(SlashDate, userInput).value;
      var j: nat :| j <= |userInput| && MatchAt(SlashDate, userInput, j).Some?
                    && m == userInput[j..MatchAt(SlashDate, userInput, j).value];
      SlashMatchSplits(userInput, j);
      SlashMatchHasSlash(userInput, j);
      ContainsChar(m, '/');
      SlashMatchNormalises(userInput, j);
    }
  }

  // -----------------------------------------------------------------------
  // One step of the conversation

  /** The record after a `collecting_info` message: each of e-mail, phone
      and (trimmed) name that the message holds replaces the stored one. */
  function Collected(data: Data, userInput: string): Data {
    var emailMatch := Match(Email, userInput);
    var phoneMatch := Match(DigitRun(10), userInput);
    var nameMatch := Match(NameRun, userInput);
    data.(email := if emailMatch.Some? then emailMatch else data.email,
          phone := if phoneMatch.Some? then phoneMatch else data.phone,
          name := if nameMatch.Some? then Some(Trim(nameMatch.value)) else data.name)
  }

  /** The four fields a booking needs are all present. */
  predicate Complete(data: Data) {
    Present(data.email) && Present(data.phone) && Present(data.name) && Present(data.bookingDate)
  }

  /** No call among `calls` inserts a booking. */
  predicate NoBookingInsert(calls: seq<Call>) {
    forall k :: 0 <= k < |calls| ==> !calls[k].BookingInsert?
  }

  /** The new record and the calls one message causes. */
  datatype Step = Step(after: State, calls: seq<Call>)

  /** `collecting_date`: a date found is stored and the stage moves on. */
  function DateStep(st: State, userInput: string): (r: Step)
    ensures WellFormed(st) ==> WellFormed(r.after)
    ensures r.calls == []
  {
    match NormalisedDate(userInput)
    case None => Step(st, [])
    case Some(date) => Step(State(CollectingInfo, st.data.(bookingDate := Some(date))), [])
  }

  /** `collecting_info`: collect the fields, then book once all are there. */
  function InfoStep(st: State, userInput: string, services: RouteServices): (r: Step)
    ensures WellFormed(st) && st.stage == CollectingInfo ==> WellFormed(r.after)
    ensures forall k :: 0 <= k < |r.calls| && r.calls[k].BookingInsert? ==>
              Some(r.calls[k].date) == st.data.bookingDate
  {
    var data := Collected(st.data, userInput);
    if Complete(data) then BookingAttempt(data, services) else Step(State(CollectingInfo, data), [])
  }

  /** The `try` block of `collecting_info` for a complete record. */
  function BookingAttempt(data: Data, services: RouteServices): (r: Step)
    requires Complete(data)
    ensures WellFormed(r.after)
    ensures r.calls != [] && r.calls[0] == AvailabilityQuery(data.bookingDate.value)
    ensures forall k :: 0 <= k < |r.calls| && r.calls[k].BookingInsert? ==> r.calls[k].date == data.bookingDate.value
    ensures r.after.data.email == data.email && r.after.data.phone == data.phone
    ensures r.after.data.name == data.name && r.after.data.bookingDate == data.bookingDate
  {
    var date := data.bookingDate.value;
    var query := AvailabilityQuery(date);
    if !services.checkDateAvailability(date) then Step(State(DateUnavailable, data), [query])
    else
      var insert := BookingInsert(data.name.value, data.phone.value, date);
      match services.createBooking(data.name.value, data.phone.value, date)
      case Failure => Step(State(BookingError, data), [query, insert])
      case Success(created) =>
        match services.createVerificationCode(created.bookingId)
        case Failure => Step(State(BookingError, data), [query, insert, CodeInsert(created.bookingId)])
        case Success(otpCode) =>
          var stored := data.(bookingId := Some(created.bookingId),
                              bookingReference := Some(created.bookingReference),
                              secretCode := Some(created.secretCode),
                              otpCode := Some(otpCode));
          var email := VerificationEmail(data.email.value, data.name.value, date, otpCode, created.bookingReference);
          Step(State(VerifyingOtp, stored), [query, insert, CodeInsert(created.bookingId), EmailSend(email)])
  }

  /** `verifying_otp`: only the stored code, exactly, confirms. */
  function OtpAttempt(st: State, userInput: string, services: RouteServices): (r: Step)
    requires st.stage == VerifyingOtp && WellFormed(st)
    ensures WellFormed(r.after)
    ensures NoBookingInsert(r.calls)
  {
    var otpMatch := Match(Digits(4), userInput);
    if otpMatch.Some? && otpMatch == st.data.otpCode then
      var d := st.data;
      var update := ConfirmUpdate(d.bookingId.value);
      match services.confirmBooking(d.bookingId.value)
      case Failure => Step(st.(stage := VerificationError), [update])
      case Success(_) =>
        var email := ConfirmationEmail(d.email.value, d.name.value, d.bookingDate.value,
                                       d.bookingReference.value, d.secretCode.value);
        Step(st.(stage := BookingConfirmed), [update, EmailSend(email)])
    else Step(st, [])
  }

  /** `checking_booking` and `cancelling_booking`: look the first six-digit
      run up; `found` is the record a found booking gives. */
  function SecretCodeStep(st: State, userInput: string, services: RouteServices, cancelling: bool): (r: Step)
    ensures WellFormed(st) ==> WellFormed(r.after)
    ensures NoBookingInsert(r.calls)
  {
    match Match(Digits(6), userInput)
    case None => Step(st, [])
    case Some(code) =>
      match services.getBookingBySecretCode(code)
      case Failure => Step(st.(stage := CheckingError), [Call.SecretLookup(code)])
      case Success(None) => Step(st.(stage := BookingNotFound), [Call.SecretLookup(code)])
      case Success(Some(b)) =>
        var after := if cancelling then State(ConfirmCancellation, st.data.(booking := Some(b), secretCode := Some(code)))
                     else State(BookingFound, st.data.(booking := Some(b)));
        Step(after, [Call.SecretLookup(code)])
  }

  /** `confirm_cancellation`: a yes-word first, then a no-word. */
  function CancellationAnswer(st: State, lower: string, services: RouteServices): (r: Step)
    requires st.stage == ConfirmCancellation && WellFormed(st)
    ensures WellFormed(r.after)
    ensures NoBookingInsert(r.calls)
  {
    if Affirms(lower) then
      var secretCode := st.data.secretCode.value;
      match services.cancelBooking(secretCode)
      case Failure => Step(st.(stage := CancellationError), [CancelUpdate(secretCode)])
      case Success(_) => Step(st.(stage := CancellationConfirmed), [CancelUpdate(secretCode)])
    else if Declines(lower) then Step(st.(stage := CancellationAborted), [])
    else Step(st, [])
  }

  /** `processConversation` on the user's record: the first branch whose
      test holds decides the step. */
  function Process(st: State, userInput: string, services: RouteServices): (r: Step)
    requires WellFormed(st)
    ensures WellFormed(r.after)
  {
    var lower := ToLower(userInput);
    if MentionsBooking(lower) && st.stage == Initial then Step(st.(stage := CollectingDate), [])
    else if st.stage == CollectingDate then DateStep(st, userInput)
    else if st.stage == CollectingInfo then InfoStep(st, userInput, services)
    else if st.stage == VerifyingOtp then OtpAttempt(st, userInput, services)
    else if MentionsInquiry(lower) && st.stage == Initial then Step(st.(stage := CheckingBooking), [])
    else if st.stage == CheckingBooking then SecretCodeStep(st, userInput, services, false)
    else if MentionsCancel(lower) && st.stage == Initial then Step(st.(stage := CancellingBooking), [])
    else if st.stage == CancellingBooking then SecretCodeStep(st, userInput, services, true)
    else if st.stage == ConfirmCancellation then CancellationAnswer(st, lower, services)
    else if AsksReset(lower) then Step(FreshState, [])
    else Step(st, [])
  }

  // -----------------------------------------------------------------------
  // Properties of a step

  /** From `initial`, "حجز" or "book" without a cancel word starts a booking,
      before any other test. */
  lemma BookingIntentFirst(st: State, userInput: string, services: RouteServices)
    requires WellFormed(st) && st.stage == Initial
    ensures MentionsBooking(ToLower(userInput)) ==>
              Process(st, userInput, services) == Step(st.(stage := CollectingDate), [])
    ensures !MentionsBooking(ToLower(userInput)) ==> Process(st, userInput, services).after.stage != CollectingDate
  {
  }

  /** "حجزي" and "my booking" contain "حجز" and "book", so without a cancel
      word they start a booking rather than an inquiry. */
  lemma MyBookingStartsBooking(st: State, userInput: string, services: RouteServices)
    requires WellFormed(st) && st.stage == Initial
    requires var lower := ToLower(userInput);
             (Contains(lower, "حجزي") || Contains(lower, "my booking")) && !MentionsCancel(lower)
    ensures Process(st, userInput, services).after.stage == CollectingDate
  {
    var lower := ToLower(userInput);
    InquiryWordsMentionBooking(lower);
  }

  lemma InquiryWordsMentionBooking(lower: string)
    ensures Contains(lower, "حجزي") ==> Contains(lower, "حجز")
    ensures Contains(lower, "my booking") ==> Contains(lower, "book")
  {
    assert OccursAt("حجزي", "حجز", 0);
    ContainsAt("حجزي", "حجز", 0);
    assert OccursAt("my booking", "book", 3);
    ContainsAt("my booking", "book", 3);
    if Contains(lower, "حجزي") {
      ContainsTransitive(lower, "حجزي", "حجز");
    }
    if Contains(lower, "my booking") {
      ContainsTransitive(lower, "my booking", "book");
    }
  }

  /** From `initial` the inquiry is entered exactly when an inquiry word is
      there and no booking request is; without a cancel word that takes
      "استعلام". */
  lemma InquiryNeedsIstilam(st: State, userInput: string, services: RouteServices)
    requires WellFormed(st) && st.stage == Initial
    ensures var lower := ToLower(userInput);
            (Process(st, userInput, services).after.stage == CheckingBooking
             <==> MentionsInquiry(lower) && !MentionsBooking(lower))
    ensures var lower := ToLower(userInput);
            (Process(st, userInput, services).after.stage == CheckingBooking && !MentionsCancel(lower)
             ==> Contains(lower, "استعلام"))
  {
    InquiryWordsMentionBooking(ToLower(userInput));
  }

  /** "إلغاء حجزي" (cancel my booking) in `initial` opens the inquiry, not
      the cancellation: the inquiry test comes first. */
  lemma CancelMyBookingIsInquiry(st: State, userInput: string, services: RouteServices)
    requires WellFormed(st) && st.stage == Initial
    requires Contains(ToLower(userInput), "إلغاء") && Contains(ToLower(userInput), "حجزي")
    ensures Process(st, userInput, services) == Step(st.(stage := CheckingBooking), [])
  {
  }

  /** A cancel word without an inquiry word starts the cancellation. */
  lemma CancelIntent(st: State, userInput: string, services: RouteServices)
    requires WellFormed(st) && st.stage == Initial
    requires MentionsCancel(ToLower(userInput)) && !MentionsInquiry(ToLower(userInput))
    ensures Process(st, userInput, services) == Step(st.(stage := CancellingBooking), [])
  {
  }

  /** `collecting_date` moves on exactly when a date is found, storing it
      in `yyyy-mm-dd` form; otherwise nothing changes. No service is called. */
  lemma DateCollection(st: State, userInput: string, services: RouteServices)
    requires WellFormed(st) && st.stage == CollectingDate
    ensures var r := Process(st, userInput, services);
            && r.calls == []
            && (r.after.stage == CollectingInfo
                <==> Match(IsoDate, userInput).Some? || Match(SlashDate, userInput).Some?)
            && (r.after.stage == CollectingInfo ==>
                  r.after.data == st.data.(bookingDate := NormalisedDate(userInput))
                  && IsIsoDateString(r.after.data.bookingDate.value))
            && (r.after.stage != CollectingInfo ==> r.after == st)
  {
  }

  /** `collecting_info`: each field the message holds replaces the stored
      one and each other field is kept; the booking date is never touched,
      and the services are called exactly when all four fields are there. */
  lemma FieldsAccumulate(st: State, userInput: string, services: RouteServices)
    requires WellFormed(st) && st.stage == CollectingInfo
    ensures var r := Process(st, userInput, services);
            && (Match(Email, userInput).Some? ==> r.after.data.email == Match(Email, userInput))
            && (Match(Email, userInput).None? ==> r.after.data.email == st.data.email)
            && (Match(DigitRun(10), userInput).Some? ==> r.after.data.phone == Match(DigitRun(10), userInput))
            && (Match(DigitRun(10), userInput).None? ==> r.after.data.phone == st.data.phone)
            && (Match(NameRun, userInput).Some? ==> r.after.data.name == Some(Trim(Match(NameRun, userInput).value)))
            && (Match(NameRun, userInput).None? ==> r.after.data.name == st.data.name)
            && r.after.data.bookingDate == st.data.bookingDate
            && (r.calls != [] <==> Complete(Collected(st.data, userInput)))
            && (!Complete(Collected(st.data, userInput)) ==> r.after == State(CollectingInfo, Collected(st.data, userInput)))
  {
    var data := Collected(st.data, userInput);
    assert Process(st, userInput, services) == InfoStep(st, userInput, services);
    if Complete(data) {
      assert InfoStep(st, userInput, services) == BookingAttempt(data, services);
    }
  }

  /** A stored e-mail or phone survives any later message, since a match of
      either pattern is never empty. */
  lemma ContactFieldsPersist(data: Data, userInput: string)
    ensures Present(data.email) ==> Present(Collected(data, userInput).email)
    ensures Present(data.phone) ==> Present(Collected(data, userInput).phone)
  {
    if Match(Email, userInput).Some? {
      EmailMatchHasAt(userInput);
    }
    if Match(DigitRun(10), userInput).Some? {
      DigitRunMatchShape(userInput);
    }
  }

  /** A name is not so safe: a run of three spaces matches the name pattern
      and trims to "", which replaces a stored name and makes the record
      incomplete again. */
  lemma BlankRunErasesName(data: Data)
    ensures Collected(data, "   ").name == Some("")
    ensures !Complete(Collected(data, "   "))
  {
    var s := "   ";
    assert RunEnd(s, 3, IsNameChar) == 3;
    assert RunEnd(s, 2, IsNameChar) == 3;
    assert RunEnd(s, 1, IsNameChar) == 3;
    assert RunEnd(s, 0, IsNameChar) == 3;
    assert MatchAt(NameRun, s, 0) == Some(3);
    assert FindFrom(NameRun, s, 0) == Some(Span(0, 3));
    assert s[0..3] == s;
    TrimEmptyIff(s);
  }

  /** With the record complete, an unavailable date ends in
      `date_unavailable` after the availability query alone: no booking is
      created. */
  lemma UnavailableDateBooksNothing(st: State, userInput: string, services: RouteServices)
    requires WellFormed(st) && st.stage == CollectingInfo
    requires var data := Collected(st.data, userInput);
             Complete(data) && !services.checkDateAvailability(data.bookingDate.value)
    ensures var data := Collected(st.data, userInput);
            Process(st, userInput, services)
              == Step(State(DateUnavailable, data), [AvailabilityQuery(data.bookingDate.value)])
  {
  }

  /** A successful booking stores its id, reference, secret code and OTP
      together and waits for the OTP; the rest of the record is the
      collected one. */
  lemma BookingStored(st: State, userInput: string, services: RouteServices)
    requires WellFormed(st) && st.stage == CollectingInfo
    requires var data := Collected(st.data, userInput);
             && Complete(data) && services.checkDateAvailability(data.bookingDate.value)
             && services.createBooking(data.name.value, data.phone.value, data.bookingDate.value).Success?
             && services.createVerificationCode(
                  services.createBooking(data.name.value, data.phone.value, data.bookingDate.value).value.bookingId).Success?
    ensures var data := Collected(st.data, userInput);
            var created := services.createBooking(data.name.value, data.phone.value, data.bookingDate.value).value;
            var otpCode := services.createVerificationCode(created.bookingId).value;
            var r := Process(st, userInput, services);
            && r.after.stage == VerifyingOtp
            && r.after.data == data.(bookingId := Some(created.bookingId),
                                     bookingReference := Some(created.bookingReference),
                                     secretCode := Some(created.secretCode),
                                     otpCode := Some(otpCode))
            && r.calls[|r.calls| - 1]
               == EmailSend(VerificationEmail(data.email.value, data.name.value, data.bookingDate.value,
                                              otpCode, created.bookingReference))
  {
  }

  /** An exception while booking gives `booking_error` and stores none of
      the booking's fields. */
  lemma BookingExceptionStoresNothing(st: State, userInput: string, services: RouteServices)
    requires WellFormed(st) && st.stage == CollectingInfo
    requires var data := Collected(st.data, userInput);
             && Complete(data) && services.checkDateAvailability(data.bookingDate.value)
             && (services.createBooking(data.name.value, data.phone.value, data.bookingDate.value).Failure?
                 || services.createVerificationCode(
                      services.createBooking(data.name.value, data.phone.value, data.bookingDate.value).value.bookingId).Failure?)
    ensures Process(st, userInput, services).after == State(BookingError, Collected(st.data, userInput))
  {
  }

  /** Every booking the route creates is for a date of the ISO shape. */
  lemma BookedDateIsIso(st: State, userInput: string, services: RouteServices, k: nat)
    requires WellFormed(st)
    requires k < |Process(st, userInput, services).calls|
    requires Process(st, userInput, services).calls[k].BookingInsert?
    ensures IsIsoDateString(Process(st, userInput, services).calls[k].date)
  {
  }

  /** `verifying_otp` leaves its stage exactly when the first four-digit
      run is the stored code; it then confirms unless `confirmBooking`
      throws. Otherwise nothing changes and no service is called. */
  lemma OtpExactMatch(st: State, userInput: string, services: RouteServices)
    requires WellFormed(st) && st.stage == VerifyingOtp
    ensures var r := Process(st, userInput, services);
            && (r.after.stage != VerifyingOtp <==> Match(Digits(4), userInput) == st.data.otpCode)
            && (r.after.stage == BookingConfirmed
                <==> Match(Digits(4), userInput) == st.data.otpCode
                     && services.confirmBooking(st.data.bookingId.value).Success?)
            && (r.after.stage != VerifyingOtp ==>
                  r.after.data == st.data && r.calls[0] == ConfirmUpdate(st.data.bookingId.value))
            && (r.after.stage == VerifyingOtp ==> r.after == st && r.calls == [])
  {
  }

  /** Only the first four digits are compared, so the stored code followed
      by more digits confirms as well. */
  lemma LongerNumberConfirms(st: State, extra: string, services: RouteServices)
    requires WellFormed(st) && st.stage == VerifyingOtp
    requires |st.data.otpCode.value| == 4 && AllDigits(st.data.otpCode.value)
    requires services.confirmBooking(st.data.bookingId.value).Success?
    ensures Process(st, st.data.otpCode.value + extra, services).after.stage == BookingConfirmed
  {
    var code := st.data.otpCode.value;
    DigitsMatchAfterPrefix([], code, extra);
    assert [] + code + extra == code + extra;
  }

  /** The two secret-code stages: no six-digit run changes nothing; a found
      booking is stored (with the code when cancelling), a missing one gives
      `booking_not_found` and an exception `checking_error`. */
  lemma SecretCodeOutcomes(st: State, userInput: string, services: RouteServices)
    requires WellFormed(st) && (st.stage == CheckingBooking || st.stage == CancellingBooking)
    ensures var r := Process(st, userInput, services);
            var cancelling := st.stage == CancellingBooking;
            match Match(Digits(6), userInput)
            case None => r == Step(st, [])
            case Some(code) =>
              r.calls == [Call.SecretLookup(code)]
              && match services.getBookingBySecretCode(code)
                 case Failure => r.after == st.(stage := CheckingError)
                 case Success(None) => r.after == st.(stage := BookingNotFound)
                 case Success(Some(b)) =>
                   if cancelling then r.after == State(ConfirmCancellation, st.data.(booking := Some(b), secretCode := Some(code)))
                   else r.after == State(BookingFound, st.data.(booking := Some(b)))
  {
  }

  /** `confirm_cancellation` tests yes-words first: a message with both a
      yes-word and a no-word cancels. The answer of `cancelBooking` is not
      looked at, so a booking that was not cancelled is still reported as
      cancelled. */
  lemma AffirmativeFirst(st: State, userInput: string, services: RouteServices)
    requires WellFormed(st) && st.stage == ConfirmCancellation
    ensures var lower := ToLower(userInput);
            var r := Process(st, userInput, services);
            && (Affirms(lower) ==>
                  r.calls == [CancelUpdate(st.data.secretCode.value)]
                  && r.after.stage == (if services.cancelBooking(st.data.secretCode.value).Success?
                                       then CancellationConfirmed else CancellationError))
            && (!Affirms(lower) && Declines(lower) ==> r == Step(st.(stage := CancellationAborted), []))
            && (!Affirms(lower) && !Declines(lower) ==> r == Step(st, []))
  {
  }

  /** `cancelBooking` answering false (nothing cancelled) still ends in
      `cancellation_confirmed`. */
  lemma CancelResultIgnored(st: State, userInput: string, services: RouteServices)
    requires WellFormed(st) && st.stage == ConfirmCancellation && Affirms(ToLower(userInput))
    requires services.cancelBooking(st.data.secretCode.value) == Success(false)
    ensures Process(st, userInput, services).after == st.(stage := CancellationConfirmed)
  {
  }

  /** Mid-flow stages answer before the reset test is reached, so a reset
      word there never returns to `initial`. */
  lemma ResetIgnoredMidFlow(st: State, userInput: string, services: RouteServices)
    requires WellFormed(st)
    requires st.stage in {CollectingDate, CollectingInfo, VerifyingOtp, CheckingBooking, CancellingBooking, ConfirmCancellation}
    ensures Process(st, userInput, services).after.stage != Initial
  {
  }

  /** The other stages are left only by a reset word, which clears the
      record; any other message changes nothing. */
  lemma TerminalStagesWaitForReset(st: State, userInput: string, services: RouteServices)
    requires WellFormed(st)
    requires st.stage in {DateUnavailable, BookingError, BookingConfirmed, VerificationError, BookingFound,
                          BookingNotFound, CheckingError, CancellationConfirmed, CancellationError, CancellationAborted}
    ensures Process(st, userInput, services)
            == Step(if AsksReset(ToLower(userInput)) then FreshState else st, [])
  {
  }

  /** In `initial` a reset word alone also clears the record. */
  lemma ResetFromInitial(st: State, userInput: string, services: RouteServices)
    requires WellFormed(st) && st.stage == Initial
    requires var lower := ToLower(userInput);
             !MentionsBooking(lower) && !MentionsInquiry(lower) && !MentionsCancel(lower)
    ensures Process(st, userInput, services)
            == Step(if AsksReset(ToLower(userInput)) then FreshState else st, [])
  {
  }

  // -----------------------------------------------------------------------
  // The store and the route

  /** The parsed request body; a field that is not a string is `None`. */
  datatype Request = Request(userInput: Option<string>, aiResponse: Option<string>, userId: string)

  /** `{ success: true }`, or the 500 error response. */
  datatype PostResponse = Processed | Failed

  /** The map after `POST` has fetched or created the user's record. */
  function WithState(states: map<string, State>, userId: string): (m: map<string, State>)
    ensures userId in m
    ensures userId in states ==> m == states
    ensures userId !in states ==> m[userId] == FreshState && m - {userId} == states
  {
    if userId in states then states else states[userId := FreshState]
  }

  class ConversationStore {
    /** `userStates`. */
    var userStates: map<string, State>

    ghost predicate Valid()
      reads this
    {
      forall u :: u in userStates ==> WellFormed(userStates[u])
    }

    constructor ()
      ensures Valid() && userStates == map[]
    {
      userStates := map[];
    }

    /** `POST`: a body that is not JSON fails before anything changes. An
        unseen user gets a fresh record first; a message that is not a
        string then fails at `toLowerCase`, leaving that record in place. */
    method Post(body: Option<Request>, services: RouteServices) returns (response: PostResponse, calls: seq<Call>)
      requires Valid()
      modifies this
      ensures Valid()
      ensures body.None? ==> response == Failed && calls == [] && userStates == old(userStates)
      ensures body.Some? ==>
                var before := old(WithState(userStates, body.value.userId));
                if body.value.userInput.None? || body.value.aiResponse.None? then
                  response == Failed && calls == [] && userStates == before
                else
                  var step := Process(before[body.value.userId], body.value.userInput.value, services);
                  response == Processed && calls == step.calls
                  && userStates == before[body.value.userId := step.after]
    {
      if body.None? {
        return Failed, [];
      }
      var request := body.value;
      var userId := request.userId;
      if userId !in userStates {
        userStates := userStates[userId := FreshState];
      }
      if request.userInput.None? || request.aiResponse.None? {
        return Failed, [];
      }
      calls := ProcessConversation(request.userInput.value, request.aiResponse.value, userId, services);
      response := Processed;
    }

    /** `processConversation`. The record is shared with the map, so
        writing it back once at the end stands for the in-place
        assignments. */
    method ProcessConversation(userInput: string, aiResponse: string, userId: string, services: RouteServices)
      returns (calls: seq<Call>)
      requires Valid() && userId in userStates
      modifies this
      ensures Valid()
      ensures calls == Process(old(userStates[userId]), userInput, services).calls
      ensures userStates == old(userStates)[userId := Process(old(userStates[userId]), userInput, services).after]
    {
      var userState := userStates[userId];
      userState, calls := Dispatch(userState, userInput, services);
      userStates := userStates[userId := userState];
    }

    /** The guarded branches of `processConversation` in the source's
        order. */
    static method Dispatch(userState: State, userInput: string, services: RouteServices)
      returns (after: State, calls: seq<Call>)
      requires WellFormed(userState)
      ensures Step(after, calls) == Process(userState, userInput, services)
    {
      var lowerUserInput := ToLower(userInput);
      after, calls := userState, [];
      if MentionsBooking(lowerUserInput) && userState.stage == Initial {
        after := userState.(stage := CollectingDate);
      } else if userState.stage == CollectingDate {
        after := CollectDate(userState, userInput);
      } else if userState.stage == CollectingInfo {
        after, calls := CollectInfo(userState, userInput, services);
      } else if userState.stage == VerifyingOtp {
        after, calls := CheckOtp(userState, userInput, services);
      } else if MentionsInquiry(lowerUserInput) && userState.stage == Initial {
        after := userState.(stage := CheckingBooking);
      } else if userState.stage == CheckingBooking {
        after, calls := LookUpSecretCode(userState, userInput, services, false);
      } else if MentionsCancel(lowerUserInput) && userState.stage == Initial {
        after := userState.(stage := CancellingBooking);
      } else if userState.stage == CancellingBooking {
        after, calls := LookUpSecretCode(userState, userInput, services, true);
      } else if userState.stage == ConfirmCancellation {
        after, calls := AnswerCancellation(userState, lowerUserInput, services);
      } else if AsksReset(lowerUserInput) {
        after := after.(stage := Initial);
        after := after.(data := EmptyData);
      }
    }

    /** `collecting_date`: the ISO match, else the slash match rewritten. */
    static method CollectDate(userState: State, userInput: string) returns (after: State)
      requires userState.stage == CollectingDate
      ensures Step(after, []) == DateStep(userState, userInput)
    {
      after := userState;
      var dateMatch := if Match(IsoDate, userInput).Some? then Match(IsoDate, userInput) else Match(SlashDate, userInput);
      if dateMatch.Some? {
        var bookingDate := dateMatch.value;
        if Contains(bookingDate, "/") {
          bookingDate := SlashToIso(bookingDate);
        }
        after := after.(data := after.data.(bookingDate := Some(bookingDate)));
        after := after.(stage := CollectingInfo);
      }
    }

    /** `collecting_info`: each field found overwrites the stored one; with
        all four present the booking is attempted. */
    static method CollectInfo(userState: State, userInput: string, services: RouteServices)
      returns (after: State, calls: seq<Call>)
      requires userState.stage == CollectingInfo
      ensures Step(after, calls) == InfoStep(userState, userInput, services)
    {
      after, calls := userState, [];
      var emailMatch := Match(Email, userInput);
      if emailMatch.Some? {
        after := after.(data := after.data.(email := emailMatch));
      }
      var phoneMatch := Match(DigitRun(10), userInput);
      if phoneMatch.Some? {
        after := after.(data := after.data.(phone := phoneMatch));
      }
      var nameMatch := Match(NameRun, userInput);
      if nameMatch.Some? {
        after := after.(data := after.data.(name := Some(Trim(nameMatch.value))));
      }
      var data := after.data;
      assert data == Collected(userState.data, userInput);
      if Present(data.email) && Present(data.phone) && Present(data.name) && Present(data.bookingDate) {
        after, calls := TryBooking(after, services);
      }
    }

    /** `verifying_otp`: the first four-digit run against the stored code. */
    static method CheckOtp(userState: State, userInput: string, services: RouteServices)
      returns (after: State, calls: seq<Call>)
      requires userState.stage == VerifyingOtp && WellFormed(userState)
      ensures Step(after, calls) == OtpAttempt(userState, userInput, services)
    {
      after, calls := userState, [];
      var otpMatch := Match(Digits(4), userInput);
      if otpMatch.Some? && otpMatch == userState.data.otpCode {
        var d := userState.data;
        var confirmed := services.confirmBooking(d.bookingId.value);
        calls := calls + [ConfirmUpdate(d.bookingId.value)];
        if confirmed.Failure? {
          after := after.(stage := VerificationError);
        } else {
          calls := calls + [EmailSend(ConfirmationEmail(d.email.value, d.name.value, d.bookingDate.value,
                                                        d.bookingReference.value, d.secretCode.value))];
          after := after.(stage := BookingConfirmed);
        }
      }
    }

    /** `confirm_cancellation`: yes-words are tested before no-words, and the
        answer of `cancelBooking` is not looked at. */
    static method AnswerCancellation(userState: State, lowerUserInput: string, services: RouteServices)
      returns (after: State, calls: seq<Call>)
      requires userState.stage == ConfirmCancellation && WellFormed(userState)
      ensures Step(after, calls) == CancellationAnswer(userState, lowerUserInput, services)
    {
      after, calls := userState, [];
      if Affirms(lowerUserInput) {
        var secretCode := userState.data.secretCode.value;
        var cancelled := services.cancelBooking(secretCode);
        calls := calls + [CancelUpdate(secretCode)];
        if cancelled.Failure? {
          after := after.(stage := CancellationError);
        } else {
          after := after.(stage := CancellationConfirmed);
        }
      } else if Declines(lowerUserInput) {
        after := after.(stage := CancellationAborted);
      }
    }

    /** The `try` block of `collecting_info`: availability, then the booking,
        then its code, then the e-mail. An exception leaves the fields as
        they were and sets `booking_error`. */
    static method TryBooking(userState: State, services: RouteServices) returns (after: State, calls: seq<Call>)
      requires Complete(userState.data)
      ensures Step(after, calls) == BookingAttempt(userState.data, services)
    {
      var data := userState.data;
      var isAvailable := services.checkDateAvailability(data.bookingDate.value);
      calls := [AvailabilityQuery(data.bookingDate.value)];
      if !isAvailable {
        return State(DateUnavailable, data), calls;
      }
      var created := services.createBooking(data.name.value, data.phone.value, data.bookingDate.value);
      calls := calls + [BookingInsert(data.name.value, data.phone.value, data.bookingDate.value)];
      if created.Failure? {
        return State(BookingError, data), calls;
      }
      var otpCode := services.createVerificationCode(created.value.bookingId);
      calls := calls + [CodeInsert(created.value.bookingId)];
      if otpCode.Failure? {
        return State(BookingError, data), calls;
      }
      data := data.(bookingId := Some(created.value.bookingId));
      data := data.(bookingReference := Some(created.value.bookingReference));
      data := data.(secretCode := Some(created.value.secretCode));
      data := data.(otpCode := Some(otpCode.value));
      calls := calls + [EmailSend(VerificationEmail(data.email.value, data.name.value, data.bookingDate.value,
                                                    otpCode.value, created.value.bookingReference))];
      after := State(VerifyingOtp, data);
    }

    /** The secret-code branches: the first six-digit run is looked up. */
    static method LookUpSecretCode(userState: State, userInput: string, services: RouteServices, cancelling: bool)
      returns (after: State, calls: seq<Call>)
      ensures Step(after, calls) == SecretCodeStep(userState, userInput, services, cancelling)
    {
      after, calls := userState, [];
      var secretCodeMatch := Match(Digits(6), userInput);
      if secretCodeMatch.None? {
        return;
      }
      var code := secretCodeMatch.value;
      var booking := services.getBookingBySecretCode(code);
      calls := [Call.SecretLookup(code)];
      if booking.Failure? {
        after := after.(stage := CheckingError);
      } else if booking.value.Some? {
        after := after.(data := after.data.(booking := booking.value));
        if cancelling {
          after := after.(data := after.data.(secretCode := Some(code)));
          after := after.(stage := ConfirmCancellation);
        } else {
          after := after.(stage := BookingFound);
        }
      } else {
        after := after.(stage := BookingNotFound);
      }
    }
  }
}
