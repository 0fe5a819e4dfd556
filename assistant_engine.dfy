/** The conversational booking assistant of lib/ai-utils.ts: one state
    record per user in a global map, a handler per stage that reads tokens
    out of the message and calls the booking services, and a dispatcher.
    The services are parameters: each is a function of its arguments, so a
    step is deterministic once their answers are fixed. Every step returns
    the reply and the calls it made, in order. */
module AssistantEngine {
  import opened Wrappers
  import opened Text
  import opened Lists
  import opened Patterns
  import opened Calendar
  import BookingStore
  import opened BookingServices

  datatype Stage =
    | Initial
    | CollectingDate
    | CollectingInfo
    | ConfirmingBooking
    | VerifyingOtp
    | BookingConfirmed
    | CheckingBooking
    | CancellingBooking

  /** The record kept per user; an absent field is `undefined`. */
  datatype Session = Session(
    stage: Stage,
    bookingDate: Option<string>,
    customerName: Option<string>,
    customerPhone: Option<string>,
    customerEmail: Option<string>,
    bookingReference: Option<string>,
    secretCode: Option<string>,
    otpCode: Option<string>)

  const FreshSession: Session := Session(Initial, None, None, None, None, None, None, None)

  /** The fields a stage's handler reads with `!`, which the earlier stages
      have always set by the time the stage is reached. */
  predicate WellFormed(s: Session) {
    (s.stage == CollectingInfo ==> s.bookingDate.Some?)
    && (s.stage == ConfirmingBooking ==>
          s.bookingDate.Some? && s.customerName.Some? && s.customerPhone.Some? && s.customerEmail.Some?)
    && (s.stage == VerifyingOtp ==>
          s.bookingDate.Some? && s.customerName.Some? && s.customerPhone.Some? && s.customerEmail.Some?
          && s.bookingReference.Some? && s.secretCode.Some? && s.otpCode.Some?)
    && (s.stage == CancellingBooking ==>
          s.bookingDate.Some? && s.bookingReference.Some? && s.secretCode.Some?)
  }

  // -----------------------------------------------------------------------
  // The booking services

  /** The answers of the services, and today's date. `Failure` is an
      exception. Availability and e-mail never throw: they catch their own
      errors and answer false. */
  datatype Services = Services(
    today: Day,
    checkDateAvailability: string -> bool,
    createBooking: (string, string, string) -> Result<Created>,
    createVerificationCode: nat -> Result<string>,
    sendEmail: Email -> bool,
    verifyOtp: (string, string) -> Result<bool>,
    getBookingBySecretCode: string -> Result<Option<StoredBooking>>,
    cancelBooking: string -> Result<bool>)

  // -----------------------------------------------------------------------
  // Replies (the values each reply template interpolates)

  datatype StatusNote = DaysLeft(days: int) | IsToday | IsOver | AwaitingConfirmation | WasCancelled

  datatype Reply =
    | Welcome                       // the reply for a stage without handler
    | Greeting                      // no recognised intent in `initial`
    | AskForDate
    | AskForSecretCode
    | DateNotUnderstood
    | DateInPast
    | DateUnavailable(date: string)
    | AskForDetails(date: string)
    | DetailsMissing
    | ConfirmDetails(name: string, phone: string, email: string, date: string)
    | BookingAborted
    | BookingCreated(reference: string, email: string, shownOtp: Option<string>)
    | BookingFailed
    | OtpNotUnderstood
    | OtpRejected
    | BookingConfirmedReply(reference: string, date: string, secretCode: string, emailFailed: bool)
    | SecretNotUnderstood
    | BookingNotFound
    | BookingDetails(reference: string, date: string, status: BookingStore.Status, note: StatusNote, offerCancel: bool)
    | CancellationAborted
    | CancellationFailed
    | CancellationDone(reference: string, date: string)

  /** A handler either replies or lets an exception of a service escape. */
  datatype Outcome = Replied(reply: Reply) | Threw

  // -----------------------------------------------------------------------
  // Message tests

  const BookingKeywords: seq<string> := ["حجز", "استراحة", "يوم", "تاريخ", "book", "booking", "reserve"]

  /** The test "the message contains this keyword". */
  function Mentions(message: string): (string -> bool) {
    (k: string) => Contains(message, k)
  }

  /** The distinct keywords the message contains. */
  function MentionedKeywords(message: string): set<string> {
    set k | k in BookingKeywords && Contains(message, k)
  }

  /** At least two of the booking keywords occur in the message. */
  predicate IsBookingIntent(message: string) {
    Count(BookingKeywords, Mentions(message)) >= 2
  }

  /** `detectBookingIntent`: count the keywords the message contains. */
  method DetectBookingIntent(message: string) returns (isIntent: bool)
    ensures isIntent <==> IsBookingIntent(message)
    ensures isIntent <==> |MentionedKeywords(message)| >= 2
  {
    var matchCount := CountMentioned(BookingKeywords, message);
    KeywordsCountedOnce(message);
    isIntent := matchCount >= 2;
  }

  /** The loop of `detectBookingIntent`: one more for each keyword the
      message contains. */
  method CountMentioned(keywords: seq<string>, message: string) returns (matchCount: nat)
    ensures matchCount == Count(keywords, Mentions(message))
  {
    matchCount := 0;
    for i := 0 to |keywords|
      invariant matchCount == Count(keywords[..i], Mentions(message))
    {
      CountSnoc(keywords[..i], keywords[i], Mentions(message));
      assert keywords[..i + 1] == keywords[..i] + [keywords[i]];
      if Contains(message, keywords[i]) {
        matchCount := matchCount + 1;
      }
    }
    assert keywords[..|keywords|] == keywords;
  }

  /** The keyword list has no repetitions, so each keyword counts once. */
  lemma KeywordsCountedOnce(message: string)
    ensures Count(BookingKeywords, Mentions(message))
            == |MentionedKeywords(message)|
  {
    KeywordsDistinct();
    CountDistinct(BookingKeywords, Mentions(message));
    MentionedAreMatching(BookingKeywords, message);
  }

  /** The keywords a message mentions are the matching set of the test. */
  lemma MentionedAreMatching(keywords: seq<string>, message: string)
    ensures MatchingSet(keywords, Mentions(message)) == (set k | k in keywords && Contains(message, k))
  {
  }

  lemma KeywordsDistinct()
    ensures forall i, j :: 0 <= i < j < |BookingKeywords| ==> BookingKeywords[i] != BookingKeywords[j]
  {
    forall i, j | 0 <= i < j < |BookingKeywords| ensures BookingKeywords[i] != BookingKeywords[j] {
      assert BookingKeywords[i][0] != BookingKeywords[j][0] || |BookingKeywords[i]| != |BookingKeywords[j]|;
    }
  }

  /** "booking" contains "book", so the one word "booking" is already an
      intent, while "book" alone needs a second keyword. */
  lemma BookingWordIsIntent(message: string)
    requires Contains(message, "booking")
    ensures IsBookingIntent(message)
  {
    assert OccursAt("booking", "book", 0);
    ContainsAt("booking", "book", 0);
    ContainsTransitive(message, "booking", "book");
    CountTwo(BookingKeywords, Mentions(message), 4, 5);
  }

  /** The yes-words of `handleBookingConfirmation`. */
  predicate ConfirmsBooking(message: string) {
    Contains(message, "نعم") || Contains(message, "تأكيد") || Contains(ToLower(message), "yes")
  }

  /** The yes-words of `handleBookingCancellation`. */
  predicate ConfirmsCancellation(message: string) {
    Contains(message, "نعم") || Contains(message, "إلغاء") || Contains(ToLower(message), "yes")
  }

  /** "Yes" in any letter case confirms, as does any message containing it. */
  lemma YesInAnyCaseConfirms(message: string, i: nat)
    requires i + 3 <= |message| && ToLower(message[i..i + 3]) == "yes"
    ensures ConfirmsBooking(message) && ConfirmsCancellation(message)
  {
    var l := ToLower(message);
    assert l[i..i + 3] == ToLower(message[i..i + 3]);
    ContainsAt(l, "yes", i);
  }

  /** The status line of `handleBookingCheck` for a booking `days` days away. */
  function StatusNoteOf(status: BookingStore.Status, days: int): (n: StatusNote)
    ensures n.DaysLeft? <==> status == BookingStore.Confirmed && days > 0
    ensures n.DaysLeft? ==> n.days == days
    ensures n == IsToday <==> status == BookingStore.Confirmed && days == 0
    ensures n == IsOver <==> status == BookingStore.Confirmed && days < 0
    ensures n == AwaitingConfirmation <==> status == BookingStore.Pending
    ensures n == WasCancelled <==> status == BookingStore.Cancelled
  {
    match status
    case Confirmed => if days > 0 then DaysLeft(days) else if days == 0 then IsToday else IsOver
    case Pending => AwaitingConfirmation
    case Cancelled => WasCancelled
  }

  // -----------------------------------------------------------------------
  // What each handler does, as a relation between the map before and after

  ghost predicate InitialSpec(before: map<string, Session>, userId: string, message: string,
                              after: map<string, Session>, out: Outcome, calls: seq<Call>)
    requires userId in before
  {
    var s := before[userId];
    calls == []
    && if IsBookingIntent(message) then
         after == before[userId := s.(stage := CollectingDate)] && out == Replied(AskForDate)
       else if Contains(message, "حجز") && Contains(message, "تحقق") then
         after == before[userId := s.(stage := CheckingBooking)] && out == Replied(AskForSecretCode)
       else
         after == before && out == Replied(Greeting)
  }

  ghost predicate DateCollectionSpec(before: map<string, Session>, userId: string, message: string, services: Services,
                                     after: map<string, Session>, out: Outcome, calls: seq<Call>)
    requires userId in before
  {
    var s := before[userId];
    match Match(IsoDate, message)
    case None => after == before && out == Replied(DateNotUnderstood) && calls == []
    case Some(date) =>
      if IsBefore(date, services.today) then
        after == before && out == Replied(DateInPast) && calls == []
      else
        calls == [AvailabilityQuery(date)]
        && if !services.checkDateAvailability(date) then
             after == before && out == Replied(DateUnavailable(date))
           else
             after == before[userId := s.(bookingDate := Some(date), stage := CollectingInfo)]
             && out == Replied(AskForDetails(date))
  }

  ghost predicate InfoCollectionSpec(before: map<string, Session>, userId: string, message: string,
                                     after: map<string, Session>, out: Outcome, calls: seq<Call>)
    requires userId in before && before[userId].bookingDate.Some?
  {
    var s := before[userId];
    var name := Match(NameRun, message);
    var phone := Match(DigitRun(10), message);
    var email := Match(Email, message);
    calls == []
    && if name.None? || phone.None? || email.None? then
         after == before && out == Replied(DetailsMissing)
       else
         after == before[userId := s.(customerName := Some(Trim(name.value)),
                                      customerPhone := Some(Trim(phone.value)),
                                      customerEmail := Some(Trim(email.value)),
                                      stage := ConfirmingBooking)]
         && out == Replied(ConfirmDetails(Trim(name.value), Trim(phone.value), Trim(email.value), s.bookingDate.value))
  }

  ghost predicate ConfirmationSpec(before: map<string, Session>, userId: string, message: string, services: Services,
                                   after: map<string, Session>, out: Outcome, calls: seq<Call>)
    requires userId in before && before[userId].stage == ConfirmingBooking && WellFormed(before[userId])
  {
    var s := before[userId];
    var name := s.customerName.value;
    var phone := s.customerPhone.value;
    var date := s.bookingDate.value;
    if !ConfirmsBooking(message) then
      after == before - {userId} && out == Replied(BookingAborted) && calls == []
    else
      match services.createBooking(name, phone, date)
      case Failure =>
        after == before && out == Replied(BookingFailed) && calls == [BookingInsert(name, phone, date)]
      case Success(c) =>
        match services.createVerificationCode(c.bookingId)
        case Failure =>
          after == before && out == Replied(BookingFailed)
          && calls == [BookingInsert(name, phone, date), CodeInsert(c.bookingId)]
        case Success(otp) =>
          var email := VerificationEmail(s.customerEmail.value, name, date, otp, c.bookingReference);
          calls == [BookingInsert(name, phone, date), CodeInsert(c.bookingId), EmailSend(email)]
          && after == before[userId := s.(bookingReference := Some(c.bookingReference),
                                          secretCode := Some(c.secretCode),
                                          otpCode := Some(otp),
                                          stage := VerifyingOtp)]
          && out == Replied(BookingCreated(c.bookingReference, s.customerEmail.value,
                                           if services.sendEmail(email) then None else Some(otp)))
  }

  ghost predicate OtpVerificationSpec(before: map<string, Session>, userId: string, message: string, services: Services,
                                      after: map<string, Session>, out: Outcome, calls: seq<Call>)
    requires userId in before && before[userId].stage == VerifyingOtp && WellFormed(before[userId])
  {
    var s := before[userId];
    match Match(Digits(4), message)
    case None => after == before && out == Replied(OtpNotUnderstood) && calls == []
    case Some(entered) =>
      var localMatch := s.otpCode == Some(entered);
      var verdict := if localMatch then Success(true) else services.verifyOtp(s.bookingReference.value, entered);
      var checks := if localMatch then [] else [OtpCheck(s.bookingReference.value, entered)];
      var email := ConfirmationEmail(s.customerEmail.value, s.customerName.value, s.bookingDate.value,
                                     s.bookingReference.value, s.secretCode.value);
      match verdict
      case Failure => after == before && out == Threw && calls == checks
      case Success(false) => after == before && out == Replied(OtpRejected) && calls == checks
      case Success(true) =>
        calls == checks + [EmailSend(email)]
        && after == before[userId := s.(stage := BookingConfirmed)]
        && out == Replied(BookingConfirmedReply(s.bookingReference.value, s.bookingDate.value,
                                                s.secretCode.value, !services.sendEmail(email)))
  }

  ghost predicate BookingCheckSpec(before: map<string, Session>, userId: string, message: string, services: Services,
                                   after: map<string, Session>, out: Outcome, calls: seq<Call>)
    requires userId in before
  {
    var s := before[userId];
    match Match(Digits(6), message)
    case None => after == before && out == Replied(SecretNotUnderstood) && calls == []
    case Some(code) =>
      calls == [SecretLookup(code)]
      && match services.getBookingBySecretCode(code)
         case Failure => after == before && out == Threw
         case Success(None) => after == before && out == Replied(BookingNotFound)
         case Success(Some(b)) =>
           var days := b.day - services.today;
           var s' := s.(bookingReference := Some(b.reference), bookingDate := Some(b.bookingDate),
                        secretCode := Some(code));
           var offer := b.status == BookingStore.Confirmed && days > 0;
           after == before[userId := s'.(stage := if offer then CancellingBooking else Initial)]
           && out == Replied(BookingDetails(b.reference, b.bookingDate, b.status, StatusNoteOf(b.status, days), offer))
  }

  ghost predicate CancellationSpec(before: map<string, Session>, userId: string, message: string, services: Services,
                                   after: map<string, Session>, out: Outcome, calls: seq<Call>)
    requires userId in before && before[userId].stage == CancellingBooking && WellFormed(before[userId])
  {
    var s := before[userId];
    if !ConfirmsCancellation(message) then
      after == before - {userId} && out == Replied(CancellationAborted) && calls == []
    else
      calls == [CancelUpdate(s.secretCode.value)]
      && match services.cancelBooking(s.secretCode.value)
         case Failure => after == before && out == Threw
         case Success(false) => after == before && out == Replied(CancellationFailed)
         case Success(true) =>
           after == before - {userId}
           && out == Replied(CancellationDone(s.bookingReference.value, s.bookingDate.value))
  }

  /** Every record but `userId`'s is as it was. */
  ghost predicate OthersUnchanged(before: map<string, Session>, after: map<string, Session>, userId: string) {
    && (forall u :: u != userId ==> (u in after <==> u in before))
    && (forall u :: u != userId && u in after ==> after[u] == before[u])
  }

  // Each handler touches only the record of the user it serves.

  lemma InitialKeepsOthers(before: map<string, Session>, userId: string, message: string,
                           after: map<string, Session>, out: Outcome, calls: seq<Call>)
    requires userId in before && InitialSpec(before, userId, message, after, out, calls)
    ensures OthersUnchanged(before, after, userId)
  {
  }

  lemma DateCollectionKeepsOthers(before: map<string, Session>, userId: string, message: string, services: Services,
                                  after: map<string, Session>, out: Outcome, calls: seq<Call>)
    requires userId in before && DateCollectionSpec(before, userId, message, services, after, out, calls)
    ensures OthersUnchanged(before, after, userId)
  {
  }

  lemma InfoCollectionKeepsOthers(before: map<string, Session>, userId: string, message: string,
                                  after: map<string, Session>, out: Outcome, calls: seq<Call>)
    requires userId in before && before[userId].bookingDate.Some?
    requires InfoCollectionSpec(before, userId, message, after, out, calls)
    ensures OthersUnchanged(before, after, userId)
  {
    var name, phone, email := Match(NameRun, message), Match(DigitRun(10), message), Match(Email, message);
    if name.Some? && phone.Some? && email.Some? {
      var s := before[userId];
      UpdateKeepsOthers(before, userId, s.(customerName := Some(Trim(name.value)),
                                           customerPhone := Some(Trim(phone.value)),
                                           customerEmail := Some(Trim(email.value)),
                                           stage := ConfirmingBooking));
    }
  }

  lemma UpdateKeepsOthers(before: map<string, Session>, userId: string, s: Session)
    ensures OthersUnchanged(before, before[userId := s], userId)
  {
  }

  lemma ConfirmationKeepsOthers(before: map<string, Session>, userId: string, message: string, services: Services,
                                after: map<string, Session>, out: Outcome, calls: seq<Call>)
    requires userId in before && before[userId].stage == ConfirmingBooking && WellFormed(before[userId])
    requires ConfirmationSpec(before, userId, message, services, after, out, calls)
    ensures OthersUnchanged(before, after, userId)
  {
  }

  lemma OtpVerificationKeepsOthers(before: map<string, Session>, userId: string, message: string, services: Services,
                                   after: map<string, Session>, out: Outcome, calls: seq<Call>)
    requires userId in before && before[userId].stage == VerifyingOtp && WellFormed(before[userId])
    requires OtpVerificationSpec(before, userId, message, services, after, out, calls)
    ensures OthersUnchanged(before, after, userId)
  {
  }

  lemma BookingCheckKeepsOthers(before: map<string, Session>, userId: string, message: string, services: Services,
                                after: map<string, Session>, out: Outcome, calls: seq<Call>)
    requires userId in before && BookingCheckSpec(before, userId, message, services, after, out, calls)
    ensures OthersUnchanged(before, after, userId)
  {
  }

  lemma CancellationKeepsOthers(before: map<string, Session>, userId: string, message: string, services: Services,
                                after: map<string, Session>, out: Outcome, calls: seq<Call>)
    requires userId in before && before[userId].stage == CancellingBooking && WellFormed(before[userId])
    requires CancellationSpec(before, userId, message, services, after, out, calls)
    ensures OthersUnchanged(before, after, userId)
  {
  }

  /** What `handleUserMessage` does with a record of each stage. */
  ghost predicate HandlerSpec(before: map<string, Session>, userId: string, message: string, services: Services,
                              after: map<string, Session>, out: Outcome, calls: seq<Call>)
    requires userId in before && WellFormed(before[userId])
  {
    match before[userId].stage
    case Initial => InitialSpec(before, userId, message, after, out, calls)
    case CollectingDate => DateCollectionSpec(before, userId, message, services, after, out, calls)
    case CollectingInfo => InfoCollectionSpec(before, userId, message, after, out, calls)
    case ConfirmingBooking => ConfirmationSpec(before, userId, message, services, after, out, calls)
    case VerifyingOtp => OtpVerificationSpec(before, userId, message, services, after, out, calls)
    case BookingConfirmed => after == before && out == Replied(Welcome) && calls == []
    case CheckingBooking => BookingCheckSpec(before, userId, message, services, after, out, calls)
    case CancellingBooking => CancellationSpec(before, userId, message, services, after, out, calls)
  }

  /** The map after `handleUserMessage` has fetched or created the record. */
  function WithSession(sessions: map<string, Session>, userId: string): (m: map<string, Session>)
    ensures userId in m
    ensures userId in sessions ==> m == sessions
    ensures userId !in sessions ==> m[userId] == FreshSession && m - {userId} == sessions
  {
    if userId in sessions then sessions else sessions[userId := FreshSession]
  }

  // -----------------------------------------------------------------------
  // The assistant

  class Assistant {
    /** `userStates`. */
    var sessions: map<string, Session>

    ghost predicate Valid()
      reads this
    {
      forall u :: u in sessions ==> WellFormed(sessions[u])
    }

    constructor ()
      ensures Valid() && sessions == map[]
    {
      sessions := map[];
    }

    /** `handleUserMessage`: fetch or create the user's record, then run the
        handler of its stage. No other user's record changes. */
    method HandleUserMessage(userId: string, message: string, services: Services)
      returns (out: Outcome, calls: seq<Call>)
      requires Valid()
      modifies this
      ensures Valid()
      ensures userId !in old(sessions) ==>
                InitialSpec(old(WithSession(sessions, userId)), userId, message, sessions, out, calls)
      ensures HandlerSpec(old(WithSession(sessions, userId)), userId, message, services, sessions, out, calls)
      ensures OthersUnchanged(old(sessions), sessions, userId)
    {
      OpenSession(userId);
      out, calls := RunHandler(userId, message, services);
    }

    /** The user's record, a fresh one if there was none. */
    method OpenSession(userId: string)
      requires Valid()
      modifies this
      ensures Valid()
      ensures sessions == WithSession(old(sessions), userId)
      ensures OthersUnchanged(old(sessions), sessions, userId)
    {
      if userId !in sessions {
        sessions := sessions[userId := FreshSession];
      }
    }

    /** The handler of the record's stage; `booking_confirmed` has none. */
    method RunHandler(userId: string, message: string, services: Services)
      returns (out: Outcome, calls: seq<Call>)
      requires Valid() && userId in sessions
      modifies this
      ensures Valid()
      ensures HandlerSpec(old(sessions), userId, message, services, sessions, out, calls)
      ensures OthersUnchanged(old(sessions), sessions, userId)
    {
      ghost var before := sessions;
      var userState := sessions[userId];
      match userState.stage
      case Initial =>
        out, calls := HandleInitialState(userId, message);
        InitialKeepsOthers(before, userId, message, sessions, out, calls);
      case CollectingDate =>
        out, calls := HandleDateCollection(userId, message, services);
        DateCollectionKeepsOthers(before, userId, message, services, sessions, out, calls);
      case CollectingInfo =>
        out, calls := HandleInfoCollection(userId, message);
        InfoCollectionKeepsOthers(before, userId, message, sessions, out, calls);
      case ConfirmingBooking =>
        out, calls := HandleBookingConfirmation(userId, message, services);
        ConfirmationKeepsOthers(before, userId, message, services, sessions, out, calls);
      case VerifyingOtp =>
        out, calls := HandleOtpVerification(userId, message, services);
        OtpVerificationKeepsOthers(before, userId, message, services, sessions, out, calls);
      case CheckingBooking =>
        out, calls := HandleBookingCheck(userId, message, services);
        BookingCheckKeepsOthers(before, userId, message, services, sessions, out, calls);
      case CancellingBooking =>
        out, calls := HandleBookingCancellation(userId, message, services);
        CancellationKeepsOthers(before, userId, message, services, sessions, out, calls);
      case BookingConfirmed => out, calls := Replied(Welcome), [];
    }

    /** `userStates[userId] = s`. */
    method Store(userId: string, s: Session)
      requires Valid() && WellFormed(s)
      modifies this
      ensures Valid()
      ensures sessions == old(sessions)[userId := s]
    {
      sessions := sessions[userId := s];
    }

    /** `delete userStates[userId]`. */
    method Forget(userId: string)
      requires Valid()
      modifies this
      ensures Valid()
      ensures sessions == old(sessions) - {userId}
    {
      sessions := sessions - {userId};
    }

    /** `handleInitialState`: booking intent first, then the check request. */
    method HandleInitialState(userId: string, message: string) returns (out: Outcome, calls: seq<Call>)
      requires Valid() && userId in sessions && sessions[userId].stage == Initial
      modifies this
      ensures Valid()
      ensures InitialSpec(old(sessions), userId, message, sessions, out, calls)
    {
      calls := [];
      var isBookingIntent := DetectBookingIntent(message);
      if isBookingIntent {
        Store(userId, sessions[userId].(stage := CollectingDate));
        out := Replied(AskForDate);
      } else if Contains(message, "حجز") && Contains(message, "تحقق") {
        Store(userId, sessions[userId].(stage := CheckingBooking));
        out := Replied(AskForSecretCode);
      } else {
        out := Replied(Greeting);
      }
    }

    /** `handleDateCollection`: the first ISO-shaped date, not in the past and
        free, is stored and the stage moves on; otherwise nothing changes. */
    method HandleDateCollection(userId: string, message: string, services: Services)
      returns (out: Outcome, calls: seq<Call>)
      requires Valid() && userId in sessions && sessions[userId].stage == CollectingDate
      modifies this
      ensures Valid()
      ensures DateCollectionSpec(old(sessions), userId, message, services, sessions, out, calls)
    {
      calls := [];
      var dateMatch := Match(IsoDate, message);
      if dateMatch.None? {
        return Replied(DateNotUnderstood), calls;
      }
      var bookingDate := dateMatch.value;
      if IsBefore(bookingDate, services.today) {
        return Replied(DateInPast), calls;
      }
      var isAvailable := services.checkDateAvailability(bookingDate);
      calls := calls + [AvailabilityQuery(bookingDate)];
      if !isAvailable {
        return Replied(DateUnavailable(bookingDate)), calls;
      }
      var userState := sessions[userId];
      userState := userState.(bookingDate := Some(bookingDate));
      userState := userState.(stage := CollectingInfo);
      Store(userId, userState);
      out := Replied(AskForDetails(bookingDate));
    }

    /** `handleInfoCollection`: name, phone and e-mail are stored trimmed,
        all three at once, or none when one is missing. */
    method HandleInfoCollection(userId: string, message: string) returns (out: Outcome, calls: seq<Call>)
      requires Valid() && userId in sessions && sessions[userId].stage == CollectingInfo
      modifies this
      ensures Valid()
      ensures InfoCollectionSpec(old(sessions), userId, message, sessions, out, calls)
    {
      calls := [];
      var nameMatch := Match(NameRun, message);
      var phoneMatch := Match(DigitRun(10), message);
      var emailMatch := Match(Email, message);
      if nameMatch.None? || phoneMatch.None? || emailMatch.None? {
        return Replied(DetailsMissing), calls;
      }
      var userState := sessions[userId];
      userState := userState.(customerName := Some(Trim(nameMatch.value)));
      userState := userState.(customerPhone := Some(Trim(phoneMatch.value)));
      userState := userState.(customerEmail := Some(Trim(emailMatch.value)));
      userState := userState.(stage := ConfirmingBooking);
      Store(userId, userState);
      out := Replied(ConfirmDetails(userState.customerName.value, userState.customerPhone.value,
                                    userState.customerEmail.value, userState.bookingDate.value));
    }

    /** `handleBookingConfirmation`: anything but a yes drops the record;
        a yes creates the booking and its code and moves to OTP entry, and
        an exception of either leaves everything as it was. */
    method HandleBookingConfirmation(userId: string, message: string, services: Services)
      returns (out: Outcome, calls: seq<Call>)
      requires Valid() && userId in sessions && sessions[userId].stage == ConfirmingBooking
      modifies this
      ensures Valid()
      ensures ConfirmationSpec(old(sessions), userId, message, services, sessions, out, calls)
    {
      calls := [];
      var isConfirmed := Contains(message, "نعم") || Contains(message, "تأكيد") || Contains(ToLower(message), "yes");
      if !isConfirmed {
        Forget(userId);
        return Replied(BookingAborted), calls;
      }
      var userState := sessions[userId];
      var name := userState.customerName.value;
      var phone := userState.customerPhone.value;
      var date := userState.bookingDate.value;
      var created := services.createBooking(name, phone, date);
      calls := calls + [BookingInsert(name, phone, date)];
      if created.Failure? {
        return Replied(BookingFailed), calls;
      }
      var otpResult := services.createVerificationCode(created.value.bookingId);
      calls := calls + [CodeInsert(created.value.bookingId)];
      if otpResult.Failure? {
        return Replied(BookingFailed), calls;
      }
      var otpCode := otpResult.value;
      var email := VerificationEmail(userState.customerEmail.value, name, date, otpCode, created.value.bookingReference);
      var emailSent := services.sendEmail(email);
      calls := calls + [EmailSend(email)];
      userState := userState.(bookingReference := Some(created.value.bookingReference));
      userState := userState.(secretCode := Some(created.value.secretCode));
      userState := userState.(otpCode := Some(otpCode));
      userState := userState.(stage := VerifyingOtp);
      Store(userId, userState);
      var shownOtp := if emailSent then None else Some(otpCode);
      out := Replied(BookingCreated(created.value.bookingReference, userState.customerEmail.value, shownOtp));
    }

    /** `handleOTPVerification`: the first four-digit run is accepted when it
        equals the code kept in the record, and only otherwise is the
        database asked. */
    method HandleOtpVerification(userId: string, message: string, services: Services)
      returns (out: Outcome, calls: seq<Call>)
      requires Valid() && userId in sessions && sessions[userId].stage == VerifyingOtp
      modifies this
      ensures Valid()
      ensures OtpVerificationSpec(old(sessions), userId, message, services, sessions, out, calls)
      ensures old(sessions[userId].otpCode) == Match(Digits(4), message) ==> forall c :: c in calls ==> !c.OtpCheck?
    {
      calls := [];
      var otpMatch := Match(Digits(4), message);
      if otpMatch.None? {
        return Replied(OtpNotUnderstood), calls;
      }
      var userState := sessions[userId];
      var enteredOtp := otpMatch.value;
      var isVerified := true;
      if userState.otpCode != Some(enteredOtp) {
        var verdict := services.verifyOtp(userState.bookingReference.value, enteredOtp);
        calls := calls + [OtpCheck(userState.bookingReference.value, enteredOtp)];
        if verdict.Failure? {
          return Threw, calls;
        }
        isVerified := verdict.value;
      }
      if !isVerified {
        return Replied(OtpRejected), calls;
      }
      var email := ConfirmationEmail(userState.customerEmail.value, userState.customerName.value,
                                     userState.bookingDate.value, userState.bookingReference.value,
                                     userState.secretCode.value);
      var emailSent := services.sendEmail(email);
      calls := calls + [EmailSend(email)];
      userState := userState.(stage := BookingConfirmed);
      Store(userId, userState);
      out := Replied(BookingConfirmedReply(userState.bookingReference.value, userState.bookingDate.value,
                                           userState.secretCode.value, !emailSent));
    }

    /** `handleBookingCheck`: a found booking is shown; only a confirmed one
        still ahead offers cancellation, anything else returns to `initial`.
        The record is shared with the map, so writing it back once with its
        new stage stands for the in-place assignments. */
    method HandleBookingCheck(userId: string, message: string, services: Services)
      returns (out: Outcome, calls: seq<Call>)
      requires Valid() && userId in sessions && sessions[userId].stage == CheckingBooking
      modifies this
      ensures Valid()
      ensures BookingCheckSpec(old(sessions), userId, message, services, sessions, out, calls)
    {
      calls := [];
      var secretCodeMatch := Match(Digits(6), message);
      if secretCodeMatch.None? {
        return Replied(SecretNotUnderstood), calls;
      }
      var secretCode := secretCodeMatch.value;
      var lookup := services.getBookingBySecretCode(secretCode);
      calls := calls + [SecretLookup(secretCode)];
      if lookup.Failure? {
        return Threw, calls;
      }
      if lookup.value.None? {
        return Replied(BookingNotFound), calls;
      }
      var booking := lookup.value.value;
      var daysRemaining := booking.day - services.today;
      var userState := sessions[userId];
      userState := userState.(bookingReference := Some(booking.reference));
      userState := userState.(bookingDate := Some(booking.bookingDate));
      userState := userState.(secretCode := Some(secretCode));
      var note := StatusNoteOf(booking.status, daysRemaining);
      if booking.status == BookingStore.Confirmed && daysRemaining > 0 {
        userState := userState.(stage := CancellingBooking);
        Store(userId, userState);
        return Replied(BookingDetails(booking.reference, booking.bookingDate, booking.status, note, true)), calls;
      }
      userState := userState.(stage := Initial);
      Store(userId, userState);
      out := Replied(BookingDetails(booking.reference, booking.bookingDate, booking.status, note, false));
    }

    /** `handleBookingCancellation`: a no drops the record; a yes cancels,
        and the record is dropped only when the cancel changed a row. */
    method HandleBookingCancellation(userId: string, message: string, services: Services)
      returns (out: Outcome, calls: seq<Call>)
      requires Valid() && userId in sessions && sessions[userId].stage == CancellingBooking
      modifies this
      ensures Valid()
      ensures CancellationSpec(old(sessions), userId, message, services, sessions, out, calls)
    {
      calls := [];
      var isConfirmed := Contains(message, "نعم") || Contains(message, "إلغاء") || Contains(ToLower(message), "yes");
      if !isConfirmed {
        Forget(userId);
        return Replied(CancellationAborted), calls;
      }
      var userState := sessions[userId];
      var result := services.cancelBooking(userState.secretCode.value);
      calls := calls + [CancelUpdate(userState.secretCode.value)];
      if result.Failure? {
        return Threw, calls;
      }
      if !result.value {
        return Replied(CancellationFailed), calls;
      }
      Forget(userId);
      out := Replied(CancellationDone(userState.bookingReference.value, userState.bookingDate.value));
    }
  }
}
