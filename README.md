# Rest-house booking: a Dafny model

This project models the core of a web application that books a single rest
house (an "istiraha") one day at a time. Guests book through an Arabic chat
assistant: they pick a date, give their name, phone and e-mail, and confirm
with a four-digit code sent by e-mail. Later they can look the booking up,
or cancel it, with a six-digit secret code. An admin screen lists, counts
and groups every booking.

The model covers these parts:

- **The booking tables** (`BookingStore`, from `lib/db.ts`). The bookings
  and verification-code tables are sequences of rows in a `Database` class.
  Creating a booking, creating an OTP, verifying an OTP, cancelling by
  secret code and listing the available dates are methods on that class.
  Each method is tied to a pure function (`CheckDateAvailability`,
  `VerifyOtp`, `CancelRows`, `ConfirmRows`), and the lemmas are proved about
  those functions.
- **The two conversation engines.** The first is the per-user state machine
  of `lib/ai-utils.ts` (`AssistantEngine`). The second is the one behind the
  `POST /api/process-conversation` route (`ConversationRoute`). Both keep one
  record per user in a map. In both, a handler is a method that updates that
  record. Every handler's contract ties the new map, the reply and the list
  of database and e-mail calls it made (a `Call` trace) to a relation or
  function over the old map. The collaborators (database helpers, e-mail,
  today's date) are parameters that fix their answers.
- **The availability route** (`AvailabilityRoute`): the parameter checks,
  the format checks, and one mock entry per day of the range.
- **The client components:**
  - the chat widget: context window, typing delay, suggested replies,
    send/error flow;
  - the booking calendar with its booking and OTP dialogs;
  - the plain availability calendar;
  - the booking management card;
  - the admin dashboard, the admin bookings list and the admin calendar
    view;
  - the toast hook.

  Each component is a class whose fields are its React state. Each handler
  is a method whose contract gives the whole new state. The answers of the
  HTTP requests a handler makes are parameters.

Helper modules:

- `Wrappers`: `Option` and `Result`.
- `Text`: JavaScript string operations on `seq<char>`, i.e. `includes`,
  `toLowerCase`, `trim`, `split`, `padStart` and decimal rendering.
- `Patterns`: the regular expressions the engines use, as leftmost-match
  functions.
- `Calendar`: days as integers, ISO `yyyy-mm-dd` parse and format.
- `Lists`: `filter`, `find`, counting.
- `BookingServices`: stored bookings, e-mails and the `Call` trace.
- `Responses`: the `data.error || fallback` failure text of the components.

Some behaviours of the source look unintended. The model keeps each as
written and states it in a lemma or a contract:

- **Cancel-my-booking is taken as an inquiry.** In the route, a message
  such as "إلغاء حجزي" ("cancel my booking") contains the inquiry word
  "حجزي", so it is taken as an inquiry and never reaches the cancellation
  branch (`ConversationRoute.CancelMyBookingIsInquiry`).
- **A blank name passes.** The name pattern `[ء-ي\s]{3,}` accepts a run of
  spaces. Trimming it leaves an empty name, and the route then treats the
  name as missing (`ConversationRoute.BlankRunErasesName`).
- **The OTP check ignores extra digits.** The route compares the first
  `\d{4}` of the message, so a longer number that begins with the code
  still confirms the booking (`ConversationRoute.LongerNumberConfirms`).
- **A failed cancel is reported as done.** The route does not look at what
  `cancelBooking` answers, so a booking that was not cancelled is still
  reported as cancelled (`ConversationRoute.CancelResultIgnored`).
- **The route's confirmation skips the code table.** The route's own
  `confirmBooking` never reads the verification-code table, so its OTP check
  has no expiry and no single use.
- **The assistant never marks the booking confirmed.** The engine of
  `lib/ai-utils.ts` compares the entered code with the one in the session
  first. When they match, it never calls `verifyOTP`, so the booking row
  stays `pending` in the database
  (`AssistantEngine.Assistant.HandleOtpVerification`).
- **The calendar date moves forward.** After a successful OTP submission,
  the booking calendar's selected date ends one day after the date it showed:
  the handler advances a copy of the date by one day in place and then stores
  that advanced copy, to make the month refetch run
  (`BookingCalendar.BookingCalendarView.HandleVerificationSubmit`).
- **An empty toast id clears every toast.** `dismiss("")` clears every
  toast, because the empty id is falsy (`Toasts.ToastList.Dismiss`).
- **A cancel error lingers.** The booking management card does not clear an
  earlier error before it cancels
  (`BookingManagement.BookingManagementView.HandleCancelBooking`).

## Model

| member | source | states |
|---|---|---|
| Patterns.IsoMatchShape | lib/ai-utils.ts:104 | a match of the ISO date pattern has the shape `dddd-dd-dd` |
| Patterns.DigitRunMatchShape | lib/ai-utils.ts:146 | a match of the phone pattern is a run of at least ten digits |
| Patterns.EmailMatchHasAt | lib/ai-utils.ts:147 | a match of the e-mail pattern holds an `@` after its first character |
| Patterns.DigitsMatchShape | lib/ai-utils.ts:236 | a match of `\d{n}` is exactly n digits |
| Patterns.SlashMatchNormalises | app/api/process-conversation/route.ts:58-66 | a `d/m/yyyy` match rewritten as year, zero-padded month and zero-padded day has ISO date shape |
| Patterns.IsoStringMatchesItself | app/api/availability/route.ts:20-21 | a string of ISO date shape is its own match of the date pattern |
| Calendar.IsoOfDayShape | components/admin/calendar-view.tsx:17 | formatting a day of a four-digit year gives a string of ISO date shape |
| Text.TrimEmptyIff | components/booking-management.tsx:31 | a string trims to empty exactly when all its characters are white space |
| Text.DecimalRoundTrip | lib/db.ts:31-34 | reading back the decimal text of a number gives the number |
| Responses.FailureText | components/booking-calendar.tsx:155-158 | a thrown request shows its message; a refusal shows the body's non-empty `error`, else the fallback |
| BookingStore.CheckDateAvailability | lib/db.ts:7-22 | a date is available exactly when the query did not fail and no confirmed booking is on it |
| BookingStore.OnlyConfirmedBlocks | lib/db.ts:9-16 | adding a pending or cancelled booking never changes availability |
| BookingStore.GetBookingBySecretCode | lib/db.ts:129-135 | the result is a row carrying the code, the first one; none exactly when no row carries it |
| BookingStore.CancelRows | lib/db.ts:137-146 | the rows keep their order; exactly the confirmed rows with the code become cancelled, nothing else changes |
| BookingStore.CancelTwice | lib/db.ts:137-146 | after a cancel no row with that code is cancellable, and a second cancel changes nothing |
| BookingStore.CancelOnlyConfirmed | lib/db.ts:138-144 | a row a cancel changed was confirmed with that code and differs from before only in its status |
| BookingStore.ConfirmRows | lib/db.ts:119-124 | exactly the row with that id becomes confirmed, nothing else changes |
| BookingStore.VerifyOtp | lib/db.ts:89-127 | no pending booking with the reference gives false; otherwise the first such booking decides: the call succeeds exactly when one of its codes has that OTP, is unexpired and unused, and then that booking is confirmed and one such code marked verified; a failure leaves the tables unchanged |
| BookingStore.VerifyOtpSingleUse | lib/db.ts:100-126 | with distinct references, a code that verified once does not verify again |
| BookingStore.VerifiedCodeIsSpent | lib/db.ts:100-117 | a success used a code that was usable then; once its expiry has passed no code passes |
| BookingStore.ConfirmedBlocksDate | lib/db.ts:119-124 | after a successful OTP check the booking's date is no longer available |
| BookingStore.Database.constructor | lib/db.ts:4 | the tables start empty |
| BookingStore.Database.RandomCode | lib/db.ts:31-34 | the drawn code is a decimal numeral of exactly that width without leading zero |
| BookingStore.Database.CreateBooking | lib/db.ts:24-63 | one pending row is appended under a fresh id, with a four-digit reference, a six-digit secret code and the price 250 by default |
| BookingStore.Database.CreateVerificationCode | lib/db.ts:65-87 | one unused four-digit code for the booking is appended, expiring 30 minutes after now |
| BookingStore.Database.VerifyOtpStep | lib/db.ts:89-127 | the answer and the new tables are those of `VerifyOtp` on the old tables |
| BookingStore.Database.CancelBooking | lib/db.ts:137-146 | the bookings become `CancelRows` of the old ones; the answer is true exactly when some row was cancellable |
| BookingStore.Database.GetAvailableDates | lib/db.ts:149-201 | one entry per day from start to end in order, available exactly when no confirmed booking is on it; every day is available when the query fails; none for a bad range |
| AvailabilityRoute.GenerateMockAvailabilityData | app/api/availability/route.ts:49-67 | one entry per day from start to end, dated consecutively; none when end is before start or a date is invalid |
| AvailabilityRoute.Get | app/api/availability/route.ts:3-46 | a missing parameter gives the missing-parameters error, a malformed one the format error, and an error always comes with no dates; otherwise the mock entries |
| ConversationRoute.NormalisedDate | app/api/process-conversation/route.ts:57-72 | no date exactly when neither pattern matches; the ISO match wins; a slash date is rewritten with padding; the result always has ISO shape |
| ConversationRoute.DateMatchFacts | app/api/process-conversation/route.ts:58-66 | either pattern's match is an ISO date string or a slash date of two short numbers and a year |
| ConversationRoute.DateStep | app/api/process-conversation/route.ts:57-72 | date collection calls nothing and keeps the record well-formed |
| ConversationRoute.InfoStep | app/api/process-conversation/route.ts:75-137 | information collection keeps the record well-formed and books only on the record's date |
| ConversationRoute.BookingAttempt | app/api/process-conversation/route.ts:96-135 | the availability query comes first; any booking is on the collected date; the four collected fields are kept |
| ConversationRoute.OtpAttempt | app/api/process-conversation/route.ts:140-164 | the OTP step inserts no booking and keeps the record well-formed |
| ConversationRoute.SecretCodeStep | app/api/process-conversation/route.ts:176-224 | the lookup step inserts no booking and keeps the record well-formed |
| ConversationRoute.CancellationAnswer | app/api/process-conversation/route.ts:227-250 | the cancellation answer inserts no booking and keeps the record well-formed |
| ConversationRoute.Process | app/api/process-conversation/route.ts:35-257 | every step keeps the fields each stage reads set |
| ConversationRoute.BookingIntentFirst | app/api/process-conversation/route.ts:46-54 | in `initial` a booking word starts date collection with no call, and only a booking word does |
| ConversationRoute.MyBookingStartsBooking | app/api/process-conversation/route.ts:167-173 | "حجزي" or "my booking" without a cancel word starts a booking, not an inquiry |
| ConversationRoute.InquiryWordsMentionBooking | app/api/process-conversation/route.ts:168 | each inquiry phrase contains a booking word |
| ConversationRoute.InquiryNeedsIstilam | app/api/process-conversation/route.ts:167-173 | the inquiry stage is reached exactly on an inquiry word without a booking word, and then, without a cancel word, only through "استعلام" |
| ConversationRoute.CancelMyBookingIsInquiry | app/api/process-conversation/route.ts:167-201 | "إلغاء" with "حجزي" lands in the inquiry stage, not in cancellation |
| ConversationRoute.CancelIntent | app/api/process-conversation/route.ts:198-201 | a cancel word without an inquiry word starts cancellation with no call |
| ConversationRoute.DateCollection | app/api/process-conversation/route.ts:57-72 | the stage advances exactly when one of the two date patterns matches, storing the normalised ISO date; otherwise nothing changes; nothing is called |
| ConversationRoute.FieldsAccumulate | app/api/process-conversation/route.ts:75-95 | each field found replaces the stored one and the others are kept; the date is untouched; services are called exactly when all four fields are present |
| ConversationRoute.ContactFieldsPersist | app/api/process-conversation/route.ts:77-86 | a set e-mail or phone stays set whatever the next message holds |
| ConversationRoute.BlankRunErasesName | app/api/process-conversation/route.ts:89-92 | a message of blanks stores an empty name, so the record is not complete |
| ConversationRoute.UnavailableDateBooksNothing | app/api/process-conversation/route.ts:98-103 | an unavailable date gives `date_unavailable` after only the availability query |
| ConversationRoute.BookingStored | app/api/process-conversation/route.ts:105-130 | a successful booking stores id, reference, secret code and OTP, waits for the OTP, and ends by e-mailing that code |
| ConversationRoute.BookingExceptionStoresNothing | app/api/process-conversation/route.ts:131-134 | an exception while booking gives `booking_error` with only the collected fields |
| ConversationRoute.BookedDateIsIso | app/api/process-conversation/route.ts:105-110 | every booking the route inserts is on a date of ISO shape |
| ConversationRoute.OtpExactMatch | app/api/process-conversation/route.ts:140-164 | the stage leaves OTP verification exactly when the first four digits equal the code, and is confirmed exactly when the confirmation also succeeds; otherwise nothing changes |
| ConversationRoute.LongerNumberConfirms | app/api/process-conversation/route.ts:141-143 | a number that begins with the code confirms the booking |
| ConversationRoute.SecretCodeOutcomes | app/api/process-conversation/route.ts:176-224 | without six digits nothing happens; otherwise one lookup, and the stage follows its answer: error, not found, found, or confirm cancellation with the code stored |
| ConversationRoute.AffirmativeFirst | app/api/process-conversation/route.ts:227-250 | a yes-word cancels even beside a no-word; a no-word alone aborts with no call; anything else waits |
| ConversationRoute.CancelResultIgnored | app/api/process-conversation/route.ts:234-236 | a cancel that changed no row is still reported as confirmed |
| ConversationRoute.ResetIgnoredMidFlow | app/api/process-conversation/route.ts:252-256 | in a collecting or confirming stage no message returns to `initial` |
| ConversationRoute.TerminalStagesWaitForReset | app/api/process-conversation/route.ts:252-256 | a terminal stage changes only on a reset word, which clears the record |
| ConversationRoute.ResetFromInitial | app/api/process-conversation/route.ts:252-256 | in `initial` a reset word alone clears the record, any other unrecognised message changes nothing |
| ConversationRoute.WithState | app/api/process-conversation/route.ts:19-23 | an unseen user gets the fresh record and every other record is kept |
| ConversationRoute.ConversationStore.constructor | app/api/process-conversation/route.ts:5-11 | the map of records starts empty |
| ConversationRoute.ConversationStore.Post | app/api/process-conversation/route.ts:14-33 | an unparsable body fails with no change; an unseen user is registered; a non-string field fails after that; otherwise the user's record becomes the step's result and the calls are the step's |
| ConversationRoute.ConversationStore.ProcessConversation | app/api/process-conversation/route.ts:35-257 | only the user's record changes, to `Process` of the old one, and the calls are its calls |
| ConversationRoute.ConversationStore.Dispatch | app/api/process-conversation/route.ts:46-256 | the stage dispatch computes `Process` |
| ConversationRoute.ConversationStore.CollectDate | app/api/process-conversation/route.ts:57-72 | the date branch computes `DateStep` |
| ConversationRoute.ConversationStore.CollectInfo | app/api/process-conversation/route.ts:75-137 | the information branch computes `InfoStep` |
| ConversationRoute.ConversationStore.TryBooking | app/api/process-conversation/route.ts:96-135 | the booking attempt computes `BookingAttempt` |
| ConversationRoute.ConversationStore.CheckOtp | app/api/process-conversation/route.ts:140-164 | the OTP branch computes `OtpAttempt` |
| ConversationRoute.ConversationStore.LookUpSecretCode | app/api/process-conversation/route.ts:176-224 | the lookup branches compute `SecretCodeStep` |
| ConversationRoute.ConversationStore.AnswerCancellation | app/api/process-conversation/route.ts:227-250 | the cancellation branch computes `CancellationAnswer` |
| AssistantEngine.DetectBookingIntent | lib/ai-utils.ts:403-415 | a message is a booking intent exactly when it contains at least two distinct keywords |
| AssistantEngine.CountMentioned | lib/ai-utils.ts:407-412 | the loop counts the keywords the message contains |
| AssistantEngine.KeywordsCountedOnce | lib/ai-utils.ts:405-414 | the count of contained keywords is the number of distinct keywords contained |
| AssistantEngine.MentionedAreMatching | lib/ai-utils.ts:408-412 | the set of counted keywords is the set of keywords the message contains |
| AssistantEngine.KeywordsDistinct | lib/ai-utils.ts:405 | the keyword list has no repeats |
| AssistantEngine.BookingWordIsIntent | lib/ai-utils.ts:405-414 | "booking" alone is an intent, because it also contains "book" |
| AssistantEngine.YesInAnyCaseConfirms | lib/ai-utils.ts:177 | "yes" in any letter case confirms both a booking and a cancellation |
| AssistantEngine.StatusNoteOf | lib/ai-utils.ts:325-353 | the note shows days left exactly for a confirmed future booking, "today" and "over" for the other confirmed ones, and one note per other status |
| AssistantEngine.UpdateKeepsOthers | lib/ai-utils.ts:81 | writing one user's record leaves every other record |
| AssistantEngine.InitialKeepsOthers | lib/ai-utils.ts:73-100 | the `initial` handler changes no other user's record |
| AssistantEngine.DateCollectionKeepsOthers | lib/ai-utils.ts:102-141 | the date handler changes no other user's record |
| AssistantEngine.InfoCollectionKeepsOthers | lib/ai-utils.ts:143-174 | the details handler changes no other user's record |
| AssistantEngine.ConfirmationKeepsOthers | lib/ai-utils.ts:176-231 | the confirmation handler changes no other user's record |
| AssistantEngine.OtpVerificationKeepsOthers | lib/ai-utils.ts:234-288 | the OTP handler changes no other user's record |
| AssistantEngine.BookingCheckKeepsOthers | lib/ai-utils.ts:290-368 | the lookup handler changes no other user's record |
| AssistantEngine.CancellationKeepsOthers | lib/ai-utils.ts:370-401 | the cancellation handler changes no other user's record |
| AssistantEngine.WithSession | lib/ai-utils.ts:39-43 | an unseen user gets the fresh record and every other record is kept |
| AssistantEngine.Assistant.constructor | lib/ai-utils.ts:22-34 | the map of records starts empty |
| AssistantEngine.Assistant.HandleUserMessage | lib/ai-utils.ts:37-71 | after registering the user, the stage's handler relation holds between old and new map, reply and calls; no other user's record changes |
| AssistantEngine.Assistant.OpenSession | lib/ai-utils.ts:39-43 | the map becomes `WithSession` of the old one |
| AssistantEngine.Assistant.RunHandler | lib/ai-utils.ts:46-70 | the dispatch runs the handler of the record's stage; a confirmed record replies with the welcome and changes nothing |
| AssistantEngine.Assistant.Store | lib/ai-utils.ts:81 | the user's record is replaced and the invariant kept |
| AssistantEngine.Assistant.Forget | lib/ai-utils.ts:181 | the user's record is deleted |
| AssistantEngine.Assistant.HandleInitialState | lib/ai-utils.ts:73-100 | an intent asks for a date, "حجز" with "تحقق" asks for the secret code, anything else greets; no call |
| AssistantEngine.Assistant.HandleDateCollection | lib/ai-utils.ts:102-141 | no ISO date or a past date asks again with no call; otherwise one availability query, and only an available date is stored and advances |
| AssistantEngine.Assistant.HandleInfoCollection | lib/ai-utils.ts:143-174 | all three fields found are stored trimmed and advance to confirmation; otherwise nothing changes; no call |
| AssistantEngine.Assistant.HandleBookingConfirmation | lib/ai-utils.ts:176-231 | no yes-word deletes the record; a failed insert keeps it; success stores reference, secret code and OTP and e-mails the code, showing it only if the e-mail failed |
| AssistantEngine.Assistant.HandleOtpVerification | lib/ai-utils.ts:234-288 | no four digits asks again; a code equal to the session's confirms without calling `verifyOTP`; another code is checked by `verifyOTP`, whose false keeps the stage and whose exception escapes |
| AssistantEngine.Assistant.HandleBookingCheck | lib/ai-utils.ts:290-368 | no six digits asks again; otherwise one lookup; a found booking is shown with its status note and cancellation is offered only for a confirmed future booking |
| AssistantEngine.Assistant.HandleBookingCancellation | lib/ai-utils.ts:370-401 | no yes-word deletes the record; otherwise one cancel, whose true deletes the record, whose false keeps it, and whose exception escapes |
| ChatInterface.TypingTime | components/chat-interface-modern.tsx:63 | the delay is 20 ms per character, clamped to between 1000 and 3000 |
| ChatInterface.TypingTimeMonotone | components/chat-interface-modern.tsx:63 | a longer reply never types faster |
| ChatInterface.Newest | components/chat-interface-modern.tsx:114 | the result is the last n elements, or all when fewer |
| ChatInterface.ContextWindow | components/chat-interface-modern.tsx:112-114 | the window is the last six non-system messages in their order (all of them when fewer), a suffix of the filtered list |
| ChatInterface.Lines | components/chat-interface-modern.tsx:115 | one labelled line per message, in order |
| ChatInterface.ContextEndsWithNewest | components/chat-interface-modern.tsx:112-116 | the context ends with the newest non-system message, after a blank line |
| ChatInterface.SystemMessagesIgnored | components/chat-interface-modern.tsx:113 | appending a system message leaves the context unchanged |
| ChatInterface.RepliesFor | components/chat-interface-modern.tsx:195-218 | the quick replies follow the first matching topic, in the order date, code, details, confirm, default |
| ChatInterface.SuggestedReplies | components/chat-interface-modern.tsx:190-193 | no replies without an assistant message, else the replies for the last one |
| ChatInterface.DateRepliesAreDates | components/chat-interface-modern.tsx:195-203 | the date replies are tomorrow's and next week's ISO dates |
| ChatInterface.CodeRepliesLookLikeOtps | components/chat-interface-modern.tsx:205-206 | the code replies are four digits, so sending one shows the e-mail indicator |
| ChatInterface.ChatSession.constructor | components/chat-interface-modern.tsx:22-35 | the chat starts with the welcome message and an empty input |
| ChatInterface.ChatSession.SetInput | components/chat-interface-modern.tsx:377 | only the input changes |
| ChatInterface.ChatSession.HandleSendMessage | components/chat-interface-modern.tsx:87-159 | a blank input does nothing; otherwise the message is appended, the input emptied, and either one error message is appended or typing of the reply begins, the context coming from the old messages |
| ChatInterface.ChatSession.Send | components/chat-interface-modern.tsx:98-158 | the e-mail indicator shows exactly for a four-digit message; a failed request appends one error message, a reply starts typing |
| ChatInterface.ChatSession.PostUserMessage | components/chat-interface-modern.tsx:91-100 | the user's message is appended and the input emptied |
| ChatInterface.ChatSession.AppendError | components/chat-interface-modern.tsx:147-155 | exactly one error message is appended |
| ChatInterface.ChatSession.SimulateTyping | components/chat-interface-modern.tsx:54-63 | typing starts with the reply pending and the clamped delay |
| ChatInterface.ChatSession.TypingElapsed | components/chat-interface-modern.tsx:65-78 | the pending reply is appended as an assistant message and typing stops |
| ChatInterface.ChatSession.Reset | components/chat-interface-modern.tsx:242-251 | the messages become the welcome message alone |
| BookingCalendar.WithField | components/booking-calendar.tsx:124-130 | the named form field takes the value |
| BookingCalendar.WithFieldReadsBack | components/booking-calendar.tsx:124-130 | a field reads back what was typed, and the last typing wins |
| BookingCalendar.WithFieldCommutes | components/booking-calendar.tsx:124-130 | typing into two different fields commutes |
| BookingCalendar.OtpNote | components/booking-calendar.tsx:169-171 | the OTP note is shown exactly for a non-empty code and contains it |
| BookingCalendar.BookingCalendarView.constructor | components/booking-calendar.tsx:28-50 | the calendar starts on today, with no dates, an empty form and every dialog closed |
| BookingCalendar.BookingCalendarView.FetchAvailableDates | components/booking-calendar.tsx:52-103 | the month around the shown date is queried; received dates are stored, a failure stores none with its error |
| BookingCalendar.BookingCalendarView.HandleDateSelect | components/booking-calendar.tsx:105-122 | a picked day is shown; the booking dialog opens only for a day not marked unavailable |
| BookingCalendar.BookingCalendarView.HandleInputChange | components/booking-calendar.tsx:124-130 | the form becomes `WithField` of the old form |
| BookingCalendar.BookingCalendarView.HandleOtpInput | components/booking-calendar.tsx:132-138 | only the OTP field of the verification data changes |
| BookingCalendar.BookingCalendarView.HandleBookingSubmit | components/booking-calendar.tsx:140-182 | the form is posted; success swaps the booking dialog for the verification dialog with the reference; failure shows the error text |
| BookingCalendar.BookingCalendarView.HandleVerificationSubmit | components/booking-calendar.tsx:184-228 | reference and code are posted; success stores the secret code, opens the success dialog and leaves the date one day after the old date; failure shows the error text |
| AvailabilityCalendar.EntryIndex | components/availability-calendar.tsx:94 | the index is that of the first entry with the day; none exactly when no entry has it |
| AvailabilityCalendar.IsDateUnavailable | components/availability-calendar.tsx:92-98 | a day is unavailable exactly when the first entry for it says so; a day without an entry is available |
| AvailabilityCalendar.ConsecutiveEntries | components/availability-calendar.tsx:92-98 | over a range of consecutive days the answer is the entry at the day's offset |
| AvailabilityCalendar.FetchedDates | components/availability-calendar.tsx:56-67 | received dates are kept, anything else gives none |
| AvailabilityCalendar.FetchError | components/availability-calendar.tsx:48-65 | an error is shown exactly when the request failed |
| AvailabilityCalendar.FailedFetchFreesEveryDay | components/availability-calendar.tsx:56-67 | after a failed fetch no day is marked unavailable |
| AvailabilityCalendar.DaysInMonth | components/availability-calendar.tsx:33 | a month has 28 to 31 days, and February has 29 exactly in leap years |
| AvailabilityCalendar.MonthOf | components/availability-calendar.tsx:32-33 | the range runs from the first to the last day of the day's month |
| AvailabilityCalendar.AvailabilityCalendarView.constructor | components/availability-calendar.tsx:18-21 | the calendar starts on today with no dates and no error |
| AvailabilityCalendar.AvailabilityCalendarView.FetchAvailableDates | components/availability-calendar.tsx:25-71 | the month around the shown date is queried; the dates and the error follow the answer |
| AvailabilityCalendar.AvailabilityCalendarView.HandleDateSelect | components/availability-calendar.tsx:76-90 | a day not marked unavailable is shown and passed to the parent; an unavailable one is not passed |
| BookingManagement.StatusLabel | components/booking-management.tsx:157-161 | confirmed and cancelled get their labels, every other status reads as waiting |
| BookingManagement.DaysLabel | components/booking-management.tsx:166-174 | a days line exactly for a confirmed booking: the days left while positive, else "today" |
| BookingManagement.CancelledOffersNoCancel | components/booking-management.tsx:181-187 | a booking once cancelled shows neither the cancel button nor the days line |
| BookingManagement.BookingManagementView.constructor | components/booking-management.tsx:22-26 | the card starts empty with no booking and no error |
| BookingManagement.BookingManagementView.SetSecretCode | components/booking-management.tsx:105 | only the typed code changes |
| BookingManagement.BookingManagementView.HandleSearch | components/booking-management.tsx:28-52 | a blank code sends nothing; otherwise the code is looked up; OK stores the answer's booking; not-OK clears it with the not-found text; an exception clears it with its message |
| BookingManagement.BookingManagementView.ClickCancel | components/booking-management.tsx:183 | the dialog opens only for a confirmed booking |
| BookingManagement.BookingManagementView.HandleCancelBooking | components/booking-management.tsx:54-81 | the typed code is deleted; OK marks the shown booking cancelled and closes the dialog; a failure keeps the booking and shows its message |
| AdminDashboard.ComputeStats | components/admin/dashboard.tsx:34-40 | the total is the row count, each status count is the number of rows with that status, the revenue is the price sum of the confirmed rows |
| AdminDashboard.StatusesPartition | components/admin/dashboard.tsx:35-37 | the three counted statuses and the rest add up to the row count |
| AdminDashboard.RevenueSnoc | components/admin/dashboard.tsx:38-40 | one more row raises the revenue by its price exactly when it is confirmed |
| AdminDashboard.StatsSnoc | components/admin/dashboard.tsx:34-40 | one more row raises the total and its own status count by one, and nothing else but the revenue |
| AdminDashboard.RevenueBounds | components/admin/dashboard.tsx:38-40 | with non-negative prices the revenue lies between zero and the sum of all prices |
| AdminDashboard.Dashboard.constructor | components/admin/dashboard.tsx:13-21 | the dashboard starts loading with no rows and zero stats |
| AdminDashboard.Dashboard.FetchBookings | components/admin/dashboard.tsx:23-54 | received rows replace the list and the stats; a failure keeps both |
| AdminBookingsList.FilteredBookings | components/admin/bookings-list.tsx:25-31 | the shown rows are a subsequence of the rows, all match the search, every matching row is shown, and there are as many as matching rows |
| AdminBookingsList.EmptySearchKeepsAll | components/admin/bookings-list.tsx:25-31 | an empty search shows every row |
| AdminBookingsList.NameSearchIgnoresCase | components/admin/bookings-list.tsx:27 | a name found under a term is found under its lower-case spelling |
| AdminBookingsList.ToLowerIdempotent | components/admin/bookings-list.tsx:27 | lower-casing twice is lower-casing once |
| AdminBookingsList.StatusBadge | components/admin/bookings-list.tsx:76-87 | each known status gets its colour and label, any other is shown as it is in grey |
| AdminBookingsList.ActionsOffered | components/admin/bookings-list.tsx:194-211 | every booking offers an action, and one neither confirmed nor cancelled offers both |
| AdminBookingsList.BookingsListView.constructor | components/admin/bookings-list.tsx:19-23 | no search, no selection, the dialog closed |
| AdminBookingsList.BookingsListView.SetSearchTerm | components/admin/bookings-list.tsx:96 | only the search term changes |
| AdminBookingsList.BookingsListView.HandleViewBooking | components/admin/bookings-list.tsx:33-36 | the dialog opens on the chosen row |
| AdminBookingsList.BookingsListView.HandleStatusChange | components/admin/bookings-list.tsx:38-65 | the new status is sent; OK closes the dialog and asks for a refresh; a failure shows its message and keeps the dialog |
| AdminCalendarView.DateKeyIsPrefix | components/admin/calendar-view.tsx:24 | the key of a date is its part before the first "T" |
| AdminCalendarView.Group | components/admin/calendar-view.tsx:23-30 | a key has a group exactly when some booking has that key |
| AdminCalendarView.GroupIsFilter | components/admin/calendar-view.tsx:23-30 | each group holds exactly its key's bookings, in order |
| AdminCalendarView.NoGroupNoRows | components/admin/calendar-view.tsx:23-30 | a key without a group has no bookings |
| AdminCalendarView.GroupSizesSum | components/admin/calendar-view.tsx:23-30 | the group sizes add up to the number of bookings |
| AdminCalendarView.BookingsForSelectedDate | components/admin/calendar-view.tsx:17-20 | none without a selection, else only bookings of the selected day, in order |
| AdminCalendarView.SelectedDateIsGroup | components/admin/calendar-view.tsx:17-30 | the list for a selected day is that day's group, or empty |
| AdminCalendarView.MarkerFor | components/admin/calendar-view.tsx:33-49 | no dot exactly for a day without bookings, a green dot exactly for a day with a confirmed one |
| AdminCalendarView.DayMarker | components/admin/calendar-view.tsx:33-49 | over the grouped rows, a dot exactly on days with a booking, green exactly when one is confirmed |
| AdminCalendarView.CalendarViewState.constructor | components/admin/calendar-view.tsx:13-14 | the view starts on today with no selection |
| AdminCalendarView.CalendarViewState.HandleDateSelect | components/admin/calendar-view.tsx:56-59 | the picked day is both shown and selected |
| Toasts.Patched | components/ui/use-toast.ts:51-56 | every key the patch gives replaces the toast's, the others and the id are kept |
| Toasts.Without | components/ui/use-toast.ts:47 | the toasts with other ids, in order, fewer by exactly those with the id |
| Toasts.Updated | components/ui/use-toast.ts:48-59 | same length and ids; exactly the toasts with the id are patched |
| Toasts.AddThenDismiss | components/ui/use-toast.ts:39-47 | dismissing a toast just added under an unused id gives the old list back |
| Toasts.DismissIdempotent | components/ui/use-toast.ts:47 | a second dismiss of the same id changes nothing |
| Toasts.UpdateUnusedId | components/ui/use-toast.ts:48-59 | updating an id no toast carries changes nothing |
| Toasts.HandleDismiss | components/ui/use-toast.ts:47 | a bound handle removes its toast, an unbound one does nothing |
| Toasts.HandleUpdate | components/ui/use-toast.ts:48-59 | a bound handle patches its toast, an unbound one does nothing |
| Toasts.DirectToast | components/ui/use-toast.ts:77-98 | the module-level `toast` returns an unbound handle whose dismiss changes no list |
| Toasts.ToastList.constructor | components/ui/use-toast.ts:17 | the list starts empty |
| Toasts.ToastList.AddToast | components/ui/use-toast.ts:19-39 | exactly one toast is appended under the drawn id, with variant default unless given |
| Toasts.ToastList.DismissById | components/ui/use-toast.ts:41-47 | the list becomes `Without` the id |
| Toasts.ToastList.Update | components/ui/use-toast.ts:48-59 | the list becomes `Updated` with the id and patch |
| Toasts.ToastList.Dismiss | components/ui/use-toast.ts:66-72 | a missing or empty id clears the list, any other removes its toasts |

## Left out

- Regular expressions are not run by an engine. Each pattern the core uses
  is a leftmost-match function over character classes (`Patterns`).
  Non-ASCII blank characters other than the ones `Text.IsJsSpace` lists are
  not modelled.
- `toLowerCase` lowers ASCII letters only. Arabic letters have no case, and
  other scripts are not modelled.
- Strings are sequences of characters. Differences between UTF-16 code
  units and characters (`length`, surrogate pairs) are not modelled.
- Dates are whole day numbers (`Calendar.Day`) in a proleptic Gregorian
  calendar. Time zones, the hour part of `Date`, and the UTC shift of
  `toISOString` are not modelled. Today and now are parameters.
- `formatDate` and `toLocaleDateString` (display only) are not modelled.
- `Math.random` is a nondeterministic choice in the ranges the source
  draws from: codes, references and the mock availability flags. Toast ids
  and message ids are parameters.
- SQL runs over in-memory row sequences. The database's own id sequences,
  `NOW()` and concurrent transactions are not modelled.
- Prices are whole numbers, not floating point.
- E-mail delivery, the language-model chat route and every HTTP request
  appear only as the answers they give (parameters). The reply texts of the
  engines are abstracted to the `Reply` datatype, which carries the values
  the templates interpolate. `generateResponse`'s wording is not modelled.
- Timers and concurrency are not modelled:
  - the typing timeout;
  - the quick-reply 100 ms delay;
  - the dashboard's five-minute refresh;
  - the toast's five-second auto-dismiss;
  - interleaved requests that could overwrite each other's state.

  Each timer's effect is a method the caller runs when it fires.
- React rendering, dialogs' `onOpenChange`, the toast's `action` node and
  the admin login/logout routes are not modelled.
- The HTTP plumbing routes (`app/api/booking`, `app/api/verify`,
  `app/api/chat`, `app/api/admin/*`) are not part of this model. They only
  forward to the modelled functions.
- `lib/email.ts` is not part of this model. An e-mail is the `Email` value
  a step passes to the `sendEmail` parameter.
- ConversationRoute: the route's local database helpers
  (app/api/process-conversation/route.ts:260-365) are the `RouteServices`
  parameter. Its `confirmBooking` is modelled as an oracle that ignores
  verification codes, as the source does.
- ConversationRoute.ConversationStore.ProcessConversation: the record
  object that the source mutates in place through the shared map reference
  is written back once at the end. This has the same final state.
- AssistantEngine.Assistant.HandleUserMessage: the same write-back-once
  stands for the source's in-place updates of the shared record.
- BookingCalendar.BookingCalendarView: `handleVerificationInputChange` is
  modelled for the OTP field only (`HandleOtpInput`), the only input the
  verification dialog has.
- AvailabilityCalendar.IsPastDate and AvailabilityCalendar.IsDisabled are
  predicates whose bodies are the day comparison and the disable rule they
  model. They carry no contract of their own.
- AvailabilityCalendar.MonthOf: the first and last day of a month are
  computed through the civil-date conversion, not through JavaScript's
  `Date` month arithmetic.
- ConversationRoute.BookedDateIsIso is proved by the contracts of the step
  functions alone, with no proof body of its own.
