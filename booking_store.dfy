/** The `bookings` and `verification_codes` tables of lib/db.ts, held in
    memory, and the operations the application runs on them. A row is
    picked "first" in table order where SQL returns rows in an unspecified
    order. */
module BookingStore {
  import opened Wrappers
  import opened Text
  import opened Lists
  import opened Calendar

  datatype Status = Pending | Confirmed | Cancelled

  datatype Booking = Booking(
    id: nat,
    reference: string,
    customerName: string,
    customerPhone: string,
    date: Day,
    price: int,
    status: Status,
    secretCode: string)

  datatype VerificationCode = VerificationCode(
    id: nat,
    bookingId: nat,
    otpCode: string,
    expiresAt: int,   // milliseconds since the epoch
    verified: bool)

  const DefaultPrice: int := 250
  /** Thirty minutes in milliseconds. */
  const OtpLifetime: int := 30 * 60 * 1000

  /** The text of `Math.floor(10^(w-1) + Math.random() * 9·10^(w-1))`: a
      number of exactly `width` digits. */
  predicate IsCodeText(s: string, width: nat) {
    width >= 1 && |s| == width && AllDigits(s)
    && Pow10(width - 1) <= DecimalValue(s) < Pow10(width)
  }

  /** Row identifiers are strictly increasing in table order and below the
      next value of the identifier sequence. */
  ghost predicate IdsIncreasing(ids: seq<nat>, next: nat) {
    (forall i, j :: 0 <= i < j < |ids| ==> ids[i] < ids[j])
    && forall k :: 0 <= k < |ids| ==> ids[k] < next
  }

  function BookingIds(rows: seq<Booking>): (ids: seq<nat>)
    ensures |ids| == |rows| && forall k :: 0 <= k < |rows| ==> ids[k] == rows[k].id
  {
    seq(|rows|, k requires 0 <= k < |rows| => rows[k].id)
  }

  function CodeIds(rows: seq<VerificationCode>): (ids: seq<nat>)
    ensures |ids| == |rows| && forall k :: 0 <= k < |rows| ==> ids[k] == rows[k].id
  {
    seq(|rows|, k requires 0 <= k < |rows| => rows[k].id)
  }

  // -----------------------------------------------------------------------
  // Queries

  predicate IsConfirmedOn(b: Booking, date: Day) {
    b.date == date && b.status == Confirmed
  }

  /** `checkDateAvailability`: `SELECT COUNT(*) ... WHERE booking_date = date
      AND status = 'confirmed'` compared with 0; an error in the query makes
      the date unavailable. */
  function CheckDateAvailability(rows: seq<Booking>, date: Day, queryFailed: bool): (r: bool)
    ensures r <==> !queryFailed && forall k :: 0 <= k < |rows| ==> !IsConfirmedOn(rows[k], date)
  {
    !queryFailed && Count(rows, b => IsConfirmedOn(b, date)) == 0
  }

  /** Pending and cancelled bookings never block a date. */
  lemma OnlyConfirmedBlocks(rows: seq<Booking>, b: Booking, date: Day, queryFailed: bool)
    requires b.status != Confirmed
    ensures CheckDateAvailability(rows + [b], date, queryFailed)
            == CheckDateAvailability(rows, date, queryFailed)
  {
    var rows' := rows + [b];
    assert forall k :: 0 <= k < |rows| ==> rows'[k] == rows[k];
  }

  /** `getBookingBySecretCode`: the first row with that secret code, or null. */
  function GetBookingBySecretCode(rows: seq<Booking>, secretCode: string): (r: Option<Booking>)
    ensures r.Some? ==> r.value in rows && r.value.secretCode == secretCode
    ensures r.Some? ==> exists i :: 0 <= i < |rows| && rows[i] == r.value
                          && forall k :: 0 <= k < i ==> rows[k].secretCode != secretCode
    ensures r.None? <==> forall k :: 0 <= k < |rows| ==> rows[k].secretCode != secretCode
  {
    var i := FirstWhere(rows, (b: Booking) => b.secretCode == secretCode);
    if i.Some? then Some(rows[i.value]) else None
  }

  // -----------------------------------------------------------------------
  // Updates, as functions of the table before the statement

  predicate IsCancellable(b: Booking, secretCode: string) {
    b.secretCode == secretCode && b.status == Confirmed
  }

  /** `UPDATE bookings SET status = 'cancelled' WHERE secret_code = s AND
      status = 'confirmed'`. */
  function CancelRows(rows: seq<Booking>, secretCode: string): (r: seq<Booking>)
    ensures |r| == |rows|
    ensures forall k :: 0 <= k < |rows| ==>
              r[k] == if IsCancellable(rows[k], secretCode) then rows[k].(status := Cancelled) else rows[k]
  {
    seq(|rows|, k requires 0 <= k < |rows| =>
      if IsCancellable(rows[k], secretCode) then rows[k].(status := Cancelled) else rows[k])
  }

  /** After a cancel no row is left that the same cancel would change: a
      second cancel reports nothing changed and changes nothing. */
  lemma CancelTwice(rows: seq<Booking>, secretCode: string)
    ensures Count(CancelRows(rows, secretCode), b => IsCancellable(b, secretCode)) == 0
    ensures CancelRows(CancelRows(rows, secretCode), secretCode) == CancelRows(rows, secretCode)
  {
  }

  /** A cancel only ever takes a confirmed booking to cancelled. */
  lemma CancelOnlyConfirmed(rows: seq<Booking>, secretCode: string, k: nat)
    requires k < |rows| && CancelRows(rows, secretCode)[k] != rows[k]
    ensures rows[k].status == Confirmed && rows[k].secretCode == secretCode
    ensures CancelRows(rows, secretCode)[k] == rows[k].(status := Cancelled)
  {
  }

  /** `UPDATE bookings SET status = 'confirmed' WHERE id = bookingId`. */
  function ConfirmRows(rows: seq<Booking>, bookingId: nat): (r: seq<Booking>)
    ensures |r| == |rows|
    ensures forall k :: 0 <= k < |rows| ==>
              r[k] == if rows[k].id == bookingId then rows[k].(status := Confirmed) else rows[k]
  {
    seq(|rows|, k requires 0 <= k < |rows| =>
      if rows[k].id == bookingId then rows[k].(status := Confirmed) else rows[k])
  }

  predicate IsPendingWith(b: Booking, reference: string) {
    b.reference == reference && b.status == Pending
  }

  predicate IsUsable(c: VerificationCode, bookingId: nat, otpCode: string, now: int) {
    c.bookingId == bookingId && c.otpCode == otpCode && c.expiresAt > now && !c.verified
  }

  datatype Tables = Tables(bookings: seq<Booking>, codes: seq<VerificationCode>)

  datatype VerifyOutcome = VerifyOutcome(ok: bool, after: Tables)

  /** `verifyOTP(reference, otp)` at time `now`: find the pending booking
      with that reference, then an unexpired, unused code of that booking
      with that OTP; on success the code is marked used and the booking
      confirmed. */
  function VerifyOtp(t: Tables, reference: string, otpCode: string, now: int): (r: VerifyOutcome)
    // No pending booking has that reference: false, nothing changes.
    ensures (forall k :: 0 <= k < |t.bookings| ==> !IsPendingWith(t.bookings[k], reference))
              ==> !r.ok && r.after == t
    // Otherwise the first pending booking with that reference decides: the
    // call succeeds exactly when one of its codes is usable with that OTP now,
    // and it is that booking which is confirmed.
    ensures match FirstWhere(t.bookings, b => IsPendingWith(b, reference))
              case None => !r.ok
              case Some(i) =>
                (r.ok <==> exists c :: 0 <= c < |t.codes| && IsUsable(t.codes[c], t.bookings[i].id, otpCode, now))
                && (r.ok ==> r.after.bookings == ConfirmRows(t.bookings, t.bookings[i].id))
    ensures !r.ok ==> r.after == t
    // Success consumes exactly one usable code and confirms the booking it
    // belongs to, which was pending with that reference.
    ensures r.ok ==> exists i, c ::
              0 <= i < |t.bookings| && 0 <= c < |t.codes|
              && IsPendingWith(t.bookings[i], reference)
              && IsUsable(t.codes[c], t.bookings[i].id, otpCode, now)
              && r.after.codes == t.codes[c := t.codes[c].(verified := true)]
              && r.after.bookings == ConfirmRows(t.bookings, t.bookings[i].id)
  {
    match FirstWhere(t.bookings, b => IsPendingWith(b, reference))
    case None => VerifyOutcome(false, t)
    case Some(i) =>
      var id := t.bookings[i].id;
      match FirstWhere(t.codes, c => IsUsable(c, id, otpCode, now))
      case None => VerifyOutcome(false, t)
      case Some(c) =>
        VerifyOutcome(true, Tables(ConfirmRows(t.bookings, id), t.codes[c := t.codes[c].(verified := true)]))
  }

  /** A code is single-use: once a verification has succeeded, the same
      call fails when no other booking carries the same reference. */
  lemma VerifyOtpSingleUse(t: Tables, reference: string, otpCode: string, now: int)
    requires forall i, j ::
               (0 <= i < |t.bookings| && 0 <= j < |t.bookings|
                && t.bookings[i].reference == reference && t.bookings[j].reference == reference) ==> i == j
    requires VerifyOtp(t, reference, otpCode, now).ok
    ensures !VerifyOtp(VerifyOtp(t, reference, otpCode, now).after, reference, otpCode, now).ok
  {
    var t' := VerifyOtp(t, reference, otpCode, now).after;
    var i, c :| 0 <= i < |t.bookings| && 0 <= c < |t.codes|
              && IsPendingWith(t.bookings[i], reference)
              && IsUsable(t.codes[c], t.bookings[i].id, otpCode, now)
              && t'.codes == t.codes[c := t.codes[c].(verified := true)]
              && t'.bookings == ConfirmRows(t.bookings, t.bookings[i].id);
    forall k | 0 <= k < |t'.bookings| ensures !IsPendingWith(t'.bookings[k], reference) {
      if t.bookings[k].reference == reference {
        assert k == i;
      }
    }
  }

  /** Whatever the tables, the consumed code row no longer passes later,
      and a code stops passing once its expiry time is reached. */
  lemma VerifiedCodeIsSpent(t: Tables, reference: string, otpCode: string, now: int, later: int, b: nat)
    requires VerifyOtp(t, reference, otpCode, now).ok
    ensures exists c :: 0 <= c < |t.codes| && IsUsable(t.codes[c], t.codes[c].bookingId, otpCode, now)
              && !IsUsable(VerifyOtp(t, reference, otpCode, now).after.codes[c], b, otpCode, later)
    ensures forall k :: 0 <= k < |t.codes| && later >= t.codes[k].expiresAt
              ==> !IsUsable(t.codes[k], b, otpCode, later)
  {
  }

  /** A confirmed booking blocks its date. */
  lemma ConfirmedBlocksDate(t: Tables, reference: string, otpCode: string, now: int)
    requires VerifyOtp(t, reference, otpCode, now).ok
    ensures exists i :: 0 <= i < |t.bookings| && t.bookings[i].reference == reference
              && !CheckDateAvailability(VerifyOtp(t, reference, otpCode, now).after.bookings, t.bookings[i].date, false)
  {
    var t' := VerifyOtp(t, reference, otpCode, now).after;
    var i :| 0 <= i < |t.bookings| && IsPendingWith(t.bookings[i], reference)
              && t'.bookings == ConfirmRows(t.bookings, t.bookings[i].id);
    assert ConfirmRows(t.bookings, t.bookings[i].id)[i] == t.bookings[i].(status := Confirmed);
    assert IsConfirmedOn(t'.bookings[i], t.bookings[i].date);
  }

  // -----------------------------------------------------------------------
  // The database

  class Database {
    var bookings: seq<Booking>
    var codes: seq<VerificationCode>
    /** The next values of the `SERIAL` identifier columns. */
    var nextBookingId: nat
    var nextCodeId: nat

    ghost predicate Valid()
      reads this
    {
      IdsIncreasing(BookingIds(bookings), nextBookingId)
      && IdsIncreasing(CodeIds(codes), nextCodeId)
    }

    constructor ()
      ensures Valid()
      ensures bookings == [] && codes == []
    {
      bookings := [];
      codes := [];
      nextBookingId := 1;
      nextCodeId := 1;
    }

    /** The text of `Math.floor(10^(w-1) + Math.random() * 9·10^(w-1))`. */
    static method RandomCode(width: nat) returns (s: string)
      requires width >= 1
      ensures IsCodeText(s, width)
    {
      assert Pow10(width) == 10 * Pow10(width - 1);
      var v: nat :| Pow10(width - 1) <= v < Pow10(width);
      DecimalLength(v, width);
      DecimalRoundTrip(v);
      s := Decimal(v);
    }

    /** `createBooking`: one new pending row with a random 4-digit
        reference and 6-digit secret code, neither checked for uniqueness. */
    method CreateBooking(customerName: string, customerPhone: string, date: Day, price: int := DefaultPrice)
      returns (bookingId: nat, reference: string, secretCode: string)
      requires Valid()
      modifies this
      ensures Valid()
      ensures bookingId == old(nextBookingId)
      ensures IsCodeText(reference, 4) && IsCodeText(secretCode, 6)
      ensures bookings == old(bookings)
                + [Booking(bookingId, reference, customerName, customerPhone, date, price, Pending, secretCode)]
      ensures codes == old(codes) && nextCodeId == old(nextCodeId)
    {
      reference := RandomCode(4);
      secretCode := RandomCode(6);
      bookingId := nextBookingId;
      bookings := bookings + [Booking(bookingId, reference, customerName, customerPhone, date, price, Pending, secretCode)];
      nextBookingId := nextBookingId + 1;
      assert BookingIds(bookings) == BookingIds(old(bookings)) + [bookingId];
    }

    /** `createVerificationCode`: one new unused code row for the booking,
        with a random 4-digit OTP that expires thirty minutes from `now`. */
    method CreateVerificationCode(bookingId: nat, now: int) returns (otpCode: string)
      requires Valid()
      modifies this
      ensures Valid()
      ensures IsCodeText(otpCode, 4)
      ensures codes == old(codes)
                + [VerificationCode(old(nextCodeId), bookingId, otpCode, now + OtpLifetime, false)]
      ensures bookings == old(bookings) && nextBookingId == old(nextBookingId)
    {
      otpCode := RandomCode(4);
      codes := codes + [VerificationCode(nextCodeId, bookingId, otpCode, now + OtpLifetime, false)];
      assert CodeIds(codes) == CodeIds(old(codes)) + [nextCodeId];
      nextCodeId := nextCodeId + 1;
    }

    /** `verifyOTP` against the tables, at time `now`. */
    method VerifyOtpStep(reference: string, otpCode: string, now: int) returns (ok: bool)
      requires Valid()
      modifies this
      ensures Valid()
      ensures VerifyOtp(old(Tables(bookings, codes)), reference, otpCode, now)
              == VerifyOutcome(ok, Tables(bookings, codes))
      ensures nextBookingId == old(nextBookingId) && nextCodeId == old(nextCodeId)
    {
      var found := FirstWhere(bookings, b => IsPendingWith(b, reference));
      if found.None? {
        return false;
      }
      var id := bookings[found.value].id;
      var verification := FirstWhere(codes, c => IsUsable(c, id, otpCode, now));
      if verification.None? {
        return false;
      }
      var c := verification.value;
      codes := codes[c := codes[c].(verified := true)];
      assert CodeIds(codes) == CodeIds(old(codes));
      bookings := ConfirmRows(bookings, id);
      assert BookingIds(bookings) == BookingIds(old(bookings));
      ok := true;
    }

    /** `cancelBooking`: cancels the confirmed rows with that secret code and
        reports whether there was any. */
    method CancelBooking(secretCode: string) returns (changed: bool)
      requires Valid()
      modifies this
      ensures Valid()
      ensures bookings == CancelRows(old(bookings), secretCode)
      ensures changed <==> exists k :: 0 <= k < |old(bookings)| && IsCancellable(old(bookings)[k], secretCode)
      ensures codes == old(codes) && nextBookingId == old(nextBookingId) && nextCodeId == old(nextCodeId)
    {
      var count := Count(bookings, b => IsCancellable(b, secretCode));
      bookings := CancelRows(bookings, secretCode);
      assert BookingIds(bookings) == BookingIds(old(bookings));
      changed := count > 0;
    }

    /** `getAvailableDates(start, end)`: one entry per day from `start` to
        `end`, unavailable where a confirmed booking falls; `None` stands for
        a date that does not parse. If the booked-dates query fails, every
        entry stays available. */
    method GetAvailableDates(start: Option<Day>, end: Option<Day>, queryFailed: bool)
      returns (entries: seq<DateEntry>)
      ensures start.None? || end.None? || end.value < start.value ==> entries == []
      ensures start.Some? && end.Some? && start.value <= end.value ==>
                |entries| == end.value - start.value + 1
      ensures forall k :: 0 <= k < |entries| ==> start.Some? && entries[k].date == start.value + k
      ensures forall k :: 0 <= k < |entries| ==>
                (entries[k].available <==> queryFailed || CheckDateAvailability(bookings, entries[k].date, false))
    {
      entries := [];
      if start.None? || end.None? {
        return;
      }
      var first := start.value;
      var last := end.value;
      if last < first {
        return;
      }
      var date := first;
      while date <= last
        invariant first <= date <= last + 1
        invariant |entries| == date - first
        invariant forall k :: 0 <= k < |entries| ==> entries[k] == DateEntry(first + k, true)
        decreases last - date
      {
        entries := entries + [DateEntry(date, true)];
        date := date + 1;
      }
      if queryFailed {
        return;
      }
      var booked := Filter(bookings, (b: Booking) => b.status == Confirmed);
      var i := 0;
      while i < |booked|
        invariant 0 <= i <= |booked|
        invariant |entries| == last - first + 1
        invariant forall k :: 0 <= k < |entries| ==> entries[k].date == first + k
        invariant forall k :: 0 <= k < |entries| ==>
                    (entries[k].available <==> forall j :: 0 <= j < i ==> booked[j].date != first + k)
      {
        var d := booked[i].date;
        if first <= d <= last {
          entries := entries[d - first := DateEntry(d, false)];
        }
        i := i + 1;
      }
      FilterMembers(bookings, (b: Booking) => b.status == Confirmed);
      forall k | 0 <= k < |entries|
        ensures entries[k].available <==> CheckDateAvailability(bookings, entries[k].date, false)
      {
        var day := first + k;
        if exists j :: 0 <= j < |bookings| && IsConfirmedOn(bookings[j], day) {
          var j :| 0 <= j < |bookings| && IsConfirmedOn(bookings[j], day);
          assert bookings[j] in booked;
        }
      }
    }
  }
}
