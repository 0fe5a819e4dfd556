/** The read-only availability calendar: the month it asks the
    availability route for, how it reads the answer, which days it
    disables and what a click on a day does. The booking calendar reads
    the availability list the same way and uses the same functions. */
module AvailabilityCalendar {
  import opened Wrappers
  import opened Text
  import opened Lists
  import opened Calendar

  // -----------------------------------------------------------------------
  // The availability list

  /** `availableDates.find(d => d.date === dateString)`, as a position. */
  function EntryIndex(entries: seq<DateEntry>, d: Day): (r: Option<nat>)
    ensures r.Some? ==> r.value < |entries| && entries[r.value].date == d
    ensures r.Some? ==> forall j :: 0 <= j < r.value ==> entries[j].date != d
    ensures r.None? <==> forall k :: 0 <= k < |entries| ==> entries[k].date != d
  {
    FirstWhere(entries, (e: DateEntry) => e.date == d)
  }

  /** `isDateUnavailable`: the first entry for the day says it is taken; a
      day the list does not mention is available. */
  function IsDateUnavailable(entries: seq<DateEntry>, d: Day): (r: bool)
    ensures r <==> exists k :: 0 <= k < |entries| && entries[k].date == d && !entries[k].available
                           && (forall j :: 0 <= j < k ==> entries[j].date != d)
  {
    match EntryIndex(entries, d)
    case None => false
    case Some(k) =>
      if !entries[k].available then true
      else
        assert forall k' :: (0 <= k' < |entries| && entries[k'].date == d
                 && (forall j :: 0 <= j < k' ==> entries[j].date != d)) ==> k' == k;
        false
  }

  /** Over a list holding one entry per day from `first` on (as the
      availability route builds it), a day of the range is unavailable
      exactly when its own entry says so. */
  lemma ConsecutiveEntries(entries: seq<DateEntry>, first: Day, d: Day)
    requires forall k :: 0 <= k < |entries| ==> entries[k].date == first + k
    requires first <= d < first + |entries|
    ensures IsDateUnavailable(entries, d) <==> !entries[d - first].available
  {
    var k := d - first;
    assert entries[k].date == d;
    assert forall j :: 0 <= j < k ==> entries[j].date != d;
  }

  /** The `disabled` matchers of the calendar: past days and unavailable
      days cannot be clicked. */
  predicate IsDisabled(entries: seq<DateEntry>, d: Day, today: Day) {
    IsPastDate(d, today) || IsDateUnavailable(entries, d)
  }

  /** `isPastDate`: strictly before today's midnight. */
  predicate IsPastDate(d: Day, today: Day) {
    d < today
  }

  // -----------------------------------------------------------------------
  // Fetching the month

  /** What the availability route's answer turned out to be: the request
      threw, the status was not OK, or a JSON body arrived whose `dates` is
      an array (`Some`) or is not (`None`). */
  datatype FetchOutcome =
    | NetworkError(message: string)
    | HttpError(status: nat)
    | Received(dates: Option<seq<DateEntry>>)

  /** The list kept after a fetch: the array received, otherwise empty. */
  function FetchedDates(outcome: FetchOutcome): (r: seq<DateEntry>)
    ensures outcome.Received? && outcome.dates.Some? ==> r == outcome.dates.value
    ensures !(outcome.Received? && outcome.dates.Some?) ==> r == []
  {
    match outcome
    case Received(Some(dates)) => dates
    case _ => []
  }

  /** The error shown after a fetch: the message of what was thrown; a body
      without a `dates` array shows none. */
  function FetchError(outcome: FetchOutcome): (r: Option<string>)
    ensures r.None? <==> outcome.Received?
  {
    match outcome
    case NetworkError(message) => Some(message)
    case HttpError(status) => Some("Server responded with status: " + Decimal(status))
    case Received(_) => None
  }

  /** After a failed fetch, or one without an array, no day is unavailable. */
  lemma FailedFetchFreesEveryDay(outcome: FetchOutcome, d: Day)
    requires !(outcome.Received? && outcome.dates.Some?)
    ensures !IsDateUnavailable(FetchedDates(outcome), d)
  {
  }

  predicate IsLeapYear(y: int) {
    y % 4 == 0 && (y % 100 != 0 || y % 400 == 0)
  }

  function DaysInMonth(y: int, m: int): (n: int)
    requires 1 <= m <= 12
    ensures 28 <= n <= 31
    ensures m == 2 ==> (n == 29 <==> IsLeapYear(y))
  {
    if m == 2 then (if IsLeapYear(y) then 29 else 28)
    else if m == 4 || m == 6 || m == 9 || m == 11 then 30
    else 31
  }

  /** The `start_date` and `end_date` of a fetch. */
  datatype MonthRange = MonthRange(start: Day, end: Day)

  /** `new Date(y, m, 1)` and `new Date(y, m + 1, 0)` for the month of day
      `d`: its first day and its last. */
  function MonthOf(d: Day): (r: MonthRange)
    ensures r.start <= d
    ensures r.start + 27 <= r.end <= r.start + 30
    ensures var c := CivilFromDays(d);
            d - r.start == c.day - 1 && r.end - r.start == DaysInMonth(c.year, c.month) - 1
  {
    var c := CivilFromDays(d);
    var start := d - (c.day - 1);
    MonthRange(start, start + DaysInMonth(c.year, c.month) - 1)
  }

  // -----------------------------------------------------------------------
  // The component

  class AvailabilityCalendarView {
    var date: Day
    var availableDates: seq<DateEntry>
    var isLoading: bool
    var error: Option<string>

    /** Mounted on `today`, with an empty list. */
    constructor (today: Day)
      ensures date == today && availableDates == [] && !isLoading && error == None
    {
      date := today;
      availableDates := [];
      isLoading := false;
      error := None;
    }

    /** The effect that runs when `date` changes: it asks for the month of
        `date` (returned as `query`) and stores what `outcome` carries. */
    method FetchAvailableDates(outcome: FetchOutcome) returns (query: MonthRange)
      modifies this
      ensures query == MonthOf(date) && date == old(date)
      ensures availableDates == FetchedDates(outcome)
      ensures error == FetchError(outcome)
      ensures !isLoading
    {
      query := MonthOf(date);
      isLoading := true;
      error := None;
      match outcome {
        case NetworkError(message) =>
          error := Some(message);
          availableDates := [];
        case HttpError(status) =>
          error := Some("Server responded with status: " + Decimal(status));
          availableDates := [];
        case Received(dates) =>
          if dates.Some? {
            availableDates := dates.value;
          } else {
            availableDates := [];
          }
      }
      isLoading := false;
    }

    /** `handleDateSelect`: a click on an available day (one the list does
        not mark unavailable) selects it and is passed on to `onDateSelect`
        (returned as `notified`); any other click changes nothing. */
    method HandleDateSelect(selected: Option<Day>) returns (notified: Option<Day>)
      modifies this
      ensures selected.None? ==> notified == None && date == old(date)
      ensures selected.Some? ==>
                (notified.Some? <==> !IsDateUnavailable(availableDates, selected.value))
                && (notified.Some? ==> notified.value == selected.value && date == selected.value)
                && (notified.None? ==> date == old(date))
      ensures availableDates == old(availableDates) && isLoading == old(isLoading) && error == old(error)
    {
      notified := None;
      if selected.None? {
        return;
      }
      var day := selected.value;
      var isAvailable := match EntryIndex(availableDates, day)
                         case Some(k) => availableDates[k].available
                         case None => true;
      if isAvailable {
        date := day;
        notified := Some(day);
      }
    }
  }
}
