/** The `GET /api/availability?start_date=…&end_date=…` route: parameter and
    format checks, then one mock entry per day of the range with a random
    availability flag. */
module AvailabilityRoute {
  import opened Wrappers
  import opened Patterns
  import opened Calendar

  datatype RouteError = MissingParameters | InvalidFormat

  /** The JSON body: an optional `error` and the `dates` array, which every
      response carries. */
  datatype Response = Response(error: Option<RouteError>, dates: seq<DateEntry>)

  /** A query parameter is present when it is given and not empty
      (JavaScript truthiness of `searchParams.get(...)`). */
  predicate IsGiven(p: Option<string>) {
    p.Some? && p.value != ""
  }

  /** `generateMockAvailabilityData`: the days from `startDate` to `endDate`
      inclusive, in ascending order, each with a random flag. An end before
      the start, or a date that does not denote a day, gives no entries. */
  method GenerateMockAvailabilityData(startDate: string, endDate: string) returns (result: seq<DateEntry>)
    requires IsIsoDateString(startDate) && IsIsoDateString(endDate)
    ensures (ParseIsoDay(startDate).None? || ParseIsoDay(endDate).None?
             || ParseIsoDay(endDate).value < ParseIsoDay(startDate).value) ==> result == []
    ensures ParseIsoDay(startDate).Some? && ParseIsoDay(endDate).Some?
            && ParseIsoDay(startDate).value <= ParseIsoDay(endDate).value ==>
              |result| == ParseIsoDay(endDate).value - ParseIsoDay(startDate).value + 1
    ensures forall k :: 0 <= k < |result| ==>
              ParseIsoDay(startDate).Some? && result[k].date == ParseIsoDay(startDate).value + k
  {
    result := [];
    var start := ParseIsoDay(startDate);
    var end := ParseIsoDay(endDate);
    if start.None? || end.None? {
      // An invalid date compares false with everything: the loop never runs.
      return;
    }
    var date := start.value;
    while date <= end.value
      invariant start.value <= date
      invariant date <= end.value + 1 || result == []
      invariant |result| == date - start.value
      invariant forall k :: 0 <= k < |result| ==> result[k].date == start.value + k
      decreases end.value - date
    {
      var isAvailable: bool :| true;
      result := result + [DateEntry(date, isAvailable)];
      date := date + 1;
    }
  }

  /** The route handler. */
  method Get(startDate: Option<string>, endDate: Option<string>) returns (r: Response)
    ensures !IsGiven(startDate) || !IsGiven(endDate) ==> r == Response(Some(MissingParameters), [])
    ensures (IsGiven(startDate) && IsGiven(endDate)
             && (!IsIsoDateString(startDate.value) || !IsIsoDateString(endDate.value)))
              ==> r == Response(Some(InvalidFormat), [])
    ensures (IsGiven(startDate) && IsGiven(endDate)
             && IsIsoDateString(startDate.value) && IsIsoDateString(endDate.value))
              ==> r.error == None
                  && (forall k :: 0 <= k < |r.dates| ==>
                        ParseIsoDay(startDate.value).Some?
                        && r.dates[k].date == ParseIsoDay(startDate.value).value + k)
                  && (ParseIsoDay(startDate.value).Some? && ParseIsoDay(endDate.value).Some?
                      ==> |r.dates| == if ParseIsoDay(endDate.value).value < ParseIsoDay(startDate.value).value then 0
                                       else ParseIsoDay(endDate.value).value - ParseIsoDay(startDate.value).value + 1)
                  && (ParseIsoDay(startDate.value).None? || ParseIsoDay(endDate.value).None? ==> r.dates == [])
    ensures r.error.Some? ==> r.dates == []
  {
    if !IsGiven(startDate) || !IsGiven(endDate) {
      return Response(Some(MissingParameters), []);
    }
    if !IsIsoDateString(startDate.value) || !IsIsoDateString(endDate.value) {
      return Response(Some(InvalidFormat), []);
    }
    var mockData := GenerateMockAvailabilityData(startDate.value, endDate.value);
    return Response(None, mockData);
  }
}
