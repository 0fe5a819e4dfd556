/** The admin calendar view: the bookings grouped by day, the marker drawn
    under each day, and the list shown for the selected day. */
module AdminCalendarView {
  import opened Wrappers
  import opened Text
  import opened Lists
  import opened Calendar
  import opened AdminDashboard

  /** `booking_date.split("T")[0]`. */
  function DateKey(bookingDate: string): string {
    Split(bookingDate, 'T')[0]
  }

  /** The key is the part of the date before its first "T", or the whole
      date when it has none. */
  lemma DateKeyIsPrefix(day: string, rest: string)
    requires 'T' !in day
    ensures DateKey(day + "T" + rest) == day
    ensures DateKey(day) == day
  {
    SplitPrefix(day, 'T', rest);
    SplitNone(day, 'T');
  }

  function KeyIs(key: string): BookingRow -> bool {
    (b: BookingRow) => DateKey(b.bookingDate) == key
  }

  /** The `bookingDates` reduce: each booking is pushed onto the list of its
      key, in input order. */
  function Group(rows: seq<BookingRow>): (g: map<string, seq<BookingRow>>)
    ensures forall key :: key in g <==> exists k :: 0 <= k < |rows| && DateKey(rows[k].bookingDate) == key
  {
    if |rows| == 0 then map[]
    else
      var init := rows[..|rows| - 1];
      var b := rows[|rows| - 1];
      var g := Group(init);
      var key := DateKey(b.bookingDate);
      assert forall k :: 0 <= k < |init| ==> init[k] == rows[k];
      g[key := (if key in g then g[key] else []) + [b]]
  }

  /** Each group holds exactly the bookings of its key, in input order. */
  lemma {:induction false} GroupIsFilter(rows: seq<BookingRow>, key: string)
    requires key in Group(rows)
    ensures Group(rows)[key] == Filter(rows, KeyIs(key))
  {
    var init := rows[..|rows| - 1];
    var b := rows[|rows| - 1];
    assert rows == init + [b];
    FilterSnoc(init, b, KeyIs(key));
    if key in Group(init) {
      GroupIsFilter(init, key);
    } else {
      NoGroupNoRows(init, key);
    }
  }

  /** A key without a group has no bookings. */
  lemma NoGroupNoRows(rows: seq<BookingRow>, key: string)
    requires key !in Group(rows)
    ensures Filter(rows, KeyIs(key)) == []
  {
    FilterLength(rows, KeyIs(key));
  }

  /** The total length of the lists a map holds under `keys`. */
  ghost function SumOver(g: map<string, seq<BookingRow>>, keys: set<string>): nat
    requires keys <= g.Keys
    decreases keys
  {
    if keys == {} then 0
    else
      var key :| key in keys;
      |g[key]| + SumOver(g, keys - {key})
  }

  /** The total does not depend on the key taken first. */
  lemma {:induction false} SumOverRemove(g: map<string, seq<BookingRow>>, keys: set<string>, key: string)
    requires keys <= g.Keys && key in keys
    ensures SumOver(g, keys) == |g[key]| + SumOver(g, keys - {key})
    decreases keys
  {
    var first :| first in keys && SumOver(g, keys) == |g[first]| + SumOver(g, keys - {first});
    if first != key {
      var rest := keys - {first};
      SumOverRemove(g, rest, key);
      SumOverRemove(g, keys - {key}, first);
      assert rest - {key} == (keys - {key}) - {first};
    }
  }

  /** Two maps that agree on `keys` have the same total there. */
  lemma {:induction false} SumOverAgree(g: map<string, seq<BookingRow>>, h: map<string, seq<BookingRow>>, keys: set<string>)
    requires keys <= g.Keys && keys <= h.Keys
    requires forall key :: key in keys ==> g[key] == h[key]
    ensures SumOver(g, keys) == SumOver(h, keys)
    decreases keys
  {
    if keys != {} {
      var key :| key in keys;
      SumOverRemove(g, keys, key);
      SumOverRemove(h, keys, key);
      SumOverAgree(g, h, keys - {key});
    }
  }

  /** Replacing the list under one key changes the total by the difference
      in length. */
  lemma SumOverUpdate(g: map<string, seq<BookingRow>>, key: string, v: seq<BookingRow>)
    ensures SumOver(g[key := v], g[key := v].Keys) + (if key in g then |g[key]| else 0)
            == SumOver(g, g.Keys) + |v|
  {
    var g' := g[key := v];
    SumOverRemove(g', g'.Keys, key);
    var others := g'.Keys - {key};
    assert others == g.Keys - {key};
    SumOverAgree(g', g, others);
    if key in g {
      SumOverRemove(g, g.Keys, key);
    } else {
      assert others == g.Keys;
    }
  }

  /** The group sizes add up to the number of bookings. */
  lemma {:induction false} GroupSizesSum(rows: seq<BookingRow>)
    ensures SumOver(Group(rows), Group(rows).Keys) == |rows|
  {
    if |rows| > 0 {
      var init := rows[..|rows| - 1];
      var b := rows[|rows| - 1];
      var g := Group(init);
      var key := DateKey(b.bookingDate);
      var v := (if key in g then g[key] else []) + [b];
      assert Group(rows) == g[key := v];
      GroupSizesSum(init);
      SumOverUpdate(g, key, v);
    }
  }

  /** `bookingsForSelectedDate`: nothing without a selection, otherwise the
      bookings whose key is the selected day's ISO date. */
  function BookingsForSelectedDate(rows: seq<BookingRow>, selected: Option<Day>): (r: seq<BookingRow>)
    ensures selected.None? ==> r == []
    ensures forall k :: 0 <= k < |r| ==> selected.Some? && DateKey(r[k].bookingDate) == IsoOfDay(selected.value)
    ensures IsSubsequence(r, rows)
  {
    if selected.None? then []
    else Filter(rows, KeyIs(IsoOfDay(selected.value)))
  }

  /** The list shown for a selected day is that day's group, or empty when
      the day has none. */
  lemma SelectedDateIsGroup(rows: seq<BookingRow>, d: Day)
    ensures var key := IsoOfDay(d);
            BookingsForSelectedDate(rows, Some(d)) == if key in Group(rows) then Group(rows)[key] else []
  {
    var key := IsoOfDay(d);
    if key in Group(rows) {
      GroupIsFilter(rows, key);
    } else {
      NoGroupNoRows(rows, key);
    }
  }

  /** The dot drawn under a day. */
  datatype Marker = NoMarker | GreenDot | YellowDot

  /** `renderDay`: a dot only for a day with bookings, green when one of
      them is confirmed. */
  function MarkerFor(groups: map<string, seq<BookingRow>>, key: string): (m: Marker)
    ensures m.NoMarker? <==> key !in groups || |groups[key]| == 0
    ensures m.GreenDot? <==> key in groups && Count(groups[key], IsConfirmed) > 0
  {
    if key in groups && |groups[key]| > 0 then
      (if Count(groups[key], IsConfirmed) > 0 then GreenDot else YellowDot)
    else
      NoMarker
  }

  /** Over the grouped bookings a marker shows exactly on the days with a
      booking, and it is green exactly when one of that day's bookings is
      confirmed. */
  lemma DayMarker(rows: seq<BookingRow>, key: string)
    ensures MarkerFor(Group(rows), key).NoMarker? <==>
              forall k :: 0 <= k < |rows| ==> DateKey(rows[k].bookingDate) != key
    ensures MarkerFor(Group(rows), key).GreenDot? <==>
              exists k :: 0 <= k < |rows| && DateKey(rows[k].bookingDate) == key && IsConfirmed(rows[k])
  {
    var g := Group(rows);
    if key in g {
      GroupIsFilter(rows, key);
      DayHasBookings(rows, key);
      DayHasConfirmed(rows, key);
    }
  }

  /** A day's group is empty exactly when no booking has its key. */
  lemma DayHasBookings(rows: seq<BookingRow>, key: string)
    ensures |Filter(rows, KeyIs(key))| == 0 <==> forall k :: 0 <= k < |rows| ==> DateKey(rows[k].bookingDate) != key
  {
    FilterLength(rows, KeyIs(key));
    assert forall k :: 0 <= k < |rows| ==> (KeyIs(key)(rows[k]) <==> DateKey(rows[k].bookingDate) == key);
  }

  /** A day's group holds a confirmed booking exactly when some booking
      with its key is confirmed. */
  lemma DayHasConfirmed(rows: seq<BookingRow>, key: string)
    ensures Count(Filter(rows, KeyIs(key)), IsConfirmed) > 0 <==>
              exists k :: 0 <= k < |rows| && DateKey(rows[k].bookingDate) == key && IsConfirmed(rows[k])
  {
    var kept := Filter(rows, KeyIs(key));
    FilterAny(rows, KeyIs(key), IsConfirmed);
    assert Count(kept, IsConfirmed) > 0 <==> exists j :: 0 <= j < |kept| && IsConfirmed(kept[j]);
  }

  class CalendarViewState {
    var date: Option<Day>
    var selectedDate: Option<Day>

    constructor (today: Day)
      ensures date == Some(today) && selectedDate == None
    {
      date := Some(today);
      selectedDate := None;
    }

    /** `handleDateSelect`: the picked day, or none, is both shown and
        selected. */
    method HandleDateSelect(d: Option<Day>)
      modifies this
      ensures date == d && selectedDate == d
    {
      date := d;
      selectedDate := d;
    }
  }
}
