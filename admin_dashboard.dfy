/** The admin dashboard: it fetches every booking row and derives the
    counts and the revenue shown on its cards. The rows are shared with
    the bookings list and the calendar view. */
module AdminDashboard {
  import opened Lists

  /** A row of the bookings table as the admin route returns it. The
      price is a whole amount. */
  datatype BookingRow = BookingRow(id: nat, bookingReference: string, secretCode: string,
                                   customerName: string, customerPhone: string, customerEmail: string,
                                   bookingDate: string, status: string, price: int)

  datatype Stats = Stats(total: nat, confirmed: nat, pending: nat, cancelled: nat, revenue: int)

  const NoStats := Stats(0, 0, 0, 0, 0)

  predicate IsConfirmed(b: BookingRow) { b.status == "confirmed" }
  predicate IsPending(b: BookingRow) { b.status == "pending" }
  predicate IsCancelled(b: BookingRow) { b.status == "cancelled" }
  predicate HasOtherStatus(b: BookingRow) { !IsConfirmed(b) && !IsPending(b) && !IsCancelled(b) }

  /** `reduce((sum, b) => sum + price, 0)`. */
  function PriceSum(rows: seq<BookingRow>): int {
    if |rows| == 0 then 0 else PriceSum(rows[..|rows| - 1]) + rows[|rows| - 1].price
  }

  /** The revenue card: the prices of the confirmed bookings. */
  function Revenue(rows: seq<BookingRow>): int {
    PriceSum(Filter(rows, IsConfirmed))
  }

  /** The stats computed in `fetchBookings`. */
  function ComputeStats(rows: seq<BookingRow>): (s: Stats)
    ensures s.total == |rows|
    ensures s.confirmed + s.pending + s.cancelled <= s.total
    ensures s.confirmed == 0 ==> s.revenue == 0
    ensures s.confirmed == Count(rows, IsConfirmed) && s.pending == Count(rows, IsPending)
    ensures s.cancelled == Count(rows, IsCancelled)
    ensures s.revenue == PriceSum(Filter(rows, IsConfirmed))
  {
    StatusesPartition(rows);
    FilterLength(rows, IsConfirmed);
    Stats(|rows|, Count(rows, IsConfirmed), Count(rows, IsPending), Count(rows, IsCancelled), Revenue(rows))
  }

  /** The three counted statuses and the rest split the rows. */
  lemma {:induction false} StatusesPartition(rows: seq<BookingRow>)
    ensures Count(rows, IsConfirmed) + Count(rows, IsPending) + Count(rows, IsCancelled)
            + Count(rows, HasOtherStatus) == |rows|
  {
    if |rows| > 0 {
      StatusesPartition(rows[1..]);
      assert "confirmed"[0] != "pending"[0] && "confirmed"[1] != "cancelled"[1] && "pending"[0] != "cancelled"[0];
      var b := rows[0];
      assert IsConfirmed(b) || IsPending(b) || IsCancelled(b) || HasOtherStatus(b);
      assert (if IsConfirmed(b) then 1 else 0) + (if IsPending(b) then 1 else 0)
             + (if IsCancelled(b) then 1 else 0) + (if HasOtherStatus(b) then 1 else 0) == 1;
    }
  }

  /** A booking added to the list raises the revenue by its price exactly
      when it is confirmed. */
  lemma RevenueSnoc(rows: seq<BookingRow>, b: BookingRow)
    ensures Revenue(rows + [b]) == Revenue(rows) + (if IsConfirmed(b) then b.price else 0)
  {
    FilterSnoc(rows, b, IsConfirmed);
    var kept := Filter(rows, IsConfirmed);
    if IsConfirmed(b) {
      assert Filter(rows + [b], IsConfirmed) == kept + [b];
      assert (kept + [b])[..|kept + [b]| - 1] == kept;
    } else {
      assert Filter(rows + [b], IsConfirmed) == kept;
    }
  }

  /** One more booking raises the total by one, the count of its own
      status (if it is one of the three) by one, and the revenue by its
      price if it is confirmed; nothing else moves. */
  lemma StatsSnoc(rows: seq<BookingRow>, b: BookingRow)
    ensures var before, after := ComputeStats(rows), ComputeStats(rows + [b]);
            after.total == before.total + 1
            && after.confirmed == before.confirmed + (if IsConfirmed(b) then 1 else 0)
            && after.pending == before.pending + (if IsPending(b) then 1 else 0)
            && after.cancelled == before.cancelled + (if IsCancelled(b) then 1 else 0)
            && after.revenue == before.revenue + (if IsConfirmed(b) then b.price else 0)
  {
    CountSnoc(rows, b, IsConfirmed);
    CountSnoc(rows, b, IsPending);
    CountSnoc(rows, b, IsCancelled);
    RevenueSnoc(rows, b);
  }

  /** With no negative prices the revenue lies between zero and the sum of
      all prices. */
  lemma {:induction false} RevenueBounds(rows: seq<BookingRow>)
    requires forall k :: 0 <= k < |rows| ==> rows[k].price >= 0
    ensures 0 <= Revenue(rows) <= PriceSum(rows)
  {
    if |rows| > 0 {
      var init := rows[..|rows| - 1];
      assert rows == init + [rows[|rows| - 1]];
      RevenueBounds(init);
      RevenueSnoc(init, rows[|rows| - 1]);
    }
  }

  /** What the admin route answered: the rows, or a failure of any kind. */
  datatype RowsAnswer = Rows(rows: seq<BookingRow>) | RowsFailed

  class Dashboard {
    var isLoading: bool
    var bookings: seq<BookingRow>
    var stats: Stats

    constructor ()
      ensures isLoading && bookings == [] && stats == NoStats
    {
      isLoading := true;
      bookings := [];
      stats := NoStats;
    }

    /** `fetchBookings`, also run by the refresh button and the timer:
        received rows replace the list and the stats; a failure keeps the
        old list and the old stats. */
    method FetchBookings(answer: RowsAnswer)
      modifies this
      ensures answer.Rows? ==> bookings == answer.rows && stats == ComputeStats(answer.rows)
      ensures answer.RowsFailed? ==> bookings == old(bookings) && stats == old(stats)
      ensures !isLoading
    {
      isLoading := true;
      match answer {
        case Rows(rows) =>
          bookings := rows;
          stats := ComputeStats(rows);
        case RowsFailed =>
      }
      isLoading := false;
    }
  }
}
