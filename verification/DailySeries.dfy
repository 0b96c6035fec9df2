/** The daily invoice series of the dashboard: the bins and what they add up to. */
module DailySeries {
  import opened InvoiceUseCases

  const CHART_STATUSES: set<InvoiceStatus> := {Accepted, Observed, Rejected, EmissionFailed}
  const DAY: nat := 86_400_000_000

  /** An order with its local creation time, in microseconds. */
  datatype Created = Created(createdAt: int, status: InvoiceStatus)

  /** The local date of a moment, as a day number. */
  function DateOf(t: int): int
  {
    t / DAY
  }

  predicate InWindow(o: Created, now: int, days: nat)
  {
    o.createdAt >= now - days * DAY
  }

  predicate Falls(o: Created, now: int, days: nat, status: InvoiceStatus, date: int)
  {
    InWindow(o, now, days) && o.status == status && DateOf(o.createdAt) == date
  }

  /** The grouped count of the query. */
  function CountOn(orders: seq<Created>, now: int, days: nat, status: InvoiceStatus, date: int): nat
  {
    if orders == [] then 0
    else CountOn(orders[1..], now, days, status, date) + if Falls(orders[0], now, days, status, date) then 1 else 0
  }

  /** The orders of a status in the window. */
  function CountInWindow(orders: seq<Created>, now: int, days: nat, status: InvoiceStatus): nat
  {
    if orders == [] then 0
    else CountInWindow(orders[1..], now, days, status)
         + if InWindow(orders[0], now, days) && orders[0].status == status then 1 else 0
  }

  /** One order counts for its own status and day, if it is no older than `days` days. */
  lemma OneOrderCounts(o: Created, now: int, days: nat, status: InvoiceStatus, date: int)
    ensures var recent := o.createdAt >= now - days * 86_400_000_000;
            && CountInWindow([o], now, days, status) == (if recent && o.status == status then 1 else 0)
            && CountOn([o], now, days, status, date) ==
               (if recent && o.status == status && date * 86_400_000_000 <= o.createdAt < (date + 1) * 86_400_000_000
                then 1 else 0)
  {
    assert [o][1..] == [];
  }

  /** The orders of two lists count as those of both. */
  lemma {:induction false} CountsAddUp(
      a: seq<Created>, b: seq<Created>, now: int, days: nat, status: InvoiceStatus, date: int)
    ensures CountInWindow(a + b, now, days, status)
         == CountInWindow(a, now, days, status) + CountInWindow(b, now, days, status)
    ensures CountOn(a + b, now, days, status, date)
         == CountOn(a, now, days, status, date) + CountOn(b, now, days, status, date)
    decreases |a|
  {
    if a == [] {
      assert a + b == b;
    } else {
      assert (a + b)[1..] == a[1..] + b;
      CountsAddUp(a[1..], b, now, days, status, date);
    }
  }

  /** The bins, oldest first. */
  function Dates(now: int, days: nat): (dates: seq<int>)
  {
    seq(days + 1, i requires 0 <= i <= days => DateOf(now - (days - i) * DAY))
  }

  lemma DaysEarlier(t: int, k: nat)
    ensures DateOf(t - k * DAY) == DateOf(t) - k
  {
    var q, r := t / DAY, t % DAY;
    assert t - k * DAY == (q - k) * DAY + r;
  }

  /** The bins are consecutive dates ending today. */
  lemma DatesAreConsecutive(now: int, days: nat)
    ensures var dates := Dates(now, days);
            |dates| == days + 1 && forall i :: 0 <= i <= days ==> dates[i] == DateOf(now) - (days - i)
  {
    forall i | 0 <= i <= days ensures Dates(now, days)[i] == DateOf(now) - (days - i) {
      DaysEarlier(now, days - i);
    }
  }

  function Dataset(orders: seq<Created>, now: int, days: nat, status: InvoiceStatus): seq<nat>
  {
    seq(days + 1, i requires 0 <= i <= days => CountOn(orders, now, days, status, Dates(now, days)[i]))
  }

  // ---------------------------------------------------------------- the loop

  /** One row of the grouped query. */
  datatype Row = Row(date: int, status: InvoiceStatus, n: nat)
  type Bin = (InvoiceStatus, int)

  function BinOf(row: Row): Bin
  {
    (row.status, row.date)
  }

  /** The rows are the grouped counts, one row for each date and status with any order. */
  ghost predicate IsGroupedQuery(rows: seq<Row>, orders: seq<Created>, now: int, days: nat)
  {
    && (forall i :: 0 <= i < |rows| ==> rows[i].n == CountOn(orders, now, days, rows[i].status, rows[i].date))
    && (forall s, d :: s in CHART_STATUSES && CountOn(orders, now, days, s, d) > 0 ==>
          exists i :: 0 <= i < |rows| && BinOf(rows[i]) == (s, d))
  }

  /** What a bin holds after the rows have been written one after the other. */
  function Written(rows: seq<Row>, bin: Bin): nat
  {
    if rows == [] then 0
    else if BinOf(rows[|rows| - 1]) == bin then rows[|rows| - 1].n
    else Written(rows[..|rows| - 1], bin)
  }

  lemma {:induction false} WrittenIsARow(rows: seq<Row>, bin: Bin)
    ensures (forall i :: 0 <= i < |rows| ==> BinOf(rows[i]) != bin) ==> Written(rows, bin) == 0
    ensures (exists i :: 0 <= i < |rows| && BinOf(rows[i]) == bin) ==>
              exists i :: 0 <= i < |rows| && BinOf(rows[i]) == bin && Written(rows, bin) == rows[i].n
    decreases |rows|
  {
    if rows != [] {
      var n := |rows| - 1;
      if BinOf(rows[n]) != bin {
        WrittenIsARow(rows[..n], bin);
        if i :| 0 <= i < |rows| && BinOf(rows[i]) == bin {
          assert BinOf(rows[..n][i]) == bin;
          var j :| 0 <= j < n && BinOf(rows[..n][j]) == bin && Written(rows[..n], bin) == rows[..n][j].n;
          assert BinOf(rows[j]) == bin;
        }
      }
    }
  }

  lemma WrittenIsTheCount(rows: seq<Row>, orders: seq<Created>, now: int, days: nat, status: InvoiceStatus, date: int)
    requires IsGroupedQuery(rows, orders, now, days) && status in CHART_STATUSES
    ensures Written(rows, (status, date)) == CountOn(orders, now, days, status, date)
  {
    WrittenIsARow(rows, (status, date));
  }

  function Bins(dates: seq<int>): set<Bin>
  {
    set s, i | s in CHART_STATUSES && 0 <= i < |dates| :: (s, dates[i])
  }

  /** One dataset of the filled dictionary. */
  function Column(series: map<Bin, nat>, dates: seq<int>, status: InvoiceStatus): seq<nat>
  {
    seq(|dates|, i requires 0 <= i < |dates| => if (status, dates[i]) in series then series[(status, dates[i])] else 0)
  }

  lemma ColumnIsTheDataset(
      series: map<Bin, nat>, rows: seq<Row>, orders: seq<Created>, now: int, days: nat, status: InvoiceStatus)
    requires IsGroupedQuery(rows, orders, now, days) && status in CHART_STATUSES
    requires series.Keys == Bins(Dates(now, days))
    requires forall bin :: bin in series ==> series[bin] == Written(rows, bin)
    ensures Column(series, Dates(now, days), status) == Dataset(orders, now, days, status)
  {
    var dates := Dates(now, days);
    forall i | 0 <= i < |dates|
      ensures Column(series, dates, status)[i] == Dataset(orders, now, days, status)[i]
    {
      assert (status, dates[i]) in Bins(dates);
      WrittenIsTheCount(rows, orders, now, days, status, dates[i]);
    }
  }

  /** A dictionary of zeroes is filled from the grouped rows; rows outside the bins are dropped. */
  method GetDailySeries(rows: seq<Row>, ghost orders: seq<Created>, now: int, days: nat)
    returns (dates: seq<int>, datasets: map<InvoiceStatus, seq<nat>>)
    requires IsGroupedQuery(rows, orders, now, days)
    ensures dates == Dates(now, days)
    ensures datasets.Keys == CHART_STATUSES
    ensures forall s :: s in CHART_STATUSES ==> datasets[s] == Dataset(orders, now, days, s)
  {
    dates := Dates(now, days);
    var series: map<Bin, nat> := map bin | bin in Bins(dates) :: 0;
    for k := 0 to |rows|
      invariant series.Keys == Bins(dates)
      invariant forall bin :: bin in series ==> series[bin] == Written(rows[..k], bin)
    {
      assert rows[..k + 1][..k] == rows[..k];
      if BinOf(rows[k]) in series {
        series := series[BinOf(rows[k]) := rows[k].n];
      }
    }
    assert rows[..|rows|] == rows;
    datasets := map s | s in CHART_STATUSES :: Column(series, dates, s);
    forall s | s in CHART_STATUSES ensures datasets[s] == Dataset(orders, now, days, s) {
      ColumnIsTheDataset(series, rows, orders, now, days, s);
    }
  }

  // ---------------------------------------------------------------- conservation

  function Sum(xs: seq<nat>): nat
  {
    if xs == [] then 0 else Sum(xs[..|xs| - 1]) + xs[|xs| - 1]
  }

  /** The orders of a status in the window dated before a date. */
  function CountBefore(orders: seq<Created>, now: int, days: nat, status: InvoiceStatus, date: int): nat
  {
    if orders == [] then 0
    else
      var counts := InWindow(orders[0], now, days) && orders[0].status == status;
      CountBefore(orders[1..], now, days, status, date) + if counts && DateOf(orders[0].createdAt) < date then 1 else 0
  }

  lemma {:induction false} NextDate(orders: seq<Created>, now: int, days: nat, status: InvoiceStatus, date: int)
    ensures CountBefore(orders, now, days, status, date + 1)
         == CountBefore(orders, now, days, status, date) + CountOn(orders, now, days, status, date)
    decreases |orders|
  {
    if orders != [] {
      NextDate(orders[1..], now, days, status, date);
    }
  }

  lemma {:induction false} NothingBeforeTheWindow(orders: seq<Created>, now: int, days: nat, status: InvoiceStatus)
    ensures CountBefore(orders, now, days, status, DateOf(now) - days) == 0
    decreases |orders|
  {
    if orders != [] {
      NothingBeforeTheWindow(orders[1..], now, days, status);
      if InWindow(orders[0], now, days) {
        DaysEarlier(now, days);
        DatesAreMonotone(now - days * DAY, orders[0].createdAt);
      }
    }
  }

  lemma DatesAreMonotone(t: int, u: int)
    requires t <= u
    ensures DateOf(t) <= DateOf(u)
  {
  }

  lemma {:induction false} PartialSum(orders: seq<Created>, now: int, days: nat, status: InvoiceStatus, n: nat)
    requires n <= days + 1
    ensures Sum(Dataset(orders, now, days, status)[..n])
         == CountBefore(orders, now, days, status, DateOf(now) - days + n)
    decreases n
  {
    if n == 0 {
      NothingBeforeTheWindow(orders, now, days, status);
    } else {
      var data := Dataset(orders, now, days, status);
      assert data[..n][..n - 1] == data[..n - 1];
      PartialSum(orders, now, days, status, n - 1);
      DatesAreConsecutive(now, days);
      NextDate(orders, now, days, status, DateOf(now) - days + n - 1);
    }
  }

  predicate DatedAfterToday(o: Created, now: int, days: nat, status: InvoiceStatus)
  {
    InWindow(o, now, days) && o.status == status && DateOf(o.createdAt) > DateOf(now)
  }

  lemma {:induction false} AllBefore(orders: seq<Created>, now: int, days: nat, status: InvoiceStatus)
    ensures CountBefore(orders, now, days, status, DateOf(now) + 1) <= CountInWindow(orders, now, days, status)
    ensures CountBefore(orders, now, days, status, DateOf(now) + 1) == CountInWindow(orders, now, days, status)
       <==> forall k :: 0 <= k < |orders| ==> !DatedAfterToday(orders[k], now, days, status)
    decreases |orders|
  {
    if orders != [] {
      AllBefore(orders[1..], now, days, status);
      assert forall k :: 0 <= k < |orders[1..]| ==> orders[1..][k] == orders[k + 1];
      assert forall k :: 1 <= k < |orders| ==> orders[k] == orders[1..][k - 1];
    }
  }

  /** A dataset adds up to all the orders of its status created in the window, exactly when
      none of them is dated after today. */
  lemma SeriesConservation(orders: seq<Created>, now: int, days: nat, status: InvoiceStatus)
    ensures Sum(Dataset(orders, now, days, status)) <= CountInWindow(orders, now, days, status)
    ensures Sum(Dataset(orders, now, days, status)) == CountInWindow(orders, now, days, status)
       <==> forall k :: 0 <= k < |orders| ==> !DatedAfterToday(orders[k], now, days, status)
  {
    var data := Dataset(orders, now, days, status);
    assert data[..days + 1] == data;
    PartialSum(orders, now, days, status, days + 1);
    AllBefore(orders, now, days, status);
  }
}
