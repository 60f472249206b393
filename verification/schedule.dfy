/** The weekly schedule: approved and completed bookings placed on an hour
    grid from 06:00 to 22:00, one column per day of a Monday-first week.
    Calendar days are whole numbers (`dayOf` maps a travel time to its
    local day) and `hourOf`/`minuteOf` are `getHours`/`getMinutes` of the
    parsed travel time. */
module Schedule {

  import opened Types
  import opened Seqs

  const StartHour: int := 6
  const EndHour: int := 22
  const PixelsPerHour: int := 64
  const ColourCount: nat := 5

  /** The `n` consecutive integers from `from`. */
  function Range(from: int, n: nat): (r: seq<int>)
    ensures |r| == n
    ensures forall i :: 0 <= i < n ==> r[i] == from + i
    decreases n
  {
    if n == 0 then [] else [from] + Range(from + 1, n - 1)
  }

  /** `HOURS`: every hour from the first to the last row of the grid. */
  const Hours: seq<int> := Range(StartHour, (EndHour - StartHour + 1) as nat)

  lemma HoursAreTheGrid()
    ensures |Hours| == 17
    ensures forall h :: h in Hours <==> StartHour <= h <= EndHour
  {
    forall h | StartHour <= h <= EndHour ensures h in Hours {
      assert Hours[h - StartHour] == h;
    }
  }

  /** The grid is as tall as one hour row per entry of `Hours`. */
  const GridHeight: int := |Hours| * PixelsPerHour

  // ------------------------------------------------------------- placement

  datatype EventStyle = EventStyle(top: real, height: int)

  /** `getEventStyle`: no placement outside the grid's hours; otherwise the
      event sits as many hour rows below the top as hours have passed since
      the grid's first hour, and is two rows tall. */
  function EventStyleAt(hour: int, minute: int): (r: Option<EventStyle>)
    ensures r.None? <==> hour < StartHour || hour > EndHour
    ensures r.Some? ==> r.value.height == 2 * PixelsPerHour
    ensures r.Some? ==> r.value.top * 60.0 == ((hour - StartHour) * 60 + minute) as real * PixelsPerHour as real
  {
    if hour < StartHour || hour > EndHour then None
    else
      var top := ((hour - StartHour) * 60 + minute) as real * (PixelsPerHour as real / 60.0);
      Some(EventStyle(top, 2 * PixelsPerHour))
  }

  /** A placed event starts inside the grid. */
  lemma PlacedEventStartsInGrid(hour: int, minute: int)
    requires 0 <= minute < 60
    requires EventStyleAt(hour, minute).Some?
    ensures 0.0 <= EventStyleAt(hour, minute).value.top < GridHeight as real
  {
    HoursAreTheGrid();
  }

  /** A later time of day is placed strictly lower. */
  lemma PlacementIsMonotone(h1: int, m1: int, h2: int, m2: int)
    requires 0 <= m1 < 60 && 0 <= m2 < 60
    requires EventStyleAt(h1, m1).Some? && EventStyleAt(h2, m2).Some?
    requires h1 < h2 || (h1 == h2 && m1 < m2)
    ensures EventStyleAt(h1, m1).value.top < EventStyleAt(h2, m2).value.top
  {
    assert (h1 - StartHour) * 60 + m1 < (h2 - StartHour) * 60 + m2;
  }

  /** The fixed two-hour height runs past the bottom of the grid for any
      placed event that starts after 21:00, up to the last placed hour. */
  lemma LateEventsOverflowGrid(hour: int, minute: int)
    requires 0 <= minute < 60
    requires 21 * 60 < hour * 60 + minute && hour <= EndHour
    ensures var s := EventStyleAt(hour, minute).value; s.top + s.height as real > GridHeight as real
  {
    HoursAreTheGrid();
  }

  // ----------------------------------------------------------- the bookings

  function TravelTime(b: Booking): int { b.travelTime }

  function OnSchedule(b: Booking): bool { b.status in {Approved, Completed} }

  /** `fetchBookings`: the approved and completed rows, earliest trip first,
      each as often as the table holds it. */
  function Scheduled(rows: seq<Booking>): (r: seq<Booking>)
    ensures forall b :: b in r <==> b in rows && b.status in {Approved, Completed}
    ensures forall i, j :: 0 <= i < j < |r| ==> r[i].travelTime <= r[j].travelTime
    ensures multiset(r) == multiset(Filter(rows, OnSchedule))
  {
    var selected := Filter(rows, OnSchedule);
    SortByMembers(selected, TravelTime);
    SortBy(selected, TravelTime)
  }

  function OnDay(day: int, dayOf: Timestamp -> int): Booking -> bool {
    (b: Booking) => dayOf(b.travelTime) == day
  }

  /** `getBookingsForDate`: the bookings travelling on `day`, in order. */
  function BookingsForDate(bookings: seq<Booking>, day: int, dayOf: Timestamp -> int): (r: seq<Booking>)
    ensures forall b :: b in r <==> b in bookings && dayOf(b.travelTime) == day
    ensures IsSubsequence(r, bookings)
  {
    FilterIsSubsequence(bookings, OnDay(day, dayOf));
    Filter(bookings, OnDay(day, dayOf))
  }

  /** The seven columns, from the Monday `start`. */
  function WeekDays(start: int): seq<int> { Range(start, 7) }

  /** The `reduce` over the given days: the sum of their bookings. */
  function SumOver(bookings: seq<Booking>, days: seq<int>, dayOf: Timestamp -> int): nat {
    if |days| == 0 then 0
    else |BookingsForDate(bookings, days[0], dayOf)| + SumOver(bookings, days[1..], dayOf)
  }

  /** `totalBookingsThisWeek`. */
  function WeekTotal(bookings: seq<Booking>, start: int, dayOf: Timestamp -> int): nat {
    SumOver(bookings, WeekDays(start), dayOf)
  }

  function InDays(from: int, n: nat, dayOf: Timestamp -> int): Booking -> bool {
    (b: Booking) => from <= dayOf(b.travelTime) < from + n
  }

  /** Summing the per-day counts over consecutive days counts the bookings
      that fall in the span, each once. */
  lemma {:induction false} SumOverRangeCounts(bookings: seq<Booking>, from: int, n: nat, dayOf: Timestamp -> int)
    ensures SumOver(bookings, Range(from, n), dayOf) == |Filter(bookings, InDays(from, n, dayOf))|
    decreases n
  {
    if n == 0 {
      FilterKeepsNone(bookings, InDays(from, n, dayOf));
    } else {
      assert Range(from, n)[1..] == Range(from + 1, n - 1);
      SumOverRangeCounts(bookings, from + 1, n - 1, dayOf);
      CountSplit(bookings, InDays(from, n, dayOf), OnDay(from, dayOf), InDays(from + 1, n - 1, dayOf));
    }
  }

  /** The weekly total counts the bookings whose day falls in the week. */
  lemma WeekTotalCountsWeek(bookings: seq<Booking>, start: int, dayOf: Timestamp -> int)
    ensures WeekTotal(bookings, start, dayOf) == |Filter(bookings, InDays(start, 7, dayOf))|
    ensures WeekTotal(bookings, start, dayOf) <= |bookings|
  {
    SumOverRangeCounts(bookings, start, 7, dayOf);
  }

  // ----------------------------------------------------------------- colours

  datatype PlacedEvent = PlacedEvent(booking: Booking, style: EventStyle, colour: nat)

  /** The events of one day column: the `i`th booking of the day is placed
      with colour `i % 5`, or skipped when it falls outside the grid. */
  function DayEvents(dayBookings: seq<Booking>, hourOf: Timestamp -> int, minuteOf: Timestamp -> int): (r: seq<Option<PlacedEvent>>)
    ensures |r| == |dayBookings|
    ensures forall i :: 0 <= i < |r| ==>
      (r[i].Some? <==> StartHour <= hourOf(dayBookings[i].travelTime) <= EndHour)
    ensures forall i :: 0 <= i < |r| && r[i].Some? ==>
      r[i].value.booking == dayBookings[i] && r[i].value.colour == i % ColourCount
  {
    EventsFrom(dayBookings, 0, hourOf, minuteOf)
  }

  function EventsFrom(bs: seq<Booking>, first: nat, hourOf: Timestamp -> int, minuteOf: Timestamp -> int): (r: seq<Option<PlacedEvent>>)
    ensures |r| == |bs|
    ensures forall i :: 0 <= i < |r| ==> (r[i].Some? <==> StartHour <= hourOf(bs[i].travelTime) <= EndHour)
    ensures forall i :: 0 <= i < |r| && r[i].Some? ==>
      r[i].value.booking == bs[i] && r[i].value.colour == (first + i) % ColourCount
  {
    if |bs| == 0 then []
    else
      var b := bs[0];
      var style := EventStyleAt(hourOf(b.travelTime), minuteOf(b.travelTime));
      var head := if style.Some? then Some(PlacedEvent(b, style.value, first % ColourCount)) else None;
      [head] + EventsFrom(bs[1..], first + 1, hourOf, minuteOf)
  }

  /** Colours index the five-entry palette, and any five consecutive events
      of a day column get five different colours. */
  lemma ColoursCycle(dayBookings: seq<Booking>, hourOf: Timestamp -> int, minuteOf: Timestamp -> int, i: nat, j: nat)
    requires i < j < |dayBookings| && j - i < ColourCount
    requires DayEvents(dayBookings, hourOf, minuteOf)[i].Some? && DayEvents(dayBookings, hourOf, minuteOf)[j].Some?
    ensures DayEvents(dayBookings, hourOf, minuteOf)[i].value.colour < ColourCount
    ensures DayEvents(dayBookings, hourOf, minuteOf)[i].value.colour != DayEvents(dayBookings, hourOf, minuteOf)[j].value.colour
  {}
}
