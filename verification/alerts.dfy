/** The alert centre: alerts generated from the vehicles' maintenance dates,
    from bookings left in `pending`, and one fixed system alert, then
    counted and filtered by severity. */
module Alerts {

  import opened Types
  import opened Seqs

  datatype Severity = High | Medium | Low

  datatype AlertKind = MaintenanceAlert | BookingAlert | SystemAlert

  /** An alert; the message and date texts are display only. */
  datatype Alert = Alert(id: string, kind: AlertKind, severity: Severity, title: string)

  // ------------------------------------------------------------ maintenance

  /** A vehicle with a maintenance date that is past (overdue). */
  predicate Overdue(v: Vehicle, daysUntil: string -> int) {
    Truthy(v.nextMaintenanceDate) && daysUntil(v.nextMaintenanceDate.value) < 0
  }

  /** A vehicle with a maintenance date at most seven days ahead, past
      dates included. */
  predicate DueWithinWeek(v: Vehicle, daysUntil: string -> int) {
    Truthy(v.nextMaintenanceDate) && daysUntil(v.nextMaintenanceDate.value) <= 7
  }

  /** The alert for one vehicle. `daysUntil` is `differenceInDays` of the
      parsed date and the current time. */
  function MaintenanceAlertFor(v: Vehicle, daysUntil: string -> int): (r: Option<Alert>)
    ensures !Truthy(v.nextMaintenanceDate) ==> r.None?
    ensures r.Some? <==> DueWithinWeek(v, daysUntil)
    ensures Overdue(v, daysUntil) ==>
      r == Some(Alert("maint-over-" + v.id, MaintenanceAlert, High, "Bảo trì quá hạn: " + v.licensePlate))
    ensures DueWithinWeek(v, daysUntil) && !Overdue(v, daysUntil) ==>
      r == Some(Alert("maint-soon-" + v.id, MaintenanceAlert, Medium, "Sắp đến hạn bảo trì: " + v.licensePlate))
  {
    if Truthy(v.nextMaintenanceDate) then
      var days := daysUntil(v.nextMaintenanceDate.value);
      if days < 0 then
        Some(Alert("maint-over-" + v.id, MaintenanceAlert, High, "Bảo trì quá hạn: " + v.licensePlate))
      else if days <= 7 then
        Some(Alert("maint-soon-" + v.id, MaintenanceAlert, Medium, "Sắp đến hạn bảo trì: " + v.licensePlate))
      else None
    else None
  }

  function DueFilter(daysUntil: string -> int): Vehicle -> bool {
    (v: Vehicle) => DueWithinWeek(v, daysUntil)
  }

  function OverdueFilter(daysUntil: string -> int): Vehicle -> bool {
    (v: Vehicle) => Overdue(v, daysUntil)
  }

  function IsHigh(a: Alert): bool { a.severity == High }

  function IsMedium(a: Alert): bool { a.severity == Medium }

  function IsLow(a: Alert): bool { a.severity == Low }

  /** The maintenance alerts, one per flagged vehicle, in vehicle order. */
  function MaintenanceAlerts(vs: seq<Vehicle>, daysUntil: string -> int): (r: seq<Alert>)
    ensures |r| == |Filter(vs, DueFilter(daysUntil))|
    ensures forall i :: 0 <= i < |r| ==> r[i].kind == MaintenanceAlert && r[i].severity != Low
    ensures forall i :: 0 <= i < |r| ==> Some(r[i]) == MaintenanceAlertFor(Filter(vs, DueFilter(daysUntil))[i], daysUntil)
  {
    if |vs| == 0 then []
    else
      var rest := MaintenanceAlerts(vs[1..], daysUntil);
      match MaintenanceAlertFor(vs[0], daysUntil)
      case None => rest
      case Some(a) => [a] + rest
  }

  /** The high maintenance alerts are exactly one per overdue vehicle. */
  lemma {:induction false} HighAlertsAreOverdue(vs: seq<Vehicle>, daysUntil: string -> int)
    ensures |Filter(MaintenanceAlerts(vs, daysUntil), IsHigh)| == |Filter(vs, OverdueFilter(daysUntil))|
  {
    if |vs| > 0 {
      HighAlertsAreOverdue(vs[1..], daysUntil);
      var rest := MaintenanceAlerts(vs[1..], daysUntil);
      match MaintenanceAlertFor(vs[0], daysUntil)
      case None =>
      case Some(a) =>
        assert ([a] + rest)[1..] == rest;
    }
  }

  // --------------------------------------------------------------- bookings

  const StuckAfter: int := 2 * MsPerDay

  /** The second query: status exactly `pending`, created more than two
      days before `now`. */
  predicate Stuck(b: Booking, now: Timestamp) {
    b.status == Pending && b.createdAt < now - StuckAfter
  }

  function StuckBookings(rows: seq<Booking>, now: Timestamp): (r: seq<Booking>)
    ensures forall b :: b in r <==> b in rows && Stuck(b, now)
    ensures IsSubsequence(r, rows)
  {
    FilterIsSubsequence(rows, (b: Booking) => Stuck(b, now));
    Filter(rows, (b: Booking) => Stuck(b, now))
  }

  /** One low booking alert per stuck booking, in order. */
  function BookingAlerts(bs: seq<Booking>): (r: seq<Alert>)
    ensures |r| == |bs|
    ensures forall i :: 0 <= i < |bs| ==>
      r[i] == Alert("booking-stuck-" + bs[i].id, BookingAlert, Low, "Đơn chờ duyệt lâu")
  {
    if |bs| == 0 then []
    else [Alert("booking-stuck-" + bs[0].id, BookingAlert, Low, "Đơn chờ duyệt lâu")] + BookingAlerts(bs[1..])
  }

  const SystemHealth: Alert := Alert("sys-1", SystemAlert, Low, "Hệ thống hoạt động ổn định")

  /** `fetchAlerts`: maintenance alerts, then booking alerts, then the one
      system alert, which is always last. */
  function FetchAlerts(vs: seq<Vehicle>, rows: seq<Booking>, daysUntil: string -> int, now: Timestamp): (r: seq<Alert>)
    ensures |r| == |Filter(vs, DueFilter(daysUntil))| + |StuckBookings(rows, now)| + 1
    ensures r[|r| - 1] == SystemHealth
    ensures forall i :: 0 <= i < |r| - 1 ==> r[i].kind != SystemAlert
  {
    MaintenanceAlerts(vs, daysUntil) + BookingAlerts(StuckBookings(rows, now)) + [SystemHealth]
  }

  /** The fetched list in its three parts: the maintenance alerts first,
      then one booking alert per stuck booking, then the system alert.
      This exposes how `FetchAlerts` is assembled, for the lemmas that
      count its severities. */
  lemma FetchAlertsLayout(vs: seq<Vehicle>, rows: seq<Booking>, daysUntil: string -> int, now: Timestamp)
    ensures var r := FetchAlerts(vs, rows, daysUntil, now);
      var m := |Filter(vs, DueFilter(daysUntil))|;
      && r[..m] == MaintenanceAlerts(vs, daysUntil)
      && r[m..|r| - 1] == BookingAlerts(StuckBookings(rows, now))
  {
    var ms := MaintenanceAlerts(vs, daysUntil);
    var bs := BookingAlerts(StuckBookings(rows, now));
    assert FetchAlerts(vs, rows, daysUntil, now) == ms + bs + [SystemHealth];
    assert (ms + bs + [SystemHealth])[..|ms|] == ms;
    assert (ms + bs + [SystemHealth])[|ms|..|ms| + |bs|] == bs;
  }

  // ------------------------------------------------------ counts and filter

  datatype Counts = Counts(all: nat, high: nat, medium: nat, low: nat)

  /** The badge counts: every alert, then the alerts of each severity. The
      per-severity counts are the definition itself, exposed for the lemmas
      about the fetched list; the point of the contract is that the three
      severities partition the list. */
  function CountAlerts(alerts: seq<Alert>): (c: Counts)
    ensures c.all == |alerts|
    ensures c.all == c.high + c.medium + c.low
    ensures c.high == |Filter(alerts, IsHigh)| && c.medium == |Filter(alerts, IsMedium)|
      && c.low == |Filter(alerts, IsLow)|
  {
    CountPartition3(alerts, IsHigh, IsMedium, IsLow);
    Counts(|alerts|, |Filter(alerts, IsHigh)|, |Filter(alerts, IsMedium)|, |Filter(alerts, IsLow)|)
  }

  /** The high counter counts the overdue vehicles. */
  lemma {:induction false} HighCountOfFetched(vs: seq<Vehicle>, rows: seq<Booking>, daysUntil: string -> int, now: Timestamp)
    ensures CountAlerts(FetchAlerts(vs, rows, daysUntil, now)).high == |Filter(vs, OverdueFilter(daysUntil))|
  {
    var m := MaintenanceAlerts(vs, daysUntil);
    var b := BookingAlerts(StuckBookings(rows, now));
    var tail := b + [SystemHealth];
    assert Filter(tail, IsHigh) == [] by {
      assert forall i :: 0 <= i < |tail| ==> tail[i].severity == Low;
      FilterKeepsNone(tail, IsHigh);
    }
    assert |Filter(m + tail, IsHigh)| == |Filter(m, IsHigh)| by {
      FilterAppend(m, tail, IsHigh);
    }
    assert CountAlerts(FetchAlerts(vs, rows, daysUntil, now)).high == |Filter(m + tail, IsHigh)| by {
      assert FetchAlerts(vs, rows, daysUntil, now) == m + tail;
    }
    HighAlertsAreOverdue(vs, daysUntil);
  }

  /** The low counter counts the stuck bookings plus the system alert. */
  lemma {:induction false} LowCountOfFetched(vs: seq<Vehicle>, rows: seq<Booking>, daysUntil: string -> int, now: Timestamp)
    ensures CountAlerts(FetchAlerts(vs, rows, daysUntil, now)).low == |StuckBookings(rows, now)| + 1
  {
    var m := MaintenanceAlerts(vs, daysUntil);
    var b := BookingAlerts(StuckBookings(rows, now));
    var tail := b + [SystemHealth];
    assert Filter(m, IsLow) == [] by {
      FilterKeepsNone(m, IsLow);
    }
    assert Filter(tail, IsLow) == tail by {
      FilterKeepsAll(tail, IsLow);
    }
    assert |Filter(m + tail, IsLow)| == |tail| by {
      FilterAppend(m, tail, IsLow);
    }
    assert CountAlerts(FetchAlerts(vs, rows, daysUntil, now)).low == |Filter(m + tail, IsLow)| by {
      assert FetchAlerts(vs, rows, daysUntil, now) == m + tail;
    }
  }

  datatype SeverityFilter = AllSeverities | OnlySeverity(severity: Severity)

  /** `filteredAlerts`. */
  function FilterAlerts(alerts: seq<Alert>, filter: SeverityFilter): (r: seq<Alert>)
    ensures filter == AllSeverities ==> r == alerts
    ensures filter.OnlySeverity? ==> forall a :: a in r <==> a in alerts && a.severity == filter.severity
    ensures IsSubsequence(r, alerts)
  {
    match filter
    case AllSeverities =>
      FilterKeepsAll(alerts, (a: Alert) => true);
      FilterIsSubsequence(alerts, (a: Alert) => true);
      alerts
    case OnlySeverity(s) =>
      FilterIsSubsequence(alerts, (a: Alert) => a.severity == s);
      Filter(alerts, (a: Alert) => a.severity == s)
  }

  /** The list a severity tab shows is as long as its counter says. */
  lemma TabMatchesCounter(alerts: seq<Alert>, s: Severity)
    ensures s == High ==> |FilterAlerts(alerts, OnlySeverity(s))| == CountAlerts(alerts).high
    ensures s == Medium ==> |FilterAlerts(alerts, OnlySeverity(s))| == CountAlerts(alerts).medium
    ensures s == Low ==> |FilterAlerts(alerts, OnlySeverity(s))| == CountAlerts(alerts).low
  {
    var f := (a: Alert) => a.severity == s;
    if s == High { FilterSamePredicate(alerts, f, IsHigh); }
    if s == Medium { FilterSamePredicate(alerts, f, IsMedium); }
    if s == Low { FilterSamePredicate(alerts, f, IsLow); }
  }
}
