/** The overview page: the bookings in scope for the signed-in user, the
    ten counters computed from them and from the vehicles, the five most
    recent bookings and the approval rate. */
module Overview {

  import opened Types
  import opened Seqs

  /** Staff see only the bookings they created; every other role, and a
      user with no role, sees them all. */
  function Scope(rows: seq<Booking>, user: User): (r: seq<Booking>)
    ensures user.role == Some(Staff) ==> forall b :: b in r <==> b in rows && b.createdBy == user.id
    ensures user.role != Some(Staff) ==> r == rows
    ensures IsSubsequence(r, rows)
  {
    if user.role == Some(Staff) then
      FilterIsSubsequence(rows, (b: Booking) => b.createdBy == user.id);
      Filter(rows, (b: Booking) => b.createdBy == user.id)
    else
      FilterKeepsAll(rows, (b: Booking) => true);
      FilterIsSubsequence(rows, (b: Booking) => true);
      rows
  }

  datatype Stats = Stats(
    totalBookings: nat,
    pendingBookings: nat,
    approvedBookings: nat,
    rejectedBookings: nat,
    totalVehicles: nat,
    availableVehicles: nat,
    inUseVehicles: nat,
    maintenanceVehicles: nat,
    todayBookings: nat,
    thisWeekBookings: nat)

  /** Any of the four statuses still waiting for a decision. */
  predicate Waiting(b: Booking) {
    b.status in {Pending, PendingViet, PendingKorea, PendingAdmin}
  }

  function IsWaiting(b: Booking): bool { Waiting(b) }
  function IsApproved(b: Booking): bool { b.status == Approved }
  function IsRejected(b: Booking): bool { b.status == Rejected }
  function IsAvailable(v: Vehicle): bool { v.status == Available }
  function IsInUse(v: Vehicle): bool { v.status == InUse }
  function IsInMaintenance(v: Vehicle): bool { v.status == Maintenance }

  function CreatedSince(t: Timestamp): Booking -> bool {
    (b: Booking) => b.createdAt >= t
  }

  /** The start of the week window: seven days before local midnight. */
  function WeekAgo(today: Timestamp): Timestamp {
    today - 7 * MsPerDay
  }

  /** The counters of `fetchDashboardData`; `today` is local midnight of
      the current day. */
  function ComputeStats(bookings: seq<Booking>, vehicles: seq<Vehicle>, today: Timestamp): (s: Stats)
    ensures s.totalBookings == |bookings| && s.totalVehicles == |vehicles|
    ensures s.pendingBookings + s.approvedBookings + s.rejectedBookings <= s.totalBookings
    ensures s.availableVehicles + s.inUseVehicles + s.maintenanceVehicles <= s.totalVehicles
    ensures s.todayBookings <= s.thisWeekBookings <= s.totalBookings
    ensures s.pendingBookings == |Filter(bookings, IsWaiting)|
    ensures s.approvedBookings == |Filter(bookings, IsApproved)|
    ensures s.rejectedBookings == |Filter(bookings, IsRejected)|
    ensures s.availableVehicles == |Filter(vehicles, IsAvailable)|
    ensures s.inUseVehicles == |Filter(vehicles, IsInUse)|
    ensures s.maintenanceVehicles == |Filter(vehicles, IsInMaintenance)|
    ensures s.todayBookings == |Filter(bookings, CreatedSince(today))|
    ensures s.thisWeekBookings == |Filter(bookings, CreatedSince(WeekAgo(today)))|
  {
    CountDisjoint3(bookings, IsWaiting, IsApproved, IsRejected);
    CountDisjoint3(vehicles, IsAvailable, IsInUse, IsInMaintenance);
    CountMonotone(bookings, CreatedSince(today), CreatedSince(WeekAgo(today)));
    Stats(
      |bookings|,
      |Filter(bookings, IsWaiting)|,
      |Filter(bookings, IsApproved)|,
      |Filter(bookings, IsRejected)|,
      |vehicles|,
      |Filter(vehicles, IsAvailable)|,
      |Filter(vehicles, IsInUse)|,
      |Filter(vehicles, IsInMaintenance)|,
      |Filter(bookings, CreatedSince(today))|,
      |Filter(bookings, CreatedSince(WeekAgo(today)))|)
  }

  /** The pending counter counts a row exactly when its status is one of
      the four waiting statuses: adding a row raises it by one exactly then. */
  lemma PendingCounterCountsWaiting(bookings: seq<Booking>, b: Booking, vehicles: seq<Vehicle>, today: Timestamp)
    ensures ComputeStats([b] + bookings, vehicles, today).pendingBookings
      == ComputeStats(bookings, vehicles, today).pendingBookings
         + (if b.status in {Pending, PendingViet, PendingKorea, PendingAdmin} then 1 else 0)
  {
    assert ([b] + bookings)[1..] == bookings;
  }

  // ----------------------------------------------------------------- recent

  function NewestFirst(b: Booking): int { -b.createdAt }

  /** The five most recent bookings, newest first. */
  function Recent(bookings: seq<Booking>): (r: seq<Booking>)
    ensures |r| == if |bookings| < 5 then |bookings| else 5
    ensures forall i, j :: 0 <= i < j < |r| ==> r[i].createdAt >= r[j].createdAt
    ensures multiset(r) <= multiset(bookings)
  {
    var sorted := SortBy(bookings, NewestFirst);
    var r := Take(sorted, 5);
    assert sorted == r + sorted[|r|..];
    assert multiset(sorted) == multiset(r) + multiset(sorted[|r|..]);
    r
  }

  /** No booking left out of the recent five is newer than the last one
      shown. */
  lemma RecentAreNewest(bookings: seq<Booking>)
    ensures var r := Recent(bookings);
      |r| > 0 ==> forall b :: b in multiset(bookings) - multiset(r) ==> b.createdAt <= r[|r| - 1].createdAt
  {
    var sorted := SortBy(bookings, NewestFirst);
    var r := Recent(bookings);
    assert r == Take(sorted, 5);
    if |r| > 0 {
      var n := |r|;
      var rest := sorted[n..];
      assert sorted == r + rest;
      assert multiset(sorted) == multiset(r) + multiset(rest);
      assert multiset(bookings) - multiset(r) == multiset(rest);
      forall b: Booking | b in multiset(rest) ensures b.createdAt <= r[n - 1].createdAt {
        LaterInSortIsOlder(sorted, n, b);
      }
    }
  }

  lemma LaterInSortIsOlder(sorted: seq<Booking>, n: nat, b: Booking)
    requires SortedBy(sorted, NewestFirst) && 0 < n <= |sorted|
    requires b in sorted[n..]
    ensures b.createdAt <= sorted[n - 1].createdAt
  {
    var k :| n <= k < |sorted| && sorted[k] == b;
    assert NewestFirst(sorted[n - 1]) <= NewestFirst(sorted[k]);
  }

  // ------------------------------------------------------------------- rate

  /** `Math.round(approved / total * 100)`, or 0 with no bookings, computed
      on exact rationals: the nearest integer to the percentage, halves
      rounding up. */
  function ApprovalRate(approved: nat, total: nat): (r: int)
    ensures total == 0 ==> r == 0
    ensures total > 0 ==> 2 * total * r <= 200 * approved + total < 2 * total * (r + 1)
  {
    if total == 0 then 0 else (200 * approved + total) / (2 * total)
  }

  /** With no more approvals than bookings the rate is a percentage. */
  lemma RateIsPercentage(approved: nat, total: nat)
    requires approved <= total
    ensures 0 <= ApprovalRate(approved, total) <= 100
  {
    if total > 0 {
      var r := ApprovalRate(approved, total);
      var t2 := 2 * total;
      assert t2 * r <= 200 * approved + total;
      assert t2 * (r + 1) > 200 * approved + total;
      assert t2 * r < t2 * 101;
      assert t2 * (r + 1) > 0;
      PositiveFactor(t2, 101 - r);
      PositiveFactor(t2, r + 1);
    }
  }

  /** A product with a positive factor is positive only if the other one is. */
  lemma PositiveFactor(a: int, b: int)
    requires a > 0 && a * b > 0
    ensures b > 0
  {}

  /** The rate the page shows always lies between 0 and 100. */
  lemma ShownRateIsPercentage(bookings: seq<Booking>, vehicles: seq<Vehicle>, today: Timestamp)
    ensures var s := ComputeStats(bookings, vehicles, today);
      0 <= ApprovalRate(s.approvedBookings, s.totalBookings) <= 100
  {
    var s := ComputeStats(bookings, vehicles, today);
    RateIsPercentage(s.approvedBookings, s.totalBookings);
  }
}
