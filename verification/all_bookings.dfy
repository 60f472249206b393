/** The admin's page of all bookings: the query behind it, the legacy
    one-step decision on a `pending` booking, and the three counters above
    the table. The decision writes the status and the resolution fields
    only; the per-stage flags of the staged workflow are never touched. */
module AllBookings {

  import opened Types
  import opened Seqs
  import opened Store

  /** The status dropdown: every status, or one. */
  datatype StatusFilter = AnyStatus | OnlyStatus(status: BookingStatus)

  function NewestFirst(b: Booking): int { -b.createdAt }

  predicate MatchesFilters(b: Booking, statusFilter: StatusFilter, vehicleFilter: Option<string>) {
    && (statusFilter.OnlyStatus? ==> b.status == statusFilter.status)
    && (vehicleFilter.Some? ==> b.vehicleType == vehicleFilter.value)
  }

  function Keep(statusFilter: StatusFilter, vehicleFilter: Option<string>): Booking -> bool {
    (b: Booking) => MatchesFilters(b, statusFilter, vehicleFilter)
  }

  /** `fetchAllBookings`: the rows that pass the status and vehicle-type
      filters (`None` is "all"), newest first, each as often as the table
      holds it. */
  function FetchAll(rows: seq<Booking>, statusFilter: StatusFilter, vehicleFilter: Option<string>): (r: seq<Booking>)
    ensures forall b :: b in r <==> b in rows && MatchesFilters(b, statusFilter, vehicleFilter)
    ensures forall i, j :: 0 <= i < j < |r| ==> r[i].createdAt >= r[j].createdAt
    ensures multiset(r) == multiset(Filter(rows, Keep(statusFilter, vehicleFilter)))
    ensures multiset(r) <= multiset(rows)
  {
    var keep := Keep(statusFilter, vehicleFilter);
    var selected := Filter(rows, keep);
    FilterMultiset(rows, keep);
    SortByMembers(selected, NewestFirst);
    SortBy(selected, NewestFirst)
  }

  /** With both filters at "all" every row is listed. */
  lemma FetchAllUnfiltered(rows: seq<Booking>)
    ensures multiset(FetchAll(rows, AnyStatus, None)) == multiset(rows)
  {
    FilterKeepsAll(rows, Keep(AnyStatus, None));
  }

  /** The approve and reject buttons are rendered only for the legacy
      `pending` status; a row at any stage of the staged workflow shows the
      approval time instead. */
  predicate ActionsOffered(b: Booking) {
    b.status == Pending
  }

  /** The two buttons. */
  datatype Decision = Accept | Decline

  function DecisionStatus(d: Decision): (s: BookingStatus)
    ensures IsTerminal(s)
    ensures d == Accept <==> s == Approved
    ensures d == Decline <==> s == Rejected
  {
    match d
    case Accept => Approved
    case Decline => Rejected
  }

  /** The object `handleAction` passes to `update`. */
  function ActionPatch(d: Decision, userId: string, now: Timestamp): Patch {
    EmptyPatch.(status := Some(DecisionStatus(d)), approvedBy := Some(userId), approvedAt := Some(now))
  }

  /** A row after the decision: status, `approved_by` and `approved_at`
      change, and every other column, the stage flags included, is kept. */
  function Decide(b: Booking, d: Decision, userId: string, now: Timestamp): (r: Booking)
    ensures r == b.(status := DecisionStatus(d), approvedBy := Some(userId), approvedAt := Some(now))
    ensures r.vietApproval == b.vietApproval && r.koreaApproval == b.koreaApproval
      && r.adminApproval == b.adminApproval
  {
    Apply(b, ActionPatch(d, userId, now))
  }

  /** The table and the page's list after `handleAction`. */
  datatype ActionResult = ActionResult(table: seq<Booking>, shown: seq<Booking>)

  /** `handleAction(id, decision)`. Without a signed-in user nothing
      happens; a failed write leaves both the table and the list as they
      were; otherwise the rows with that id are decided in the table and in
      the list. The two writes read the clock separately (`writtenAt`,
      `shownAt`). */
  function HandleAction(table: seq<Booking>, shown: seq<Booking>, user: Option<User>, id: string, d: Decision,
                        writeOk: bool, writtenAt: Timestamp, shownAt: Timestamp): (r: ActionResult)
    ensures user.None? || !writeOk ==> r.table == table && r.shown == shown
    ensures |r.table| == |table| && |r.shown| == |shown|
    ensures forall i :: 0 <= i < |table| && table[i].id != id ==> r.table[i] == table[i]
    ensures forall i :: 0 <= i < |shown| && shown[i].id != id ==> r.shown[i] == shown[i]
    ensures user.Some? && writeOk ==>
      && (forall i :: 0 <= i < |table| && table[i].id == id ==>
            r.table[i] == Decide(table[i], d, user.value.id, writtenAt))
      && (forall i :: 0 <= i < |shown| && shown[i].id == id ==>
            r.shown[i] == Decide(shown[i], d, user.value.id, shownAt))
  {
    if user.None? || !writeOk then ActionResult(table, shown)
    else
      ActionResult(UpdateWhereId(table, id, ActionPatch(d, user.value.id, writtenAt)),
                   UpdateWhereId(shown, id, ActionPatch(d, user.value.id, shownAt)))
  }

  /** A decided row no longer offers the buttons. */
  lemma DecidedRowLosesActions(b: Booking, d: Decision, userId: string, now: Timestamp)
    ensures !ActionsOffered(Decide(b, d, userId, now))
  {}

  /** The legacy approval leaves a row `approved` while its stage flags say
      whatever they said before: a `pending` row with no flags becomes an
      approved row that no stage ever approved. */
  lemma LegacyApprovalBypassesStages(b: Booking, userId: string, now: Timestamp)
    requires b.status == Pending && b.adminApproval.None?
    ensures Decide(b, Accept, userId, now).status == Approved
    ensures Decide(b, Accept, userId, now).adminApproval.None?
  {}

  // ------------------------------------------------------------- counters

  /** The number of rows with status `s`, counted one position at a time. */
  function StatusIn(list: seq<Booking>, s: BookingStatus): nat {
    if |list| == 0 then 0 else (if list[0].status == s then 1 else 0) + StatusIn(list[1..], s)
  }

  /** The number of listed rows with status `s` (`filter(...).length`). */
  function CountStatus(list: seq<Booking>, s: BookingStatus): (n: nat)
    ensures n <= |list|
    ensures n == 0 <==> forall i :: 0 <= i < |list| ==> list[i].status != s
  {
    var hits := Filter(list, HasStatus(s));
    if |hits| > 0 then
      assert hits[0] in hits;
      |hits|
    else
      assert forall i :: 0 <= i < |list| ==> list[i] in list;
      |hits|
  }

  /** A counter is the number of listed rows with its status, counted one
      position at a time. */
  lemma {:induction false} CountStatusCounts(list: seq<Booking>, s: BookingStatus)
    ensures CountStatus(list, s) == StatusIn(list, s)
  {
    if |list| > 0 {
      CountStatusCounts(list[1..], s);
    }
  }

  /** Putting one row in front of the list raises the counter of its own
      status by one and leaves every other counter as it was. */
  lemma CountStatusStep(b: Booking, list: seq<Booking>, s: BookingStatus)
    ensures CountStatus([b] + list, s) == CountStatus(list, s) + (if b.status == s then 1 else 0)
  {
    assert ([b] + list)[1..] == list;
  }

  /** The "Chờ duyệt" counter: only the legacy `pending` status. */
  function PendingCount(list: seq<Booking>): nat { CountStatus(list, Pending) }

  /** The "Đã duyệt" counter. */
  function ApprovedCount(list: seq<Booking>): nat { CountStatus(list, Approved) }

  /** The "Tổng cộng" counter. */
  function TotalCount(list: seq<Booking>): nat { |list| }

  /** The two status counters never exceed the total. */
  lemma CountersWithinTotal(list: seq<Booking>)
    ensures PendingCount(list) + ApprovedCount(list) <= TotalCount(list)
  {
    CountDisjoint3(list, HasStatus(Pending), HasStatus(Approved), HasStatus(Rejected));
  }

  /** Rows in a staged status are counted by none of the page's counters
      except the total. */
  lemma StagedRowsUncounted(list: seq<Booking>)
    requires forall i :: 0 <= i < |list| ==> list[i].status in {PendingViet, PendingKorea, PendingAdmin}
    ensures PendingCount(list) == 0 && ApprovedCount(list) == 0
  {}

  /** Accepting the one pending row with a given id moves one unit from the
      pending counter to the approved counter. */
  lemma {:induction false} AcceptMovesCounters(table: seq<Booking>, shown: seq<Booking>, user: User, k: nat,
                                               writtenAt: Timestamp, shownAt: Timestamp)
    requires k < |shown| && shown[k].status == Pending
    requires forall i :: 0 <= i < |shown| && i != k ==> shown[i].id != shown[k].id
    ensures var after := HandleAction(table, shown, Some(user), shown[k].id, Accept, true, writtenAt, shownAt).shown;
      && PendingCount(after) == PendingCount(shown) - 1
      && ApprovedCount(after) == ApprovedCount(shown) + 1
  {
    var after := HandleAction(table, shown, Some(user), shown[k].id, Accept, true, writtenAt, shownAt).shown;
    assert after[k].status == Approved;
    CountUpdateAt(shown, after, k, HasStatus(Pending));
    CountUpdateAt(shown, after, k, HasStatus(Approved));
  }
}
