/** The dashboard page: which tab a user starts on, whether the approvals
    tab is offered, and the two queries behind the approvals and history
    tabs. The role decides the single status an approver's queue shows. */
module Dashboard {

  import opened Types
  import opened Seqs
  import Approval

  /** The status `fetchPendingApprovals` selects for a role; staff and a
      missing role select nothing and get an empty queue. */
  function GatingStatus(role: Option<Role>): (r: Option<BookingStatus>)
    ensures r.Some? <==> role.Some? && IsApprover(role.value)
    ensures r.Some? ==> r.value in {PendingViet, PendingKorea, PendingAdmin}
  {
    if role == Some(ManagerViet) then Some(PendingViet)
    else if role == Some(ManagerKorea) then Some(PendingKorea)
    else if role == Some(Admin) then Some(PendingAdmin)
    else None
  }

  /** Distinct roles gate distinct statuses. */
  lemma GatingIsInjective(r1: Role, r2: Role)
    requires GatingStatus(Some(r1)).Some? && GatingStatus(Some(r1)) == GatingStatus(Some(r2))
    ensures r1 == r2
  {}

  /** An approval moves a row out of the acting role's gating status and,
      for a manager, into the gating status of the next role in the chain. */
  lemma ApprovalAdvancesGate(role: ApproverRole)
    ensures GatingStatus(Some(role)) != Some(Approval.NextStatus(role))
    ensures role == ManagerViet ==> GatingStatus(Some(ManagerKorea)) == Some(Approval.NextStatus(role))
    ensures role == ManagerKorea ==> GatingStatus(Some(Admin)) == Some(Approval.NextStatus(role))
    ensures role == Admin ==> forall r: Role :: GatingStatus(Some(r)) != Some(Approval.NextStatus(role))
  {}

  function CreatedAt(b: Booking): int { b.createdAt }

  function NewestFirst(b: Booking): int { -b.createdAt }

  /** `fetchPendingApprovals`: the rows at the role's gating status,
      oldest first. */
  function PendingApprovals(rows: seq<Booking>, role: Option<Role>): (r: seq<Booking>)
    ensures GatingStatus(role).None? ==> r == []
    ensures forall b :: b in r <==> b in rows && GatingStatus(role) == Some(b.status)
    ensures forall i, j :: 0 <= i < j < |r| ==> r[i].createdAt <= r[j].createdAt
    ensures multiset(r) <= multiset(rows)
    ensures GatingStatus(role).Some? ==> multiset(r) == multiset(Filter(rows, HasStatus(GatingStatus(role).value)))
  {
    match GatingStatus(role)
    case None => []
    case Some(s) =>
      var selected := Filter(rows, HasStatus(s));
      FilterMultiset(rows, HasStatus(s));
      SortByMembers(selected, CreatedAt);
      SortBy(selected, CreatedAt)
  }

  /** `canApprove`: one of the three approver roles; a missing role counts
      as staff. */
  function CanApprove(role: Option<Role>): (r: bool)
    ensures r <==> role.Some? && role.value in {ManagerViet, ManagerKorea, Admin}
  {
    role.GetOr(Staff) in [ManagerViet, ManagerKorea, Admin]
  }

  /** The approvals tab is offered exactly to the roles that have a queue. */
  lemma CanApproveIffQueue(role: Option<Role>)
    ensures CanApprove(role) <==> GatingStatus(role).Some?
  {}

  /** No role's queue ever contains a row in the legacy `pending` status. */
  lemma LegacyPendingInNoQueue(rows: seq<Booking>, role: Option<Role>, b: Booking)
    requires b.status == Pending
    ensures b !in PendingApprovals(rows, role)
  {}

  datatype Tab = Create | MyHistory | Approvals

  /** The tab the page settles on once the user is known: approvers start on
      the approvals tab, everybody else keeps `create`. */
  function InitialTab(user: Option<User>): (t: Tab)
    ensures t == Approvals <==> CanApprove(RoleOf(user))
    ensures t != Approvals ==> t == Create
  {
    if user.Some? && user.value.role.Some? && user.value.role.value in [ManagerViet, ManagerKorea, Admin]
    then Approvals
    else Create
  }

  /** The approval list is rendered only on the approvals tab and only for
      a user who can approve. */
  predicate ShowsApprovalList(tab: Tab, role: Option<Role>) {
    tab == Approvals && CanApprove(role)
  }

  function CreatedBy(userId: string): Booking -> bool {
    (b: Booking) => b.createdBy == userId
  }

  /** `fetchMyBookings`: exactly the rows the user created, newest first,
      each as often as the table holds it. */
  function MyHistory(rows: seq<Booking>, userId: string): (r: seq<Booking>)
    ensures forall b :: b in r <==> b in rows && b.createdBy == userId
    ensures forall i, j :: 0 <= i < j < |r| ==> r[i].createdAt >= r[j].createdAt
    ensures multiset(r) == multiset(Filter(rows, CreatedBy(userId)))
    ensures |r| <= |rows|
  {
    var mine := Filter(rows, CreatedBy(userId));
    SortByMembers(mine, NewestFirst);
    SortBy(mine, NewestFirst)
  }
}
