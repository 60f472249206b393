/** The approval list's two actions. Each builds a patch from the approver's
    role alone and writes it to the row with the booking's id. Nothing reads
    the row's current status first, so the same patch is written whatever
    stage the row is at. */
module Approval {

  import opened Types
  import opened Store

  /** The status an approval by `role` writes. */
  function NextStatus(role: ApproverRole): BookingStatus {
    match role
    case ManagerViet => PendingKorea
    case ManagerKorea => PendingAdmin
    case Admin => Approved
  }

  /** The `updates` object of `handleApprove`. */
  function ApprovePatch(role: ApproverRole, actor: Option<string>, now: Timestamp): Patch {
    match role
    case ManagerViet =>
      EmptyPatch.(status := Some(PendingKorea), vietApproval := Some(StageApproved), approverVietId := actor)
    case ManagerKorea =>
      EmptyPatch.(status := Some(PendingAdmin), koreaApproval := Some(StageApproved), approverKoreaId := actor)
    case Admin =>
      EmptyPatch.(status := Some(Approved), adminApproval := Some(StageApproved), approvedBy := actor,
                  approvedAt := Some(now))
  }

  /** The object passed to `update` by `handleReject`: the common fields
      plus the stage flag of the acting role only. */
  function RejectPatch(role: ApproverRole, actor: Option<string>, now: Timestamp): Patch {
    var common := EmptyPatch.(status := Some(Rejected), approvedBy := actor, approvedAt := Some(now));
    match role
    case ManagerViet => common.(vietApproval := Some(StageRejected))
    case ManagerKorea => common.(koreaApproval := Some(StageRejected))
    case Admin => common.(adminApproval := Some(StageRejected))
  }

  /** The row after `role` approves it. Each role writes its own columns and
      nothing else; in particular a manager writes no `approved_by` or
      `approved_at`, and nobody writes another role's stage flag. */
  function Approve(role: ApproverRole, b: Booking, actor: Option<string>, now: Timestamp): (r: Booking)
    ensures role == ManagerViet ==>
      r == b.(status := PendingKorea, vietApproval := Some(StageApproved),
              approverVietId := Overwrite(actor, b.approverVietId))
    ensures role == ManagerKorea ==>
      r == b.(status := PendingAdmin, koreaApproval := Some(StageApproved),
              approverKoreaId := Overwrite(actor, b.approverKoreaId))
    ensures role == Admin ==>
      r == b.(status := Approved, adminApproval := Some(StageApproved),
              approvedBy := Overwrite(actor, b.approvedBy), approvedAt := Some(now))
    ensures r.status == NextStatus(role)
  {
    Apply(b, ApprovePatch(role, actor, now))
  }

  /** The row after `role` rejects it: status `rejected`, the resolution
      fields, and the acting role's flag; the other two flags are untouched. */
  function Reject(role: ApproverRole, b: Booking, actor: Option<string>, now: Timestamp): (r: Booking)
    ensures r.status == Rejected
    ensures r.approvedBy == Overwrite(actor, b.approvedBy) && r.approvedAt == Some(now)
    ensures role == ManagerViet ==>
      r == b.(status := Rejected, vietApproval := Some(StageRejected),
              approvedBy := Overwrite(actor, b.approvedBy), approvedAt := Some(now))
    ensures role == ManagerKorea ==>
      r == b.(status := Rejected, koreaApproval := Some(StageRejected),
              approvedBy := Overwrite(actor, b.approvedBy), approvedAt := Some(now))
    ensures role == Admin ==>
      r == b.(status := Rejected, adminApproval := Some(StageRejected),
              approvedBy := Overwrite(actor, b.approvedBy), approvedAt := Some(now))
  {
    Apply(b, RejectPatch(role, actor, now))
  }

  /** The outcome of the confirm dialog and of the write. */
  datatype Outcome = Dismissed | WriteFailed | Committed

  /** `handleApprove` against the table: when confirmed and written, every
      row with the booking's id is replaced by its approval, whatever its
      current status; otherwise the table is unchanged. */
  function HandleApprove(rows: seq<Booking>, role: ApproverRole, booking: Booking, actor: Option<string>,
                         now: Timestamp, outcome: Outcome): (r: seq<Booking>)
    ensures |r| == |rows|
    ensures outcome != Committed ==> r == rows
    ensures forall i :: 0 <= i < |rows| && rows[i].id != booking.id ==> r[i] == rows[i]
    ensures outcome == Committed ==>
      forall i :: 0 <= i < |rows| && rows[i].id == booking.id ==> r[i] == Approve(role, rows[i], actor, now)
  {
    if outcome == Committed then UpdateWhereId(rows, booking.id, ApprovePatch(role, actor, now)) else rows
  }

  /** `handleReject` against the table, on the same terms. */
  function HandleReject(rows: seq<Booking>, role: ApproverRole, booking: Booking, actor: Option<string>,
                        now: Timestamp, outcome: Outcome): (r: seq<Booking>)
    ensures |r| == |rows|
    ensures outcome != Committed ==> r == rows
    ensures forall i :: 0 <= i < |rows| && rows[i].id != booking.id ==> r[i] == rows[i]
    ensures outcome == Committed ==>
      forall i :: 0 <= i < |rows| && rows[i].id == booking.id ==> r[i] == Reject(role, rows[i], actor, now)
  {
    if outcome == Committed then UpdateWhereId(rows, booking.id, RejectPatch(role, actor, now)) else rows
  }

  // ------------------------------------------------------------- properties

  /** The result of an approval does not depend on the status the row had. */
  lemma ApproveIgnoresStatus(role: ApproverRole, b: Booking, s: BookingStatus, actor: Option<string>, now: Timestamp)
    ensures Approve(role, b.(status := s), actor, now) == Approve(role, b, actor, now)
  {}

  /** Neither does the result of a rejection. */
  lemma RejectIgnoresStatus(role: ApproverRole, b: Booking, s: BookingStatus, actor: Option<string>, now: Timestamp)
    ensures Reject(role, b.(status := s), actor, now) == Reject(role, b, actor, now)
  {}

  /** Approving at viet, then korea, then admin ends at `approved` with all
      three stage flags `approved` and every actor recorded. */
  lemma StagedChainApproves(b: Booking, viet: string, korea: string, admin: string, t1: Timestamp, t2: Timestamp, t3: Timestamp)
    requires b.status == PendingViet
    ensures var r := Approve(Admin, Approve(ManagerKorea, Approve(ManagerViet, b, Some(viet), t1), Some(korea), t2), Some(admin), t3);
      && r.status == Approved
      && r.vietApproval == Some(StageApproved)
      && r.koreaApproval == Some(StageApproved)
      && r.adminApproval == Some(StageApproved)
      && r.approverVietId == Some(viet) && r.approverKoreaId == Some(korea)
      && r.approvedBy == Some(admin) && r.approvedAt == Some(t3)
  {}

  /** Because nothing re-reads the row, an approval that arrives after the
      row was rejected (a stale screen) turns it back into a live booking:
      an admin approval of a rejected row yields `approved`. */
  lemma StaleApprovalRevivesRejected(rows: seq<Booking>, i: nat, booking: Booking, actor: Option<string>, now: Timestamp)
    requires i < |rows| && rows[i].id == booking.id && rows[i].status == Rejected
    ensures HandleApprove(rows, Admin, booking, actor, now, Committed)[i].status == Approved
  {}

  /** A korea manager's approval of a row still waiting for the viet stage
      moves it to the admin stage with the viet flag never set. */
  lemma KoreaApprovalSkipsVietStage(b: Booking, actor: Option<string>, now: Timestamp)
    requires b.status == PendingViet && b.vietApproval == Some(StagePending)
    ensures Approve(ManagerKorea, b, actor, now).status == PendingAdmin
    ensures Approve(ManagerKorea, b, actor, now).vietApproval == Some(StagePending)
  {}
}
