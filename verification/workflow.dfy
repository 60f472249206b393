/** Properties that span several screens: how a booking travels through
    the approvers' queues, what the two notifications of a new booking
    reach, and how the legacy `pending` status sits outside the staged
    queues. */
module Workflow {

  import opened Types
  import opened Seqs
  import Approval
  import Dashboard
  import BookingForm
  import Notifications
  import AllBookings
  import Alerts
  import Vehicles

  /** A newly submitted booking is in the viet manager's queue and in no
      other approver's queue. */
  lemma NewBookingEntersVietQueue(rows: seq<Booking>, f: BookingForm.FormData, vehicles: seq<Vehicle>,
                                  userId: string, id: string, createdAt: Timestamp, travelTime: Timestamp)
    ensures var b := BookingForm.NewBooking(f, vehicles, userId, id, createdAt, travelTime);
      && b in Dashboard.PendingApprovals(rows + [b], Some(ManagerViet))
      && b !in Dashboard.PendingApprovals(rows + [b], Some(ManagerKorea))
      && b !in Dashboard.PendingApprovals(rows + [b], Some(Admin))
  {
    var b := BookingForm.NewBooking(f, vehicles, userId, id, createdAt, travelTime);
    assert (rows + [b])[|rows|] == b;
  }

  /** After a committed viet approval no row with the booking's id is in the
      viet queue any more, and each such row is in the korea queue. */
  lemma VietApprovalHandsOver(rows: seq<Booking>, booking: Booking, actor: Option<string>, now: Timestamp)
    ensures var after := Approval.HandleApprove(rows, ManagerViet, booking, actor, now, Approval.Committed);
      && (forall x :: x in Dashboard.PendingApprovals(after, Some(ManagerViet)) ==> x.id != booking.id)
      && (forall i :: 0 <= i < |after| && after[i].id == booking.id ==>
            after[i] in Dashboard.PendingApprovals(after, Some(ManagerKorea)))
  {
    var after := Approval.HandleApprove(rows, ManagerViet, booking, actor, now, Approval.Committed);
    forall x | x in Dashboard.PendingApprovals(after, Some(ManagerViet)) ensures x.id != booking.id {
      var i :| 0 <= i < |after| && after[i] == x;
    }
  }

  /** The rejection scenario: viet approves, korea rejects. The row ends
      `rejected` with the viet flag approved, the korea flag rejected and
      no admin flag, and it is in no approver's queue. A late admin approval
      from a screen loaded earlier still turns it into `approved`. */
  lemma RejectedAtKoreaStage(b: Booking, viet: string, korea: string, admin: string,
                             t1: Timestamp, t2: Timestamp, t3: Timestamp, role: Option<Role>)
    requires b.status == PendingViet && b.adminApproval.None?
    ensures var r := Approval.Reject(ManagerKorea, Approval.Approve(ManagerViet, b, Some(viet), t1), Some(korea), t2);
      && r.status == Rejected
      && r.vietApproval == Some(StageApproved)
      && r.koreaApproval == Some(StageRejected)
      && r.adminApproval.None?
      && r !in Dashboard.PendingApprovals([r], role)
      && Approval.Approve(Admin, r, Some(admin), t3).status == Approved
  {}

  /** The two notifications of a submit, once stored, reach the requester
      and every viet manager, and a korea manager who is not the requester
      sees neither. */
  lemma SubmitNoticesReach(f: BookingForm.FormData, requester: User, viewer: User,
                           id1: string, id2: string, t: Timestamp)
    ensures var ns := BookingForm.SubmitNotices(f, requester.id);
      && Notifications.IsRelevant(Notifications.Stored(ns[0], id1, t), requester)
      && (viewer.role == Some(ManagerViet) ==> Notifications.IsRelevant(Notifications.Stored(ns[1], id2, t), viewer))
      && (viewer.role == Some(ManagerKorea) && viewer.id != requester.id ==>
            !Notifications.IsRelevant(Notifications.Stored(ns[0], id1, t), viewer)
            && !Notifications.IsRelevant(Notifications.Stored(ns[1], id2, t), viewer))
  {
    RoleRoundTrip(ManagerKorea);
    RoleRoundTrip(ManagerViet);
  }

  /** A row in the legacy `pending` status is in no approver's queue, is
      the only kind the all-bookings page lets the admin decide, and once
      older than two days raises a stuck-booking alert. */
  lemma LegacyPendingLivesOutsideTheStages(rows: seq<Booking>, b: Booking, role: Option<Role>, now: Timestamp)
    requires b in rows && b.status == Pending && b.createdAt < now - Alerts.StuckAfter
    ensures b !in Dashboard.PendingApprovals(rows, role)
    ensures AllBookings.ActionsOffered(b)
    ensures b in Alerts.StuckBookings(rows, now)
  {}

  /** A staged booking never offers the all-bookings page's buttons and
      never raises a stuck-booking alert, however long it waits. */
  lemma StagedRowsNeverLookStuck(rows: seq<Booking>, b: Booking, now: Timestamp)
    requires b.status in {PendingViet, PendingKorea, PendingAdmin}
    ensures !AllBookings.ActionsOffered(b)
    ensures b !in Alerts.StuckBookings(rows, now)
  {}

  /** A vehicle saved with the next-maintenance field left empty raises no
      maintenance alert. */
  lemma EmptyDateRaisesNoAlert(form: Vehicles.VehicleForm, id: string, createdAt: Timestamp, now: Timestamp,
                               daysUntil: string -> int)
    requires form.nextMaintenanceDate == ""
    ensures Alerts.MaintenanceAlertFor(Vehicles.Saved(form, id, createdAt, now), daysUntil).None?
  {}
}
