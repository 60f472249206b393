/** The bookings table as a sequence of rows, and the one write the approval
    screens issue against it: `.update(patch).eq("id", id)`. A patch names
    the columns it writes; a column whose new value is `undefined` is dropped
    when the patch is serialised, so it is the same as a column not named. */
module Store {

  import opened Types

  datatype Patch = Patch(
    status: Option<BookingStatus>,
    vietApproval: Option<StageFlag>,
    koreaApproval: Option<StageFlag>,
    adminApproval: Option<StageFlag>,
    approverVietId: Option<string>,
    approverKoreaId: Option<string>,
    approvedBy: Option<string>,
    approvedAt: Option<Timestamp>)

  const EmptyPatch: Patch := Patch(None, None, None, None, None, None, None, None)

  /** The row after the patch: each written column takes its new value,
      every other column keeps its old one. */
  function Apply(b: Booking, p: Patch): (r: Booking)
    ensures r.id == b.id && r.createdBy == b.createdBy && r.createdAt == b.createdAt
    ensures p.status.Some? ==> r.status == p.status.value
    ensures p.status.None? ==> r.status == b.status
    ensures p.vietApproval.Some? ==> r.vietApproval == p.vietApproval
    ensures p.vietApproval.None? ==> r.vietApproval == b.vietApproval
    ensures p.koreaApproval.Some? ==> r.koreaApproval == p.koreaApproval
    ensures p.koreaApproval.None? ==> r.koreaApproval == b.koreaApproval
    ensures p.adminApproval.Some? ==> r.adminApproval == p.adminApproval
    ensures p.adminApproval.None? ==> r.adminApproval == b.adminApproval
    ensures p.approverVietId.Some? ==> r.approverVietId == p.approverVietId
    ensures p.approverVietId.None? ==> r.approverVietId == b.approverVietId
    ensures p.approverKoreaId.Some? ==> r.approverKoreaId == p.approverKoreaId
    ensures p.approverKoreaId.None? ==> r.approverKoreaId == b.approverKoreaId
    ensures p.approvedBy.Some? ==> r.approvedBy == p.approvedBy
    ensures p.approvedBy.None? ==> r.approvedBy == b.approvedBy
    ensures p.approvedAt.Some? ==> r.approvedAt == p.approvedAt
    ensures p.approvedAt.None? ==> r.approvedAt == b.approvedAt
    // columns outside the patch are never touched
    ensures r.(status := b.status, vietApproval := b.vietApproval, koreaApproval := b.koreaApproval,
               adminApproval := b.adminApproval, approverVietId := b.approverVietId,
               approverKoreaId := b.approverKoreaId, approvedBy := b.approvedBy, approvedAt := b.approvedAt) == b
  {
    b.(status := p.status.GetOr(b.status),
       vietApproval := Overwrite(p.vietApproval, b.vietApproval),
       koreaApproval := Overwrite(p.koreaApproval, b.koreaApproval),
       adminApproval := Overwrite(p.adminApproval, b.adminApproval),
       approverVietId := Overwrite(p.approverVietId, b.approverVietId),
       approverKoreaId := Overwrite(p.approverKoreaId, b.approverKoreaId),
       approvedBy := Overwrite(p.approvedBy, b.approvedBy),
       approvedAt := Overwrite(p.approvedAt, b.approvedAt))
  }

  /** One nullable column under a patch: the written value, or the old one
      when the patch does not name the column (so a column written with
      `user?.id` keeps its value when there is no user). */
  function Overwrite<T>(written: Option<T>, current: Option<T>): Option<T> {
    if written.Some? then written else current
  }

  lemma ApplyEmpty(b: Booking)
    ensures Apply(b, EmptyPatch) == b
  {}

  /** Applying the same patch twice is the same as applying it once. */
  lemma ApplyIdempotent(b: Booking, p: Patch)
    ensures Apply(Apply(b, p), p) == Apply(b, p)
  {}

  /** `update(p).eq("id", id)`: every row whose id matches is patched, every
      other row is left as it was, and no row is added or removed. */
  function UpdateWhereId(rows: seq<Booking>, id: string, p: Patch): (r: seq<Booking>)
    ensures |r| == |rows|
    ensures forall i :: 0 <= i < |rows| && rows[i].id != id ==> r[i] == rows[i]
    ensures forall i :: 0 <= i < |rows| && rows[i].id == id ==> r[i] == Apply(rows[i], p)
  {
    if |rows| == 0 then []
    else
      var head := if rows[0].id == id then Apply(rows[0], p) else rows[0];
      var rest := UpdateWhereId(rows[1..], id, p);
      assert forall i :: 1 <= i < |rows| ==> rows[i] == rows[1..][i - 1];
      [head] + rest
  }

  /** After the update, a row carries the id exactly when a row did before. */
  lemma UpdateKeepsIds(rows: seq<Booking>, id: string, p: Patch)
    ensures forall i :: 0 <= i < |rows| ==> UpdateWhereId(rows, id, p)[i].id == rows[i].id
  {}
}
