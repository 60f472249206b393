/** The shared record types of the booking application: roles, booking
    statuses, per-stage approval flags, bookings, vehicles and users.
    Every enumeration that the database stores as text comes with its text
    form and a parser, and the pair is proved to round-trip, which is what
    pins each enumeration down to exactly the listed values. */
module Types {

  datatype Option<+T> = None | Some(value: T) {
    function GetOr(default: T): T {
      match this
      case Some(v) => v
      case None => default
    }
  }

  /** Milliseconds since the epoch; date parsing is outside the model. */
  type Timestamp = int

  const MsPerDay: int := 24 * 60 * 60 * 1000

  /** A JavaScript optional string is truthy only when present and non-empty. */
  predicate Truthy(s: Option<string>) {
    s.Some? && s.value != ""
  }

  // ---------------------------------------------------------------- roles

  datatype Role = Admin | Staff | ManagerViet | ManagerKorea

  const AllRoles: seq<Role> := [Admin, Staff, ManagerViet, ManagerKorea]

  function RoleName(r: Role): string {
    match r
    case Admin => "admin"
    case Staff => "staff"
    case ManagerViet => "manager_viet"
    case ManagerKorea => "manager_korea"
  }

  function ParseRole(s: string): (r: Option<Role>)
    ensures r.Some? ==> RoleName(r.value) == s
    ensures r.None? ==> forall x: Role :: RoleName(x) != s
  {
    if s == "admin" then Some(Admin)
    else if s == "staff" then Some(Staff)
    else if s == "manager_viet" then Some(ManagerViet)
    else if s == "manager_korea" then Some(ManagerKorea)
    else None
  }

  /** The three roles that sit on an approval stage. */
  predicate IsApprover(r: Role) {
    r != Staff
  }

  /** The `approverRole` prop of the approval list: a role other than staff. */
  type ApproverRole = r: Role | IsApprover(r) witness Admin

  lemma RoleRoundTrip(r: Role)
    ensures ParseRole(RoleName(r)) == Some(r)
  {}

  lemma RolesAreExactlyFour()
    ensures |AllRoles| == 4
    ensures forall r: Role :: r in AllRoles
    ensures forall i, j :: 0 <= i < j < |AllRoles| ==> RoleName(AllRoles[i]) != RoleName(AllRoles[j])
  {
    forall r: Role ensures r in AllRoles {
      match r
      case Admin => assert AllRoles[0] == r;
      case Staff => assert AllRoles[1] == r;
      case ManagerViet => assert AllRoles[2] == r;
      case ManagerKorea => assert AllRoles[3] == r;
    }
  }

  // ------------------------------------------------------------- statuses

  datatype BookingStatus =
    | Pending        // legacy single-step flow
    | PendingViet
    | PendingKorea
    | PendingAdmin
    | Approved
    | Rejected
    | Completed
    | Cancelled

  const AllStatuses: seq<BookingStatus> :=
    [Pending, PendingViet, PendingKorea, PendingAdmin, Approved, Rejected, Completed, Cancelled]

  function StatusName(s: BookingStatus): string {
    match s
    case Pending => "pending"
    case PendingViet => "pending_viet"
    case PendingKorea => "pending_korea"
    case PendingAdmin => "pending_admin"
    case Approved => "approved"
    case Rejected => "rejected"
    case Completed => "completed"
    case Cancelled => "cancelled"
  }

  function ParseStatus(t: string): (r: Option<BookingStatus>)
    ensures r.Some? ==> StatusName(r.value) == t
    ensures r.None? ==> forall x: BookingStatus :: StatusName(x) != t
  {
    if t == "pending" then Some(Pending)
    else if t == "pending_viet" then Some(PendingViet)
    else if t == "pending_korea" then Some(PendingKorea)
    else if t == "pending_admin" then Some(PendingAdmin)
    else if t == "approved" then Some(Approved)
    else if t == "rejected" then Some(Rejected)
    else if t == "completed" then Some(Completed)
    else if t == "cancelled" then Some(Cancelled)
    else None
  }

  /** The statuses a booking never leaves through any approval screen. */
  predicate IsTerminal(s: BookingStatus) {
    s == Approved || s == Rejected || s == Completed || s == Cancelled
  }

  lemma StatusRoundTrip(s: BookingStatus)
    ensures ParseStatus(StatusName(s)) == Some(s)
  {}

  lemma StatusesAreExactlyEight()
    ensures |AllStatuses| == 8
    ensures forall s: BookingStatus :: s in AllStatuses
    ensures forall i, j :: 0 <= i < j < |AllStatuses| ==> StatusName(AllStatuses[i]) != StatusName(AllStatuses[j])
  {
    forall s: BookingStatus ensures s in AllStatuses {
      match s
      case Pending => assert AllStatuses[0] == s;
      case PendingViet => assert AllStatuses[1] == s;
      case PendingKorea => assert AllStatuses[2] == s;
      case PendingAdmin => assert AllStatuses[3] == s;
      case Approved => assert AllStatuses[4] == s;
      case Rejected => assert AllStatuses[5] == s;
      case Completed => assert AllStatuses[6] == s;
      case Cancelled => assert AllStatuses[7] == s;
    }
  }

  /** Four of the eight statuses are terminal. */
  lemma TerminalStatusesAreFour()
    ensures |set s | s in AllStatuses && IsTerminal(s)| == 4
  {
    assert (set s | s in AllStatuses && IsTerminal(s)) == {Approved, Rejected, Completed, Cancelled} by {
      assert AllStatuses[4] == Approved && AllStatuses[5] == Rejected;
      assert AllStatuses[6] == Completed && AllStatuses[7] == Cancelled;
    }
  }

  // ---------------------------------------------------------- stage flags

  /** The value of one of `viet_approval_status`, `korea_approval_status`,
      `admin_approval_status` when the column is set. */
  datatype StageFlag = StagePending | StageApproved | StageRejected

  function FlagName(f: StageFlag): string {
    match f
    case StagePending => "pending"
    case StageApproved => "approved"
    case StageRejected => "rejected"
  }

  function ParseFlag(t: string): (r: Option<StageFlag>)
    ensures r.Some? ==> FlagName(r.value) == t
    ensures r.None? ==> forall x: StageFlag :: FlagName(x) != t
  {
    if t == "pending" then Some(StagePending)
    else if t == "approved" then Some(StageApproved)
    else if t == "rejected" then Some(StageRejected)
    else None
  }

  lemma FlagRoundTrip(f: StageFlag)
    ensures ParseFlag(FlagName(f)) == Some(f)
  {}

  // -------------------------------------------------------------- booking

  /** A row of the `bookings` table. The seven fields without `Option` are
      the ones the row always has; every approval field is optional. */
  datatype Booking = Booking(
    id: string,
    vehicleType: string,
    vehicleId: Option<string>,
    travelTime: Timestamp,
    reason: string,
    status: BookingStatus,
    cargoType: Option<string>,
    cargoWeight: Option<string>,
    destination: Option<string>,
    requesterName: Option<string>,
    requesterDepartment: Option<string>,
    driverInfo: Option<string>,
    approverVietId: Option<string>,
    approverKoreaId: Option<string>,
    vietApproval: Option<StageFlag>,
    koreaApproval: Option<StageFlag>,
    adminApproval: Option<StageFlag>,
    approvedAt: Option<Timestamp>,
    approvedBy: Option<string>,
    createdBy: string,
    createdAt: Timestamp,
    updatedAt: Option<Timestamp>,
    creatorEmail: Option<string>)

  /** Whether a row stands at the given status. */
  function HasStatus(s: BookingStatus): Booking -> bool {
    (b: Booking) => b.status == s
  }

  // -------------------------------------------------------------- vehicle

  datatype VehicleStatus = Available | InUse | Maintenance | Retired

  const AllVehicleStatuses: seq<VehicleStatus> := [Available, InUse, Maintenance, Retired]

  function VehicleStatusName(s: VehicleStatus): string {
    match s
    case Available => "available"
    case InUse => "in_use"
    case Maintenance => "maintenance"
    case Retired => "retired"
  }

  function ParseVehicleStatus(t: string): (r: Option<VehicleStatus>)
    ensures r.Some? ==> VehicleStatusName(r.value) == t
    ensures r.None? ==> forall x: VehicleStatus :: VehicleStatusName(x) != t
  {
    if t == "available" then Some(Available)
    else if t == "in_use" then Some(InUse)
    else if t == "maintenance" then Some(Maintenance)
    else if t == "retired" then Some(Retired)
    else None
  }

  lemma VehicleStatusRoundTrip(s: VehicleStatus)
    ensures ParseVehicleStatus(VehicleStatusName(s)) == Some(s)
  {}

  lemma VehicleStatusesAreExactlyFour()
    ensures |AllVehicleStatuses| == 4
    ensures forall s: VehicleStatus :: s in AllVehicleStatuses
  {
    forall s: VehicleStatus ensures s in AllVehicleStatuses {
      match s
      case Available => assert AllVehicleStatuses[0] == s;
      case InUse => assert AllVehicleStatuses[1] == s;
      case Maintenance => assert AllVehicleStatuses[2] == s;
      case Retired => assert AllVehicleStatuses[3] == s;
    }
  }

  datatype Vehicle = Vehicle(
    id: string,
    licensePlate: string,
    vehicleName: string,
    vehicleType: string,
    capacity: Option<string>,
    status: VehicleStatus,
    driverName: Option<string>,
    driverPhone: Option<string>,
    lastMaintenanceDate: Option<string>,
    nextMaintenanceDate: Option<string>,
    notes: Option<string>,
    createdAt: Timestamp,
    updatedAt: Timestamp)

  // ----------------------------------------------------------------- user

  /** The signed-in user as the auth context resolves it. The role column
      may be missing, which several screens test for. */
  datatype User = User(id: string, email: string, role: Option<Role>)

  /** `user?.role`: no role when nobody is signed in. */
  function RoleOf(user: Option<User>): Option<Role> {
    if user.Some? then user.value.role else None
  }
}
