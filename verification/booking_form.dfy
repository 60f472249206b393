/** The booking request form: its validation schema, the vehicle options it
    offers, how the chosen option resolves to a vehicle and driver, the row
    it inserts and the two notifications it sends after a successful insert. */
module BookingForm {

  import opened Types
  import opened Seqs
  import Notifications

  // ----------------------------------------------------------- validation

  datatype FormField =
    | RequesterName | RequesterDepartment | VehicleChoice | CargoType
    | CargoWeight | Destination | TravelTime | Reason

  const SchemaFields: seq<FormField> :=
    [RequesterName, RequesterDepartment, VehicleChoice, CargoType, CargoWeight, Destination, TravelTime, Reason]

  /** The schema names every field of the form. */
  lemma SchemaCoversFields()
    ensures forall field: FormField :: field in SchemaFields
  {
    forall field: FormField ensures field in SchemaFields {
      match field
      case RequesterName => assert SchemaFields[0] == field;
      case RequesterDepartment => assert SchemaFields[1] == field;
      case VehicleChoice => assert SchemaFields[2] == field;
      case CargoType => assert SchemaFields[3] == field;
      case CargoWeight => assert SchemaFields[4] == field;
      case Destination => assert SchemaFields[5] == field;
      case TravelTime => assert SchemaFields[6] == field;
      case Reason => assert SchemaFields[7] == field;
    }
  }

  /** The form values; `vehicleChoice` holds the selected option's value. */
  datatype FormData = FormData(
    requesterName: string,
    requesterDepartment: string,
    vehicleChoice: string,
    cargoType: string,
    cargoWeight: string,
    destination: string,
    travelTime: string,
    reason: string)

  function FieldValue(f: FormData, field: FormField): string {
    match field
    case RequesterName => f.requesterName
    case RequesterDepartment => f.requesterDepartment
    case VehicleChoice => f.vehicleChoice
    case CargoType => f.cargoType
    case CargoWeight => f.cargoWeight
    case Destination => f.destination
    case TravelTime => f.travelTime
    case Reason => f.reason
  }

  /** Every field holds at least one character. */
  predicate Filled(f: FormData) {
    && f.requesterName != "" && f.requesterDepartment != "" && f.vehicleChoice != "" && f.cargoType != ""
    && f.cargoWeight != "" && f.destination != "" && f.travelTime != "" && f.reason != ""
  }

  /** The fields of `fields`, in order, whose value in `f` is empty. */
  function EmptyFields(fields: seq<FormField>, f: FormData): (r: seq<FormField>)
    ensures forall x :: x in r <==> x in fields && FieldValue(f, x) == ""
  {
    if |fields| == 0 then []
    else (if FieldValue(f, fields[0]) == "" then [fields[0]] else []) + EmptyFields(fields[1..], f)
  }

  /** `bookingSchema`: every field is a string of length at least one.
      The result lists the failing fields in schema order. */
  function ValidationErrors(f: FormData): (errs: seq<FormField>)
    ensures forall field :: field in errs <==> FieldValue(f, field) == ""
    ensures |errs| == 0 <==> Filled(f)
  {
    var errs := EmptyFields(SchemaFields, f);
    SchemaCoversFields();
    if |errs| > 0 then
      assert FieldValue(f, errs[0]) == "";
      errs
    else
      assert RequesterName !in errs && RequesterDepartment !in errs && VehicleChoice !in errs;
      assert CargoType !in errs && CargoWeight !in errs && Destination !in errs;
      assert TravelTime !in errs && Reason !in errs;
      errs
  }

  // ------------------------------------------------------ vehicle options

  datatype SelectOption = SelectOption(caption: string, value: string)

  const Other: string := "Khác"

  /** The static options the form starts with. */
  const DefaultVehicleOptions: seq<SelectOption> := [
    SelectOption("Xe tải nhỏ (500kg - 1 tấn)", "Xe tải nhỏ"),
    SelectOption("Xe tải trung (1.5 - 2.5 tấn)", "Xe tải trung"),
    SelectOption("Xe bán tải", "Xe bán tải"),
    SelectOption("Xe nâng", "Xe nâng"),
    SelectOption("Xe cẩu", "Xe cẩu"),
    SelectOption(Other, Other)
  ]

  /** The vehicles `fetchVehicleTypes` loads: every vehicle not retired. */
  function LiveVehicles(all: seq<Vehicle>): (r: seq<Vehicle>)
    ensures forall v :: v in r <==> v in all && v.status != Retired
    ensures IsSubsequence(r, all)
  {
    FilterIsSubsequence(all, (v: Vehicle) => v.status != Retired);
    Filter(all, (v: Vehicle) => v.status != Retired)
  }

  function VehicleOption(v: Vehicle): SelectOption {
    SelectOption(v.vehicleName + " (" + v.licensePlate + ")", v.id)
  }

  function VehicleOptionList(vs: seq<Vehicle>): (r: seq<SelectOption>)
    ensures |r| == |vs|
    ensures forall i :: 0 <= i < |vs| ==> r[i].value == vs[i].id
  {
    if |vs| == 0 then [] else [VehicleOption(vs[0])] + VehicleOptionList(vs[1..])
  }

  /** The options shown: one per live vehicle, valued by its id, then a
      single "Khác"; with no live vehicle the static defaults stay. */
  function VehicleOptions(all: seq<Vehicle>): (r: seq<SelectOption>)
    ensures |LiveVehicles(all)| == 0 ==> r == DefaultVehicleOptions
    ensures |LiveVehicles(all)| > 0 ==>
      && |r| == |LiveVehicles(all)| + 1
      && (forall i :: 0 <= i < |r| - 1 ==> r[i].value == LiveVehicles(all)[i].id)
      && r[|r| - 1] == SelectOption(Other, Other)
  {
    var live := LiveVehicles(all);
    if |live| > 0 then VehicleOptionList(live) + [SelectOption(Other, Other)] else DefaultVehicleOptions
  }

  // -------------------------------------------------- vehicle resolution

  /** `vehicles.find(v => v.id === choice)`: the first loaded vehicle with
      the chosen id. */
  function SelectedVehicle(vehicles: seq<Vehicle>, choice: string): (r: Option<Vehicle>)
    ensures r.Some? ==> r.value in vehicles && r.value.id == choice
    ensures r.Some? ==> exists k :: 0 <= k < |vehicles| && vehicles[k] == r.value && forall i :: 0 <= i < k ==> vehicles[i].id != choice
    ensures r.None? ==> forall v :: v in vehicles ==> v.id != choice
  {
    FindFirst(vehicles, (v: Vehicle) => v.id == choice)
  }

  /** The `driver_info` text: empty without a vehicle or a driver name, the
      name alone without a phone, otherwise "name (phone)". */
  function DriverInfo(selected: Option<Vehicle>): (r: string)
    ensures !(selected.Some? && Truthy(selected.value.driverName)) ==> r == ""
    ensures selected.Some? && Truthy(selected.value.driverName) && !Truthy(selected.value.driverPhone) ==>
      r == selected.value.driverName.value
    ensures selected.Some? && Truthy(selected.value.driverName) && Truthy(selected.value.driverPhone) ==>
      r == selected.value.driverName.value + " (" + selected.value.driverPhone.value + ")"
  {
    if selected.Some? && Truthy(selected.value.driverName) then
      selected.value.driverName.value
        + (if Truthy(selected.value.driverPhone) then " (" + selected.value.driverPhone.value + ")" else "")
    else ""
  }

  // ------------------------------------------------------------ the row

  /** The row `onSubmit` inserts; `id` and `createdAt` are the database's
      defaults, `travelTime` the parsed form time. The columns the insert
      does not name (the Korean and admin flags, the approver ids,
      `approved_by`, `approved_at`, `updated_at`) are taken as null. */
  function NewBooking(f: FormData, vehicles: seq<Vehicle>, userId: string, id: string,
                      createdAt: Timestamp, travelTime: Timestamp): (b: Booking)
    ensures b.status == PendingViet && b.vietApproval == Some(StagePending)
    ensures b.koreaApproval.None? && b.adminApproval.None?
    ensures b.approverVietId.None? && b.approverKoreaId.None? && b.approvedBy.None? && b.approvedAt.None?
    ensures b.createdBy == userId
    ensures b.requesterName == Some(f.requesterName) && b.destination == Some(f.destination)
    ensures b.reason == f.reason && b.travelTime == travelTime
    ensures b.cargoType == Some(f.cargoType) && b.cargoWeight == Some(f.cargoWeight)
    ensures b.requesterDepartment == Some(f.requesterDepartment)
    ensures b.driverInfo == Some(DriverInfo(SelectedVehicle(vehicles, f.vehicleChoice)))
    ensures b.id == id && b.createdAt == createdAt
    ensures (exists v :: v in vehicles && v.id == f.vehicleChoice) ==>
      exists v :: v in vehicles && v.id == f.vehicleChoice && b.vehicleType == v.vehicleName && b.vehicleId == Some(v.id)
    ensures (forall v :: v in vehicles ==> v.id != f.vehicleChoice) ==>
      b.vehicleType == Other && b.vehicleId.None? && b.driverInfo == Some("")
  {
    var selected := SelectedVehicle(vehicles, f.vehicleChoice);
    Booking(
      id := id,
      vehicleType := if selected.Some? then selected.value.vehicleName else Other,
      vehicleId := if selected.Some? then Some(selected.value.id) else None,
      travelTime := travelTime,
      reason := f.reason,
      status := PendingViet,
      cargoType := Some(f.cargoType),
      cargoWeight := Some(f.cargoWeight),
      destination := Some(f.destination),
      requesterName := Some(f.requesterName),
      requesterDepartment := Some(f.requesterDepartment),
      driverInfo := Some(DriverInfo(selected)),
      approverVietId := None,
      approverKoreaId := None,
      vietApproval := Some(StagePending),
      koreaApproval := None,
      adminApproval := None,
      approvedAt := None,
      approvedBy := None,
      createdBy := userId,
      createdAt := createdAt,
      updatedAt := None,
      creatorEmail := None)
  }

  const NewRequestTitle: string := "Yêu cầu đặt xe mới"

  /** The two `addNotification` calls after a successful insert. */
  function SubmitNotices(f: FormData, userId: string): (ns: seq<Notifications.Request>)
    ensures |ns| == 2
    ensures ns[0].kind == Some(Notifications.Success) && ns[0].userId == Some(userId) && ns[0].targetRole.None?
    ensures ns[1].kind == Some(Notifications.Info) && ns[1].userId.None?
      && ns[1].targetRole == Some(RoleName(ManagerViet))
  {
    [ Notifications.Request(NewRequestTitle, "Bạn đã tạo yêu cầu đặt xe đi " + f.destination,
                            Some(Notifications.Success), Some(userId), None),
      Notifications.Request(NewRequestTitle, f.requesterName + " vừa tạo yêu cầu đi " + f.destination,
                            Some(Notifications.Info), None, Some(RoleName(ManagerViet))) ]
  }

  datatype SubmitResult =
    | Invalid(errors: seq<FormField>)
    | NotSignedIn
    | Failed
    | Submitted(booking: Booking, notices: seq<Notifications.Request>)

  /** A submit: the schema runs first; with no user nothing happens; a time
      that does not parse or a failed insert shows the error and sends no
      notification; otherwise the row is inserted and both notices are sent. */
  function Submit(user: Option<User>, f: FormData, vehicles: seq<Vehicle>, id: string, createdAt: Timestamp,
                  travelTime: Option<Timestamp>, insertOk: bool): (r: SubmitResult)
    ensures r.Invalid? <==> |ValidationErrors(f)| > 0
    ensures r.Invalid? ==> r.errors == ValidationErrors(f) && |r.errors| > 0
    ensures r.NotSignedIn? <==> |ValidationErrors(f)| == 0 && user.None?
    ensures r.Submitted? <==> |ValidationErrors(f)| == 0 && user.Some? && travelTime.Some? && insertOk
    ensures r.Submitted? ==>
      && r.booking.status == PendingViet && r.booking.vietApproval == Some(StagePending)
      && r.booking.createdBy == user.value.id
      && |r.notices| == 2
    ensures r.Submitted? ==>
      && r.booking == NewBooking(f, vehicles, user.value.id, id, createdAt, travelTime.value)
      && r.notices == SubmitNotices(f, user.value.id)
  {
    var errs := ValidationErrors(f);
    if |errs| > 0 then Invalid(errs)
    else if user.None? then NotSignedIn
    else if travelTime.None? || !insertOk then Failed
    else Submitted(NewBooking(f, vehicles, user.value.id, id, createdAt, travelTime.value),
                   SubmitNotices(f, user.value.id))
  }
}
