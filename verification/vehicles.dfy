/** The vehicle management page: the client-side search and status filter
    over the loaded vehicles, and the record the vehicle form saves, with
    empty maintenance dates stored as null. */
module Vehicles {

  import opened Types
  import opened Seqs
  import opened Text

  /** The status dropdown: every status, or one. */
  datatype StatusFilter = AnyStatus | OnlyStatus(status: VehicleStatus)

  /** The search test: the lower-cased term occurs in the lower-cased plate,
      name or type. `lower` is `toLowerCase`. */
  predicate MatchesSearch(v: Vehicle, term: string, lower: string -> string) {
    || Contains(lower(v.licensePlate), lower(term))
    || Contains(lower(v.vehicleName), lower(term))
    || Contains(lower(v.vehicleType), lower(term))
  }

  predicate MatchesStatus(v: Vehicle, status: StatusFilter) {
    status.OnlyStatus? ==> v.status == status.status
  }

  /** What the page keeps: an empty term skips the search. */
  predicate Kept(v: Vehicle, term: string, status: StatusFilter, lower: string -> string) {
    (term != "" ==> MatchesSearch(v, term, lower)) && MatchesStatus(v, status)
  }

  function SearchFilter(term: string, lower: string -> string): Vehicle -> bool {
    (v: Vehicle) => MatchesSearch(v, term, lower)
  }

  function StatusTest(status: StatusFilter): Vehicle -> bool {
    (v: Vehicle) => MatchesStatus(v, status)
  }

  function KeptFilter(term: string, status: StatusFilter, lower: string -> string): Vehicle -> bool {
    (v: Vehicle) => Kept(v, term, status, lower)
  }

  /** The two passes of `filterVehicles`, search first, then status. */
  function TwoPass(vs: seq<Vehicle>, term: string, status: StatusFilter, lower: string -> string): seq<Vehicle> {
    var searched := if term != "" then Filter(vs, SearchFilter(term, lower)) else vs;
    if status.OnlyStatus? then Filter(searched, StatusTest(status)) else searched
  }

  /** The two passes keep exactly what one pass with `Kept` keeps. */
  lemma TwoPassIsOnePass(vs: seq<Vehicle>, term: string, status: StatusFilter, lower: string -> string)
    ensures TwoPass(vs, term, status, lower) == Filter(vs, KeptFilter(term, status, lower))
  {
    var kept := KeptFilter(term, status, lower);
    var always := (v: Vehicle) => true;
    if term != "" {
      if status.OnlyStatus? {
        FilterFuse(vs, SearchFilter(term, lower), StatusTest(status), kept);
      } else {
        FilterSamePredicate(vs, SearchFilter(term, lower), kept);
      }
    } else {
      if status.OnlyStatus? {
        FilterSamePredicate(vs, StatusTest(status), kept);
      } else {
        FilterKeepsAll(vs, kept);
      }
    }
  }

  /** `filterVehicles`: an order-preserving selection of exactly the
      vehicles that match the search (when there is one) and the status. */
  function FilterVehicles(vs: seq<Vehicle>, term: string, status: StatusFilter, lower: string -> string): (r: seq<Vehicle>)
    ensures forall v :: v in r <==> v in vs && Kept(v, term, status, lower)
    ensures term != "" ==> forall v :: v in r ==> MatchesSearch(v, term, lower)
    ensures status.OnlyStatus? ==> forall v :: v in r ==> v.status == status.status
    ensures IsSubsequence(r, vs)
  {
    TwoPassIsOnePass(vs, term, status, lower);
    FilterIsSubsequence(vs, KeptFilter(term, status, lower));
    TwoPass(vs, term, status, lower)
  }

  /** With no search and every status the list is shown unchanged. */
  lemma UnfilteredIsIdentity(vs: seq<Vehicle>, lower: string -> string)
    ensures FilterVehicles(vs, "", AnyStatus, lower) == vs
  {}

  /** Filtering the result again with the same criteria changes nothing. */
  lemma FilterVehiclesIdempotent(vs: seq<Vehicle>, term: string, status: StatusFilter, lower: string -> string)
    ensures var r := FilterVehicles(vs, term, status, lower);
      FilterVehicles(r, term, status, lower) == r
  {
    var kept := KeptFilter(term, status, lower);
    var r := FilterVehicles(vs, term, status, lower);
    TwoPassIsOnePass(vs, term, status, lower);
    TwoPassIsOnePass(r, term, status, lower);
    FilterIdempotent(vs, kept);
  }

  // ------------------------------------------------------------------- form

  /** The vehicle form's fields, all strings. */
  datatype VehicleForm = VehicleForm(
    licensePlate: string,
    vehicleName: string,
    vehicleType: string,
    capacity: string,
    status: VehicleStatus,
    driverName: string,
    driverPhone: string,
    lastMaintenanceDate: string,
    nextMaintenanceDate: string,
    notes: string)

  /** `value || ""`. */
  function OrEmpty(s: Option<string>): (r: string)
    ensures Truthy(s) ==> r == s.value
    ensures !Truthy(s) ==> r == ""
  {
    if s.Some? then s.value else ""
  }

  /** `s.split("T")[0]`: the text before the first `T`. */
  function DatePart(s: string): (r: string)
    ensures IsPrefix(r, s) && 'T' !in r
    ensures 'T' !in s ==> r == s
    ensures |r| < |s| ==> s[|r|] == 'T'
  {
    var k := IndexOf(s, 'T');
    if k == -1 then s else s[..k]
  }

  /** A stored date as the form shows it: its date part, or "" when absent. */
  function DateField(d: Option<string>): string {
    if Truthy(d) then DatePart(d.value) else ""
  }

  /** The form's initial values: those of the vehicle being edited, or
      empty strings and `available` for a new one. */
  function InitialForm(editing: Option<Vehicle>): (f: VehicleForm)
    ensures editing.None? ==> f == VehicleForm("", "", "", "", Available, "", "", "", "", "")
    ensures editing.Some? ==> f.licensePlate == editing.value.licensePlate && f.status == editing.value.status
    ensures editing.Some? ==> f.vehicleName == editing.value.vehicleName && f.vehicleType == editing.value.vehicleType
    ensures editing.Some? ==>
      && f.capacity == OrEmpty(editing.value.capacity) && f.notes == OrEmpty(editing.value.notes)
      && f.driverName == OrEmpty(editing.value.driverName) && f.driverPhone == OrEmpty(editing.value.driverPhone)
    ensures editing.Some? && Truthy(editing.value.lastMaintenanceDate) ==>
      f.lastMaintenanceDate == DatePart(editing.value.lastMaintenanceDate.value)
    ensures editing.Some? && !Truthy(editing.value.lastMaintenanceDate) ==> f.lastMaintenanceDate == ""
    ensures editing.Some? && Truthy(editing.value.nextMaintenanceDate) ==>
      f.nextMaintenanceDate == DatePart(editing.value.nextMaintenanceDate.value)
    ensures editing.Some? && !Truthy(editing.value.nextMaintenanceDate) ==> f.nextMaintenanceDate == ""
  {
    match editing
    case None => VehicleForm("", "", "", "", Available, "", "", "", "", "")
    case Some(v) =>
      VehicleForm(v.licensePlate, v.vehicleName, v.vehicleType, OrEmpty(v.capacity), v.status,
                  OrEmpty(v.driverName), OrEmpty(v.driverPhone), DateField(v.lastMaintenanceDate),
                  DateField(v.nextMaintenanceDate), OrEmpty(v.notes))
  }

  /** `field || null` for the two date fields. */
  function NormalizeDate(s: string): (r: Option<string>)
    ensures r.None? <==> s == ""
    ensures r.Some? ==> r.value == s
  {
    if s == "" then None else Some(s)
  }

  /** The row `handleSubmit` writes. The other text fields are stored as
      typed, empty strings included; `id` and `createdAt` are the row's (or
      the database's for a new row), `now` the new `updated_at`. */
  function Saved(f: VehicleForm, id: string, createdAt: Timestamp, now: Timestamp): (v: Vehicle)
    ensures v.lastMaintenanceDate == NormalizeDate(f.lastMaintenanceDate)
    ensures v.nextMaintenanceDate == NormalizeDate(f.nextMaintenanceDate)
    ensures v.capacity == Some(f.capacity) && v.notes == Some(f.notes)
    ensures v.updatedAt == now && v.status == f.status
    ensures v.id == id && v.createdAt == createdAt
    ensures v.licensePlate == f.licensePlate && v.vehicleName == f.vehicleName && v.vehicleType == f.vehicleType
    ensures v.driverName == Some(f.driverName) && v.driverPhone == Some(f.driverPhone)
    ensures !Truthy(v.lastMaintenanceDate) <==> f.lastMaintenanceDate == ""
    ensures !Truthy(v.nextMaintenanceDate) <==> f.nextMaintenanceDate == ""
  {
    Vehicle(id, f.licensePlate, f.vehicleName, f.vehicleType, Some(f.capacity), f.status, Some(f.driverName),
            Some(f.driverPhone), NormalizeDate(f.lastMaintenanceDate), NormalizeDate(f.nextMaintenanceDate),
            Some(f.notes), createdAt, now)
  }

  /** Saving the form of an existing vehicle without edits keeps a plain
      date (no time part) exactly, and stores null for an absent or empty
      one. */
  lemma UneditedDatesRoundTrip(v: Vehicle, now: Timestamp)
    ensures var s := Saved(InitialForm(Some(v)), v.id, v.createdAt, now);
      && (!Truthy(v.nextMaintenanceDate) ==> s.nextMaintenanceDate.None?)
      && (Truthy(v.nextMaintenanceDate) && 'T' !in v.nextMaintenanceDate.value ==>
            s.nextMaintenanceDate == v.nextMaintenanceDate)
      && (!Truthy(v.lastMaintenanceDate) ==> s.lastMaintenanceDate.None?)
      && (Truthy(v.lastMaintenanceDate) && 'T' !in v.lastMaintenanceDate.value ==>
            s.lastMaintenanceDate == v.lastMaintenanceDate)
  {}
}
