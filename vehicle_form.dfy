/** The vehicle form: its default values, the schema it declares, the id of a new
    vehicle, the save into the stored vehicle list, and where the browser goes next.
    `Math.random()` is the parameter `n`, already scaled to 0..9999; the current year is
    the parameter `currentYear`. */
module VehicleForm {
  import opened Wrappers
  import opened Text
  import opened Entities
  import opened Store
  import opened Records

  const IdPrefix := "VEH-"
  const VehiclesRoute := "/vehicles"

  datatype Values = Values(
    customerId: string, make: string, model: string, year: string, registrationNumber: string,
    engineNumber: string, chassisNumber: string, odometerReading: string, fuelType: string, notes: string)

  predicate IsEditMode(vehicleId: string) { vehicleId != "" }

  /** The defaults (the preselected customer, this year) with `initialData` spread over
      them: an existing vehicle supplies every field. */
  function DefaultValues(preselectedCustomerId: string, currentYear: nat, initialData: Option<Vehicle>): (r: Values)
    ensures initialData.None? ==> r.customerId == preselectedCustomerId && r.year == NatToString(currentYear)
                                  && r.make == "" && r.model == "" && r.registrationNumber == ""
    ensures initialData.Some? ==> r.customerId == initialData.value.customerId && r.year == initialData.value.year
  {
    match initialData
    case None => Values(preselectedCustomerId, "", "", NatToString(currentYear), "", "", "", "", "", "")
    case Some(v) =>
      Values(v.customerId, v.make, v.model, v.year, v.registrationNumber, v.engineNumber,
             v.chassisNumber, v.odometerReading, v.fuelType, v.notes)
  }

  /** The declared schema: customer, make, model and registration required, a year of
      exactly four digits. Its resolver is commented out, so nothing checks it. */
  predicate SchemaAccepts(v: Values) {
    v.customerId != "" && v.make != "" && v.model != "" && v.registrationNumber != ""
    && |v.year| == 4 && AllDigits(v.year)
  }

  /** A four-digit year written by `String` passes the year rule. */
  lemma DefaultYearPasses(currentYear: nat)
    requires 1000 <= currentYear <= 9999
    ensures |NatToString(currentYear)| == 4 && AllDigits(NatToString(currentYear))
  {
    NatToStringShort(currentYear, 4);
    NatToStringLong(currentYear, 4);
  }

  /** The untouched new-vehicle form fails the declared schema; Save below stores it
      anyway, since no resolver is attached. */
  lemma BlankFormFailsSchema(preselectedCustomerId: string, currentYear: nat)
    ensures !SchemaAccepts(DefaultValues(preselectedCustomerId, currentYear, None))
  {
  }

  function ToVehicle(id: string, v: Values): Vehicle {
    Vehicle(id, v.customerId, v.make, v.model, v.year, v.registrationNumber, v.engineNumber,
            v.chassisNumber, v.odometerReading, v.fuelType, v.notes)
  }

  function SavedId(vehicleId: string, n: nat): (r: string)
    requires n < 10000
    ensures IsEditMode(vehicleId) ==> r == vehicleId
    ensures !IsEditMode(vehicleId) ==> StartsWith(r, IdPrefix) && |r| == 8
                                       && AllDigits(r[4..]) && ParseNat(r[4..]) == n
  {
    if IsEditMode(vehicleId) then vehicleId else NewId(IdPrefix, n)
  }

  /** Where the browser goes after a save: the preselected customer's page when there is
      one, otherwise the vehicle list. */
  function NextRoute(preselectedCustomerId: string): (r: string)
    ensures preselectedCustomerId != "" ==> r == "/customers/" + preselectedCustomerId
    ensures preselectedCustomerId == "" ==> r == VehiclesRoute
  {
    if preselectedCustomerId != "" then "/customers/" + preselectedCustomerId else VehiclesRoute
  }

  /** `onSubmit`: whatever the values, the record goes into the stored list. */
  method Save(store: LocalStore, vehicleId: string, preselectedCustomerId: string, data: Values, n: nat)
    returns (saved: Vehicle, toast: string, route: string)
    requires n < 10000
    modifies store
    ensures saved == ToVehicle(SavedId(vehicleId, n), data)
    ensures store.vehicles == Some(Upserted(ListOrEmpty(old(store.vehicles)), VehicleId, vehicleId, saved))
    ensures toast == (if IsEditMode(vehicleId) then "Vehicle updated successfully" else "Vehicle added successfully")
    ensures route == NextRoute(preselectedCustomerId)
    ensures store.customers == old(store.customers) && store.inventory == old(store.inventory)
    ensures store.customServices == old(store.customServices) && store.selectedServices == old(store.selectedServices)
  {
    var id := if vehicleId != "" then vehicleId else IdPrefix + Pad4(n);
    saved := Vehicle(id, data.customerId, data.make, data.model, data.year, data.registrationNumber,
                     data.engineNumber, data.chassisNumber, data.odometerReading, data.fuelType, data.notes);
    var existingVehicles := ListOrEmpty(store.vehicles);
    if vehicleId != "" {
      store.vehicles := Some(Collections.ReplaceWhere(existingVehicles, VehicleId, vehicleId, saved));
      toast := "Vehicle updated successfully";
    } else {
      existingVehicles := existingVehicles + [saved];
      store.vehicles := Some(existingVehicles);
      toast := "Vehicle added successfully";
    }
    if preselectedCustomerId != "" {
      route := "/customers/" + preselectedCustomerId;
    } else {
      route := VehiclesRoute;
    }
  }

  /** Editing a vehicle and saving the form unchanged stores the vehicle as it was. */
  lemma EditUnchanged(v: Vehicle, preselectedCustomerId: string, currentYear: nat)
    requires v.id != ""
    ensures ToVehicle(SavedId(v.id, 0), DefaultValues(preselectedCustomerId, currentYear, Some(v))) == v
  {
  }
}
