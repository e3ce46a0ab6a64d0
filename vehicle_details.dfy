/** The vehicle page: an effect looks the route's id up among the vehicles and, when
    found, stores the vehicle and its owner's name; the page lists the vehicle's job
    cards and shows the date of the first of them as the last service. */
module VehicleDetails {
  import opened Wrappers
  import opened Collections
  import opened Entities
  import VehicleList

  const NoServiceHistory := "No service history"

  function IdIs(id: string): Vehicle -> bool { (v: Vehicle) => v.id == id }
  function ForVehicle(vehicleId: string): JobCard -> bool { (j: JobCard) => j.vehicleId == vehicleId }

  /** `getRelatedJobCards`: the job cards of the vehicle, in their order. */
  function RelatedJobCards(jobCards: seq<JobCard>, vehicleId: string): (r: seq<JobCard>)
    ensures |r| <= |jobCards|
    ensures r == Filter(jobCards, ForVehicle(vehicleId))
    ensures forall j :: j in r <==> j in jobCards && j.vehicleId == vehicleId
  {
    Filter(jobCards, ForVehicle(vehicleId))
  }

  /** The last-service cell: the first related card's date of service, formatted by
      `fmt`, or 'No service history'. The first related card is the first card of the
      vehicle in the stored order, whatever its date. */
  function LastService(related: seq<JobCard>, fmt: int -> string): (r: string)
    ensures related == [] ==> r == NoServiceHistory
    ensures related != [] ==> r == fmt(related[0].dateOfService)
  {
    if |related| > 0 then fmt(related[0].dateOfService) else NoServiceHistory
  }

  /** The first related card is the first job card, in the stored order, that belongs
      to the vehicle. */
  lemma LastServiceIsFirstCard(jobCards: seq<JobCard>, vehicleId: string, k: nat, fmt: int -> string)
    requires k < |jobCards| && jobCards[k].vehicleId == vehicleId
    requires forall i :: 0 <= i < k ==> jobCards[i].vehicleId != vehicleId
    ensures LastService(RelatedJobCards(jobCards, vehicleId), fmt) == fmt(jobCards[k].dateOfService)
  {
    assert jobCards == jobCards[..k] + jobCards[k..];
    FilterAppend(jobCards[..k], jobCards[k..], ForVehicle(vehicleId));
    FilterNone(jobCards[..k], ForVehicle(vehicleId));
  }

  datatype View = VehicleNotFound | Details(vehicle: Vehicle, customerName: string, lastService: string, related: seq<JobCard>)

  class VehicleDetailsPage {
    var vehicle: Option<Vehicle>
    var customerName: string

    constructor()
      ensures vehicle.None? && customerName == VehicleList.UnknownCustomer
    {
      vehicle := None;
      customerName := VehicleList.UnknownCustomer;
    }

    /** The effect on `[id]`: when the id is found, the vehicle and its owner's name (or
        'Unknown Customer') are stored; otherwise nothing changes. */
    method Load(id: string, vehicles: seq<Vehicle>, customers: seq<Customer>)
      modifies this
      ensures var found := FindFirst(vehicles, IdIs(id));
              if found.Some? then
                vehicle == found && customerName == VehicleList.OwnerName(found.value, customers)
              else
                vehicle == old(vehicle) && customerName == old(customerName)
    {
      var found := FindFirst(vehicles, IdIs(id));
      if found.Some? {
        vehicle := found;
        customerName := VehicleList.OwnerName(found.value, customers);
      }
    }

    /** What the page shows: "Vehicle not found" without a vehicle; otherwise the
        details with the related cards and the last service. */
    function View(jobCards: seq<JobCard>, fmt: int -> string): (r: View)
      reads this
      ensures r.VehicleNotFound? <==> vehicle.None?
      ensures r.Details? ==> r.vehicle == vehicle.value && r.customerName == customerName
                             && r.related == RelatedJobCards(jobCards, vehicle.value.id)
                             && r.lastService == LastService(r.related, fmt)
    {
      if vehicle.None? then VehicleNotFound
      else
        var related := RelatedJobCards(jobCards, vehicle.value.id);
        Details(vehicle.value, customerName, LastService(related, fmt), related)
    }
  }

  /** A page opened on an id shows "Vehicle not found" exactly when no vehicle has that
      id; otherwise it shows that vehicle and only its job cards. */
  method OpenPage(id: string, vehicles: seq<Vehicle>, customers: seq<Customer>, jobCards: seq<JobCard>,
                  fmt: int -> string)
    returns (view: View)
    ensures view.VehicleNotFound? <==> forall k :: 0 <= k < |vehicles| ==> vehicles[k].id != id
    ensures view.Details? ==> view.vehicle.id == id && view.vehicle in vehicles
                              && view.customerName == VehicleList.OwnerName(view.vehicle, customers)
    ensures view.Details? ==> forall j :: j in view.related <==> j in jobCards && j.vehicleId == id
  {
    var page := new VehicleDetailsPage();
    page.Load(id, vehicles, customers);
    view := page.View(jobCards, fmt);
  }
}
