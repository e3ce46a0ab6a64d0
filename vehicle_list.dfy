/** The vehicle list: each vehicle joined with its owner's name, then a
    case-insensitive search over make, model, registration and owner. */
module VehicleList {
  import opened Wrappers
  import opened Text
  import opened Collections
  import opened Entities

  const UnknownCustomer := "Unknown Customer"

  /** A vehicle with the owner's name added. */
  datatype EnhancedVehicle = EnhancedVehicle(vehicle: Vehicle, customerName: string)

  function OwnerP(customerId: string): Customer -> bool { (c: Customer) => c.id == customerId }

  /** The first customer with the vehicle's customer id, by name, or 'Unknown Customer'. */
  function OwnerName(v: Vehicle, customers: seq<Customer>): (r: string)
    ensures (forall k :: 0 <= k < |customers| ==> customers[k].id != v.customerId) ==> r == UnknownCustomer
    ensures (exists k :: 0 <= k < |customers| && customers[k].id == v.customerId) ==>
              exists k :: 0 <= k < |customers| && customers[k].id == v.customerId && r == customers[k].name
                          && forall j :: 0 <= j < k ==> customers[j].id != v.customerId
  {
    match FindFirst(customers, OwnerP(v.customerId))
    case None => UnknownCustomer
    case Some(c) => c.name
  }

  function Enhance(customers: seq<Customer>): Vehicle -> EnhancedVehicle {
    (v: Vehicle) => EnhancedVehicle(v, OwnerName(v, customers))
  }

  /** `enhancedVehicles`: the same vehicles, in the same order, each with its owner. */
  function EnhancedVehicles(vehicles: seq<Vehicle>, customers: seq<Customer>): (r: seq<EnhancedVehicle>)
    ensures |r| == |vehicles|
    ensures forall k :: 0 <= k < |r| ==> r[k].vehicle == vehicles[k]
                                         && r[k].customerName == OwnerName(vehicles[k], customers)
  {
    Map(vehicles, Enhance(customers))
  }

  predicate MatchesSearch(e: EnhancedVehicle, query: string) {
    var q := ToLower(query);
    Includes(ToLower(e.vehicle.make), q) || Includes(ToLower(e.vehicle.model), q)
    || Includes(ToLower(e.vehicle.registrationNumber), q) || Includes(ToLower(e.customerName), q)
  }

  function MatchesP(query: string): EnhancedVehicle -> bool { (e: EnhancedVehicle) => MatchesSearch(e, query) }

  function FilteredVehicles(vehicles: seq<Vehicle>, customers: seq<Customer>, query: string): (r: seq<EnhancedVehicle>)
    ensures r == Filter(EnhancedVehicles(vehicles, customers), MatchesP(query))
    ensures forall x :: x in r <==> x in EnhancedVehicles(vehicles, customers) && MatchesSearch(x, query)
  {
    Filter(EnhancedVehicles(vehicles, customers), MatchesP(query))
  }

  /** The empty query lists every vehicle, because every text includes "". */
  lemma EmptyQueryListsAll(vehicles: seq<Vehicle>, customers: seq<Customer>)
    ensures FilteredVehicles(vehicles, customers, "") == EnhancedVehicles(vehicles, customers)
  {
    var ev := EnhancedVehicles(vehicles, customers);
    forall k | 0 <= k < |ev| ensures MatchesP("")(ev[k]) {
      IncludesEmpty(ToLower(ev[k].vehicle.make));
    }
    FilterAll(ev, MatchesP(""));
  }

  /** A vehicle is found by its owner's name. */
  lemma OwnerFindsVehicle(vehicles: seq<Vehicle>, customers: seq<Customer>, k: nat)
    requires k < |vehicles|
    ensures EnhancedVehicles(vehicles, customers)[k]
              in FilteredVehicles(vehicles, customers, OwnerName(vehicles[k], customers))
  {
    var name := OwnerName(vehicles[k], customers);
    ToLowerIdempotent(name);
    IncludesSelf(ToLower(name));
  }

  /** The grid: the cards of the listed vehicles, or 'No vehicles found'. */
  datatype Grid = Cards(items: seq<EnhancedVehicle>) | NoVehiclesFound

  function GridShown(vehicles: seq<Vehicle>, customers: seq<Customer>, query: string): (r: Grid)
    ensures r.NoVehiclesFound? <==> FilteredVehicles(vehicles, customers, query) == []
    ensures r.Cards? ==> r.items == FilteredVehicles(vehicles, customers, query)
  {
    var f := FilteredVehicles(vehicles, customers, query);
    if |f| > 0 then Cards(f) else NoVehiclesFound
  }

  /** Without a query the empty state means there are no vehicles at all. */
  lemma NoneFoundWithoutQuery(vehicles: seq<Vehicle>, customers: seq<Customer>)
    ensures GridShown(vehicles, customers, "").NoVehiclesFound? <==> vehicles == []
  {
    EmptyQueryListsAll(vehicles, customers);
  }
}
