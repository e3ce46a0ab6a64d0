/** The customer profile page: an effect looks the route's id up among the customers and,
    when found, stores the customer, the customer's vehicles and the number of the
    customer's job cards; the page then renders from that state. */
module CustomerDetails {
  import opened Wrappers
  import opened Collections
  import opened Entities

  function IdIs(id: string): Customer -> bool { (c: Customer) => c.id == id }
  function OwnedBy(id: string): Vehicle -> bool { (v: Vehicle) => v.customerId == id }
  function CardOf(id: string): JobCard -> bool { (j: JobCard) => j.customerId == id }

  /** The vehicles whose customerId is the id, in their order. */
  function CustomerVehicles(vehicles: seq<Vehicle>, id: string): (r: seq<Vehicle>)
    ensures |r| <= |vehicles|
    ensures r == Filter(vehicles, OwnedBy(id))
    ensures forall v :: v in r <==> v in vehicles && v.customerId == id
  {
    Filter(vehicles, OwnedBy(id))
  }

  /** The number of job cards whose customerId is the id. */
  function JobCardCount(jobCards: seq<JobCard>, id: string): (r: nat)
    ensures r <= |jobCards|
  {
    |Filter(jobCards, CardOf(id))|
  }

  /** The count is zero exactly when no job card belongs to the customer. */
  lemma JobCardCountZero(jobCards: seq<JobCard>, id: string)
    ensures JobCardCount(jobCards, id) == 0 <==> forall k :: 0 <= k < |jobCards| ==> jobCards[k].customerId != id
  {
    if exists k :: 0 <= k < |jobCards| && jobCards[k].customerId == id {
      var k :| 0 <= k < |jobCards| && jobCards[k].customerId == id;
      assert jobCards[k] in Filter(jobCards, CardOf(id));
    }
    if JobCardCount(jobCards, id) != 0 {
      var f := Filter(jobCards, CardOf(id));
      assert f[0] in f;
    }
  }

  /** A job card added at the end raises the count by one exactly when it is the
      customer's. */
  lemma {:induction false} JobCardCountAppend(jobCards: seq<JobCard>, j: JobCard, id: string)
    ensures JobCardCount(jobCards + [j], id) == JobCardCount(jobCards, id) + (if j.customerId == id then 1 else 0)
  {
    FilterAppend(jobCards, [j], CardOf(id));
  }

  datatype VehiclesBlock = VehicleCards(vehicles: seq<Vehicle>) | NoVehiclesYet
  datatype HistoryBlock = HistoryPlaceholder | NoServiceHistoryYet
  datatype View = CustomerNotFound | Profile(customer: Customer, vehicles: VehiclesBlock, history: HistoryBlock)

  /** What the page shows for its state. */
  function Render(customer: Option<Customer>, customerVehicles: seq<Vehicle>, jobCardCount: nat): (r: View)
    ensures r.CustomerNotFound? <==> customer.None?
    ensures r.Profile? ==> r.customer == customer.value
    ensures r.Profile? ==> (r.vehicles == NoVehiclesYet <==> customerVehicles == [])
                           && (r.vehicles.VehicleCards? ==> r.vehicles.vehicles == customerVehicles)
    ensures r.Profile? ==> (r.history == HistoryPlaceholder <==> jobCardCount > 0)
  {
    if customer.None? then CustomerNotFound
    else Profile(customer.value,
                 if |customerVehicles| > 0 then VehicleCards(customerVehicles) else NoVehiclesYet,
                 if jobCardCount > 0 then HistoryPlaceholder else NoServiceHistoryYet)
  }

  class CustomerDetailsPage {
    var customer: Option<Customer>
    var customerVehicles: seq<Vehicle>
    var jobCardCount: nat

    constructor()
      ensures customer.None? && customerVehicles == [] && jobCardCount == 0
    {
      customer := None;
      customerVehicles := [];
      jobCardCount := 0;
    }

    /** The effect on `[id]`: when the id is found, the three fields are set from it;
        otherwise nothing changes. */
    method Load(id: string, customers: seq<Customer>, vehicles: seq<Vehicle>, jobCards: seq<JobCard>)
      modifies this
      ensures var found := FindFirst(customers, IdIs(id));
              if found.Some? then
                customer == found && customerVehicles == CustomerVehicles(vehicles, id)
                && jobCardCount == JobCardCount(jobCards, id)
              else
                customer == old(customer) && customerVehicles == old(customerVehicles)
                && jobCardCount == old(jobCardCount)
    {
      var found := FindFirst(customers, IdIs(id));
      if found.Some? {
        customer := found;
        customerVehicles := Filter(vehicles, OwnedBy(id));
        jobCardCount := |Filter(jobCards, CardOf(id))|;
      }
    }

    function View(): View
      reads this
    {
      Render(customer, customerVehicles, jobCardCount)
    }
  }

  /** A page opened on an id shows "Customer not found" exactly when no customer has that
      id; otherwise it shows that customer, with the vehicles it owns. */
  method OpenPage(id: string, customers: seq<Customer>, vehicles: seq<Vehicle>, jobCards: seq<JobCard>)
    returns (view: View)
    ensures view.CustomerNotFound? <==> forall k :: 0 <= k < |customers| ==> customers[k].id != id
    ensures view.Profile? ==> view.customer.id == id && view.customer in customers
    ensures view.Profile? && view.vehicles.VehicleCards? ==>
              forall v :: v in view.vehicles.vehicles <==> v in vehicles && v.customerId == id
    ensures view.Profile? ==> (view.history == HistoryPlaceholder <==>
                                 exists k :: 0 <= k < |jobCards| && jobCards[k].customerId == id)
  {
    var page := new CustomerDetailsPage();
    page.Load(id, customers, vehicles, jobCards);
    view := page.View();
    JobCardCountZero(jobCards, id);
  }
}
