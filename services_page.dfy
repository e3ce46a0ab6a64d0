/** The service-management page: the catalogue shown in category tabs, and the add, edit
    and delete handlers that rewrite both the displayed list and the stored custom
    services. `Date.now()` is the parameter `now`; the dynamically imported catalogue is
    the parameter `predefined`. */
module ServicesPage {
  import opened Wrappers
  import opened Text
  import opened Collections
  import opened Entities
  import opened Selection
  import opened Store

  const AllServices := "all-services"
  const JobCardNewRoute := "/job-card/new"

  /** The id `handleAddService` gives a new service. */
  function NewServiceId(now: nat): (r: string)
    ensures StartsWith(r, "service-")
  {
    StartsWithAppend("service-", NatToString(now));
    "service-" + NatToString(now)
  }

  function WithNewId(s: CatalogService, now: nat): CatalogService {
    s.(id := NewServiceId(now))
  }

  /** The tab's contents: everything on 'all-services', otherwise the services of the
      tab's category, in catalogue order. */
  function FilteredServices(tab: string, services: seq<CatalogService>): (r: seq<CatalogService>)
    ensures tab == AllServices ==> r == services
    ensures tab != AllServices ==> r == InCategory(services, tab)
  {
    if tab == AllServices then services
    else
      Filter(services, OfCategory(tab))
  }

  /** The tab list: 'all-services', then each category once, in order of first use. */
  function Categories(services: seq<CatalogService>): (r: seq<string>)
    ensures |r| >= 1 && r[0] == AllServices
    ensures forall c :: c in r[1..] <==> c in Map(services, Category)
    ensures forall i, j :: 1 <= i < j < |r| ==> r[i] != r[j]
    ensures FirstSeenOrder(r[1..], Map(services, Category))
  {
    var d := Distinct(Map(services, Category));
    var r := [AllServices] + d;
    assert r[1..] == d;
    DistinctOrder(Map(services, Category));
    r
  }

  /** Every service shows under the tab of its category, and no category tab is empty. */
  lemma TabsCoverServices(services: seq<CatalogService>, s: CatalogService, c: string)
    ensures s in services ==> s.category in Categories(services)[1..]
                              && s in FilteredServices(s.category, services)
    ensures c in Categories(services)[1..] && c != AllServices ==> FilteredServices(c, services) != []
  {
    if s in services {
      var k :| 0 <= k < |services| && services[k] == s;
      assert Map(services, Category)[k] == s.category;
    }
    if c in Categories(services)[1..] && c != AllServices {
      var m := Map(services, Category);
      var k :| 0 <= k < |m| && m[k] == c;
      assert services[k] in InCategory(services, c);
    }
  }

  /** Deleting the service just added with a fresh id gives back the list before. */
  lemma AddThenDelete(services: seq<CatalogService>, s: CatalogService, now: nat)
    requires !HasKey(services, CatalogServiceId, NewServiceId(now))
    ensures RemoveKey(services + [WithNewId(s, now)], CatalogServiceId, NewServiceId(now)) == services
  {
    var t := WithNewId(s, now);
    RemoveKeyAppend(services, [t], CatalogServiceId, t.id);
    RemoveKeyAbsent(services, CatalogServiceId, t.id);
    assert RemoveKey([t], CatalogServiceId, t.id) == [] by {
      assert forall x :: x in RemoveKey([t], CatalogServiceId, t.id) ==> x == t;
    }
  }

  /** Saving a service unchanged leaves a list with unique ids as it was. */
  lemma EditUnchanged(services: seq<CatalogService>, s: CatalogService)
    requires UniqueKeys(services, CatalogServiceId) && s in services
    ensures ReplaceWhere(services, CatalogServiceId, s.id, s) == services
  {
    var r := ReplaceWhere(services, CatalogServiceId, s.id, s);
    var k :| 0 <= k < |services| && services[k] == s;
    forall i | 0 <= i < |services| ensures r[i] == services[i] {
      if services[i].id == s.id {
        assert CatalogServiceId(services[i]) == CatalogServiceId(services[k]);
      }
    }
  }

  /** Deleting twice deletes no more than deleting once. */
  lemma DeleteIdempotent(services: seq<CatalogService>, id: string)
    ensures RemoveKey(RemoveKey(services, CatalogServiceId, id), CatalogServiceId, id)
            == RemoveKey(services, CatalogServiceId, id)
  {
    RemoveKeyAbsent(RemoveKey(services, CatalogServiceId, id), CatalogServiceId, id);
  }

  class ServicesPage {
    var activeTab: string
    var services: seq<CatalogService>
    var isFormOpen: bool
    var editingService: Option<CatalogService>
    var selectMode: bool
    /** Where `navigate` last sent the browser, if anywhere. */
    var navigatedTo: Option<string>
    const store: LocalStore

    constructor(store: LocalStore)
      ensures activeTab == AllServices && services == [] && !isFormOpen
      ensures editingService.None? && !selectMode && navigatedTo.None? && this.store == store
    {
      activeTab := AllServices;
      services := [];
      isFormOpen := false;
      editingService := None;
      selectMode := false;
      navigatedTo := None;
      this.store := store;
    }

    /** The loading effect: the catalogue followed by the stored custom services. */
    method Load(predefined: seq<CatalogService>)
      modifies this
      ensures services == predefined + ListOrEmpty(store.customServices)
      ensures activeTab == old(activeTab) && isFormOpen == old(isFormOpen)
      ensures editingService == old(editingService) && selectMode == old(selectMode)
      ensures navigatedTo == old(navigatedTo)
    {
      services := predefined + ListOrEmpty(store.customServices);
    }

    /** `handleAddService`: the service under a fresh "service-" id goes to the end of
        the list and of the stored custom services; the form closes. */
    method HandleAddService(service: CatalogService, now: nat) returns (toast: string)
      modifies this, store
      ensures services == old(services) + [WithNewId(service, now)]
      ensures store.customServices == Some(ListOrEmpty(old(store.customServices)) + [WithNewId(service, now)])
      ensures !isFormOpen && toast == "Service added successfully"
      ensures activeTab == old(activeTab) && editingService == old(editingService)
      ensures selectMode == old(selectMode) && navigatedTo == old(navigatedTo)
      ensures store.customers == old(store.customers) && store.vehicles == old(store.vehicles)
      ensures store.inventory == old(store.inventory) && store.selectedServices == old(store.selectedServices)
    {
      var newService := service.(id := NewServiceId(now));
      services := services + [newService];
      isFormOpen := false;
      var customServices := ListOrEmpty(store.customServices);
      store.customServices := Some(customServices + [newService]);
      toast := "Service added successfully";
    }

    /** `handleEditService`: every entry with the service's id becomes the service, on
        the page and in the stored list when there is one; editing ends. */
    method HandleEditService(service: CatalogService) returns (toast: string)
      modifies this, store
      ensures services == ReplaceWhere(old(services), CatalogServiceId, service.id, service)
      ensures old(store.customServices).None? ==> store.customServices.None?
      ensures old(store.customServices).Some? ==>
                store.customServices == Some(ReplaceWhere(old(store.customServices).value,
                                                          CatalogServiceId, service.id, service))
      ensures editingService.None? && toast == "Service updated successfully"
      ensures activeTab == old(activeTab) && isFormOpen == old(isFormOpen)
      ensures selectMode == old(selectMode) && navigatedTo == old(navigatedTo)
      ensures store.customers == old(store.customers) && store.vehicles == old(store.vehicles)
      ensures store.inventory == old(store.inventory) && store.selectedServices == old(store.selectedServices)
    {
      services := ReplaceWhere(services, CatalogServiceId, service.id, service);
      editingService := None;
      if store.customServices.Some? {
        store.customServices := Some(ReplaceWhere(store.customServices.value, CatalogServiceId, service.id, service));
      }
      toast := "Service updated successfully";
    }

    /** `handleDeleteService`: every entry with the id goes, on the page and in the
        stored list when there is one. */
    method HandleDeleteService(id: string) returns (toast: string)
      modifies this, store
      ensures services == RemoveKey(old(services), CatalogServiceId, id)
      ensures old(store.customServices).None? ==> store.customServices.None?
      ensures old(store.customServices).Some? ==>
                store.customServices == Some(RemoveKey(old(store.customServices).value, CatalogServiceId, id))
      ensures toast == "Service deleted successfully"
      ensures activeTab == old(activeTab) && isFormOpen == old(isFormOpen)
      ensures editingService == old(editingService)
      ensures selectMode == old(selectMode) && navigatedTo == old(navigatedTo)
      ensures store.customers == old(store.customers) && store.vehicles == old(store.vehicles)
      ensures store.inventory == old(store.inventory) && store.selectedServices == old(store.selectedServices)
    {
      services := RemoveKey(services, CatalogServiceId, id);
      if store.customServices.Some? {
        store.customServices := Some(RemoveKey(store.customServices.value, CatalogServiceId, id));
      }
      toast := "Service deleted successfully";
    }

    /** The form's submit: an edit while a service is being edited, an add otherwise. */
    method SubmitForm(service: CatalogService, now: nat) returns (toast: string)
      modifies this, store
      ensures old(editingService).Some? ==>
                && services == ReplaceWhere(old(services), CatalogServiceId, service.id, service)
                && (old(store.customServices).None? ==> store.customServices.None?)
                && (old(store.customServices).Some? ==>
                      store.customServices == Some(ReplaceWhere(old(store.customServices).value,
                                                                CatalogServiceId, service.id, service)))
                && editingService.None? && isFormOpen == old(isFormOpen)
                && toast == "Service updated successfully"
      ensures old(editingService).None? ==>
                && services == old(services) + [WithNewId(service, now)]
                && store.customServices == Some(ListOrEmpty(old(store.customServices)) + [WithNewId(service, now)])
                && editingService.None? && !isFormOpen
                && toast == "Service added successfully"
      ensures activeTab == old(activeTab) && selectMode == old(selectMode) && navigatedTo == old(navigatedTo)
      ensures store.customers == old(store.customers) && store.vehicles == old(store.vehicles)
      ensures store.inventory == old(store.inventory) && store.selectedServices == old(store.selectedServices)
    {
      if editingService.Some? {
        toast := HandleEditService(service);
      } else {
        toast := HandleAddService(service, now);
      }
    }

    /** `startEditService` */
    method StartEditService(service: CatalogService)
      modifies this
      ensures editingService == Some(service) && isFormOpen
      ensures services == old(services) && activeTab == old(activeTab)
      ensures selectMode == old(selectMode) && navigatedTo == old(navigatedTo)
    {
      editingService := Some(service);
      isFormOpen := true;
    }

    /** "Add New Service": a blank form. */
    method OpenNewServiceForm()
      modifies this
      ensures editingService.None? && isFormOpen
      ensures services == old(services) && activeTab == old(activeTab)
      ensures selectMode == old(selectMode) && navigatedTo == old(navigatedTo)
    {
      editingService := None;
      isFormOpen := true;
    }

    method ToggleSelectMode()
      modifies this
      ensures selectMode == !old(selectMode)
      ensures services == old(services) && activeTab == old(activeTab) && isFormOpen == old(isFormOpen)
      ensures editingService == old(editingService) && navigatedTo == old(navigatedTo)
    {
      selectMode := !selectMode;
    }

    method SetActiveTab(tab: string)
      modifies this
      ensures activeTab == tab
      ensures services == old(services) && selectMode == old(selectMode) && isFormOpen == old(isFormOpen)
      ensures editingService == old(editingService) && navigatedTo == old(navigatedTo)
    {
      activeTab := tab;
    }

    /** `handleSelectServices`: the selection is stored for the new-job-card page, which
        the browser is then sent to. */
    method HandleSelectServices(selected: seq<CatalogService>) returns (toast: string)
      modifies this, store
      ensures store.selectedServices == Some(selected)
      ensures navigatedTo == Some(JobCardNewRoute)
      ensures toast == NatToString(|selected|) + " services have been selected for job card"
      ensures services == old(services) && activeTab == old(activeTab) && isFormOpen == old(isFormOpen)
      ensures editingService == old(editingService) && selectMode == old(selectMode)
      ensures store.customers == old(store.customers) && store.vehicles == old(store.vehicles)
      ensures store.inventory == old(store.inventory) && store.customServices == old(store.customServices)
    {
      store.selectedServices := Some(selected);
      toast := NatToString(|selected|) + " services have been selected for job card";
      navigatedTo := Some(JobCardNewRoute);
    }

    /** What the current tab lists. */
    function Shown(): (r: seq<CatalogService>)
      reads this
      ensures forall x :: x in r <==> x in services && (activeTab == AllServices || x.category == activeTab)
    {
      FilteredServices(activeTab, services)
    }
  }
}
