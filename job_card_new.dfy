/** The new-job-card page: the three tabs and their navigation, the form held as a map
    from field name to text, the make-to-models table, the required-field check, the
    selected service list and its total, and the year options. The current date and
    year are parameters. */
module JobCardNew {
  import opened Wrappers
  import opened Text
  import opened Collections
  import opened Entities
  import Selection

  // ---------------------------------------------------------------- tabs

  const Tabs: seq<string> := ["customer", "vehicle", "service"]

  /** `handleNextTab`: customer, vehicle, service, and service stays. */
  function NextTab(t: string): (r: string)
    ensures t == "customer" ==> r == "vehicle"
    ensures t == "vehicle" ==> r == "service"
    ensures t != "customer" && t != "vehicle" ==> r == t
  {
    if t == "customer" then "vehicle" else if t == "vehicle" then "service" else t
  }

  /** `handlePreviousTab`: service, vehicle, customer, and customer stays. */
  function PreviousTab(t: string): (r: string)
    ensures t == "service" ==> r == "vehicle"
    ensures t == "vehicle" ==> r == "customer"
    ensures t != "service" && t != "vehicle" ==> r == t
  {
    if t == "service" then "vehicle" else if t == "vehicle" then "customer" else t
  }

  /** Back undoes forward on the tabs that have a next one, and forward undoes back on
      the tabs that have a previous one; any tab reaches "service" in two steps. */
  lemma TabRoundTrips(t: string)
    ensures t in Tabs[..2] ==> PreviousTab(NextTab(t)) == t
    ensures t in Tabs[1..] ==> NextTab(PreviousTab(t)) == t
    ensures t in Tabs ==> NextTab(NextTab(t)) == "service" && PreviousTab(PreviousTab(t)) == "customer"
  {
    assert Tabs[..2] == ["customer", "vehicle"];
    assert Tabs[1..] == ["vehicle", "service"];
  }

  // ---------------------------------------------------------------- form

  /** The makes the page knows and the models listed for each. */
  const ModelsByMake: map<string, seq<string>> := map[
    "Hero" := ["Splendor", "Passion", "HF Deluxe", "Glamour", "Xtreme", "Xpulse"],
    "Bajaj" := ["Pulsar", "Dominar", "Avenger", "Platina", "CT", "Discover"],
    "TVS" := ["Apache", "Jupiter", "XL", "Ntorq", "iQube", "Raider"],
    "Royal Enfield" := ["Classic 350", "Bullet 350", "Meteor 350", "Hunter 350", "Himalayan", "Continental GT"],
    "Honda" := ["Activa", "Shine", "Unicorn", "CB", "Dio", "Hornet"],
    "Yamaha" := ["R15", "FZ", "MT-15", "Fascino", "Ray ZR", "Aerox"],
    "Suzuki" := ["Access", "Gixxer", "Burgman", "Avenis", "V-Strom", "Hayabusa"],
    "KTM" := ["Duke 125", "Duke 200", "Duke 390", "RC 125", "RC 200", "RC 390"]]

  /** The fields of the form. */
  const FormFields: seq<string> := [
    "customerName", "mobileNumber", "email", "alternateContact", "address",
    "make", "model", "year", "registrationNumber", "engineNumber", "chassisNumber",
    "odometerReading", "fuelLevel",
    "serviceDate", "estimatedCompletionDate", "assignedMechanic", "serviceNotes"]

  /** Every field of the form, each "" except the service date, today's ISO date. */
  function InitialForm(today: string): (r: map<string, string>)
    ensures forall f :: f in r <==> f in FormFields
    ensures "serviceDate" in r && r["serviceDate"] == today
    ensures forall f :: f in r && f != "serviceDate" ==> r[f] == ""
  {
    assert FormFields[13] == "serviceDate";
    map f | f in FormFields :: if f == "serviceDate" then today else ""
  }

  /** `formData[field]` inside a template literal: a field the form lacks reads "undefined". */
  function FieldText(form: map<string, string>, field: string): (r: string)
    ensures field in form ==> r == form[field]
  {
    if field in form then form[field] else "undefined"
  }

  /** The success toast's description of a created card. */
  function CreatedDescription(form: map<string, string>): string {
    "Job card for " + FieldText(form, "customerName") + "'s " + FieldText(form, "make") + " "
    + FieldText(form, "model") + " has been created"
  }

  /** `formData[field]` is truthy. */
  predicate Filled(form: map<string, string>, field: string) {
    field in form && form[field] != ""
  }

  /** The fields a job card cannot be saved without, and the names in their errors. */
  const RequiredFields: seq<(string, string)> := [
    ("customerName", "Customer Name"), ("mobileNumber", "Mobile Number"),
    ("make", "Vehicle Make"), ("model", "Vehicle Model"),
    ("registrationNumber", "Registration Number"), ("odometerReading", "Odometer Reading"),
    ("fuelLevel", "Fuel Level"), ("serviceDate", "Service Date")]

  function RequiredError(entry: (string, string)): string { entry.1 + " is required" }

  /** One error per missing field, in the table's order. */
  function MissingErrors(fields: seq<(string, string)>, form: map<string, string>): seq<string>
    decreases |fields|
  {
    if fields == [] then []
    else
      var last := fields[|fields| - 1];
      MissingErrors(fields[..|fields| - 1], form) + (if Filled(form, last.0) then [] else [RequiredError(last)])
  }

  predicate AllFilled(fields: seq<(string, string)>, form: map<string, string>) {
    forall k :: 0 <= k < |fields| ==> Filled(form, fields[k].0)
  }

  /** The error list is empty exactly when every field is filled, and it has one entry
      per missing field. */
  lemma {:induction false} MissingErrorsEmpty(fields: seq<(string, string)>, form: map<string, string>)
    ensures MissingErrors(fields, form) == [] <==> AllFilled(fields, form)
    ensures |MissingErrors(fields, form)| <= |fields|
    decreases |fields|
  {
    if fields != [] {
      var n := |fields| - 1;
      MissingErrorsEmpty(fields[..n], form);
      assert forall k :: 0 <= k < n ==> fields[..n][k] == fields[k];
      if AllFilled(fields[..n], form) && Filled(form, fields[n].0) {
        forall k | 0 <= k < |fields| ensures Filled(form, fields[k].0) {
          if k < n { assert fields[..n][k] == fields[k]; }
        }
      }
    }
  }

  /** A form that passed the required-field check is described by its own customer, make
      and model, never by "undefined" or an empty name. */
  lemma CreatedDescriptionNames(form: map<string, string>)
    requires MissingErrors(RequiredFields, form) == []
    ensures Filled(form, "customerName") && Filled(form, "make") && Filled(form, "model")
    ensures CreatedDescription(form) == "Job card for " + form["customerName"] + "'s "
              + form["make"] + " " + form["model"] + " has been created"
  {
    MissingErrorsEmpty(RequiredFields, form);
    assert RequiredFields[0].0 == "customerName" && RequiredFields[2].0 == "make"
      && RequiredFields[3].0 == "model";
  }

  /** The required-field loop: an error for each empty field in turn, and the flag
      cleared by any of them. */
  method Validate(fields: seq<(string, string)>, form: map<string, string>)
    returns (isValid: bool, errors: seq<string>)
    ensures errors == MissingErrors(fields, form)
    ensures isValid <==> AllFilled(fields, form)
  {
    isValid := true;
    errors := [];
    var i := 0;
    while i < |fields|
      invariant 0 <= i <= |fields|
      invariant errors == MissingErrors(fields[..i], form)
      invariant isValid <==> AllFilled(fields[..i], form)
    {
      var entry := fields[i];
      assert fields[..i + 1][..i] == fields[..i];
      assert fields[..i + 1][i] == entry;
      assert forall k :: 0 <= k < i ==> fields[..i + 1][k] == fields[..i][k];
      if !(entry.0 in form && form[entry.0] != "") {
        errors := errors + [RequiredError(entry)];
        isValid := false;
      }
      i := i + 1;
    }
    assert fields[..|fields|] == fields;
  }

  /** A field outside the table never changes the verdict. */
  lemma {:induction false} OtherFieldIrrelevant(fields: seq<(string, string)>, form: map<string, string>,
                                                f: string, v: string)
    requires forall k :: 0 <= k < |fields| ==> fields[k].0 != f
    ensures MissingErrors(fields, form) == MissingErrors(fields, form[f := v])
    decreases |fields|
  {
    if fields != [] {
      var n := |fields| - 1;
      assert forall k :: 0 <= k < n ==> fields[..n][k] == fields[k];
      OtherFieldIrrelevant(fields[..n], form, f, v);
    }
  }

  /** The expected completion date is not required. */
  lemma CompletionDateOptional(form: map<string, string>, v: string)
    ensures MissingErrors(RequiredFields, form)
            == MissingErrors(RequiredFields, form["estimatedCompletionDate" := v])
  {
    OtherFieldIrrelevant(RequiredFields, form, "estimatedCompletionDate", v);
  }

  // ---------------------------------------------------------------- services and years

  /** `getTotalAmount` after the list changes: adding a custom service adds its price,
      removing by id takes off the prices of the entries with that id, and an empty list
      totals 0. */
  lemma TotalAfterChanges(selected: seq<CatalogService>, s: CatalogService, id: string)
    ensures Selection.TotalPrice([]) == 0
    ensures Selection.TotalPrice(selected + [s]) == Selection.TotalPrice(selected) + s.price
    ensures Selection.TotalPrice(RemoveKey(selected, CatalogServiceId, id))
            == Selection.TotalPrice(selected) - SumOf(KeepKey(selected, CatalogServiceId, id), Selection.Price)
  {
    SumOfAppend(selected, [s], Selection.Price);
    assert [s][..0] == [];
    RemoveKeySum(selected, CatalogServiceId, id, Selection.Price);
  }

  /** The 30 year options, newest first. */
  function Years(currentYear: int): (r: seq<string>)
    ensures |r| == 30
    ensures forall i :: 0 <= i < 30 ==> r[i] == IntToString(currentYear - i)
  {
    seq(30, i requires 0 <= i < 30 => IntToString(currentYear - i))
  }

  /** Read back, the options are the years from the current one down, one per year. */
  lemma YearsDescending(currentYear: int)
    ensures forall i :: 0 <= i < 30 ==> ParseInt(Years(currentYear)[i]) == currentYear - i
    ensures forall i, j :: 0 <= i < j < 30 ==> Years(currentYear)[i] != Years(currentYear)[j]
  {
    forall i | 0 <= i < 30 ensures ParseInt(Years(currentYear)[i]) == currentYear - i {
      ParseIntToString(currentYear - i);
    }
  }

  // ---------------------------------------------------------------- the page

  class JobCardNewPage {
    var activeTab: string
    var isSubmitting: bool
    var jobCardSaved: bool
    var formData: map<string, string>
    var selectedServices: seq<CatalogService>
    var availableModels: seq<string>

    constructor(today: string)
      ensures activeTab == "customer" && !isSubmitting && !jobCardSaved
      ensures formData == InitialForm(today) && selectedServices == [] && availableModels == []
    {
      activeTab := "customer";
      isSubmitting := false;
      jobCardSaved := false;
      formData := InitialForm(today);
      selectedServices := [];
      availableModels := [];
    }

    method HandleNextTab()
      modifies this
      ensures activeTab == NextTab(old(activeTab))
      ensures formData == old(formData) && selectedServices == old(selectedServices)
      ensures availableModels == old(availableModels)
    {
      if activeTab == "customer" { activeTab := "vehicle"; }
      else if activeTab == "vehicle" { activeTab := "service"; }
    }

    method HandlePreviousTab()
      modifies this
      ensures activeTab == PreviousTab(old(activeTab))
      ensures formData == old(formData) && selectedServices == old(selectedServices)
      ensures availableModels == old(availableModels)
    {
      if activeTab == "service" { activeTab := "vehicle"; }
      else if activeTab == "vehicle" { activeTab := "customer"; }
    }

    /** `handleInputChange`: the field takes the value; choosing a known make also lists
        its models and clears the model. Nothing else changes. */
    method HandleInputChange(field: string, value: string)
      modifies this
      ensures field == "make" && value in ModelsByMake ==>
                formData == old(formData)[field := value]["model" := ""]
                && availableModels == ModelsByMake[value]
      ensures !(field == "make" && value in ModelsByMake) ==>
                formData == old(formData)[field := value] && availableModels == old(availableModels)
      ensures activeTab == old(activeTab) && selectedServices == old(selectedServices)
      ensures isSubmitting == old(isSubmitting) && jobCardSaved == old(jobCardSaved)
    {
      formData := formData[field := value];
      if field == "make" && value in ModelsByMake {
        availableModels := ModelsByMake[value];
        formData := formData["model" := ""];
      }
    }

    /** `handleSaveJobCard` up to the timer: the errors for the missing fields, and a
        submission under way only when there are none. */
    method HandleSaveJobCard() returns (errors: seq<string>)
      modifies this
      ensures errors == MissingErrors(RequiredFields, formData)
      ensures isSubmitting <==> errors == []
      ensures formData == old(formData) && selectedServices == old(selectedServices)
      ensures activeTab == old(activeTab) && jobCardSaved == old(jobCardSaved)
      ensures availableModels == old(availableModels)
    {
      isSubmitting := true;
      var isValid;
      isValid, errors := Validate(RequiredFields, formData);
      MissingErrorsEmpty(RequiredFields, formData);
      if !isValid {
        isSubmitting := false;
        return;
      }
    }

    /** The timer's callback: the success toast with its description, and the card counts
        as saved. */
    method FinishSave() returns (title: string, description: string)
      modifies this
      ensures title == "Job card created successfully"
      ensures description == CreatedDescription(formData)
      ensures !isSubmitting && jobCardSaved
      ensures formData == old(formData) && selectedServices == old(selectedServices)
      ensures activeTab == old(activeTab) && availableModels == old(availableModels)
    {
      title := "Job card created successfully";
      description := CreatedDescription(formData);
      isSubmitting := false;
      jobCardSaved := true;
    }

    /** `handlePredefinedServices`: the chosen list replaces the selection. */
    method HandlePredefinedServices(services: seq<CatalogService>)
      modifies this
      ensures selectedServices == services
      ensures formData == old(formData) && activeTab == old(activeTab)
      ensures availableModels == old(availableModels)
    {
      selectedServices := services;
    }

    /** `handleCustomService`: the service goes at the end. */
    method HandleCustomService(service: CatalogService)
      modifies this
      ensures selectedServices == old(selectedServices) + [service]
      ensures formData == old(formData) && activeTab == old(activeTab)
      ensures availableModels == old(availableModels)
    {
      selectedServices := selectedServices + [service];
    }

    /** `handleRemoveService`: every service with the id goes, the rest keep their order. */
    method HandleRemoveService(id: string)
      modifies this
      ensures selectedServices == RemoveKey(old(selectedServices), CatalogServiceId, id)
      ensures formData == old(formData) && activeTab == old(activeTab)
      ensures availableModels == old(availableModels)
    {
      selectedServices := RemoveKey(selectedServices, CatalogServiceId, id);
    }
  }
}
