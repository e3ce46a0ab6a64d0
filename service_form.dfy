/** The add/edit service dialog: five text fields that are populated from the service
    being edited or reset when the dialog opens, a submit guard, and the record handed
    to the page. `Date.now()` is the parameter `now` and `Number()` the parameter
    `number`. */
module ServiceForm {
  import opened Wrappers
  import opened Text
  import opened Entities

  /** The categories the select offers. */
  const ServiceCategories := ["Maintenance", "Repair", "Complete Service", "Advanced Maintenance",
                              "Custom Service", "Diagnostics", "Parts Replacement"]
  const DefaultCategory := "Maintenance"

  /** The five field values. */
  datatype Fields = Fields(name: string, description: string, price: string,
                           estimatedTime: string, category: string)

  /** `resetForm`: empty text, category 'Maintenance'. */
  function ResetFields(): (r: Fields)
    ensures r.name == "" && r.description == "" && r.price == "" && r.estimatedTime == ""
    ensures r.category == DefaultCategory && r.category in ServiceCategories
    ensures !Filled(r)
  {
    Fields("", "", "", "", DefaultCategory)
  }

  /** The fields populated from a service: its price as decimal text. */
  function FromService(d: CatalogService): Fields {
    Fields(d.name, d.description, IntToString(d.price), d.estimatedTime, d.category)
  }

  /** The submit guard and the button's enabled state: no field is empty. */
  predicate Filled(f: Fields) {
    f.name != "" && f.description != "" && f.price != "" && f.estimatedTime != "" && f.category != ""
  }

  /** The id of the submitted record: the edited service's when it has one, otherwise a
      "temp-" id. */
  function RecordId(initialData: Option<CatalogService>, now: nat): (r: string)
    ensures initialData.Some? && initialData.value.id != "" ==> r == initialData.value.id
    ensures !(initialData.Some? && initialData.value.id != "") ==> r == "temp-" + NatToString(now)
  {
    if initialData.Some? && initialData.value.id != "" then initialData.value.id
    else "temp-" + NatToString(now)
  }

  function Build(f: Fields, initialData: Option<CatalogService>, now: nat, number: string -> int): CatalogService {
    CatalogService(RecordId(initialData, now), f.name, f.description, number(f.price), f.estimatedTime, f.category)
  }

  /** Submitting an edit form unchanged gives back the edited service, as long as
      `Number` reads back the printed price. */
  lemma EditRoundTrip(d: CatalogService, now: nat, number: string -> int)
    requires d.id != "" && d.name != "" && d.description != "" && d.estimatedTime != "" && d.category != ""
    requires number(IntToString(d.price)) == d.price
    ensures Filled(FromService(d))
    ensures Build(FromService(d), Some(d), now, number) == d
  {
    if d.price < 0 {
      assert |IntToString(d.price)| == 1 + |NatToString(-d.price)|;
    } else {
      assert |IntToString(d.price)| == |NatToString(d.price)|;
    }
  }

  class ServiceFormDialog {
    var serviceName: string
    var serviceDescription: string
    var servicePrice: string
    var estimatedTime: string
    var category: string
    var open: bool
    var initialData: Option<CatalogService>

    function Values(): Fields
      reads this
    {
      Fields(serviceName, serviceDescription, servicePrice, estimatedTime, category)
    }

    /** `useState('')` for every field. */
    constructor(open: bool, initialData: Option<CatalogService>)
      ensures Values() == Fields("", "", "", "", "")
      ensures this.open == open && this.initialData == initialData
    {
      serviceName := "";
      serviceDescription := "";
      servicePrice := "";
      estimatedTime := "";
      category := "";
      this.open := open;
      this.initialData := initialData;
    }

    /** One run of the effect on `[initialData, open]`, with the props it sees. It stands
        for the mount or for a render in which either prop changed; React skips the effect
        on any other render, so typed values survive it. When the dialog is open the fields
        are populated from the service being edited, or reset when there is none; while
        closed they are left as they were. */
    method SetProps(open: bool, initialData: Option<CatalogService>)
      modifies this
      ensures this.open == open && this.initialData == initialData
      ensures open && initialData.Some? ==> Values() == FromService(initialData.value)
      ensures open && initialData.None? ==> Values() == ResetFields()
      ensures !open ==> Values() == old(Values())
    {
      this.open := open;
      this.initialData := initialData;
      if open {
        if initialData.Some? {
          serviceName := initialData.value.name;
          serviceDescription := initialData.value.description;
          servicePrice := IntToString(initialData.value.price);
          estimatedTime := initialData.value.estimatedTime;
          category := initialData.value.category;
        } else {
          ResetForm();
        }
      }
    }

    method ResetForm()
      modifies this
      ensures Values() == ResetFields()
      ensures open == old(open) && initialData == old(initialData)
    {
      serviceName := "";
      serviceDescription := "";
      servicePrice := "";
      estimatedTime := "";
      category := DefaultCategory;
    }

    /** One field's `onChange`. */
    method SetField(f: Fields)
      modifies this
      ensures Values() == f && open == old(open) && initialData == old(initialData)
    {
      serviceName := f.name;
      serviceDescription := f.description;
      servicePrice := f.price;
      estimatedTime := f.estimatedTime;
      category := f.category;
    }

    /** `handleSubmit`: with an empty field nothing happens; otherwise the record goes
        to `onSubmit`, the form resets and the dialog closes. */
    method HandleSubmit(now: nat, number: string -> int) returns (submitted: Option<CatalogService>)
      modifies this
      ensures !Filled(old(Values())) ==> submitted.None? && Values() == old(Values()) && open == old(open)
      ensures Filled(old(Values())) ==>
                submitted == Some(Build(old(Values()), initialData, now, number))
                && Values() == ResetFields() && !open
      ensures initialData == old(initialData)
    {
      if serviceName == "" || serviceDescription == "" || servicePrice == "" || estimatedTime == "" || category == "" {
        return None;
      }
      var serviceData := CatalogService(
        if initialData.Some? && initialData.value.id != "" then initialData.value.id else "temp-" + NatToString(now),
        serviceName, serviceDescription, number(servicePrice), estimatedTime, category);
      submitted := Some(serviceData);
      ResetForm();
      open := false;
    }

    /** `handleCancel` */
    method HandleCancel()
      modifies this
      ensures Values() == ResetFields() && !open && initialData == old(initialData)
    {
      ResetForm();
      open := false;
    }

    /** The submit button's `disabled`: some field is empty, which is exactly when
        HandleSubmit does nothing. */
    predicate SubmitDisabled()
      reads this
      ensures SubmitDisabled() <==> serviceName == "" || serviceDescription == "" || servicePrice == ""
                                    || estimatedTime == "" || category == ""
    {
      !Filled(Values())
    }
  }
}
