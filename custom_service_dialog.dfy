/** The dialog that adds a one-off service to the job card being created: four text
    fields, a submit guard, and a record always filed under 'Custom Service'.
    `Date.now()` is the parameter `now` and `Number()` the parameter `number`. */
module CustomServiceDialog {
  import opened Text
  import opened Wrappers
  import opened Entities

  const CustomCategory := "Custom Service"

  datatype Fields = Fields(name: string, description: string, price: string, estimatedTime: string)

  const Blank := Fields("", "", "", "")

  /** The submit guard and the button's enabled state. */
  predicate Filled(f: Fields) {
    f.name != "" && f.description != "" && f.price != "" && f.estimatedTime != ""
  }

  /** The record handed to `onAddCustomService`. */
  function Build(f: Fields, now: nat, number: string -> int): (r: CatalogService)
    ensures StartsWith(r.id, "custom-") && r.category == CustomCategory
    ensures r.name == f.name && r.description == f.description
    ensures r.price == number(f.price) && r.estimatedTime == f.estimatedTime
  {
    StartsWithAppend("custom-", NatToString(now));
    CatalogService("custom-" + NatToString(now), f.name, f.description, number(f.price),
                   f.estimatedTime, CustomCategory)
  }

  /** Two custom services made at different instants never share an id. */
  lemma BuildIdsDistinct(f: Fields, g: Fields, now1: nat, now2: nat, number: string -> int)
    requires now1 != now2
    ensures Build(f, now1, number).id != Build(g, now2, number).id
  {
    if Build(f, now1, number).id == Build(g, now2, number).id {
      var a := NatToString(now1);
      var b := NatToString(now2);
      assert ("custom-" + a)[7..] == a;
      assert ("custom-" + b)[7..] == b;
      NatToStringInjective(now1, now2);
    }
  }

  class CustomServiceForm {
    var serviceName: string
    var serviceDescription: string
    var servicePrice: string
    var estimatedTime: string
    var open: bool

    function Values(): Fields
      reads this
    {
      Fields(serviceName, serviceDescription, servicePrice, estimatedTime)
    }

    constructor(open: bool)
      ensures Values() == Blank && this.open == open
    {
      serviceName := "";
      serviceDescription := "";
      servicePrice := "";
      estimatedTime := "";
      this.open := open;
    }

    /** One field's `onChange`. */
    method SetField(f: Fields)
      modifies this
      ensures Values() == f && open == old(open)
    {
      serviceName := f.name;
      serviceDescription := f.description;
      servicePrice := f.price;
      estimatedTime := f.estimatedTime;
    }

    method ResetForm()
      modifies this
      ensures Values() == Blank && open == old(open)
    {
      serviceName := "";
      serviceDescription := "";
      servicePrice := "";
      estimatedTime := "";
    }

    /** `handleSubmit`: nothing while a field is empty; otherwise the record goes to the
        caller, the fields are cleared and the dialog closes. */
    method HandleSubmit(now: nat, number: string -> int) returns (added: Option<CatalogService>)
      modifies this
      ensures !Filled(old(Values())) ==> added.None? && Values() == old(Values()) && open == old(open)
      ensures Filled(old(Values())) ==> added == Some(Build(old(Values()), now, number))
                                        && Values() == Blank && !open
    {
      if serviceName == "" || serviceDescription == "" || servicePrice == "" || estimatedTime == "" {
        return None;
      }
      var customService := CatalogService("custom-" + NatToString(now), serviceName, serviceDescription,
                                          number(servicePrice), estimatedTime, CustomCategory);
      added := Some(customService);
      ResetForm();
      open := false;
    }

    /** `handleCancel` */
    method HandleCancel()
      modifies this
      ensures Values() == Blank && !open
    {
      ResetForm();
      open := false;
    }

    /** The add button's `disabled`: some field is empty, which is exactly when
        HandleSubmit does nothing. */
    predicate SubmitDisabled()
      reads this
      ensures SubmitDisabled() <==> serviceName == "" || serviceDescription == "" || servicePrice == ""
                                    || estimatedTime == ""
    {
      !Filled(Values())
    }
  }
}
