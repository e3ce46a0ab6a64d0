/** The service list with selectable entries: the toggled selection, the button that
    hands the selection to the caller, and its disabled state. */
module ServiceList {
  import opened Wrappers
  import opened Text
  import opened Collections
  import opened Entities
  import opened Selection

  const NoneSelected := "Please select at least one service"

  /** What one press of "Add Selected Services" does. */
  datatype AddOutcome =
    | Passed(services: seq<CatalogService>, toast: string)  // handed to the caller, selection cleared
    | Refused(error: string)                                 // nothing selected
    | Ignored                                                // a selection but no callback

  /** `handleAddSelectedServices` as a choice: with a callback and a selection, pass the
      selection on; with no selection, the error; otherwise nothing. */
  function AddSelected(selected: seq<CatalogService>, hasCallback: bool): (r: AddOutcome)
    ensures r.Passed? <==> hasCallback && |selected| > 0
    ensures r.Passed? ==> r.services == selected
                          && r.toast == NatToString(|selected|) + " services added to job card"
    ensures r.Refused? <==> |selected| == 0
    ensures r.Refused? ==> r.error == NoneSelected
  {
    if hasCallback && |selected| > 0 then
      Passed(selected, NatToString(|selected|) + " services added to job card")
    else if |selected| == 0 then Refused(NoneSelected)
    else Ignored
  }

  /** The button is disabled exactly when pressing it could not pass anything on. */
  lemma DisabledMeansNothingPassed(selected: seq<CatalogService>, hasCallback: bool)
    ensures (|selected| == 0) ==> !AddSelected(selected, hasCallback).Passed?
    ensures (|selected| != 0 && hasCallback) ==> AddSelected(selected, hasCallback).Passed?
  {
  }

  class SelectableServiceList {
    var selectedServices: seq<CatalogService>
    const hasCallback: bool

    constructor(hasCallback: bool)
      ensures selectedServices == [] && this.hasCallback == hasCallback
    {
      selectedServices := [];
      this.hasCallback := hasCallback;
    }

    method HandleServiceToggle(s: CatalogService)
      modifies this
      ensures selectedServices == Toggle(old(selectedServices), s)
    {
      if HasKey(selectedServices, CatalogServiceId, s.id) {
        selectedServices := RemoveKey(selectedServices, CatalogServiceId, s.id);
      } else {
        selectedServices := selectedServices + [s];
      }
    }

    /** Pass the selection on and clear it, or refuse an empty one. */
    method HandleAddSelectedServices() returns (outcome: AddOutcome)
      modifies this
      ensures outcome == AddSelected(old(selectedServices), hasCallback)
      ensures selectedServices == (if outcome.Passed? then [] else old(selectedServices))
    {
      if hasCallback && |selectedServices| > 0 {
        outcome := Passed(selectedServices, NatToString(|selectedServices|) + " services added to job card");
        selectedServices := [];
      } else if |selectedServices| == 0 {
        outcome := Refused(NoneSelected);
      } else {
        outcome := Ignored;
      }
    }

    /** The add button's `disabled`: nothing is selected, which is exactly when adding
        is refused with NoneSelected. */
    predicate AddDisabled()
      reads this
      ensures AddDisabled() <==> selectedServices == []
    {
      |selectedServices| == 0
    }

    /** A checkbox is ticked exactly when some selected service has its id. */
    predicate Checked(id: string)
      reads this
      ensures Checked(id) <==> exists k :: 0 <= k < |selectedServices| && selectedServices[k].id == id
    {
      IsSelected(selectedServices, id)
    }
  }
}
