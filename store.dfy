/** The browser's localStorage, reduced to the five keys the screens read and write.
    Each key holds a parsed list, or None when the key was never written. */
module Store {
  import opened Wrappers
  import opened Entities

  class LocalStore {
    var customers: Option<seq<Customer>>
    var vehicles: Option<seq<Vehicle>>
    var inventory: Option<seq<InventoryItem>>
    var customServices: Option<seq<CatalogService>>
    var selectedServices: Option<seq<CatalogService>>

    /** A fresh browser profile: no key has been written. */
    constructor()
      ensures customers == None && vehicles == None
      ensures inventory == None && customServices == None && selectedServices == None
    {
      customers := None;
      vehicles := None;
      inventory := None;
      customServices := None;
      selectedServices := None;
    }
  }

  /** `JSON.parse(localStorage.getItem(key) || '[]')` */
  function ListOrEmpty<T>(stored: Option<seq<T>>): (r: seq<T>)
    ensures stored.None? ==> r == []
    ensures stored.Some? ==> r == stored.value
  {
    stored.GetOr([])
  }
}
