/** Catalogue services grouped by category, and a selection of them as the two service
    pickers keep it: a click on a service removes it when its id is selected and appends
    it otherwise. */
module Selection {
  import opened Collections
  import opened Entities

  function Price(s: CatalogService): int { s.price }

  function Category(s: CatalogService): string { s.category }

  /** `s => s.category === c` */
  function OfCategory(c: string): CatalogService -> bool {
    (s: CatalogService) => s.category == c
  }

  /** The services of one category, in catalogue order: built by appending each
      service of the category in turn, and equal to `services.filter(s => s.category === c)`. */
  function InCategory(services: seq<CatalogService>, c: string): (r: seq<CatalogService>)
    ensures r == Filter(services, OfCategory(c))
    ensures forall x :: x in r <==> x in services && x.category == c
    ensures |r| <= |services|
    decreases |services|
  {
    if services == [] then []
    else
      var n := |services| - 1;
      var r := InCategory(services[..n], c);
      assert services == services[..n] + [services[n]];
      FilterAppend(services[..n], [services[n]], OfCategory(c));
      assert [services[n]][1..] == [];
      if services[n].category == c then r + [services[n]] else r
  }

  /** `selected.reduce((sum, s) => sum + s.price, 0)` */
  function TotalPrice(selected: seq<CatalogService>): int {
    SumOf(selected, Price)
  }

  /** `selected.some(s => s.id === id)`, the checkbox state. */
  predicate IsSelected(selected: seq<CatalogService>, id: string) {
    HasKey(selected, CatalogServiceId, id)
  }

  /** `handleServiceToggle`: the clicked service changes state, every other id keeps its
      state, and the other selected services stay, in order. */
  function Toggle(selected: seq<CatalogService>, s: CatalogService): (r: seq<CatalogService>)
    ensures IsSelected(r, s.id) <==> !IsSelected(selected, s.id)
    ensures forall id :: id != s.id ==> (IsSelected(r, id) <==> IsSelected(selected, id))
    ensures forall x: CatalogService :: x.id != s.id ==> (x in r <==> x in selected)
    ensures !IsSelected(selected, s.id) ==> r == selected + [s]
    ensures IsSelected(selected, s.id) ==> r == RemoveKey(selected, CatalogServiceId, s.id)
  {
    if IsSelected(selected, s.id) then RemoveKey(selected, CatalogServiceId, s.id)
    else
      var r := selected + [s];
      assert r[|selected|] == s;
      assert forall i :: 0 <= i < |selected| ==> r[i] == selected[i];
      r
  }

  /** Clicking an unselected service twice gives back the selection. */
  lemma ToggleTwice(selected: seq<CatalogService>, s: CatalogService)
    requires !IsSelected(selected, s.id)
    ensures Toggle(Toggle(selected, s), s) == selected
  {
    RemoveKeyAppend(selected, [s], CatalogServiceId, s.id);
    RemoveKeyAbsent(selected, CatalogServiceId, s.id);
    assert RemoveKey([s], CatalogServiceId, s.id) == [] by {
      assert !HasKey(RemoveKey([s], CatalogServiceId, s.id), CatalogServiceId, s.id);
      assert forall x :: x in RemoveKey([s], CatalogServiceId, s.id) ==> x == s;
    }
  }

  /** Toggling never selects two services with the same id. */
  lemma ToggleUnique(selected: seq<CatalogService>, s: CatalogService)
    requires UniqueKeys(selected, CatalogServiceId)
    ensures UniqueKeys(Toggle(selected, s), CatalogServiceId)
  {
    if IsSelected(selected, s.id) {
      RemoveKeyUnique(selected, CatalogServiceId, s.id);
    } else {
      var r := selected + [s];
      forall i, j | 0 <= i < j < |r| ensures r[i].id != r[j].id {
        if j == |selected| {
          assert r[i] == selected[i];
        } else {
          assert r[i] == selected[i] && r[j] == selected[j];
        }
      }
    }
  }

  /** The footer total after a click: up by the price of a newly selected service, down
      by the prices of the entries with its id when it was selected. */
  lemma ToggleTotal(selected: seq<CatalogService>, s: CatalogService)
    ensures !IsSelected(selected, s.id) ==> TotalPrice(Toggle(selected, s)) == TotalPrice(selected) + s.price
    ensures IsSelected(selected, s.id) ==>
              TotalPrice(Toggle(selected, s))
              == TotalPrice(selected) - SumOf(KeepKey(selected, CatalogServiceId, s.id), Price)
  {
    if IsSelected(selected, s.id) {
      RemoveKeySum(selected, CatalogServiceId, s.id, Price);
    } else {
      SumOfAppend(selected, [s], Price);
      assert [s][..0] == [];
    }
  }
}
