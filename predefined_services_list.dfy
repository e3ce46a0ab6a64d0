/** The predefined-services picker: a selection toggled service by service, confirm and
    cancel, the catalogue grouped by category, and the footer count and total. The
    catalogue itself is a parameter. */
module PredefinedServicesList {
  import opened Wrappers
  import opened Collections
  import opened Entities
  import opened Selection

  /** `servicesByCategory` built by the loop that pushes each service onto the list of
      its category: the categories in order of first appearance, and for each exactly
      its services in catalogue order. */
  method GroupByCategory(services: seq<CatalogService>)
    returns (categories: seq<string>, groups: map<string, seq<CatalogService>>)
    ensures categories == Distinct(Map(services, Category))
    ensures FirstSeenOrder(categories, Map(services, Category))
    ensures forall c :: c in groups <==> c in categories
    ensures forall c :: c in groups ==> groups[c] == InCategory(services, c)
    ensures forall c :: c in groups ==> groups[c] == Filter(services, OfCategory(c))
  {
    categories := [];
    groups := map[];
    var i := 0;
    while i < |services|
      invariant 0 <= i <= |services|
      invariant Grouped(services[..i], categories, groups)
    {
      var c := services[i].category;
      GroupStep(services, i, categories, groups);
      var group := if c in groups then groups[c] else [];
      if c !in groups {
        categories := categories + [c];
      }
      groups := groups[c := group + [services[i]]];
      i := i + 1;
    }
    assert services[..|services|] == services;
    DistinctOrder(Map(services, Category));
  }

  /** The loop's invariant: the categories met so far, and each one's services. */
  ghost predicate Grouped(prefix: seq<CatalogService>, categories: seq<string>,
                          groups: map<string, seq<CatalogService>>)
  {
    && categories == Distinct(Map(prefix, Category))
    && SameKeys(categories, groups)
    && GroupsMatch(prefix, groups)
  }

  ghost predicate SameKeys(categories: seq<string>, groups: map<string, seq<CatalogService>>) {
    forall c :: c in groups <==> c in categories
  }

  ghost predicate GroupsMatch(prefix: seq<CatalogService>, groups: map<string, seq<CatalogService>>) {
    forall c :: (if c in groups then groups[c] else []) == InCategory(prefix, c)
  }

  lemma GroupStep(services: seq<CatalogService>, i: nat, categories: seq<string>,
                  groups: map<string, seq<CatalogService>>)
    requires i < |services|
    requires Grouped(services[..i], categories, groups)
    ensures var c := services[i].category;
            Grouped(services[..i + 1],
                    if c in groups then categories else categories + [c],
                    groups[c := (if c in groups then groups[c] else []) + [services[i]]])
  {
    PrefixStep(services, i);
    SameKeysStep(categories, groups, services[i].category, services[i]);
    GroupsMatchStep(services, i, groups);
  }

  lemma SameKeysStep(categories: seq<string>, groups: map<string, seq<CatalogService>>,
                     c: string, s: CatalogService)
    requires SameKeys(categories, groups)
    ensures SameKeys(if c in groups then categories else categories + [c],
                     groups[c := (if c in groups then groups[c] else []) + [s]])
  {
    var cats := if c in groups then categories else categories + [c];
    var g := groups[c := (if c in groups then groups[c] else []) + [s]];
    forall x ensures x in g <==> x in cats {
      assert x in categories + [c] <==> x in categories || x == c;
    }
  }

  lemma GroupsMatchStep(services: seq<CatalogService>, i: nat, groups: map<string, seq<CatalogService>>)
    requires i < |services|
    requires GroupsMatch(services[..i], groups)
    ensures var c := services[i].category;
            GroupsMatch(services[..i + 1], groups[c := (if c in groups then groups[c] else []) + [services[i]]])
  {
    PrefixStep(services, i);
  }

  /** One more service: its category joins the list if new, and it joins its group. */
  lemma PrefixStep(services: seq<CatalogService>, i: nat)
    requires i < |services|
    ensures var d := Distinct(Map(services[..i], Category));
            Distinct(Map(services[..i + 1], Category))
              == if services[i].category in d then d else d + [services[i].category]
    ensures forall c :: InCategory(services[..i + 1], c)
              == if c == services[i].category then InCategory(services[..i], c) + [services[i]]
                 else InCategory(services[..i], c)
  {
    var t := services[..i + 1];
    assert t[..i] == services[..i];
    assert t[i] == services[i];
    assert Map(t, Category)[..i] == Map(services[..i], Category);
  }

  /** Each service sits in the group of its own category and in no other. */
  lemma GroupsPartition(services: seq<CatalogService>, s: CatalogService, c: string)
    requires s in services
    ensures s in InCategory(services, c) <==> c == s.category
    ensures s.category in Distinct(Map(services, Category))
  {
    var k :| 0 <= k < |services| && services[k] == s;
    assert Map(services, Category)[k] == s.category;
  }

  /** The dialog's selection and the parent's open flag. */
  class PredefinedServicesDialog {
    var selectedServices: seq<CatalogService>
    var open: bool

    constructor(open: bool)
      ensures selectedServices == [] && this.open == open
    {
      selectedServices := [];
      this.open := open;
    }

    method HandleServiceToggle(s: CatalogService)
      modifies this
      ensures selectedServices == Toggle(old(selectedServices), s) && open == old(open)
    {
      if HasKey(selectedServices, CatalogServiceId, s.id) {
        selectedServices := RemoveKey(selectedServices, CatalogServiceId, s.id);
      } else {
        selectedServices := selectedServices + [s];
      }
    }

    /** `handleConfirm`: passes the selection on and closes; the selection is kept. */
    method HandleConfirm() returns (chosen: seq<CatalogService>)
      modifies this
      ensures chosen == selectedServices && selectedServices == old(selectedServices) && !open
    {
      chosen := selectedServices;
      open := false;
    }

    /** `handleCancel`: clears the selection and closes. */
    method HandleCancel()
      modifies this
      ensures selectedServices == [] && !open
    {
      selectedServices := [];
      open := false;
    }

    /** The footer: how many services are selected and what they cost. */
    function Footer(): (r: (nat, int))
      reads this
      ensures r.0 == |selectedServices| && r.1 == TotalPrice(selectedServices)
      ensures selectedServices == [] ==> r == (0, 0)
    {
      (|selectedServices|, TotalPrice(selectedServices))
    }
  }
}
