/** The inventory page: the loaded items, the category list, the search / category /
    low-stock pipeline that recomputes the shown items whenever an input changes, the
    delete, and the text of the empty table. A category filter or search query of ""
    is "not set". */
module InventoryList {
  import opened Wrappers
  import opened Text
  import opened Collections
  import opened Entities
  import opened Store
  import opened LowStockAlert

  const Uncategorized := "Uncategorized"
  const NoMatchText := "No inventory items match your filters"
  const NoItemsText := "No inventory items found. Add your first item to get started."

  /** The search: the lower-cased query occurs in the lower-cased part name, or in the
      lower-cased part number when there is one. */
  predicate SearchMatch(i: InventoryItem, query: string) {
    Includes(ToLower(i.partName), query) || (i.partNumber != "" && Includes(ToLower(i.partNumber), query))
  }

  /** 'Uncategorized' picks the items without a category; any other value needs equality. */
  predicate CategoryMatch(i: InventoryItem, c: string) {
    if c == Uncategorized then i.category == "" else i.category == c
  }

  /** An item passes every filter that is on. */
  predicate Visible(i: InventoryItem, search: string, c: string, low: bool) {
    (search == "" || SearchMatch(i, ToLower(search))) && (c == "" || CategoryMatch(i, c)) && (!low || IsLow(i))
  }

  function SearchP(query: string): InventoryItem -> bool { (i: InventoryItem) => SearchMatch(i, query) }
  function CategoryP(c: string): InventoryItem -> bool { (i: InventoryItem) => CategoryMatch(i, c) }
  function SearchStage(search: string): InventoryItem -> bool {
    (i: InventoryItem) => search == "" || SearchMatch(i, ToLower(search))
  }
  function CategoryStage(search: string, c: string): InventoryItem -> bool {
    (i: InventoryItem) => (search == "" || SearchMatch(i, ToLower(search))) && (c == "" || CategoryMatch(i, c))
  }
  function VisibleP(search: string, c: string, low: bool): InventoryItem -> bool {
    (i: InventoryItem) => Visible(i, search, c, low)
  }

  /** The filter effect: `results` narrowed by each filter that is on, in turn. The
      result is the items that pass every active filter, in their order. */
  method FilterPipeline(items: seq<InventoryItem>, search: string, c: string, low: bool)
    returns (results: seq<InventoryItem>)
    ensures results == Filter(items, VisibleP(search, c, low))
  {
    results := items;
    if search != "" {
      var query := ToLower(search);
      results := Filter(results, SearchP(query));
      FilterSame(items, SearchP(query), SearchStage(search));
    } else {
      FilterAll(items, SearchStage(search));
    }
    assert results == Filter(items, SearchStage(search));
    if c != "" {
      results := Filter(results, CategoryP(c));
      FilterFilter(items, SearchStage(search), CategoryP(c), CategoryStage(search, c));
    } else {
      FilterSame(items, SearchStage(search), CategoryStage(search, c));
    }
    assert results == Filter(items, CategoryStage(search, c));
    if low {
      results := Filter(results, LowP());
      FilterFilter(items, CategoryStage(search, c), LowP(), VisibleP(search, c, low));
    } else {
      FilterSame(items, CategoryStage(search, c), VisibleP(search, c, low));
    }
  }

  /** With no filter on, every item is shown, in order; with only the low-stock filter
      on, exactly the low-stock panel's items are shown. */
  lemma FilterLimits(items: seq<InventoryItem>)
    ensures Filter(items, VisibleP("", "", false)) == items
    ensures Filter(items, VisibleP("", "", true)) == LowStockItems(items)
  {
    FilterAll(items, VisibleP("", "", false));
    FilterSame(items, VisibleP("", "", true), LowP());
  }

  function CategoryOrUncategorized(i: InventoryItem): string {
    if i.category == "" then Uncategorized else i.category
  }

  /** The category list: each item's category, 'Uncategorized' for none, once each, in
      order of first use. */
  function Categories(items: seq<InventoryItem>): (r: seq<string>)
    ensures forall i, j :: 0 <= i < j < |r| ==> r[i] != r[j]
    ensures forall c :: c in r <==> c in Map(items, CategoryOrUncategorized)
    ensures FirstSeenOrder(r, Map(items, CategoryOrUncategorized))
  {
    DistinctOrder(Map(items, CategoryOrUncategorized));
    Distinct(Map(items, CategoryOrUncategorized))
  }

  /** Every item's entry in the category list is offered, and choosing it shows the item,
      unless the item's category is literally 'Uncategorized'. */
  lemma CategoryOffered(items: seq<InventoryItem>, i: InventoryItem)
    requires i in items && i.category != Uncategorized
    ensures CategoryOrUncategorized(i) in Categories(items)
    ensures CategoryMatch(i, CategoryOrUncategorized(i))
  {
    var k :| 0 <= k < |items| && items[k] == i;
    assert Map(items, CategoryOrUncategorized)[k] == CategoryOrUncategorized(i);
  }

  /** The text of an empty table: it blames the filters exactly when one is on. */
  function EmptyText(search: string, c: string, low: bool): (r: string)
    ensures r == NoMatchText <==> search != "" || c != "" || low
    ensures r == NoMatchText || r == NoItemsText
  {
    if search != "" || c != "" || low then NoMatchText else NoItemsText
  }

  /** With no filter on, an empty table means an empty inventory. */
  lemma NoItemsTextIsTrue(items: seq<InventoryItem>)
    requires Filter(items, VisibleP("", "", false)) == []
    ensures items == [] && EmptyText("", "", false) == NoItemsText
  {
    FilterLimits(items);
  }

  class InventoryListPage {
    var searchQuery: string
    var inventoryItems: seq<InventoryItem>
    var filteredItems: seq<InventoryItem>
    var categoryFilter: string
    var showLowStock: bool
    const store: LocalStore

    constructor(store: LocalStore)
      ensures searchQuery == "" && inventoryItems == [] && filteredItems == []
      ensures categoryFilter == "" && !showLowStock && this.store == store
    {
      searchQuery := "";
      inventoryItems := [];
      filteredItems := [];
      categoryFilter := "";
      showLowStock := false;
      this.store := store;
    }

    /** The shown items agree with the filters. */
    predicate Valid()
      reads this
    {
      filteredItems == Filter(inventoryItems, VisibleP(searchQuery, categoryFilter, showLowStock))
    }

    /** The filter effect, run after every change of its inputs. */
    method Refilter()
      modifies this
      ensures Valid()
      ensures searchQuery == old(searchQuery) && inventoryItems == old(inventoryItems)
      ensures categoryFilter == old(categoryFilter) && showLowStock == old(showLowStock)
    {
      filteredItems := FilterPipeline(inventoryItems, searchQuery, categoryFilter, showLowStock);
    }

    /** The loading effect: the stored list when there is one. */
    method Load()
      modifies this
      ensures store.inventory.Some? ==> inventoryItems == store.inventory.value
      ensures store.inventory.None? ==> inventoryItems == old(inventoryItems)
      ensures Valid()
      ensures searchQuery == old(searchQuery) && categoryFilter == old(categoryFilter)
      ensures showLowStock == old(showLowStock)
    {
      if store.inventory.Some? {
        inventoryItems := store.inventory.value;
      }
      Refilter();
    }

    method SetSearchQuery(q: string)
      modifies this
      ensures searchQuery == q && Valid()
      ensures inventoryItems == old(inventoryItems) && categoryFilter == old(categoryFilter)
      ensures showLowStock == old(showLowStock)
    {
      searchQuery := q;
      Refilter();
    }

    method SetCategoryFilter(c: string)
      modifies this
      ensures categoryFilter == c && Valid()
      ensures inventoryItems == old(inventoryItems) && searchQuery == old(searchQuery)
      ensures showLowStock == old(showLowStock)
    {
      categoryFilter := c;
      Refilter();
    }

    /** The low-stock checkbox's `onChange`: the flag flips. */
    method ToggleShowLowStock()
      modifies this
      ensures showLowStock == !old(showLowStock) && Valid()
      ensures inventoryItems == old(inventoryItems) && searchQuery == old(searchQuery)
      ensures categoryFilter == old(categoryFilter)
    {
      showLowStock := !showLowStock;
      Refilter();
    }

    /** `handleDeleteItem`: the store and the page get the same list, without the id. */
    method HandleDeleteItem(itemId: string) returns (toast: string)
      modifies this, store
      ensures inventoryItems == RemoveKey(old(inventoryItems), InventoryItemId, itemId)
      ensures store.inventory == Some(inventoryItems)
      ensures Valid() && toast == "Inventory item deleted successfully"
      ensures searchQuery == old(searchQuery) && categoryFilter == old(categoryFilter)
      ensures showLowStock == old(showLowStock)
      ensures store.customers == old(store.customers) && store.vehicles == old(store.vehicles)
      ensures store.customServices == old(store.customServices) && store.selectedServices == old(store.selectedServices)
    {
      var updatedInventory := RemoveKey(inventoryItems, InventoryItemId, itemId);
      store.inventory := Some(updatedInventory);
      inventoryItems := updatedInventory;
      toast := "Inventory item deleted successfully";
      Refilter();
    }

    /** The empty table's text for the current filters. */
    function TableEmptyText(): (r: string)
      reads this
      ensures r == NoMatchText <==> searchQuery != "" || categoryFilter != "" || showLowStock
    {
      EmptyText(searchQuery, categoryFilter, showLowStock)
    }
  }
}
