/** The inventory form: defaults, the schema whose numeric fields are parsed with
    `parseInt`, the record built from the parsed values, and the save into the stored
    inventory. Prices are whole amounts parsed like the counts. `Math.random()` is the
    parameter `n`, already scaled to 0..9999. */
module InventoryForm {
  import opened Wrappers
  import opened Text
  import opened Entities
  import opened Store
  import opened Records

  const IdPrefix := "INV-"
  const InventoryRoute := "/inventory"
  const DefaultStock := "0"
  const DefaultThreshold := "5"

  /** The categories the select offers. */
  const Categories := ["Engine Parts", "Brakes", "Filters", "Electrical", "Suspension", "Fluids & Oils",
                       "Body Parts", "Interior", "Tires & Wheels", "Belts & Hoses", "Other"]

  /** The form's text values. */
  datatype Values = Values(
    partName: string, partNumber: string, category: string, stockQuantity: string,
    lowStockThreshold: string, purchasePrice: string, sellingPrice: string,
    description: string, location: string)

  predicate IsEditMode(itemId: string) { itemId != "" }

  /** Each field from `initialData` when it has one, otherwise '' for text, '0' for
      the stock and the prices and '5' for the threshold. */
  function DefaultValues(initialData: Option<InventoryItem>): (r: Values)
    ensures initialData.None? ==> r.stockQuantity == DefaultStock && r.lowStockThreshold == DefaultThreshold
                                  && r.purchasePrice == "0" && r.sellingPrice == "0" && r.partName == ""
    ensures initialData.Some? ==> r.stockQuantity == IntToString(initialData.value.stockQuantity)
                                  && r.lowStockThreshold == IntToString(initialData.value.lowStockThreshold)
  {
    match initialData
    case None => Values("", "", "", DefaultStock, DefaultThreshold, "0", "0", "", "")
    case Some(i) =>
      Values(i.partName, i.partNumber, i.category, IntToString(i.stockQuantity),
             IntToString(i.lowStockThreshold), IntToString(i.purchasePrice), IntToString(i.sellingPrice),
             i.description, i.location)
  }

  /** One numeric rule: the text parses to a number and the number is not negative. */
  predicate NonNegative(s: string) {
    var p := JsParseInt(s);
    p.Some? && p.value >= 0
  }

  predicate SchemaAccepts(v: Values) {
    v.partName != "" && NonNegative(v.stockQuantity) && NonNegative(v.lowStockThreshold)
    && NonNegative(v.purchasePrice) && NonNegative(v.sellingPrice)
  }

  /** A new form needs only a part name to pass. */
  lemma DefaultsPass(partName: string)
    requires partName != ""
    ensures SchemaAccepts(DefaultValues(None).(partName := partName))
  {
    JsParseIntPrefix(0, []);
    JsParseIntPrefix(5, []);
    assert IntToString(0) + [] == DefaultStock;
    assert IntToString(5) + [] == DefaultThreshold;
  }

  /** A negative count is refused, and so is text that does not start with a number. */
  lemma SchemaRefuses(v: Values, m: int)
    requires m < 0
    ensures !SchemaAccepts(v.(stockQuantity := IntToString(m)))
    ensures !SchemaAccepts(v.(lowStockThreshold := "abc"))
  {
    JsParseIntString(m);
    assert TrimStart("abc") == "abc";
  }

  /** The record: the parsed numbers and the text fields under the given id. */
  function ToItem(id: string, v: Values): InventoryItem
    requires SchemaAccepts(v)
  {
    InventoryItem(id, v.partName, v.partNumber, v.category,
                  JsParseInt(v.stockQuantity).value, JsParseInt(v.lowStockThreshold).value,
                  JsParseInt(v.purchasePrice).value, JsParseInt(v.sellingPrice).value,
                  v.description, v.location)
  }

  function SavedId(itemId: string, n: nat): (r: string)
    requires n < 10000
    ensures IsEditMode(itemId) ==> r == itemId
    ensures !IsEditMode(itemId) ==> StartsWith(r, IdPrefix) && |r| == 8
                                    && AllDigits(r[4..]) && ParseNat(r[4..]) == n
  {
    if IsEditMode(itemId) then itemId else NewId(IdPrefix, n)
  }

  /** `parseInt(x.toString())` on a number the schema already produced gives it back. */
  function Reparse(x: int): (r: int)
    ensures r == x
  {
    JsParseIntString(x);
    JsParseInt(IntToString(x)).value
  }

  /** `onSubmit`, reached once the schema accepts the values: the numbers the schema
      parsed are parsed once more, and the record goes into the stored list. */
  method Save(store: LocalStore, itemId: string, data: Values, n: nat)
    returns (saved: InventoryItem, toast: string, route: string)
    requires n < 10000 && SchemaAccepts(data)
    modifies store
    ensures saved == ToItem(SavedId(itemId, n), data)
    ensures store.inventory == Some(Upserted(ListOrEmpty(old(store.inventory)), InventoryItemId, itemId, saved))
    ensures toast == (if IsEditMode(itemId) then "Inventory item updated successfully"
                      else "Inventory item added successfully")
    ensures route == InventoryRoute
    ensures store.customers == old(store.customers) && store.vehicles == old(store.vehicles)
    ensures store.customServices == old(store.customServices) && store.selectedServices == old(store.selectedServices)
  {
    var stock := JsParseInt(data.stockQuantity).value;
    var threshold := JsParseInt(data.lowStockThreshold).value;
    var purchase := JsParseInt(data.purchasePrice).value;
    var selling := JsParseInt(data.sellingPrice).value;
    var id := if itemId != "" then itemId else IdPrefix + Pad4(n);
    saved := InventoryItem(id, data.partName, data.partNumber, data.category,
                           Reparse(stock), Reparse(threshold), Reparse(purchase), Reparse(selling),
                           data.description, data.location);
    var existingInventory := ListOrEmpty(store.inventory);
    if itemId != "" {
      store.inventory := Some(Collections.ReplaceWhere(existingInventory, InventoryItemId, itemId, saved));
      toast := "Inventory item updated successfully";
    } else {
      existingInventory := existingInventory + [saved];
      store.inventory := Some(existingInventory);
      toast := "Inventory item added successfully";
    }
    route := InventoryRoute;
  }

  /** Editing an item with no negative numbers and saving the form unchanged stores the
      item as it was. */
  lemma EditUnchanged(i: InventoryItem)
    requires i.id != "" && i.partName != ""
    requires i.stockQuantity >= 0 && i.lowStockThreshold >= 0 && i.purchasePrice >= 0 && i.sellingPrice >= 0
    ensures SchemaAccepts(DefaultValues(Some(i)))
    ensures ToItem(SavedId(i.id, 0), DefaultValues(Some(i))) == i
  {
    JsParseIntString(i.stockQuantity);
    JsParseIntString(i.lowStockThreshold);
    JsParseIntString(i.purchasePrice);
    JsParseIntString(i.sellingPrice);
  }
}
