/** The low-stock panel: which items it lists, the sentence above them, the out-of-stock
    badge, and what the Reorder button does. */
module LowStockAlert {
  import opened Text
  import opened Collections
  import opened Entities

  /** Low on stock: at or below the threshold; equality counts. */
  predicate IsLow(i: InventoryItem) { i.stockQuantity <= i.lowStockThreshold }

  function LowP(): InventoryItem -> bool { (i: InventoryItem) => IsLow(i) }

  /** `items.filter(item => item.stockQuantity <= item.lowStockThreshold)` */
  function LowStockItems(items: seq<InventoryItem>): (r: seq<InventoryItem>)
    ensures r == Filter(items, LowP())
    ensures forall x :: x in r <==> x in items && IsLow(x)
    ensures |r| <= |items|
  {
    Filter(items, LowP())
  }

  /** The panel either says everything is in stock, or lists the low items. */
  datatype View = AllInStock | Alert(text: string, items: seq<InventoryItem>)

  const BelowText := " below minimum stock levels."

  /** The sentence above the list: `${n} item${n !== 1 ? 's' : ''} ${n !== 1 ? 'are' : 'is'}
      below minimum stock levels.` */
  function AlertText(n: nat): string {
    NatToString(n) + " item" + (if n != 1 then "s" else "") + " " + (if n != 1 then "are" else "is") + BelowText
  }

  /** One item reads "1 item is", every other count "N items are". */
  lemma AlertTextForms(n: nat)
    ensures n == 1 ==> AlertText(n) == "1 item is" + BelowText
    ensures n != 1 ==> AlertText(n) == NatToString(n) + " items are" + BelowText
  {
    if n == 1 {
      assert NatToString(1) == "1";
      assert "1" + " item" + "" + " " + "is" == "1 item is";
    } else {
      var d := NatToString(n);
      assert d + " item" + "s" + " " + "are" == d + " items are";
    }
  }

  function Render(items: seq<InventoryItem>): (r: View)
    ensures r.AllInStock? <==> forall k :: 0 <= k < |items| ==> !IsLow(items[k])
    ensures r.Alert? ==> r.items == LowStockItems(items) && r.text == AlertText(|LowStockItems(items)|)
  {
    var low := LowStockItems(items);
    if |low| == 0 then
      assert forall k :: 0 <= k < |items| ==> items[k] !in low;
      AllInStock
    else
      assert low[0] in items;
      Alert(AlertText(|low|), low)
  }

  /** The 'Out of Stock' badge. */
  predicate OutOfStock(i: InventoryItem) { i.stockQuantity == 0 }

  /** An item that is out of stock is always in the list, unless its threshold is
      negative. */
  lemma OutOfStockIsListed(items: seq<InventoryItem>, i: InventoryItem)
    requires i in items && OutOfStock(i) && i.lowStockThreshold >= 0
    ensures i in LowStockItems(items)
  {
  }

  /** What Reorder does: hand the item to `onReorder` when there is one, otherwise only
      a toast naming the part. */
  datatype ReorderAction = CallOnReorder(item: InventoryItem) | Toast(message: string)

  function HandleReorder(item: InventoryItem, hasOnReorder: bool): (r: ReorderAction)
    ensures hasOnReorder <==> r.CallOnReorder?
    ensures r.CallOnReorder? ==> r.item == item
    ensures r.Toast? ==> r.message == "Reorder request sent for " + item.partName
  {
    if hasOnReorder then CallOnReorder(item) else Toast("Reorder request sent for " + item.partName)
  }
}
