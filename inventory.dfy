/** The inventory screen (components/Inventory.tsx): the expiry badge, the
    low-stock shopping list with its reorder quantities and total, the
    per-category grouping, and adding items and categories. */
module Inventory {
  import opened Collections
  import opened Text
  import opened Calendar
  import opened Types

  /** Milliseconds in a day. */
  const DayMs: int := 86400000

  datatype ExpiryStatus = Expired | ExpiringSoon | Good | NoDate

  /** `Math.ceil(a / b)` for integers and a positive divisor. */
  function CeilDiv(a: int, b: int): (r: int)
    requires b > 0
    ensures b * (r - 1) < a <= b * r
  {
    -((-a) / b)
  }

  /** `new Date(s).getTime()` for a date-only "YYYY-MM-DD" text: midnight UTC of
      that day; None where JavaScript gets NaN. */
  function DateMs(s: string): (r: Option<int>)
  {
    match ParseIsoParts(s)
    case None => None
    case Some(d) => if IsValid(d) then Some(DayNumber(d) * DayMs) else None
  }

  /** getExpiryStatus, with the clock reading `nowMs` passed in: no date (null
      or empty) gives NoDate, otherwise the whole days until expiry, rounded
      up, decide. A date JavaScript cannot read makes every comparison false,
      so it counts as Good. */
  function GetExpiryStatus(expiryDate: Option<string>, nowMs: int): ExpiryStatus
  {
    if expiryDate.None? || expiryDate.value == "" then NoDate
    else
      match DateMs(expiryDate.value)
      case None => Good
      case Some(expiry) =>
        var diffDays := CeilDiv(expiry - nowMs, DayMs);
        if diffDays < 0 then Expired
        else if diffDays <= 7 then ExpiringSoon
        else Good
  }

  /** In calendar terms: with `d` the number of days from today (UTC) to the
      expiry day, the item is expired when d < 0, expiring soon when
      0 <= d <= 7, and good otherwise. */
  lemma ExpiryByDayDifference(s: string, nowMs: int)
    requires ParseIsoParts(s).Some? && IsValid(ParseIsoParts(s).value)
    ensures var d := DayNumber(ParseIsoParts(s).value) - nowMs / DayMs;
      GetExpiryStatus(Some(s), nowMs) == (if d < 0 then Expired else if d <= 7 then ExpiringSoon else Good)
  {
    var e := DayNumber(ParseIsoParts(s).value);
    var today := nowMs / DayMs;
    var r := nowMs % DayMs;
    assert nowMs == today * DayMs + r && 0 <= r < DayMs;
    assert s != "";
    var diff := CeilDiv(e * DayMs - nowMs, DayMs);
    assert e * DayMs - nowMs == (e - today) * DayMs - r;
    if r == 0 {
      assert diff == e - today;
    } else {
      assert DayMs * (e - today - 1) < (e - today) * DayMs - r <= DayMs * (e - today);
      assert diff == e - today;
    }
  }

  /** A null date, and an empty one, give NoDate. */
  lemma NoExpiryDate(nowMs: int)
    ensures GetExpiryStatus(None, nowMs) == NoDate && GetExpiryStatus(Some(""), nowMs) == NoDate
  {
  }

  /** The row badge and the shopping list share this test. */
  predicate IsLowStock(item: InventoryItem)
  {
    item.quantity <= item.lowStockThreshold
  }

  /** `Math.max(1, threshold * 2 - quantity)`: always at least one, and enough
      to bring the stock to twice its threshold. */
  function QuantityToBuy(item: InventoryItem): (q: real)
    ensures q >= 1.0
    ensures item.quantity + q >= 2.0 * item.lowStockThreshold
    ensures q == 1.0 || q == 2.0 * item.lowStockThreshold - item.quantity
  {
    var wanted := item.lowStockThreshold * 2.0 - item.quantity;
    if 1.0 >= wanted then 1.0 else wanted
  }

  /** `item.price || 0`: a missing (or zero) price counts as 0. */
  function PriceOrZero(item: InventoryItem): real
  {
    match item.price
    case None => 0.0
    case Some(p) => p
  }

  /** One row of the shopping list. */
  datatype ShoppingLine = ShoppingLine(item: InventoryItem, quantityToBuy: real, subtotal: real)

  function Line(item: InventoryItem): ShoppingLine
  {
    var q := QuantityToBuy(item);
    ShoppingLine(item, q, PriceOrZero(item) * q)
  }

  /** The shopping list: a line for each low-stock item, in inventory order,
      saying how much to buy and what that costs. */
  function ShoppingList(inventory: seq<InventoryItem>): (r: seq<ShoppingLine>)
    ensures |r| <= |inventory|
    ensures forall x :: x in LineItems(r) <==> x in inventory && x.quantity <= x.lowStockThreshold
    ensures forall l :: l in r ==>
      l.quantityToBuy == QuantityToBuy(l.item) && l.subtotal == PriceOrZero(l.item) * l.quantityToBuy
  {
    var low := Filter(IsLowStock, inventory);
    var lines := seq(|low|, i requires 0 <= i < |low| => Line(low[i]));
    assert LineItems(lines) == low;
    lines
  }

  function LineItems(lines: seq<ShoppingLine>): seq<InventoryItem>
  {
    seq(|lines|, i requires 0 <= i < |lines| => lines[i].item)
  }

  /** The listed items are the low-stock items in inventory order, each once
      for every time it is stocked. */
  lemma ShoppingListIsLowStock(inventory: seq<InventoryItem>)
    ensures LineItems(ShoppingList(inventory)) == Filter(IsLowStock, inventory)
    ensures forall x :: multiset(LineItems(ShoppingList(inventory)))[x]
                        == if x.quantity <= x.lowStockThreshold then multiset(inventory)[x] else 0
  {
    assert LineItems(ShoppingList(inventory)) == Filter(IsLowStock, inventory);
    FilterCount(IsLowStock, inventory);
  }

  /** The "Low Stock" badge of a row is shown exactly for the items the
      shopping list lists. */
  lemma BadgeIffListed(inventory: seq<InventoryItem>, i: int)
    requires 0 <= i < |inventory|
    ensures inventory[i].quantity <= inventory[i].lowStockThreshold <==> inventory[i] in LineItems(ShoppingList(inventory))
  {
    ShoppingListIsLowStock(inventory);
  }

  /** Nothing in stock against a threshold of one: buy two. */
  lemma ReorderExample()
    ensures QuantityToBuy(InventoryItem("i4", "Chicken Breast", 0.0, "kg", None, 1.0, "c1", Some(1040.0))) == 2.0
  {
  }

  /** The sum of the subtotals. */
  function ShoppingListTotal(lines: seq<ShoppingLine>): real
  {
    SumReal((l: ShoppingLine) => l.subtotal, lines)
  }

  /** The list of a concatenation is the concatenation of the lists. */
  lemma {:induction false} ShoppingListAppend(a: seq<InventoryItem>, b: seq<InventoryItem>)
    ensures ShoppingList(a + b) == ShoppingList(a) + ShoppingList(b)
  {
    FilterAppend(IsLowStock, a, b);
  }

  /** The total is additive over the inventory, and never negative when no
      price is. */
  lemma {:induction false} ShoppingListTotalAppend(a: seq<InventoryItem>, b: seq<InventoryItem>)
    ensures ShoppingListTotal(ShoppingList(a + b)) == ShoppingListTotal(ShoppingList(a)) + ShoppingListTotal(ShoppingList(b))
  {
    ShoppingListAppend(a, b);
    SumRealAppend((l: ShoppingLine) => l.subtotal, ShoppingList(a), ShoppingList(b));
  }

  lemma {:induction false} ShoppingListTotalNonNegative(inventory: seq<InventoryItem>)
    requires forall i :: 0 <= i < |inventory| ==> PriceOrZero(inventory[i]) >= 0.0
    ensures ShoppingListTotal(ShoppingList(inventory)) >= 0.0
    decreases |inventory|
  {
    if inventory != [] {
      var first, rest := inventory[..1], inventory[1..];
      assert inventory == first + rest;
      ShoppingListTotalAppend(first, rest);
      ShoppingListTotalNonNegative(rest);
      assert first[1..] == [];
      var lines := ShoppingList(first);
      assert ShoppingListTotal(lines) >= 0.0 by {
        if |lines| > 0 {
          assert lines == [Line(inventory[0])];
          assert ShoppingListTotal(lines) == Line(inventory[0]).subtotal + SumReal((l: ShoppingLine) => l.subtotal, lines[1..]);
          assert lines[1..] == [];
        }
      }
    }
  }

  /** Appending one item adds at most its own line to the end of the list. */
  lemma ShoppingListAfterAdd(inventory: seq<InventoryItem>, item: InventoryItem)
    ensures ShoppingList(inventory + [item]) == ShoppingList(inventory) + (if IsLowStock(item) then [Line(item)] else [])
  {
    ShoppingListAppend(inventory, [item]);
    assert [item][1..] == [];
  }

  /** One card of the inventory page: a category and its items. */
  datatype Group = Group(category: InventoryCategory, items: seq<InventoryItem>)

  /** groupedInventory: one group per category, in category order, holding the
      items of that category in inventory order. */
  function GroupedInventory(categories: seq<InventoryCategory>, inventory: seq<InventoryItem>): (r: seq<Group>)
    ensures |r| == |categories|
    ensures forall i :: 0 <= i < |r| ==> r[i].category == categories[i]
  {
    seq(|categories|, i requires 0 <= i < |categories| =>
      Group(categories[i], Filter((x: InventoryItem) => x.categoryId == categories[i].categoryId, inventory)))
  }

  /** Each group holds exactly the items whose category id is its own, each as
      often as in the inventory; an item whose category is not listed appears
      in no group. */
  lemma GroupsPartitionByCategory(categories: seq<InventoryCategory>, inventory: seq<InventoryItem>)
    ensures var groups := GroupedInventory(categories, inventory);
      forall i, x :: 0 <= i < |groups| ==>
        (x in groups[i].items <==> x in inventory && x.categoryId == categories[i].categoryId)
    ensures var groups := GroupedInventory(categories, inventory);
      forall i, x: InventoryItem :: 0 <= i < |groups| && x.categoryId == categories[i].categoryId ==>
        multiset(groups[i].items)[x] == multiset(inventory)[x]
    ensures var groups := GroupedInventory(categories, inventory);
      forall x :: x in inventory && (forall c :: c in categories ==> c.categoryId != x.categoryId) ==>
        forall i :: 0 <= i < |groups| ==> x !in groups[i].items
  {
    var groups := GroupedInventory(categories, inventory);
    forall i | 0 <= i < |groups|
      ensures forall x: InventoryItem :: x.categoryId == categories[i].categoryId ==> multiset(groups[i].items)[x] == multiset(inventory)[x]
    {
      FilterCount((x: InventoryItem) => x.categoryId == categories[i].categoryId, inventory);
    }
  }

  /** handleAddItem: an item needs a name and a category; it is appended with
      the fresh id. */
  function WithItem(inventory: seq<InventoryItem>, draft: InventoryItem, freshId: string): (r: seq<InventoryItem>)
    ensures draft.name == "" || draft.categoryId == "" ==> r == inventory
    ensures draft.name != "" && draft.categoryId != "" ==>
      |r| == |inventory| + 1 && r[..|inventory|] == inventory && r[|inventory|] == draft.(itemId := freshId)
  {
    if draft.name == "" || draft.categoryId == "" then inventory
    else inventory + [draft.(itemId := freshId)]
  }

  /** handleAddCategory: a name that is blank after trimming is refused; the
      name is stored as typed. */
  function WithCategory(categories: seq<InventoryCategory>, name: string, freshId: string): (r: seq<InventoryCategory>)
    ensures IsBlank(name) ==> r == categories
    ensures !IsBlank(name) ==> r == categories + [InventoryCategory(freshId, name)]
  {
    if Trim(name) == "" then categories
    else categories + [InventoryCategory(freshId, name)]
  }

  /** A new category gets a group of its own at the end, and the existing
      groups are unchanged. */
  lemma NewCategoryAddsGroup(categories: seq<InventoryCategory>, inventory: seq<InventoryItem>, name: string, freshId: string)
    requires !IsBlank(name)
    ensures var before := GroupedInventory(categories, inventory);
      var after := GroupedInventory(WithCategory(categories, name, freshId), inventory);
      |after| == |before| + 1 && after[..|before|] == before
      && after[|before|].category == InventoryCategory(freshId, name)
  {
    TrimEmptyIffBlank(name);
  }

  /** The inventory component's state. */
  class InventoryView {
    var inventory: seq<InventoryItem>
    var categories: seq<InventoryCategory>

    constructor(inventory: seq<InventoryItem>, categories: seq<InventoryCategory>)
      ensures this.inventory == inventory && this.categories == categories
    {
      this.inventory := inventory;
      this.categories := categories;
    }

    /** handleAddItem, with the form's item and a fresh id. */
    method AddItem(draft: InventoryItem, freshId: string)
      modifies this
      ensures inventory == WithItem(old(inventory), draft, freshId)
      ensures categories == old(categories)
    {
      if draft.name == "" || draft.categoryId == "" {
        return;
      }
      inventory := inventory + [draft.(itemId := freshId)];
    }

    /** handleAddCategory, with the typed name and a fresh id. */
    method AddCategory(name: string, freshId: string)
      modifies this
      ensures categories == WithCategory(old(categories), name, freshId)
      ensures inventory == old(inventory)
    {
      if Trim(name) == "" {
        return;
      }
      categories := categories + [InventoryCategory(freshId, name)];
    }
  }
}
