/** The meal planner (components/MealPlanner.tsx): assigning a recipe to a
    slot, appending the next day to the plan, and marking a meal as prepared,
    which checks every ingredient against the inventory and either deducts all
    of them or changes nothing. */
module MealPlanner {
  import opened Collections
  import opened Calendar
  import opened Types

  /** One entry of the list of problems that stop a meal from being prepared.
      The numbers of `Insufficient` are the ones the message prints, after
      unit scaling, and `unit` is always the ingredient's own unit. */
  datatype Shortage =
    | NotInInventory(name: string)
    | UnitMismatch(name: string, need: string, have: string)
    | Insufficient(name: string, required: real, available: real, unit: string)

  /** A staged new stock quantity for one inventory item. */
  datatype InventoryUpdate = InventoryUpdate(itemId: string, newQuantity: real)

  /** What checking one ingredient against the inventory yields. */
  datatype Verdict = Short(shortage: Shortage) | Staged(update: InventoryUpdate)

  /** What a press of "Mark as Prepared" did. */
  datatype Outcome = NothingToPrepare | Missing(shortages: seq<Shortage>) | Done

  /** The state the planner reads and replaces. */
  datatype Household = Household(inventory: seq<InventoryItem>, mealPlan: seq<MealPlan>)

  datatype Prepared = Prepared(outcome: Outcome, after: Household)

  /** `inventory.find(i => i.itemId === itemId)`. */
  function FindItem(inventory: seq<InventoryItem>, itemId: string): (r: Option<InventoryItem>)
    ensures r.None? <==> forall i :: 0 <= i < |inventory| ==> inventory[i].itemId != itemId
    ensures r.Some? ==> r.value in inventory && r.value.itemId == itemId
    ensures r.Some? ==> exists i :: 0 <= i < |inventory| && inventory[i] == r.value
                           && forall j :: 0 <= j < i ==> inventory[j].itemId != itemId
  {
    Find((x: InventoryItem) => x.itemId == itemId, inventory)
  }

  /** Stock is kept in the larger unit of the recipe's: g against kg, ml against L. */
  predicate ScalesStock(recipeUnit: string, stockUnit: string)
  {
    (recipeUnit == "g" && stockUnit == "kg") || (recipeUnit == "ml" && stockUnit == "L")
  }

  /** The recipe asks in the larger unit of the stock's: kg against g, L against ml. */
  predicate ScalesRequirement(recipeUnit: string, stockUnit: string)
  {
    (recipeUnit == "kg" && stockUnit == "g") || (recipeUnit == "L" && stockUnit == "ml")
  }

  /** Checks one ingredient as one pass of the preparation loop does: a missing
      item, a unit pair it cannot convert, too little stock, or the staged new
      quantity, expressed in the stock's own unit. */
  function Check(ing: Ingredient, inventory: seq<InventoryItem>): (r: Verdict)
    ensures r.Staged? ==> r.update.itemId == ing.itemId && r.update.newQuantity >= 0.0
    ensures r == Short(NotInInventory(ing.name)) <==> FindItem(inventory, ing.itemId).None?
  {
    match FindItem(inventory, ing.itemId)
    case None => Short(NotInInventory(ing.name))
    case Some(item) => CheckStock(ing, item)
  }

  /** The part of the check after the ingredient's item has been found. */
  function CheckStock(ing: Ingredient, item: InventoryItem): (r: Verdict)
    ensures r.Staged? ==> r.update.itemId == ing.itemId && r.update.newQuantity >= 0.0
    ensures r.Short? ==> !r.shortage.NotInInventory?
  {
    if !ScalesStock(ing.unit, item.unit) && !ScalesRequirement(ing.unit, item.unit) && ing.unit != item.unit then
      Short(UnitMismatch(ing.name, ing.unit, item.unit))
    else
      var required := Required(ing, item.unit);
      var available := Available(item, ing.unit);
      if available < required then
        Short(Insufficient(ing.name, required, available, ing.unit))
      else
        var remaining := available - required;
        Staged(InventoryUpdate(ing.itemId, if ScalesStock(ing.unit, item.unit) then remaining / 1000.0 else remaining))
  }

  /** The requirement in the unit the comparison uses: scaled to grams or
      millilitres when the recipe asks in kg or L of a stock kept in g or ml. */
  function Required(ing: Ingredient, stockUnit: string): real
  {
    if ScalesRequirement(ing.unit, stockUnit) then ing.quantity * 1000.0 else ing.quantity
  }

  /** The stock in the unit the comparison uses: scaled to grams or millilitres
      when it is kept in kg or L and the recipe asks in g or ml. */
  function Available(item: InventoryItem, recipeUnit: string): real
  {
    if ScalesStock(recipeUnit, item.unit) then item.quantity * 1000.0 else item.quantity
  }

  /** Same units compare directly: too little stock is reported with the two
      quantities as they are, otherwise the stock minus the requirement is
      staged. */
  lemma CheckSameUnit(ing: Ingredient, inventory: seq<InventoryItem>, item: InventoryItem)
    requires FindItem(inventory, ing.itemId) == Some(item) && ing.unit == item.unit
    ensures item.quantity < ing.quantity ==>
      Check(ing, inventory) == Short(Insufficient(ing.name, ing.quantity, item.quantity, ing.unit))
    ensures item.quantity >= ing.quantity ==>
      Check(ing, inventory) == Staged(InventoryUpdate(ing.itemId, item.quantity - ing.quantity))
  {
    assert Required(ing, item.unit) == ing.quantity;
    assert Available(item, ing.unit) == item.quantity;
  }

  /** How many base units (grams or millilitres) one `u` is. */
  function BaseFactor(u: string): (f: real)
    ensures f > 0.0
  {
    if u == "kg" || u == "L" then 1000.0 else 1.0
  }

  /** `q` of unit `from` expressed in unit `to`, for units of one dimension. */
  function Convert(q: real, from: string, to: string): real
  {
    q * BaseFactor(from) / BaseFactor(to)
  }

  /** Units the planner can compare: equal, or the two units of mass or of volume. */
  predicate SameDimension(a: string, b: string)
  {
    a == b || {a, b} == {"g", "kg"} || {a, b} == {"ml", "L"}
  }

  /** The preparation check agrees with plain unit conversion: a unit pair is
      refused exactly when the units measure different things, an ingredient
      is staged exactly when its requirement, converted to the stock's unit,
      does not exceed the stock, and the staged quantity is the stock minus
      that converted requirement. */
  lemma CheckAgreesWithConversion(ing: Ingredient, inventory: seq<InventoryItem>)
    requires FindItem(inventory, ing.itemId).Some?
    ensures var item := FindItem(inventory, ing.itemId).value;
      (Check(ing, inventory).Short? && Check(ing, inventory).shortage.UnitMismatch?)
        <==> !SameDimension(ing.unit, item.unit)
    ensures var item := FindItem(inventory, ing.itemId).value;
      SameDimension(ing.unit, item.unit) ==>
        (Check(ing, inventory).Staged? <==> Convert(ing.quantity, ing.unit, item.unit) <= item.quantity)
    ensures var item := FindItem(inventory, ing.itemId).value;
      Check(ing, inventory).Staged? ==>
        Check(ing, inventory).update.newQuantity == item.quantity - Convert(ing.quantity, ing.unit, item.unit)
  {
    var item := FindItem(inventory, ing.itemId).value;
    var u, v := ing.unit, item.unit;
    if {u, v} == {"g", "kg"} {
      assert u in {u, v};
      assert (u == "g" && v == "kg") || (u == "kg" && v == "g");
    } else if {u, v} == {"ml", "L"} {
      assert u in {u, v};
      assert (u == "ml" && v == "L") || (u == "L" && v == "ml");
    }
  }

  function Shortfall(v: Verdict): seq<Shortage>
  {
    if v.Short? then [v.shortage] else []
  }

  function Staging(v: Verdict): seq<InventoryUpdate>
  {
    if v.Staged? then [v.update] else []
  }

  /** `missingIngredients` after the loop has checked `ings`. */
  function Shortages(ings: seq<Ingredient>, inventory: seq<InventoryItem>): seq<Shortage>
    decreases |ings|
  {
    if ings == [] then []
    else Shortages(ings[..|ings| - 1], inventory) + Shortfall(Check(ings[|ings| - 1], inventory))
  }

  /** `inventoryUpdates` after the loop has checked `ings`; every staged
      quantity is non-negative. */
  function Updates(ings: seq<Ingredient>, inventory: seq<InventoryItem>): (r: seq<InventoryUpdate>)
    ensures forall k :: 0 <= k < |r| ==> r[k].newQuantity >= 0.0
    decreases |ings|
  {
    if ings == [] then []
    else Updates(ings[..|ings| - 1], inventory) + Staging(Check(ings[|ings| - 1], inventory))
  }

  /** Every ingredient lands in exactly one of the two lists, and every shortage
      is collected: the check does not stop at the first one. */
  lemma {:induction false} ShortagesCollectAll(ings: seq<Ingredient>, inventory: seq<InventoryItem>)
    ensures |Shortages(ings, inventory)| + |Updates(ings, inventory)| == |ings|
    ensures forall i :: 0 <= i < |ings| && Check(ings[i], inventory).Short? ==>
      Check(ings[i], inventory).shortage in Shortages(ings, inventory)
    decreases |ings|
  {
    if ings != [] {
      var init := ings[..|ings| - 1];
      ShortagesCollectAll(init, inventory);
      forall i | 0 <= i < |ings| && Check(ings[i], inventory).Short?
        ensures Check(ings[i], inventory).shortage in Shortages(ings, inventory)
      {
        if i < |ings| - 1 {
          assert ings[i] == init[i];
        }
      }
    }
  }

  /** There is no shortage exactly when every ingredient is staged. */
  lemma NoShortagesIffAllStaged(ings: seq<Ingredient>, inventory: seq<InventoryItem>)
    ensures Shortages(ings, inventory) == [] <==> forall i :: 0 <= i < |ings| ==> Check(ings[i], inventory).Staged?
  {
    ShortagesCollectAll(ings, inventory);
    if forall i :: 0 <= i < |ings| ==> Check(ings[i], inventory).Staged? {
      UpdatesWhenAllStaged(ings, inventory);
    }
  }

  /** When nothing is short, the staged updates are the ingredients' updates, one
      per ingredient and in recipe order. */
  lemma {:induction false} UpdatesWhenAllStaged(ings: seq<Ingredient>, inventory: seq<InventoryItem>)
    requires forall i :: 0 <= i < |ings| ==> Check(ings[i], inventory).Staged?
    ensures |Updates(ings, inventory)| == |ings|
    ensures forall i :: 0 <= i < |ings| ==> Updates(ings, inventory)[i] == Check(ings[i], inventory).update
    decreases |ings|
  {
    if ings != [] {
      var init := ings[..|ings| - 1];
      assert forall i :: 0 <= i < |init| ==> init[i] == ings[i];
      UpdatesWhenAllStaged(init, inventory);
      var last := Check(ings[|ings| - 1], inventory);
      assert Updates(ings, inventory) == Updates(init, inventory) + [last.update];
      forall i | 0 <= i < |ings|
        ensures Updates(ings, inventory)[i] == Check(ings[i], inventory).update
      {
        if i < |init| {
          assert Updates(ings, inventory)[i] == Updates(init, inventory)[i];
        } else {
          assert i == |ings| - 1;
          assert Updates(ings, inventory)[i] == last.update;
        }
      }
    }
  }

  /** `inventoryUpdates.find(u => u.itemId === itemId)`. */
  function UpdateFor(updates: seq<InventoryUpdate>, itemId: string): Option<InventoryUpdate>
  {
    Find((u: InventoryUpdate) => u.itemId == itemId, updates)
  }

  /** `inventory.map(...)` with the staged updates: an item takes the quantity of
      the first update naming it; nothing but `quantity` changes, and items
      no update names are kept as they are. */
  function ApplyUpdates(inventory: seq<InventoryItem>, updates: seq<InventoryUpdate>): (r: seq<InventoryItem>)
    ensures |r| == |inventory|
    ensures forall i :: 0 <= i < |r| ==> r[i].(quantity := inventory[i].quantity) == inventory[i]
    ensures forall i :: 0 <= i < |r| && UpdateFor(updates, inventory[i].itemId).None? ==> r[i] == inventory[i]
    ensures forall i :: 0 <= i < |r| && UpdateFor(updates, inventory[i].itemId).Some? ==>
      r[i].quantity == UpdateFor(updates, inventory[i].itemId).value.newQuantity
  {
    seq(|inventory|, i requires 0 <= i < |inventory| =>
      match UpdateFor(updates, inventory[i].itemId)
      case None => inventory[i]
      case Some(u) => inventory[i].(quantity := u.newQuantity))
  }

  /** `mealPlan.find(p => p.date === date)`. */
  function FindPlan(plans: seq<MealPlan>, date: string): (r: Option<MealPlan>)
    ensures r.None? <==> forall i :: 0 <= i < |plans| ==> plans[i].date != date
    ensures r.Some? ==> r.value in plans && r.value.date == date
    ensures r.Some? ==> exists i :: 0 <= i < |plans| && plans[i] == r.value
                           && forall j :: 0 <= j < i ==> plans[j].date != date
  {
    Find((p: MealPlan) => p.date == date, plans)
  }

  /** `planForDay?.meals[mealType]`. */
  function MealToPrepare(plans: seq<MealPlan>, date: string, t: MealType): Option<Meal>
  {
    match FindPlan(plans, date)
    case None => None
    case Some(p) => p.meals.Get(t)
  }

  /** Every plan dated `date` gets slot `t` flagged as prepared, if the slot
      holds a meal; the meal keeps its recipe, and every other slot and every
      other day are left as they were. */
  function MarkPrepared(plans: seq<MealPlan>, date: string, t: MealType): (r: seq<MealPlan>)
    ensures |r| == |plans|
    ensures forall i :: 0 <= i < |r| && plans[i].date != date ==> r[i] == plans[i]
    ensures forall i :: 0 <= i < |r| ==> r[i].date == plans[i].date
    ensures forall i, u :: 0 <= i < |r| && u != t ==> r[i].meals.Get(u) == plans[i].meals.Get(u)
    ensures forall i :: 0 <= i < |r| && plans[i].date == date && plans[i].meals.Get(t).Some? ==>
      r[i].meals.Get(t) == Some(plans[i].meals.Get(t).value.(prepared := true))
    ensures forall i :: 0 <= i < |r| && plans[i].meals.Get(t).None? ==> r[i] == plans[i]
  {
    seq(|plans|, i requires 0 <= i < |plans| =>
      if plans[i].date == date then
        match plans[i].meals.Get(t)
        case None => plans[i]
        case Some(m) => plans[i].(meals := plans[i].meals.Set(t, Some(m.(prepared := true))))
      else plans[i])
  }

  /** The whole "Mark as Prepared" handler on the state it reads: nothing
      happens without a meal in the slot; any shortage commits nothing;
      otherwise the stock is deducted and the slot is flagged. */
  function Prepare(h: Household, date: string, t: MealType): Prepared
  {
    match MealToPrepare(h.mealPlan, date, t)
    case None => Prepared(NothingToPrepare, h)
    case Some(meal) =>
      var ings := meal.recipe.ingredients;
      var missing := Shortages(ings, h.inventory);
      if |missing| > 0 then Prepared(Missing(missing), h)
      else
        Prepared(Done, Household(ApplyUpdates(h.inventory, Updates(ings, h.inventory)), MarkPrepared(h.mealPlan, date, t)))
  }

  /** No plan for the date, or an empty slot: nothing changes. */
  lemma PrepareWithoutMeal(h: Household, date: string, t: MealType)
    requires (forall i :: 0 <= i < |h.mealPlan| ==> h.mealPlan[i].date != date)
      || (exists i :: 0 <= i < |h.mealPlan| && h.mealPlan[i].date == date
            && (forall j :: 0 <= j < i ==> h.mealPlan[j].date != date)
            && h.mealPlan[i].meals.Get(t).None?)
    ensures Prepare(h, date, t) == Prepared(NothingToPrepare, h)
  {
    var p := (q: MealPlan) => q.date == date;
    var k := FindIndex(p, h.mealPlan);
    if k.Some? {
      var i :| 0 <= i < |h.mealPlan| && h.mealPlan[i].date == date
        && (forall j :: 0 <= j < i ==> h.mealPlan[j].date != date)
        && h.mealPlan[i].meals.Get(t).None?;
      assert !(k.value < i) && !(i < k.value);
    }
  }

  /** All or nothing: a preparation with any shortage leaves inventory and plan
      untouched, and it fails exactly when some ingredient is short. */
  lemma PrepareIsAtomic(h: Household, date: string, t: MealType)
    requires MealToPrepare(h.mealPlan, date, t).Some?
    ensures var ings := MealToPrepare(h.mealPlan, date, t).value.recipe.ingredients;
      Prepare(h, date, t).outcome.Missing? <==> exists i :: 0 <= i < |ings| && Check(ings[i], h.inventory).Short?
    ensures Prepare(h, date, t).outcome.Missing? ==> Prepare(h, date, t).after == h
    ensures Prepare(h, date, t).outcome.Missing? ==>
      Prepare(h, date, t).outcome.shortages == Shortages(MealToPrepare(h.mealPlan, date, t).value.recipe.ingredients, h.inventory)
  {
    var ings := MealToPrepare(h.mealPlan, date, t).value.recipe.ingredients;
    NoShortagesIffAllStaged(ings, h.inventory);
  }

  /** A successful preparation changes nothing but stock quantities and the
      prepared flag of slot `t` on the plans dated `date`. */
  lemma PrepareChangesOnlyQuantitiesAndSlot(h: Household, date: string, t: MealType)
    requires Prepare(h, date, t).outcome == Done
    ensures var after := Prepare(h, date, t).after;
      |after.inventory| == |h.inventory|
      && (forall i :: 0 <= i < |h.inventory| ==> after.inventory[i].(quantity := h.inventory[i].quantity) == h.inventory[i])
    ensures var after := Prepare(h, date, t).after;
      |after.mealPlan| == |h.mealPlan|
      && (forall i :: 0 <= i < |h.mealPlan| && h.mealPlan[i].date != date ==> after.mealPlan[i] == h.mealPlan[i])
      && (forall i, u :: 0 <= i < |h.mealPlan| && u != t ==> after.mealPlan[i].meals.Get(u) == h.mealPlan[i].meals.Get(u))
    ensures var after := Prepare(h, date, t).after;
      MealToPrepare(after.mealPlan, date, t) == Some(MealToPrepare(h.mealPlan, date, t).value.(prepared := true))
  {
    var after := Prepare(h, date, t).after;
    var p := (q: MealPlan) => q.date == date;
    var k := FindIndex(p, h.mealPlan).value;
    var k' := FindIndex(p, after.mealPlan);
    assert after.mealPlan[k].date == date;
    assert k'.Some?;
    assert !(k'.value < k) && !(k < k'.value);
  }

  /** `recipe.ingredients.findIndex(ing => ing.itemId === itemId)`. */
  function FirstIngredientFor(ings: seq<Ingredient>, itemId: string): (r: Option<nat>)
    ensures r.None? <==> forall k :: 0 <= k < |ings| ==> ings[k].itemId != itemId
    ensures r.Some? ==> r.value < |ings| && ings[r.value].itemId == itemId
    ensures r.Some? ==> forall k :: 0 <= k < r.value ==> ings[k].itemId != itemId
  {
    FindIndex((ing: Ingredient) => ing.itemId == itemId, ings)
  }

  /** With distinct item ids in the inventory, a successful preparation deducts
      from each item the requirement of the first ingredient naming it,
      converted to the item's unit; items no ingredient names keep their
      quantity. A later ingredient naming the same item is checked against the
      original stock and then ignored. */
  lemma PrepareDeducts(h: Household, date: string, t: MealType)
    requires UniqueKeys((x: InventoryItem) => x.itemId, h.inventory)
    requires Prepare(h, date, t).outcome == Done
    ensures var ings := MealToPrepare(h.mealPlan, date, t).value.recipe.ingredients;
      var after := Prepare(h, date, t).after;
      forall i :: 0 <= i < |h.inventory| ==>
        match FirstIngredientFor(ings, h.inventory[i].itemId)
        case None => after.inventory[i] == h.inventory[i]
        case Some(k) =>
          after.inventory[i].quantity == h.inventory[i].quantity - Convert(ings[k].quantity, ings[k].unit, h.inventory[i].unit)
          && after.inventory[i].quantity >= 0.0
  {
    var ings := MealToPrepare(h.mealPlan, date, t).value.recipe.ingredients;
    NoShortagesIffAllStaged(ings, h.inventory);
    forall i | 0 <= i < |h.inventory|
      ensures var after := Prepare(h, date, t).after;
        match FirstIngredientFor(ings, h.inventory[i].itemId)
        case None => after.inventory[i] == h.inventory[i]
        case Some(k) =>
          after.inventory[i].quantity == h.inventory[i].quantity - Convert(ings[k].quantity, ings[k].unit, h.inventory[i].unit)
          && after.inventory[i].quantity >= 0.0
    {
      var id := h.inventory[i].itemId;
      UpdateForFirstIngredient(ings, h.inventory, id);
      FoundIsTheItem(h.inventory, i);
      match FirstIngredientFor(ings, id)
      case None =>
      case Some(k) =>
        CheckAgreesWithConversion(ings[k], h.inventory);
    }
  }

  /** When every ingredient is staged, the update found for an item is the one
      staged for the first ingredient naming it. */
  lemma UpdateForFirstIngredient(ings: seq<Ingredient>, inventory: seq<InventoryItem>, id: string)
    requires forall i :: 0 <= i < |ings| ==> Check(ings[i], inventory).Staged?
    ensures match FirstIngredientFor(ings, id)
      case None => UpdateFor(Updates(ings, inventory), id).None?
      case Some(k) => UpdateFor(Updates(ings, inventory), id) == Some(Check(ings[k], inventory).update)
  {
    var updates := Updates(ings, inventory);
    UpdatesWhenAllStaged(ings, inventory);
    match FirstIngredientFor(ings, id)
    case None =>
      forall j | 0 <= j < |updates| ensures updates[j].itemId != id {
        assert updates[j] == Check(ings[j], inventory).update;
      }
    case Some(k) =>
      assert updates[k].itemId == id;
      var j := FindIndex((v: InventoryUpdate) => v.itemId == id, updates).value;
      assert updates[j] == Check(ings[j], inventory).update;
      assert !(j < k) && !(k < j);
  }

  /** With distinct ids, looking an item up by its own id finds that item. */
  lemma FoundIsTheItem(inventory: seq<InventoryItem>, i: int)
    requires UniqueKeys((x: InventoryItem) => x.itemId, inventory)
    requires 0 <= i < |inventory|
    ensures FindItem(inventory, inventory[i].itemId) == Some(inventory[i])
  {
    var item := FindItem(inventory, inventory[i].itemId).value;
    var m :| 0 <= m < |inventory| && inventory[m] == item;
    assert !(m < i) && !(i < m);
  }

  /** Quantities that start non-negative stay non-negative, whatever the outcome. */
  lemma PrepareKeepsStockNonNegative(h: Household, date: string, t: MealType)
    requires forall i :: 0 <= i < |h.inventory| ==> h.inventory[i].quantity >= 0.0
    ensures var after := Prepare(h, date, t).after;
      forall i :: 0 <= i < |after.inventory| ==> after.inventory[i].quantity >= 0.0
  {
  }

  /** The handler itself does not look at the prepared flag: after a success the
      slot still holds the meal, so a second call checks the same recipe and,
      with enough stock, deducts again. Only the hidden button prevents it. */
  lemma PrepareIsNotIdempotent(h: Household, date: string, t: MealType)
    requires Prepare(h, date, t).outcome == Done
    ensures var after := Prepare(h, date, t).after;
      MealToPrepare(after.mealPlan, date, t).Some?
      && MealToPrepare(after.mealPlan, date, t).value.recipe == MealToPrepare(h.mealPlan, date, t).value.recipe
      && Prepare(after, date, t).outcome != NothingToPrepare
  {
    PrepareChangesOnlyQuantitiesAndSlot(h, date, t);
  }

  /** `plans.map(...)` of handleSelectRecipe: every plan dated `date` gets
      `{recipe, prepared: false}` in slot `t`, even over a prepared meal; the
      other slots and the plans of other dates are kept. */
  function WithRecipe(plans: seq<MealPlan>, date: string, t: MealType, recipe: Recipe): (r: seq<MealPlan>)
    ensures |r| == |plans|
    ensures forall i :: 0 <= i < |r| ==> r[i].date == plans[i].date
    ensures forall i :: 0 <= i < |r| && plans[i].date == date ==> r[i].meals.Get(t) == Some(Meal(recipe, false))
    ensures forall i, u :: 0 <= i < |r| && u != t ==> r[i].meals.Get(u) == plans[i].meals.Get(u)
    ensures forall i :: 0 <= i < |r| && plans[i].date != date ==> r[i] == plans[i]
  {
    seq(|plans|, i requires 0 <= i < |plans| =>
      if plans[i].date == date then plans[i].(meals := plans[i].meals.Set(t, Some(Meal(recipe, false))))
      else plans[i])
  }

  /** Selecting a recipe for a date that has no plan changes nothing, and after
      selecting, the meal to prepare in that slot is the chosen, unprepared one. */
  lemma WithRecipeUnknownDate(plans: seq<MealPlan>, date: string, t: MealType, recipe: Recipe)
    ensures (forall i :: 0 <= i < |plans| ==> plans[i].date != date) ==> WithRecipe(plans, date, t, recipe) == plans
    ensures (exists i :: 0 <= i < |plans| && plans[i].date == date) ==>
      MealToPrepare(WithRecipe(plans, date, t, recipe), date, t) == Some(Meal(recipe, false))
  {
    var r := WithRecipe(plans, date, t, recipe);
    if exists i :: 0 <= i < |plans| && plans[i].date == date {
      var k := FindPlan(r, date);
      assert k.Some?;
    }
  }

  /** `parts.map(parseInt)` followed by `Date.UTC(parts[0], parts[1] - 1, parts[2])`
      for a stored "YYYY-MM-DD" date: years 0..99 are taken as 1900..1999, as
      `Date.UTC` does. Text of another shape, or a day the month does not have,
      gives None. */
  function ParseStoredDate(s: string): (r: Option<Date>)
    ensures r.Some? ==> IsValid(r.value) && r.value.year >= 100
  {
    match ParseIsoParts(s)
    case None => None
    case Some(d) =>
      var year := if 0 <= d.year <= 99 then 1900 + d.year else d.year;
      var full := Date(year, d.month, d.day);
      if IsValid(full) && year >= 100 then Some(full) else None
  }

  /** A day with four empty slots. */
  function EmptyDay(date: string): MealPlan
  {
    MealPlan(date, Meals(None, None, None, None))
  }

  /** The date handleAddNewPlan appends: the day after the last plan's date, or
      after `today` when the plan is empty. */
  function NextPlanDate(plans: seq<MealPlan>, today: Date): Option<string>
    requires IsValid(today)
  {
    var last := if |plans| > 0 then plans[|plans| - 1].date else FormatIso(today);
    match ParseStoredDate(last)
    case None => None
    case Some(d) => Some(FormatIso(NextDay(d)))
  }

  /** `[...prev, newDayPlan]`: the plan with one empty day appended. */
  function WithNextDay(plans: seq<MealPlan>, today: Date): (r: seq<MealPlan>)
    requires IsValid(today)
    ensures r == plans || (|r| == |plans| + 1 && r[..|plans|] == plans && r[|plans|].meals == Meals(None, None, None, None))
  {
    match NextPlanDate(plans, today)
    case None => plans
    case Some(date) => plans + [EmptyDay(date)]
  }

  /** Appending after a well-formed last date adds exactly one empty day at the
      end, whose date reads back as the next calendar day, one day number
      later. */
  lemma WithNextDayAddsOneDay(plans: seq<MealPlan>, today: Date)
    requires IsValid(today) && |plans| > 0
    requires ParseStoredDate(plans[|plans| - 1].date).Some?
    requires ParseStoredDate(plans[|plans| - 1].date).value.year < 9999
    ensures var d := ParseStoredDate(plans[|plans| - 1].date).value;
      var r := WithNextDay(plans, today);
      |r| == |plans| + 1 && r[..|plans|] == plans
      && r[|plans|] == EmptyDay(FormatIso(NextDay(d)))
      && ParseStoredDate(r[|plans|].date) == Some(NextDay(d))
      && DayNumber(NextDay(d)) == DayNumber(d) + 1
  {
    var d := ParseStoredDate(plans[|plans| - 1].date).value;
    IsoRoundTrip(NextDay(d));
    NextDayIsOneDayLater(d);
  }

  /** On an empty plan the appended day is the day after `today`. */
  lemma WithNextDayOnEmptyPlan(today: Date)
    requires IsValid(today) && 100 <= today.year < 9999
    ensures WithNextDay([], today) == [EmptyDay(FormatIso(NextDay(today)))]
  {
    IsoRoundTrip(today);
  }

  /** The end of a 31-day month is followed by the first of the next. */
  lemma NextDayAtMonthEnd()
    ensures NextPlanDate([EmptyDay("2024-07-31")], Date(2024, 1, 1)) == Some("2024-08-01")
  {
    assert FormatIso(Date(2024, 7, 31)) == "2024-07-31";
    IsoRoundTrip(Date(2024, 7, 31));
    assert FormatIso(Date(2024, 8, 1)) == "2024-08-01";
  }

  /** December 31 is followed by January 1 of the next year. */
  lemma NextDayAtYearEnd()
    ensures NextPlanDate([EmptyDay("2023-12-31")], Date(2024, 1, 1)) == Some("2024-01-01")
  {
    assert FormatIso(Date(2023, 12, 31)) == "2023-12-31";
    IsoRoundTrip(Date(2023, 12, 31));
    assert FormatIso(Date(2024, 1, 1)) == "2024-01-01";
  }

  /** February 28 of a leap year is followed by February 29. */
  lemma NextDayInLeapFebruary()
    ensures NextPlanDate([EmptyDay("2024-02-28")], Date(2024, 1, 1)) == Some("2024-02-29")
  {
    assert FormatIso(Date(2024, 2, 28)) == "2024-02-28";
    IsoRoundTrip(Date(2024, 2, 28));
    assert FormatIso(Date(2024, 2, 29)) == "2024-02-29";
  }

  /** February 28 of a common year is followed by March 1. */
  lemma NextDayInCommonFebruary()
    ensures NextPlanDate([EmptyDay("2023-02-28")], Date(2024, 1, 1)) == Some("2023-03-01")
  {
    assert FormatIso(Date(2023, 2, 28)) == "2023-02-28";
    IsoRoundTrip(Date(2023, 2, 28));
    assert FormatIso(Date(2023, 3, 1)) == "2023-03-01";
  }

  /** A two-digit year is read as a year of the 1900s. */
  lemma NextDayOfTwoDigitYear()
    ensures NextPlanDate([EmptyDay("0024-02-28")], Date(2024, 1, 1)) == Some("1924-02-29")
  {
    assert FormatIso(Date(24, 2, 28)) == "0024-02-28";
    IsoRoundTrip(Date(24, 2, 28));
    assert FormatIso(Date(1924, 2, 29)) == "1924-02-29";
  }

  function DinnerOn(date: string, recipe: Recipe, prepared: bool): MealPlan
  {
    MealPlan(date, Meals(None, None, Some(Meal(recipe, prepared)), None))
  }

  /** A one-ingredient recipe against a one-item inventory in the same unit:
      either the requirement is deducted and the slot flagged, or the single
      shortage is reported and nothing changes. */
  lemma PrepareSingleIngredient(h: Household, date: string, t: MealType, ing: Ingredient, item: InventoryItem)
    requires MealToPrepare(h.mealPlan, date, t).Some?
    requires MealToPrepare(h.mealPlan, date, t).value.recipe.ingredients == [ing]
    requires h.inventory == [item] && item.itemId == ing.itemId && item.unit == ing.unit
    ensures item.quantity >= ing.quantity ==>
      Prepare(h, date, t)
        == Prepared(Done, Household([item.(quantity := item.quantity - ing.quantity)], MarkPrepared(h.mealPlan, date, t)))
    ensures item.quantity < ing.quantity ==>
      Prepare(h, date, t) == Prepared(Missing([Insufficient(ing.name, ing.quantity, item.quantity, ing.unit)]), h)
  {
    SingleSameUnit(ing, item);
    if item.quantity >= ing.quantity {
      PrepareSingleDone(h, date, t, ing, item);
    } else {
      PrepareOutcome(h, date, t);
    }
  }

  /** The stock-suffices half of PrepareSingleIngredient. */
  lemma PrepareSingleDone(h: Household, date: string, t: MealType, ing: Ingredient, item: InventoryItem)
    requires MealToPrepare(h.mealPlan, date, t).Some?
    requires MealToPrepare(h.mealPlan, date, t).value.recipe.ingredients == [ing]
    requires h.inventory == [item] && item.itemId == ing.itemId && item.unit == ing.unit
    requires item.quantity >= ing.quantity
    ensures Prepare(h, date, t)
      == Prepared(Done, Household([item.(quantity := item.quantity - ing.quantity)], MarkPrepared(h.mealPlan, date, t)))
  {
    SingleSameUnit(ing, item);
    PrepareDoneWith(h, date, t, Updates([ing], [item]), [item.(quantity := item.quantity - ing.quantity)]);
  }

  /** One ingredient against its own item in the same unit. */
  lemma SingleSameUnit(ing: Ingredient, item: InventoryItem)
    requires item.itemId == ing.itemId && item.unit == ing.unit
    ensures item.quantity >= ing.quantity ==>
      Shortages([ing], [item]) == [] && Updates([ing], [item]) == [InventoryUpdate(ing.itemId, item.quantity - ing.quantity)]
      && ApplyUpdates([item], Updates([ing], [item])) == [item.(quantity := item.quantity - ing.quantity)]
    ensures item.quantity < ing.quantity ==>
      Shortages([ing], [item]) == [Insufficient(ing.name, ing.quantity, item.quantity, ing.unit)]
  {
    assert FindItem([item], ing.itemId) == Some(item);
    CheckSameUnit(ing, [item], item);
    OneIngredient(ing, [item]);
    if item.quantity >= ing.quantity {
      ApplyFirstUpdate([item], item, Updates([ing], [item]));
    }
  }

  /** Prepare without shortages applies the staged updates and flags the slot. */
  lemma PrepareDoneWith(h: Household, date: string, t: MealType, updates: seq<InventoryUpdate>, inventory: seq<InventoryItem>)
    requires MealToPrepare(h.mealPlan, date, t).Some?
    requires var ings := MealToPrepare(h.mealPlan, date, t).value.recipe.ingredients;
      Shortages(ings, h.inventory) == [] && Updates(ings, h.inventory) == updates
    requires ApplyUpdates(h.inventory, updates) == inventory
    ensures Prepare(h, date, t) == Prepared(Done, Household(inventory, MarkPrepared(h.mealPlan, date, t)))
  {
  }

  /** Prepare once the meal is known: the shortages decide. */
  lemma PrepareOutcome(h: Household, date: string, t: MealType)
    requires MealToPrepare(h.mealPlan, date, t).Some?
    ensures var ings := MealToPrepare(h.mealPlan, date, t).value.recipe.ingredients;
      var missing := Shortages(ings, h.inventory);
      Prepare(h, date, t) == if missing != [] then Prepared(Missing(missing), h)
        else Prepared(Done, Household(ApplyUpdates(h.inventory, Updates(ings, h.inventory)), MarkPrepared(h.mealPlan, date, t)))
  {
  }

  /** A one-ingredient recipe gives that ingredient's shortage or update. */
  lemma OneIngredient(ing: Ingredient, inventory: seq<InventoryItem>)
    ensures Shortages([ing], inventory) == Shortfall(Check(ing, inventory))
    ensures Updates([ing], inventory) == Staging(Check(ing, inventory))
  {
    assert [ing][..0] == [] && [ing][0] == ing;
  }

  /** Spaghetti for a dinner, 200 g from a stock of 500 g: the handler does
      not look at the prepared flag, so a repeated call deducts again until
      the stock runs short, and the refused call changes nothing. */
  lemma RepeatedPreparationDeductsAgain()
    ensures var pasta := Ingredient("i9", "Spaghetti", 200.0, "g");
      var stock := InventoryItem("i9", "Spaghetti", 500.0, "g", None, 200.0, "c1", Some(234.0));
      var recipe := Recipe("r1", "Spaghetti Carbonara", [], "", 1950, [pasta], Dinner);
      var first := Prepare(Household([stock], [DinnerOn("2024-07-29", recipe, false)]), "2024-07-29", Dinner);
      var second := Prepare(first.after, "2024-07-29", Dinner);
      var third := Prepare(second.after, "2024-07-29", Dinner);
      first.outcome == Done && first.after.inventory == [stock.(quantity := 300.0)]
      && first.after.mealPlan == [DinnerOn("2024-07-29", recipe, true)]
      && second.outcome == Done && second.after.inventory == [stock.(quantity := 100.0)]
      && third == Prepared(Missing([Insufficient("Spaghetti", 200.0, 100.0, "g")]), second.after)
  {
    var pasta := Ingredient("i9", "Spaghetti", 200.0, "g");
    var stock := InventoryItem("i9", "Spaghetti", 500.0, "g", None, 200.0, "c1", Some(234.0));
    var recipe := Recipe("r1", "Spaghetti Carbonara", [], "", 1950, [pasta], Dinner);
    var h := Household([stock], [DinnerOn("2024-07-29", recipe, false)]);
    var plan := [DinnerOn("2024-07-29", recipe, true)];
    assert MealToPrepare(h.mealPlan, "2024-07-29", Dinner) == Some(Meal(recipe, false));
    assert MarkPrepared(h.mealPlan, "2024-07-29", Dinner) == plan;
    PrepareSingleIngredient(h, "2024-07-29", Dinner, pasta, stock);
    var h2 := Household([stock.(quantity := 300.0)], plan);
    assert MealToPrepare(plan, "2024-07-29", Dinner) == Some(Meal(recipe, true));
    assert MarkPrepared(plan, "2024-07-29", Dinner) == plan;
    PrepareSingleIngredient(h2, "2024-07-29", Dinner, pasta, stock.(quantity := 300.0));
    var h3 := Household([stock.(quantity := 100.0)], plan);
    PrepareSingleIngredient(h3, "2024-07-29", Dinner, pasta, stock.(quantity := 100.0));
  }

  /** A recipe listing the same item twice has each line checked against the
      original stock and only the first line's deduction applied: 300 g of
      spaghetti pass two 200 g lines and 100 g remain. */
  lemma DuplicateIngredientDeductsOnce()
    ensures var pasta := Ingredient("i9", "Spaghetti", 200.0, "g");
      var stock := InventoryItem("i9", "Spaghetti", 300.0, "g", None, 200.0, "c1", None);
      var recipe := Recipe("r", "Double spaghetti", [], "", 0, [pasta, pasta], Dinner);
      var r := Prepare(Household([stock], [DinnerOn("2024-07-29", recipe, false)]), "2024-07-29", Dinner);
      r.outcome == Done && r.after.inventory == [stock.(quantity := 100.0)]
  {
    var pasta := Ingredient("i9", "Spaghetti", 200.0, "g");
    var stock := InventoryItem("i9", "Spaghetti", 300.0, "g", None, 200.0, "c1", None);
    var recipe := Recipe("r", "Double spaghetti", [], "", 0, [pasta, pasta], Dinner);
    var h := Household([stock], [DinnerOn("2024-07-29", recipe, false)]);
    var u := InventoryUpdate("i9", 100.0);
    assert MealToPrepare(h.mealPlan, "2024-07-29", Dinner) == Some(Meal(recipe, false));
    assert FindItem([stock], "i9") == Some(stock);
    CheckSameUnit(pasta, [stock], stock);
    TwoIngredients(pasta, pasta, [stock]);
    ApplyFirstUpdate(h.inventory, stock, [u, u]);
    PrepareDoneWith(h, "2024-07-29", Dinner, [u, u], [stock.(quantity := 100.0)]);
  }

  /** A two-ingredient recipe collects the first ingredient's result, then the second's. */
  lemma TwoIngredients(a: Ingredient, b: Ingredient, inventory: seq<InventoryItem>)
    ensures Shortages([a, b], inventory) == Shortfall(Check(a, inventory)) + Shortfall(Check(b, inventory))
    ensures Updates([a, b], inventory) == Staging(Check(a, inventory)) + Staging(Check(b, inventory))
  {
    assert [a, b][..1] == [a] && [a, b][1] == b;
    OneIngredient(a, inventory);
  }

  /** An update naming the only item, first in the list, sets its quantity. */
  lemma ApplyFirstUpdate(inventory: seq<InventoryItem>, item: InventoryItem, updates: seq<InventoryUpdate>)
    requires inventory == [item] && updates != [] && updates[0].itemId == item.itemId
    ensures ApplyUpdates(inventory, updates) == [item.(quantity := updates[0].newQuantity)]
  {
    assert UpdateFor(updates, item.itemId) == Some(updates[0]);
    var r := ApplyUpdates(inventory, updates);
    assert |r| == 1 && r[0] == item.(quantity := updates[0].newQuantity);
  }

  /** A requirement scaled from kg to g is reported with the grams but labelled
      with the recipe's "kg". */
  lemma ScaledShortageKeepsRecipeUnit()
    ensures var chicken := Ingredient("i4", "Chicken Breast", 0.5, "kg");
      var stock := InventoryItem("i4", "Chicken Breast", 200.0, "g", None, 1.0, "c1", None);
      Check(chicken, [stock]) == Short(Insufficient("Chicken Breast", 500.0, 200.0, "kg"))
  {
    var chicken := Ingredient("i4", "Chicken Breast", 0.5, "kg");
    var stock := InventoryItem("i4", "Chicken Breast", 200.0, "g", None, 1.0, "c1", None);
    assert FindItem([stock], "i4") == Some(stock);
  }

  /** The planner component's state. */
  class Planner {
    var inventory: seq<InventoryItem>
    var mealPlan: seq<MealPlan>

    constructor(inventory: seq<InventoryItem>, mealPlan: seq<MealPlan>)
      ensures this.inventory == inventory && this.mealPlan == mealPlan
    {
      this.inventory := inventory;
      this.mealPlan := mealPlan;
    }

    /** handleSelectRecipe for the slot the modal was opened on. */
    method SelectRecipe(date: string, t: MealType, recipe: Recipe)
      modifies this
      ensures mealPlan == WithRecipe(old(mealPlan), date, t, recipe)
      ensures inventory == old(inventory)
    {
      mealPlan := WithRecipe(mealPlan, date, t, recipe);
    }

    /** handleAddNewPlan, with the clock's date passed in. */
    method AddNewPlan(today: Date)
      requires IsValid(today)
      modifies this
      ensures mealPlan == WithNextDay(old(mealPlan), today)
      ensures inventory == old(inventory)
    {
      mealPlan := WithNextDay(mealPlan, today);
    }

    /** handleMarkAsPrepared: walks the recipe's ingredients, collecting every
        shortage and staging every deduction, then commits all or nothing. */
    method MarkAsPrepared(date: string, t: MealType) returns (outcome: Outcome)
      modifies this
      ensures Prepared(outcome, Household(inventory, mealPlan))
        == Prepare(old(Household(inventory, mealPlan)), date, t)
    {
      var meal := MealToPrepare(mealPlan, date, t);
      if meal.None? {
        return NothingToPrepare;
      }
      var ings := meal.value.recipe.ingredients;
      var missing: seq<Shortage> := [];
      var updates: seq<InventoryUpdate> := [];
      for i := 0 to |ings|
        invariant missing == Shortages(ings[..i], inventory)
        invariant updates == Updates(ings[..i], inventory)
        invariant inventory == old(inventory) && mealPlan == old(mealPlan)
      {
        assert ings[..i + 1][..i] == ings[..i];
        missing, updates := CheckIngredient(ings[i], missing, updates);
      }
      assert ings[..|ings|] == ings;
      if |missing| > 0 {
        return Missing(missing);
      }
      inventory := ApplyUpdates(inventory, updates);
      mealPlan := MarkPrepared(mealPlan, date, t);
      return Done;
    }

    /** One pass of the loop of handleMarkAsPrepared: pushes the ingredient's
        shortage onto `missing` or its new stock quantity onto `updates`. */
    method CheckIngredient(ing: Ingredient, missing: seq<Shortage>, updates: seq<InventoryUpdate>)
      returns (missing': seq<Shortage>, updates': seq<InventoryUpdate>)
      ensures missing' == missing + Shortfall(Check(ing, inventory))
      ensures updates' == updates + Staging(Check(ing, inventory))
    {
      missing', updates' := missing, updates;
      var found := FindItem(inventory, ing.itemId);
      if found.None? {
        missing' := missing' + [NotInInventory(ing.name)];
        return;
      }
      var item := found.value;
      var required := ing.quantity;
      var available := item.quantity;
      if ing.unit == "g" && item.unit == "kg" {
        available := available * 1000.0;
      } else if ing.unit == "kg" && item.unit == "g" {
        required := required * 1000.0;
      } else if ing.unit == "ml" && item.unit == "L" {
        available := available * 1000.0;
      } else if ing.unit == "L" && item.unit == "ml" {
        required := required * 1000.0;
      } else if ing.unit != item.unit {
        missing' := missing' + [UnitMismatch(ing.name, ing.unit, item.unit)];
        return;
      }
      assert required == Required(ing, item.unit) && available == Available(item, ing.unit);
      if available < required {
        missing' := missing' + [Insufficient(ing.name, required, available, ing.unit)];
      } else {
        var remaining := available - required;
        if (ing.unit == "g" && item.unit == "kg") || (ing.unit == "ml" && item.unit == "L") {
          remaining := remaining / 1000.0;
        }
        updates' := updates' + [InventoryUpdate(ing.itemId, remaining)];
      }
    }
  }
}
