# Household inventory and finance tracker: a verified model of the screen logic

This project models the state-changing logic of six screens of a household
inventory and finance tracker. Each screen is a React component: a list of
records in component state, plus handlers that validate input and replace the
list. The project restates that logic in Dafny and proves what it guarantees.

- **Meal planner** (`components/MealPlanner.tsx`): assigns a recipe to a meal
  slot and appends the next calendar day. Marking a meal as prepared checks
  every ingredient against the stock, with g/kg and ml/L conversion. It is
  all-or-nothing: it either reports every shortage and changes nothing, or
  deducts the stock and marks the slot.
- **Inventory** (`components/Inventory.tsx`): the expiry badge, the low-stock
  shopping list with its reorder quantities and total, the grouping by
  category, and adding items and categories.
- **Bills** (`components/Bills.tsx`): the ordinal suffix of a due day, this
  month's payment status, the bills sorted by due day, and form validation
  with edit/add. It also models deleting a bill and recording a payment.
- **Recipes** (`components/Recipes.tsx`): the category filter, the details
  toggle and the ingredient/instruction list editors. Adding a recipe turns
  ingredient names into item-id slugs and parses the quantities and the cost.
- **Dashboard** (`components/Dashboard.tsx`): income and expense totals, the
  low-stock list, and the per-category expense summary. That summary is a fold
  that updates entries in place.
- **Announcements** (`components/Announcements.tsx`): the "time ago" label,
  posting with optional media, and deleting a post, with its permission rule.

## Representation

- Records are datatypes in module `Types`, after `backend/src/types.ts`.
- Each screen's state is a class whose `seq` fields its methods reassign. Each
  method's `ensures` ties the new state to a pure function of the old state,
  and lemmas state what those functions guarantee.
- Quantities are exact `real`s. Money is integer cents.
- JavaScript `null`, an absent optional field, and `NaN` are `None`.
- The clock (`new Date()`, `Date.now()`) and generated ids are parameters.

Support modules:

- `Collections`: filter, find, sum, remove-at.
- `Text`: trim, ASCII lower-casing, `parseInt`, `parseFloat`, `Math.round`,
  `toFixed(2)` and `String(n)`.
- `Calendar`: the proleptic Gregorian calendar, the next day, day numbers, and
  ISO `YYYY-MM-DD` text.

Two behaviours of the handlers that a reader might not expect:

- Preparing a meal does not check the slot's `prepared` flag. A second call
  deducts the stock again. `MealPlanner.PrepareIsNotIdempotent` and
  `MealPlanner.RepeatedPreparationDeductsAgain` show this.
- With an empty plan, appending a day takes today's UTC date as the last date
  and adds the day after it (`MealPlanner.WithNextDayOnEmptyPlan`).

## Model

| member | source | states |
|---|---|---|
| Types.Meals.Set | components/MealPlanner.tsx:93 | overwriting one meal slot sets that slot and leaves the other three as they were |
| MealPlanner.FindItem | components/MealPlanner.tsx:138 | finds the first item with the ingredient's id, every earlier item having another id, or None exactly when no item has it |
| MealPlanner.Check | components/MealPlanner.tsx:137-170 | a staged update targets the ingredient's item with a non-negative quantity; "not in inventory" exactly when no stock item has the id |
| MealPlanner.CheckStock | components/MealPlanner.tsx:145-170 | with the item found, a staged update is non-negative and no shortage is "not in inventory" |
| MealPlanner.CheckSameUnit | components/MealPlanner.tsx:162-170 | same units: short with "need R, have A" exactly when stock < requirement, else staged at stock − requirement |
| MealPlanner.CheckAgreesWithConversion | components/MealPlanner.tsx:145-170 | a unit mismatch is reported exactly for units of different dimensions; otherwise staging happens exactly when the converted requirement fits the stock, and the new stock is the stock minus it |
| MealPlanner.ScaledShortageKeepsRecipeUnit | components/MealPlanner.tsx:151-163 | 0.5 kg needed against 200 g held is reported as "need 500, have 200" labelled kg (the recipe's unit) |
| MealPlanner.Updates | components/MealPlanner.tsx:135-169 | every staged new quantity is non-negative |
| MealPlanner.ShortagesCollectAll | components/MealPlanner.tsx:137-171 | the loop never stops early: each ingredient yields exactly one shortage or one update, and every shortage is collected |
| MealPlanner.NoShortagesIffAllStaged | components/MealPlanner.tsx:173-176 | no shortage exactly when every ingredient is staged |
| MealPlanner.UpdatesWhenAllStaged | components/MealPlanner.tsx:169 | with every ingredient staged, the updates are the ingredients' updates in recipe order |
| MealPlanner.ApplyUpdates | components/MealPlanner.tsx:178-181 | length and order kept; only `quantity` changes, set from the first update for the item's id; items without an update are unchanged |
| MealPlanner.FindPlan | components/MealPlanner.tsx:127 | finds the first plan with the date, every earlier plan having another date, or None exactly when no plan has it |
| MealPlanner.MarkPrepared | components/MealPlanner.tsx:184-194 | every plan with the date gets the slot's meal with `prepared` true; other dates, other slots and empty slots are unchanged |
| MealPlanner.Prepare | components/MealPlanner.tsx:126-198 | defines handleMarkAsPrepared on the state it reads; properties in MealPlanner.PrepareIsAtomic, MealPlanner.PrepareDeducts and MealPlanner.PrepareChangesOnlyQuantitiesAndSlot |
| MealPlanner.PrepareWithoutMeal | components/MealPlanner.tsx:127-130 | no plan for the date, or an empty slot, changes neither inventory nor plan |
| MealPlanner.PrepareIsAtomic | components/MealPlanner.tsx:173-176 | fails exactly when some ingredient is short, reports all shortages, and then changes nothing |
| MealPlanner.PrepareChangesOnlyQuantitiesAndSlot | components/MealPlanner.tsx:178-195 | on success only quantities change, and only the target slot of the date becomes prepared with the same recipe |
| MealPlanner.FirstIngredientFor | components/MealPlanner.tsx:179 | the position of the first ingredient for an item id, or None when there is none |
| MealPlanner.UpdateForFirstIngredient | components/MealPlanner.tsx:179 | the update `find` picks for an item is the one staged by the first ingredient using that item |
| MealPlanner.FoundIsTheItem | components/MealPlanner.tsx:138 | with unique item ids, looking up an item's id finds that item |
| MealPlanner.PrepareDeducts | components/MealPlanner.tsx:162-181 | on success each item used by the recipe loses the converted requirement of its first ingredient and stays ≥ 0; unused items are unchanged |
| MealPlanner.PrepareKeepsStockNonNegative | components/MealPlanner.tsx:162-170 | non-negative stock stays non-negative |
| MealPlanner.PrepareIsNotIdempotent | components/MealPlanner.tsx:126-132 | after a success the slot is still there to prepare again |
| MealPlanner.RepeatedPreparationDeductsAgain | components/MealPlanner.tsx:126-198 | 200 g spaghetti from 500 g: first call leaves 300, second 100, third reports the shortage and changes nothing |
| MealPlanner.DuplicateIngredientDeductsOnce | components/MealPlanner.tsx:169-179 | a recipe listing an item twice deducts it once, because only the first staged update is applied |
| MealPlanner.PrepareOutcome | components/MealPlanner.tsx:173-195 | once the meal is found, any shortage leaves the household as it was and reports the shortages; none applies the staged updates and flags the slot |
| MealPlanner.TwoIngredients | components/MealPlanner.tsx:137-171 | the loop checks the ingredients in recipe order, collecting each one's shortage or update |
| MealPlanner.PrepareSingleIngredient | components/MealPlanner.tsx:162-195 | one ingredient in the same unit: enough stock deducts it and marks the slot, otherwise one "need/have" shortage and no change |
| MealPlanner.WithRecipe | components/MealPlanner.tsx:83-99 | plans with the date get `{recipe, prepared: false}` in the slot, overwriting a prepared meal; other slots and dates are unchanged |
| MealPlanner.WithRecipeUnknownDate | components/MealPlanner.tsx:89-97 | an unknown date changes nothing; a known one then holds the new unprepared meal |
| MealPlanner.ParseStoredDate | components/MealPlanner.tsx:108-110 | a stored date is accepted only as a valid calendar date, with years 0–99 read as 1900–1999 as `Date.UTC` does |
| MealPlanner.NextPlanDate | components/MealPlanner.tsx:104-112 | defines the appended date: the day after the last plan's date, or after today for an empty plan; properties in MealPlanner.WithNextDayAddsOneDay and MealPlanner.WithNextDayOnEmptyPlan |
| MealPlanner.WithNextDay | components/MealPlanner.tsx:104-124 | the plan is unchanged, or exactly one day with four empty slots is appended |
| MealPlanner.WithNextDayAddsOneDay | components/MealPlanner.tsx:105-123 | the appended day is the last date plus one calendar day, its text reads back as that date, and it is one day number later |
| MealPlanner.WithNextDayOnEmptyPlan | components/MealPlanner.tsx:105-111 | an empty plan gets the day after today |
| MealPlanner.NextDayAtMonthEnd | components/MealPlanner.tsx:110-112 | 2024-07-31 is followed by 2024-08-01 |
| MealPlanner.NextDayAtYearEnd | components/MealPlanner.tsx:110-112 | 2023-12-31 is followed by 2024-01-01 |
| MealPlanner.NextDayInLeapFebruary | components/MealPlanner.tsx:110-112 | 2024-02-28 is followed by 2024-02-29 |
| MealPlanner.NextDayInCommonFebruary | components/MealPlanner.tsx:110-112 | 2023-02-28 is followed by 2023-03-01 |
| MealPlanner.NextDayOfTwoDigitYear | components/MealPlanner.tsx:110 | a stored "0024-02-28" is read as 1924, so the next day is "1924-02-29" |
| MealPlanner.Planner.constructor | components/MealPlanner.tsx:62-69 | the planner holds the given inventory and plan |
| MealPlanner.Planner.SelectRecipe | components/MealPlanner.tsx:83-102 | the plan becomes `WithRecipe` of the old plan; the inventory is untouched |
| MealPlanner.Planner.AddNewPlan | components/MealPlanner.tsx:104-124 | the plan becomes `WithNextDay` of the old plan; the inventory is untouched |
| MealPlanner.Planner.MarkAsPrepared | components/MealPlanner.tsx:126-198 | the loop over ingredients leaves the outcome, inventory and plan that `Prepare` specifies for the old state |
| MealPlanner.Planner.CheckIngredient | components/MealPlanner.tsx:138-170 | one loop iteration appends the ingredient's shortage or its staged update |
| Calendar.NextDayIsOneDayLater | components/MealPlanner.tsx:111 | the next calendar day is exactly one day number later |
| Calendar.IsoRoundTrip | components/MealPlanner.tsx:108-112 | the ISO text of a date reads back as the same date |
| Inventory.CeilDiv | components/Inventory.tsx:14 | `Math.ceil(a / b)`: the least r with a ≤ b·r |
| Inventory.GetExpiryStatus | components/Inventory.tsx:9-19 | defines getExpiryStatus; properties in Inventory.ExpiryByDayDifference and Inventory.NoExpiryDate |
| Inventory.ExpiryByDayDifference | components/Inventory.tsx:9-19 | expired below 0 whole days left (rounded up), expiring soon up to 7, good beyond |
| Inventory.NoExpiryDate | components/Inventory.tsx:10 | a null or empty expiry date shows no badge status |
| Inventory.QuantityToBuy | components/Inventory.tsx:60 | at least 1, tops the stock up to at least twice the threshold, and is 1 or exactly 2·threshold − quantity |
| Inventory.ReorderExample | components/Inventory.tsx:60 | quantity 0 with threshold 1 reorders 2 |
| Inventory.IsLowStock | components/Inventory.tsx:58 | defines the low-stock test shared by the list and the badge; properties in Inventory.ShoppingListIsLowStock and Inventory.BadgeIffListed |
| Inventory.ShoppingList | components/Inventory.tsx:56-67 | lists exactly the items with quantity ≤ threshold, never more lines than items, each line with its reorder quantity and price × quantity subtotal |
| Inventory.ShoppingListIsLowStock | components/Inventory.tsx:56-67 | the listed items are the low-stock items in inventory order, each as often as it is stocked |
| Inventory.BadgeIffListed | components/Inventory.tsx:199 | the row's low-stock badge shows exactly for the items on the shopping list |
| Inventory.ShoppingListTotal | components/Inventory.tsx:69-71 | defines the reduce over the subtotals; properties in Inventory.ShoppingListTotalAppend and Inventory.ShoppingListTotalNonNegative |
| Inventory.ShoppingListAppend | components/Inventory.tsx:56-67 | the list of a concatenation is the concatenation of the lists |
| Inventory.ShoppingListTotalAppend | components/Inventory.tsx:69-71 | the total of a concatenation is the sum of the totals |
| Inventory.ShoppingListTotalNonNegative | components/Inventory.tsx:69-71 | with no negative prices the total is non-negative |
| Inventory.ShoppingListAfterAdd | components/Inventory.tsx:83 | adding an item extends the list by its line exactly when it is low on stock |
| Inventory.GroupedInventory | components/Inventory.tsx:49-54 | one group per category, in category order |
| Inventory.GroupsPartitionByCategory | components/Inventory.tsx:49-54 | each group holds exactly the items of its category, with multiplicity; an item of an unknown category is in no group |
| Inventory.WithItem | components/Inventory.tsx:73-86 | an empty name or category is refused; otherwise the item is appended with the new id |
| Inventory.WithCategory | components/Inventory.tsx:88-101 | a blank name is refused; otherwise the category is appended |
| Inventory.NewCategoryAddsGroup | components/Inventory.tsx:49-54 | a new category adds one group at the end and keeps the others |
| Inventory.InventoryView.constructor | components/Inventory.tsx:36-40 | the view holds the given inventory and categories |
| Inventory.InventoryView.AddItem | components/Inventory.tsx:73-86 | the inventory becomes `WithItem` of the old one; the categories are untouched |
| Inventory.InventoryView.AddCategory | components/Inventory.tsx:88-101 | the categories become `WithCategory` of the old ones; the inventory is untouched |
| Bills.OrdinalSuffix | components/Bills.tsx:10-18 | defines getOrdinalSuffix, with JavaScript's sign-keeping `%`; properties in Bills.OrdinalSuffixOfMonthDays |
| Bills.OrdinalSuffixOfMonthDays | components/Bills.tsx:10-18 | for days 1–31: "st" exactly for 1, 21, 31; "nd" for 2, 22; "rd" for 3, 23; "th" otherwise |
| Bills.GetPaymentStatus | components/Bills.tsx:49-71 | defines the paid amount, isPaid, capped progress and remaining; properties in Bills.PaymentStatusConsistent |
| Bills.PaymentStatusConsistent | components/Bills.tsx:49-71 | paid exactly when nothing remains; paid + remaining = amount; progress ≤ 100, 100 for a non-positive amount, and otherwise 100 exactly when paid |
| Bills.AmountPaid | components/Bills.tsx:54-62 | defines the sum of this bill's payments in the given month; properties in Bills.AmountPaidAppend and Bills.PaymentCountsThisMonth |
| Bills.InMonth | components/Bills.tsx:56-59 | defines the corrected month test on the date's own year and month (see Findings); properties in Bills.PaymentCountsThisMonth |
| Bills.InMonthAsWritten | components/Bills.tsx:56-59 | defines the month test as written, reading a UTC-midnight date in local time; properties in Bills.FirstOfMonthPaymentMissed |
| Bills.AmountPaidAppend | components/Bills.tsx:54-61 | the amount paid over a concatenation is the sum over the parts |
| Bills.InsertByDueDate | components/Bills.tsx:74 | inserting adds exactly the bill to the multiset |
| Bills.InsertKeepsSorted | components/Bills.tsx:74 | inserting into a list sorted by due day keeps it sorted |
| Bills.SortByDueDate | components/Bills.tsx:73-75 | the result is a permutation of the bills, sorted by due day |
| Bills.InsertKeepsOrder | components/Bills.tsx:74 | inserting keeps the relative order of the bills due on any one day |
| Bills.SortIsStable | components/Bills.tsx:73-75 | the bills due on a given day keep their original relative order |
| Bills.ValidateBillForm | components/Bills.tsx:104-115 | an accepted form has a positive amount in cents and a due day in 1..31 |
| Bills.ValidateBillFormIff | components/Bills.tsx:102-115 | accepted exactly when no field is blank, the amount parses to positive cents and the day parses into 1..31; then those are the values |
| Bills.WithSavedBill | components/Bills.tsx:100-127 | defines handleSaveBill on the bill list; properties in Bills.SaveBillShape and Bills.UnchangedEditKeepsBills |
| Bills.SaveBillShape | components/Bills.tsx:100-127 | an invalid form changes nothing; an edit replaces every bill with the edited id and keeps the rest; an add puts the new bill first |
| Bills.FixedIsNotBlank | components/Bills.tsx:147 | the amount text of the edit form is never blank |
| Bills.EditForm | components/Bills.tsx:144-151 | defines the edit form of a bill, amount as `toFixed(2)` of the cents over 100; properties in Bills.EditFormRoundTrip |
| Bills.EditFormRoundTrip | components/Bills.tsx:104-152 | the edit form of a valid bill validates back to its amount and due day |
| Bills.UnchangedEditKeepsBills | components/Bills.tsx:117-152 | saving an edit form unchanged leaves the bills as they were |
| Bills.WithoutBill | components/Bills.tsx:129-135 | removes exactly the bills with the id and keeps the others with their multiplicity |
| Bills.WithPayment | components/Bills.tsx:77-98 | without a bill or with a non-positive amount nothing changes; otherwise one expense with the fresh id is put first, for the bill and its category, of `Math.round(value × 100)` cents, dated today |
| Bills.PaymentCountsThisMonth | components/Bills.tsx:54-95 | a recorded payment adds its cents to this month's amount paid for the bill |
| Bills.ParsesTinyAmount | components/Bills.tsx:80 | "0.004" parses as 0.004 |
| Bills.TinyPaymentRecordsZero | components/Bills.tsx:80-95 | "0.004" passes the positive check yet records a payment of 0 cents |
| Bills.PreviousDay | components/Bills.tsx:56-59 | the day before a valid date is valid and is followed by it |
| Bills.FirstOfMonthPaymentMissed | components/Bills.tsx:56-59 | at UTC−5, a payment dated 2024-08-01 reads as July under local time, though the corrected test counts it for August |
| Bills.BillBook.constructor | components/Bills.tsx:35 | the book holds the given bills and transactions |
| Bills.BillBook.SaveBill | components/Bills.tsx:100-127 | the bills become `WithSavedBill` of the old ones; the transactions are untouched |
| Bills.BillBook.AddPayment | components/Bills.tsx:77-98 | the transactions become `WithPayment` of the old ones; the bills are untouched |
| Bills.BillBook.DeleteBill | components/Bills.tsx:129-135 | the bills become `WithoutBill` of the old ones; the transactions are untouched |
| Recipes.FilteredRecipes | components/Recipes.tsx:38-40 | "all" shows every recipe; a category shows exactly its recipes, in order and with multiplicity |
| Recipes.Toggled | components/Recipes.tsx:42-44 | collapses when the recipe was the expanded one, otherwise expands it |
| Recipes.ToggleTwice | components/Recipes.tsx:42-44 | toggling twice expands the recipe if it was expanded, and otherwise collapses everything |
| Recipes.WithField | components/Recipes.tsx:62 | sets the named field of an ingredient line and keeps the others |
| Recipes.WithIngredientChanged | components/Recipes.tsx:60-64 | only the field of the line at the index changes; every other line and the rest of the draft are kept |
| Recipes.WithIngredientAdded | components/Recipes.tsx:66-68 | appends a default line (quantity "1", unit "pcs") and keeps the rest |
| Recipes.WithIngredientRemoved | components/Recipes.tsx:70-73 | removes the line at the index, or nothing when the index is out of range |
| Recipes.RemoveUndoesAdd | components/Recipes.tsx:66-73 | removing the line just added restores the draft |
| Recipes.WithInstructionChanged | components/Recipes.tsx:75-79 | only the step at the index changes |
| Recipes.WithInstructionAdded | components/Recipes.tsx:81-83 | appends an empty step and keeps the rest |
| Recipes.WithInstructionRemoved | components/Recipes.tsx:85-88 | removes the step at the index |
| Recipes.Dashes | components/Recipes.tsx:100 | replacing white-space runs never lengthens the text, leaves no white space, is empty only for empty text, and adds only '-' |
| Recipes.DashesOfSpaceless | components/Recipes.tsx:100 | text without white space is unchanged |
| Recipes.DashesOfRun | components/Recipes.tsx:100 | a run of white space between words becomes a single '-' |
| Recipes.Slug | components/Recipes.tsx:100 | defines `toLowerCase().replace(/\s+/g, '-')`; properties in Recipes.SlugIsNormal and Recipes.SlugOfSpaceless |
| Recipes.SlugIsNormal | components/Recipes.tsx:100 | an item-id slug has no white space or capitals, is empty exactly for an empty name, and slugging it again changes nothing |
| Recipes.SlugOfSpaceless | components/Recipes.tsx:100 | a name without white space is just lower-cased |
| Recipes.FinalIngredient | components/Recipes.tsx:97-101 | defines a saved ingredient line: slug id or fallback, `parseFloat(q) \|\| 0`; properties in Recipes.FallbackOnlyForEmptyName |
| Recipes.FallbackOnlyForEmptyName | components/Recipes.tsx:100 | the generated fallback id is used exactly for an empty ingredient name; otherwise the slug is |
| Recipes.CostInCents | components/Recipes.tsx:104 | defines `Math.round(parseFloat(cost) * 100) \|\| 0`; properties in Recipes.CostInCentsReadsAmounts and Recipes.UnreadableCostIsZero |
| Recipes.CostInCentsReadsAmounts | components/Recipes.tsx:104 | a cost written with two decimals is read back as exactly those cents |
| Recipes.UnreadableCostIsZero | components/Recipes.tsx:104 | a cost that is not a number is stored as 0 |
| Recipes.WithNewRecipe | components/Recipes.tsx:90-116 | an empty name changes nothing; otherwise the recipe is put first with the draft's fields, the cost in cents, and each ingredient's parsed quantity and its id: the slug of its name, or the fallback exactly for an empty name |
| Recipes.RecipeBook.constructor | components/Recipes.tsx:29-34 | all categories, nothing expanded, the initial draft |
| Recipes.RecipeBook.ToggleDetails | components/Recipes.tsx:42-44 | the expanded id becomes `Toggled` of the old one |
| Recipes.RecipeBook.ChangeIngredient | components/Recipes.tsx:60-64 | copies the lines, assigns the one at the index, and stores the copy as the draft |
| Recipes.RecipeBook.AddIngredient | components/Recipes.tsx:66-68 | the draft gains a default line |
| Recipes.RecipeBook.RemoveIngredient | components/Recipes.tsx:70-73 | the draft loses the line at the index |
| Recipes.RecipeBook.ChangeInstruction | components/Recipes.tsx:75-79 | copies the steps, assigns the one at the index, and stores the copy |
| Recipes.RecipeBook.AddInstruction | components/Recipes.tsx:81-83 | the draft gains an empty step |
| Recipes.RecipeBook.RemoveInstruction | components/Recipes.tsx:85-88 | the draft loses the step at the index |
| Recipes.RecipeBook.AddRecipe | components/Recipes.tsx:90-116 | the recipes become `WithNewRecipe` of the old ones, and an accepted recipe resets the draft |
| Dashboard.TotalIncome | components/Dashboard.tsx:22-24 | defines totalIncome; properties in Dashboard.TotalsSplitAll and Dashboard.TotalOfAppend |
| Dashboard.TotalExpense | components/Dashboard.tsx:26-28 | defines totalExpense; properties in Dashboard.TotalsSplitAll and Dashboard.TotalOfAppend |
| Dashboard.TotalsSplitAll | components/Dashboard.tsx:22-28 | income plus expense totals is the sum of all amounts |
| Dashboard.TotalOfAppend | components/Dashboard.tsx:22-28 | the totals of a concatenation are the sums of the totals |
| Dashboard.LowStockItems | components/Dashboard.tsx:30 | exactly the items with quantity ≤ threshold |
| Dashboard.LowStockMatchesShoppingList | components/Dashboard.tsx:30 | the dashboard's low-stock list is the inventory shopping list's items |
| Dashboard.CategoryName | components/Dashboard.tsx:37-38 | defines the label of a transaction; properties in Dashboard.CategoryNameIsFirstMatch |
| Dashboard.CategoryNameIsFirstMatch | components/Dashboard.tsx:37-38 | the name of the first category with the id, or "Uncategorized" when none has it |
| Dashboard.EntryIndex | components/Dashboard.tsx:39 | the position of an entry with the name, or None exactly when none has it |
| Dashboard.Accumulate | components/Dashboard.tsx:39-44 | the reducer body as a method: it looks the name up and either updates the found entry or pushes a new one, and returns exactly the `AddExpense` step (its two branches are unfolded by the helpers AddToFound and AddToMissing); what the step means is stated in Dashboard.AddExpenseSummarises |
| Dashboard.ExpenseData | components/Dashboard.tsx:34-46 | defines expenseData as a fold of Dashboard.AddExpense; properties in Dashboard.ExpenseDataSummarises |
| Dashboard.AddExpense | components/Dashboard.tsx:39-44 | defines one reducer step: `existing.expense +=` at the found entry, or `push` of a new one; properties in Dashboard.AddExpenseSummarises |
| Dashboard.AddExpenseSummarises | components/Dashboard.tsx:39-44 | one reducer step keeps the names distinct and in first-seen order and adds the amount to its name's total |
| Dashboard.ExpenseDataSummarises | components/Dashboard.tsx:26-46 | one entry per category name seen, in first-seen order; each expense is the sum of that name's amounts / 100; the expenses sum to total expense / 100 |
| Dashboard.UnknownCategoryIsUncategorized | components/Dashboard.tsx:37-38 | an expense with an unknown category gives an "Uncategorized" entry |
| Dashboard.ComputeExpenseData | components/Dashboard.tsx:34-46 | the loop that applies the reducer to each expense in turn produces `ExpenseData`, whose properties `ExpenseDataSummarises` proves |
| Announcements.TimeAgo | components/Announcements.tsx:10-42 | defines formatTimeAgo on the elapsed milliseconds; properties in Announcements.FormatTimeAgo, Announcements.JustNowIff and Announcements.SecondsAgoIff |
| Announcements.Describe | components/Announcements.tsx:15-41 | defines the unit and count chosen for whole seconds; properties in Announcements.DescribeCountedIff and Announcements.CountedAtFirstExceeded |
| Announcements.FirstExceeded | components/Announcements.tsx:15-39 | the first unit of the cascade that the seconds strictly exceed, with every earlier unit not exceeded |
| Announcements.FormatTimeAgo | components/Announcements.tsx:10-42 | returns the label `TimeAgo` specifies, "NaN seconds ago" for an unreadable timestamp |
| Announcements.FormatSeconds | components/Announcements.tsx:15-41 | the cascade of `interval` reassignments returns the text of `Describe` for the whole seconds |
| Announcements.DescribeAt | components/Announcements.tsx:15-39 | seconds above a unit and not above the unit before it are counted in that unit, in whole units |
| Announcements.DescribeUpToMinute | components/Announcements.tsx:35-41 | up to and including 60 s no unit applies: "just now" below 10 s, the seconds otherwise |
| Announcements.CountedAtFirstExceeded | components/Announcements.tsx:15-39 | a unit is reported exactly when it is the first unit of the cascade that the seconds exceed |
| Announcements.DescribeCountedIff | components/Announcements.tsx:15-39 | a unit is used exactly when the seconds strictly exceed it and no larger unit; the count is the whole number of units, at least 1 |
| Announcements.JustNowIff | components/Announcements.tsx:40 | "just now" exactly below 10 seconds, including times in the future |
| Announcements.SecondsAgoIff | components/Announcements.tsx:35-41 | seconds are shown from 10 up to and including 60 |
| Announcements.CountedWording | components/Announcements.tsx:17-38 | the singular exactly for a count of 1, the plural otherwise |
| Announcements.CountReadsBack | components/Announcements.tsx:17-41 | the number a label starts with reads back as its count |
| Announcements.WholeMinuteReadsAsSeconds | components/Announcements.tsx:35-41 | 60 s shows "60 seconds ago" |
| Announcements.JustOverAMinute | components/Announcements.tsx:35-39 | 61 s shows "1 minute ago" |
| Announcements.JustNowExamples | components/Announcements.tsx:13-40 | 9.999 s and 5 s in the future show "just now" |
| Announcements.OneYearReadsAsMonths | components/Announcements.tsx:15-24 | exactly 365 days shows "12 months ago" |
| Announcements.MediaTypeOf | components/Announcements.tsx:84 | "image" exactly when the MIME type starts with "image/", otherwise "video" |
| Announcements.NewAnnouncement | components/Announcements.tsx:73-85 | media is attached exactly with a file and a non-empty preview URL, with the file's media type; otherwise neither field is set |
| Announcements.WithPost | components/Announcements.tsx:66-87 | a blank post without media changes nothing; otherwise one announcement by the user (id, name and avatar), with the content, the fresh id and the timestamp, is put first |
| Announcements.PostRejectedIff | components/Announcements.tsx:68-71 | the list is unchanged exactly when the content is blank and no file is chosen |
| Announcements.WithoutAnnouncement | components/Announcements.tsx:106-110 | removes exactly the posts with the id and keeps the others with their multiplicity |
| Announcements.WithoutAnnouncementKeepsOrder | components/Announcements.tsx:106-110 | deleting from a concatenation deletes from each part in place, so the remaining posts keep their order |
| Announcements.DeleteUndoesPost | components/Announcements.tsx:74-108 | deleting a just-made post by its id restores the list |
| Announcements.CanDelete | components/Announcements.tsx:155 | defines the delete permission: an admin, or the post's author; properties in Announcements.DeletablePosts |
| Announcements.DeletablePosts | components/Announcements.tsx:155 | an admin may delete every post; anyone else exactly the posts they wrote |
| Announcements.Board.constructor | components/Announcements.tsx:49-53 | the given posts and an empty form, with nothing awaiting deletion |
| Announcements.Board.ChangeFile | components/Announcements.tsx:55-64 | a chosen file and its new preview URL replace the old ones |
| Announcements.Board.RemoveMedia | components/Announcements.tsx:98-104 | the file and the preview are cleared |
| Announcements.Board.Post | components/Announcements.tsx:66-96 | the posts become `WithPost` of the form; an accepted post clears the form and a refused one keeps it |
| Announcements.Board.RequestDelete | components/Announcements.tsx:155-168 | only a post the user may delete can await deletion |
| Announcements.Board.CancelDelete | components/Announcements.tsx:192-196 | nothing awaits deletion and the posts are kept |
| Announcements.Board.ConfirmDelete | components/Announcements.tsx:106-110 | with a post awaiting deletion, every post with its id is removed; otherwise nothing changes |

## Left out

- Rendering, modals, `alert`s, success banners, the print window of the shopping list, and the role-based hiding of buttons (`canEdit`, `canPost`). These are UI only. The one permission rule that decides data, who may delete a post, is modelled.
- Clock reads (`new Date()`, `Date.now()`) are parameters: today's date, the current month and year, or the elapsed milliseconds.
- Generated ids are parameters: Inventory.WithItem, Inventory.WithCategory, Bills.WithSavedBill, Bills.WithPayment and Recipes.WithNewRecipe take the fresh id rather than building it from `Date.now()`. Announcements.NewAnnouncement does build "a" followed by the clock reading.
- IEEE-754 floating point: quantities are exact reals and money is integer cents. The rounding of `* 1000`, `/ 1000` and `Math.round(parseFloat(x) * 100)` in binary floating point is not reproduced.
- MealPlanner.Check: shortage messages are a datatype holding the name, the numbers and the unit. JavaScript's number-to-text formatting inside the message is not modelled.
- MealPlanner.ParseStoredDate: only strict `YYYY-MM-DD` text for a valid calendar date is read. A malformed stored date, which JavaScript would normalise or turn into an "Invalid Date" error, leaves the plan unchanged.
- MealPlanner.Planner.SelectRecipe: takes the slot's date and meal type directly. The meal-context state of the modal is not modelled.
- Inventory.GetExpiryStatus: reads only date-only `YYYY-MM-DD` text. Other text that `new Date` accepts counts as unreadable (NaN, so "good").
- Bills.InMonth: compares the payment date's own year and month. The component uses the local-time month (see Findings). The current month is a parameter, 1-based.
- Bills.SortByDueDate: modelled as a stable insertion sort, which gives the same order as the stable `Array.prototype.sort` with the due-day comparator.
- Text.ParseFloat: reads decimal notation only. Exponent text ("1e3") and "Infinity" are not read as JavaScript's `parseFloat` would; every amount, cost and quantity field that feeds it carries an input pattern of digits with at most one decimal point (`^\d*(\.\d{0,2})?$`, or `^\d*(\.\d*)?$` for quantities), so the browser refuses such text when the form is submitted.
- Recipes.Slug: lower-cases ASCII letters only. Unicode case mapping is not modelled.
- Recipes.RecipeBook.ChangeIngredient: requires an index of an existing line, which is what the form passes. JavaScript's growth of the array on an out-of-range write is not modelled. The same holds for Recipes.RecipeBook.ChangeInstruction.
- Plain field edits of the recipe draft (`handleInputChange`) and image object URLs (`handleImageChange`, `URL.createObjectURL`/`revokeObjectURL`) are not modelled.
- Dashboard: the component reads fixed sample transactions and categories. The model takes them as parameters.
- Dashboard.ComputeExpenseData: entries are immutable values, so the in-place `existing.expense +=` is an update at the found index. Aliasing of the accumulator's objects is not modelled.
- Announcements.FormatTimeAgo: takes the elapsed milliseconds (None when the timestamp cannot be read) instead of parsing an ISO timestamp.
- The initial ordering of the sample announcements by timestamp is fixture data and is not modelled.
- Backend controllers, authentication, theme, receipt OCR and the other screens are not part of this model.

## Findings

| source | as written | input that shows it | evidently intended | confidence | as-written member | corrected member |
|---|---|---|---|---|---|---|
| components/Bills.tsx:56-59 | a payment's month is read with `new Date(t.date).getMonth()` and `getFullYear()`. A date-only string is parsed as midnight UTC, but these getters use local time. | a payment dated "2024-08-01" viewed in August 2024 at UTC−5 is read as 31 July and does not count towards August | the payment counts in the month written in its date | medium (not executed) | Bills.InMonthAsWritten / Bills.FirstOfMonthPaymentMissed | Bills.InMonth, used by Bills.AmountPaid; Bills.PaymentCountsThisMonth |
