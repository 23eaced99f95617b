/** The records the household components share (backend/src/types.ts), with
    `Bill` and `Transaction.billId` as the bill screen uses them.  Quantities
    are exact reals, money is integer cents, a JavaScript `null` or absent
    optional field is `None`. */
module Types {
  import opened Collections

  datatype Role = Admin | Editor | Viewer

  datatype TransactionType = Income | Expense

  datatype MealType = Breakfast | Lunch | Dinner | Snack

  datatype User = User(userId: string, name: string, email: string, role: Role, avatarUrl: string)

  datatype FinanceCategory = FinanceCategory(categoryId: string, name: string, kind: TransactionType)

  /** `amount` is in cents; `billId` is set on payments recorded against a bill. */
  datatype Transaction = Transaction(
    transactionId: string,
    categoryId: string,
    amount: int,
    kind: TransactionType,
    description: string,
    date: string,
    billId: Option<string>)

  datatype InventoryCategory = InventoryCategory(categoryId: string, name: string)

  datatype InventoryItem = InventoryItem(
    itemId: string,
    name: string,
    quantity: real,
    unit: string,
    expiryDate: Option<string>,
    lowStockThreshold: real,
    categoryId: string,
    price: Option<real>)

  /** `itemId` names the inventory item the ingredient is taken from. */
  datatype Ingredient = Ingredient(itemId: string, name: string, quantity: real, unit: string)

  /** `estimatedCost` is in cents. */
  datatype Recipe = Recipe(
    recipeId: string,
    name: string,
    instructions: seq<string>,
    imageUrl: string,
    estimatedCost: int,
    ingredients: seq<Ingredient>,
    category: MealType)

  datatype Meal = Meal(recipe: Recipe, prepared: bool)

  /** The four meal slots of a day; an empty slot is `None`. */
  datatype Meals = Meals(breakfast: Option<Meal>, lunch: Option<Meal>, dinner: Option<Meal>, snack: Option<Meal>)
  {
    /** `meals[t]`. */
    function Get(t: MealType): Option<Meal>
    {
      match t
      case Breakfast => breakfast
      case Lunch => lunch
      case Dinner => dinner
      case Snack => snack
    }

    /** `{ ...meals, [t]: m }`: slot `t` holds `m`, every other slot is kept. */
    function Set(t: MealType, m: Option<Meal>): (r: Meals)
      ensures r.Get(t) == m
      ensures forall u :: u != t ==> r.Get(u) == Get(u)
    {
      match t
      case Breakfast => this.(breakfast := m)
      case Lunch => this.(lunch := m)
      case Dinner => this.(dinner := m)
      case Snack => this.(snack := m)
    }
  }

  datatype MealPlan = MealPlan(date: string, meals: Meals)

  /** `amount` is in cents; `dueDate` is the day of the month the bill falls due. */
  datatype Bill = Bill(billId: string, name: string, amount: int, dueDate: int, categoryId: string)

  datatype MediaType = Image | Video

  datatype Announcement = Announcement(
    announcementId: string,
    authorId: string,
    authorName: string,
    authorAvatarUrl: string,
    content: string,
    mediaUrl: Option<string>,
    mediaType: Option<MediaType>,
    timestamp: string)
}
