/** The recipe book (components/Recipes.tsx): the category filter, the
    expanded-recipe toggle, the editor for a new recipe with its
    index-based ingredient and instruction lists, and adding the finished
    recipe. */
module Recipes {
  import opened Collections
  import opened Text
  import opened Types

  /** The category buttons: every recipe, or one meal type. */
  datatype CategoryFilter = All | Only(category: MealType)

  /** filteredRecipes. */
  function FilteredRecipes(recipes: seq<Recipe>, active: CategoryFilter): (r: seq<Recipe>)
    ensures active == All ==> r == recipes
    ensures active.Only? ==> r == Filter((x: Recipe) => x.category == active.category, recipes)
    ensures active.Only? ==> forall x :: multiset(r)[x] == if x.category == active.category then multiset(recipes)[x] else 0
  {
    match active
    case All => recipes
    case Only(c) =>
      FilterCount((x: Recipe) => x.category == c, recipes);
      Filter((x: Recipe) => x.category == c, recipes)
  }

  /** handleToggleDetails: the expanded recipe collapses, any other expands. */
  function Toggled(expanded: Option<string>, recipeId: string): (r: Option<string>)
    ensures r == None <==> expanded == Some(recipeId)
    ensures r != None ==> r == Some(recipeId)
  {
    if expanded == Some(recipeId) then None else Some(recipeId)
  }

  /** Pressing the same recipe twice leaves it collapsed, unless it was the
      expanded one, which is expanded again. */
  lemma ToggleTwice(expanded: Option<string>, recipeId: string)
    ensures Toggled(Toggled(expanded, recipeId), recipeId)
      == if expanded == Some(recipeId) then Some(recipeId) else None
  {
  }

  /** An ingredient line of the editor; the quantity is the text typed. */
  datatype IngredientDraft = IngredientDraft(itemId: string, name: string, quantity: string, unit: string)

  /** The new-recipe form: the estimated cost is the text typed. */
  datatype RecipeDraft = RecipeDraft(
    name: string,
    instructions: seq<string>,
    imageUrl: string,
    estimatedCost: string,
    ingredients: seq<IngredientDraft>,
    category: MealType)

  /** The line a new ingredient starts as: one piece. */
  function DefaultIngredient(): IngredientDraft
  {
    IngredientDraft("", "", "1", "pcs")
  }

  /** initialRecipeState: one empty step, one default ingredient, lunch. */
  function InitialDraft(): RecipeDraft
  {
    RecipeDraft("", [""], "", "", [DefaultIngredient()], Lunch)
  }

  datatype IngredientField = ItemIdField | NameField | QuantityField | UnitField

  /** `ing[field]`. */
  function FieldOf(ing: IngredientDraft, field: IngredientField): string
  {
    match field
    case ItemIdField => ing.itemId
    case NameField => ing.name
    case QuantityField => ing.quantity
    case UnitField => ing.unit
  }

  /** `{ ...ing, [field]: value }`. */
  function WithField(ing: IngredientDraft, field: IngredientField, value: string): (r: IngredientDraft)
    ensures FieldOf(r, field) == value
    ensures forall f :: f != field ==> FieldOf(r, f) == FieldOf(ing, f)
  {
    match field
    case ItemIdField => ing.(itemId := value)
    case NameField => ing.(name := value)
    case QuantityField => ing.(quantity := value)
    case UnitField => ing.(unit := value)
  }

  /** handleIngredientChange: only line `index` changes, and only in `field`. */
  function WithIngredientChanged(draft: RecipeDraft, index: int, field: IngredientField, value: string): (r: RecipeDraft)
    requires 0 <= index < |draft.ingredients|
    ensures |r.ingredients| == |draft.ingredients|
    ensures FieldOf(r.ingredients[index], field) == value
    ensures forall f :: f != field ==> FieldOf(r.ingredients[index], f) == FieldOf(draft.ingredients[index], f)
    ensures forall k :: 0 <= k < |draft.ingredients| && k != index ==> r.ingredients[k] == draft.ingredients[k]
    ensures r.(ingredients := draft.ingredients) == draft
  {
    draft.(ingredients := draft.ingredients[index := WithField(draft.ingredients[index], field, value)])
  }

  /** addIngredient: one default line at the end. */
  function WithIngredientAdded(draft: RecipeDraft): (r: RecipeDraft)
    ensures |r.ingredients| == |draft.ingredients| + 1 && r.ingredients[|draft.ingredients|] == DefaultIngredient()
    ensures r.ingredients[..|draft.ingredients|] == draft.ingredients
    ensures r.(ingredients := draft.ingredients) == draft
  {
    draft.(ingredients := draft.ingredients + [DefaultIngredient()])
  }

  /** removeIngredient: `filter((_, i) => i !== index)`. */
  function WithIngredientRemoved(draft: RecipeDraft, index: int): (r: RecipeDraft)
    ensures r.ingredients == RemoveAt(draft.ingredients, index)
    ensures r.(ingredients := draft.ingredients) == draft
  {
    draft.(ingredients := RemoveAt(draft.ingredients, index))
  }

  /** Adding a line and removing it again restores the draft. */
  lemma RemoveUndoesAdd(draft: RecipeDraft)
    ensures WithIngredientRemoved(WithIngredientAdded(draft), |draft.ingredients|) == draft
  {
    var added := WithIngredientAdded(draft).ingredients;
    assert added[..|draft.ingredients|] == draft.ingredients;
  }

  /** handleInstructionChange: only step `index` changes. */
  function WithInstructionChanged(draft: RecipeDraft, index: int, value: string): (r: RecipeDraft)
    requires 0 <= index < |draft.instructions|
    ensures |r.instructions| == |draft.instructions| && r.instructions[index] == value
    ensures forall k :: 0 <= k < |draft.instructions| && k != index ==> r.instructions[k] == draft.instructions[k]
    ensures r.(instructions := draft.instructions) == draft
  {
    draft.(instructions := draft.instructions[index := value])
  }

  /** addInstruction: one empty step at the end. */
  function WithInstructionAdded(draft: RecipeDraft): (r: RecipeDraft)
    ensures r.instructions == draft.instructions + [""]
    ensures r.(instructions := draft.instructions) == draft
  {
    draft.(instructions := draft.instructions + [""])
  }

  /** removeInstruction: `filter((_, i) => i !== index)`. */
  function WithInstructionRemoved(draft: RecipeDraft, index: int): (r: RecipeDraft)
    ensures r.instructions == RemoveAt(draft.instructions, index)
    ensures r.(instructions := draft.instructions) == draft
  {
    draft.(instructions := RemoveAt(draft.instructions, index))
  }

  /** `s.replace(/\s+/g, '-')` scanned left to right: white space opens a
      run, which emits one '-' unless a run is already open (`inRun`); any
      other character is copied and closes the run. */
  function DashesFrom(s: string, inRun: bool): (r: string)
    ensures |r| <= |s|
    ensures !inRun ==> (r == [] <==> s == [])
    ensures forall i :: 0 <= i < |r| ==> !IsWhiteSpace(r[i])
    ensures forall i :: 0 <= i < |r| ==> r[i] == '-' || r[i] in s
    decreases |s|
  {
    if s == [] then []
    else if IsWhiteSpace(s[0]) then (if inRun then [] else ['-']) + DashesFrom(s[1..], true)
    else [s[0]] + DashesFrom(s[1..], false)
  }

  /** `s.replace(/\s+/g, '-')`: every run of white space becomes one '-'. */
  function Dashes(s: string): (r: string)
    ensures |r| <= |s|
    ensures r == [] <==> s == []
    ensures forall i :: 0 <= i < |r| ==> !IsWhiteSpace(r[i])
    ensures forall i :: 0 <= i < |r| ==> r[i] == '-' || r[i] in s
  {
    DashesFrom(s, false)
  }
  /** The item id an ingredient name gives: `name.toLowerCase().replace(/\s+/g, '-')`. */
  function Slug(name: string): string
  {
    Dashes(ToLower(name))
  }

  /** Text without white space goes through unchanged. */
  lemma DashesOfSpaceless(s: string)
    requires forall i :: 0 <= i < |s| ==> !IsWhiteSpace(s[i])
    ensures Dashes(s) == s
  {
    DashesPrefix(s, []);
    assert s + [] == s;
  }

  lemma LowerCharIdempotent(c: char)
    ensures LowerChar(LowerChar(c)) == LowerChar(c)
    ensures LowerChar(c) == c <==> !IsAsciiUpper(c)
  {
  }

  /** The slug has no white space and no upper-case ASCII letter, is empty
      only for an empty name, and is its own slug. */
  lemma SlugIsNormal(name: string)
    ensures var s := Slug(name);
      (forall i :: 0 <= i < |s| ==> !IsWhiteSpace(s[i]) && !IsAsciiUpper(s[i]))
      && (s == [] <==> name == [])
      && Slug(s) == s
  {
    var lower := ToLower(name);
    var s := Dashes(lower);
    forall i | 0 <= i < |s|
      ensures !IsAsciiUpper(s[i])
    {
      if s[i] != '-' {
        assert s[i] in lower;
        var k :| 0 <= k < |lower| && lower[k] == s[i];
        LowerCharIdempotent(name[k]);
      }
    }
    assert ToLower(s) == s;
    DashesOfSpaceless(s);
  }

  /** A name without white space gives its lower-case form. */
  lemma SlugOfSpaceless(name: string)
    requires forall i :: 0 <= i < |name| ==> !IsWhiteSpace(name[i])
    ensures Slug(name) == ToLower(name)
  {
    var lower := ToLower(name);
    forall i | 0 <= i < |lower|
      ensures !IsWhiteSpace(lower[i])
    {
      assert lower[i] == LowerChar(name[i]);
    }
    DashesOfSpaceless(lower);
  }

  /** A run of white space emits one '-' if no run was open, and leaves a
      run open. */
  lemma {:induction false} DashesOfBlank(w: string, b: string, inRun: bool)
    requires w != [] && IsBlank(w)
    ensures DashesFrom(w + b, inRun) == (if inRun then [] else ['-']) + DashesFrom(b, true)
    decreases |w|
  {
    var wb := w + b;
    assert wb[0] == w[0] && wb[1..] == w[1..] + b;
    if |w| == 1 {
      assert w[1..] + b == b;
    } else {
      assert IsBlank(w[1..]);
      DashesOfBlank(w[1..], b, true);
    }
  }

  /** An open run ends at the first character that is not white space. */
  lemma RunEndsAtWord(b: string)
    requires b == [] || !IsWhiteSpace(b[0])
    ensures DashesFrom(b, true) == DashesFrom(b, false)
  {
  }

  /** A leading run of white space becomes one '-'. */
  lemma DashesOfLeadingRun(w: string, b: string)
    requires w != [] && IsBlank(w)
    requires b == [] || !IsWhiteSpace(b[0])
    ensures Dashes(w + b) == "-" + Dashes(b)
  {
    DashesOfBlank(w, b, false);
    RunEndsAtWord(b);
  }

  /** A whole run of white space between words, however long, becomes a
      single '-'. */
  lemma DashesOfRun(a: string, w: string, b: string)
    requires forall i :: 0 <= i < |a| ==> !IsWhiteSpace(a[i])
    requires w != [] && IsBlank(w)
    requires b == [] || !IsWhiteSpace(b[0])
    ensures Dashes(a + w + b) == a + "-" + Dashes(b)
  {
    assert a + w + b == a + (w + b);
    DashesPrefix(a, w + b);
    DashesOfLeadingRun(w, b);
  }

  /** Dashes copies text without white space and carries on after it. */
  lemma {:induction false} DashesPrefix(a: string, b: string)
    requires forall i :: 0 <= i < |a| ==> !IsWhiteSpace(a[i])
    ensures Dashes(a + b) == a + Dashes(b)
    decreases |a|
  {
    if a != [] {
      var ab := a + b;
      assert ab[0] == a[0] && ab[1..] == a[1..] + b;
      assert DashesFrom(ab, false) == [a[0]] + DashesFrom(a[1..] + b, false);
      DashesPrefix(a[1..], b);
      assert a == [a[0]] + a[1..];
    } else {
      assert a + b == b;
    }
  }

  /** The ingredient a draft line becomes: the slug of its name as item id (the
      fallback id when the slug is empty), the quantity `parseFloat(q) || 0`. */
  function FinalIngredient(line: IngredientDraft, fallbackId: string): Ingredient
  {
    var slug := Slug(line.name);
    Ingredient(if slug == "" then fallbackId else slug, line.name, ParseFloatOrZero(line.quantity), line.unit)
  }

  /** `Math.round(parseFloat(cost) * 100) || 0`: cents, 0 for text that is not a number. */
  function CostInCents(text: string): int
  {
    match ParseCents(text)
    case None => 0
    case Some(c) => c
  }

  /** A cost typed as `toFixed(2)` text is stored as exactly those cents. */
  lemma CostInCentsReadsAmounts(cents: int)
    ensures CostInCents(CentsToFixed(cents)) == cents
  {
    CentsRoundTrip(cents);
  }

  /** A cost that is not a number is stored as 0. */
  lemma UnreadableCostIsZero(text: string)
    requires ParseFloat(text).None?
    ensures CostInCents(text) == 0
  {
  }

  /** The recipe a draft becomes. */
  function NewRecipe(draft: RecipeDraft, recipeId: string, fallbackId: string): Recipe
  {
    Recipe(recipeId, draft.name, draft.instructions, draft.imageUrl, CostInCents(draft.estimatedCost),
      seq(|draft.ingredients|, i requires 0 <= i < |draft.ingredients| => FinalIngredient(draft.ingredients[i], fallbackId)),
      draft.category)
  }

  /** handleAddRecipe: a draft without a name adds nothing; otherwise its recipe
      goes first. */
  function WithNewRecipe(recipes: seq<Recipe>, draft: RecipeDraft, recipeId: string, fallbackId: string): (r: seq<Recipe>)
    ensures draft.name == "" ==> r == recipes
    ensures draft.name != "" ==> |r| == |recipes| + 1 && r[1..] == recipes
    ensures draft.name != "" ==>
      var added := r[0];
      added.recipeId == recipeId && added.name == draft.name && added.category == draft.category
      && added.instructions == draft.instructions && added.imageUrl == draft.imageUrl
      && added.estimatedCost == CostInCents(draft.estimatedCost)
      && |added.ingredients| == |draft.ingredients|
      && forall i :: 0 <= i < |draft.ingredients| ==>
           var line, ing := draft.ingredients[i], added.ingredients[i];
           ing.name == line.name && ing.unit == line.unit && ing.quantity == ParseFloatOrZero(line.quantity)
           && ing.itemId == (if line.name == "" then fallbackId else Slug(line.name))
  {
    if draft.name == "" then recipes
    else
      var added := NewRecipe(draft, recipeId, fallbackId);
      forall i | 0 <= i < |draft.ingredients|
        ensures var line := draft.ingredients[i];
          added.ingredients[i].itemId == (if line.name == "" then fallbackId else Slug(line.name))
      {
        FallbackOnlyForEmptyName(draft.ingredients[i], fallbackId);
      }
      [added] + recipes
  }

  /** An ingredient line's id is the fallback exactly when its name is empty: a
      name of only white space still gives "-". */
  lemma FallbackOnlyForEmptyName(line: IngredientDraft, fallbackId: string)
    ensures line.name == "" ==> FinalIngredient(line, fallbackId).itemId == fallbackId
    ensures line.name != "" ==> FinalIngredient(line, fallbackId).itemId == Slug(line.name)
  {
    SlugIsNormal(line.name);
  }

  /** The recipe book's state. */
  class RecipeBook {
    var recipes: seq<Recipe>
    var activeCategory: CategoryFilter
    var expandedRecipeId: Option<string>
    var draft: RecipeDraft

    constructor(recipes: seq<Recipe>)
      ensures this.recipes == recipes && activeCategory == All && expandedRecipeId == None
      ensures draft == InitialDraft()
    {
      this.recipes := recipes;
      activeCategory := All;
      expandedRecipeId := None;
      draft := InitialDraft();
    }

    /** The recipes shown. */
    function Shown(): seq<Recipe>
      reads this
    {
      FilteredRecipes(recipes, activeCategory)
    }

    method ToggleDetails(recipeId: string)
      modifies this
      ensures expandedRecipeId == Toggled(old(expandedRecipeId), recipeId)
      ensures recipes == old(recipes) && activeCategory == old(activeCategory) && draft == old(draft)
    {
      expandedRecipeId := Toggled(expandedRecipeId, recipeId);
    }

    /** handleIngredientChange: copies the lines and assigns the one at `index`. */
    method ChangeIngredient(index: int, field: IngredientField, value: string)
      requires 0 <= index < |draft.ingredients|
      modifies this
      ensures draft == WithIngredientChanged(old(draft), index, field, value)
      ensures recipes == old(recipes) && activeCategory == old(activeCategory) && expandedRecipeId == old(expandedRecipeId)
    {
      var lines := draft.ingredients;
      var updated := new IngredientDraft[|lines|](i requires 0 <= i < |lines| => lines[i]);
      updated[index] := WithField(updated[index], field, value);
      draft := draft.(ingredients := updated[..]);
      assert draft.ingredients == lines[index := WithField(lines[index], field, value)];
    }

    method AddIngredient()
      modifies this
      ensures draft == WithIngredientAdded(old(draft))
      ensures recipes == old(recipes) && activeCategory == old(activeCategory) && expandedRecipeId == old(expandedRecipeId)
    {
      draft := draft.(ingredients := draft.ingredients + [DefaultIngredient()]);
    }

    method RemoveIngredient(index: int)
      modifies this
      ensures draft == WithIngredientRemoved(old(draft), index)
      ensures recipes == old(recipes) && activeCategory == old(activeCategory) && expandedRecipeId == old(expandedRecipeId)
    {
      draft := draft.(ingredients := RemoveAt(draft.ingredients, index));
    }

    /** handleInstructionChange: copies the steps and assigns the one at `index`. */
    method ChangeInstruction(index: int, value: string)
      requires 0 <= index < |draft.instructions|
      modifies this
      ensures draft == WithInstructionChanged(old(draft), index, value)
      ensures recipes == old(recipes) && activeCategory == old(activeCategory) && expandedRecipeId == old(expandedRecipeId)
    {
      var steps := draft.instructions;
      var updated := new string[|steps|](i requires 0 <= i < |steps| => steps[i]);
      updated[index] := value;
      draft := draft.(instructions := updated[..]);
      assert draft.instructions == steps[index := value];
    }

    method AddInstruction()
      modifies this
      ensures draft == WithInstructionAdded(old(draft))
      ensures recipes == old(recipes) && activeCategory == old(activeCategory) && expandedRecipeId == old(expandedRecipeId)
    {
      draft := draft.(instructions := draft.instructions + [""]);
    }

    method RemoveInstruction(index: int)
      modifies this
      ensures draft == WithInstructionRemoved(old(draft), index)
      ensures recipes == old(recipes) && activeCategory == old(activeCategory) && expandedRecipeId == old(expandedRecipeId)
    {
      draft := draft.(instructions := RemoveAt(draft.instructions, index));
    }

    /** handleAddRecipe: adds the draft's recipe and resets the form, or changes
        nothing when the draft has no name. */
    method AddRecipe(recipeId: string, fallbackId: string)
      modifies this
      ensures recipes == WithNewRecipe(old(recipes), old(draft), recipeId, fallbackId)
      ensures draft == if old(draft).name == "" then old(draft) else InitialDraft()
      ensures activeCategory == old(activeCategory) && expandedRecipeId == old(expandedRecipeId)
    {
      recipes := WithNewRecipe(recipes, draft, recipeId, fallbackId);
      if draft.name != "" {
        draft := InitialDraft();
      }
    }
  }
}
