/**
 * The recipe authoring form component: its state and the handlers that
 * change it.
 */
module RecipeFormPage {
  import opened Wrappers
  import opened RecipeFormState

  /** The arguments the submit handler passes to the recipe insert, apart from the image path. */
  datatype RecipeRequest = RecipeRequest(
    title: string,
    servings: Option<int>,
    category: string,
    totalTimeMinutes: Option<int>,
    stepsDescription: string,
    ingredients: seq<Ingredient>,
    userId: string)

  /** JavaScript truthiness of the user id: `null` and the empty string are falsy. */
  predicate SignedIn(userId: Option<string>) {
    userId.Some? && userId.value != ""
  }

  /**
   * `ingredients.some(...)` of the required-field check: the rows are
   * visited in order and the first incomplete one ends the search.
   */
  method SomeIncomplete(ingredients: seq<Ingredient>) returns (found: bool)
    ensures found <==> HasIncomplete(ingredients)
  {
    var i := 0;
    while i < |ingredients|
      invariant 0 <= i <= |ingredients|
      invariant forall k :: 0 <= k < i ==> !Incomplete(ingredients[k])
    {
      if ingredients[i].name == "" || ingredients[i].quantity == "" {
        return true;
      }
      i := i + 1;
    }
    return false;
  }

  /**
   * The first part of the required-field check: the labels of the missing
   * fields are pushed one after the other into a fresh list.
   */
  method CollectMissingFields(v: FormValues) returns (missingFields: seq<string>)
    ensures missingFields == ErrorList(v)
  {
    missingFields := [];
    // `pushed` names the fields whose labels have been pushed so far.
    ghost var pushed: seq<Field> := [];
    if v.title == "" {
      missingFields := missingFields + ["Pealkiri"];
      LabelsOfAppend(pushed, Title);
      pushed := pushed + [Title];
    }
    assert pushed == MissingUpTo(v, 1) && missingFields == LabelsOf(pushed);
    var incomplete := SomeIncomplete(v.ingredients);
    if incomplete {
      missingFields := missingFields + ["Koostisosa ja kogus"];
      LabelsOfAppend(pushed, IngredientRows);
      pushed := pushed + [IngredientRows];
    }
    assert pushed == MissingUpTo(v, 2) && missingFields == LabelsOf(pushed);
    if NumberMissing(v.servings) {
      missingFields := missingFields + ["Portsjonite arv"];
      LabelsOfAppend(pushed, Servings);
      pushed := pushed + [Servings];
    }
    assert pushed == MissingUpTo(v, 3) && missingFields == LabelsOf(pushed);
    if v.category == "" {
      missingFields := missingFields + ["Kategooria"];
      LabelsOfAppend(pushed, Category);
      pushed := pushed + [Category];
    }
    assert pushed == MissingUpTo(v, 4) && missingFields == LabelsOf(pushed);
    if NumberMissing(v.totalTimeMinutes) {
      missingFields := missingFields + ["Valmistusaeg"];
      LabelsOfAppend(pushed, TotalTime);
      pushed := pushed + [TotalTime];
    }
    assert pushed == MissingUpTo(v, 5) && missingFields == LabelsOf(pushed);
    if v.stepsDescription == "" {
      missingFields := missingFields + ["Valmistusjuhend"];
      LabelsOfAppend(pushed, Steps);
      pushed := pushed + [Steps];
    }
    assert pushed == MissingUpTo(v, 6) && missingFields == LabelsOf(pushed);
  }

  class RecipeForm {
    var title: string
    var servings: Option<int>
    var selectedCategory: string
    var totalTimeMinutes: Option<int>
    var stepsDescription: string
    var ingredients: seq<Ingredient>
    var hasImage: bool
    var errors: seq<string>
    var userId: Option<string>

    /** The form fields, as the required-field check and the reset see them. */
    function Values(): FormValues
      reads this
    {
      FormValues(title, servings, selectedCategory, totalTimeMinutes, stepsDescription, ingredients, hasImage)
    }

    /** The state given by the `useState` initialisers: no user is known yet and no errors are shown. */
    constructor ()
      ensures Values() == Initial
      ensures errors == [] && userId == None
    {
      title := "";
      servings := Some(0);
      selectedCategory := "";
      totalTimeMinutes := Some(0);
      stepsDescription := "";
      ingredients := [EmptyIngredient];
      hasImage := false;
      errors := [];
      userId := None;
    }

    // The `onChange` handlers of the inputs store the new value as it is;
    // the two numeric ones store what `parseInt` made of the text.

    method SetTitle(value: string)
      modifies this`title
      ensures title == value
    {
      title := value;
    }

    method SetServings(parsed: Option<int>)
      modifies this`servings
      ensures servings == parsed
    {
      servings := parsed;
    }

    method SetSelectedCategory(value: string)
      modifies this`selectedCategory
      ensures selectedCategory == value
    {
      selectedCategory := value;
    }

    method SetTotalTimeMinutes(parsed: Option<int>)
      modifies this`totalTimeMinutes
      ensures totalTimeMinutes == parsed
    {
      totalTimeMinutes := parsed;
    }

    method SetStepsDescription(value: string)
      modifies this`stepsDescription
      ensures stepsDescription == value
    {
      stepsDescription := value;
    }

    /** Closing the alert empties the shown list. */
    method DismissErrors()
      modifies this`errors
      ensures errors == []
    {
      errors := [];
    }

    /**
     * The required-field check: collects the labels of the missing fields in
     * order, shows them in `errors` and answers whether there were none.
     */
    method ValidateForm() returns (valid: bool)
      modifies this`errors
      ensures errors == ErrorList(Values())
      ensures valid <==> errors == []
      ensures valid <==> Complete(Values())
    {
      var missingFields := CollectMissingFields(Values());
      ErrorListEmptyIff(Values());

      if |missingFields| > 0 {
        errors := missingFields;
        return false;
      }
      errors := [];
      return true;
    }

    /** Appends one empty row; every earlier row stays as it was. */
    method AddIngredientField()
      modifies this`ingredients
      ensures ingredients == old(ingredients) + [EmptyIngredient]
      ensures |ingredients| == |old(ingredients)| + 1
      ensures ingredients[..|old(ingredients)|] == old(ingredients)
    {
      ingredients := ingredients + [EmptyIngredient];
    }

    /**
     * Keeps every row whose position is not `index`: the row at a valid
     * position is removed, any other index leaves the list as it is.
     */
    method RemoveIngredientField(index: int)
      modifies this`ingredients
      ensures 0 <= index < |old(ingredients)| ==>
        ingredients == old(ingredients)[..index] + old(ingredients)[index + 1..]
      ensures 0 <= index < |old(ingredients)| ==> |ingredients| == |old(ingredients)| - 1
      ensures !(0 <= index < |old(ingredients)|) ==> ingredients == old(ingredients)
    {
      WithoutPositionRemovesOne(ingredients, index);
      ingredients := WithoutPosition(ingredients, index);
    }

    /**
     * Copies the list and sets `field` of the row at `index` to `value`.
     * The index always comes from the rendered rows, so it is a position of
     * the list.
     */
    method HandleIngredientChange(index: nat, field: IngredientField, value: string)
      requires index < |ingredients|
      modifies this`ingredients
      ensures |ingredients| == |old(ingredients)|
      ensures forall k :: 0 <= k < |ingredients| && k != index ==> ingredients[k] == old(ingredients)[k]
      ensures field == Name ==> ingredients[index] == Ingredient(value, old(ingredients)[index].quantity)
      ensures field == Quantity ==> ingredients[index] == Ingredient(old(ingredients)[index].name, value)
    {
      var updatedIngredients := ingredients;
      updatedIngredients := updatedIngredients[index := WithField(updatedIngredients[index], field, value)];
      ingredients := updatedIngredients;
    }

    /** A chosen file replaces the image; an empty file selection changes nothing. */
    method HandleImageChange(fileChosen: bool)
      modifies this`hasImage
      ensures hasImage == (old(hasImage) || fileChosen)
    {
      if fileChosen {
        hasImage := true;
      }
    }

    /**
     * The decision part of the session check: `sessionUserId` is the user id
     * the session lookup produced (`None` on an error or without a session).
     * Only a truthy id is stored.
     */
    method CheckUserSession(sessionUserId: Option<string>)
      modifies this`userId
      ensures SignedIn(sessionUserId) ==> userId == sessionUserId
      ensures !SignedIn(sessionUserId) ==> userId == old(userId)
    {
      if sessionUserId == None || sessionUserId.value == "" {
        return;
      }
      userId := sessionUserId;
    }

    /**
     * Submit: runs the required-field check and stops when it fails or no
     * user is signed in. Otherwise the recipe is handed on (`request`) and
     * every field returns to its initial value.
     */
    method HandleSubmit() returns (request: Option<RecipeRequest>)
      modifies this
      ensures errors == ErrorList(old(Values()))
      ensures userId == old(userId)
      ensures request.Some? <==> Complete(old(Values())) && SignedIn(userId)
      ensures request.Some? <==> errors == [] && SignedIn(userId)
      ensures request.None? ==> Values() == old(Values())
      ensures request.Some? ==> Values() == Initial
      ensures request.Some? ==> request.value == RecipeRequest(
        old(title), old(servings), old(selectedCategory), old(totalTimeMinutes),
        old(stepsDescription), old(ingredients), userId.value)
    {
      var valid := ValidateForm();
      if !valid || !SignedIn(userId) {
        return None;
      }

      // Cropping, the image upload and the recipe insert happen here.
      request := Some(RecipeRequest(title, servings, selectedCategory, totalTimeMinutes,
                                    stepsDescription, ingredients, userId.value));

      title := "";
      ingredients := [EmptyIngredient];
      servings := Some(0);
      selectedCategory := "";
      totalTimeMinutes := Some(0);
      stepsDescription := "";
      hasImage := false;
    }
  }

  /** A fresh form, submitted at once, is blocked and shows all six labels. */
  method SubmitUntouchedForm() {
    var form := new RecipeForm();
    form.CheckUserSession(Some("user-1"));
    InitialMissesEverything();
    var request := form.HandleSubmit();
    assert request == None;
    assert form.errors ==
      ["Pealkiri", "Koostisosa ja kogus", "Portsjonite arv", "Kategooria", "Valmistusaeg", "Valmistusjuhend"];
    assert form.Values() == Initial;
  }

  /** A filled-in form of a signed-in user goes through once and is then cleared. */
  method SubmitFilledForm() {
    var form := new RecipeForm();
    form.CheckUserSession(Some("user-1"));
    form.SetTitle("Supp");
    form.HandleIngredientChange(0, Name, "sool");
    form.HandleIngredientChange(0, Quantity, "1tl");
    form.SetServings(Some(2));
    form.SetSelectedCategory("1");
    form.SetTotalTimeMinutes(Some(30));
    form.SetStepsDescription("Keeda.");
    assert form.ingredients == [Ingredient("sool", "1tl")];
    assert !Incomplete(form.ingredients[0]);
    var request := form.HandleSubmit();
    assert request == Some(RecipeRequest("Supp", Some(2), "1", Some(30), "Keeda.", [Ingredient("sool", "1tl")], "user-1"));
    assert form.errors == [] && form.Values() == Initial;

    // The cleared form is blocked until it is filled in again.
    InitialMissesEverything();
    request := form.HandleSubmit();
    assert request == None && |form.errors| == 6;
  }
}
