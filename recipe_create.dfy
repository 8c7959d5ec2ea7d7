/** The "create recipe" screen (app/recipes/create.tsx): the form's state, the
    validation chain that runs before anything is saved, the rows sent to
    the database, and `handleSave`, which reads the stored user token and
    inserts the recipe, its ingredients and its steps one after the other.
    The outside calls (AsyncStorage and the three inserts) are inputs: what
    each awaited call resolved with, or that it threw. */
module RecipeCreate {
  import opened Wrappers
  import opened JsText
  import opened IngredientsForm
  import opened StepsForm

  /** The category picker's entries; the first is the initial category. */
  const Categories: seq<string> := ["막걸리", "맥주", "와인", "기타"]

  /** The id written as `user_id` when no user token is stored. */
  const TempUserId: string := "temp-user-id"

  /** What the screen's state holds when `handleSave` runs. */
  datatype Form = Form(
    title: string,
    description: string,
    category: string,
    isPublic: bool,
    ingredients: seq<Ingredient>,
    steps: seq<Step>)

  // ------------------------------------------------------- validation

  /** The four checks `handleSave` makes, each with its own alert. */
  datatype FormError = TitleMissing | CategoryMissing | EmptyIngredient | EmptyStep

  /** `ingredients.some(ing => !ing.name.trim())`. */
  predicate HasEmptyIngredient(ings: seq<Ingredient>)
  {
    exists i :: 0 <= i < |ings| && Trim(ings[i].name) == ""
  }

  /** `steps.some(step => !step.description.trim())`. */
  predicate HasEmptyStep(steps: seq<Step>)
  {
    exists i :: 0 <= i < |steps| && Trim(steps[i].description) == ""
  }

  /** The first check that fails, in the order title, category, ingredients,
      steps; `None` when the form may be saved. */
  function Validate(f: Form): (r: Option<FormError>)
    ensures r == Some(TitleMissing) <==> Trim(f.title) == ""
    ensures r == Some(CategoryMissing) <==> Trim(f.title) != "" && f.category == ""
    ensures r == Some(EmptyIngredient) <==>
              Trim(f.title) != "" && f.category != "" && HasEmptyIngredient(f.ingredients)
    ensures r == Some(EmptyStep) <==>
              && Trim(f.title) != "" && f.category != "" && !HasEmptyIngredient(f.ingredients)
              && HasEmptyStep(f.steps)
  {
    if Trim(f.title) == "" then Some(TitleMissing)
    else if f.category == "" then Some(CategoryMissing)
    else if HasEmptyIngredient(f.ingredients) then Some(EmptyIngredient)
    else if HasEmptyStep(f.steps) then Some(EmptyStep)
    else None
  }

  /** The form passes validation exactly when the title, every ingredient
      name and every step description hold a character that is not
      whitespace and a category is chosen; the title check fails exactly on
      a title of whitespace only. */
  lemma ValidateByContent(f: Form)
    ensures Validate(f) == Some(TitleMissing) <==> IsBlank(f.title)
    ensures Validate(f).None? <==>
              && !IsBlank(f.title) && f.category != ""
              && (forall i :: 0 <= i < |f.ingredients| ==> !IsBlank(f.ingredients[i].name))
              && (forall i :: 0 <= i < |f.steps| ==> !IsBlank(f.steps[i].description))
  {
    TrimEmptyIffBlank(f.title);
    forall i | 0 <= i < |f.ingredients| {
      TrimEmptyIffBlank(f.ingredients[i].name);
    }
    forall i | 0 <= i < |f.steps| {
      TrimEmptyIffBlank(f.steps[i].description);
    }
  }

  // ---------------------------------------------------------- payload

  /** The row inserted into `recipes`. */
  datatype RecipeRow = RecipeRow(title: string, description: string, category: string, is_public: bool, user_id: string)

  /** A row inserted into `ingredients`: the recipe's id and the ingredient's
      name, amount and unit. */
  datatype IngredientRow = IngredientRow(recipe_id: string, name: string, amount: string, unit: string)

  /** A row inserted into `steps`, with the step's 1-based position. */
  datatype StepRow = StepRow(recipe_id: string, description: string, days: string, order: int)

  /** `userToken || "temp-user-id"`. */
  function UserId(token: Option<string>): (r: string)
    ensures TruthyString(token) ==> r == token.value
    ensures !TruthyString(token) ==> r == TempUserId
  {
    if TruthyString(token) then token.value else TempUserId
  }

  function RecipeRowOf(f: Form, token: Option<string>): RecipeRow
  {
    RecipeRow(f.title, f.description, f.category, f.isPublic, UserId(token))
  }

  function IngredientRowOf(recipeId: string, ing: Ingredient): IngredientRow
  {
    IngredientRow(recipeId, ing.name, ing.amount, ing.unit)
  }

  /** `ingredients.map(ing => ({ recipe_id, name, amount, unit }))`. */
  function IngredientPayload(recipeId: string, ings: seq<Ingredient>): (r: seq<IngredientRow>)
    ensures |r| == |ings|
    ensures forall i :: 0 <= i < |ings| ==> r[i] == IngredientRowOf(recipeId, ings[i])
  {
    seq(|ings|, i requires 0 <= i < |ings| => IngredientRowOf(recipeId, ings[i]))
  }

  /** `steps.map((step, index) => ({ recipe_id, description, days, order: index + 1 }))`. */
  function StepPayload(recipeId: string, steps: seq<Step>): (r: seq<StepRow>)
    ensures |r| == |steps|
    ensures forall i :: 0 <= i < |steps| ==>
              r[i] == StepRow(recipeId, steps[i].description, steps[i].days, i + 1)
  {
    seq(|steps|, i requires 0 <= i < |steps| => StepRow(recipeId, steps[i].description, steps[i].days, i + 1))
  }

  /** The ingredient rows follow the list: the payload of a concatenation is
      the concatenation of the payloads. */
  lemma IngredientPayloadConcat(recipeId: string, a: seq<Ingredient>, b: seq<Ingredient>)
    ensures IngredientPayload(recipeId, a + b)
            == IngredientPayload(recipeId, a) + IngredientPayload(recipeId, b)
  {
    var r, ra, rb := IngredientPayload(recipeId, a + b), IngredientPayload(recipeId, a), IngredientPayload(recipeId, b);
    forall i | 0 <= i < |a + b| ensures r[i] == (ra + rb)[i] {
      if i < |a| {
        assert (a + b)[i] == a[i];
      } else {
        assert (a + b)[i] == b[i - |a|];
      }
    }
  }

  /** The rows do not depend on a row's id or on its unit mode: lists that
      agree on names, amounts and units give the same rows. */
  lemma IngredientPayloadDropsIdAndMode(recipeId: string, a: seq<Ingredient>, b: seq<Ingredient>)
    requires |a| == |b|
    requires forall i :: 0 <= i < |a| ==>
               a[i].name == b[i].name && a[i].amount == b[i].amount && a[i].unit == b[i].unit
    ensures IngredientPayload(recipeId, a) == IngredientPayload(recipeId, b)
  {
  }

  /** The orders of the step rows, in list order. */
  function Orders(rows: seq<StepRow>): (r: seq<int>)
    ensures |r| == |rows| && forall i :: 0 <= i < |rows| ==> r[i] == rows[i].order
  {
    seq(|rows|, i requires 0 <= i < |rows| => rows[i].order)
  }

  /** The step rows are numbered 1 … n in list order, so the orders are
      distinct and increasing. */
  lemma StepOrdersOneToN(recipeId: string, steps: seq<Step>)
    ensures Orders(StepPayload(recipeId, steps)) == seq(|steps|, i => i + 1)
    ensures forall i, j :: 0 <= i < j < |steps| ==>
              StepPayload(recipeId, steps)[i].order < StepPayload(recipeId, steps)[j].order
  {
  }

  /** Appending a step appends one row, numbered one past the others. */
  lemma StepPayloadAppend(recipeId: string, steps: seq<Step>, s: Step)
    ensures StepPayload(recipeId, steps + [s])
            == StepPayload(recipeId, steps) + [StepRow(recipeId, s.description, s.days, |steps| + 1)]
  {
    var r, before := StepPayload(recipeId, steps + [s]), StepPayload(recipeId, steps);
    forall i | 0 <= i < |steps| ensures r[i] == before[i] {
      assert (steps + [s])[i] == steps[i];
    }
  }

  // ------------------------------------------------------------- save

  /** An outside call `handleSave` makes, in the order it makes them. */
  datatype Call =
    | ReadToken
    | InsertRecipe(recipe: RecipeRow)
    | InsertIngredients(ingredientRows: seq<IngredientRow>)
    | InsertSteps(stepRows: seq<StepRow>)

  /** The alert `handleSave` ends with: a validation notice, the success
      alert (whose button goes back), or the error alert of the `catch`. */
  datatype Alert = Notice(error: FormError) | Saved | SaveFailed

  datatype AlertText = AlertText(title: string, message: string)

  function TextOf(a: Alert): AlertText
  {
    match a
    case Notice(TitleMissing) => AlertText("알림", "레시피 제목을 입력해주세요.")
    case Notice(CategoryMissing) => AlertText("알림", "카테고리를 선택해주세요.")
    case Notice(EmptyIngredient) =>
      AlertText("알림", "비어있는 재료가 있습니다. 모든 재료명을 입력하거나 불필요한 항목을 삭제해주세요.")
    case Notice(EmptyStep) =>
      AlertText("알림", "비어있는 단계가 있습니다. 모든 단계를 입력하거나 불필요한 항목을 삭제해주세요.")
    case Saved => AlertText("성공", "레시피가 저장되었습니다.")
    case SaveFailed => AlertText("오류", "레시피 저장 중 오류가 발생했습니다. 다시 시도해주세요.")
  }

  /** One run of `handleSave`: the calls it made, the alert it showed, and
      whether it got as far as setting `isSaving`. */
  datatype SaveRun = SaveRun(calls: seq<Call>, alert: Alert, setSaving: bool)

  /** What `handleSave` does on form `f`, given how each awaited call ends.
      `recipeSave` resolving with `None` is an insert that returned no row:
      reading `.id` of `undefined` throws, as the other failures do. */
  function Save(f: Form, token: Async<Option<string>>, recipeSave: Async<Option<string>>,
                ingredientSave: Async<()>, stepSave: Async<()>): SaveRun
  {
    match Validate(f)
    case Some(e) => SaveRun([], Notice(e), false)
    case None => Awaited(f, token, recipeSave, ingredientSave, stepSave)
  }

  /** The awaited part of `handleSave`, after the checks passed: read the
      token, insert the recipe, then its ingredients, then its steps,
      stopping at the first call that throws (the `catch`). */
  function Awaited(f: Form, token: Async<Option<string>>, recipeSave: Async<Option<string>>,
                   ingredientSave: Async<()>, stepSave: Async<()>): SaveRun
  {
    if token.Throws? then SaveRun([ReadToken], SaveFailed, true)
    else
      var recipe := InsertRecipe(RecipeRowOf(f, token.value));
      if recipeSave.Throws? || recipeSave.value.None? then SaveRun([ReadToken, recipe], SaveFailed, true)
      else
        var id := recipeSave.value.value;
        var ings := InsertIngredients(IngredientPayload(id, f.ingredients));
        if ingredientSave.Throws? then SaveRun([ReadToken, recipe, ings], SaveFailed, true)
        else
          var steps := InsertSteps(StepPayload(id, f.steps));
          SaveRun([ReadToken, recipe, ings, steps], if stepSave.Throws? then SaveFailed else Saved, true)
  }

  /** A form that fails validation makes no call at all and shows that
      check's notice; a form that passes always reads the token first. */
  lemma SaveValidatesFirst(f: Form, token: Async<Option<string>>, recipeSave: Async<Option<string>>,
                           ingredientSave: Async<()>, stepSave: Async<()>)
    ensures var run := Save(f, token, recipeSave, ingredientSave, stepSave);
            && (run.calls == [] <==> Validate(f).Some?)
            && (Validate(f).Some? ==> run.alert == Notice(Validate(f).value) && !run.setSaving)
            && (Validate(f).None? ==> run.calls[0] == ReadToken && run.setSaving && !run.alert.Notice?)
  {
  }

  /** The save succeeds exactly when the form is valid and every awaited
      call succeeds; then the recipe, its ingredient rows and its step rows
      are inserted, in that order, under the new recipe's id. */
  lemma SaveSucceedsIff(f: Form, token: Async<Option<string>>, recipeSave: Async<Option<string>>,
                        ingredientSave: Async<()>, stepSave: Async<()>)
    ensures var run := Save(f, token, recipeSave, ingredientSave, stepSave);
            run.alert == Saved <==>
              && Validate(f).None? && token.Resolves? && recipeSave.Resolves?
              && recipeSave.value.Some? && ingredientSave.Resolves? && stepSave.Resolves?
    ensures var run := Save(f, token, recipeSave, ingredientSave, stepSave);
            run.alert == Saved ==>
              var id := recipeSave.value.value;
              run.calls == [ReadToken, InsertRecipe(RecipeRowOf(f, token.value)),
                            InsertIngredients(IngredientPayload(id, f.ingredients)),
                            InsertSteps(StepPayload(id, f.steps))]
  {
  }

  /** Every insert carries what the source promises: the recipe row the
      stored token's user id, every ingredient and step row the id of the
      inserted recipe; and no ingredient or step is inserted unless the
      recipe insert returned a row. */
  lemma SaveInsertsAreConsistent(f: Form, token: Async<Option<string>>, recipeSave: Async<Option<string>>,
                                 ingredientSave: Async<()>, stepSave: Async<()>, k: nat)
    requires k < |Save(f, token, recipeSave, ingredientSave, stepSave).calls|
    ensures var c := Save(f, token, recipeSave, ingredientSave, stepSave).calls[k];
            && (c.InsertRecipe? ==> token.Resolves? && c.recipe.user_id == UserId(token.value))
            && (c.InsertIngredients? || c.InsertSteps? ==> recipeSave.Resolves? && recipeSave.value.Some?)
            && (c.InsertIngredients? ==> forall j :: 0 <= j < |c.ingredientRows| ==>
                  c.ingredientRows[j].recipe_id == recipeSave.value.value)
            && (c.InsertSteps? ==> forall j :: 0 <= j < |c.stepRows| ==>
                  c.stepRows[j].recipe_id == recipeSave.value.value && c.stepRows[j].order == j + 1)
  {
    if Validate(f).None? {
      AwaitedInsertsAreConsistent(f, token, recipeSave, ingredientSave, stepSave, k);
    }
  }

  /** The same facts about the awaited part alone. */
  lemma AwaitedInsertsAreConsistent(f: Form, token: Async<Option<string>>, recipeSave: Async<Option<string>>,
                                    ingredientSave: Async<()>, stepSave: Async<()>, k: nat)
    requires k < |Awaited(f, token, recipeSave, ingredientSave, stepSave).calls|
    ensures var c := Awaited(f, token, recipeSave, ingredientSave, stepSave).calls[k];
            && (c.InsertRecipe? ==> token.Resolves? && c.recipe.user_id == UserId(token.value))
            && (c.InsertIngredients? || c.InsertSteps? ==> recipeSave.Resolves? && recipeSave.value.Some?)
            && (c.InsertIngredients? ==> forall j :: 0 <= j < |c.ingredientRows| ==>
                  c.ingredientRows[j].recipe_id == recipeSave.value.value)
            && (c.InsertSteps? ==> forall j :: 0 <= j < |c.stepRows| ==>
                  c.stepRows[j].recipe_id == recipeSave.value.value && c.stepRows[j].order == j + 1)
  {
  }

  /** The awaited calls of `handleSave`, step by step, as `Awaited`
      describes them. */
  method Persist(f: Form, token: Async<Option<string>>, recipeSave: Async<Option<string>>,
                 ingredientSave: Async<()>, stepSave: Async<()>) returns (made: seq<Call>, alert: Alert)
    ensures made == Awaited(f, token, recipeSave, ingredientSave, stepSave).calls
    ensures alert == Awaited(f, token, recipeSave, ingredientSave, stepSave).alert
  {
    made := [ReadToken];
    alert := SaveFailed;
    if token.Resolves? {
      made := made + [InsertRecipe(RecipeRowOf(f, token.value))];
      if recipeSave.Resolves? && recipeSave.value.Some? {
        var recipeId := recipeSave.value.value;
        made := made + [InsertIngredients(IngredientPayload(recipeId, f.ingredients))];
        if ingredientSave.Resolves? {
          made := made + [InsertSteps(StepPayload(recipeId, f.steps))];
          if stepSave.Resolves? {
            alert := Saved;
          }
        }
      }
    }
  }

  /** The checks of `handleSave` with their early return, then the awaited
      calls of `Persist`, as `Save` describes them. */
  method PerformSave(f: Form, token: Async<Option<string>>, recipeSave: Async<Option<string>>,
                 ingredientSave: Async<()>, stepSave: Async<()>) returns (run: SaveRun)
    ensures run == Save(f, token, recipeSave, ingredientSave, stepSave)
  {
    var check := Validate(f);
    if check.Some? {
      run := SaveRun([], Notice(check.value), false);
    } else {
      var made, alert := Persist(f, token, recipeSave, ingredientSave, stepSave);
      run := SaveRun(made, alert, true);
      assert run == Awaited(f, token, recipeSave, ingredientSave, stepSave);
    }
  }

  /** The screen. The setters of the basic-info inputs and of the two lists
      are plain assignments and are not modelled one by one; `calls` and
      `alerts` record what `handleSave` asked of the outside world, and
      `savingTrace` every value it gave `isSaving`. */
  class CreateRecipeScreen {
    var title: string
    var description: string
    var category: string
    var isPublic: bool
    var isSaving: bool
    var ingredients: seq<Ingredient>
    var steps: seq<Step>
    var calls: seq<Call>
    var alerts: seq<Alert>
    ghost var savingTrace: seq<bool>

    /** The state when the screen opens. */
    constructor ()
      ensures title == "" && description == "" && category == Categories[0] && isPublic && !isSaving
      ensures ingredients == [BlankIngredient("1")] && steps == [BlankStep("1")]
      ensures calls == [] && alerts == [] && savingTrace == []
    {
      title, description, category, isPublic, isSaving := "", "", Categories[0], true, false;
      ingredients, steps := [BlankIngredient("1")], [BlankStep("1")];
      calls, alerts, savingTrace := [], [], [];
    }

    /** `handleSave` on the screen's form: `PerformSave` makes the checks and
        the awaited calls; the screen records the calls and the alert, has
        `isSaving` set once the checks passed, and clears it in `finally` on
        every path. */
    method HandleSave(token: Async<Option<string>>, recipeSave: Async<Option<string>>,
                      ingredientSave: Async<()>, stepSave: Async<()>)
      modifies this
      ensures var run := Save(Form(old(title), old(description), old(category), old(isPublic), old(ingredients), old(steps)),
                             token, recipeSave, ingredientSave, stepSave);
              && calls == old(calls) + run.calls
              && alerts == old(alerts) + [run.alert]
              && savingTrace == old(savingTrace) + (if run.setSaving then [true, false] else [false])
      ensures !isSaving
      ensures title == old(title) && description == old(description) && category == old(category)
      ensures isPublic == old(isPublic) && ingredients == old(ingredients) && steps == old(steps)
    {
      var f := Form(title, description, category, isPublic, ingredients, steps);
      var run := PerformSave(f, token, recipeSave, ingredientSave, stepSave);
      calls := calls + run.calls;
      alerts := alerts + [run.alert];
      if run.setSaving {
        isSaving := true;
        savingTrace := savingTrace + [true];
      }
      isSaving := false;
      savingTrace := savingTrace + [false];
    }
  }
}
