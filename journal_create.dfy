/** The journal creation screen (app/journals/create.tsx): the colours shown
    for the selected recipe, the stages offered for it, and the recipe
    selector. `selectedRecipe` is a JavaScript `number | null`, read for its
    truthiness, so the id 0 counts as "nothing selected". The date label is
    `DateText.FormatDate`, the same template as the event screen's. */
module JournalCreate {
  import opened Wrappers

  datatype ColorInfo = ColorInfo(bg: string, text: string, icon: string)
  datatype Stage = Stage(id: int, name: string, duration: string)
  datatype Recipe = Recipe(id: int, title: string, kind: string, days: int, progress: int, stages: seq<Stage>)

  /** The type whose colours stand in when there is nothing better. */
  const FallbackType: string := "전통주"

  /** The colour table of the screen. */
  const RecipeColors: map<string, ColorInfo> := map[
    "막걸리" := ColorInfo("#e7f7ee", "#56bb7f", "beer-outline"),
    "과실주" := ColorInfo("#ffeee6", "#e8845e", "leaf-outline"),
    "약주/청주" := ColorInfo("#f4e8ff", "#a47ad1", "flask-outline"),
    "전통주" := ColorInfo("#e6f2fe", "#4a91db", "wine-outline")
  ]

  /** The two recipes the screen offers. */
  const Recipes: seq<Recipe> := [
    Recipe(1, "전통 막걸리", "막걸리", 7, 45, [
      Stage(1, "쌀을 불린다", "8 시간"), Stage(2, "죽을 쑨다", "2 시간"),
      Stage(3, "밑술을 한다", "3 일"), Stage(4, "덧술을 한다", "720 개월")]),
    Recipe(2, "매실주", "과실주", 30, 25, [
      Stage(1, "매실 세척", "1 시간"), Stage(2, "설탕 및 매실 투입", "1 일"), Stage(3, "숙성", "30 일")])
  ]

  /** A truthy `number | null`: present and not 0. */
  predicate Selected(sel: Option<int>)
  {
    sel.Some? && sel.value != 0
  }

  /** `recipes.find((r) => r.id === id)`: the first recipe with that id. */
  function Find(recipes: seq<Recipe>, id: int): (r: Option<Recipe>)
    ensures r.None? <==> forall k :: 0 <= k < |recipes| ==> recipes[k].id != id
    ensures r.Some? ==> exists k :: 0 <= k < |recipes| && recipes[k] == r.value
                                  && r.value.id == id
                                  && forall j :: 0 <= j < k ==> recipes[j].id != id
  {
    if recipes == [] then None
    else if recipes[0].id == id then Some(recipes[0])
    else
      var r := Find(recipes[1..], id);
      if r.Some? then
        ghost var k :| 0 <= k < |recipes| - 1 && recipes[1..][k] == r.value && r.value.id == id
                    && forall j :: 0 <= j < k ==> recipes[1..][j].id != id;
        assert recipes[k + 1] == r.value;
        r
      else r
  }

  /** `getRecipeColorInfo()`: the fallback's colours when nothing is
      selected; otherwise the colours of the type of the selected recipe,
      where an unknown id, an empty type or a type missing from the table
      falls back as well. */
  function ColorInfoFor(sel: Option<int>, recipes: seq<Recipe>, colors: map<string, ColorInfo>): ColorInfo
    requires FallbackType in colors
  {
    if !Selected(sel) then colors[FallbackType]
    else
      var found := Find(recipes, sel.value);
      var kind := if found.Some? && found.value.kind != "" then found.value.kind else FallbackType;
      if kind in colors then colors[kind] else colors[FallbackType]
  }

  /** `selectedRecipeStages`: no stages when nothing is selected or the id
      is unknown, otherwise the stages of the selected recipe. */
  function StagesFor(sel: Option<int>, recipes: seq<Recipe>): seq<Stage>
  {
    if !Selected(sel) then []
    else
      match Find(recipes, sel.value)
      case None => []
      case Some(r) => r.stages
  }

  /** The colour lookup: the fallback unless a known recipe with a
      non-empty, tabulated type is selected, and that type's colours when
      it is. */
  lemma ColorInfoSpec(sel: Option<int>, recipes: seq<Recipe>, colors: map<string, ColorInfo>)
    requires FallbackType in colors
    ensures var info := ColorInfoFor(sel, recipes, colors);
            && (!Selected(sel) ==> info == colors[FallbackType])
            && (Selected(sel) ==>
                  var found := Find(recipes, sel.value);
                  && (found.None? ==> info == colors[FallbackType])
                  && (found.Some? && (found.value.kind == "" || found.value.kind !in colors) ==>
                        info == colors[FallbackType])
                  && (found.Some? && found.value.kind != "" && found.value.kind in colors ==>
                        info == colors[found.value.kind]))
  {
  }

  /** The stages shown are those of the first recipe with the selected id,
      and there are none when nothing is selected or no recipe has it. */
  lemma StagesSpec(sel: Option<int>, recipes: seq<Recipe>)
    ensures !Selected(sel) ==> StagesFor(sel, recipes) == []
    ensures Selected(sel) && (forall k :: 0 <= k < |recipes| ==> recipes[k].id != sel.value) ==>
              StagesFor(sel, recipes) == []
    ensures forall k :: Selected(sel) && 0 <= k < |recipes| && recipes[k].id == sel.value
                        && (forall j :: 0 <= j < k ==> recipes[j].id != sel.value) ==>
              StagesFor(sel, recipes) == recipes[k].stages
  {
    forall k | Selected(sel) && 0 <= k < |recipes| && recipes[k].id == sel.value
               && (forall j :: 0 <= j < k ==> recipes[j].id != sel.value)
      ensures StagesFor(sel, recipes) == recipes[k].stages
    {
      var found := Find(recipes, sel.value);
      var k' :| 0 <= k' < |recipes| && recipes[k'] == found.value && found.value.id == sel.value
                && forall j :: 0 <= j < k' ==> recipes[j].id != sel.value;
      assert k' == k;
    }
  }

  /** On the screen's own data: recipe 1 shows the 막걸리 colours and its
      four stages, recipe 2 the 과실주 colours, and no selection the
      전통주 colours and no stages. */
  lemma ScreenData()
    ensures ColorInfoFor(Some(1), Recipes, RecipeColors) == RecipeColors["막걸리"]
    ensures ColorInfoFor(Some(2), Recipes, RecipeColors) == RecipeColors["과실주"]
    ensures ColorInfoFor(None, Recipes, RecipeColors) == RecipeColors[FallbackType]
    ensures |StagesFor(Some(1), Recipes)| == 4 && StagesFor(None, Recipes) == []
  {
    assert Find(Recipes, 1) == Some(Recipes[0]);
    assert Find(Recipes, 2) == Some(Recipes[1]) by {
      assert Recipes[1..][0] == Recipes[1];
    }
  }

  /** The selector: `selectedRecipe === 1 ? null : 1`. */
  function ToggleRecipe(sel: Option<int>): (r: Option<int>)
    ensures sel == Some(1) <==> r.None?
    ensures r.Some? ==> r.value == 1
  {
    if sel == Some(1) then None else Some(1)
  }

  /** After a first tap the selection alternates between recipe 1 and none:
      two taps give back a selection of recipe 1 or none. */
  lemma ToggleRecipeTwice(sel: Option<int>)
    ensures sel == None || sel == Some(1) ==> ToggleRecipe(ToggleRecipe(sel)) == sel
    ensures ToggleRecipe(ToggleRecipe(ToggleRecipe(sel))) == ToggleRecipe(sel)
  {
  }
}
