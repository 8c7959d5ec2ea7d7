/** The ingredient list of the recipe editor (components/recipe/IngredientsForm.tsx):
    adding, removing and editing rows, the unit picker, and the table of
    input refs for custom units. The list operations are functions on the
    list (the component replaces the whole list with their result); the
    component's own modal state and ref table form the class `FormState`. */
module IngredientsForm {
  import opened Wrappers
  import opened JsText
  import opened IdLists

  datatype Ingredient = Ingredient(id: string, name: string, amount: string, unit: string, isCustomUnit: bool)

  function IdOf(ing: Ingredient): string
  {
    ing.id
  }

  /** The fields an `updateIngredient` call can name (`keyof Ingredient`). */
  datatype Field = Id | Name | Amount | Unit | IsCustomUnit

  /** A well-typed `updateIngredient(id, field, value)`: the field and its
      new value. */
  datatype Edit =
    | SetId(text: string)
    | SetName(text: string)
    | SetAmount(text: string)
    | SetUnit(text: string)
    | SetCustomUnit(flag: bool)

  function EditedField(e: Edit): Field
  {
    match e
    case SetId(_) => Id
    case SetName(_) => Name
    case SetAmount(_) => Amount
    case SetUnit(_) => Unit
    case SetCustomUnit(_) => IsCustomUnit
  }

  /** `a` and `b` agree on field `f`. */
  predicate SameField(a: Ingredient, b: Ingredient, f: Field)
  {
    match f
    case Id => a.id == b.id
    case Name => a.name == b.name
    case Amount => a.amount == b.amount
    case Unit => a.unit == b.unit
    case IsCustomUnit => a.isCustomUnit == b.isCustomUnit
  }

  /** The field named by `e` holds `e`'s value in `ing`. */
  predicate Holds(ing: Ingredient, e: Edit)
  {
    match e
    case SetId(s) => ing.id == s
    case SetName(s) => ing.name == s
    case SetAmount(s) => ing.amount == s
    case SetUnit(s) => ing.unit == s
    case SetCustomUnit(b) => ing.isCustomUnit == b
  }

  /** `{ ...ing, [field]: value }`. */
  function ApplyEdit(ing: Ingredient, e: Edit): (r: Ingredient)
    ensures Holds(r, e)
    ensures forall f :: f != EditedField(e) ==> SameField(ing, r, f)
  {
    match e
    case SetId(s) => ing.(id := s)
    case SetName(s) => ing.(name := s)
    case SetAmount(s) => ing.(amount := s)
    case SetUnit(s) => ing.(unit := s)
    case SetCustomUnit(b) => ing.(isCustomUnit := b)
  }

  /** The unit-picker entry that switches a row to a typed-in unit. */
  const CustomUnitOption: string := "직접 입력"

  /** The entries of the unit picker, in display order. */
  const CommonUnits: seq<string> := ["g", "kg", "ml", "L", "개", "Tbsp", "tsp", CustomUnitOption]

  /** A fresh row: empty name and amount, unit "g", picker mode. */
  function BlankIngredient(id: string): Ingredient
  {
    Ingredient(id, "", "", "g", false)
  }

  // ------------------------------------------------------------- add

  /** `addIngredient` as written: append a blank row whose id is
      `String(ingredients.length + 1)`. */
  function AddIngredientAsWritten(ings: seq<Ingredient>): (r: seq<Ingredient>)
    ensures |r| == |ings| + 1 && r[..|ings|] == ings
    ensures r[|ings|] == BlankIngredient(Decimal(|ings| + 1))
  {
    ings + [BlankIngredient(Decimal(|ings| + 1))]
  }

  /** `addIngredient` with the new row's id chosen so that it clashes with no
      existing row (see README, "Findings"). */
  function AddIngredient(ings: seq<Ingredient>): (r: seq<Ingredient>)
    ensures |r| == |ings| + 1 && r[..|ings|] == ings
    ensures r[|ings|] == BlankIngredient(r[|ings|].id)
    ensures r[|ings|].id !in Ids(ings, IdOf)
  {
    ings + [BlankIngredient(FreshId(Ids(ings, IdOf)))]
  }

  /** As long as the ids are "1" … "n" in order (rows only ever appended),
      the corrected add picks the very id the source picks. */
  lemma AddAgreesWhileNumbered(ings: seq<Ingredient>)
    requires Ids(ings, IdOf) == Numbered(|ings|)
    ensures AddIngredient(ings) == AddIngredientAsWritten(ings)
  {
    FreshIdOnNumbered(|ings|);
  }

  /** The corrected add keeps the ids unique. */
  lemma AddKeepsIdsUnique(ings: seq<Ingredient>)
    requires UniqueIds(ings, IdOf)
    ensures UniqueIds(AddIngredient(ings), IdOf)
  {
    var r := AddIngredient(ings);
    forall i | 0 <= i < |ings| ensures r[i].id != r[|ings|].id {
      assert Ids(ings, IdOf)[i] == r[i].id;
    }
  }

  // ---------------------------------------------------------- remove

  /** `removeIngredient(id)`: with more than one row, keep exactly the rows
      whose id differs from `id`; with one row (or none), change nothing. */
  function RemoveIngredient(ings: seq<Ingredient>, id: string): (r: seq<Ingredient>)
    ensures |ings| <= 1 ==> r == ings
    ensures |ings| > 1 ==> forall x :: x in r <==> x in ings && x.id != id
  {
    if |ings| > 1 then Without(ings, IdOf, id) else ings
  }

  /** The remove button of every row is disabled while the list has one row. */
  predicate RemoveDisabled(ings: seq<Ingredient>)
  {
    |ings| == 1
  }

  /** Removal keeps the surviving rows in their order: removing from a
      concatenation is the concatenation of the removals. */
  lemma RemoveKeepsOrder(a: seq<Ingredient>, b: seq<Ingredient>, id: string)
    requires |a + b| > 1
    ensures RemoveIngredient(a + b, id) == Without(a, IdOf, id) + Without(b, IdOf, id)
  {
    WithoutConcat(a, b, IdOf, id);
  }

  /** On a list with unique ids, removal takes out at most one row, so it
      never empties a non-empty list, and leaves the ids unique. */
  lemma RemoveKeepsOneRow(ings: seq<Ingredient>, id: string)
    requires UniqueIds(ings, IdOf) && |ings| >= 1
    ensures |RemoveIngredient(ings, id)| >= |ings| - 1
    ensures |RemoveIngredient(ings, id)| >= 1
    ensures UniqueIds(RemoveIngredient(ings, id), IdOf)
  {
    CountUnique(ings, IdOf, id);
    WithoutUnique(ings, IdOf, id);
  }

  /** As written, the source can empty the list: from the initial row, tap
      "add" twice (ids 1, 2, 3), remove "1", add (the new id is
      String(2 + 1) = "3" again), remove "2", remove "3": both rows carrying
      "3" go at once, although the list had two rows. */
  lemma AsWrittenRemovalEmptiesList()
    ensures var b1, b2, b3 := BlankIngredient("1"), BlankIngredient("2"), BlankIngredient("3");
            && AddIngredientAsWritten(AddIngredientAsWritten([b1])) == [b1, b2, b3]
            && RemoveIngredient([b1, b2, b3], "1") == [b2, b3]
            && AddIngredientAsWritten([b2, b3]) == [b2, b3, b3]
            && !UniqueIds([b2, b3, b3], IdOf)
            && RemoveIngredient([b2, b3, b3], "2") == [b3, b3]
            && RemoveIngredient([b3, b3], "3") == []
  {
    AsWrittenAddsDuplicate();
    AsWrittenRemovals();
  }

  /** The adds of that sequence, as written: the fourth row repeats the id "3". */
  lemma AsWrittenAddsDuplicate()
    ensures var b1, b2, b3 := BlankIngredient("1"), BlankIngredient("2"), BlankIngredient("3");
            && AddIngredientAsWritten(AddIngredientAsWritten([b1])) == [b1, b2, b3]
            && AddIngredientAsWritten([b2, b3]) == [b2, b3, b3]
            && !UniqueIds([b2, b3, b3], IdOf)
  {
    var b1, b2, b3 := BlankIngredient("1"), BlankIngredient("2"), BlankIngredient("3");
    assert Decimal(2) == "2" && Decimal(3) == "3";
    assert IdOf([b2, b3, b3][1]) == IdOf([b2, b3, b3][2]);
  }

  /** The removals of that sequence: each drops every row with the id. */
  lemma AsWrittenRemovals()
    ensures var b1, b2, b3 := BlankIngredient("1"), BlankIngredient("2"), BlankIngredient("3");
            && RemoveIngredient([b1, b2, b3], "1") == [b2, b3]
            && RemoveIngredient([b2, b3, b3], "2") == [b3, b3]
            && RemoveIngredient([b3, b3], "3") == []
  {
    var b1, b2, b3 := BlankIngredient("1"), BlankIngredient("2"), BlankIngredient("3");
    DropFirst(b1, [b2, b3]);
    assert [b1] + [b2, b3] == [b1, b2, b3];
    DropFirst(b2, [b3, b3]);
    assert [b2] + [b3, b3] == [b2, b3, b3];
    DropAll(b3);
  }

  /** Removing the id of the first row when no later row carries it. */
  lemma DropFirst(x: Ingredient, rest: seq<Ingredient>)
    requires |rest| >= 1 && forall i :: 0 <= i < |rest| ==> rest[i].id != x.id
    ensures RemoveIngredient([x] + rest, x.id) == rest
  {
    assert |[x] + rest| > 1;
    assert Without([x], IdOf, x.id) == [] by {
      assert [x][..0] == [];
    }
    WithoutConcat([x], rest, IdOf, x.id);
    WithoutAbsent(rest, IdOf, x.id);
  }

  /** Removing the id of two rows that share it. */
  lemma DropAll(x: Ingredient)
    ensures RemoveIngredient([x, x], x.id) == []
  {
    assert [x, x] == [x] + [x];
    WithoutConcat([x], [x], IdOf, x.id);
  }

  // ---------------------------------------------------------- update

  /** `updateIngredient(id, field, value)`: every row with that id gets the
      new value in that field; nothing else changes. */
  function UpdateIngredient(ings: seq<Ingredient>, id: string, e: Edit): (r: seq<Ingredient>)
    ensures |r| == |ings|
    ensures forall i :: 0 <= i < |ings| && ings[i].id == id ==> Holds(r[i], e)
    ensures forall i, f :: 0 <= i < |ings| && (ings[i].id != id || f != EditedField(e))
              ==> SameField(ings[i], r[i], f)
  {
    MapMatching(ings, IdOf, id, (ing: Ingredient) => ApplyEdit(ing, e))
  }

  /** An edit of any field but the id keeps the list's ids. */
  lemma UpdateKeepsIds(ings: seq<Ingredient>, id: string, e: Edit)
    requires !e.SetId?
    ensures Ids(UpdateIngredient(ings, id, e), IdOf) == Ids(ings, IdOf)
  {
    var r := UpdateIngredient(ings, id, e);
    forall i | 0 <= i < |ings| ensures r[i].id == ings[i].id {
      assert SameField(ings[i], r[i], Id);
    }
  }

  // ------------------------------------------------------ unit picker

  /** The list update of `handleUnitSelection(unit, id)`: choosing the
      custom entry switches the matching rows to a typed-in, empty unit; any
      other entry sets that unit and leaves typed-in mode. Other rows, and
      the ids, names and amounts of matching rows, are unchanged. */
  function SelectUnit(ings: seq<Ingredient>, unit: string, id: string): (r: seq<Ingredient>)
    ensures |r| == |ings|
    ensures forall i :: 0 <= i < |ings| && ings[i].id != id ==> r[i] == ings[i]
    ensures forall i :: 0 <= i < |ings| && ings[i].id == id ==>
              && r[i].id == id && r[i].name == ings[i].name && r[i].amount == ings[i].amount
              && (unit == CustomUnitOption ==> r[i].isCustomUnit && r[i].unit == "")
              && (unit != CustomUnitOption ==> !r[i].isCustomUnit && r[i].unit == unit)
  {
    if unit == CustomUnitOption then
      MapMatching(ings, IdOf, id, (ing: Ingredient) => ing.(isCustomUnit := true, unit := ""))
    else
      MapMatching(ings, IdOf, id, (ing: Ingredient) => ing.(isCustomUnit := false, unit := unit))
  }

  /** Picking a unit is the same as two field edits in a row: the mode flag,
      then the unit text. */
  lemma SelectUnitIsTwoEdits(ings: seq<Ingredient>, unit: string, id: string)
    ensures var custom := unit == CustomUnitOption;
            SelectUnit(ings, unit, id)
            == UpdateIngredient(UpdateIngredient(ings, id, SetCustomUnit(custom)), id,
                                SetUnit(if custom then "" else unit))
  {
    var custom := unit == CustomUnitOption;
    var once := UpdateIngredient(ings, id, SetCustomUnit(custom));
    var twice := UpdateIngredient(once, id, SetUnit(if custom then "" else unit));
    var r := SelectUnit(ings, unit, id);
    forall i | 0 <= i < |ings| ensures r[i] == twice[i] {
      assert SameField(ings[i], once[i], Id);
      assert SameField(once[i], twice[i], Id);
      assert SameField(ings[i], once[i], Name) && SameField(once[i], twice[i], Name);
      assert SameField(ings[i], once[i], Amount) && SameField(once[i], twice[i], Amount);
      assert SameField(once[i], twice[i], IsCustomUnit);
      if ings[i].id != id {
        assert SameField(ings[i], once[i], Unit) && SameField(once[i], twice[i], Unit);
        assert SameField(ings[i], once[i], IsCustomUnit);
      }
    }
  }

  // ------------------------------------------------- component state

  /** The ingredient editor's state: the list it edits (owned by the parent
      screen and replaced wholesale through `setIngredients`), whether the
      unit picker is open, the row it was opened for, and the table of input
      refs for typed-in units (each ref modelled by a number supplied by the
      caller, standing for the object `React.createRef` returns). */
  class FormState {
    var ingredients: seq<Ingredient>
    var showUnitModal: bool
    var selectedIngredientId: Option<string>
    var inputRefs: map<string, nat>

    constructor (initial: seq<Ingredient>)
      ensures ingredients == initial
      ensures !showUnitModal && selectedIngredientId == None && inputRefs == map[]
    {
      ingredients := initial;
      showUnitModal := false;
      selectedIngredientId := None;
      inputRefs := map[];
    }

    /** The "add ingredient" button. */
    method TapAdd()
      modifies this
      ensures ingredients == AddIngredient(old(ingredients))
      ensures showUnitModal == old(showUnitModal) && selectedIngredientId == old(selectedIngredientId)
      ensures inputRefs == old(inputRefs)
    {
      ingredients := AddIngredient(ingredients);
    }

    /** A row's remove button; it cannot be pressed while the list has one
      row, and the handler itself ignores the press then too. */
    method TapRemove(id: string)
      modifies this
      ensures ingredients == RemoveIngredient(old(ingredients), id)
      ensures old(RemoveDisabled(ingredients)) ==> ingredients == old(ingredients)
      ensures showUnitModal == old(showUnitModal) && selectedIngredientId == old(selectedIngredientId)
      ensures inputRefs == old(inputRefs)
    {
      if |ingredients| > 1 {
        ingredients := Without(ingredients, IdOf, id);
      }
    }

    /** Typing into a row's name, amount or custom-unit input. */
    method EditField(id: string, e: Edit)
      modifies this
      ensures ingredients == UpdateIngredient(old(ingredients), id, e)
      ensures showUnitModal == old(showUnitModal) && selectedIngredientId == old(selectedIngredientId)
      ensures inputRefs == old(inputRefs)
    {
      ingredients := UpdateIngredient(ingredients, id, e);
    }

    /** Tapping a row's unit button opens the picker for that row. */
    method OpenUnitModal(id: string)
      modifies this
      ensures showUnitModal && selectedIngredientId == Some(id)
      ensures ingredients == old(ingredients) && inputRefs == old(inputRefs)
    {
      selectedIngredientId := Some(id);
      showUnitModal := true;
    }

    /** `handleUnitSelection(unit, id)`: apply the choice, then close the
        picker and forget the row. */
    method HandleUnitSelection(unit: string, id: string)
      modifies this
      ensures ingredients == SelectUnit(old(ingredients), unit, id)
      ensures !showUnitModal && selectedIngredientId == None
      ensures inputRefs == old(inputRefs)
    {
      ingredients := SelectUnit(ingredients, unit, id);
      showUnitModal := false;
      selectedIngredientId := None;
    }

    /** Tapping an entry of the picker: handled only when a row is selected
        (a truthy id); otherwise nothing at all changes. */
    method TapUnit(unit: string)
      modifies this
      ensures TruthyString(old(selectedIngredientId)) ==>
                && ingredients == SelectUnit(old(ingredients), unit, old(selectedIngredientId).value)
                && !showUnitModal && selectedIngredientId == None
      ensures !TruthyString(old(selectedIngredientId)) ==>
                && ingredients == old(ingredients) && showUnitModal == old(showUnitModal)
                && selectedIngredientId == old(selectedIngredientId)
      ensures inputRefs == old(inputRefs)
    {
      if TruthyString(selectedIngredientId) {
        HandleUnitSelection(unit, selectedIngredientId.value);
      }
    }

    /** The picker's cancel button and the system back gesture. */
    method CloseUnitModal()
      modifies this
      ensures !showUnitModal && selectedIngredientId == None
      ensures ingredients == old(ingredients) && inputRefs == old(inputRefs)
    {
      showUnitModal := false;
      selectedIngredientId := None;
    }

    /** `createInputRef(id)`: the ref stored for the row, creating and storing
        `newRef` the first time the row asks; a stored ref is never replaced. */
    method CreateInputRef(id: string, newRef: nat) returns (r: nat)
      modifies this
      ensures id in old(inputRefs) ==> inputRefs == old(inputRefs) && r == old(inputRefs)[id]
      ensures id !in old(inputRefs) ==> inputRefs == old(inputRefs)[id := newRef] && r == newRef
      ensures ingredients == old(ingredients) && showUnitModal == old(showUnitModal)
      ensures selectedIngredientId == old(selectedIngredientId)
    {
      if id !in inputRefs {
        inputRefs := inputRefs[id := newRef];
      }
      r := inputRefs[id];
    }
  }
}
