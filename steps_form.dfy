/** The brewing-step list of the recipe editor (components/recipe/StepsForm.tsx):
    adding, removing and editing steps and the numbered step labels. Every
    operation builds a new list that wholly replaces the old one. */
module StepsForm {
  import opened JsText
  import opened IdLists

  datatype Step = Step(id: string, description: string, days: string)

  function IdOf(step: Step): string
  {
    step.id
  }

  /** The fields an `updateStep` call can name (`keyof Step`). */
  datatype Field = Id | Description | Days

  /** The value of field `f` of `step`. */
  function FieldValue(step: Step, f: Field): string
  {
    match f
    case Id => step.id
    case Description => step.description
    case Days => step.days
  }

  /** `{ ...step, [field]: value }`. */
  function SetField(step: Step, f: Field, value: string): (r: Step)
    ensures FieldValue(r, f) == value
    ensures forall g :: g != f ==> FieldValue(r, g) == FieldValue(step, g)
  {
    match f
    case Id => step.(id := value)
    case Description => step.(description := value)
    case Days => step.(days := value)
  }

  /** A fresh step: no description, no duration. */
  function BlankStep(id: string): Step
  {
    Step(id, "", "")
  }

  // ------------------------------------------------------------- add

  /** `addStep` as written: append a blank step whose id is
      `String(steps.length + 1)`. */
  function AddStepAsWritten(steps: seq<Step>): (r: seq<Step>)
    ensures |r| == |steps| + 1 && r[..|steps|] == steps
    ensures r[|steps|] == BlankStep(Decimal(|steps| + 1))
  {
    steps + [BlankStep(Decimal(|steps| + 1))]
  }

  /** `addStep` with the new step's id chosen so that it clashes with no
      existing step (see README, "Findings"). */
  function AddStep(steps: seq<Step>): (r: seq<Step>)
    ensures |r| == |steps| + 1 && r[..|steps|] == steps
    ensures r[|steps|] == BlankStep(r[|steps|].id)
    ensures r[|steps|].id !in Ids(steps, IdOf)
  {
    steps + [BlankStep(FreshId(Ids(steps, IdOf)))]
  }

  /** While the ids are "1" … "n" in order, the corrected add agrees with the
      source. */
  lemma AddAgreesWhileNumbered(steps: seq<Step>)
    requires Ids(steps, IdOf) == Numbered(|steps|)
    ensures AddStep(steps) == AddStepAsWritten(steps)
  {
    FreshIdOnNumbered(|steps|);
  }

  /** The corrected add keeps the ids unique. */
  lemma AddKeepsIdsUnique(steps: seq<Step>)
    requires UniqueIds(steps, IdOf)
    ensures UniqueIds(AddStep(steps), IdOf)
  {
    var r := AddStep(steps);
    forall i | 0 <= i < |steps| ensures r[i].id != r[|steps|].id {
      assert Ids(steps, IdOf)[i] == r[i].id;
    }
  }

  // ---------------------------------------------------------- remove

  /** `removeStep(id)`: with more than one step keep exactly the steps whose
      id differs; otherwise change nothing. */
  function RemoveStep(steps: seq<Step>, id: string): (r: seq<Step>)
    ensures |steps| <= 1 ==> r == steps
    ensures |steps| > 1 ==> forall x :: x in r <==> x in steps && x.id != id
  {
    if |steps| > 1 then Without(steps, IdOf, id) else steps
  }

  /** The remove button of every step is disabled while there is one step. */
  predicate RemoveDisabled(steps: seq<Step>)
  {
    |steps| == 1
  }

  /** The surviving steps keep their order. */
  lemma RemoveKeepsOrder(a: seq<Step>, b: seq<Step>, id: string)
    requires |a + b| > 1
    ensures RemoveStep(a + b, id) == Without(a, IdOf, id) + Without(b, IdOf, id)
  {
    WithoutConcat(a, b, IdOf, id);
  }

  /** With unique ids, removal takes out at most one step and never empties
      the list. */
  lemma RemoveKeepsOneStep(steps: seq<Step>, id: string)
    requires UniqueIds(steps, IdOf) && |steps| >= 1
    ensures |RemoveStep(steps, id)| >= |steps| - 1
    ensures |RemoveStep(steps, id)| >= 1
    ensures UniqueIds(RemoveStep(steps, id), IdOf)
  {
    CountUnique(steps, IdOf, id);
    WithoutUnique(steps, IdOf, id);
  }

  /** As written, two steps can end up sharing an id and then go together:
      from the initial step add two (ids 1, 2, 3), remove "1", add (the new id
      is "3" again), remove "2", remove "3" leaves no step at all. */
  lemma AsWrittenRemovalEmptiesList()
    ensures var s1, s2, s3 := BlankStep("1"), BlankStep("2"), BlankStep("3");
            && AddStepAsWritten(AddStepAsWritten([s1])) == [s1, s2, s3]
            && RemoveStep([s1, s2, s3], "1") == [s2, s3]
            && AddStepAsWritten([s2, s3]) == [s2, s3, s3]
            && !UniqueIds([s2, s3, s3], IdOf)
            && RemoveStep([s2, s3, s3], "2") == [s3, s3]
            && RemoveStep([s3, s3], "3") == []
  {
    AsWrittenAddsDuplicate();
    AsWrittenRemovals();
  }

  /** The adds of that sequence, as written: the fourth step repeats the id "3". */
  lemma AsWrittenAddsDuplicate()
    ensures var s1, s2, s3 := BlankStep("1"), BlankStep("2"), BlankStep("3");
            && AddStepAsWritten(AddStepAsWritten([s1])) == [s1, s2, s3]
            && AddStepAsWritten([s2, s3]) == [s2, s3, s3]
            && !UniqueIds([s2, s3, s3], IdOf)
  {
    var s1, s2, s3 := BlankStep("1"), BlankStep("2"), BlankStep("3");
    assert Decimal(2) == "2" && Decimal(3) == "3";
    assert IdOf([s2, s3, s3][1]) == IdOf([s2, s3, s3][2]);
  }

  /** The removals of that sequence: each drops every step with the id. */
  lemma AsWrittenRemovals()
    ensures var s1, s2, s3 := BlankStep("1"), BlankStep("2"), BlankStep("3");
            && RemoveStep([s1, s2, s3], "1") == [s2, s3]
            && RemoveStep([s2, s3, s3], "2") == [s3, s3]
            && RemoveStep([s3, s3], "3") == []
  {
    var s1, s2, s3 := BlankStep("1"), BlankStep("2"), BlankStep("3");
    DropFirst(s1, [s2, s3]);
    assert [s1] + [s2, s3] == [s1, s2, s3];
    DropFirst(s2, [s3, s3]);
    assert [s2] + [s3, s3] == [s2, s3, s3];
    DropAll(s3);
  }

  /** Removing the id of the first step when no later step carries it. */
  lemma DropFirst(x: Step, rest: seq<Step>)
    requires |rest| >= 1 && forall i :: 0 <= i < |rest| ==> rest[i].id != x.id
    ensures RemoveStep([x] + rest, x.id) == rest
  {
    assert |[x] + rest| > 1;
    assert Without([x], IdOf, x.id) == [] by {
      assert [x][..0] == [];
    }
    WithoutConcat([x], rest, IdOf, x.id);
    WithoutAbsent(rest, IdOf, x.id);
  }

  /** Removing the id of two steps that share it. */
  lemma DropAll(x: Step)
    ensures RemoveStep([x, x], x.id) == []
  {
    assert [x, x] == [x] + [x];
    WithoutConcat([x], [x], IdOf, x.id);
  }

  // ---------------------------------------------------------- update

  /** `updateStep(id, field, value)`: every step with that id gets the value
      in that field; every other field and every other step is unchanged. */
  function UpdateStep(steps: seq<Step>, id: string, f: Field, value: string): (r: seq<Step>)
    ensures |r| == |steps|
    ensures forall i :: 0 <= i < |steps| && steps[i].id == id ==> FieldValue(r[i], f) == value
    ensures forall i, g :: 0 <= i < |steps| && (steps[i].id != id || g != f)
              ==> FieldValue(r[i], g) == FieldValue(steps[i], g)
  {
    MapMatching(steps, IdOf, id, (step: Step) => SetField(step, f, value))
  }

  /** Two updates of the same field of the same step: the later one wins. */
  lemma UpdateTwiceLastWins(steps: seq<Step>, id: string, f: Field, v1: string, v2: string)
    requires f != Id
    ensures UpdateStep(UpdateStep(steps, id, f, v1), id, f, v2) == UpdateStep(steps, id, f, v2)
  {
    var once := UpdateStep(steps, id, f, v1);
    var a := UpdateStep(once, id, f, v2);
    var b := UpdateStep(steps, id, f, v2);
    forall i | 0 <= i < |steps| ensures a[i] == b[i] {
      assert FieldValue(once[i], Id) == FieldValue(steps[i], Id);
      assert forall g :: FieldValue(a[i], g) == FieldValue(b[i], g);
      assert FieldValue(a[i], Id) == FieldValue(b[i], Id);
      assert FieldValue(a[i], Description) == FieldValue(b[i], Description);
      assert FieldValue(a[i], Days) == FieldValue(b[i], Days);
    }
  }

  // ----------------------------------------------------------- labels

  /** The heading over the step at position `index`: "단계 " and its
      1-based number. */
  function StepLabel(index: nat): string
  {
    "단계 " + Decimal(index + 1)
  }

  /** The number in a step's label is its position plus one, so the labels
      of different positions differ. */
  lemma StepLabelNumber(index: nat, other: nat)
    ensures AllDigits(StepLabel(index)[3..])
    ensures DigitsValue(StepLabel(index)[3..]) == index + 1
    ensures index != other ==> StepLabel(index) != StepLabel(other)
  {
    assert StepLabel(index)[3..] == Decimal(index + 1);
    assert StepLabel(other)[3..] == Decimal(other + 1);
    DecimalRoundTrip(index + 1);
    DecimalInjective(index + 1, other + 1);
  }
}
