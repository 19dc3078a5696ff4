/**
 * The values collected by the recipe authoring form, the required-field
 * check over them and the pure edits of the ingredient list.
 */
module RecipeFormState {
  import opened Wrappers

  /** One row of the dynamic ingredient list. */
  datatype Ingredient = Ingredient(name: string, quantity: string)

  /** The two editable parts of an ingredient row. */
  datatype IngredientField = Name | Quantity

  /** The row that "add ingredient" appends and the form starts with. */
  const EmptyIngredient := Ingredient("", "")

  /**
   * The form fields that the required-field check and the reset look at.
   * `servings` and `totalTimeMinutes` hold what `parseInt` produced:
   * `None` is `NaN`.
   */
  datatype FormValues = FormValues(
    title: string,
    servings: Option<int>,
    category: string,
    totalTimeMinutes: Option<int>,
    stepsDescription: string,
    ingredients: seq<Ingredient>,
    hasImage: bool)

  /** The values given by the component's `useState` initialisers. */
  const Initial := FormValues("", Some(0), "", Some(0), "", [EmptyIngredient], false)

  /** The six required fields, one constructor per missing-field label. */
  datatype Field = Title | IngredientRows | Servings | Category | TotalTime | Steps

  /** The order in which the check looks at the fields. */
  const Fields: seq<Field> := [Title, IngredientRows, Servings, Category, TotalTime, Steps]

  /** The label shown when the field is missing. */
  function Label(f: Field): string {
    match f
    case Title => "Pealkiri"
    case IngredientRows => "Koostisosa ja kogus"
    case Servings => "Portsjonite arv"
    case Category => "Kategooria"
    case TotalTime => "Valmistusaeg"
    case Steps => "Valmistusjuhend"
  }

  /** The position of a field in `Fields`. */
  function Rank(f: Field): nat {
    match f
    case Title => 0
    case IngredientRows => 1
    case Servings => 2
    case Category => 3
    case TotalTime => 4
    case Steps => 5
  }

  /** JavaScript falsiness of a `parseInt` result: `NaN` and `0` are falsy, every other number is truthy. */
  predicate NumberMissing(n: Option<int>) {
    n == None || n == Some(0)
  }

  /** An ingredient row whose name or quantity is the (falsy) empty string. */
  predicate Incomplete(ingredient: Ingredient) {
    ingredient.name == "" || ingredient.quantity == ""
  }

  /** What `ingredients.some(ingredient => !ingredient.name || !ingredient.quantity)` answers. */
  predicate HasIncomplete(ingredients: seq<Ingredient>) {
    exists k :: 0 <= k < |ingredients| && Incomplete(ingredients[k])
  }

  /** Whether field `f` is missing from `v`; strings are missing when empty. */
  predicate IsMissing(v: FormValues, f: Field) {
    match f
    case Title => v.title == ""
    case IngredientRows => HasIncomplete(v.ingredients)
    case Servings => NumberMissing(v.servings)
    case Category => v.category == ""
    case TotalTime => NumberMissing(v.totalTimeMinutes)
    case Steps => v.stepsDescription == ""
  }

  /** Every required field is present. */
  predicate Complete(v: FormValues) {
    v.title != "" && !HasIncomplete(v.ingredients) && !NumberMissing(v.servings)
    && v.category != "" && !NumberMissing(v.totalTimeMinutes) && v.stepsDescription != ""
  }

  /** The fields of `fs` stand in the order of `Fields`; in particular none appears twice. */
  predicate InFieldOrder(fs: seq<Field>) {
    forall i, j :: 0 <= i < j < |fs| ==> Rank(fs[i]) < Rank(fs[j])
  }

  /**
   * The missing fields among the first `n` of `Fields`, in that order: each
   * field in turn is appended when it is missing.
   */
  function MissingUpTo(v: FormValues, n: nat): seq<Field>
    requires n <= |Fields|
  {
    if n == 0 then []
    else MissingUpTo(v, n - 1) + (if IsMissing(v, Fields[n - 1]) then [Fields[n - 1]] else [])
  }

  /** The missing required fields of `v`, in the order the check looks at them. */
  function MissingFields(v: FormValues): seq<Field> {
    MissingUpTo(v, |Fields|)
  }

  /** The labels of a list of fields, position by position. */
  function LabelsOf(fs: seq<Field>): seq<string> {
    seq(|fs|, i requires 0 <= i < |fs| => Label(fs[i]))
  }

  /** The list of labels the form shows after the check. */
  function ErrorList(v: FormValues): seq<string> {
    LabelsOf(MissingFields(v))
  }

  /** Ingredient row `ingredient` with `field` set to `value`. */
  function WithField(ingredient: Ingredient, field: IngredientField, value: string): Ingredient {
    match field
    case Name => ingredient.(name := value)
    case Quantity => ingredient.(quantity := value)
  }

  /**
   * `s.filter((_, i) => i !== index)`: positions are visited from the first
   * to the last and each one other than `index` is kept.
   */
  function WithoutPosition<T>(s: seq<T>, index: int): seq<T> {
    if s == [] then []
    else WithoutPosition(s[..|s| - 1], index) + (if |s| - 1 != index then [s[|s| - 1]] else [])
  }

  // ---------------------------------------------------------------------
  // Fields and labels

  /** No two fields share a label. */
  lemma LabelInjective(f: Field, g: Field)
    ensures Label(f) == Label(g) ==> f == g
  {
    assert Label(Servings)[0] != Label(Steps)[0];
  }

  /** Appending a field appends its label. */
  lemma LabelsOfAppend(fs: seq<Field>, f: Field)
    ensures LabelsOf(fs + [f]) == LabelsOf(fs) + [Label(f)]
  {
  }

  // ---------------------------------------------------------------------
  // The required-field check

  /** `Rank` is the position in `Fields`. */
  lemma FieldsRanked()
    ensures forall i :: 0 <= i < |Fields| ==> Rank(Fields[i]) == i
    ensures forall f :: Fields[Rank(f)] == f
  {
  }

  /** A field is reported exactly when it is among the first `n` and it is missing. */
  lemma {:induction false} MissingUpToMembers(v: FormValues, n: nat)
    requires n <= |Fields|
    ensures forall f :: f in MissingUpTo(v, n) <==> Rank(f) < n && IsMissing(v, f)
  {
    FieldsRanked();
    if n != 0 {
      MissingUpToMembers(v, n - 1);
    }
  }

  /** Filtering keeps the order of `Fields`. */
  lemma {:induction false} MissingUpToOrdered(v: FormValues, n: nat)
    requires n <= |Fields|
    ensures InFieldOrder(MissingUpTo(v, n))
    ensures |MissingUpTo(v, n)| <= n
  {
    if n != 0 {
      MissingUpToOrdered(v, n - 1);
      MissingUpToMembers(v, n - 1);
      FieldsRanked();
      var front := MissingUpTo(v, n - 1);
      assert forall i :: 0 <= i < |front| ==> front[i] in front;
    }
  }

  /** Dropping the first entry keeps the order; every later entry outranks the first. */
  lemma InFieldOrderTail(a: seq<Field>)
    requires InFieldOrder(a) && a != []
    ensures InFieldOrder(a[1..])
    ensures forall f :: f in a[1..] ==> Rank(a[0]) < Rank(f)
  {
    var t := a[1..];
    forall i, j | 0 <= i < j < |t| ensures Rank(t[i]) < Rank(t[j]) {
      assert t[i] == a[i + 1] && t[j] == a[j + 1];
    }
    forall f | f in t ensures Rank(a[0]) < Rank(f) {
      var i :| 0 <= i < |t| && t[i] == f;
      assert a[i + 1] == f;
    }
  }

  /** Two lists in field order with the same members are the same list. */
  lemma {:induction false} InFieldOrderUnique(a: seq<Field>, b: seq<Field>)
    requires InFieldOrder(a) && InFieldOrder(b)
    requires forall f :: f in a <==> f in b
    ensures a == b
  {
    assert a == [] <==> b == [] by {
      if a != [] {
        assert a[0] in b;
      }
      if b != [] {
        assert b[0] in a;
      }
    }
    if a != [] {
      InFieldOrderTail(a);
      InFieldOrderTail(b);
      var a', b' := a[1..], b[1..];
      assert a == [a[0]] + a' && b == [b[0]] + b';
      assert a[0] in b && b[0] in a;
      assert a[0] == b[0];
      forall f ensures f in a' <==> f in b' {
        assert f in a <==> f in b;
      }
      InFieldOrderUnique(a', b');
    }
  }

  /** A field is in the missing list iff it is missing. */
  lemma MissingFieldsMembers(v: FormValues)
    ensures forall f :: f in MissingFields(v) <==> IsMissing(v, f)
  {
    MissingUpToMembers(v, |Fields|);
  }

  /**
   * The missing list follows the order of `Fields`, so no field appears
   * twice and there are at most six entries.
   */
  lemma MissingFieldsInOrder(v: FormValues)
    ensures InFieldOrder(MissingFields(v))
    ensures |MissingFields(v)| <= |Fields|
  {
    MissingUpToOrdered(v, |Fields|);
  }

  /**
   * The missing list is the only list in field order whose members are
   * exactly the missing fields.
   */
  lemma MissingFieldsCharacterized(v: FormValues, fs: seq<Field>)
    requires InFieldOrder(fs)
    requires forall f :: f in fs <==> IsMissing(v, f)
    ensures fs == MissingFields(v)
  {
    MissingFieldsMembers(v);
    MissingFieldsInOrder(v);
    InFieldOrderUnique(fs, MissingFields(v));
  }

  /**
   * The shown list names each missing field by its label, one entry per
   * missing field in the order of `Fields`; a label is shown iff its field
   * is missing.
   */
  lemma ErrorListMembers(v: FormValues)
    ensures |ErrorList(v)| == |MissingFields(v)|
    ensures forall i :: 0 <= i < |ErrorList(v)| ==> ErrorList(v)[i] == Label(MissingFields(v)[i])
    ensures forall f :: Label(f) in ErrorList(v) <==> IsMissing(v, f)
    ensures "Pealkiri" in ErrorList(v) <==> v.title == ""
    ensures "Koostisosa ja kogus" in ErrorList(v) <==> HasIncomplete(v.ingredients)
    ensures "Portsjonite arv" in ErrorList(v) <==> NumberMissing(v.servings)
    ensures "Kategooria" in ErrorList(v) <==> v.category == ""
    ensures "Valmistusaeg" in ErrorList(v) <==> NumberMissing(v.totalTimeMinutes)
    ensures "Valmistusjuhend" in ErrorList(v) <==> v.stepsDescription == ""
  {
    var fs := MissingFields(v);
    MissingFieldsMembers(v);
    forall f ensures Label(f) in ErrorList(v) <==> IsMissing(v, f) {
      if Label(f) in ErrorList(v) {
        var i :| 0 <= i < |fs| && ErrorList(v)[i] == Label(f);
        LabelInjective(f, fs[i]);
      }
      if IsMissing(v, f) {
        var i :| 0 <= i < |fs| && fs[i] == f;
        assert ErrorList(v)[i] == Label(f);
      }
    }
    assert Label(Title) == "Pealkiri" && Label(IngredientRows) == "Koostisosa ja kogus";
    assert Label(Servings) == "Portsjonite arv" && Label(Category) == "Kategooria";
    assert Label(TotalTime) == "Valmistusaeg" && Label(Steps) == "Valmistusjuhend";
  }

  /**
   * The shown labels stand in the fixed order Pealkiri, Koostisosa ja kogus,
   * Portsjonite arv, Kategooria, Valmistusaeg, Valmistusjuhend: each label
   * appears at most once and there are at most six.
   */
  lemma ErrorListInOrder(v: FormValues)
    ensures |ErrorList(v)| == |MissingFields(v)|
    ensures forall i, j :: 0 <= i < j < |MissingFields(v)| ==>
      Rank(MissingFields(v)[i]) < Rank(MissingFields(v)[j])
    ensures forall i, j :: 0 <= i < j < |ErrorList(v)| ==> ErrorList(v)[i] != ErrorList(v)[j]
    ensures |ErrorList(v)| <= 6
  {
    var fs := MissingFields(v);
    MissingFieldsInOrder(v);
    forall i, j | 0 <= i < j < |ErrorList(v)| ensures ErrorList(v)[i] != ErrorList(v)[j] {
      LabelInjective(fs[i], fs[j]);
    }
  }

  /** Validation succeeds iff every required field is present. */
  lemma ErrorListEmptyIff(v: FormValues)
    ensures ErrorList(v) == [] <==> Complete(v)
  {
    MissingFieldsMembers(v);
    if MissingFields(v) != [] {
      var f := MissingFields(v)[0];
      assert IsMissing(v, f);
    } else {
      assert !IsMissing(v, Title) && !IsMissing(v, IngredientRows) && !IsMissing(v, Servings);
      assert !IsMissing(v, Category) && !IsMissing(v, TotalTime) && !IsMissing(v, Steps);
    }
  }

  /** With no ingredient rows at all, the ingredient label is never shown. */
  lemma EmptyIngredientListNotFlagged(v: FormValues)
    requires v.ingredients == []
    ensures "Koostisosa ja kogus" !in ErrorList(v)
  {
    ErrorListMembers(v);
  }

  /** The initial (and the reset) form misses every required field, in order. */
  lemma InitialMissesEverything()
    ensures ErrorList(Initial) ==
      ["Pealkiri", "Koostisosa ja kogus", "Portsjonite arv", "Kategooria", "Valmistusaeg", "Valmistusjuhend"]
    ensures !Complete(Initial)
  {
    assert Incomplete(Initial.ingredients[0]);
    MissingFieldsMembers(Initial);
    assert InFieldOrder(Fields);
    MissingFieldsCharacterized(Initial, Fields);
  }

  // ---------------------------------------------------------------------
  // Ingredient list edits

  /**
   * Filtering by position removes exactly the entry at `index` when it is a
   * position of `s`, keeping the others in order, and nothing otherwise.
   */
  lemma {:induction false} WithoutPositionRemovesOne<T>(s: seq<T>, index: int)
    ensures 0 <= index < |s| ==> WithoutPosition(s, index) == s[..index] + s[index + 1..]
    ensures !(0 <= index < |s|) ==> WithoutPosition(s, index) == s
  {
    if s != [] {
      var p, x := s[..|s| - 1], s[|s| - 1];
      WithoutPositionRemovesOne(p, index);
      assert s == p + [x];
      if 0 <= index < |p| {
        assert s[..index] == p[..index];
        assert s[index + 1..] == p[index + 1..] + [x];
      }
    }
  }

  /** Removing the row just added gives back the list before the addition. */
  lemma AddThenRemoveLast(s: seq<Ingredient>)
    ensures WithoutPosition(s + [EmptyIngredient], |s|) == s
  {
    WithoutPositionRemovesOne(s + [EmptyIngredient], |s|);
    assert (s + [EmptyIngredient])[..|s|] == s;
  }

  /** A freshly added row is empty, so the ingredient label is shown until it is filled in. */
  lemma AddedRowIsFlagged(v: FormValues)
    ensures "Koostisosa ja kogus" in ErrorList(v.(ingredients := v.ingredients + [EmptyIngredient]))
  {
    var w := v.(ingredients := v.ingredients + [EmptyIngredient]);
    assert Incomplete(w.ingredients[|v.ingredients|]);
    ErrorListMembers(w);
  }
}
