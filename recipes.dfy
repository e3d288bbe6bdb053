/** The recipe shape shared by the create form, the edit form and the app,
    and the copies with one part replaced that the forms' handlers build with
    object spreads. */
module Recipes {
  import opened Tags

  datatype Option<T> = None | Some(value: T)

  /** A tag is a bare string when a form adds it and an object with a `name`
      when the server returns it. */
  datatype Tag = Str(text: string) | Named(name: string)

  datatype Ingredient = Ingredient(
    name: string, quantity: string, measurementUnit: string, ingredientOrder: int)

  datatype Step = Step(instruction: string, stepNumber: int)

  /** Quantities and times stay text: the number inputs' constraints are the
      browser's, not the code's. `id` is absent on a fresh create draft. */
  datatype Recipe = Recipe(
    id: Option<int>,
    title: string, description: string, prepTime: string, cookTime: string, servings: string,
    ingredients: seq<Ingredient>, steps: seq<Step>, tags: seq<Tag>)

  /** The `name` attributes of the five inputs wired to handleChange. */
  datatype RecipeField = Title | Description | PrepTime | CookTime | Servings

  /** The next-ingredient side-buffer and the `name`s of its three inputs. */
  datatype IngredientInput = IngredientInput(name: string, quantity: string, measurementUnit: string)

  datatype IngredientField = Name | Quantity | MeasurementUnit

  /** The next-step side-buffer. */
  datatype StepInput = StepInput(instruction: string)

  const EmptyRecipe := Recipe(None, "", "", "", "", "", [], [], [])
  const EmptyIngredientInput := IngredientInput("", "", "")
  const EmptyStepInput := StepInput("")

  /** The text a tag is shown as, `tag.name ? tag.name : tag`: a bare string
      shows itself, a named tag its name. A named tag with an empty name makes
      the expression yield the object itself, not a string: None. */
  function DisplayName(t: Tag): (d: Option<string>)
    ensures d == None <==> t == Named("")
    ensures t.Str? ==> d == Some(t.text)
    ensures t.Named? && d.Some? ==> d.value == t.name
  {
    match t
    case Str(s) => Some(s)
    case Named(n) => if n != "" then Some(n) else None
  }

  function FieldValue(r: Recipe, f: RecipeField): string {
    match f
    case Title => r.title
    case Description => r.description
    case PrepTime => r.prepTime
    case CookTime => r.cookTime
    case Servings => r.servings
  }

  /** `{ ...prev, [name]: value }` for one of the five scalar fields: that
      field takes the new value and nothing else changes, in particular not
      the id, the ingredients, the steps or the tags. */
  function WithField(r: Recipe, f: RecipeField, v: string): (r': Recipe)
    ensures FieldValue(r', f) == v
    ensures forall g :: g != f ==> FieldValue(r', g) == FieldValue(r, g)
    ensures r'.id == r.id && r'.ingredients == r.ingredients
    ensures r'.steps == r.steps && r'.tags == r.tags
  {
    match f
    case Title => r.(title := v)
    case Description => r.(description := v)
    case PrepTime => r.(prepTime := v)
    case CookTime => r.(cookTime := v)
    case Servings => r.(servings := v)
  }

  function InputValue(b: IngredientInput, f: IngredientField): string {
    match f
    case Name => b.name
    case Quantity => b.quantity
    case MeasurementUnit => b.measurementUnit
  }

  /** `{ ...ingredient, [name]: value }`: one field of the ingredient
      side-buffer takes the new value, the other two are kept. */
  function WithInputValue(b: IngredientInput, f: IngredientField, v: string): (b': IngredientInput)
    ensures InputValue(b', f) == v
    ensures forall g :: g != f ==> InputValue(b', g) == InputValue(b, g)
  {
    match f
    case Name => b.(name := v)
    case Quantity => b.(quantity := v)
    case MeasurementUnit => b.(measurementUnit := v)
  }

  /** The draft after `ingredients: [...prev.ingredients, { ...ingredient,
      ingredientOrder: length + 1 }]`: exactly one entry more, at the end,
      carrying the side-buffer's three fields and the 1-based position it
      lands in; the earlier entries and every other part are unchanged. */
  function WithIngredient(r: Recipe, b: IngredientInput): (r': Recipe)
    ensures |r'.ingredients| == |r.ingredients| + 1
    ensures r'.ingredients[..|r.ingredients|] == r.ingredients
    ensures r'.ingredients[|r.ingredients|] ==
      Ingredient(b.name, b.quantity, b.measurementUnit, |r.ingredients| + 1)
    ensures r'.(ingredients := r.ingredients) == r
  {
    var n := |r.ingredients|;
    r.(ingredients := r.ingredients + [Ingredient(b.name, b.quantity, b.measurementUnit, n + 1)])
  }

  /** The draft after `steps: [...prev.steps, { ...step, stepNumber: length +
      1 }]`: one step more, at the end, numbered by the position it lands
      in; nothing else changes. */
  function WithStep(r: Recipe, b: StepInput): (r': Recipe)
    ensures |r'.steps| == |r.steps| + 1
    ensures r'.steps[..|r.steps|] == r.steps
    ensures r'.steps[|r.steps|] == Step(b.instruction, |r.steps| + 1)
    ensures r'.(steps := r.steps) == r
  {
    r.(steps := r.steps + [Step(b.instruction, |r.steps| + 1)])
  }

  /** Bare string tags, one per text, in order. */
  function AsTags(texts: seq<string>): seq<Tag> {
    seq(|texts|, i requires 0 <= i < |texts| => Str(texts[i]))
  }

  /** The draft after `tags: [...prev.tags, ...parsed]`: the existing tags
      first, then the parsed ones as bare strings; nothing else changes. */
  function WithTags(r: Recipe, input: string): (r': Recipe)
    ensures |r'.tags| == |r.tags| + |ParseTags(input)|
    ensures r'.tags[..|r.tags|] == r.tags
    ensures forall k :: 0 <= k < |ParseTags(input)| ==>
      r'.tags[|r.tags| + k] == Str(ParseTags(input)[k])
    ensures r'.(tags := r.tags) == r
  {
    r.(tags := r.tags + AsTags(ParseTags(input)))
  }

  /** Every entry's ingredientOrder is its 1-based position. */
  predicate IngredientsNumbered(s: seq<Ingredient>) {
    forall i :: 0 <= i < |s| ==> s[i].ingredientOrder == i + 1
  }

  /** Every step's stepNumber is its 1-based position. */
  predicate StepsNumbered(s: seq<Step>) {
    forall i :: 0 <= i < |s| ==> s[i].stepNumber == i + 1
  }

  /** Tags as the forms add them: bare, non-empty, trimmed strings. */
  predicate CleanTags(tags: seq<Tag>) {
    forall i :: 0 <= i < |tags| ==> tags[i].Str? && tags[i].text != [] && IsTrimmed(tags[i].text)
  }

  /** A number of addIngredient calls in a row, one side-buffer value each. */
  function AddIngredients(r: Recipe, inputs: seq<IngredientInput>): Recipe
    decreases |inputs|
  {
    if inputs == [] then r else AddIngredients(WithIngredient(r, inputs[0]), inputs[1..])
  }

  /** A number of addStep calls in a row. */
  function AddSteps(r: Recipe, inputs: seq<StepInput>): Recipe
    decreases |inputs|
  {
    if inputs == [] then r else AddSteps(WithStep(r, inputs[0]), inputs[1..])
  }

  /** Appending one ingredient keeps the numbering 1..n. */
  lemma WithIngredientKeepsNumbering(r: Recipe, b: IngredientInput)
    requires IngredientsNumbered(r.ingredients)
    ensures IngredientsNumbered(WithIngredient(r, b).ingredients)
  {
    var s := WithIngredient(r, b).ingredients;
    forall i | 0 <= i < |s|
      ensures s[i].ingredientOrder == i + 1
    {
      if i < |r.ingredients| {
        assert s[i] == s[..|r.ingredients|][i];
      }
    }
  }

  /** Appending one step keeps the numbering 1..n. */
  lemma WithStepKeepsNumbering(r: Recipe, b: StepInput)
    requires StepsNumbered(r.steps)
    ensures StepsNumbered(WithStep(r, b).steps)
  {
    var s := WithStep(r, b).steps;
    forall i | 0 <= i < |s|
      ensures s[i].stepNumber == i + 1
    {
      if i < |r.steps| {
        assert s[i] == s[..|r.steps|][i];
      }
    }
  }

  /** k addIngredient calls append k entries after the existing ones, the
      j-th carrying the j-th side-buffer value and the order old length + j
      (1-based); nothing else in the draft changes. */
  lemma {:induction false} AddIngredientsAppends(r: Recipe, inputs: seq<IngredientInput>)
    ensures var r' := AddIngredients(r, inputs);
      && |r'.ingredients| == |r.ingredients| + |inputs|
      && r'.ingredients[..|r.ingredients|] == r.ingredients
      && (forall k :: 0 <= k < |inputs| ==>
            r'.ingredients[|r.ingredients| + k] ==
            Ingredient(inputs[k].name, inputs[k].quantity, inputs[k].measurementUnit,
                       |r.ingredients| + k + 1))
      && r'.(ingredients := r.ingredients) == r
    decreases |inputs|
  {
    if inputs != [] {
      var n := |r.ingredients|;
      var r1 := WithIngredient(r, inputs[0]);
      AddIngredientsAppends(r1, inputs[1..]);
      var r' := AddIngredients(r, inputs);
      assert r' == AddIngredients(r1, inputs[1..]);
      assert r'.ingredients[..n] == r1.ingredients[..n] by {
        assert r'.ingredients[..n] == r'.ingredients[..n + 1][..n];
      }
      forall k | 0 <= k < |inputs|
        ensures r'.ingredients[n + k] ==
          Ingredient(inputs[k].name, inputs[k].quantity, inputs[k].measurementUnit, n + k + 1)
      {
        if k == 0 {
          assert r'.ingredients[n] == r'.ingredients[..n + 1][n];
        } else {
          assert inputs[1..][k - 1] == inputs[k];
        }
      }
    }
  }

  /** Starting from a numbered list, any number of addIngredient calls keep
      it numbered; from the empty draft the orders are exactly 1..n. */
  lemma AddIngredientsNumbered(r: Recipe, inputs: seq<IngredientInput>)
    requires IngredientsNumbered(r.ingredients)
    ensures IngredientsNumbered(AddIngredients(r, inputs).ingredients)
  {
    AddIngredientsAppends(r, inputs);
    var s := AddIngredients(r, inputs).ingredients;
    var n := |r.ingredients|;
    forall i | 0 <= i < |s|
      ensures s[i].ingredientOrder == i + 1
    {
      if i < n {
        assert s[i] == s[..n][i];
      } else {
        var k := i - n;
        assert 0 <= k < |inputs|;
        assert s[n + k] == Ingredient(inputs[k].name, inputs[k].quantity, inputs[k].measurementUnit, n + k + 1);
      }
    }
  }

  /** k addStep calls append k steps after the existing ones, the j-th with
      the j-th instruction and number old length + j; nothing else changes. */
  lemma {:induction false} AddStepsAppends(r: Recipe, inputs: seq<StepInput>)
    ensures var r' := AddSteps(r, inputs);
      && |r'.steps| == |r.steps| + |inputs|
      && r'.steps[..|r.steps|] == r.steps
      && (forall k :: 0 <= k < |inputs| ==>
            r'.steps[|r.steps| + k] == Step(inputs[k].instruction, |r.steps| + k + 1))
      && r'.(steps := r.steps) == r
    decreases |inputs|
  {
    if inputs != [] {
      var n := |r.steps|;
      var r1 := WithStep(r, inputs[0]);
      AddStepsAppends(r1, inputs[1..]);
      var r' := AddSteps(r, inputs);
      assert r' == AddSteps(r1, inputs[1..]);
      assert r'.steps[..n] == r1.steps[..n] by {
        assert r'.steps[..n] == r'.steps[..n + 1][..n];
      }
      forall k | 0 <= k < |inputs|
        ensures r'.steps[n + k] == Step(inputs[k].instruction, n + k + 1)
      {
        if k == 0 {
          assert r'.steps[n] == r'.steps[..n + 1][n];
        } else {
          assert inputs[1..][k - 1] == inputs[k];
        }
      }
    }
  }

  /** Starting from a numbered list, addStep calls keep it numbered. */
  lemma AddStepsNumbered(r: Recipe, inputs: seq<StepInput>)
    requires StepsNumbered(r.steps)
    ensures StepsNumbered(AddSteps(r, inputs).steps)
  {
    AddStepsAppends(r, inputs);
    var s := AddSteps(r, inputs).steps;
    var n := |r.steps|;
    forall i | 0 <= i < |s|
      ensures s[i].stepNumber == i + 1
    {
      if i < n {
        assert s[i] == s[..n][i];
      } else {
        var k := i - n;
        assert 0 <= k < |inputs|;
        assert s[n + k] == Step(inputs[k].instruction, n + k + 1);
      }
    }
  }

  /** From the empty draft, n addIngredient calls give the orders 1..n in
      the order the side-buffer values were added, whatever those values are
      (empty names included). */
  lemma IngredientsFromEmptyDraft(inputs: seq<IngredientInput>)
    ensures var s := AddIngredients(EmptyRecipe, inputs).ingredients;
      && |s| == |inputs|
      && forall i :: 0 <= i < |s| ==>
           s[i] == Ingredient(inputs[i].name, inputs[i].quantity, inputs[i].measurementUnit, i + 1)
  {
    var r := EmptyRecipe;
    assert |r.ingredients| == 0;
    AddIngredientsAppends(r, inputs);
    var s := AddIngredients(r, inputs).ingredients;
    forall i | 0 <= i < |s|
      ensures s[i] == Ingredient(inputs[i].name, inputs[i].quantity, inputs[i].measurementUnit, i + 1)
    {
      assert s[0 + i] == s[i];
    }
  }

  /** From the empty draft, n addStep calls give the step numbers 1..n in
      order. */
  lemma StepsFromEmptyDraft(inputs: seq<StepInput>)
    ensures var s := AddSteps(EmptyRecipe, inputs).steps;
      && |s| == |inputs|
      && forall i :: 0 <= i < |s| ==> s[i] == Step(inputs[i].instruction, i + 1)
  {
    var r := EmptyRecipe;
    assert |r.steps| == 0;
    AddStepsAppends(r, inputs);
    var s := AddSteps(r, inputs).steps;
    forall i | 0 <= i < |s|
      ensures s[i] == Step(inputs[i].instruction, i + 1)
    {
      assert s[0 + i] == s[i];
    }
  }

  /** Adding parsed tags to form-clean tags leaves them form-clean. */
  lemma WithTagsKeepsCleanTags(r: Recipe, input: string)
    requires CleanTags(r.tags)
    ensures CleanTags(WithTags(r, input).tags)
  {
    var s := WithTags(r, input).tags;
    var n := |r.tags|;
    forall i | 0 <= i < |s|
      ensures s[i].Str? && s[i].text != [] && IsTrimmed(s[i].text)
    {
      if i < n {
        assert s[i] == s[..n][i];
      } else {
        assert s[n + (i - n)] == Str(ParseTags(input)[i - n]);
      }
    }
  }

  /** A blank tag input adds nothing to the draft. */
  lemma WithBlankTagsIsUnchanged(r: Recipe, input: string)
    requires IsBlank(input)
    ensures WithTags(r, input) == r
  {
    BlankInputHasNoTags(input);
    assert AsTags([]) == [];
    assert r.tags + [] == r.tags;
  }

  /** Form-clean tags are shown as their own, non-empty text. */
  lemma CleanTagsDisplayAsText(tags: seq<Tag>)
    requires CleanTags(tags)
    ensures forall i :: 0 <= i < |tags| ==>
      DisplayName(tags[i]) == Some(tags[i].text) && tags[i].text != []
  {
  }
}
