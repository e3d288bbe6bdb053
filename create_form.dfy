/** The create form's state: one recipe draft and the side-buffers for the
    next ingredient, the next step and the pending tag text, together with
    the status message. Every handler is one atomic state change. */
module CreateForm {
  import opened Tags
  import opened Recipes

  const AddedMessage := "Recipe added successfully!"

  class RecipeForm {
    var recipe: Recipe
    var ingredient: IngredientInput
    var step: StepInput
    var tagInput: string
    var message: string

    /** What every draft this form can reach satisfies: it has no id, its
        ingredients and steps are numbered 1..n in append order, and its
        tags are non-empty trimmed strings. */
    ghost predicate Valid()
      reads this
    {
      && recipe.id == None
      && IngredientsNumbered(recipe.ingredients)
      && StepsNumbered(recipe.steps)
      && CleanTags(recipe.tags)
    }

    /** The initial state: the empty draft, empty side-buffers, no message. */
    constructor ()
      ensures Valid()
      ensures recipe == EmptyRecipe && ingredient == EmptyIngredientInput && step == EmptyStepInput
      ensures tagInput == "" && message == ""
    {
      recipe := EmptyRecipe;
      ingredient := EmptyIngredientInput;
      step := EmptyStepInput;
      tagInput := "";
      message := "";
    }

    /** A fresh mount of the form, as when the app switches back to the
        create screen: every slot takes its initial value again. */
    method Remount()
      modifies this
      ensures Valid()
      ensures recipe == EmptyRecipe && ingredient == EmptyIngredientInput && step == EmptyStepInput
      ensures tagInput == "" && message == ""
    {
      recipe := EmptyRecipe;
      ingredient := EmptyIngredientInput;
      step := EmptyStepInput;
      tagInput := "";
      message := "";
    }

    /** handleChange: one scalar field of the draft takes the typed value. */
    method HandleChange(field: RecipeField, value: string)
      requires Valid()
      modifies this
      ensures Valid()
      ensures recipe == WithField(old(recipe), field, value)
      ensures ingredient == old(ingredient) && step == old(step)
      ensures tagInput == old(tagInput) && message == old(message)
    {
      recipe := WithField(recipe, field, value);
    }

    /** The onChange of one of the three ingredient inputs. */
    method ChangeIngredient(field: IngredientField, value: string)
      requires Valid()
      modifies this
      ensures Valid()
      ensures ingredient == WithInputValue(old(ingredient), field, value)
      ensures recipe == old(recipe) && step == old(step)
      ensures tagInput == old(tagInput) && message == old(message)
    {
      ingredient := WithInputValue(ingredient, field, value);
    }

    /** The onChange of the step instruction input. */
    method ChangeInstruction(value: string)
      requires Valid()
      modifies this
      ensures Valid()
      ensures step == StepInput(value)
      ensures recipe == old(recipe) && ingredient == old(ingredient)
      ensures tagInput == old(tagInput) && message == old(message)
    {
      step := step.(instruction := value);
    }

    /** The onChange of the tag input. */
    method ChangeTagInput(value: string)
      requires Valid()
      modifies this
      ensures Valid()
      ensures tagInput == value
      ensures recipe == old(recipe) && ingredient == old(ingredient)
      ensures step == old(step) && message == old(message)
    {
      tagInput := value;
    }

    /** addIngredient, with no guard: the side-buffer is appended as it is,
        an empty name included, numbered old length + 1, and the side-buffer
        is reset to three empty strings. */
    method AddIngredient()
      requires Valid()
      modifies this
      ensures Valid()
      ensures recipe == WithIngredient(old(recipe), old(ingredient))
      ensures ingredient == EmptyIngredientInput
      ensures step == old(step) && tagInput == old(tagInput) && message == old(message)
    {
      WithIngredientKeepsNumbering(recipe, ingredient);
      recipe := WithIngredient(recipe, ingredient);
      ingredient := EmptyIngredientInput;
    }

    /** addStep, with no guard: the instruction is appended numbered old
        length + 1, and the instruction buffer is cleared. */
    method AddStep()
      requires Valid()
      modifies this
      ensures Valid()
      ensures recipe == WithStep(old(recipe), old(step))
      ensures step == EmptyStepInput
      ensures ingredient == old(ingredient) && tagInput == old(tagInput) && message == old(message)
    {
      WithStepKeepsNumbering(recipe, step);
      recipe := WithStep(recipe, step);
      step := EmptyStepInput;
    }

    /** addTags: the parsed tags are appended after the existing ones, and
        the tag input is cleared whether anything was appended or not. */
    method AddTags()
      requires Valid()
      modifies this
      ensures Valid()
      ensures recipe == WithTags(old(recipe), old(tagInput))
      ensures tagInput == ""
      ensures ingredient == old(ingredient) && step == old(step) && message == old(message)
    {
      WithTagsKeepsCleanTags(recipe, tagInput);
      recipe := WithTags(recipe, tagInput);
      tagInput := "";
    }

    /** handleSubmit: the draft as it was is handed to onAddRecipe; then the
        draft is reset to the empty recipe, the tag input is cleared and the
        success message is shown. The ingredient and step side-buffers are
        left as they were. */
    method HandleSubmit() returns (submitted: Recipe)
      requires Valid()
      modifies this
      ensures Valid()
      ensures submitted == old(recipe)
      ensures recipe == EmptyRecipe && tagInput == "" && message == AddedMessage
      ensures ingredient == old(ingredient) && step == old(step)
    {
      submitted := recipe;
      message := AddedMessage;
      recipe := EmptyRecipe;
      tagInput := "";
    }
  }
}
