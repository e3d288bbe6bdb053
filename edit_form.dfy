/** The edit form's state: a draft seeded from the recipe being edited, the
    three side-buffers and the status message. Unlike the create form, its
    append handlers do nothing on empty or blank input. */
module EditForm {
  import opened Tags
  import opened Recipes

  const UpdatedMessage := "Recipe updated successfully!"
  const UpdateErrorMessage := "Error updating recipe."

  /** How the PUT of the draft ended: the server's copy of the recipe; the
      server's copy, handed to onUpdate, which then threw (the same catch
      handles that); or a failure of the request of any kind (the code does
      not tell them apart). */
  datatype SubmitOutcome =
    | Updated(serverRecipe: Recipe)
    | UpdateHandlerThrew(serverRecipe: Recipe)
    | RequestFailed

  class RecipeEditForm {
    var recipe: Recipe
    var ingredientInput: IngredientInput
    var stepInput: StepInput
    var tagInput: string
    var message: string

    /** The initial state: the draft is the recipe being edited, the
        side-buffers are empty and there is no message. */
    constructor (initialRecipe: Recipe)
      ensures recipe == initialRecipe
      ensures ingredientInput == EmptyIngredientInput && stepInput == EmptyStepInput
      ensures tagInput == "" && message == ""
    {
      recipe := initialRecipe;
      ingredientInput := EmptyIngredientInput;
      stepInput := EmptyStepInput;
      tagInput := "";
      message := "";
    }

    /** The effect run when the initialRecipe prop changes: the draft is
        replaced wholesale; the side-buffers and the message are kept. */
    method ResyncInitialRecipe(initialRecipe: Recipe)
      modifies this
      ensures recipe == initialRecipe
      ensures ingredientInput == old(ingredientInput) && stepInput == old(stepInput)
      ensures tagInput == old(tagInput) && message == old(message)
    {
      recipe := initialRecipe;
    }

    /** handleChange: one scalar field of the draft takes the typed value. */
    method HandleChange(field: RecipeField, value: string)
      modifies this
      ensures recipe == WithField(old(recipe), field, value)
      ensures ingredientInput == old(ingredientInput) && stepInput == old(stepInput)
      ensures tagInput == old(tagInput) && message == old(message)
    {
      recipe := WithField(recipe, field, value);
    }

    /** handleIngredientChange: one field of the ingredient side-buffer takes
        the typed value; the draft is untouched. */
    method HandleIngredientChange(field: IngredientField, value: string)
      modifies this
      ensures ingredientInput == WithInputValue(old(ingredientInput), field, value)
      ensures recipe == old(recipe) && stepInput == old(stepInput)
      ensures tagInput == old(tagInput) && message == old(message)
    {
      ingredientInput := WithInputValue(ingredientInput, field, value);
    }

    /** handleStepChange: the instruction (the step buffer's only input)
        takes the typed value. */
    method HandleStepChange(value: string)
      modifies this
      ensures stepInput == StepInput(value)
      ensures recipe == old(recipe) && ingredientInput == old(ingredientInput)
      ensures tagInput == old(tagInput) && message == old(message)
    {
      stepInput := stepInput.(instruction := value);
    }

    /** The onChange of the tag input. */
    method ChangeTagInput(value: string)
      modifies this
      ensures tagInput == value
      ensures recipe == old(recipe) && ingredientInput == old(ingredientInput)
      ensures stepInput == old(stepInput) && message == old(message)
    {
      tagInput := value;
    }

    /** addIngredient: nothing at all happens while the name is empty;
        otherwise the side-buffer is appended numbered old length + 1 and is
        then cleared. */
    method AddIngredient()
      modifies this
      ensures old(ingredientInput.name) == "" ==>
        recipe == old(recipe) && ingredientInput == old(ingredientInput)
      ensures old(ingredientInput.name) != "" ==>
        recipe == WithIngredient(old(recipe), old(ingredientInput)) &&
        ingredientInput == EmptyIngredientInput
      ensures stepInput == old(stepInput) && tagInput == old(tagInput) && message == old(message)
    {
      if ingredientInput.name == "" {
        return;
      }
      recipe := WithIngredient(recipe, ingredientInput);
      ingredientInput := EmptyIngredientInput;
    }

    /** addStep: nothing happens while the instruction is empty; otherwise it
        is appended numbered old length + 1 and the buffer is cleared. */
    method AddStep()
      modifies this
      ensures old(stepInput.instruction) == "" ==>
        recipe == old(recipe) && stepInput == old(stepInput)
      ensures old(stepInput.instruction) != "" ==>
        recipe == WithStep(old(recipe), old(stepInput)) && stepInput == EmptyStepInput
      ensures ingredientInput == old(ingredientInput) && tagInput == old(tagInput)
      ensures message == old(message)
    {
      if stepInput.instruction == "" {
        return;
      }
      recipe := WithStep(recipe, stepInput);
      stepInput := EmptyStepInput;
    }

    /** addTags: nothing happens while the tag input is blank, and the blank
        text stays in the input; otherwise the parsed tags are appended after
        the existing ones and the input is cleared. */
    method AddTags()
      modifies this
      ensures IsBlank(old(tagInput)) ==> recipe == old(recipe) && tagInput == old(tagInput)
      ensures !IsBlank(old(tagInput)) ==>
        recipe == WithTags(old(recipe), old(tagInput)) && tagInput == ""
      ensures ingredientInput == old(ingredientInput) && stepInput == old(stepInput)
      ensures message == old(message)
    {
      TrimEmptyIffBlank(tagInput);
      if Trim(tagInput) == "" {
        return;
      }
      recipe := WithTags(recipe, tagInput);
      tagInput := "";
    }

    /** handleSubmit, with the PUT's outcome as a parameter: the draft is the
        request body (its id names the resource). On success the message says
        so and onUpdate receives the server's recipe; on failure the message
        reports the error and nobody is notified. When onUpdate itself throws,
        it has been called with the server's recipe, but the error message
        replaces the success message. Either way the draft and the
        side-buffers are kept. */
    method HandleSubmit(outcome: SubmitOutcome) returns (request: Recipe, notified: Option<Recipe>)
      modifies this
      ensures request == old(recipe)
      ensures outcome.Updated? ==>
        message == UpdatedMessage && notified == Some(outcome.serverRecipe)
      ensures outcome.UpdateHandlerThrew? ==>
        message == UpdateErrorMessage && notified == Some(outcome.serverRecipe)
      ensures outcome.RequestFailed? ==> message == UpdateErrorMessage && notified == None
      ensures recipe == old(recipe) && ingredientInput == old(ingredientInput)
      ensures stepInput == old(stepInput) && tagInput == old(tagInput)
    {
      request := recipe;
      match outcome
      case Updated(serverRecipe) =>
        message := UpdatedMessage;
        notified := Some(serverRecipe);
      case UpdateHandlerThrew(serverRecipe) =>
        message := UpdatedMessage;
        notified := Some(serverRecipe);
        message := UpdateErrorMessage;
      case RequestFailed =>
        message := UpdateErrorMessage;
        notified := None;
    }
  }
}
