# Recipe manager front end: draft editing and the session recipe list

This project is a Dafny model of the client-side state logic of a small React
recipe manager, with proofs about that model. The logic covers three things:

- **Create form** (`RecipeForm`). It holds one recipe draft, three
  side-buffers (the next ingredient, the next step, the pending comma-separated
  tag text) and a status message. Its handlers edit a field, append an
  ingredient, a step or a batch of tags, and submit. Submitting hands the
  draft to the app and then resets the draft.
- **Edit form** (`RecipeEditForm`). It has the same handlers, but its
  append handlers do nothing on empty or blank input. Its draft is replaced
  wholesale whenever the recipe being edited changes. Its submit either
  succeeds, and the parent gets the server's recipe, or fails, and an error
  message is shown.
- **App**. It keeps a view switch, which starts at `'list'`, and the
  in-memory list of recipes created in the session. `addRecipe` appends the
  submitted recipe with the id `length + 1`.

Modules:

- `Tags` (tags.dfy): the tag parser `split(',')` / `trim()` /
  `filter(length > 0)`. Whitespace is the set of code points that
  JavaScript's `String.prototype.trim` removes.
- `Recipes` (recipes.dfy): the entities (`Recipe`, `Ingredient`, `Step`,
  `Tag` as `Str | Named`, and the side-buffers). It also holds the
  object-spread copies both forms build (`WithField`, `WithIngredient`,
  `WithStep`, `WithTags`), the tag display name, and the lemmas about
  repeated appends.
- `CreateForm` (create_form.dfy): the class `RecipeForm`. Its invariant
  `Valid()` says that every reachable draft has no id, ingredients and steps
  numbered 1..n, and only non-empty trimmed string tags.
- `EditForm` (edit_form.dfy): the class `RecipeEditForm`. The outcome of the
  update request is an input value.
- `Application` (app.dfy): the class `App`, whose invariant says the ids are
  1..n. The module also holds the screen selection and the create flow
  `SubmitNewRecipe`, with the form's `onAddRecipe` wired to `addRecipe`.

Every handler is one atomic state change. Two behaviours of the code are
worth stating plainly:

- Only the edit form guards its appends. The create form's `addIngredient`
  and `addStep` append even an empty entry (src/components/RecipeForm.js:40-65).
- The create form's submit makes no request. It calls `onAddRecipe`, and
  `App` appends the recipe locally with a client-made id
  (src/components/RecipeForm.js:83, src/App.js:16).

## Model

| member | source | states |
|---|---|---|
| `Tags.TrimStartIsSuffix` | src/components/RecipeForm.js:71 | trimming the start leaves the suffix after a blank prefix, and that suffix does not start with whitespace |
| `Tags.TrimEndIsPrefix` | src/components/RecipeForm.js:71 | trimming the end leaves the prefix before a blank suffix, and that prefix does not end with whitespace |
| `Tags.Trim` | src/components/RecipeForm.js:71 | `trim()` returns a string that neither starts nor ends with whitespace |
| `Tags.TrimIsSlice` | src/components/RecipeForm.js:71 | `trim()` returns the contiguous slice left once a blank prefix and a blank suffix are removed |
| `Tags.TrimEmptyIffBlank` | src/components/RecipeEditForm.js:67 | `trim()` is empty exactly when the input is blank, which is what the edit form's guard tests |
| `Tags.TrimOfTrimmed` | src/components/RecipeForm.js:71 | trimming a string with no leading or trailing whitespace returns it unchanged |
| `Tags.TrimIdempotent` | src/components/RecipeForm.js:71 | trimming twice gives the same result as trimming once |
| `Tags.Split` | src/components/RecipeForm.js:70 | `split(',')` returns at least one piece, and no piece contains a comma |
| `Tags.JoinSplit` | src/components/RecipeForm.js:70 | joining the pieces with commas gives back the input |
| `Tags.SplitJoin` | src/components/RecipeForm.js:70 | splitting comma-free pieces joined by commas gives back exactly those pieces |
| `Tags.SplitCommaFree` | src/components/RecipeForm.js:70 | an input with no comma splits into itself alone |
| `Tags.NonBlankParts` | src/components/RecipeForm.js:71-72 | after the trim-then-drop-empty steps, every surviving tag is non-empty and trimmed, and there are no more tags than pieces |
| `Tags.NonBlankPartsAppend` | src/components/RecipeForm.js:71-72 | the trim/filter steps work piece by piece: they keep the order and never merge or de-duplicate |
| `Tags.NonBlankPartsMembers` | src/components/RecipeForm.js:71-72 | a text survives exactly when it is the non-empty trim of some piece |
| `Tags.ParseTags` | src/components/RecipeForm.js:69-72 | every tag the parser produces is non-empty and has no leading or trailing whitespace |
| `Tags.ParseTagsMembers` | src/components/RecipeEditForm.js:68 | a tag is produced exactly when it is the non-empty trimmed text of one comma-separated piece of the input |
| `Tags.ParseTagsCommaFree` | src/components/RecipeForm.js:69-72 | no produced tag contains a comma |
| `Tags.ParseTagsOfJoin` | src/components/RecipeForm.js:69-72 | parsing comma-free pieces joined by commas gives their trimmed non-empty texts, in order |
| `Tags.BlankInputHasNoTags` | src/components/RecipeEditForm.js:67-68 | a blank input produces no tag |
| `Tags.ParseTagsPadded` | src/components/RecipeEditForm.js:68 | for any three tags a, b, c, the input `a, b ,, c` parses to exactly `[a, b, c]` |
| `Tags.ParseTagsExample` | src/components/RecipeForm.js:69-72 | `"a, b ,, c"` parses to `["a","b","c"]` |
| `Tags.ParseTagsKeepsDuplicates` | src/components/RecipeForm.js:73-76 | `t,t` parses to `[t, t]`: tags are not de-duplicated |
| `Tags.CommasAloneAddNoTags` | src/components/RecipeEditForm.js:67-68 | `","` is not blank, so it passes the edit form's guard, and it still produces no tag |
| `Recipes.DisplayName` | src/components/RecipeCard.js:24 | a bare string tag shows its own text and a named tag shows its name; only a named tag with an empty name gives no text |
| `Recipes.WithField` | src/components/RecipeForm.js:34-37 | `handleChange` sets exactly the named field; every other field, and the id, ingredients, steps and tags, stay unchanged |
| `Recipes.WithInputValue` | src/components/RecipeEditForm.js:30-33 | updating the ingredient side-buffer sets exactly the named field and keeps the other two |
| `Recipes.WithIngredient` | src/components/RecipeForm.js:40-49 | exactly one entry is appended, carrying the side-buffer's three fields and `ingredientOrder` = old length + 1; earlier entries and every other part of the draft are unchanged |
| `Recipes.WithStep` | src/components/RecipeForm.js:54-63 | exactly one step is appended, with `stepNumber` = old length + 1; nothing else changes |
| `Recipes.WithTags` | src/components/RecipeForm.js:73-76 | the existing tags are kept, then exactly the parsed tags follow, in order, as bare strings; nothing else changes |
| `Recipes.WithIngredientKeepsNumbering` | src/components/RecipeForm.js:42-45 | if the ingredients are numbered 1..n, one append keeps them numbered 1..n+1 |
| `Recipes.WithStepKeepsNumbering` | src/components/RecipeForm.js:56-59 | if the steps are numbered 1..n, one append keeps them numbered 1..n+1 |
| `Recipes.AddIngredientsAppends` | src/components/RecipeForm.js:40-51 | k appends add k entries after the existing ones; the j-th carries the j-th buffer value and the order old length + j; nothing else changes |
| `Recipes.AddIngredientsNumbered` | src/components/RecipeForm.js:44 | any number of appends keeps the ingredient orders 1..n |
| `Recipes.AddStepsAppends` | src/components/RecipeForm.js:54-65 | k appends add k steps; the j-th has the j-th instruction and number old length + j; nothing else changes |
| `Recipes.AddStepsNumbered` | src/components/RecipeForm.js:58 | any number of appends keeps the step numbers 1..n |
| `Recipes.IngredientsFromEmptyDraft` | src/components/RecipeForm.js:12-44 | from the empty draft, n appends give the orders exactly 1..n in append order, empty names included |
| `Recipes.StepsFromEmptyDraft` | src/components/RecipeForm.js:13-58 | from the empty draft, n appends give the step numbers exactly 1..n in order |
| `Recipes.WithTagsKeepsCleanTags` | src/components/RecipeForm.js:68-76 | adding parsed tags to non-empty trimmed string tags leaves only non-empty trimmed string tags |
| `Recipes.WithBlankTagsIsUnchanged` | src/components/RecipeEditForm.js:66-68 | a blank tag input leaves the draft unchanged, so the two forms' addTags differ on blank input only in whether `tagInput` is cleared |
| `Recipes.CleanTagsDisplayAsText` | src/components/RecipeDetailsModal.js:45 | the tags a form adds each show as their own non-empty text |
| `CreateForm.RecipeForm.constructor` | src/components/RecipeForm.js:6-31 | the initial state is the empty draft, empty side-buffers and no message |
| `CreateForm.RecipeForm.Remount` | src/components/RecipeForm.js:6-31 | a freshly mounted form (after the app comes back to the form screen) holds the empty draft, empty side-buffers and no message again |
| `CreateForm.RecipeForm.HandleChange` | src/components/RecipeForm.js:34-37 | the draft takes the field's new value; the side-buffers and the message are unchanged |
| `CreateForm.RecipeForm.ChangeIngredient` | src/components/RecipeForm.js:174-192 | one field of the ingredient buffer takes the typed value; everything else is unchanged |
| `CreateForm.RecipeForm.ChangeInstruction` | src/components/RecipeForm.js:215-217 | the step buffer takes the typed instruction; everything else is unchanged |
| `CreateForm.RecipeForm.ChangeTagInput` | src/components/RecipeForm.js:233 | the tag input takes the typed text; everything else is unchanged |
| `CreateForm.RecipeForm.AddIngredient` | src/components/RecipeForm.js:40-51 | with no guard, the buffer is appended, empty name included, and then reset to three empty strings; the other buffers are unchanged |
| `CreateForm.RecipeForm.AddStep` | src/components/RecipeForm.js:54-65 | with no guard, the step is appended and the instruction buffer is cleared |
| `CreateForm.RecipeForm.AddTags` | src/components/RecipeForm.js:68-78 | the parsed tags are appended and `tagInput` is always cleared, even when nothing was appended |
| `CreateForm.RecipeForm.HandleSubmit` | src/components/RecipeForm.js:81-96 | the draft as it was before the reset is returned (for `onAddRecipe`); the draft becomes the empty recipe, `tagInput` is cleared and the success message is set; the ingredient and step buffers are untouched |
| `EditForm.RecipeEditForm.constructor` | src/components/RecipeEditForm.js:5-18 | the draft equals `initialRecipe`; the side-buffers are empty and there is no message |
| `EditForm.RecipeEditForm.ResyncInitialRecipe` | src/components/RecipeEditForm.js:21-23 | a new `initialRecipe` replaces the draft wholesale; the three side-buffers and the message are unchanged |
| `EditForm.RecipeEditForm.HandleChange` | src/components/RecipeEditForm.js:25-28 | exactly one top-level field is merged in; everything else is unchanged |
| `EditForm.RecipeEditForm.HandleIngredientChange` | src/components/RecipeEditForm.js:30-33 | only the named field of the ingredient buffer changes |
| `EditForm.RecipeEditForm.HandleStepChange` | src/components/RecipeEditForm.js:48-51 | only the step buffer's instruction changes |
| `EditForm.RecipeEditForm.ChangeTagInput` | src/components/RecipeEditForm.js:178 | the tag input takes the typed text; everything else is unchanged |
| `EditForm.RecipeEditForm.AddIngredient` | src/components/RecipeEditForm.js:35-46 | with an empty name this is a complete no-op; otherwise the buffer is appended with order old length + 1 and then cleared |
| `EditForm.RecipeEditForm.AddStep` | src/components/RecipeEditForm.js:53-64 | with an empty instruction this is a no-op; otherwise the step is appended with number old length + 1 and the buffer is cleared |
| `EditForm.RecipeEditForm.AddTags` | src/components/RecipeEditForm.js:66-74 | with blank input this is a no-op and `tagInput` is not cleared; otherwise the parsed tags follow the existing ones and `tagInput` is cleared |
| `EditForm.RecipeEditForm.HandleSubmit` | src/components/RecipeEditForm.js:76-87 | the draft is the request body; on success the message is `'Recipe updated successfully!'` and `onUpdate` gets the server's recipe; if `onUpdate` throws, it has still received the server's recipe but the catch replaces the message with `'Error updating recipe.'`; on a failed request the message is `'Error updating recipe.'` and nobody is notified; the draft is kept in every case |
| `Application.ScreenFor` | src/App.js:24-28 | the form is shown exactly when the view is `'new'`; any other value shows the list |
| `Application.WithRecipe` | src/App.js:14-18 | the list grows by exactly one, at the end; the new entry is the submitted recipe with `id` = old length + 1, overriding any id it had; earlier entries are unchanged |
| `Application.AddRecipesAppends` | src/App.js:14-18 | k calls append the k submitted recipes in order, the j-th with id old length + j |
| `Application.IdsFromEmptyList` | src/App.js:11-18 | from the initial empty list, n calls give the ids 1..n in order, so the ids are pairwise distinct, and each entry is the submitted recipe apart from its id |
| `Application.WithRecipeKeepsIds` | src/App.js:16-17 | one call keeps the ids numbered 1..n |
| `Application.App.constructor` | src/App.js:9-11 | the initial state is `view = 'list'` (the list screen) and `recipes = []` |
| `Application.App.SetView` | src/App.js:9 | the view takes the new value; the list is unchanged |
| `Application.App.AddRecipe` | src/App.js:14-18 | the list becomes `WithRecipe(old list, recipe)`, its ids stay 1..n, and `view` never changes |
| `Application.Navigate` | src/App.js:22-28 | a navigation click sets the view and keeps the list; entering the form screen from another screen mounts a fresh create form (every slot back to its initial value); otherwise the form's state is kept |
| `Application.SubmitNewRecipe` | src/App.js:24-25 | only while the form is shown (`view` is `'new'`): when the form submits, the draft as it was lands at the end of the list with the next id, the draft and `tagInput` reset, the ingredient and step side-buffers are kept, and the view stays the same |

## Left out

- Rendering (JSX, CSS, react-bootstrap), the recipe list, card and details
  views, the edit modal wrapper and the navigation bar are left out: they are
  presentation only. The navigation bar's clicks (`setView('list')` and
  `setView('new')`) are `Application.Navigate`. The cancel button of the edit form calls the parent's
  `onCancel` and changes no state of the form.
- The HTTP request of the edit form's submit and its base URL from the
  environment are left out. The request's outcome is the parameter of
  `HandleSubmit`, and the error logging to the console is left out.
- The timer that clears the create form's message after three seconds is
  left out. So is the scheduling of React effects: the resync is modelled as
  a method called when the prop changes.
- React's batching and stale closures are left out: each handler is atomic.
  Both forms compute the new position from the render's `recipe` but append
  to `prev`, and `App` computes the id from the render's `recipes`. These
  agree when handlers run one at a time. Two updates batched into one render
  could give equal positions or ids, and the model does not capture that.
- HTML `required` and `type="number"` constraints are enforced by the
  browser, so they are left out. Times, servings and quantities stay strings.
- Recipe.id: the type is `Option<int>`. The create draft has no id, and a
  server id can be any integer.
- Server-returned records may carry extra fields (such as ids on
  ingredients or tags), and those are left out. Ingredients, steps and named
  tags have exactly the fields listed in `Recipes`.
- `handleChange`/`handleIngredientChange` accept any `name` in JavaScript.
  The model allows only the `name`s of the inputs actually wired to them: the
  five scalar recipe fields and the three ingredient fields.
- Strings are sequences of Unicode code points, not UTF-16 code units. This
  does not affect trimming or splitting, because no whitespace character and
  no comma lies outside the Basic Multilingual Plane.
- Application.App.SetView: on its own it does not touch the create form.
  In the app, leaving `'new'` unmounts the form and discards its state. The
  model keeps the form object but resets it when the form screen is entered
  again (`Application.Navigate`), so the discarded state is never observed.
- Recipe: `ingredients`, `steps` and `tags` are always present. A recipe
  handed to the edit form without one of them makes the JavaScript handlers
  throw a TypeError (src/components/RecipeEditForm.js:39, :57, :71). The
  list views allow such recipes (src/components/RecipeList.js:20-42,
  src/components/RecipeCard.js:19). The model does not capture that error
  path.
- EditForm.RecipeEditForm.HandleSubmit: the PUT and the handling of its
  response form one atomic step. Edits made while the request is in flight,
  and a response to an older draft, are not modelled.
- Fetching, deleting, updating in place and filtering by tag are left out:
  none of them is implemented in the files modelled here.
