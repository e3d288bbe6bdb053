/** The top-level app's state: which screen is shown and the in-memory list
    of recipes created in this session. */
module Application {
  import opened Recipes
  import CreateForm

  /** What the container shows. */
  datatype Screen = RecipeFormScreen | RecipeListScreen

  /** `view === 'new'` selects the create form; any other value, 'list'
      included, selects the list. */
  function ScreenFor(view: string): (s: Screen)
    ensures s == RecipeFormScreen <==> view == "new"
  {
    if view == "new" then RecipeFormScreen else RecipeListScreen
  }

  /** The list after addRecipe: one entry more, at the end, holding the
      submitted recipe with its id replaced by old length + 1; the earlier
      entries are unchanged. */
  function WithRecipe(recipes: seq<Recipe>, recipe: Recipe): (r: seq<Recipe>)
    ensures |r| == |recipes| + 1
    ensures r[..|recipes|] == recipes
    ensures r[|recipes|] == recipe.(id := Some(|recipes| + 1))
  {
    recipes + [recipe.(id := Some(|recipes| + 1))]
  }

  /** Every entry's id is its 1-based position. */
  predicate IdsNumbered(recipes: seq<Recipe>) {
    forall i :: 0 <= i < |recipes| ==> recipes[i].id == Some(i + 1)
  }

  /** A number of addRecipe calls in a row. */
  function AddRecipes(recipes: seq<Recipe>, submitted: seq<Recipe>): seq<Recipe>
    decreases |submitted|
  {
    if submitted == [] then recipes else AddRecipes(WithRecipe(recipes, submitted[0]), submitted[1..])
  }

  /** k addRecipe calls append the k submitted recipes, in order, after the
      existing entries, the j-th with id old length + j. */
  lemma {:induction false} AddRecipesAppends(recipes: seq<Recipe>, submitted: seq<Recipe>)
    ensures var r := AddRecipes(recipes, submitted);
      && |r| == |recipes| + |submitted|
      && r[..|recipes|] == recipes
      && forall k :: 0 <= k < |submitted| ==>
           r[|recipes| + k] == submitted[k].(id := Some(|recipes| + k + 1))
    decreases |submitted|
  {
    if submitted != [] {
      var n := |recipes|;
      var r1 := WithRecipe(recipes, submitted[0]);
      AddRecipesAppends(r1, submitted[1..]);
      var r := AddRecipes(recipes, submitted);
      assert r == AddRecipes(r1, submitted[1..]);
      assert r[..n] == r1[..n] by {
        assert r[..n] == r[..n + 1][..n];
      }
      forall k | 0 <= k < |submitted|
        ensures r[n + k] == submitted[k].(id := Some(n + k + 1))
      {
        if k == 0 {
          assert r[n] == r[..n + 1][n];
        } else {
          assert submitted[1..][k - 1] == submitted[k];
        }
      }
    }
  }

  /** From the initial empty list, n addRecipe calls give the ids 1..n in
      order, so no two entries share an id, and each entry is the submitted
      recipe apart from its id. */
  lemma IdsFromEmptyList(submitted: seq<Recipe>)
    ensures var r := AddRecipes([], submitted);
      && |r| == |submitted|
      && IdsNumbered(r)
      && (forall i, j :: 0 <= i < j < |r| ==> r[i].id != r[j].id)
      && (forall i :: 0 <= i < |r| ==> r[i].(id := submitted[i].id) == submitted[i])
  {
    AddRecipesAppends([], submitted);
    var r := AddRecipes([], submitted);
    forall i | 0 <= i < |r|
      ensures r[i] == submitted[i].(id := Some(i + 1))
    {
      assert r[0 + i] == r[i];
    }
  }

  /** One addRecipe keeps the ids numbered 1..n. */
  lemma WithRecipeKeepsIds(recipes: seq<Recipe>, recipe: Recipe)
    requires IdsNumbered(recipes)
    ensures IdsNumbered(WithRecipe(recipes, recipe))
  {
    var r := WithRecipe(recipes, recipe);
    forall i | 0 <= i < |r|
      ensures r[i].id == Some(i + 1)
    {
      if i < |recipes| {
        assert r[i] == r[..|recipes|][i];
      }
    }
  }

  class App {
    var view: string
    var recipes: seq<Recipe>

    /** Every reachable list has the ids 1..n in order. */
    ghost predicate Valid()
      reads this
    {
      IdsNumbered(recipes)
    }

    /** The initial state: the list screen and no recipes. */
    constructor ()
      ensures Valid()
      ensures view == "list" && recipes == []
      ensures ScreenFor(view) == RecipeListScreen
    {
      view := "list";
      recipes := [];
    }

    /** setView, as the navigation bar calls it. */
    method SetView(v: string)
      requires Valid()
      modifies this
      ensures Valid()
      ensures view == v && recipes == old(recipes)
    {
      view := v;
    }

    /** addRecipe: appends the submitted recipe with id old length + 1; the
        view is not touched. */
    method AddRecipe(recipe: Recipe)
      requires Valid()
      modifies this
      ensures Valid()
      ensures recipes == WithRecipe(old(recipes), recipe)
      ensures view == old(view)
    {
      WithRecipeKeepsIds(recipes, recipe);
      recipes := WithRecipe(recipes, recipe);
    }
  }

  /** A click in the navigation bar. The create form exists only while the
      form screen is shown: entering that screen from another one mounts a
      fresh form, so whatever the form held before is gone; staying on it
      keeps the form as it is. The list is never touched. */
  method Navigate(app: App, form: CreateForm.RecipeForm, v: string)
    requires app.Valid() && form.Valid()
    modifies app, form
    ensures app.Valid() && form.Valid()
    ensures app.view == v && app.recipes == old(app.recipes)
    ensures ScreenFor(old(app.view)) != RecipeFormScreen && ScreenFor(v) == RecipeFormScreen ==>
      form.recipe == EmptyRecipe && form.ingredient == EmptyIngredientInput &&
      form.step == EmptyStepInput && form.tagInput == "" && form.message == ""
    ensures ScreenFor(old(app.view)) == RecipeFormScreen || ScreenFor(v) != RecipeFormScreen ==>
      form.recipe == old(form.recipe) && form.ingredient == old(form.ingredient) &&
      form.step == old(form.step) && form.tagInput == old(form.tagInput) &&
      form.message == old(form.message)
  {
    var entering := ScreenFor(app.view) != RecipeFormScreen && ScreenFor(v) == RecipeFormScreen;
    app.SetView(v);
    if entering {
      form.Remount();
    }
  }

  /** The create flow, with the form's onAddRecipe wired to the app's
      addRecipe. The form is mounted only while the view is 'new'. The draft
      as it was lands at the end of the list with the next id, the form
      starts over with the empty draft (its ingredient and step side-buffers
      are kept), and the app stays on the form screen. */
  method SubmitNewRecipe(app: App, form: CreateForm.RecipeForm)
    requires app.Valid() && form.Valid()
    requires ScreenFor(app.view) == RecipeFormScreen
    modifies app, form
    ensures app.Valid() && form.Valid()
    ensures app.recipes == WithRecipe(old(app.recipes), old(form.recipe))
    ensures app.view == old(app.view)
    ensures form.recipe == EmptyRecipe && form.tagInput == "" && form.message == CreateForm.AddedMessage
    ensures form.ingredient == old(form.ingredient) && form.step == old(form.step)
  {
    var submitted := form.HandleSubmit();
    app.AddRecipe(submitted);
  }
}
