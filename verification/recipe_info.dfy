/**
 `find_recipe_info(recipe, data)` (Main.py:58-68): the difficulty label and
 the time label a title is filed under, each the first in document order,
 and how they relate to `pick_recipe`.
 */
module RecipeInfo {
  import opened Wrappers
  import opened Recipes
  import opened Selector

  /** The pair `(recipe_diff, recipe_time)`; `None` where no list holds the
      title. */
  datatype Info = Info(difficulty: Option<string>, time: Option<string>)

  /** The key of the first entry of `es` whose list holds `title`: the loop
      with `break` of Main.py:60-63 and 64-67. */
  function FirstHolder(es: seq<Entry>, title: string): (r: Option<string>)
    ensures r.None? <==> title !in Listed(es)
    ensures r.Some? ==> exists i :: FirstHolderAt(es, title, i) && es[i].key == r.value
  {
    if es == [] then None
    else if title in es[0].titles then
      assert FirstHolderAt(es, title, 0);
      Some(es[0].key)
    else
      var r := FirstHolder(es[1..], title);
      ListedCons(es);
      if r.Some? then
        var i :| FirstHolderAt(es[1..], title, i) && es[1..][i].key == r.value;
        assert FirstHolderAt(es, title, i + 1);
        r
      else r
  }

  /** Entry `i` of `es` holds `title` and no earlier entry does. */
  predicate FirstHolderAt(es: seq<Entry>, title: string, i: int) {
    && 0 <= i < |es|
    && title in es[i].titles
    && forall j :: 0 <= j < i ==> title !in es[j].titles
  }

  /** `find_recipe_info(title, c)`. */
  function FindRecipeInfo(c: Corpus, title: string): (r: Info)
    ensures r.difficulty.Some? <==> title in Listed(c.difficulty)
    ensures r.time.Some? <==> title in Listed(c.time)
    ensures r.difficulty.Some? ==> title in Holding(c.difficulty, r.difficulty.value)
    ensures r.time.Some? ==> title in Holding(c.time, r.time.value)
  {
    var d := FirstHolder(c.difficulty, title);
    var t := FirstHolder(c.time, title);
    HolderHolds(c.difficulty, title);
    HolderHolds(c.time, title);
    Info(d, t)
  }

  lemma HolderHolds(es: seq<Entry>, title: string)
    ensures FirstHolder(es, title).Some? ==> title in Holding(es, FirstHolder(es, title).value)
  {
    var r := FirstHolder(es, title);
    if r.Some? {
      var i :| FirstHolderAt(es, title, i) && es[i].key == r.value;
      assert es[i] in es;
    }
  }

  /** Whatever `pick_recipe` returns is filed under some label, so the info
      shown beside it is never "Unknown" for both. */
  lemma PickedHasInfo(c: Corpus, diff: string, time: string, choice: nat)
    requires PickRecipe(c, diff, time, choice).Picked?
    ensures var r := FindRecipeInfo(c, PickRecipe(c, diff, time, choice).title);
      r.difficulty.Some? || r.time.Some?
  {
    var t := PickRecipe(c, diff, time, choice).title;
    assert t in Candidates(c, diff, time);
    if diff != "" {
      HoldingListed(c.difficulty, diff, t);
    }
    if time != "" {
      HoldingListed(c.time, time, t);
    }
  }

  lemma HoldingListed(es: seq<Entry>, name: string, t: string)
    ensures t in Holding(es, name) ==> t in Listed(es)
  {
    if t in Holding(es, name) {
      var e :| e in es && e.key == name && t in e.titles;
    }
  }

  /** Asking for a recipe's own two labels can bring that recipe back: it
      is among the candidates, so some draw picks it. */
  lemma OwnLabelsReachRecipe(c: Corpus, title: string)
    requires FindRecipeInfo(c, title).difficulty.Some? && FindRecipeInfo(c, title).time.Some?
    ensures var r := FindRecipeInfo(c, title);
      var diff, time := r.difficulty.value, r.time.value;
      exists choice: nat :: PickRecipe(c, diff, time, choice) == Picked(title)
  {
    var r := FindRecipeInfo(c, title);
    var diff, time := r.difficulty.value, r.time.value;
    HoldingListed(c.difficulty, diff, title);
    assert title in Candidates(c, diff, time);
    PickReaches(c, diff, time, title);
  }
}
