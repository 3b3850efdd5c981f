/**
 The recipe document as `json.load` may return it: either top-level member
 can be absent.  `find_recipe_info` reads the members with `.get(key, {})`
 (Main.py:60, 64); `pick_recipe` indexes them with `data[key]` (Main.py:74,
 77, 95), which raises `KeyError` when the member is absent and the
 expression is evaluated.
 */
module Document {
  import opened Wrappers
  import opened Recipes
  import opened Selector
  import opened RecipeInfo

  datatype Doc = Doc(difficulty: Option<Category>, time: Option<Category>)

  /** `data.get(key, {})`. */
  function Present(m: Option<Category>): (es: Category)
    ensures m.None? ==> es == []
  {
    if m.Some? then m.value else []
  }

  /** The document with absent members read as empty ones. */
  function Loaded(doc: Doc): Corpus {
    Corpus(Present(doc.difficulty), Present(doc.time))
  }

  /** How a call ends: normally, or with `KeyError(key)`. */
  datatype Call = Returned(outcome: Outcome) | KeyError(key: string)

  /** `pick_recipe(doc, diff, time)` with the random draw `choice`.  Because
      `and` short-circuits, `data["difficulty"]` is evaluated only when the
      difficulty label is non-empty or the all-recipes branch is reached,
      and `data["time"]` only when the time label is non-empty. */
  function PickFromDocument(doc: Doc, diff: string, time: string, choice: nat): (r: Call)
    ensures r.KeyError? <==>
      || (diff != "" && doc.difficulty.None?)
      || (time != "" && doc.time.None?)
      || (doc.difficulty.None? && Unfiltered(Loaded(doc), diff, time))
    ensures r.KeyError? ==> r.key == "difficulty" || r.key == "time"
    ensures r == KeyError("time") <==>
      (diff == "" || doc.difficulty.Some?) && time != "" && doc.time.None?
    ensures r.Returned? ==> r.outcome == PickRecipe(Loaded(doc), diff, time, choice)
  {
    if diff != "" && doc.difficulty.None? then KeyError("difficulty")
    else if time != "" && doc.time.None? then KeyError("time")
    else
      var c := Loaded(doc);
      BucketFilter(c.difficulty, diff);
      BucketFilter(c.time, time);
      var d := Bucket(c.difficulty, diff);
      var t := Bucket(c.time, time);
      if !(diff != "" && time != "") && t == [] && d == [] && doc.difficulty.None? then
        KeyError("difficulty")
      else
        Returned(PickRecipe(c, diff, time, choice))
  }

  /** An absent "time" member is harmless as long as no time label is
      chosen: the call ends as it would with an empty one. */
  lemma AbsentTimeUnread(doc: Doc, diff: string, choice: nat)
    requires doc.time.None?
    ensures PickFromDocument(doc, diff, "", choice) == PickFromDocument(doc.(time := Some([])), diff, "", choice)
  {
    assert Loaded(doc) == Loaded(doc.(time := Some([])));
  }

  /** `find_recipe_info(title, doc)`: an absent member finds no label, and
      a present one finds a label exactly when it lists the title. */
  function FindInDocument(doc: Doc, title: string): (r: Info)
    ensures doc.difficulty.None? ==> r.difficulty.None?
    ensures doc.time.None? ==> r.time.None?
    ensures r.difficulty.Some? ==> title in Holding(Present(doc.difficulty), r.difficulty.value)
    ensures r.time.Some? ==> title in Holding(Present(doc.time), r.time.value)
    ensures r.difficulty.Some? <==> title in Listed(Present(doc.difficulty))
    ensures r.time.Some? <==> title in Listed(Present(doc.time))
  {
    var c := Loaded(doc);
    assert Listed([]) == {};
    FindRecipeInfo(c, title)
  }
}
