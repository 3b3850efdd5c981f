/**
 `pick_recipe(data, chosen_diff, chosen_time)` (Main.py:71-97): choose a
 recipe title at random, narrowed by a difficulty and a time label when they
 are given.  The random draw is the parameter `choice`; `random.choice(xs)`
 and "shuffle, then take the first" both become `xs[choice % |xs|]`.
 */
module Selector {
  import opened Wrappers
  import opened Recipes

  /** What a call of `pick_recipe` ends in: a title, `None` (the
      both-labels branch finds nothing), or the `IndexError` that
      `random.choice([])` raises when the document lists no recipe at all. */
  datatype Outcome = Picked(title: string) | NoRecipe | EmptyChoice

  /** A random draw from `pool`. */
  function Draw(pool: seq<string>, choice: nat): (o: Outcome)
    ensures o == EmptyChoice <==> pool == []
    ensures o.Picked? ==> o.title in pool
    ensures pool != [] ==> o.Picked?
  {
    if pool == [] then EmptyChoice else Picked(pool[choice % |pool|])
  }

  /** A draw below the pool size takes the title at that position. */
  lemma DrawAt(pool: seq<string>, i: nat)
    requires i < |pool|
    ensures Draw(pool, i) == Picked(pool[i])
  {
    assert i % |pool| == i;
  }

  /** Every member of the pool is drawn by some choice. */
  lemma DrawReaches(pool: seq<string>, t: string)
    requires t in pool
    ensures exists choice: nat :: Draw(pool, choice) == Picked(t)
  {
    var i :| 0 <= i < |pool| && pool[i] == t;
    DrawAt(pool, i);
  }

  /** Among the first `|pool|` draws, those that give `t` are exactly the
      positions of `t` in the pool. */
  lemma DrawPositions(pool: seq<string>, t: string)
    ensures (set i: nat | i < |pool| && Draw(pool, i) == Picked(t)) == Positions(pool, t)
  {
  }

  // ---------------------------------------------------------------------
  // The reference: which titles may come out

  /** The titles a label narrows to; an empty label narrows to nothing. */
  ghost function Filter(es: seq<Entry>, name: string): set<string> {
    if name == "" then {} else Holding(es, name)
  }

  /** The titles `pick_recipe` may return, branch by branch: with both
      labels given, the titles carrying both, else those with the time
      label, else those with the difficulty label; with at most one label
      given, its titles (time first), else every title filed under any
      difficulty. */
  ghost function Candidates(c: Corpus, diff: string, time: string): set<string> {
    var d := Filter(c.difficulty, diff);
    var t := Filter(c.time, time);
    if diff != "" && time != "" then
      if d * t != {} then d * t else if t != {} then t else d
    else if t != {} then t
    else if d != {} then d
    else Listed(c.difficulty)
  }

  /** The draw is over every difficulty list joined, not over a filtered set. */
  ghost predicate Unfiltered(c: Corpus, diff: string, time: string) {
    && !(diff != "" && time != "")
    && Filter(c.time, time) == {}
    && Filter(c.difficulty, diff) == {}
  }

  // ---------------------------------------------------------------------
  // The operation

  /** The list `pick_recipe` draws from, or `None` when it returns `None`
      without drawing. */
  function Pool(c: Corpus, diff: string, time: string): (p: Option<seq<string>>)
    ensures p.None? <==> diff != "" && time != "" && Candidates(c, diff, time) == {}
    ensures p.Some? ==> Members(p.value) == Candidates(c, diff, time)
    ensures p.Some? && !Unfiltered(c, diff, time) ==> Distinct(p.value)
    ensures Unfiltered(c, diff, time) ==> p == Some(AllTitles(c.difficulty))
  {
    var d := Bucket(c.difficulty, diff);
    var t := Bucket(c.time, time);
    BucketFilter(c.difficulty, diff);
    BucketFilter(c.time, time);
    if diff != "" && time != "" then
      var both := Dedup(Common(d, t));
      MembersEmpty(both);
      if both != [] then Some(both)
      else if t != [] then Some(Dedup(t))
      else if d != [] then Some(Dedup(d))
      else None
    else if time != "" && t != [] then Some(Dedup(t))
    else if diff != "" && d != [] then Some(Dedup(d))
    else Some(AllTitles(c.difficulty))
  }

  lemma BucketFilter(es: Category, name: string)
    ensures Members(Bucket(es, name)) == Filter(es, name)
    ensures Bucket(es, name) == [] <==> Filter(es, name) == {}
  {
    if name != "" {
      BucketIsHolding(es, name);
    }
    var b := Bucket(es, name);
    if b != [] {
      assert b[0] in Members(b);
    }
  }

  /** `pick_recipe(c, diff, time)` with the random draw `choice`. */
  function PickRecipe(c: Corpus, diff: string, time: string, choice: nat): (o: Outcome)
    ensures o.Picked? ==> o.title in Candidates(c, diff, time)
    ensures o == NoRecipe <==> diff != "" && time != "" && Candidates(c, diff, time) == {}
    ensures o == EmptyChoice <==> !(diff != "" && time != "") && Candidates(c, diff, time) == {}
  {
    match Pool(c, diff, time)
    case None => NoRecipe
    case Some(p) => Draw(p, choice)
  }

  // ---------------------------------------------------------------------
  // Properties relating several draws

  /** Every candidate can come out: some draw picks it. */
  lemma PickReaches(c: Corpus, diff: string, time: string, t: string)
    requires t in Candidates(c, diff, time)
    ensures exists choice: nat :: PickRecipe(c, diff, time, choice) == Picked(t)
  {
    var p := Pool(c, diff, time).value;
    assert t in Members(p);
    DrawReaches(p, t);
    var i: nat :| Draw(p, i) == Picked(t);
    PickIsDraw(c, diff, time, i);
    assert PickRecipe(c, diff, time, i) == Picked(t);
  }

  lemma PickIsDraw(c: Corpus, diff: string, time: string, choice: nat)
    requires Pool(c, diff, time).Some?
    ensures PickRecipe(c, diff, time, choice) == Draw(Pool(c, diff, time).value, choice)
  {
  }

  /** The draws below `n` that pick `t`. */
  ghost function Hits(c: Corpus, diff: string, time: string, t: string, n: nat): set<nat> {
    set i: nat | i < n && PickRecipe(c, diff, time, i) == Picked(t)
  }

  /** The first `|pool|` draws pick `t` exactly at its positions in the pool. */
  lemma HitsArePositions(c: Corpus, diff: string, time: string, t: string)
    requires Pool(c, diff, time).Some?
    ensures var p := Pool(c, diff, time).value;
      Hits(c, diff, time, t, |p|) == Positions(p, t)
  {
    var p := Pool(c, diff, time).value;
    DrawPositions(p, t);
  }

  /** When a label narrows the draw, each candidate is picked by exactly one
      of the first `|Candidates|` draws: the draw is uniform over the
      candidate set. */
  lemma PickUniform(c: Corpus, diff: string, time: string, t: string)
    requires !Unfiltered(c, diff, time)
    requires t in Candidates(c, diff, time)
    ensures |Hits(c, diff, time, t, |Candidates(c, diff, time)|)| == 1
  {
    var p := Pool(c, diff, time).value;
    DistinctSize(p);
    HitsArePositions(c, diff, time, t);
    SinglePosition(p, t);
  }

  lemma SinglePosition(p: seq<string>, t: string)
    requires Distinct(p) && t in p
    ensures |Positions(p, t)| == 1
  {
    var k :| 0 <= k < |p| && p[k] == t;
    assert Positions(p, t) == {k};
  }

  /** Without a narrowing label the draw is over every difficulty list
      joined, so among the first `|all_recipes|` draws a title comes out as
      many times as the difficulty lists file it. */
  lemma PickWeights(c: Corpus, diff: string, time: string, t: string)
    requires Unfiltered(c, diff, time)
    ensures |Hits(c, diff, time, t, |AllTitles(c.difficulty)|)| == TimesListed(c.difficulty, t)
  {
    var p := AllTitles(c.difficulty);
    HitsArePositions(c, diff, time, t);
    PositionsCount(p, t);
    AllTitlesCount(c.difficulty, t);
  }
}
