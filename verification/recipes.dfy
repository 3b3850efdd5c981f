/**
 The recipe document `pick_recipe` and `find_recipe_info` (Main.py:58-97)
 read: a JSON object with a "difficulty" and a "time" member, each mapping a
 label ("1" … "4", "Under 30 minutes", …) to a list of page titles.  A JSON
 object is an ordered dictionary with distinct keys; here it is a sequence of
 entries whose labels are distinct.
 */
module Recipes {
  import opened Wrappers

  /** One member of a category object: its key (a label) and the titles filed
      under it. */
  datatype Entry = Entry(key: string, titles: seq<string>)

  predicate DistinctKeys(es: seq<Entry>) {
    forall i, j :: 0 <= i < j < |es| ==> es[i].key != es[j].key
  }

  /** A category object (`data["difficulty"]` or `data["time"]`). */
  type Category = es: seq<Entry> | DistinctKeys(es)

  /** The whole recipe document. */
  datatype Corpus = Corpus(difficulty: Category, time: Category)

  /** The set of elements of a list, as `set(xs)` builds it. */
  function Members(xs: seq<string>): set<string> {
    set x | x in xs
  }

  lemma MembersEmpty(xs: seq<string>)
    ensures Members(xs) == {} <==> xs == []
  {
    if xs != [] {
      assert xs[0] in Members(xs);
    }
  }

  /** No title occurs twice. */
  predicate Distinct(xs: seq<string>) {
    forall i, j :: 0 <= i < j < |xs| ==> xs[i] != xs[j]
  }

  // ---------------------------------------------------------------------
  // Dictionary access

  /** Where the entry labelled `name` sits in `es`, or `|es|` when there is
      none; with distinct labels there is at most one. */
  function IndexOf(es: seq<Entry>, name: string): (i: nat)
    ensures i <= |es|
    ensures i < |es| ==> es[i].key == name
    ensures forall j :: 0 <= j < i ==> es[j].key != name
  {
    if es == [] then 0
    else if es[0].key == name then 0
    else 1 + IndexOf(es[1..], name)
  }

  /** `d[name]` when `name in d`: the titles filed under `name`, if it is a
      key. */
  function Lookup(es: seq<Entry>, name: string): (r: Option<seq<string>>)
    ensures r.None? <==> forall e :: e in es ==> e.key != name
    ensures r.Some? ==> Entry(name, r.value) in es
  {
    var i := IndexOf(es, name);
    if i < |es| then Some(es[i].titles) else None
  }

  /** The list `pick_recipe` turns into `difficulty_set` or `time_set`:
      `d[name]` when `name` is non-empty and a key of `d`, otherwise
      nothing (Main.py:74-78). */
  function Bucket(es: seq<Entry>, name: string): (b: seq<string>)
    ensures name == "" ==> b == []
    ensures b != [] ==> Entry(name, b) in es
    ensures name != "" && (exists e :: e in es && e.key == name) ==> Entry(name, b) in es
    ensures (forall e :: e in es ==> e.key != name) ==> b == []
  {
    if name != "" && Lookup(es, name).Some? then Lookup(es, name).value else []
  }

  /** Every title filed under `name`, whichever entries carry it. */
  ghost function Holding(es: seq<Entry>, name: string): set<string> {
    set e, t | e in es && e.key == name && t in e.titles :: t
  }

  /** Every title filed under any label. */
  ghost function Listed(es: seq<Entry>): set<string> {
    set e, t | e in es && t in e.titles :: t
  }

  /** With distinct labels, the looked-up bucket holds exactly the titles
      filed under the label. */
  lemma BucketIsHolding(es: Category, name: string)
    requires name != ""
    ensures Members(Bucket(es, name)) == Holding(es, name)
  {
    var b := Bucket(es, name);
    var i := IndexOf(es, name);
    forall t | t in Holding(es, name) ensures t in b {
      var e :| e in es && e.key == name && t in e.titles;
      var k :| 0 <= k < |es| && es[k] == e;
      assert i == k;
    }
  }

  // ---------------------------------------------------------------------
  // List operations of `pick_recipe`

  /** `difficulty_set & time_set` as a list, in the order of `xs`. */
  function Common(xs: seq<string>, ys: seq<string>): (r: seq<string>)
    ensures forall x :: x in r <==> x in xs && x in ys
    ensures Members(r) == Members(xs) * Members(ys)
  {
    if xs == [] then []
    else
      var rest := Common(xs[1..], ys);
      if xs[0] in ys then [xs[0]] + rest else rest
  }

  /** `list(set(xs))`: each title once.  Python's set iteration order is
      not modelled; the last occurrence of each title is kept. */
  function Dedup(xs: seq<string>): (r: seq<string>)
    ensures forall x :: x in r <==> x in xs
    ensures Members(r) == Members(xs)
    ensures Distinct(r)
  {
    if xs == [] then []
    else if xs[0] in xs[1..] then Dedup(xs[1..])
    else [xs[0]] + Dedup(xs[1..])
  }

  /** `all_recipes`: the lists of `es` joined in order, duplicates kept
      (Main.py:94-96). */
  function AllTitles(es: seq<Entry>): (r: seq<string>)
    ensures Members(r) == Listed(es)
  {
    if es == [] then []
    else
      var rest := AllTitles(es[1..]);
      assert Listed(es) == Members(es[0].titles) + Listed(es[1..]) by {
        ListedCons(es);
      }
      es[0].titles + rest
  }

  lemma ListedCons(es: seq<Entry>)
    requires es != []
    ensures Listed(es) == Members(es[0].titles) + Listed(es[1..])
  {
    forall t | t in Listed(es) ensures t in Members(es[0].titles) + Listed(es[1..]) {
      var e :| e in es && t in e.titles;
      if e != es[0] {
        var k :| 0 <= k < |es| && es[k] == e;
        assert es[1..][k - 1] == e;
      }
    }
  }

  // ---------------------------------------------------------------------
  // Counting

  /** How many times `x` is filed, over all labels, counting repeats. */
  function TimesListed(es: seq<Entry>, x: string): nat {
    if es == [] then 0 else multiset(es[0].titles)[x] + TimesListed(es[1..], x)
  }

  /** `all_recipes` holds every title as often as the difficulty lists file
      it. */
  lemma {:induction false} AllTitlesCount(es: seq<Entry>, x: string)
    ensures multiset(AllTitles(es))[x] == TimesListed(es, x)
  {
    if es != [] {
      AllTitlesCount(es[1..], x);
    }
  }

  /** The positions of `xs` that hold `x`. */
  function Positions(xs: seq<string>, x: string): set<nat> {
    set i: nat | i < |xs| && xs[i] == x
  }

  /** `x` sits at as many positions of `xs` as it occurs in `xs`. */
  lemma {:induction false} PositionsCount(xs: seq<string>, x: string)
    ensures |Positions(xs, x)| == multiset(xs)[x]
  {
    if xs != [] {
      var n := |xs| - 1;
      var front := xs[..n];
      PositionsCount(front, x);
      assert xs == front + [xs[n]];
      if xs[n] == x {
        assert Positions(xs, x) == Positions(front, x) + {n};
      } else {
        assert Positions(xs, x) == Positions(front, x);
      }
    }
  }

  /** A list without repeats is as long as its set of members. */
  lemma {:induction false} DistinctSize(xs: seq<string>)
    requires Distinct(xs)
    ensures |Members(xs)| == |xs|
  {
    if xs != [] {
      DistinctSize(xs[1..]);
      assert Members(xs) == {xs[0]} + Members(xs[1..]);
      assert xs[0] !in xs[1..];
    }
  }
}
