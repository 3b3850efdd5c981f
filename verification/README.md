# Divined Cookbook: recipe selection and wikitext cleaning, in Dafny

This project models the logic core of the Divined Cookbook desktop app
(`Main.py`).

- **`pick_recipe`** draws a random recipe title from the recipe document.
  The draw is narrowed by an optional difficulty label and an optional time
  label, where the empty string means "not chosen".
- **`find_recipe_info`** looks a title up in the document. It returns the
  first difficulty label and the first time label that file it.
- **`clean_wikitext`** turns a recipe page's wikitext into display text. It
  is a fixed sequence of eight rewrites:
  1. cut at a "See also" heading;
  2. drop category links;
  3. drop lower-case-prefixed links;
  4. drop templates;
  5. unpipe links;
  6. unwrap bare links;
  7. drop file and image links;
  8. collapse newline runs and strip.

The document is modelled as an ordered sequence of `(label, titles)` entries
per category. Iteration order decides `find_recipe_info`'s answer, and JSON
object keys are distinct. The random draw is an explicit parameter `choice`:
`random.choice(xs)` and "shuffle, then take the first" both pick
`xs[choice % |xs|]`.

Each regular expression is a hand-written scanner (`Patterns`), run by one
`re.sub` driver (`Rewrite.Sub`). The driver takes the leftmost match, never
overlaps matches, resumes after each replacement and never rescans. Every
repetition in these patterns either ends the pattern or is followed by a
character its class excludes. The greedy run is the one the engine takes,
and backtracking never yields a different match: `\n{3,}` ends its pattern,
so on five newlines a run of three would also match, but the engine
succeeds on the greedy run first. The scanners' own contracts carry
only what the driver needs. What each one matches is stated by the `Shapes` lemmas in both directions: every
match has the pattern's shape, and every text of that shape is matched whole.

Modules:

- `Chars`: Python's whitespace and `re.IGNORECASE` letter matching, and maximal runs.
- `Rewrite`: `re.sub` over a scanner.
- `Patterns`: the seven patterns and their scanners.
- `Shapes` and `Rewriting`: what the patterns match.
- `Cleaner`: the pipeline.
- `CleaningFacts`: the "See also" heading as a shape, and plain text passing through.
- `FileLinks`: the finding below.
- `Recipes`: the document and its list operations.
- `Selector`: `pick_recipe`.
- `RecipeInfo`: `find_recipe_info`.
- `Document`: the document with absent members, and the `KeyError`s that follow.

## Model

| member | source | states |
|---|---|---|
| `Cleaner.FirstSeeAlso` | Main.py:47 | the search inside `re.split`: the first offset at or after the start where a "See also" heading begins, or the end of the text when none does |
| `Cleaner.TruncateAtSeeAlso` | Main.py:47 | the kept text is a prefix of the input; no "See also" heading starts inside it; when text was cut, a heading starts exactly at the cut |
| `Cleaner.TruncateKeepsAllIff` | Main.py:47 | the whole text is kept if and only if no "See also" heading occurs anywhere in it |
| `CleaningFacts.SeeAlsoAtIff` | Main.py:47 | the scan for `==\s*See also\s*==` succeeds at an offset exactly when the text there is two equals signs, whitespace, "see also" in any case Python accepts, whitespace, two equals signs |
| `CleaningFacts.TruncateAtFirstHeading` | Main.py:47 | step 1 keeps exactly the text before the first heading in that sense, and all of it when there is none |
| `Rewrite.Sub` | Main.py:48-54 | `re.sub` over a scanner; its own contract states only that the result is never longer than the input (the lemmas below state what it does) |
| `Rewrite.SubUnchangedIff` | Main.py:48-54 | `re.sub` leaves a text unchanged if and only if the pattern matches at no offset |
| `Rewrite.SubPassThrough` | Main.py:48-54 | text in which the pattern's opening character does not occur is copied through, and the rewriting of what follows is unaffected |
| `Rewrite.SubReplacesHit` | Main.py:48-54 | a match at the first occurrence of the opening character is replaced, and scanning resumes right after it |
| `Patterns.Substitute` | Main.py:48-54 | no rewrite step makes the text longer |
| `Shapes.MatchHasShape` | Main.py:48-54 | whatever a scanner matches is a whole instance of its pattern, and the replacement is what the pattern says |
| `Shapes.ShapeMatches` | Main.py:48-54 | every instance of a pattern at the front of a text is matched whole, whatever follows it (for the newline pattern, when no further newline follows) |
| `Rewriting.RewriteInPlace` | Main.py:48-54 | an instance of a pattern preceded by text without its opening character is replaced in place, and the rest is rewritten on its own |
| `Rewriting.RewriteWhole` | Main.py:48-54 | a text that is one whole instance of a pattern becomes that instance's replacement |
| `CleaningFacts.SubstituteWithoutOpener` | Main.py:48-54 | a text without the pattern's opening character is unchanged |
| `Patterns.MatchCategoryLink` | Main.py:48 | a reported match begins with `[`, covers at least one and at most all of the text, and is replaced by shorter text |
| `Patterns.MatchPrefixedLink` | Main.py:49 | a reported match begins with `[`, covers at least one and at most all of the text, and is replaced by shorter text |
| `Patterns.MatchTemplate` | Main.py:50 | a reported match begins with `{`, covers at least one and at most all of the text, and is replaced by shorter text |
| `Patterns.MatchPipedLink` | Main.py:51 | a reported match begins with `[`, covers at least one and at most all of the text, and is replaced by shorter text |
| `Patterns.MatchBareLink` | Main.py:52 | a reported match begins with `[`, covers at least one and at most all of the text, and is replaced by shorter text |
| `Patterns.MatchFileLink` | Main.py:53 | a reported match begins with `[`, covers at least one and at most all of the text, and is replaced by shorter text |
| `Patterns.MatchNewlineRun` | Main.py:54 | a reported match begins with a newline, covers at least one and at most all of the text, and is replaced by shorter text |
| `Shapes.CategoryLinkHasShape` | Main.py:48 | a category-link match is `[[Category:` + a run without `]` + `]]`, and is removed |
| `Shapes.CategoryLinkMatches` | Main.py:48 | every `[[Category:x]]` with a non-empty `x` free of `]` is matched whole and removed |
| `Shapes.PrefixedLinkHasShape` | Main.py:49 | a prefixed-link match is `[[` + lower-case letters or hyphens + `:` + a run without `]` + `]]`, and is removed |
| `Shapes.PrefixedLinkMatches` | Main.py:49 | every such prefixed link is matched whole and removed |
| `Shapes.TemplateHasShape` | Main.py:50 | a template match is `{{` + a run without `}` + `}}`, and is removed |
| `Shapes.TemplateMatches` | Main.py:50 | every `{{x}}` with `x` non-empty and free of `}` is matched whole and removed |
| `Shapes.PipedLinkHasShape` | Main.py:51 | a piped-link match is `[[`, a target free of the pipe character and `]`, a pipe, an alias free of `]`, then `]]`; it is replaced by the alias |
| `Shapes.PipedLinkMatches` | Main.py:51 | every such piped link is matched whole and replaced by its alias |
| `Shapes.BareLinkHasShape` | Main.py:52 | a bare-link match is `[[x]]` with `x` free of `]`, and is replaced by `x` |
| `Shapes.BareLinkMatches` | Main.py:52 | every such `[[x]]` is matched whole and replaced by `x` |
| `Shapes.FileLinkHasShape` | Main.py:53 | a file-link match is `[[` + `File:` or `Image:` in any case + a run without `]` + `]]`, and is removed |
| `Shapes.FileLinkMatches` | Main.py:53 | every such file or image link is matched whole and removed |
| `Shapes.NewlineRunHasShape` | Main.py:54 | a newline-run match is three or more newlines, and is replaced by two |
| `Shapes.NewlineRunMatches` | Main.py:54 | a maximal run of three or more newlines is matched whole and replaced by two |
| `Cleaner.CollapseNoTriple` | Main.py:54 | after collapsing, no three newlines are adjacent, and the text starts with as many newlines as before, capped at two |
| `CleaningFacts.CollapseKeeps` | Main.py:54 | a text without three adjacent newlines is not changed by the collapse |
| `Cleaner.Strip` | Main.py:54 | the result is the input minus an all-whitespace prefix and suffix, and neither starts nor ends with whitespace |
| `CleaningFacts.StripKeeps` | Main.py:54 | a text that neither starts nor ends with whitespace is not changed by stripping |
| `Cleaner.StripKeepsNoTriple` | Main.py:54 | stripping cannot create three adjacent newlines |
| `Cleaner.Finish` | Main.py:54 | step 8's result is no longer than its input, has no surrounding whitespace and no three adjacent newlines |
| `Cleaner.CleanWikitextAsWritten` | Main.py:46-55 | the steps in the source's order; the result is no longer than the input, has no surrounding whitespace and no run of three newlines |
| `Cleaner.CleanWikitext` | Main.py:46-55 | the steps with file links dropped before links are unwrapped (see Findings); the same guarantees on the result |
| `CleaningFacts.CleanKeepsPlainText` | Main.py:46-55 | text without `[`, `{`, a "See also" heading, three adjacent newlines or surrounding whitespace comes out unchanged, in both orders |
| `FileLinks.Unwrapped` | Main.py:52 | step 6 turns `[[File:x]]` into the text `File:x`, for every non-empty caption `x` free of `]` |
| `FileLinks.Dropped` | Main.py:53 | step 7 removes `[[File:x]]`, for every non-empty caption `x` free of `]`, when it reaches that step with its brackets |
| `FileLinks.FileLinkKeptAsWritten` | Main.py:46-55 | as written, a page consisting of `[[File:x]]` with a plain caption `x` cleans to `File:x` |
| `FileLinks.FileLinkDropped` | Main.py:46-55 | with the file-link step first, the same page cleans to the empty text |
| `Recipes.Lookup` | Main.py:74-78 | `d[name]` is found exactly when some entry has that label, and is that entry's list |
| `Recipes.Bucket` | Main.py:74-78 | an empty label or one no entry carries gives no titles; a non-empty label that an entry carries gives that entry's list |
| `Recipes.BucketIsHolding` | Main.py:74-78 | with distinct labels, the bucket's members are exactly the titles filed under the label |
| `Recipes.Common` | Main.py:81 | `difficulty_set & time_set`: a title is in the result if and only if it is in both lists |
| `Recipes.Dedup` | Main.py:81-92 | `list(set(xs))`: the same members as `xs`, each exactly once |
| `Recipes.AllTitles` | Main.py:94-96 | `all_recipes` holds exactly the titles filed under any difficulty label |
| `Recipes.AllTitlesCount` | Main.py:94-96 | `all_recipes` holds each title as many times as the difficulty lists file it |
| `Selector.Draw` | Main.py:83-97 | a draw is the `IndexError` if and only if the list is empty; from a non-empty list it always picks a title, and that title is a member of the list |
| `Selector.Pool` | Main.py:72-97 | the list drawn from has exactly the candidate titles as members, without repeats when a label narrows it; there is no list exactly when both labels are set and no candidate exists; without narrowing it is `all_recipes` |
| `Selector.PickRecipe` | Main.py:71-97 | the result is a candidate: the titles under both labels, else under the time label, else under the difficulty label, else every difficulty-filed title; `None` exactly when both labels are set and none of these exists; the `IndexError` exactly when fewer labels are set and none exists |
| `Selector.PickReaches` | Main.py:71-97 | every candidate is returned by some draw |
| `Selector.PickUniform` | Main.py:80-92 | when a label narrows the draw, each candidate is picked by exactly one of the first n draws, n the number of candidates |
| `Selector.PickWeights` | Main.py:93-97 | without narrowing, a title is picked by as many of the first n draws, n the length of `all_recipes`, as the difficulty lists file it |
| `RecipeInfo.FirstHolder` | Main.py:60-63 | no label when no list holds the title; otherwise the label of the first entry whose list holds it |
| `RecipeInfo.FindRecipeInfo` | Main.py:58-68 | each label is found if and only if some list of that category holds the title, and the found label files the title |
| `RecipeInfo.PickedHasInfo` | Main.py:58-97 | every title `pick_recipe` returns has at least one label |
| `RecipeInfo.OwnLabelsReachRecipe` | Main.py:58-97 | asking for the labels `find_recipe_info` reports for a title (both found) can return that title, whether or not the labels are empty strings |
| `Document.PickFromDocument` | Main.py:71-97 | the call raises `KeyError` exactly when a chosen label's category is absent, or the unfiltered branch reads an absent difficulty category; the key is `"time"` exactly when the difficulty lookup of line 74 passes and a time label is chosen with the time category absent, and `"difficulty"` in every other failing case; a call that returns gives what `pick_recipe` gives on the document with absent categories read as empty |
| `Document.AbsentTimeUnread` | Main.py:77 | without a time label, an absent time category is never read |
| `Document.FindInDocument` | Main.py:58-68 | `.get(key, {})`: a label is found exactly when the category is present and lists the title, so an absent category gives none; a found label files the title |

## Left out

- `get_page_content` (Main.py:16-43): network I/O, with retries and sleeps. The model starts from the page text it returns.
- `load_data` (Main.py:11-13): reading the JSON file. The document is a value (`Recipes.Corpus`, or `Document.Doc` when a category may be absent). A document whose members are not objects of lists of strings is outside the model.
- `RecipeApp`, `show_recipe` and the `__main__` block (Main.py:101-208): the UI. This includes mapping the placeholder menu entry to `""`, cutting the display text at 2000 characters, and seeding the random generator.
- Randomness: the draw is the parameter `choice`, and Python's generator is not modelled. `Selector.PickUniform` and `Selector.PickWeights` count picks over a window of `choice` values. They make no statement about probabilities.
- `Recipes.Dedup`: Python's set iteration order depends on string hashes, so the order of `list(set(xs))` is unspecified. The model keeps the last occurrence of each title. Only membership, distinctness and counts are stated.
- The rest of a shuffled list: `random.shuffle(both); both[0]` becomes one draw from `both`.
- A JSON object with repeated keys: `json.load` keeps the last value. The model requires distinct labels (`Recipes.Category`).
- Rewrite.Sub: its own ensures state only the length bound. What it computes is stated by `Rewrite.SubUnchangedIff`, `Rewrite.SubPassThrough`, `Rewrite.SubReplacesHit` and `Rewriting.RewriteInPlace`.
- Patterns.MatchCategoryLink: its own ensures state only what `Rewrite.Sub` needs (where a match starts, that it shrinks the text). Which texts it matches is stated by `Shapes.CategoryLinkHasShape` and `Shapes.CategoryLinkMatches`.
- Patterns.MatchPrefixedLink: as above; see `Shapes.PrefixedLinkHasShape` and `Shapes.PrefixedLinkMatches`.
- Patterns.MatchTemplate: as above; see `Shapes.TemplateHasShape` and `Shapes.TemplateMatches`.
- Patterns.MatchPipedLink: as above; see `Shapes.PipedLinkHasShape` and `Shapes.PipedLinkMatches`.
- Patterns.MatchBareLink: as above; see `Shapes.BareLinkHasShape` and `Shapes.BareLinkMatches`.
- Patterns.MatchFileLink: as above; see `Shapes.FileLinkHasShape` and `Shapes.FileLinkMatches`.
- Patterns.MatchNewlineRun: as above; see `Shapes.NewlineRunHasShape` and `Shapes.NewlineRunMatches`.
- A general regular-expression engine: only the patterns of `clean_wikitext` are modelled, each by its own scanner.
- Step 3 is usually read as removing inter-language links. The code removes every link whose prefix is lower-case letters and hyphens, followed by a colon (`[[wikt:word]]` as well as `[[fr:Soupe]]`). The model follows the code.
- The builder scripts (`Builder functions/`) produce the document and are not part of this model.

## Findings

| source | as written | input that shows it | evidently intended | confidence | as-written member | corrected member |
|---|---|---|---|---|---|---|
| Main.py:52-53 | Step 6 unwraps every `[[x]]`, file links included, and runs before step 7. So step 7, which is meant to drop file and image links, never sees an ordinary one, and its caption text stays on the page. | `[[File:Soup.jpg]]` cleans to `File:Soup.jpg` (`FileLinks.FileLinkKeptAsWritten`, for every plain caption) | file and image links are removed from the display text | medium, not executed | `Cleaner.CleanWikitextAsWritten`, `FileLinks.FileLinkKeptAsWritten` | `Cleaner.CleanWikitext`, `FileLinks.FileLinkDropped` |
