/**
 What `clean_wikitext` does with an ordinary file link `[[File:caption]]`.
 Step 6 (`\[\[([^\]]+)\]\]`, Main.py:52) matches every double-bracketed link,
 file links included, and runs before step 7 (Main.py:53), which is there to
 drop file and image links.  As written, step 6 unwraps the link and step 7
 never sees it: the page text keeps `File:caption`.  With step 7 moved ahead
 of the link steps (`CleanWikitext`), the link is dropped.
 */
module FileLinks {
  import opened Chars
  import opened Rewrite
  import opened Patterns
  import opened Shapes
  import opened Rewriting
  import opened Cleaner
  import opened CleaningFacts

  /** A caption with no link, template, heading or newline syntax in it and
      no trailing whitespace. */
  predicate PlainCaption(x: string) {
    && x != []
    && (forall i :: 0 <= i < |x| ==> x[i] !in "[]{|=\n")
    && !IsSpace(x[|x| - 1])
  }

  /** The file link with that caption. */
  function FileLinkOf(x: string): (w: string)
    ensures |w| == |x| + 9
  {
    "[[File:" + x + "]]"
  }

  /** As written, `clean_wikitext` keeps a file link as the text
      `File:caption`. */
  lemma FileLinkKeptAsWritten(x: string)
    requires PlainCaption(x)
    ensures CleanWikitextAsWritten(FileLinkOf(x)) == "File:" + x
  {
    FrontSteps(x);
    LinkSteps(x);
    TailSteps(x);
    AsWrittenFrom(FileLinkOf(x), "File:" + x);
  }

  /** Steps 5 and 6 as written turn a file link into `File:caption`. */
  lemma LinkSteps(x: string)
    requires PlainCaption(x)
    ensures Substitute(BareLink, Substitute(PipedLink, FileLinkOf(x))) == "File:" + x
  {
    PipedMisses(x);
    CaptionRun(x);
    Unwrapped(x);
  }

  /** Steps 7 and 8 keep `File:caption`. */
  lemma TailSteps(x: string)
    requires PlainCaption(x)
    ensures var t := "File:" + x;
      Substitute(FileLink, t) == t && Finish(t) == t
  {
    SubstituteWithoutOpener(FileLink, "File:" + x);
    KeepsCaption(x);
  }

  /** With the file-link step ahead of the link steps, the same link is
      dropped. */
  lemma FileLinkDropped(x: string)
    requires PlainCaption(x)
    ensures CleanWikitext(FileLinkOf(x)) == ""
  {
    FrontSteps(x);
    CaptionRun(x);
    Dropped(x);
    CorrectedFrom(FileLinkOf(x));
  }

  /** The as-written pipeline on a text that steps 1-4 and 5 keep, that
      step 6 turns into `t`, and that steps 7-8 keep. */
  lemma AsWrittenFrom(s: string, t: string)
    requires FrontKeeps(s)
    requires Substitute(BareLink, Substitute(PipedLink, s)) == t
    requires Substitute(FileLink, t) == t && Finish(t) == t
    ensures CleanWikitextAsWritten(s) == t
  {
  }

  /** The corrected pipeline on a text that steps 1-4 keep and the
      file-link step removes. */
  lemma CorrectedFrom(s: string)
    requires FrontKeeps(s)
    requires Substitute(FileLink, s) == []
    ensures CleanWikitext(s) == []
  {
    assert Substitute(PipedLink, []) == [];
    assert Substitute(BareLink, []) == [];
    assert Finish([]) == [];
  }

  /** A plain caption is a run without `]`. */
  lemma CaptionRun(x: string)
    requires PlainCaption(x)
    ensures Run(x, NotCloseBracket)
  {
    forall i | 0 <= i < |x| ensures InClass(x[i], NotCloseBracket) {
      assert x[i] !in "[]{|=\n";
    }
  }

  /** Step 6 unwraps a file link like any other bare link, whatever its
      caption. */
  lemma Unwrapped(x: string)
    requires Run(x, NotCloseBracket)
    ensures Substitute(BareLink, FileLinkOf(x)) == "File:" + x
  {
    BareShape(x);
    RewriteWhole(BareLink, FileLinkOf(x), "File:" + x);
  }

  /** A file link is a bare link around `File:caption`. */
  lemma BareShape(x: string)
    requires Run(x, NotCloseBracket)
    ensures Shape(BareLink, FileLinkOf(x), "File:" + x)
  {
    var inner := "File:" + x;
    forall i | 0 <= i < |inner| ensures InClass(inner[i], NotCloseBracket) {
      if i >= 5 {
        assert inner[i] == x[i - 5];
      }
    }
    assert FileLinkOf(x) == "[[" + inner + "]]";
  }

  /** Step 7 drops a file link that reaches it with its brackets, whatever
      its caption. */
  lemma Dropped(x: string)
    requires Run(x, NotCloseBracket)
    ensures Substitute(FileLink, FileLinkOf(x)) == []
  {
    FileShape(x);
    RewriteWhole(FileLink, FileLinkOf(x), []);
  }

  /** A file link has the shape of the file-link pattern. */
  lemma FileShape(x: string)
    requires Run(x, NotCloseBracket)
    ensures Shape(FileLink, FileLinkOf(x), [])
  {
    assert HasIgnoringCase("File:", 0, "file:");
    assert IsFileKeyword("File:");
    assert FileLinkOf(x) == "[[" + "File:" + x + "]]";
  }

  /** Steps 1-4 (cut at a heading, drop category links, prefixed links and
      templates) leave `s` as it is. */
  predicate FrontKeeps(s: string) {
    && TruncateAtSeeAlso(s) == s
    && Substitute(CategoryLink, s) == s
    && Substitute(PrefixedLink, s) == s
    && Substitute(Template, s) == s
  }

  /** Steps 1-4 leave a file link alone: it has no heading, its first name
      character is upper-case, and it has no template. */
  lemma FrontSteps(x: string)
    requires PlainCaption(x)
    ensures FrontKeeps(FileLinkOf(x))
  {
    NoHeading(x);
    CategoryMisses(x);
    PrefixedMisses(x);
    Layout(x);
    SubstituteWithoutOpener(Template, FileLinkOf(x));
  }

  /** Step 1 keeps a file link whole: it has no equals sign. */
  lemma NoHeading(x: string)
    requires PlainCaption(x)
    ensures TruncateAtSeeAlso(FileLinkOf(x)) == FileLinkOf(x)
  {
    var s := FileLinkOf(x);
    Layout(x);
    forall i | 0 <= i < |s| ensures !SeeAlsoAt(s, i) {
      assert !HasAt(s, i, "==") by {
        if i + 2 <= |s| {
          assert s[i..i + 2][0] == s[i] != '=';
        }
      }
    }
    TruncateKeepsAllIff(s);
  }

  /** Step 2 leaves a file link alone. */
  lemma CategoryMisses(x: string)
    requires PlainCaption(x)
    ensures Substitute(CategoryLink, FileLinkOf(x)) == FileLinkOf(x)
  {
    var s := FileLinkOf(x);
    Layout(x);
    assert !HasAt(s, 0, "[[Category:") by {
      assert s[2] != "[[Category:"[2];
    }
    assert !HasAt(s[1..], 0, "[[") by {
      assert s[1..][1] == s[2] == 'F';
    }
    FrontMisses(CategoryLink, s);
  }

  /** Step 3 leaves a file link alone: its name starts upper-case. */
  lemma PrefixedMisses(x: string)
    requires PlainCaption(x)
    ensures Substitute(PrefixedLink, FileLinkOf(x)) == FileLinkOf(x)
  {
    var s := FileLinkOf(x);
    Layout(x);
    RunEndIs(s, 2, 2, LowerOrHyphen);
    assert !HasAt(s[1..], 0, "[[") by {
      assert s[1..][1] == s[2] == 'F';
    }
    FrontMisses(PrefixedLink, s);
  }

  /** Step 5 leaves a file link without a pipe alone. */
  lemma PipedMisses(x: string)
    requires PlainCaption(x)
    ensures Substitute(PipedLink, FileLinkOf(x)) == FileLinkOf(x)
  {
    var s := FileLinkOf(x);
    Layout(x);
    RunEndIs(s, 2, |s| - 2, NotPipeOrCloseBracket);
    assert !HasAt(s[1..], 0, "[[") by {
      assert s[1..][1] == s[2] == 'F';
    }
    FrontMisses(PipedLink, s);
  }

  /** Step 8 keeps the unwrapped link `File:caption`. */
  lemma KeepsCaption(x: string)
    requires PlainCaption(x)
    ensures Finish("File:" + x) == "File:" + x
  {
    var t := "File:" + x;
    assert '\n' !in t;
    SubstituteWithoutOpener(NewlineRun, t);
    assert t[|t| - 1] == x[|x| - 1];
    StripKeeps(t);
  }

  /** Where the characters of a file link come from. */
  lemma Layout(x: string)
    requires PlainCaption(x)
    ensures var s := FileLinkOf(x);
      && s[..7] == "[[File:" && s[7..|s| - 2] == x && s[|s| - 2..] == "]]"
      && '{' !in s && '=' !in s && '[' !in s[2..]
      && forall i :: 2 <= i < |s| - 2 ==> s[i] != '|' && s[i] != ']'
  {
    var s := FileLinkOf(x);
    assert s[..7] == "[[File:";
    assert s[7..|s| - 2] == x;
    assert s[|s| - 2..] == "]]";
    forall i | 7 <= i < |s| - 2 ensures s[i] == x[i - 7] && s[i] !in "[]{|=\n" {
      assert s[7..|s| - 2][i - 7] == s[i];
    }
  }

  /** A substitution that finds nothing at the first two offsets of `s`, and
      whose opener does not occur after them, leaves `s` alone. */
  lemma FrontMisses(p: Pattern, s: string)
    requires |s| >= 2
    requires ScannerOf(p)(s).None? && ScannerOf(p)(s[1..]).None?
    requires Opener(p) !in s[2..]
    ensures Substitute(p, s) == s
  {
    ScannerWellBehaved(p);
    SubFrontMisses(ScannerOf(p), Opener(p), s);
  }
}
