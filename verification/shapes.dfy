/**
 Reference definitions of the text each substitution pattern of
 `clean_wikitext` (Main.py:48-54) matches, written as concatenations of
 their parts rather than as a scan, and the proof that the scanners of
 `Patterns` agree with them in both directions.
 */
module Shapes {
  import opened Wrappers
  import opened Chars
  import opened Rewrite
  import opened Patterns

  /** One or more characters of class `k` (a `[...]+` repetition). */
  predicate Run(x: string, k: CharClass) {
    |x| > 0 && AllIn(x, k)
  }

  /** `File:` or `Image:` in any letter case Python's matcher accepts. */
  predicate IsFileKeyword(kw: string) {
    || (|kw| == 5 && HasIgnoringCase(kw, 0, "file:"))
    || (|kw| == 6 && HasIgnoringCase(kw, 0, "image:"))
  }

  ghost predicate IsCategoryLink(w: string) {
    exists x :: Run(x, NotCloseBracket) && w == "[[Category:" + x + "]]"
  }

  ghost predicate IsPrefixedLink(w: string) {
    exists n, x :: Run(n, LowerOrHyphen) && Run(x, NotCloseBracket) && w == "[[" + n + ":" + x + "]]"
  }

  ghost predicate IsTemplate(w: string) {
    exists x :: Run(x, NotCloseBrace) && w == "{{" + x + "}}"
  }

  ghost predicate IsPipedLink(w: string, alias: string) {
    Run(alias, NotCloseBracket) && exists t :: Run(t, NotPipeOrCloseBracket) && w == "[[" + t + "|" + alias + "]]"
  }

  ghost predicate IsBareLink(w: string, inner: string) {
    Run(inner, NotCloseBracket) && w == "[[" + inner + "]]"
  }

  ghost predicate IsFileLink(w: string) {
    exists kw, x :: IsFileKeyword(kw) && Run(x, NotCloseBracket) && w == "[[" + kw + x + "]]"
  }

  /** `w` is a whole match of pattern `p`, and `r` is what replaces it. */
  ghost predicate Shape(p: Pattern, w: string, r: string) {
    match p
    case CategoryLink => r == [] && IsCategoryLink(w)
    case PrefixedLink => r == [] && IsPrefixedLink(w)
    case Template => r == [] && IsTemplate(w)
    case PipedLink => IsPipedLink(w, r)
    case BareLink => IsBareLink(w, r)
    case FileLink => r == [] && IsFileLink(w)
    case NewlineRun => r == "\n\n" && |w| >= 3 && AllIn(w, Newline)
  }

  // ---------------------------------------------------------------------
  // Scanner => shape

  /** The slice `s[i..j]` is a run of class `k` when the scan says so. */
  lemma SliceRun(s: string, i: nat, j: nat, k: CharClass)
    requires i < j <= |s|
    requires forall m :: i <= m < j ==> InClass(s[m], k)
    ensures Run(s[i..j], k)
  {
  }

  /** A prefix of `s` ending in a doubled closer, cut into the part before
      `from`, the run `s[from..e]` and the closer. */
  lemma Closed(s: string, from: nat, e: nat, c: char)
    requires from <= e && e + 2 <= |s| && s[e] == c && s[e + 1] == c
    ensures s[..e + 2] == s[..from] + s[from..e] + [c, c]
  {
  }

  /** A prefix of `s` ending in the separator `s[j]`, cut into the part
      before `i`, the run `s[i..j]` and the separator. */
  lemma Separated(s: string, i: nat, j: nat)
    requires i <= j < |s|
    ensures s[..j + 1] == s[..i] + s[i..j] + [s[j]]
  {
  }

  lemma CategoryLinkHasShape(s: string)
    requires MatchCategoryLink(s).Some?
    ensures Shape(CategoryLink, s[..MatchCategoryLink(s).value.len], MatchCategoryLink(s).value.repl)
  {
    var e := RunEnd(s, 11, NotCloseBracket);
    var x := s[11..e];
    SliceRun(s, 11, e, NotCloseBracket);
    Closed(s, 11, e, ']');
    assert Run(x, NotCloseBracket) && s[..e + 2] == "[[Category:" + x + "]]";
  }

  lemma PrefixedLinkHasShape(s: string)
    requires MatchPrefixedLink(s).Some?
    ensures Shape(PrefixedLink, s[..MatchPrefixedLink(s).value.len], MatchPrefixedLink(s).value.repl)
  {
    var a := RunEnd(s, 2, LowerOrHyphen);
    var e := RunEnd(s, a + 1, NotCloseBracket);
    var n, x := s[2..a], s[a + 1..e];
    SliceRun(s, 2, a, LowerOrHyphen);
    SliceRun(s, a + 1, e, NotCloseBracket);
    Separated(s, 2, a);
    Closed(s, a + 1, e, ']');
    assert Run(n, LowerOrHyphen) && Run(x, NotCloseBracket) && s[..e + 2] == "[[" + n + ":" + x + "]]";
  }

  lemma TemplateHasShape(s: string)
    requires MatchTemplate(s).Some?
    ensures Shape(Template, s[..MatchTemplate(s).value.len], MatchTemplate(s).value.repl)
  {
    var e := RunEnd(s, 2, NotCloseBrace);
    var x := s[2..e];
    SliceRun(s, 2, e, NotCloseBrace);
    Closed(s, 2, e, '}');
    assert Run(x, NotCloseBrace) && s[..e + 2] == "{{" + x + "}}";
  }

  lemma PipedLinkHasShape(s: string)
    requires MatchPipedLink(s).Some?
    ensures Shape(PipedLink, s[..MatchPipedLink(s).value.len], MatchPipedLink(s).value.repl)
  {
    var a := RunEnd(s, 2, NotPipeOrCloseBracket);
    var e := RunEnd(s, a + 1, NotCloseBracket);
    var t, r := s[2..a], s[a + 1..e];
    SliceRun(s, 2, a, NotPipeOrCloseBracket);
    SliceRun(s, a + 1, e, NotCloseBracket);
    Separated(s, 2, a);
    Closed(s, a + 1, e, ']');
    assert Run(t, NotPipeOrCloseBracket) && s[..e + 2] == "[[" + t + "|" + r + "]]";
  }

  lemma BareLinkHasShape(s: string)
    requires MatchBareLink(s).Some?
    ensures Shape(BareLink, s[..MatchBareLink(s).value.len], MatchBareLink(s).value.repl)
  {
    var e := RunEnd(s, 2, NotCloseBracket);
    SliceRun(s, 2, e, NotCloseBracket);
    Closed(s, 2, e, ']');
  }

  lemma FileLinkHasShape(s: string)
    requires MatchFileLink(s).Some?
    ensures Shape(FileLink, s[..MatchFileLink(s).value.len], MatchFileLink(s).value.repl)
  {
    var k := if HasIgnoringCase(s, 2, "file:") then 7 else 8;
    var e := RunEnd(s, k, NotCloseBracket);
    var kw, x := s[2..k], s[k..e];
    SliceRun(s, k, e, NotCloseBracket);
    assert IsFileKeyword(kw) by {
      if k == 7 {
        assert HasIgnoringCase(kw, 0, "file:");
      } else {
        assert HasIgnoringCase(kw, 0, "image:");
      }
    }
    Closed(s, k, e, ']');
    assert s[..k] == s[..2] + kw;
    assert IsFileKeyword(kw) && Run(x, NotCloseBracket) && s[..e + 2] == "[[" + kw + x + "]]";
  }

  lemma NewlineRunHasShape(s: string)
    requires MatchNewlineRun(s).Some?
    ensures Shape(NewlineRun, s[..MatchNewlineRun(s).value.len], MatchNewlineRun(s).value.repl)
  {
    var e := RunEnd(s, 0, Newline);
    assert AllIn(s[..e], Newline);
  }

  /** Every match the scanner reports is a whole instance of the pattern,
      and its replacement is the one the pattern prescribes. */
  lemma MatchHasShape(p: Pattern, s: string)
    requires ScannerOf(p)(s).Some?
    ensures Shape(p, s[..ScannerOf(p)(s).value.len], ScannerOf(p)(s).value.repl)
  {
    match p
    case CategoryLink => CategoryLinkHasShape(s);
    case PrefixedLink => PrefixedLinkHasShape(s);
    case Template => TemplateHasShape(s);
    case PipedLink => PipedLinkHasShape(s);
    case BareLink => BareLinkHasShape(s);
    case FileLink => FileLinkHasShape(s);
    case NewlineRun => NewlineRunHasShape(s);
  }

  // ---------------------------------------------------------------------
  // Shape => scanner

  /** `x` lies in `p + x + q` right after `p`. */
  lemma Middle(p: string, x: string, q: string)
    ensures (p + x + q)[|p|..|p| + |x|] == x
  {
    var s := p + x + q;
    forall m | |p| <= m < |p| + |x| ensures s[m] == x[m - |p|] { }
  }

  /** `s` holds `x` at offset `from`, followed by the doubled closer `c`. */
  predicate ClosedBy(s: string, from: nat, x: string, c: char) {
    && from + |x| + 2 <= |s|
    && s[from..from + |x|] == x
    && s[from + |x|] == c && s[from + |x| + 1] == c
  }

  /** A greedy run of class `k` over `x`, when what follows `x` does not
      continue the run, ends exactly at the end of `x`. */
  lemma RunOver(u: string, x: string, v: string, k: CharClass)
    requires AllIn(x, k)
    requires v == [] || !InClass(v[0], k)
    ensures RunEnd(u + x + v, |u|, k) == |u| + |x|
  {
    var s := u + x + v;
    forall m | |u| <= m < |u| + |x| ensures InClass(s[m], k) {
      assert s[m] == x[m - |u|];
    }
    if v != [] {
      assert s[|u| + |x|] == v[0];
    }
    RunEndIs(s, |u|, |u| + |x|, k);
  }

  /** The same, for a run `x` found at offset `i` of `s`. */
  lemma RunOverAt(s: string, i: nat, x: string, k: CharClass)
    requires i + |x| <= |s| && s[i..i + |x|] == x && AllIn(x, k)
    requires i + |x| == |s| || !InClass(s[i + |x|], k)
    ensures RunEnd(s, i, k) == i + |x|
  {
    forall m | i <= m < i + |x| ensures InClass(s[m], k) {
      assert s[m] == x[m - i];
    }
    RunEndIs(s, i, i + |x|, k);
  }

  // Each `...Matches` lemma below is split in two: a layout lemma that reads
  // the pieces of the instance off the concatenation, and an `...At` lemma
  // that runs the scanner over any text laid out that way.

  lemma CategoryLinkMatches(x: string, y: string)
    requires Run(x, NotCloseBracket)
    ensures MatchCategoryLink("[[Category:" + x + "]]" + y) == Some(Hit(|x| + 13, ""))
  {
    var s := "[[Category:" + x + "]]" + y;
    Middle([], "[[Category:", x + "]]" + y);
    Middle("[[Category:", x, "]]" + y);
    CategoryLinkAt(s, x);
  }

  lemma CategoryLinkAt(s: string, x: string)
    requires HasAt(s, 0, "[[Category:") && Run(x, NotCloseBracket) && ClosedBy(s, 11, x, ']')
    ensures MatchCategoryLink(s) == Some(Hit(|x| + 13, ""))
  {
    RunOverAt(s, 11, x, NotCloseBracket);
  }

  lemma PrefixedLinkMatches(n: string, x: string, y: string)
    requires Run(n, LowerOrHyphen) && Run(x, NotCloseBracket)
    ensures MatchPrefixedLink("[[" + n + ":" + x + "]]" + y) == Some(Hit(|n| + |x| + 5, ""))
  {
    var s := "[[" + n + ":" + x + "]]" + y;
    Middle([], "[[", n + ":" + x + "]]" + y);
    Middle("[[", n, ":" + x + "]]" + y);
    Middle("[[" + n + ":", x, "]]" + y);
    PrefixedLinkAt(s, n, x);
  }

  lemma PrefixedLinkAt(s: string, n: string, x: string)
    requires HasAt(s, 0, "[[") && Run(n, LowerOrHyphen) && Run(x, NotCloseBracket)
    requires |n| + 2 < |s| && s[2..|n| + 2] == n && s[|n| + 2] == ':'
    requires ClosedBy(s, |n| + 3, x, ']')
    ensures MatchPrefixedLink(s) == Some(Hit(|n| + |x| + 5, ""))
  {
    RunOverAt(s, 2, n, LowerOrHyphen);
    RunOverAt(s, |n| + 3, x, NotCloseBracket);
  }

  lemma TemplateMatches(x: string, y: string)
    requires Run(x, NotCloseBrace)
    ensures MatchTemplate("{{" + x + "}}" + y) == Some(Hit(|x| + 4, ""))
  {
    var s := "{{" + x + "}}" + y;
    Middle([], "{{", x + "}}" + y);
    Middle("{{", x, "}}" + y);
    TemplateAt(s, x);
  }

  lemma TemplateAt(s: string, x: string)
    requires HasAt(s, 0, "{{") && Run(x, NotCloseBrace) && ClosedBy(s, 2, x, '}')
    ensures MatchTemplate(s) == Some(Hit(|x| + 4, ""))
  {
    RunOverAt(s, 2, x, NotCloseBrace);
  }

  lemma PipedLinkMatches(t: string, r: string, y: string)
    requires Run(t, NotPipeOrCloseBracket) && Run(r, NotCloseBracket)
    ensures MatchPipedLink("[[" + t + "|" + r + "]]" + y) == Some(Hit(|t| + |r| + 5, r))
  {
    var s := "[[" + t + "|" + r + "]]" + y;
    Middle([], "[[", t + "|" + r + "]]" + y);
    Middle("[[", t, "|" + r + "]]" + y);
    Middle("[[" + t + "|", r, "]]" + y);
    PipedLinkAt(s, t, r);
  }

  lemma PipedLinkAt(s: string, t: string, r: string)
    requires HasAt(s, 0, "[[") && Run(t, NotPipeOrCloseBracket) && Run(r, NotCloseBracket)
    requires |t| + 2 < |s| && s[2..|t| + 2] == t && s[|t| + 2] == '|'
    requires ClosedBy(s, |t| + 3, r, ']')
    ensures MatchPipedLink(s) == Some(Hit(|t| + |r| + 5, r))
  {
    RunOverAt(s, 2, t, NotPipeOrCloseBracket);
    RunOverAt(s, |t| + 3, r, NotCloseBracket);
  }

  lemma BareLinkMatches(r: string, y: string)
    requires Run(r, NotCloseBracket)
    ensures MatchBareLink("[[" + r + "]]" + y) == Some(Hit(|r| + 4, r))
  {
    var s := "[[" + r + "]]" + y;
    Middle([], "[[", r + "]]" + y);
    Middle("[[", r, "]]" + y);
    BareLinkAt(s, r);
  }

  lemma BareLinkAt(s: string, r: string)
    requires HasAt(s, 0, "[[") && Run(r, NotCloseBracket) && ClosedBy(s, 2, r, ']')
    ensures MatchBareLink(s) == Some(Hit(|r| + 4, r))
  {
    RunOverAt(s, 2, r, NotCloseBracket);
  }

  lemma FileLinkMatches(kw: string, x: string, y: string)
    requires IsFileKeyword(kw) && Run(x, NotCloseBracket)
    ensures MatchFileLink("[[" + kw + x + "]]" + y) == Some(Hit(|kw| + |x| + 4, ""))
  {
    var s := "[[" + kw + x + "]]" + y;
    Middle([], "[[", kw + x + "]]" + y);
    Middle("[[", kw, x + "]]" + y);
    Middle("[[" + kw, x, "]]" + y);
    FileLinkAt(s, kw, x);
  }

  lemma FileLinkAt(s: string, kw: string, x: string)
    requires HasAt(s, 0, "[[") && IsFileKeyword(kw) && Run(x, NotCloseBracket)
    requires |kw| + 2 <= |s| && s[2..|kw| + 2] == kw
    requires ClosedBy(s, |kw| + 2, x, ']')
    ensures MatchFileLink(s) == Some(Hit(|kw| + |x| + 4, ""))
  {
    forall m | 0 <= m < |kw| ensures s[2 + m] == kw[m] {
      assert s[2..|kw| + 2][m] == kw[m];
    }
    if |kw| == 5 {
      assert HasIgnoringCase(s, 2, "file:");
    } else {
      assert MatchesIgnoringCase(kw[0], "image:"[0]);
      assert !MatchesIgnoringCase(s[2 + 0], "file:"[0]);
      assert HasIgnoringCase(s, 2, "image:");
    }
    RunOverAt(s, |kw| + 2, x, NotCloseBracket);
  }

  lemma NewlineRunMatches(w: string, y: string)
    requires |w| >= 3 && AllIn(w, Newline)
    requires y == [] || y[0] != '\n'
    ensures MatchNewlineRun(w + y) == Some(Hit(|w|, "\n\n"))
  {
    RunOver([], w, y, Newline);
    assert [] + w + y == w + y;
  }

  /** Every instance of the pattern is found by the scanner, with the
      prescribed replacement, whatever text follows it (for a newline run:
      as long as the run is not continued by the text that follows). */
  lemma ShapeMatches(p: Pattern, w: string, r: string, y: string)
    requires Shape(p, w, r)
    requires p == NewlineRun ==> y == [] || y[0] != '\n'
    ensures ScannerOf(p)(w + y) == Some(Hit(|w|, r))
  {
    match p
    case CategoryLink => CategoryLinkFound(w, y);
    case PrefixedLink => PrefixedLinkFound(w, y);
    case Template => TemplateFound(w, y);
    case PipedLink => PipedLinkFound(w, r, y);
    case BareLink =>
      assert w + y == "[[" + r + "]]" + y;
      BareLinkMatches(r, y);
    case FileLink => FileLinkFound(w, y);
    case NewlineRun => NewlineRunMatches(w, y);
  }

  lemma CategoryLinkFound(w: string, y: string)
    requires IsCategoryLink(w)
    ensures MatchCategoryLink(w + y) == Some(Hit(|w|, ""))
  {
    var x :| Run(x, NotCloseBracket) && w == "[[Category:" + x + "]]";
    assert w + y == "[[Category:" + x + "]]" + y;
    CategoryLinkMatches(x, y);
  }

  lemma PrefixedLinkFound(w: string, y: string)
    requires IsPrefixedLink(w)
    ensures MatchPrefixedLink(w + y) == Some(Hit(|w|, ""))
  {
    var n, x :| Run(n, LowerOrHyphen) && Run(x, NotCloseBracket) && w == "[[" + n + ":" + x + "]]";
    assert w + y == "[[" + n + ":" + x + "]]" + y;
    PrefixedLinkMatches(n, x, y);
  }

  lemma TemplateFound(w: string, y: string)
    requires IsTemplate(w)
    ensures MatchTemplate(w + y) == Some(Hit(|w|, ""))
  {
    var x :| Run(x, NotCloseBrace) && w == "{{" + x + "}}";
    assert w + y == "{{" + x + "}}" + y;
    TemplateMatches(x, y);
  }

  lemma PipedLinkFound(w: string, r: string, y: string)
    requires IsPipedLink(w, r)
    ensures MatchPipedLink(w + y) == Some(Hit(|w|, r))
  {
    var t :| Run(t, NotPipeOrCloseBracket) && w == "[[" + t + "|" + r + "]]";
    assert w + y == "[[" + t + "|" + r + "]]" + y;
    PipedLinkMatches(t, r, y);
  }

  lemma FileLinkFound(w: string, y: string)
    requires IsFileLink(w)
    ensures MatchFileLink(w + y) == Some(Hit(|w|, ""))
  {
    var kw, x :| IsFileKeyword(kw) && Run(x, NotCloseBracket) && w == "[[" + kw + x + "]]";
    assert w + y == "[[" + kw + x + "]]" + y;
    FileLinkMatches(kw, x, y);
  }
}

/** Consequences of the pattern shapes for whole substitutions. */
module Rewriting {
  import opened Rewrite
  import opened Patterns
  import opened Shapes

  /** An instance of a pattern, preceded by text that cannot begin a match,
      is replaced as the pattern prescribes and nothing around it changes:
      a piped link `[[T|A]]` becomes `A`, a bare link `[[X]]` becomes `X`,
      and a category link, language link, template or file link vanishes. */
  lemma RewriteInPlace(p: Pattern, x: string, w: string, r: string, y: string)
    requires Opener(p) !in x
    requires Shape(p, w, r)
    requires p == NewlineRun ==> y == [] || y[0] != '\n'
    ensures Substitute(p, x + w + y) == x + r + Substitute(p, y)
  {
    ScannerWellBehaved(p);
    ShapeMatches(p, w, r, y);
    SubReplacesHit(ScannerOf(p), Opener(p), x, w, r, y);
  }

  /** A text that is one whole instance of a pattern becomes its
      replacement. */
  lemma RewriteWhole(p: Pattern, w: string, r: string)
    requires Shape(p, w, r)
    ensures Substitute(p, w) == r
  {
    RewriteInPlace(p, [], w, r, []);
    assert [] + w + [] == w;
    assert Substitute(p, []) == [];
    assert [] + r + [] == r;
  }
}
