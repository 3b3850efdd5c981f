/** Consequences of `clean_wikitext` as a whole. */
module CleaningFacts {
  import opened Chars
  import opened Rewrite
  import opened Patterns
  import opened Cleaner
  import opened Shapes

  /** A substitution whose opener never occurs leaves the text alone. */
  lemma SubstituteWithoutOpener(p: Pattern, s: string)
    requires Opener(p) !in s
    ensures Substitute(p, s) == s
  {
    ScannerWellBehaved(p);
    SubPassThrough(ScannerOf(p), Opener(p), s, []);
    assert s + [] == s;
  }

  /** Without three adjacent newlines there is nothing to collapse. */
  lemma CollapseKeeps(s: string)
    requires NoTripleNewline(s)
    ensures Substitute(NewlineRun, s) == s
  {
    var m := ScannerOf(NewlineRun);
    ScannerWellBehaved(NewlineRun);
    assert m == MatchNewlineRun;
    forall i | 0 <= i < |s| ensures m(s[i..]).None? {
      NoRunAt(s, i);
    }
    SubUnchangedIff(m, s);
  }

  lemma NoRunAt(s: string, i: nat)
    requires NoTripleNewline(s) && i < |s|
    ensures MatchNewlineRun(s[i..]).None?
  {
    assert !TripleNewlineAt(s, i);
  }

  /** Text with nothing to strip is kept by `str.strip()`. */
  lemma StripKeeps(s: string)
    requires s == [] || (!IsSpace(s[0]) && !IsSpace(s[|s| - 1]))
    ensures Strip(s) == s
  {
    if s != [] {
      RunEndIs(s, 0, 0, Space);
    }
  }

  /** Plain prose passes through `clean_wikitext` unchanged: text with no
      `[`, no `{`, no "See also" heading, no three adjacent newlines and no
      surrounding whitespace. */
  lemma CleanKeepsPlainText(s: string)
    requires '[' !in s && '{' !in s
    requires forall i :: 0 <= i < |s| ==> !SeeAlsoAt(s, i)
    requires NoTripleNewline(s)
    requires s == [] || (!IsSpace(s[0]) && !IsSpace(s[|s| - 1]))
    ensures CleanWikitext(s) == s && CleanWikitextAsWritten(s) == s
  {
    TruncateKeepsAllIff(s);
    SubstituteWithoutOpener(CategoryLink, s);
    SubstituteWithoutOpener(PrefixedLink, s);
    SubstituteWithoutOpener(Template, s);
    SubstituteWithoutOpener(PipedLink, s);
    SubstituteWithoutOpener(BareLink, s);
    SubstituteWithoutOpener(FileLink, s);
    CollapseKeeps(s);
    StripKeeps(s);
  }

  // ---------------------------------------------------------------------
  // The "See also" heading as a concatenation of its parts

  /** A text `==\s*See also\s*==` matches in full: two equals signs, any
      whitespace, "see also" in any case, any whitespace, two equals signs. */
  ghost predicate IsSeeAlsoHeading(w: string) {
    exists a, k, b ::
      && AllIn(a, Space) && AllIn(b, Space)
      && |k| == 8 && HasIgnoringCase(k, 0, "see also")
      && w == "==" + a + k + b + "=="
  }

  /** `s[i..i + n]` is a heading. */
  ghost predicate HeadingOf(s: string, i: nat, n: nat) {
    i + n <= |s| && IsSeeAlsoHeading(s[i..i + n])
  }

  /** A heading begins at offset `i` of `s`. */
  ghost predicate HeadingAt(s: string, i: nat) {
    exists n: nat :: HeadingOf(s, i, n)
  }

  /** `s` holds, from offset `i`, the parts `a`, `k`, `b` of a heading
      between its two pairs of equals signs. */
  predicate PartsAt(s: string, i: nat, a: string, k: string, b: string) {
    var j := i + 2 + |a|;
    var q := j + |k|;
    && q + |b| + 2 <= |s|
    && HasAt(s, i, "==")
    && s[i + 2..j] == a && s[j..q] == k && s[q..q + |b|] == b
    && HasAt(s, q + |b|, "==")
  }

  /** The scanning predicate `SeeAlsoAt` finds exactly the headings. */
  lemma SeeAlsoAtIff(s: string, i: nat)
    requires i <= |s|
    ensures SeeAlsoAt(s, i) <==> HeadingAt(s, i)
  {
    if SeeAlsoAt(s, i) {
      ScanGivesHeading(s, i);
    }
    if HeadingAt(s, i) {
      var n: nat :| HeadingOf(s, i, n);
      var w := s[i..i + n];
      var a, k, b :|
        && AllIn(a, Space) && AllIn(b, Space)
        && |k| == 8 && HasIgnoringCase(k, 0, "see also")
        && w == "==" + a + k + b + "==";
      HeadingLayout(s, i, n, a, k, b);
      HeadingScans(s, i, a, k, b);
    }
  }

  lemma ScanGivesHeading(s: string, i: nat)
    requires i <= |s| && SeeAlsoAt(s, i)
    ensures HeadingAt(s, i)
  {
    var j := RunEnd(s, i + 2, Space);
    var q := RunEnd(s, j + 8, Space);
    var a, k, b := s[i + 2..j], s[j..j + 8], s[j + 8..q];
    assert AllIn(a, Space) && AllIn(b, Space);
    assert HasIgnoringCase(k, 0, "see also");
    assert PartsAt(s, i, a, k, b);
    PartsMakeHeading(s, i, a, k, b);
  }

  lemma PartsMakeHeading(s: string, i: nat, a: string, k: string, b: string)
    requires AllIn(a, Space) && AllIn(b, Space)
    requires |k| == 8 && HasIgnoringCase(k, 0, "see also")
    requires PartsAt(s, i, a, k, b)
    ensures HeadingOf(s, i, |a| + |k| + |b| + 4)
  {
    var n := |a| + |k| + |b| + 4;
    var w := "==" + a + k + b + "==";
    var j := i + 2 + |a|;
    var q := j + |k|;
    var e := q + |b|;
    forall m | 0 <= m < n ensures s[i + m] == w[m] {
      if m < 2 {
        assert s[i..i + 2][m] == s[i + m];
      } else if m < 2 + |a| {
        assert s[i + 2..j][m - 2] == s[i + m];
      } else if m < 2 + |a| + |k| {
        assert s[j..q][m - 2 - |a|] == s[i + m];
      } else if m < n - 2 {
        assert s[q..e][m - 2 - |a| - |k|] == s[i + m];
      } else {
        assert s[e..e + 2][m - (n - 2)] == s[i + m];
      }
    }
    assert s[i..i + n] == w;
  }

  /** The parts of a heading found at offset `i`, read off `s`. */
  lemma HeadingLayout(s: string, i: nat, n: nat, a: string, k: string, b: string)
    requires i + n <= |s| && s[i..i + n] == "==" + a + k + b + "=="
    ensures PartsAt(s, i, a, k, b)
  {
    var w := s[i..i + n];
    var j := i + 2 + |a|;
    var q := j + |k|;
    var e := q + |b|;
    forall m | 0 <= m < 2 ensures s[i + m] == "=="[m] {
      assert s[i + m] == w[m];
    }
    forall m | 0 <= m < |a| ensures s[i + 2 + m] == a[m] {
      assert s[i + 2 + m] == w[2 + m];
    }
    forall m | 0 <= m < |k| ensures s[j + m] == k[m] {
      assert s[j + m] == w[2 + |a| + m];
    }
    forall m | 0 <= m < |b| ensures s[q + m] == b[m] {
      assert s[q + m] == w[2 + |a| + |k| + m];
    }
    forall m | 0 <= m < 2 ensures s[e + m] == "=="[m] {
      assert s[e + m] == w[n - 2 + m];
    }
    assert s[i..i + 2] == "==";
    assert s[i + 2..j] == a;
    assert s[j..q] == k;
    assert s[q..e] == b;
    assert s[e..e + 2] == "==";
  }

  /** The parts of a heading, read off `s`, are what the scan finds. */
  lemma HeadingScans(s: string, i: nat, a: string, k: string, b: string)
    requires AllIn(a, Space) && AllIn(b, Space)
    requires |k| == 8 && HasIgnoringCase(k, 0, "see also")
    requires PartsAt(s, i, a, k, b)
    ensures SeeAlsoAt(s, i)
  {
    var j := i + 2 + |a|;
    LeadingSpaceRun(s, i, a, k, b);
    KeywordAt(s, i, a, k, b);
    TrailingSpaceRun(s, i, a, k, b);
    SeeAlsoFromParts(s, i, j, j + 8 + |b|);
  }

  /** A character that matches `s` under `re.IGNORECASE` is not whitespace,
      so the first whitespace run stops in front of the keyword. */
  lemma LeadingSpaceRun(s: string, i: nat, a: string, k: string, b: string)
    requires AllIn(a, Space)
    requires |k| == 8 && HasIgnoringCase(k, 0, "see also")
    requires PartsAt(s, i, a, k, b)
    ensures RunEnd(s, i + 2, Space) == i + 2 + |a|
  {
    var j := i + 2 + |a|;
    assert "see also"[0] == 's';
    assert MatchesIgnoringCase(k[0 + 0], "see also"[0]);
    assert s[j..j + 8][0] == k[0];
    RunOverAt(s, i + 2, a, Space);
  }

  lemma KeywordAt(s: string, i: nat, a: string, k: string, b: string)
    requires |k| == 8 && HasIgnoringCase(k, 0, "see also")
    requires PartsAt(s, i, a, k, b)
    ensures HasIgnoringCase(s, i + 2 + |a|, "see also")
  {
    var j := i + 2 + |a|;
    forall m | 0 <= m < 8 ensures MatchesIgnoringCase(s[j + m], "see also"[m]) {
      assert s[j..j + 8][m] == k[m];
    }
  }

  /** The second whitespace run stops at the closing equals signs. */
  lemma TrailingSpaceRun(s: string, i: nat, a: string, k: string, b: string)
    requires AllIn(b, Space)
    requires |k| == 8
    requires PartsAt(s, i, a, k, b)
    ensures var q := i + 2 + |a| + 8;
      RunEnd(s, q, Space) == q + |b| && HasAt(s, q + |b|, "==")
  {
    var q := i + 2 + |a| + 8;
    assert s[q + |b|] == s[q + |b|..q + |b| + 2][0] == '=';
    RunOverAt(s, q, b, Space);
  }

  lemma SeeAlsoFromParts(s: string, i: nat, j: nat, e: nat)
    requires HasAt(s, i, "==") && j + 8 <= |s|
    requires RunEnd(s, i + 2, Space) == j && HasIgnoringCase(s, j, "see also")
    requires RunEnd(s, j + 8, Space) == e && HasAt(s, e, "==")
    ensures SeeAlsoAt(s, i)
  {
  }

  /** Step 1 keeps exactly the text before the first heading. */
  lemma TruncateAtFirstHeading(s: string)
    ensures var r := TruncateAtSeeAlso(s);
      && r == s[..|r|]
      && (forall i :: 0 <= i < |r| ==> !HeadingAt(s, i))
      && (|r| < |s| ==> HeadingAt(s, |r|))
  {
    var r := TruncateAtSeeAlso(s);
    forall i | 0 <= i < |r| ensures !HeadingAt(s, i) {
      SeeAlsoAtIff(s, i);
    }
    if |r| < |s| {
      SeeAlsoAtIff(s, |r|);
    }
  }
}
