/**
 `clean_wikitext` (Main.py:46-55): the fixed, order-sensitive pipeline that
 turns the wikitext of a recipe page into display text.
 */
module Cleaner {
  import opened Wrappers
  import opened Chars
  import opened Rewrite
  import opened Patterns

  // ---------------------------------------------------------------------
  // Step 1: cut at the "See also" heading

  /** A match of `==\s*See also\s*==` (under `re.IGNORECASE`) begins at
      offset `i` of `s`.  Both `\s*` runs are followed by a character that
      is not whitespace, so the greedy runs are the only candidates. */
  predicate SeeAlsoAt(s: string, i: nat) {
    && HasAt(s, i, "==")
    && var j := RunEnd(s, i + 2, Space);
    && HasIgnoringCase(s, j, "see also")
    && var k := RunEnd(s, j + 8, Space);
    && HasAt(s, k, "==")
  }

  /** Where the first "See also" heading at or after offset `i` begins, or
      the end of the text when there is none. */
  function FirstSeeAlso(s: string, i: nat): (e: nat)
    requires i <= |s|
    ensures i <= e <= |s|
    ensures forall j :: i <= j < e ==> !SeeAlsoAt(s, j)
    ensures e < |s| ==> SeeAlsoAt(s, e)
    decreases |s| - i
  {
    if i == |s| || SeeAlsoAt(s, i) then i else FirstSeeAlso(s, i + 1)
  }

  /** `re.split(r"==\s*See also\s*==", s, flags=re.IGNORECASE)[0]`: the text
      before the first "See also" heading, or all of it when there is none. */
  function TruncateAtSeeAlso(s: string): (r: string)
    ensures |r| <= |s| && r == s[..|r|]
    ensures forall i :: 0 <= i < |r| ==> !SeeAlsoAt(s, i)
    ensures |r| < |s| ==> SeeAlsoAt(s, |r|)
  {
    s[..FirstSeeAlso(s, 0)]
  }

  /** The text is kept whole exactly when no "See also" heading occurs in it. */
  lemma TruncateKeepsAllIff(s: string)
    ensures TruncateAtSeeAlso(s) == s <==> forall i :: 0 <= i < |s| ==> !SeeAlsoAt(s, i)
  {
    var r := TruncateAtSeeAlso(s);
    if |r| < |s| {
      assert SeeAlsoAt(s, |r|);
    }
  }

  // ---------------------------------------------------------------------
  // Step 8: collapse newline runs, then strip

  /** Three newlines start at offset `i` of `s`. */
  predicate TripleNewlineAt(s: string, i: nat) {
    i + 3 <= |s| && s[i] == '\n' && s[i + 1] == '\n' && s[i + 2] == '\n'
  }

  /** No three consecutive newlines. */
  predicate NoTripleNewline(s: string) {
    forall i :: 0 <= i < |s| ==> !TripleNewlineAt(s, i)
  }

  /** How many newlines `s` starts with. */
  function LeadingNewlines(s: string): nat {
    RunEnd(s, 0, Newline)
  }

  lemma LeadingNewlinesCons(c: char, x: string)
    ensures LeadingNewlines([c] + x) == if c == '\n' then 1 + LeadingNewlines(x) else 0
  {
    var s := [c] + x;
    if c == '\n' {
      var e := RunEnd(x, 0, Newline);
      forall m | 0 <= m < 1 + e ensures InClass(s[m], Newline) {
        if m > 0 { assert s[m] == x[m - 1]; }
      }
      assert 1 + e == |s| || s[1 + e] == x[e];
      RunEndIs(s, 0, 1 + e, Newline);
    }
  }

  lemma NoTripleCons(c: char, x: string)
    requires NoTripleNewline(x)
    requires c != '\n' || LeadingNewlines(x) <= 1
    ensures NoTripleNewline([c] + x)
  {
    var s := [c] + x;
    forall i | 0 <= i < |s| ensures !TripleNewlineAt(s, i) {
      if i == 0 {
        if c == '\n' && |x| >= 2 && x[0] == '\n' {
          var e := LeadingNewlines(x);
          assert e <= 1;
          assert x[1] != '\n' by {
            assert e == 1;
          }
          assert s[2] == x[1];
        }
      } else if i + 3 <= |s| {
        assert s[i] == x[i - 1] && s[i + 1] == x[i] && s[i + 2] == x[i + 1];
        assert !TripleNewlineAt(x, i - 1);
      }
    }
  }

  /** What `re.sub(r"\n{3,}", "\n\n", s)` guarantees: no three newlines
      are adjacent, and the text starts with as many newlines as `s`, capped
      at two. */
  ghost predicate CollapsedWell(s: string) {
    && NoTripleNewline(Substitute(NewlineRun, s))
    && LeadingNewlines(Substitute(NewlineRun, s)) == if LeadingNewlines(s) >= 3 then 2 else LeadingNewlines(s)
  }

  lemma {:induction false} CollapseNoTriple(s: string)
    ensures CollapsedWell(s)
    decreases |s|
  {
    if s != [] {
      var n := LeadingNewlines(s);
      if n >= 3 {
        CollapseNoTriple(s[n..]);
        CollapseRun(s);
      } else {
        CollapseNoTriple(s[1..]);
        CollapseOther(s);
      }
    }
  }

  /** A run of three or more newlines at the front becomes exactly two. */
  lemma CollapseRun(s: string)
    requires LeadingNewlines(s) >= 3
    requires CollapsedWell(s[LeadingNewlines(s)..])
    ensures CollapsedWell(s)
  {
    var rest := s[LeadingNewlines(s)..];
    CollapseHead(s);
    assert LeadingNewlines(rest) == 0 by {
      RunEndIs(rest, 0, 0, Newline);
    }
    TwoNewlinesThen(Substitute(NewlineRun, rest));
  }

  lemma CollapseHead(s: string)
    requires LeadingNewlines(s) >= 3
    ensures Substitute(NewlineRun, s) == "\n\n" + Substitute(NewlineRun, s[LeadingNewlines(s)..])
  {
    ScannerWellBehaved(NewlineRun);
    SubAtMatch(ScannerOf(NewlineRun), s, Hit(LeadingNewlines(s), "\n\n"));
  }

  lemma TwoNewlinesThen(t: string)
    requires NoTripleNewline(t) && LeadingNewlines(t) == 0
    ensures NoTripleNewline("\n\n" + t) && LeadingNewlines("\n\n" + t) == 2
  {
    NoTripleCons('\n', t);
    LeadingNewlinesCons('\n', t);
    NoTripleCons('\n', ['\n'] + t);
    LeadingNewlinesCons('\n', ['\n'] + t);
    assert "\n\n" + t == ['\n'] + (['\n'] + t);
  }

  /** Fewer than three newlines at the front: the first character is kept. */
  lemma CollapseOther(s: string)
    requires s != [] && LeadingNewlines(s) < 3
    requires CollapsedWell(s[1..])
    ensures CollapsedWell(s)
  {
    KeepHead(s);
    LeadingNewlinesCons(s[0], s[1..]);
    var t := Substitute(NewlineRun, s[1..]);
    NoTripleCons(s[0], t);
    LeadingNewlinesCons(s[0], t);
  }

  lemma KeepHead(s: string)
    requires s != [] && LeadingNewlines(s) < 3
    ensures Substitute(NewlineRun, s) == [s[0]] + Substitute(NewlineRun, s[1..])
  {
    var m := ScannerOf(NewlineRun);
    assert m(s) == None by {
      assert m == MatchNewlineRun;
    }
    assert Shrinks(m) by {
      ScannerWellBehaved(NewlineRun);
    }
    SubAtMiss(m, s);
  }

  /** The start of the whitespace suffix of `s[lo..hi]`. */
  function TrailingSpaceStart(s: string, lo: nat, hi: nat): (b: nat)
    requires lo <= hi <= |s|
    ensures lo <= b <= hi
    ensures forall m :: b <= m < hi ==> IsSpace(s[m])
    ensures b == lo || !IsSpace(s[b - 1])
    decreases hi
  {
    if hi == lo || !IsSpace(s[hi - 1]) then hi else TrailingSpaceStart(s, lo, hi - 1)
  }

  /** `r` is `s` with the whitespace `s[..a]` in front of it and the
      whitespace after it taken away. */
  predicate StrippedAt(s: string, r: string, a: nat) {
    && a + |r| <= |s|
    && r == s[a..a + |r|]
    && AllIn(s[..a], Space)
    && AllIn(s[a + |r|..], Space)
  }

  /** `str.strip()`: the text with leading and trailing whitespace removed. */
  function Strip(s: string): (r: string)
    ensures |r| <= |s|
    ensures r == [] || (!IsSpace(r[0]) && !IsSpace(r[|r| - 1]))
    ensures exists a :: StrippedAt(s, r, a)
  {
    var a := RunEnd(s, 0, Space);
    var b := TrailingSpaceStart(s, a, |s|);
    assert StrippedAt(s, s[a..b], a);
    s[a..b]
  }

  /** A piece of a text without three adjacent newlines has none either. */
  lemma NoTripleSlice(s: string, a: nat, b: nat)
    requires a <= b <= |s|
    requires NoTripleNewline(s)
    ensures NoTripleNewline(s[a..b])
  {
    var t := s[a..b];
    forall i | 0 <= i < |t| ensures !TripleNewlineAt(t, i) {
      assert !TripleNewlineAt(s, a + i);
    }
  }

  lemma StripKeepsNoTriple(s: string)
    requires NoTripleNewline(s)
    ensures NoTripleNewline(Strip(s))
  {
    var r := Strip(s);
    var a: nat :| StrippedAt(s, r, a);
    NoTripleSlice(s, a, a + |r|);
  }

  // ---------------------------------------------------------------------
  // The pipeline

  /** Step 8: collapse every run of three or more newlines to two, then
      `str.strip()`. */
  function Finish(t: string): (r: string)
    ensures |r| <= |t|
    ensures r == [] || (!IsSpace(r[0]) && !IsSpace(r[|r| - 1]))
    ensures NoTripleNewline(r)
  {
    var c := Substitute(NewlineRun, t);
    CollapseNoTriple(t);
    StripKeepsNoTriple(c);
    Strip(c)
  }

  /** `clean_wikitext(text)` in the order Main.py:47-54 applies its steps:
      cut at "See also", drop category links, drop lower-case-prefixed
      links, drop templates, unpipe links, unwrap bare links, drop file and
      image links, then collapse newline runs and strip.  Because bare links
      are unwrapped before file links are looked for, an ordinary
      `[[File:...]]` link reaches the last step without its brackets and is
      kept as text (see `FileLinks`). */
  function CleanWikitextAsWritten(text: string): (r: string)
    ensures |r| <= |text|
    ensures r == [] || (!IsSpace(r[0]) && !IsSpace(r[|r| - 1]))
    ensures NoTripleNewline(r)
  {
    var t1 := TruncateAtSeeAlso(text);
    var t2 := Substitute(CategoryLink, t1);
    var t3 := Substitute(PrefixedLink, t2);
    var t4 := Substitute(Template, t3);
    var t5 := Substitute(PipedLink, t4);
    var t6 := Substitute(BareLink, t5);
    var t7 := Substitute(FileLink, t6);
    Finish(t7)
  }

  /** `clean_wikitext(text)` with file and image links dropped before links
      are unpiped and unwrapped, so that they are removed as the pipeline
      means them to be.  Every other step is as in `CleanWikitextAsWritten`. */
  function CleanWikitext(text: string): (r: string)
    ensures |r| <= |text|
    ensures r == [] || (!IsSpace(r[0]) && !IsSpace(r[|r| - 1]))
    ensures NoTripleNewline(r)
  {
    var t1 := TruncateAtSeeAlso(text);
    var t2 := Substitute(CategoryLink, t1);
    var t3 := Substitute(PrefixedLink, t2);
    var t4 := Substitute(Template, t3);
    var t5 := Substitute(FileLink, t4);
    var t6 := Substitute(PipedLink, t5);
    var t7 := Substitute(BareLink, t6);
    Finish(t7)
  }
}
