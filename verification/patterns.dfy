/**
 The seven substitution patterns of `clean_wikitext` (Main.py:48-54), each
 with its own hand-written scanner.  Every repetition in these patterns
 either ends the pattern or is followed by a character its class excludes.
 The greedy maximal run is the one the engine takes first, and backtracking
 never yields a different match: where the run is followed by a character,
 a shorter run cannot be followed by it, and `\n{3,}`, which ends its
 pattern, succeeds on the greedy run before any shorter one is tried.
 */
module Patterns {
  import opened Wrappers
  import opened Chars
  import opened Rewrite

  datatype Pattern =
    | CategoryLink   // \[\[Category:[^\]]+\]\]                 removed
    | PrefixedLink   // \[\[[a-z\-]+:[^\]]+\]\]                 removed
    | Template       // \{\{[^\}]+\}\}                          removed
    | PipedLink      // \[\[[^\|\]]+\|([^\]]+)\]\]              replaced by the alias
    | BareLink       // \[\[([^\]]+)\]\]                        replaced by the inner text
    | FileLink       // \[\[(File|Image):[^\]]+\]\], IGNORECASE  removed
    | NewlineRun     // \n{3,}                                  replaced by two newlines

  /** The character every match of `p` begins with. */
  function Opener(p: Pattern): char {
    match p
    case Template => '{'
    case NewlineRun => '\n'
    case _ => '['
  }

  /** Every character of `t` belongs to class `k`. */
  predicate AllIn(t: string, k: CharClass) {
    forall i :: 0 <= i < |t| ==> InClass(t[i], k)
  }

  /** What every scanner below promises about a match it reports: it begins
      with `opener`, covers at least one character, and its replacement is
      shorter than the text it replaces. */
  predicate Found(s: string, h: Option<Hit>, opener: char) {
    h.Some? ==> 0 < h.value.len <= |s| && s[0] == opener && |h.value.repl| < h.value.len
  }

  /** Where `[^c]+` followed by a doubled closer `cc` ends, when it does:
      the class run that starts at `from` is non-empty and is followed by
      two closers (the first closer is the character that ended the run). */
  predicate ClosesAt(s: string, from: nat, e: nat, closer: char) {
    from < e && e + 1 < |s| && s[e + 1] == closer
  }

  /** `\[\[Category:[^\]]+\]\]` at the start of `s`. */
  function MatchCategoryLink(s: string): (h: Option<Hit>)
    ensures Found(s, h, '[')
  {
    if !HasAt(s, 0, "[[Category:") then None
    else
      var e := RunEnd(s, 11, NotCloseBracket);
      if ClosesAt(s, 11, e, ']') then Some(Hit(e + 2, "")) else None
  }

  /** `\[\[[a-z\-]+:[^\]]+\]\]` at the start of `s`. */
  function MatchPrefixedLink(s: string): (h: Option<Hit>)
    ensures Found(s, h, '[')
  {
    if !HasAt(s, 0, "[[") then None
    else
      var a := RunEnd(s, 2, LowerOrHyphen);
      if !(a > 2 && a < |s| && s[a] == ':') then None
      else
        var e := RunEnd(s, a + 1, NotCloseBracket);
        if ClosesAt(s, a + 1, e, ']') then Some(Hit(e + 2, "")) else None
  }

  /** `\{\{[^\}]+\}\}` at the start of `s`. */
  function MatchTemplate(s: string): (h: Option<Hit>)
    ensures Found(s, h, '{')
  {
    if !HasAt(s, 0, "{{") then None
    else
      var e := RunEnd(s, 2, NotCloseBrace);
      if ClosesAt(s, 2, e, '}') then Some(Hit(e + 2, "")) else None
  }

  /** `\[\[[^\|\]]+\|([^\]]+)\]\]` at the start of `s`, replaced by group 1. */
  function MatchPipedLink(s: string): (h: Option<Hit>)
    ensures Found(s, h, '[')
  {
    if !HasAt(s, 0, "[[") then None
    else
      var a := RunEnd(s, 2, NotPipeOrCloseBracket);
      if !(a > 2 && a < |s| && s[a] == '|') then None
      else
        var e := RunEnd(s, a + 1, NotCloseBracket);
        if ClosesAt(s, a + 1, e, ']') then Some(Hit(e + 2, s[a + 1..e])) else None
  }

  /** `\[\[([^\]]+)\]\]` at the start of `s`, replaced by group 1. */
  function MatchBareLink(s: string): (h: Option<Hit>)
    ensures Found(s, h, '[')
  {
    if !HasAt(s, 0, "[[") then None
    else
      var e := RunEnd(s, 2, NotCloseBracket);
      if ClosesAt(s, 2, e, ']') then Some(Hit(e + 2, s[2..e])) else None
  }

  /** `\[\[(File|Image):[^\]]+\]\]` under `re.IGNORECASE` at the start of
      `s`; the alternation tries `File` first. */
  function MatchFileLink(s: string): (h: Option<Hit>)
    ensures Found(s, h, '[')
  {
    if !HasAt(s, 0, "[[") then None
    else
      var k := if HasIgnoringCase(s, 2, "file:") then 7
               else if HasIgnoringCase(s, 2, "image:") then 8
               else 0;
      if k == 0 then None
      else
        var e := RunEnd(s, k, NotCloseBracket);
        if ClosesAt(s, k, e, ']') then Some(Hit(e + 2, "")) else None
  }

  /** `\n{3,}` at the start of `s`, replaced by two newlines. */
  function MatchNewlineRun(s: string): (h: Option<Hit>)
    ensures Found(s, h, '\n')
  {
    var e := RunEnd(s, 0, Newline);
    if e >= 3 then Some(Hit(e, "\n\n")) else None
  }

  /** The scanner of pattern `p`. */
  function ScannerOf(p: Pattern): Scanner {
    match p
    case CategoryLink => MatchCategoryLink
    case PrefixedLink => MatchPrefixedLink
    case Template => MatchTemplate
    case PipedLink => MatchPipedLink
    case BareLink => MatchBareLink
    case FileLink => MatchFileLink
    case NewlineRun => MatchNewlineRun
  }

  /** Every scanner shrinks the text it rewrites and only matches at its
      pattern's opening character, so `Sub` applies to it. */
  lemma ScannerWellBehaved(p: Pattern)
    ensures Shrinks(ScannerOf(p)) && OpensWith(ScannerOf(p), Opener(p))
  {
    var m := ScannerOf(p);
    forall s ensures m(s).Some? ==> 0 < m(s).value.len <= |s| && |m(s).value.repl| < m(s).value.len && |s| > 0 && s[0] == Opener(p) {
      match p
      case CategoryLink => assert Found(s, MatchCategoryLink(s), '[');
      case PrefixedLink => assert Found(s, MatchPrefixedLink(s), '[');
      case Template => assert Found(s, MatchTemplate(s), '{');
      case PipedLink => assert Found(s, MatchPipedLink(s), '[');
      case BareLink => assert Found(s, MatchBareLink(s), '[');
      case FileLink => assert Found(s, MatchFileLink(s), '[');
      case NewlineRun => assert Found(s, MatchNewlineRun(s), '\n');
    }
  }

  /** `re.sub` with pattern `p`. */
  function Substitute(p: Pattern, s: string): (r: string)
    ensures |r| <= |s|
  {
    ScannerWellBehaved(p);
    Sub(ScannerOf(p), s)
  }
}
