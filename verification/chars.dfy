/**
 The character classes that the regular expressions and `str.strip()` of
 `clean_wikitext` (Main.py) rely on, and the maximal-run scanner every
 hand-written pattern matcher is built from.
 */
module Chars {

  /** Python's notion of whitespace for `str` (the class `\s` of a `str`
      pattern, and what `str.strip()` removes): ASCII 0x09-0x0D and
      0x1C-0x20, plus the Unicode separators and spaces. */
  predicate IsSpace(c: char) {
    || ('\t' <= c <= '\r')
    || ('\U{1C}' <= c <= ' ')
    || c == '\U{85}' || c == '\U{A0}' || c == '\U{1680}'
    || ('\U{2000}' <= c <= '\U{200A}')
    || c == '\U{2028}' || c == '\U{2029}' || c == '\U{202F}'
    || c == '\U{205F}' || c == '\U{3000}'
  }

  /** Does text character `c` match pattern character `p` under
      `re.IGNORECASE`?  `p` is written in lower case.  Besides ASCII case,
      Python's matcher treats U+017F (long s) as `s`, U+0130 and U+0131
      (dotted capital I, dotless i) as `i`, and U+212A (Kelvin sign) as `k`. */
  predicate MatchesIgnoringCase(c: char, p: char) {
    || c == p
    || ('a' <= p <= 'z' && c as int == p as int - 32)
    || (p == 's' && c == '\U{17F}')
    || (p == 'i' && (c == '\U{130}' || c == '\U{131}'))
    || (p == 'k' && c == '\U{212A}')
  }

  /** Does `s` hold, at offset `i`, the lower-case literal `lit` under
      `re.IGNORECASE`? */
  predicate HasIgnoringCase(s: string, i: nat, lit: string) {
    && i + |lit| <= |s|
    && forall k :: 0 <= k < |lit| ==> MatchesIgnoringCase(s[i + k], lit[k])
  }

  /** Does `s` hold the exact literal `lit` at offset `i`? */
  predicate HasAt(s: string, i: nat, lit: string) {
    i + |lit| <= |s| && s[i..i + |lit|] == lit
  }

  /** The character classes that occur, repeated by `+`, `*` or `{3,}`, in
      the patterns of `clean_wikitext`. */
  datatype CharClass =
    | NotCloseBracket          // [^\]]
    | NotPipeOrCloseBracket    // [^\|\]]
    | NotCloseBrace            // [^\}]
    | LowerOrHyphen            // [a-z\-]
    | Newline                  // \n
    | Space                    // \s

  predicate InClass(c: char, k: CharClass) {
    match k
    case NotCloseBracket => c != ']'
    case NotPipeOrCloseBracket => c != '|' && c != ']'
    case NotCloseBrace => c != '}'
    case LowerOrHyphen => ('a' <= c <= 'z') || c == '-'
    case Newline => c == '\n'
    case Space => IsSpace(c)
  }

  /** The end of the longest run of class-`k` characters that starts at
      offset `i`: where a greedy repetition of `k` stops. */
  function RunEnd(s: string, i: nat, k: CharClass): (e: nat)
    requires i <= |s|
    ensures i <= e <= |s|
    ensures forall j :: i <= j < e ==> InClass(s[j], k)
    ensures e == |s| || !InClass(s[e], k)
    decreases |s| - i
  {
    if i == |s| || !InClass(s[i], k) then i else RunEnd(s, i + 1, k)
  }

  /** The run end is determined by where the class first fails. */
  lemma RunEndIs(s: string, i: nat, j: nat, k: CharClass)
    requires i <= j <= |s|
    requires forall m :: i <= m < j ==> InClass(s[m], k)
    requires j == |s| || !InClass(s[j], k)
    ensures RunEnd(s, i, k) == j
  {
  }
}
