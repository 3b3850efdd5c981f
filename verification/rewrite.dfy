/**
 Python's `re.sub` as used by `clean_wikitext` (Main.py:48-54): leftmost
 match, non-overlapping, scanning resumes right after each replacement and
 the replacement text is never rescanned.

 None of the patterns involved has an anchor or a look-behind, so whether a
 match begins at offset i depends only on the suffix `s[i..]`.  A pattern is
 therefore represented by its scanner: a function that looks at a suffix
 and reports the match that begins at its first character, if any.
 */
module Rewrite {
  import opened Wrappers

  /** A match: how many characters it covers and what replaces them. */
  datatype Hit = Hit(len: nat, repl: string)

  /** A scanner for one pattern. */
  type Scanner = string -> Option<Hit>

  /** Every match covers at least one character of the text and is
      replaced by strictly shorter text. */
  ghost predicate Shrinks(m: Scanner) {
    forall s :: m(s).Some? ==> 0 < m(s).value.len <= |s| && |m(s).value.repl| < m(s).value.len
  }

  /** Every match begins with the character `c`. */
  ghost predicate OpensWith(m: Scanner, c: char) {
    forall s :: m(s).Some? ==> |s| > 0 && s[0] == c
  }

  /** `re.sub(pattern, repl, s)` for the pattern scanned by `m`. */
  function Sub(m: Scanner, s: string): (r: string)
    requires Shrinks(m)
    ensures |r| <= |s|
    decreases |s|
  {
    if s == [] then []
    else
      match m(s)
      case Some(h) => h.repl + Sub(m, s[h.len..])
      case None => [s[0]] + Sub(m, s[1..])
  }

  /** A match at the front is replaced and scanning resumes right after it. */
  lemma SubAtMatch(m: Scanner, s: string, h: Hit)
    requires Shrinks(m)
    requires m(s) == Some(h)
    ensures Sub(m, s) == h.repl + Sub(m, s[h.len..])
  {
  }

  /** No match of the pattern begins anywhere in `s`. */
  ghost predicate NoMatch(m: Scanner, s: string) {
    forall i :: 0 <= i < |s| ==> m(s[i..]).None?
  }

  /** A substitution changes the text exactly when the pattern occurs in it. */
  lemma {:induction false} SubUnchangedIff(m: Scanner, s: string)
    requires Shrinks(m)
    ensures Sub(m, s) == s <==> NoMatch(m, s)
    decreases |s|
  {
    if s != [] {
      SubUnchangedIff(m, s[1..]);
      assert s[0..] == s;
      forall i | 1 <= i < |s|
        ensures s[1..][i - 1..] == s[i..]
      {
      }
      match m(s)
      case Some(h) =>
        assert |Sub(m, s[h.len..])| <= |s| - h.len;
      case None =>
        if NoMatch(m, s[1..]) {
          assert Sub(m, s) == [s[0]] + s[1..] == s;
        } else {
          var i :| 0 <= i < |s[1..]| && m(s[1..][i..]).Some?;
          assert m(s[i + 1..]).Some?;
          assert Sub(m, s) != s by {
            assert Sub(m, s[1..]) != s[1..];
          }
        }
    }
  }

  /** Text that cannot begin a match passes through unchanged and does not
      disturb the rewriting of what follows it. */
  lemma {:induction false} SubPassThrough(m: Scanner, c: char, x: string, y: string)
    requires Shrinks(m) && OpensWith(m, c)
    requires c !in x
    ensures Sub(m, x + y) == x + Sub(m, y)
    decreases |x|
  {
    if x == [] {
      assert x + y == y;
    } else {
      var s := x + y;
      assert s[0] == x[0] && s[1..] == x[1..] + y;
      SubAtMiss(m, s);
      SubPassThrough(m, c, x[1..], y);
      Regroup(x, Sub(m, y));
    }
  }

  /** A match at the front, preceded by text that cannot begin a match, is
      replaced and nothing around it changes. */
  lemma SubReplacesHit(m: Scanner, c: char, x: string, w: string, r: string, y: string)
    requires Shrinks(m) && OpensWith(m, c)
    requires c !in x
    requires m(w + y) == Some(Hit(|w|, r))
    ensures Sub(m, x + w + y) == x + r + Sub(m, y)
  {
    var t := Sub(m, y);
    assert Sub(m, w + y) == r + t by {
      SubAtMatch(m, w + y, Hit(|w|, r));
      assert (w + y)[|w|..] == y;
    }
    SubPassThrough(m, c, x, w + y);
    assert x + w + y == x + (w + y);
    assert x + (r + t) == x + r + t;
  }

  /** Where no match begins, the first character is kept and scanning
      moves on by one. */
  lemma SubAtMiss(m: Scanner, s: string)
    requires Shrinks(m)
    requires s != [] && m(s).None?
    ensures Sub(m, s) == [s[0]] + Sub(m, s[1..])
  {
  }

  /** When no match begins at the first two offsets and the opening
      character does not occur after them, the text is kept. */
  lemma SubFrontMisses(m: Scanner, c: char, s: string)
    requires Shrinks(m) && OpensWith(m, c)
    requires |s| >= 2 && m(s).None? && m(s[1..]).None?
    requires c !in s[2..]
    ensures Sub(m, s) == s
  {
    var rest := s[2..];
    assert Sub(m, rest) == rest by {
      SubPassThrough(m, c, rest, []);
      assert rest + [] == rest;
    }
    assert s[1..][1..] == rest;
    assert s == [s[0]] + ([s[1]] + rest);
  }

  lemma Regroup(x: string, t: string)
    requires x != []
    ensures [x[0]] + (x[1..] + t) == x + t
  {
    assert x == [x[0]] + x[1..];
  }
}
