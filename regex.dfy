/**
 The fragment of JavaScript regular expressions that the item-name rule
 uses: a pattern is a sequence of atoms, searched for at every start
 position as `RegExp.prototype.test` does for a pattern without flags.
 */
module Regex {

  /** Characters that `.` does not match without the `s` flag. */
  predicate IsLineTerminator(c: char)
  {
    c == '\n' || c == '\r' || c == '\U{2028}' || c == '\U{2029}'
  }

  /** `.`, a literal character, and `$` (end of input, as there is no `m` flag). */
  datatype Atom = AnyChar | Literal(c: char) | EndOfInput

  /** The pattern matches `s` when its first atom is tried at position `i`. */
  predicate MatchesAt(pattern: seq<Atom>, s: string, i: nat)
    requires i <= |s|
    decreases |pattern|
  {
    if pattern == [] then true
    else match pattern[0]
      case AnyChar => i < |s| && !IsLineTerminator(s[i]) && MatchesAt(pattern[1..], s, i + 1)
      case Literal(c) => i < |s| && s[i] == c && MatchesAt(pattern[1..], s, i + 1)
      case EndOfInput => i == |s| && MatchesAt(pattern[1..], s, i)
  }

  /** Some start position at or after `start` gives a match. */
  predicate SearchFrom(pattern: seq<Atom>, s: string, start: nat)
    requires start <= |s|
    decreases |s| - start
  {
    MatchesAt(pattern, s, start) || (start < |s| && SearchFrom(pattern, s, start + 1))
  }

  /** `pattern.test(s)`. */
  predicate Test(pattern: seq<Atom>, s: string)
  {
    SearchFrom(pattern, s, 0)
  }

  /** The pattern `/.s$/`. */
  const TrailingS: seq<Atom> := [AnyChar, Literal('s'), EndOfInput]

  /** `/.s$/` matches at `i` exactly when `i` is the second-to-last position of the closed form. */
  lemma TrailingSAt(s: string, i: nat)
    requires i <= |s|
    ensures MatchesAt(TrailingS, s, i)
        <==> (i + 2 == |s| && s[i + 1] == 's' && !IsLineTerminator(s[i]))
  {
    assert TrailingS[1..] == [Literal('s'), EndOfInput];
    assert TrailingS[1..][1..] == [EndOfInput];
    assert TrailingS[1..][1..][1..] == [];
  }

  lemma {:induction false} TrailingSSearch(s: string, start: nat)
    requires start <= |s|
    ensures SearchFrom(TrailingS, s, start)
        <==> (start + 2 <= |s| && s[|s| - 1] == 's' && !IsLineTerminator(s[|s| - 2]))
    decreases |s| - start
  {
    TrailingSAt(s, start);
    if start < |s| {
      TrailingSSearch(s, start + 1);
    }
  }

  /**
   `/.s$/.test(s)` holds exactly when `s` has at least two characters, ends in
   a lower-case `s`, and the character before it is not a line terminator.
   */
  lemma TrailingSTest(s: string)
    ensures Test(TrailingS, s)
        <==> (|s| >= 2 && s[|s| - 1] == 's' && !IsLineTerminator(s[|s| - 2]))
  {
    TrailingSSearch(s, 0);
  }
}
